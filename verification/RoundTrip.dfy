/** Lowering loses nothing but the grouping of sequences: events, scope records in
    ordinal order and resolver markers determine the source tree. */
module RoundTrip {
  import opened Choreography
  import opened Lowering
  import opened SourceEmission

  /** What the row that opens a scope says of it. */
  datatype Record = Record(scope: ScopeId, start: nat, split: nat, end: nat, reentrant: bool)

  /** The scope a marker opens. The second arm of a route opens none. */
  function Opens(m: Marker): seq<Record> {
    match m.event
    case Enter(RouteEntry(end)) => [Record(m.scope, m.offset, m.segmentEnd, end, m.reentrant)]
    case Enter(ParallelEntry(split)) => [Record(m.scope, m.offset, split, m.segmentEnd, m.reentrant)]
    case Enter(RollEntry) => [Record(m.scope, m.offset, m.segmentEnd, m.segmentEnd, m.reentrant)]
    case _ => []
  }

  function Records(ms: seq<Marker>): seq<Record> {
    if ms == [] then [] else Opens(ms[0]) + Records(ms[1..])
  }

  // ------------------------------------------------------------------ decoding

  datatype Lowered = Lowered(events: seq<Atom>, records: seq<Record>, resolvers: seq<Resolver>)

  function Lookup(rs: seq<Resolver>, scope: ScopeId): Option<nat> {
    if rs == [] then None else if rs[0].scope == scope then Some(rs[0].id) else Lookup(rs[1..], scope)
  }

  function MessageOf(a: Atom): Message {
    Message(Key(0, a.from), Key(0, a.to), a.logical,
            match a.payload case WireEvent(s) => Wire(s) case EndpointEvent(r) => Delegated(Key(0, r)))
  }

  function Link(first: Source, rest: Option<Source>): Source {
    if rest.None? then first else Chain(first, rest.value)
  }

  predicate OpensAt(x: Lowered, lo: nat, hi: nat, i: nat) {
    i < |x.records| && x.records[i].start == lo <= x.records[i].split <= x.records[i].end <= hi && lo < x.records[i].end
  }

  function ScopeTree(x: Lowered, rec: Record, left: Option<Source>, right: Option<Source>): Option<Source> {
    if left.None? then None
    else if rec.scope.kind.RollScope? then Some(Roll(left.value))
    else if right.None? then None
    else Some(Split(if rec.scope.kind.RouteScope? then Choice(Lookup(x.resolvers, rec.scope)) else Parallel, left.value, right.value))
  }

  /** Read events `lo..hi` with the scopes from record `i` on. Gives the tree, right
      grouped, and the first record not used; `None` for no events. */
  function Parse(x: Lowered, lo: nat, hi: nat, i: nat): (r: (Option<Source>, nat))
    requires hi <= |x.events|
    ensures r.1 >= i
    decreases |x.records| - i, hi - lo
  {
    if lo >= hi then (None, i)
    else if OpensAt(x, lo, hi, i) then
      var rec := x.records[i];
      var left := Parse(x, lo, rec.split, i + 1);
      var right := Parse(x, rec.split, rec.end, left.1);
      var rest := Parse(x, rec.end, hi, right.1);
      var tree := ScopeTree(x, rec, left.0, right.0);
      (if tree.None? then None else Some(Link(tree.value, rest.0)), rest.1)
    else
      var rest := Parse(x, lo + 1, hi, i);
      (Some(Link(Leaf(MessageOf(x.events[lo])), rest.0)), rest.1)
  }

  function Decode(rows: Rows): Option<Source> {
    Parse(Lowered(rows.events, Records(rows.markers), rows.resolvers), 0, |rows.events|, 0).0
  }

  // ------------------------------------------------------- sequences regrouped

  /** `n` followed by `rest`, with every sequence grouped to the right. */
  function Attach(n: Source, rest: Option<Source>): Source
    decreases n
  {
    match n
    case Leaf(_) => Link(n, rest)
    case Chain(l, r) => Attach(l, Some(Attach(r, rest)))
    case Split(f, l, r) => Link(Split(f, Attach(l, None), Attach(r, None)), rest)
    case Roll(b) => Link(Roll(Attach(b, None)), rest)
  }

  function Regrouped(n: Source): Source { Attach(n, None) }

  /** Regrouping identifies exactly the two groupings of three steps, and a
      regrouped tree is its own regrouping. */
  lemma {:induction false} RegroupsSequences(a: Source, b: Source, c: Source)
    ensures Regrouped(Chain(Chain(a, b), c)) == Regrouped(Chain(a, Chain(b, c)))
    ensures Regrouped(Regrouped(a)) == Regrouped(a)
  {
    AttachTwice(a, None);
    var tail := Some(Attach(c, None));
    assert Attach(Chain(b, c), None) == Attach(b, tail);
    assert Attach(Chain(a, b), tail) == Attach(a, Some(Attach(b, tail)));
  }

  lemma {:induction false} AttachTwice(n: Source, rest: Option<Source>)
    ensures Attach(Attach(n, rest), None) == Attach(n, if rest.None? then None else Some(Attach(rest.value, None)))
    decreases n
  {
    match n
    case Leaf(_) =>
    case Chain(l, r) =>
      AttachTwice(l, Some(Attach(r, rest)));
      AttachTwice(r, rest);
    case Split(f, l, r) =>
      AttachTwice(l, None);
      AttachTwice(r, None);
    case Roll(b) => AttachTwice(b, None);
  }

  // ------------------------------------------------- records of a lowered tree

  /** The scopes of a tree in preorder. */
  function Scopes(n: Source, o: nat, k: nat, reentrant: bool): seq<Record> {
    match n
    case Leaf(_) => []
    case Chain(l, r) => Scopes(l, o, k, reentrant) + Scopes(r, o + ShapeOf(l).events, k + ShapeOf(l).scopes, reentrant)
    case Split(f, l, r) =>
      var m := o + ShapeOf(l).events;
      [Record(ForkScope(f, k), o, m, m + ShapeOf(r).events, f.Choice? && reentrant)]
        + Scopes(l, o, k + 1, reentrant) + Scopes(r, m, k + 1 + ShapeOf(l).scopes, reentrant)
    case Roll(b) =>
      var end := o + ShapeOf(b).events;
      [Record(ScopeId(RollScope, k), o, end, end, false)] + Scopes(b, o, k + 1, true)
  }

  lemma {:induction false} RecordsConcat(a: seq<Marker>, b: seq<Marker>)
    ensures Records(a + b) == Records(a) + Records(b)
  {
    if a == [] {
      assert a + b == b;
    } else {
      RecordsConcat(a[1..], b);
      assert (a + b)[1..] == a[1..] + b;
      FirstRegroups(Opens(a[0]), Records(a[1..]), Records(b));
    }
  }

  lemma FirstRegroups(first: seq<Record>, a: seq<Record>, b: seq<Record>)
    ensures first + (a + b) == first + a + b
  {
  }

  lemma RecordsOne(m: Marker)
    ensures Records([m]) == Opens(m)
  {
    assert [m][1..] == [];
    assert Records([m][1..]) == [];
  }

  lemma {:induction false} RecordsOfThen(a: Piece, b: Piece)
    ensures var p := Then(a, b); Records(p.heads + p.tails) == Records(a.heads + a.tails) + Records(b.heads + b.tails)
  {
    hide Records;
    var p := Then(a, b);
    assert p.heads + p.tails == (a.heads + a.tails) + (b.heads + b.tails);
    RecordsConcat(a.heads + a.tails, b.heads + b.tails);
  }

  lemma BoundaryOpensNone(f: Fork, k: nat, split: nat, end: nat, reentrant: bool)
    ensures Records(Boundary(f, k, split, end, reentrant)) == []
  {
    RecordsOne(EndOfFirst(f, k, split));
    RecordsOne(StartOfSecond(f, k, split, end, reentrant));
    if f.Choice? { RecordsConcat([EndOfFirst(f, k, split)], [StartOfSecond(f, k, split, end, reentrant)]); }
  }

  lemma ForkOpens(f: Fork, o: nat, k: nat, reentrant: bool, split: nat, end: nat)
    ensures Records([Opening(f, k, o, split, end, reentrant)]) == [Record(ForkScope(f, k), o, split, end, f.Choice? && reentrant)]
    ensures Records(Boundary(f, k, split, end, reentrant)) == []
    ensures Records([Closing(ForkScope(f, k), end)]) == []
  {
    RecordsOne(Opening(f, k, o, split, end, reentrant));
    RecordsOne(Closing(ForkScope(f, k), end));
    BoundaryOpensNone(f, k, split, end, reentrant);
    hide Records;
    hide Boundary;
  }

  lemma {:induction false} RecordsOfForked(f: Fork, o: nat, k: nat, reentrant: bool, a: Piece, b: Piece)
    ensures var p, m := Forked(f, o, k, reentrant, a, b), o + |a.atoms|;
      Records(p.heads + p.tails) ==
        [Record(ForkScope(f, k), o, m, m + |b.atoms|, f.Choice? && reentrant)] + Records(a.heads + a.tails) + Records(b.heads + b.tails)
  {
    hide Records;
    hide Boundary;
    hide Opening;
    hide Closing;
    hide ForkScope;
    var split, end := o + |a.atoms|, o + |a.atoms| + |b.atoms|;
    var op, bd, cl := Opening(f, k, o, split, end, reentrant), Boundary(f, k, split, end, reentrant), Closing(ForkScope(f, k), end);
    ForkOpens(f, o, k, reentrant, split, end);
    RecordsOfSeven([op], a.heads, a.tails, b.heads, bd, b.tails, [cl]);
  }

  lemma RecordsOfSeven(op: seq<Marker>, ah: seq<Marker>, at: seq<Marker>, bh: seq<Marker>, bd: seq<Marker>, bt: seq<Marker>, cl: seq<Marker>)
    requires Records(bd) == [] && Records(cl) == []
    ensures Records((op + ah) + (at + bh + bd + bt + cl)) == Records(op) + Records(ah + at) + Records(bh + bt)
  {
    hide Records;
    RecordsConcat(op + ah, at + bh + bd + bt + cl);
    RecordsConcat(op, ah);
    RecordsConcat(at + bh + bd + bt, cl);
    RecordsConcat(at + bh + bd, bt);
    RecordsConcat(at + bh, bd);
    RecordsConcat(at, bh);
    RecordsConcat(ah, at);
    RecordsConcat(bh, bt);
  }

  lemma {:induction false} RecordsOfRolled(o: nat, k: nat, a: Piece)
    ensures var p := Rolled(o, k, a);
      Records(p.heads + p.tails) == [Record(ScopeId(RollScope, k), o, o + |a.atoms|, o + |a.atoms|, false)] + Records(a.heads + a.tails)
  {
    var op, cl := RollOpening(k, o, o + |a.atoms|), Closing(ScopeId(RollScope, k), o + |a.atoms|);
    RecordsOne(op);
    RecordsOne(cl);
    assert Opens(op) == [Record(ScopeId(RollScope, k), o, o + |a.atoms|, o + |a.atoms|, false)] && Opens(cl) == [];
    assert Records([]) == [];
    hide Records;
    hide RollOpening;
    hide Closing;
    var none: seq<Marker> := [];
    RecordsOfSeven([op], a.heads, a.tails, none, none, none, [cl]);
    assert a.tails + none + none + none + [cl] == a.tails + [cl] && none + none == none;
  }

  /** One step of the definitions at each kind of node. */
  lemma ScopesUnfold(f: Fork, l: Source, r: Source, o: nat, k: nat, reentrant: bool)
    ensures var m := o + ShapeOf(l).events;
      && Scopes(Chain(l, r), o, k, reentrant) == Scopes(l, o, k, reentrant) + Scopes(r, m, k + ShapeOf(l).scopes, reentrant)
      && Scopes(Split(f, l, r), o, k, reentrant) ==
           [Record(ForkScope(f, k), o, m, m + ShapeOf(r).events, f.Choice? && reentrant)]
           + Scopes(l, o, k + 1, reentrant) + Scopes(r, m, k + 1 + ShapeOf(l).scopes, reentrant)
      && Scopes(Roll(l), o, k, reentrant) == [Record(ScopeId(RollScope, k), o, m, m, false)] + Scopes(l, o, k + 1, true)
  {
    hide ShapeOf;
    hide ForkScope;
  }

  lemma EmittedUnfold(f: Fork, l: Source, r: Source, o: nat, k: nat, reentrant: bool)
    ensures var a := Emitted(l, o, k, reentrant);
      Emitted(Chain(l, r), o, k, reentrant) == Then(a, Emitted(r, o + |a.atoms|, k + a.scopes, reentrant))
    ensures var a := Emitted(l, o, k + 1, reentrant);
      Emitted(Split(f, l, r), o, k, reentrant) == Forked(f, o, k, reentrant, a, Emitted(r, o + |a.atoms|, k + 1 + a.scopes, reentrant))
    ensures Emitted(Roll(l), o, k, reentrant) == Rolled(o, k, Emitted(l, o, k + 1, true))
  {
    hide Then;
    hide Forked;
    hide Rolled;
  }

  lemma Sizes(n: Source, o: nat, k: nat, reentrant: bool)
    ensures var p := Emitted(n, o, k, reentrant); |p.atoms| == ShapeOf(n).events && p.scopes == ShapeOf(n).scopes
  {
    CountsAgree(n, o, k, reentrant);
    hide Emitted;
    hide ShapeOf;
  }

  /** The opening rows of a tree, in the order insertion left them. */
  ghost function Openings(n: Source, o: nat, k: nat, reentrant: bool): seq<Record> {
    var p := Emitted(n, o, k, reentrant);
    Records(p.heads + p.tails)
  }

  lemma OpeningsOfChain(l: Source, r: Source, o: nat, k: nat, reentrant: bool)
    ensures Openings(Chain(l, r), o, k, reentrant) ==
      Openings(l, o, k, reentrant) + Openings(r, o + ShapeOf(l).events, k + ShapeOf(l).scopes, reentrant)
  {
    hide Emitted;
    hide Then;
    hide Records;
    hide ShapeOf;
    EmittedUnfold(Parallel, l, r, o, k, reentrant);
    Sizes(l, o, k, reentrant);
    var a := Emitted(l, o, k, reentrant);
    RecordsOfThen(a, Emitted(r, o + |a.atoms|, k + a.scopes, reentrant));
  }

  lemma OpeningsOfSplit(f: Fork, l: Source, r: Source, o: nat, k: nat, reentrant: bool)
    ensures var m := o + ShapeOf(l).events;
      Openings(Split(f, l, r), o, k, reentrant) ==
        [Record(ForkScope(f, k), o, m, m + ShapeOf(r).events, f.Choice? && reentrant)]
        + Openings(l, o, k + 1, reentrant) + Openings(r, m, k + 1 + ShapeOf(l).scopes, reentrant)
  {
    hide Emitted;
    hide Forked;
    hide Records;
    hide ShapeOf;
    hide ForkScope;
    EmittedUnfold(f, l, r, o, k, reentrant);
    Sizes(l, o, k + 1, reentrant);
    var a := Emitted(l, o, k + 1, reentrant);
    Sizes(r, o + |a.atoms|, k + 1 + a.scopes, reentrant);
    RecordsOfForked(f, o, k, reentrant, a, Emitted(r, o + |a.atoms|, k + 1 + a.scopes, reentrant));
  }

  lemma OpeningsOfRoll(b: Source, o: nat, k: nat, reentrant: bool)
    ensures var m := o + ShapeOf(b).events;
      Openings(Roll(b), o, k, reentrant) == [Record(ScopeId(RollScope, k), o, m, m, false)] + Openings(b, o, k + 1, true)
  {
    hide Emitted;
    hide Rolled;
    hide Records;
    hide ShapeOf;
    EmittedUnfold(Parallel, b, b, o, k, reentrant);
    Sizes(b, o, k + 1, true);
    RecordsOfRolled(o, k, Emitted(b, o, k + 1, true));
  }

  /** They are the scopes in preorder. */
  lemma {:induction false} RecordsAreScopes(n: Source, o: nat, k: nat, reentrant: bool)
    ensures Openings(n, o, k, reentrant) == Scopes(n, o, k, reentrant)
  {
    LeafOpensNone(n, o, k, reentrant);
    hide *;
    match n
    case Leaf(_) =>
    case Chain(l, r) =>
      OpeningsOfChain(l, r, o, k, reentrant);
      ScopesUnfold(Parallel, l, r, o, k, reentrant);
      RecordsAreScopes(l, o, k, reentrant);
      RecordsAreScopes(r, o + ShapeOf(l).events, k + ShapeOf(l).scopes, reentrant);
    case Split(f, l, r) =>
      OpeningsOfSplit(f, l, r, o, k, reentrant);
      ScopesUnfold(f, l, r, o, k, reentrant);
      RecordsAreScopes(l, o, k + 1, reentrant);
      RecordsAreScopes(r, o + ShapeOf(l).events, k + 1 + ShapeOf(l).scopes, reentrant);
    case Roll(b) =>
      OpeningsOfRoll(b, o, k, reentrant);
      ScopesUnfold(Parallel, b, b, o, k, reentrant);
      RecordsAreScopes(b, o, k + 1, true);
  }

  lemma LeafOpensNone(n: Source, o: nat, k: nat, reentrant: bool)
    ensures n.Leaf? ==> Openings(n, o, k, reentrant) == Scopes(n, o, k, reentrant) == []
  {
    if n.Leaf? {
      var p := Emitted(n, o, k, reentrant);
      assert p.heads + p.tails == [];
    }
  }

  /** Where a record lies: inside events `o..end`, with the next ordinal. */
  predicate Lies(r: Record, o: nat, end: nat, ordinal: nat) {
    r.scope.ordinal == ordinal && o <= r.start < r.end <= end && r.start <= r.split <= r.end
  }

  predicate InOrder(rs: seq<Record>, o: nat, end: nat, k: nat) {
    forall i :: 0 <= i < |rs| ==> Lies(rs[i], o, end, k + i)
  }

  lemma InOrderConcat(a: seq<Record>, b: seq<Record>, o: nat, m: nat, end: nat, k: nat)
    requires o <= m <= end && InOrder(a, o, m, k) && InOrder(b, m, end, k + |a|)
    ensures InOrder(a + b, o, end, k)
  {
    forall i | 0 <= i < |a + b| ensures Lies((a + b)[i], o, end, k + i) {
      if i < |a| { assert Lies(a[i], o, m, k + i); } else { assert Lies(b[i - |a|], m, end, k + |a| + (i - |a|)); }
    }
  }

  lemma InOrderCons(r: Record, a: seq<Record>, o: nat, end: nat, k: nat)
    requires Lies(r, o, end, k) && InOrder(a, o, end, k + 1)
    ensures InOrder([r] + a, o, end, k)
  {
    forall i | 0 <= i < |[r] + a| ensures Lies(([r] + a)[i], o, end, k + i) {
      if i > 0 { assert Lies(a[i - 1], o, end, k + 1 + (i - 1)); }
    }
  }

  lemma ShapeIsPlus(f: Fork, l: Source, r: Source)
    ensures ShapeOf(Chain(l, r)) == Plus(ShapeOf(l), ShapeOf(r), 0, 0, 0)
    ensures ShapeOf(Split(f, l, r)) == Plus(ShapeOf(l), ShapeOf(r), ForkMarkers(f), |ForkResolvers(f, 0)|, 1)
    ensures ShapeOf(Roll(l)) == Plus(ShapeOf(l), NO_ROWS, 2, 0, 1)
  {
    hide Plus;
  }

  lemma ShapeUnfold(f: Fork, l: Source, r: Source)
    ensures ShapeOf(Chain(l, r)).events == ShapeOf(Split(f, l, r)).events == ShapeOf(l).events + ShapeOf(r).events
    ensures ShapeOf(Chain(l, r)).scopes == ShapeOf(l).scopes + ShapeOf(r).scopes
    ensures ShapeOf(Split(f, l, r)).scopes == 1 + ShapeOf(l).scopes + ShapeOf(r).scopes
    ensures ShapeOf(Roll(l)).events == ShapeOf(l).events && ShapeOf(Roll(l)).scopes == 1 + ShapeOf(l).scopes
  {
    hide ShapeOf;
    ShapeIsPlus(f, l, r);
  }

  lemma LeafHasNone(n: Source, o: nat, k: nat, reentrant: bool)
    ensures n.Leaf? ==> Scopes(n, o, k, reentrant) == [] && ShapeOf(n).scopes == 0 && ShapeOf(n).events == 1
  {
  }

  /** Scope ordinals are handed out in preorder, one per scope, and scopes nest in
      the events of the tree. */
  lemma {:induction false} ScopesInOrder(n: Source, o: nat, k: nat, reentrant: bool)
    ensures |Scopes(n, o, k, reentrant)| == ShapeOf(n).scopes
    ensures InOrder(Scopes(n, o, k, reentrant), o, o + ShapeOf(n).events, k)
  {
    LeafHasNone(n, o, k, reentrant);
    hide Scopes;
    hide ShapeOf;
    hide InOrder;
    match n
    case Leaf(_) => OrderOfNone(o, o + 1, k);
    case Chain(l, r) =>
      var m := o + ShapeOf(l).events;
      ShapeUnfold(Parallel, l, r);
      ScopesUnfold(Parallel, l, r, o, k, reentrant);
      ScopesInOrder(l, o, k, reentrant);
      ScopesInOrder(r, m, k + ShapeOf(l).scopes, reentrant);
      InOrderConcat(Scopes(l, o, k, reentrant), Scopes(r, m, k + ShapeOf(l).scopes, reentrant), o, m, m + ShapeOf(r).events, k);
    case Split(f, l, r) =>
      var m := o + ShapeOf(l).events;
      var end := m + ShapeOf(r).events;
      var rec := Record(ForkScope(f, k), o, m, end, f.Choice? && reentrant);
      var a, b := Scopes(l, o, k + 1, reentrant), Scopes(r, m, k + 1 + ShapeOf(l).scopes, reentrant);
      ShapeUnfold(f, l, r);
      ScopesUnfold(f, l, r, o, k, reentrant);
      ScopesInOrder(l, o, k + 1, reentrant);
      ScopesInOrder(r, m, k + 1 + ShapeOf(l).scopes, reentrant);
      InOrderConcat(a, b, o, m, end, k + 1);
      InOrderCons(rec, a + b, o, end, k);
      assert [rec] + a + b == [rec] + (a + b);
    case Roll(b) =>
      var end := o + ShapeOf(b).events;
      ShapeUnfold(Parallel, b, b);
      ScopesUnfold(Parallel, b, b, o, k, reentrant);
      ScopesInOrder(b, o, k + 1, true);
      InOrderCons(Record(ScopeId(RollScope, k), o, end, end, false), Scopes(b, o, k + 1, true), o, end, k);
  }

  lemma OrderOfNone(o: nat, end: nat, k: nat)
    ensures InOrder([], o, end, k)
  {
  }

  // ----------------------------------------------------------------- resolvers

  function Atoms(n: Source): seq<Atom> {
    match n
    case Leaf(m) => [AtomOf(m)]
    case Chain(l, r) => Atoms(l) + Atoms(r)
    case Split(_, l, r) => Atoms(l) + Atoms(r)
    case Roll(b) => Atoms(b)
  }

  function Resolvers(n: Source, k: nat): seq<Resolver> {
    match n
    case Leaf(_) => []
    case Chain(l, r) => Resolvers(l, k) + Resolvers(r, k + ShapeOf(l).scopes)
    case Split(f, l, r) => Resolvers(l, k + 1) + Resolvers(r, k + 1 + ShapeOf(l).scopes) + ForkResolvers(f, k)
    case Roll(b) => Resolvers(b, k + 1)
  }

  lemma AtomsUnfold(f: Fork, l: Source, r: Source)
    ensures Atoms(Chain(l, r)) == Atoms(Split(f, l, r)) == Atoms(l) + Atoms(r) && Atoms(Roll(l)) == Atoms(l)
  {
  }

  lemma ResolversUnfold(f: Fork, l: Source, r: Source, k: nat)
    ensures Resolvers(Chain(l, r), k) == Resolvers(l, k) + Resolvers(r, k + ShapeOf(l).scopes)
    ensures Resolvers(Split(f, l, r), k) == Resolvers(l, k + 1) + Resolvers(r, k + 1 + ShapeOf(l).scopes) + ForkResolvers(f, k)
    ensures Resolvers(Roll(l), k) == Resolvers(l, k + 1)
  {
    hide ShapeOf;
    hide ForkResolvers;
  }

  lemma RestUnfold(f: Fork, l: Source, r: Source, k: nat)
    ensures Atoms(Chain(l, r)) == Atoms(Split(f, l, r)) == Atoms(l) + Atoms(r) && Atoms(Roll(l)) == Atoms(l)
    ensures Resolvers(Chain(l, r), k) == Resolvers(l, k) + Resolvers(r, k + ShapeOf(l).scopes)
    ensures Resolvers(Split(f, l, r), k) == Resolvers(l, k + 1) + Resolvers(r, k + 1 + ShapeOf(l).scopes) + ForkResolvers(f, k)
    ensures Resolvers(Roll(l), k) == Resolvers(l, k + 1)
  {
    hide *;
    AtomsUnfold(f, l, r);
    ResolversUnfold(f, l, r, k);
  }

  lemma LeafRest(n: Source, o: nat, k: nat, reentrant: bool)
    ensures n.Leaf? ==> var p := Emitted(n, o, k, reentrant); p.atoms == Atoms(n) && p.resolvers == Resolvers(n, k)
  {
  }

  lemma {:induction false} EmittedRest(n: Source, o: nat, k: nat, reentrant: bool)
    ensures var p := Emitted(n, o, k, reentrant); p.atoms == Atoms(n) && p.resolvers == Resolvers(n, k)
  {
    LeafRest(n, o, k, reentrant);
    hide Emitted;
    hide Atoms;
    hide Resolvers;
    hide ShapeOf;
    hide Boundary;
    hide Opening;
    hide Closing;
    match n
    case Leaf(_) =>
    case Chain(l, r) =>
      var a := Emitted(l, o, k, reentrant);
      EmittedUnfold(Parallel, l, r, o, k, reentrant);
      RestUnfold(Parallel, l, r, k);
      Sizes(l, o, k, reentrant);
      EmittedRest(l, o, k, reentrant);
      EmittedRest(r, o + |a.atoms|, k + a.scopes, reentrant);
    case Split(f, l, r) =>
      var a := Emitted(l, o, k + 1, reentrant);
      EmittedUnfold(f, l, r, o, k, reentrant);
      RestUnfold(f, l, r, k);
      Sizes(l, o, k + 1, reentrant);
      EmittedRest(l, o, k + 1, reentrant);
      EmittedRest(r, o + |a.atoms|, k + 1 + a.scopes, reentrant);
    case Roll(b) =>
      EmittedUnfold(Parallel, b, b, o, k, reentrant);
      RestUnfold(Parallel, b, b, k);
      EmittedRest(b, o, k + 1, true);
  }

  /** Looking up a route's scope gives that route's resolver. */
  predicate Resolves(rs: seq<Resolver>, n: Source, k: nat) {
    match n
    case Leaf(_) => true
    case Chain(l, r) => Resolves(rs, l, k) && Resolves(rs, r, k + ShapeOf(l).scopes)
    case Split(f, l, r) =>
      && (f.Choice? ==> Lookup(rs, ForkScope(f, k)) == f.resolver)
      && Resolves(rs, l, k + 1)
      && Resolves(rs, r, k + 1 + ShapeOf(l).scopes)
    case Roll(b) => Resolves(rs, b, k + 1)
  }

  predicate Avoids(rs: seq<Resolver>, k: nat, scopes: nat) {
    forall r :: r in rs ==> !(k <= r.scope.ordinal < k + scopes)
  }

  predicate Inside(rs: seq<Resolver>, k: nat, scopes: nat) {
    forall r :: r in rs ==> k <= r.scope.ordinal < k + scopes
  }

  lemma {:induction false} LookupConcat(a: seq<Resolver>, b: seq<Resolver>, scope: ScopeId)
    ensures Lookup(a + b, scope) == if Lookup(a, scope).Some? then Lookup(a, scope) else Lookup(b, scope)
  {
    if a == [] { assert a + b == b; } else { LookupConcat(a[1..], b, scope); assert (a + b)[1..] == a[1..] + b; }
  }

  lemma {:induction false} LookupMisses(a: seq<Resolver>, scope: ScopeId)
    requires forall r :: r in a ==> r.scope != scope
    ensures Lookup(a, scope) == None
  {
    if a != [] { LookupMisses(a[1..], scope); }
  }

  lemma {:induction false} ResolversInside(n: Source, k: nat)
    ensures Inside(Resolvers(n, k), k, ShapeOf(n).scopes)
  {
    match n
    case Leaf(_) =>
    case Chain(l, r) => ResolversInside(l, k); ResolversInside(r, k + ShapeOf(l).scopes);
    case Split(f, l, r) => ResolversInside(l, k + 1); ResolversInside(r, k + 1 + ShapeOf(l).scopes);
    case Roll(b) => ResolversInside(b, k + 1);
  }

  lemma ResolvesUnfold(rs: seq<Resolver>, f: Fork, l: Source, r: Source, k: nat)
    ensures Resolves(rs, Chain(l, r), k) <==> Resolves(rs, l, k) && Resolves(rs, r, k + ShapeOf(l).scopes)
    ensures Resolves(rs, Split(f, l, r), k) <==>
      (f.Choice? ==> Lookup(rs, ForkScope(f, k)) == f.resolver) && Resolves(rs, l, k + 1) && Resolves(rs, r, k + 1 + ShapeOf(l).scopes)
    ensures Resolves(rs, Roll(l), k) <==> Resolves(rs, l, k + 1)
  {
    hide ShapeOf;
    hide Lookup;
    hide ForkScope;
  }

  /** A fork's own resolver row is the one its scope finds. */
  lemma {:induction false} OwnResolver(f: Fork, k: nat, a: seq<Resolver>, b: seq<Resolver>)
    requires f.Choice?
    requires forall r :: r in a ==> r.scope.ordinal != k
    requires forall r :: r in b ==> r.scope.ordinal != k
    ensures Lookup(a + ForkResolvers(f, k) + b, ForkScope(f, k)) == f.resolver
  {
    var scope, own := ForkScope(f, k), ForkResolvers(f, k);
    LookupMisses(a, scope);
    LookupMisses(b, scope);
    LookupConcat(a + own, b, scope);
    LookupConcat(a, own, scope);
    if f.resolver.Some? { assert own[0].scope == scope; }
  }

  lemma Regroups<T>(p: seq<T>, a: seq<T>, b: seq<T>, c: seq<T>, q: seq<T>)
    ensures p + (a + b + c) + q == p + a + (b + c + q)
    ensures p + (a + b + c) + q == (p + a) + b + (c + q)
    ensures p + (a + b + c) + q == (p + a + b) + c + q
    ensures p + (a + b) + q == p + a + (b + q) == (p + a) + b + q
  {
  }

  lemma AvoidsConcat(a: seq<Resolver>, b: seq<Resolver>, k: nat, scopes: nat)
    ensures Avoids(a + b, k, scopes) <==> Avoids(a, k, scopes) && Avoids(b, k, scopes)
  {
    if Avoids(a + b, k, scopes) {
      forall r | r in a ensures !(k <= r.scope.ordinal < k + scopes) { assert r in a + b; }
      forall r | r in b ensures !(k <= r.scope.ordinal < k + scopes) { assert r in a + b; }
    }
  }

  lemma LeafResolves(rs: seq<Resolver>, n: Source, k: nat)
    ensures n.Leaf? ==> Resolves(rs, n, k)
  {
  }

  /** Every route finds its own resolver, whatever rows of other scopes surround
      the rows of the tree. */
  lemma {:induction false} ResolversResolve(n: Source, k: nat, p: seq<Resolver>, q: seq<Resolver>)
    requires Avoids(p, k, ShapeOf(n).scopes) && Avoids(q, k, ShapeOf(n).scopes)
    ensures Resolves(p + Resolvers(n, k) + q, n, k)
    decreases n, 1
  {
    var rs := p + Resolvers(n, k) + q;
    LeafResolves(rs, n, k);
    hide Resolvers;
    hide Resolves;
    hide ShapeOf;
    match n
    case Leaf(_) =>
    case Chain(l, r) =>
      var sl, a, b := ShapeOf(l).scopes, Resolvers(l, k), Resolvers(r, k + ShapeOf(l).scopes);
      RestUnfold(Parallel, l, r, k);
      ResolvesUnfold(rs, Parallel, l, r, k);
      ShapeUnfold(Parallel, l, r);
      ResolversInside(l, k);
      ResolversInside(r, k + sl);
      Regroups(p, a, b, [], q);
      AvoidsConcat(b, q, k, sl);
      AvoidsConcat(p, a, k + sl, ShapeOf(r).scopes);
      ResolversResolve(l, k, p, b + q);
      ResolversResolve(r, k + sl, p + a, q);
    case Split(f, l, r) => SplitResolves(f, l, r, k, p, q);
    case Roll(b) =>
      RestUnfold(Parallel, b, b, k);
      ResolvesUnfold(rs, Parallel, b, b, k);
      ShapeUnfold(Parallel, b, b);
      ResolversResolve(b, k + 1, p, q);
  }

  lemma {:induction false} SplitResolves(f: Fork, l: Source, r: Source, k: nat, p: seq<Resolver>, q: seq<Resolver>)
    requires Avoids(p, k, ShapeOf(Split(f, l, r)).scopes) && Avoids(q, k, ShapeOf(Split(f, l, r)).scopes)
    ensures Resolves(p + Resolvers(Split(f, l, r), k) + q, Split(f, l, r), k)
    decreases Split(f, l, r), 0
  {
    hide Resolvers;
    hide Resolves;
    hide ShapeOf;
    hide Lookup;
    var sl, sr := ShapeOf(l).scopes, ShapeOf(r).scopes;
    var a, b, own := Resolvers(l, k + 1), Resolvers(r, k + 1 + sl), ForkResolvers(f, k);
    RestUnfold(f, l, r, k);
    ResolvesUnfold(p + Resolvers(Split(f, l, r), k) + q, f, l, r, k);
    ShapeUnfold(f, l, r);
    ResolversInside(l, k + 1);
    ResolversInside(r, k + 1 + sl);
    Regroups(p, a, b, own, q);
    AvoidsConcat(b + own, q, k + 1, sl);
    AvoidsConcat(b, own, k + 1, sl);
    AvoidsConcat(p, a, k + 1 + sl, sr);
    AvoidsConcat(own, q, k + 1 + sl, sr);
    ResolversResolve(l, k + 1, p, b + own + q);
    ResolversResolve(r, k + 1 + sl, p + a, own + q);
    if f.Choice? {
      forall x | x in p + a + b ensures x.scope.ordinal != k { AmongFive(x, p, a, b, [], []); }
      OwnResolver(f, k, p + a + b, q);
    }
  }

  // --------------------------------------------------------------- round trip

  /** Records `i..` are `rs`, and everything after starts at `end` or later. */
  predicate Ahead(x: Lowered, i: nat, rs: seq<Record>, end: nat) {
    && i + |rs| <= |x.records|
    && (forall j :: 0 <= j < |rs| ==> x.records[i + j] == rs[j])
    && (forall j :: i + |rs| <= j < |x.records| ==> x.records[j].start >= end)
  }

  lemma AheadConcat(x: Lowered, i: nat, a: seq<Record>, b: seq<Record>, mid: nat, end: nat)
    requires Ahead(x, i, a + b, end) && mid <= end && forall j :: 0 <= j < |b| ==> b[j].start >= mid
    ensures Ahead(x, i, a, mid) && Ahead(x, i + |a|, b, end)
  {
    forall j | 0 <= j < |b| ensures x.records[i + |a| + j] == b[j] {
      assert x.records[i + (|a| + j)] == (a + b)[|a| + j];
    }
    forall j | 0 <= j < |a| ensures x.records[i + j] == a[j] { assert (a + b)[j] == a[j]; }
    forall j | i + |a| <= j < |x.records| ensures x.records[j].start >= mid {
      if j < i + |a| + |b| { assert x.records[i + |a| + (j - i - |a|)] == b[j - i - |a|]; }
    }
  }

  predicate EventsAt(x: Lowered, o: nat, atoms: seq<Atom>) {
    o + |atoms| <= |x.events| && forall j :: 0 <= j < |atoms| ==> x.events[o + j] == atoms[j]
  }

  lemma EventsConcat(x: Lowered, o: nat, a: seq<Atom>, b: seq<Atom>)
    requires EventsAt(x, o, a + b)
    ensures EventsAt(x, o, a) && EventsAt(x, o + |a|, b)
  {
    forall j | 0 <= j < |a| ensures x.events[o + j] == a[j] { assert (a + b)[j] == a[j]; }
    forall j | 0 <= j < |b| ensures x.events[o + |a| + j] == b[j] { assert x.events[o + (|a| + j)] == (a + b)[|a| + j]; }
  }

  /** `x` holds the rows of `n` from event `o`, scope `k` and record `i` on. */
  ghost predicate Carries(x: Lowered, n: Source, o: nat, k: nat, reentrant: bool, i: nat) {
    && EventsAt(x, o, Atoms(n))
    && Ahead(x, i, Scopes(n, o, k, reentrant), o + ShapeOf(n).events)
    && Resolves(x.resolvers, n, k)
    && NeedOf(n).one
  }

  lemma {:induction false} AtomCount(n: Source)
    ensures |Atoms(n)| == ShapeOf(n).events
  {
    EmittedRest(n, 0, 0, false);
    Sizes(n, 0, 0, false);
  }

  lemma OneUnfolds(f: Fork, l: Source, r: Source)
    ensures NeedOf(Chain(l, r)).one == NeedOf(Split(f, l, r)).one == (NeedOf(l).one && NeedOf(r).one)
    ensures NeedOf(Roll(l)).one == NeedOf(l).one
  {
    hide Plus;
  }

  lemma StartsLate(n: Source, o: nat, k: nat, reentrant: bool)
    ensures |Scopes(n, o, k, reentrant)| == ShapeOf(n).scopes
    ensures forall j :: 0 <= j < |Scopes(n, o, k, reentrant)| ==> Scopes(n, o, k, reentrant)[j].start >= o
  {
    ScopesInOrder(n, o, k, reentrant);
    hide Scopes;
    hide ShapeOf;
    assert forall j :: 0 <= j < |Scopes(n, o, k, reentrant)| ==> Lies(Scopes(n, o, k, reentrant)[j], o, o + ShapeOf(n).events, k + j);
  }

  lemma {:induction false} CarriesChain(x: Lowered, l: Source, r: Source, o: nat, k: nat, reentrant: bool, i: nat)
    requires Carries(x, Chain(l, r), o, k, reentrant, i)
    ensures Carries(x, l, o, k, reentrant, i)
    ensures Carries(x, r, o + ShapeOf(l).events, k + ShapeOf(l).scopes, reentrant, i + ShapeOf(l).scopes)
  {
    hide Atoms;
    hide Scopes;
    hide ShapeOf;
    hide Resolves;
    hide NeedOf;
    hide EventsAt;
    hide Ahead;
    var m := o + ShapeOf(l).events;
    RestUnfold(Parallel, l, r, k);
    ScopesUnfold(Parallel, l, r, o, k, reentrant);
    ShapeUnfold(Parallel, l, r);
    ResolvesUnfold(x.resolvers, Parallel, l, r, k);
    OneUnfolds(Parallel, l, r);
    AtomCount(l);
    StartsLate(l, o, k, reentrant);
    StartsLate(r, m, k + ShapeOf(l).scopes, reentrant);
    EventsConcat(x, o, Atoms(l), Atoms(r));
    AheadConcat(x, i, Scopes(l, o, k, reentrant), Scopes(r, m, k + ShapeOf(l).scopes, reentrant), m, m + ShapeOf(r).events);
  }

  lemma AheadCons(x: Lowered, i: nat, rec: Record, rs: seq<Record>, end: nat)
    requires Ahead(x, i, [rec] + rs, end)
    ensures i < |x.records| && x.records[i] == rec && Ahead(x, i + 1, rs, end)
  {
    assert x.records[i + 0] == ([rec] + rs)[0];
    forall j | 0 <= j < |rs| ensures x.records[i + 1 + j] == rs[j] { assert x.records[i + (1 + j)] == ([rec] + rs)[1 + j]; }
  }

  lemma {:induction false} CarriesSplit(x: Lowered, f: Fork, l: Source, r: Source, o: nat, k: nat, reentrant: bool, i: nat)
    requires Carries(x, Split(f, l, r), o, k, reentrant, i)
    ensures var m, end := o + ShapeOf(l).events, o + ShapeOf(l).events + ShapeOf(r).events;
      i < |x.records| && x.records[i] == Record(ForkScope(f, k), o, m, end, f.Choice? && reentrant)
    ensures f.Choice? ==> Lookup(x.resolvers, ForkScope(f, k)) == f.resolver
    ensures Carries(x, l, o, k + 1, reentrant, i + 1)
    ensures Carries(x, r, o + ShapeOf(l).events, k + 1 + ShapeOf(l).scopes, reentrant, i + 1 + ShapeOf(l).scopes)
  {
    hide Atoms;
    hide Scopes;
    hide ShapeOf;
    hide Resolves;
    hide Lookup;
    hide NeedOf;
    hide EventsAt;
    hide Ahead;
    var m, end := o + ShapeOf(l).events, o + ShapeOf(l).events + ShapeOf(r).events;
    var rec, a, b := Record(ForkScope(f, k), o, m, end, f.Choice? && reentrant), Scopes(l, o, k + 1, reentrant), Scopes(r, m, k + 1 + ShapeOf(l).scopes, reentrant);
    RestUnfold(f, l, r, k);
    ScopesUnfold(f, l, r, o, k, reentrant);
    ShapeUnfold(f, l, r);
    ResolvesUnfold(x.resolvers, f, l, r, k);
    OneUnfolds(f, l, r);
    AtomCount(l);
    StartsLate(l, o, k + 1, reentrant);
    StartsLate(r, m, k + 1 + ShapeOf(l).scopes, reentrant);
    EventsConcat(x, o, Atoms(l), Atoms(r));
    assert [rec] + a + b == [rec] + (a + b);
    AheadCons(x, i, rec, a + b, end);
    AheadConcat(x, i + 1, a, b, m, end);
  }

  lemma {:induction false} CarriesRoll(x: Lowered, b: Source, o: nat, k: nat, reentrant: bool, i: nat)
    requires Carries(x, Roll(b), o, k, reentrant, i)
    ensures var end := o + ShapeOf(b).events;
      i < |x.records| && x.records[i] == Record(ScopeId(RollScope, k), o, end, end, false)
    ensures Carries(x, b, o, k + 1, true, i + 1)
  {
    hide Atoms;
    hide Scopes;
    hide ShapeOf;
    hide Resolves;
    hide NeedOf;
    hide EventsAt;
    hide Ahead;
    var end := o + ShapeOf(b).events;
    RestUnfold(Parallel, b, b, k);
    ScopesUnfold(Parallel, b, b, o, k, reentrant);
    ShapeUnfold(Parallel, b, b);
    ResolvesUnfold(x.resolvers, Parallel, b, b, k);
    OneUnfolds(Parallel, b, b);
    AheadCons(x, i, Record(ScopeId(RollScope, k), o, end, end, false), Scopes(b, o, k + 1, true), end);
  }

  lemma CarriesLeaf(x: Lowered, m: Message, o: nat, k: nat, reentrant: bool, i: nat)
    requires Carries(x, Leaf(m), o, k, reentrant, i)
    ensures o < |x.events| && MessageOf(x.events[o]) == m
    ensures i < |x.records| ==> x.records[i].start > o
  {
    assert x.events[o + 0] == [AtomOf(m)][0];
    assert LeafNeed(m).one;
    assert i < |x.records| ==> x.records[i].start >= o + 1;
  }

  lemma CarriesFits(x: Lowered, n: Source, o: nat, k: nat, reentrant: bool, i: nat)
    requires Carries(x, n, o, k, reentrant, i)
    ensures o + ShapeOf(n).events <= |x.events| && ShapeOf(n).events >= 1
  {
    AtomCount(n);
    hide Scopes;
    hide ShapeOf;
    hide Atoms;
    hide Resolves;
  }

  // One step of the parser.
  lemma ParseEmpty(x: Lowered, lo: nat, i: nat)
    requires lo <= |x.events|
    ensures Parse(x, lo, lo, i) == (None, i)
  {
  }

  lemma ParseLeaf(x: Lowered, lo: nat, hi: nat, i: nat)
    requires lo < hi <= |x.events| && !OpensAt(x, lo, hi, i)
    ensures var rest := Parse(x, lo + 1, hi, i);
      Parse(x, lo, hi, i) == (Some(Link(Leaf(MessageOf(x.events[lo])), rest.0)), rest.1)
  {
    hide OpensAt;
    hide MessageOf;
  }

  lemma ParseScope(x: Lowered, lo: nat, hi: nat, i: nat)
    requires lo < hi <= |x.events| && OpensAt(x, lo, hi, i)
    ensures var rec := x.records[i];
      var left := Parse(x, lo, rec.split, i + 1);
      var right := Parse(x, rec.split, rec.end, left.1);
      var rest := Parse(x, rec.end, hi, right.1);
      var tree := ScopeTree(x, rec, left.0, right.0);
      Parse(x, lo, hi, i) == (if tree.None? then None else Some(Link(tree.value, rest.0)), rest.1)
  {
    hide ScopeTree;
    hide MessageOf;
  }

  lemma AttachUnfold(f: Fork, l: Source, r: Source, m: Message, rest: Option<Source>)
    ensures Attach(Leaf(m), rest) == Link(Leaf(m), rest)
    ensures Attach(Chain(l, r), rest) == Attach(l, Some(Attach(r, rest)))
    ensures Attach(Split(f, l, r), rest) == Link(Split(f, Attach(l, None), Attach(r, None)), rest)
    ensures Attach(Roll(l), rest) == Link(Roll(Attach(l, None)), rest)
  {
    hide Link;
  }

  lemma LeafShape(m: Message)
    ensures ShapeOf(Leaf(m)).events == 1 && ShapeOf(Leaf(m)).scopes == 0
  {
  }

  /** The parse of a scope, from the parses of its parts. */
  lemma {:induction false} ParseFork(x: Lowered, f: Fork, k: nat, reentrant: bool, lo: nat, mid: nat, end: nat, hi: nat, i: nat, left: Source, right: Source, il: nat, ir: nat)
    requires lo < mid < end <= hi <= |x.events| && i < |x.records|
    requires x.records[i] == Record(ForkScope(f, k), lo, mid, end, f.Choice? && reentrant)
    requires f.Choice? ==> Lookup(x.resolvers, ForkScope(f, k)) == f.resolver
    requires Parse(x, lo, mid, i + 1) == (Some(left), il) && Parse(x, mid, end, il) == (Some(right), ir)
    ensures var rest := Parse(x, end, hi, ir);
      Parse(x, lo, hi, i) == (Some(Link(Split(f, left, right), rest.0)), rest.1)
  {
    hide Parse;
    hide Lookup;
    ParseScope(x, lo, hi, i);
  }

  lemma {:induction false} ParseRoll(x: Lowered, k: nat, lo: nat, end: nat, hi: nat, i: nat, body: Source, ib: nat)
    requires lo < end <= hi <= |x.events| && i < |x.records|
    requires x.records[i] == Record(ScopeId(RollScope, k), lo, end, end, false)
    requires Parse(x, lo, end, i + 1) == (Some(body), ib)
    ensures var rest := Parse(x, end, hi, ib);
      Parse(x, lo, hi, i) == (Some(Link(Roll(body), rest.0)), rest.1)
  {
    hide Parse;
    hide Lookup;
    ParseScope(x, lo, hi, i);
    ParseEmpty(x, end, ib);
  }

  /** Parsing from where the rows of `n` begin yields `n` regrouped, followed by
      whatever parsing yields from where they end. */
  lemma {:induction false} ParseTree(x: Lowered, n: Source, o: nat, k: nat, reentrant: bool, i: nat, hi: nat)
    requires Carries(x, n, o, k, reentrant, i) && o + ShapeOf(n).events <= hi <= |x.events|
    ensures var rest := Parse(x, o + ShapeOf(n).events, hi, i + ShapeOf(n).scopes);
      Parse(x, o, hi, i) == (Some(Attach(n, rest.0)), rest.1)
  {
    hide Parse;
    hide Carries;
    hide ShapeOf;
    hide Attach;
    hide Lookup;
    hide ForkScope;
    hide Link;
    CarriesFits(x, n, o, k, reentrant, i);
    var rest := Parse(x, o + ShapeOf(n).events, hi, i + ShapeOf(n).scopes);
    match n
    case Leaf(m) =>
      LeafShape(m);
      AttachUnfold(Parallel, n, n, m, rest.0);
      CarriesLeaf(x, m, o, k, reentrant, i);
      ParseLeaf(x, o, hi, i);
    case Chain(l, r) =>
      var m := o + ShapeOf(l).events;
      CarriesChain(x, l, r, o, k, reentrant, i);
      ShapeUnfold(Parallel, l, r);
      AttachUnfold(Parallel, l, r, ANY, rest.0);
      ParseTree(x, l, o, k, reentrant, i, hi);
      ParseTree(x, r, m, k + ShapeOf(l).scopes, reentrant, i + ShapeOf(l).scopes, hi);
    case Split(f, l, r) =>
      var m, end := o + ShapeOf(l).events, o + ShapeOf(l).events + ShapeOf(r).events;
      var il, ir := i + 1 + ShapeOf(l).scopes, i + 1 + ShapeOf(l).scopes + ShapeOf(r).scopes;
      CarriesSplit(x, f, l, r, o, k, reentrant, i);
      CarriesFits(x, l, o, k + 1, reentrant, i + 1);
      CarriesFits(x, r, m, k + 1 + ShapeOf(l).scopes, reentrant, il);
      ShapeUnfold(f, l, r);
      AttachUnfold(f, l, r, ANY, rest.0);
      ParseTree(x, l, o, k + 1, reentrant, i + 1, m);
      ParseEmpty(x, m, il);
      ParseTree(x, r, m, k + 1 + ShapeOf(l).scopes, reentrant, il, end);
      ParseEmpty(x, end, ir);
      ParseFork(x, f, k, reentrant, o, m, end, hi, i, Attach(l, None), Attach(r, None), il, ir);
    case Roll(b) =>
      var end, ib := o + ShapeOf(b).events, i + 1 + ShapeOf(b).scopes;
      CarriesRoll(x, b, o, k, reentrant, i);
      CarriesFits(x, b, o, k + 1, true, i + 1);
      ShapeUnfold(Parallel, b, b);
      AttachUnfold(Parallel, b, b, ANY, rest.0);
      ParseTree(x, b, o, k + 1, true, i + 1, end);
      ParseEmpty(x, end, ib);
      ParseRoll(x, k, o, end, hi, i, Attach(b, None), ib);
  }

  const ANY := Message(Key(0, 0), Key(0, 0), 0, Wire(0))

  /** Round trip: events, scope records in ordinal order and resolver markers give
      back the tree, up to the grouping of sequences. */
  lemma {:induction false} DecodeLowered(n: Source)
    requires NeedOf(n).one
    ensures Decode(Lower(n)) == Some(Regrouped(n))
    ensures InOrder(Records(Lower(n).markers), 0, |Lower(n).events|, 0) && |Records(Lower(n).markers)| == ShapeOf(n).scopes
  {
    hide Parse;
    hide ShapeOf;
    hide Scopes;
    hide Atoms;
    hide Resolvers;
    hide Resolves;
    hide NeedOf;
    hide Records;
    hide InOrder;
    var p, rows := Emitted(n, 0, 0, false), Lower(n);
    assert rows.events == p.atoms && rows.markers == p.heads + p.tails && rows.resolvers == p.resolvers;
    hide Emitted;
    hide Lower;
    EmittedRest(n, 0, 0, false);
    RecordsAreScopes(n, 0, 0, false);
    ScopesInOrder(n, 0, 0, false);
    ResolversResolve(n, 0, [], []);
    assert [] + Resolvers(n, 0) + [] == Resolvers(n, 0);
    AtomCount(n);
    var x := Lowered(rows.events, Records(rows.markers), rows.resolvers);
    assert Carries(x, n, 0, 0, false, 0);
    ParseTree(x, n, 0, 0, false, 0, |rows.events|);
    ParseEmpty(x, |rows.events|, ShapeOf(n).scopes);
  }

  // ------------------------------------------------ grouping leaves no trace

  lemma ThenAssociates(a: Piece, b: Piece, c: Piece)
    ensures Then(Then(a, b), c) == Then(a, Then(b, c))
  {
    assert a.atoms + b.atoms + c.atoms == a.atoms + (b.atoms + c.atoms);
    assert a.tails + b.heads + b.tails + c.heads + c.tails == a.tails + b.heads + (b.tails + c.heads + c.tails);
    assert a.resolvers + b.resolvers + c.resolvers == a.resolvers + (b.resolvers + c.resolvers);
  }

  lemma ThenSizes(a: Piece, b: Piece)
    ensures |Then(a, b).atoms| == |a.atoms| + |b.atoms| && Then(a, b).scopes == a.scopes + b.scopes
  {
  }

  ghost function EmittedWith(a: Piece, rest: Option<Source>, o: nat, k: nat, reentrant: bool): Piece {
    if rest.None? then a else Then(a, Emitted(rest.value, o + |a.atoms|, k + a.scopes, reentrant))
  }

  lemma LinkEmitted(n: Source, rest: Option<Source>, o: nat, k: nat, reentrant: bool)
    ensures Emitted(Link(n, rest), o, k, reentrant) == EmittedWith(Emitted(n, o, k, reentrant), rest, o, k, reentrant)
  {
    hide Emitted;
    if rest.Some? { EmittedUnfold(Parallel, n, rest.value, o, k, reentrant); }
  }

  lemma {:induction false} AttachEmitted(n: Source, rest: Option<Source>, o: nat, k: nat, reentrant: bool)
    ensures Emitted(Attach(n, rest), o, k, reentrant) == EmittedWith(Emitted(n, o, k, reentrant), rest, o, k, reentrant)
    decreases n
  {
    hide Emitted;
    hide Attach;
    hide Link;
    hide Then;
    hide Forked;
    hide Rolled;
    match n
    case Leaf(m) =>
      AttachUnfold(Parallel, n, n, m, rest);
      LinkEmitted(n, rest, o, k, reentrant);
    case Chain(l, r) =>
      AttachUnfold(Parallel, l, r, ANY, rest);
      var a := Emitted(l, o, k, reentrant);
      var b := Emitted(r, o + |a.atoms|, k + a.scopes, reentrant);
      AttachEmitted(l, Some(Attach(r, rest)), o, k, reentrant);
      AttachEmitted(r, rest, o + |a.atoms|, k + a.scopes, reentrant);
      EmittedUnfold(Parallel, l, r, o, k, reentrant);
      ThenSizes(a, b);
      if rest.Some? { ThenAssociates(a, b, Emitted(rest.value, o + |a.atoms| + |b.atoms|, k + a.scopes + b.scopes, reentrant)); }
    case Split(f, l, r) =>
      AttachUnfold(f, l, r, ANY, rest);
      LinkEmitted(Split(f, Attach(l, None), Attach(r, None)), rest, o, k, reentrant);
      var a := Emitted(l, o, k + 1, reentrant);
      AttachEmitted(l, None, o, k + 1, reentrant);
      AttachEmitted(r, None, o + |a.atoms|, k + 1 + a.scopes, reentrant);
      EmittedUnfold(f, l, r, o, k, reentrant);
      EmittedUnfold(f, Attach(l, None), Attach(r, None), o, k, reentrant);
    case Roll(b) =>
      AttachUnfold(Parallel, b, b, ANY, rest);
      LinkEmitted(Roll(Attach(b, None)), rest, o, k, reentrant);
      AttachEmitted(b, None, o, k + 1, true);
      EmittedUnfold(Parallel, b, b, o, k, reentrant);
      EmittedUnfold(Parallel, Attach(b, None), Attach(b, None), o, k, reentrant);
  }

  /** Two trees lower to the same rows exactly when they differ only in how their
      sequences are grouped. */
  lemma {:induction false} SameRowsIffRegrouped(a: Source, b: Source)
    requires NeedOf(a).one && NeedOf(b).one
    ensures Lower(a) == Lower(b) <==> Regrouped(a) == Regrouped(b)
  {
    DecodeLowered(a);
    DecodeLowered(b);
    hide Decode;
    hide Emitted;
    AttachEmitted(a, None, 0, 0, false);
    AttachEmitted(b, None, 0, 0, false);
    assert Lower(Regrouped(a)) == Lower(a) && Lower(Regrouped(b)) == Lower(b);
  }

  // ------------------------------------------------------------------- reentry

  predicate Encloses(q: Record, r: Record) {
    q.scope.kind.RollScope? && q.start <= r.start && r.end <= q.end
  }

  /** A roll opened earlier encloses scope `i`. */
  predicate UnderRoll(rs: seq<Record>, i: nat)
    requires i < |rs|
  {
    exists j :: 0 <= j < i && Encloses(rs[j], rs[i])
  }

  /** The routes marked reentrant are those under a roll, or all of them inside one. */
  predicate MarksReentry(rs: seq<Record>, reentrant: bool) {
    forall i :: 0 <= i < |rs| && rs[i].scope.kind.RouteScope? ==> (rs[i].reentrant <==> reentrant || UnderRoll(rs, i))
  }

  lemma ReentryConcat(a: seq<Record>, b: seq<Record>, reentrant: bool, o: nat, m: nat, end: nat, k: nat)
    requires MarksReentry(a, reentrant) && MarksReentry(b, reentrant) && InOrder(a, o, m, k) && InOrder(b, m, end, k + |a|)
    ensures MarksReentry(a + b, reentrant)
  {
    var c := a + b;
    forall i | 0 <= i < |c| && c[i].scope.kind.RouteScope? ensures c[i].reentrant <==> reentrant || UnderRoll(c, i) {
      if i < |a| {
        if y :| 0 <= y < i && Encloses(a[y], a[i]) { assert Encloses(c[y], c[i]); }
        if j :| 0 <= j < i && Encloses(c[j], c[i]) { assert Encloses(a[j], a[i]); }
      } else {
        var x := i - |a|;
        assert Lies(b[x], m, end, k + |a| + x);
        forall j | 0 <= j < |a| ensures !Encloses(c[j], c[i]) { assert Lies(a[j], o, m, k + j); }
        if y :| 0 <= y < x && Encloses(b[y], b[x]) { assert Encloses(c[|a| + y], c[i]); }
        if j :| |a| <= j < i && Encloses(c[j], c[i]) { assert Encloses(b[j - |a|], b[x]); }
      }
    }
  }

  lemma ReentryCons(rec: Record, a: seq<Record>, reentrant: bool)
    requires MarksReentry(a, reentrant) && !rec.scope.kind.RollScope? && (rec.scope.kind.RouteScope? ==> rec.reentrant == reentrant)
    ensures MarksReentry([rec] + a, reentrant)
  {
    var c := [rec] + a;
    forall i | 0 <= i < |c| && c[i].scope.kind.RouteScope? ensures c[i].reentrant <==> reentrant || UnderRoll(c, i) {
      if i > 0 {
        if y :| 0 <= y < i - 1 && Encloses(a[y], a[i - 1]) { assert Encloses(c[y + 1], c[i]); }
        if j :| 0 <= j < i && Encloses(c[j], c[i]) { assert Encloses(a[j - 1], a[i - 1]); }
      }
    }
  }

  lemma ReentryRoll(roll: Record, a: seq<Record>, reentrant: bool, o: nat, end: nat, k: nat)
    requires MarksReentry(a, true) && roll.scope.kind.RollScope? && roll.start == o && roll.end == end && InOrder(a, o, end, k)
    ensures MarksReentry([roll] + a, reentrant)
  {
    var c := [roll] + a;
    forall i | 0 <= i < |c| && c[i].scope.kind.RouteScope? ensures c[i].reentrant <==> reentrant || UnderRoll(c, i) {
      assert Lies(a[i - 1], o, end, k + (i - 1));
      assert Encloses(c[0], c[i]);
    }
  }

  lemma {:induction false} ScopesMarkReentry(n: Source, o: nat, k: nat, reentrant: bool)
    ensures MarksReentry(Scopes(n, o, k, reentrant), reentrant)
  {
    LeafHasNone(n, o, k, reentrant);
    hide Scopes;
    hide ShapeOf;
    hide InOrder;
    match n
    case Leaf(_) =>
    case Chain(l, r) =>
      hide MarksReentry;
      var m, kr := o + ShapeOf(l).events, k + ShapeOf(l).scopes;
      ScopesUnfold(Parallel, l, r, o, k, reentrant);
      ScopesMarkReentry(l, o, k, reentrant);
      ScopesMarkReentry(r, m, kr, reentrant);
      ScopesInOrder(l, o, k, reentrant);
      ScopesInOrder(r, m, kr, reentrant);
      ReentryConcat(Scopes(l, o, k, reentrant), Scopes(r, m, kr, reentrant), reentrant, o, m, m + ShapeOf(r).events, k);
    case Split(f, l, r) =>
      hide MarksReentry;
      var m, kr := o + ShapeOf(l).events, k + 1 + ShapeOf(l).scopes;
      var rec := Record(ForkScope(f, k), o, m, m + ShapeOf(r).events, f.Choice? && reentrant);
      var a, b := Scopes(l, o, k + 1, reentrant), Scopes(r, m, kr, reentrant);
      ScopesUnfold(f, l, r, o, k, reentrant);
      ScopesMarkReentry(l, o, k + 1, reentrant);
      ScopesMarkReentry(r, m, kr, reentrant);
      ScopesInOrder(l, o, k + 1, reentrant);
      ScopesInOrder(r, m, kr, reentrant);
      ReentryConcat(a, b, reentrant, o, m, m + ShapeOf(r).events, k + 1);
      ReentryCons(rec, a + b, reentrant);
      assert [rec] + a + b == [rec] + (a + b);
    case Roll(b) =>
      hide MarksReentry;
      var end := o + ShapeOf(b).events;
      ScopesUnfold(Parallel, b, b, o, k, reentrant);
      ScopesMarkReentry(b, o, k + 1, true);
      ScopesInOrder(b, o, k + 1, true);
      ReentryRoll(Record(ScopeId(RollScope, k), o, end, end, false), Scopes(b, o, k + 1, true), reentrant, o, end, k + 1);
  }

  /** A lowered route is marked reentrant exactly when a roll encloses it. */
  lemma {:induction false} ReentrantIffUnderRoll(n: Source, i: nat)
    requires i < |Records(Lower(n).markers)| && Records(Lower(n).markers)[i].scope.kind.RouteScope?
    ensures Records(Lower(n).markers)[i].reentrant <==> UnderRoll(Records(Lower(n).markers), i)
  {
    var p := Emitted(n, 0, 0, false);
    assert Lower(n).markers == p.heads + p.tails;
    hide Emitted;
    hide Records;
    hide Lower;
    hide Scopes;
    RecordsAreScopes(n, 0, 0, false);
    ScopesMarkReentry(n, 0, 0, false);
  }
}
