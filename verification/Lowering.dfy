/** Lowering a choreography source tree to events, scope markers and resolver
    markers: what each tree contributes and in which order the markers end up. */
module Lowering {
  import opened Choreography

  datatype Key = Key(component: nat, role: Role)
  datatype Payload = Wire(schema: nat) | Delegated(key: Key)
  datatype Message = Message(from: Key, to: Key, logical: nat, payload: Payload)

  datatype Fork = Choice(resolver: Option<nat>) | Parallel

  datatype Source =
    | Leaf(message: Message)
    | Chain(left: Source, right: Source)
    | Split(fork: Fork, left: Source, right: Source)
    | Roll(body: Source)

  // --------------------------------------------------- counts of the type tree

  datatype Shape = Shape(events: nat, markers: nat, resolvers: nat, scopes: nat)

  function Plus(a: Shape, b: Shape, markers: nat, resolvers: nat, scopes: nat): Shape {
    Shape(a.events + b.events, a.markers + b.markers + markers, a.resolvers + b.resolvers + resolvers, a.scopes + b.scopes + scopes)
  }

  const NO_ROWS := Shape(0, 0, 0, 0)

  /** Predicted event, scope-marker and resolver-marker counts, and the number of
      scope ordinals used. */
  function ShapeOf(n: Source): (s: Shape)
    ensures s.events >= 1
  {
    match n
    case Leaf(_) => Shape(1, 0, 0, 0)
    case Chain(l, r) => Plus(ShapeOf(l), ShapeOf(r), 0, 0, 0)
    case Split(f, l, r) =>
      Plus(ShapeOf(l), ShapeOf(r), if f.Choice? then 4 else 3, if f.Choice? && f.resolver.Some? then 1 else 0, 1)
    case Roll(b) => Plus(ShapeOf(b), NO_ROWS, 2, 0, 1)
  }

  // --------------------------------------------------------------- lowered rows

  datatype Kind = RouteScope | RollScope | ParallelScope
  datatype ScopeId = ScopeId(kind: Kind, ordinal: nat)

  datatype Entry = RouteEntry(rightEnd: nat) | RouteArmContinuation | ParallelEntry(split: nat) | RollEntry
  datatype ScopeEvent = Enter(entry: Entry) | Divide | Exit
  datatype Marker = Marker(offset: nat, segmentEnd: nat, scope: ScopeId, event: ScopeEvent, reentrant: bool)

  datatype EventPayload = WireEvent(schema: nat) | EndpointEvent(role: Role)
  datatype Atom = Atom(from: Role, to: Role, logical: nat, payload: EventPayload)

  datatype Resolver = Resolver(scope: ScopeId, id: nat)

  datatype Rows = Rows(events: seq<Atom>, markers: seq<Marker>, resolvers: seq<Resolver>, nextScope: nat)

  function AtomOf(m: Message): Atom {
    Atom(m.from.role, m.to.role, m.logical,
         match m.payload case Wire(s) => WireEvent(s) case Delegated(k) => EndpointEvent(k.role))
  }

  /** Whether insertion moves `m` in front of an earlier row `prev`. */
  predicate JumpsOver(m: Marker, prev: Marker) {
    || prev.offset > m.offset
    || (m.event.Enter? && prev.offset == m.offset &&
        (prev.event.Divide? || (prev.event.Enter? && prev.scope.ordinal > m.scope.ordinal)))
  }

  /** Where insertion stops, scanning back from `i`. */
  function Place(ms: seq<Marker>, i: nat, m: Marker): (p: nat)
    requires i <= |ms|
    ensures p <= i
  {
    if i > 0 && JumpsOver(m, ms[i - 1]) then Place(ms, i - 1, m) else i
  }

  function Insert(ms: seq<Marker>, m: Marker): seq<Marker> {
    var p := Place(ms, |ms|, m);
    ms[..p] + [m] + ms[p..]
  }

  function ForkScope(f: Fork, k: nat): ScopeId { ScopeId(if f.Choice? then RouteScope else ParallelScope, k) }

  /** What a scope pushes: an opening row, rows at the boundary of its two parts,
      and a closing row. */
  function Opening(f: Fork, k: nat, start: nat, split: nat, end: nat, reentrant: bool): Marker {
    if f.Choice? then Marker(start, split, ForkScope(f, k), Enter(RouteEntry(end)), reentrant)
    else Marker(start, end, ForkScope(f, k), Enter(ParallelEntry(split)), false)
  }

  function EndOfFirst(f: Fork, k: nat, split: nat): Marker {
    Marker(split, split, ForkScope(f, k), if f.Choice? then Exit else Divide, false)
  }

  function StartOfSecond(f: Fork, k: nat, split: nat, end: nat, reentrant: bool): Marker {
    Marker(split, end, ForkScope(f, k), Enter(RouteArmContinuation), reentrant)
  }

  function Boundary(f: Fork, k: nat, split: nat, end: nat, reentrant: bool): seq<Marker> {
    if f.Choice? then [EndOfFirst(f, k, split), StartOfSecond(f, k, split, end, reentrant)] else [EndOfFirst(f, k, split)]
  }

  function Closing(scope: ScopeId, end: nat): Marker { Marker(end, end, scope, Exit, false) }

  function RollOpening(k: nat, start: nat, end: nat): Marker {
    Marker(start, end, ScopeId(RollScope, k), Enter(RollEntry), false)
  }

  function ForkResolvers(f: Fork, k: nat): seq<Resolver> {
    if f.Choice? && f.resolver.Some? then [Resolver(ForkScope(f, k), f.resolver.value)] else []
  }

  // ------------------------------------------------------ what a tree contributes

  /** The rows of a tree. `heads` are the markers that open at its first event,
      `tails` the others, both in their final order. */
  datatype Piece = Piece(atoms: seq<Atom>, heads: seq<Marker>, tails: seq<Marker>, resolvers: seq<Resolver>, scopes: nat)

  function Then(a: Piece, b: Piece): Piece {
    Piece(a.atoms + b.atoms, a.heads, a.tails + b.heads + b.tails, a.resolvers + b.resolvers, a.scopes + b.scopes)
  }

  /** The boundary rows of a fork land after the scopes that open exactly there. */
  function Forked(f: Fork, o: nat, k: nat, reentrant: bool, a: Piece, b: Piece): Piece {
    var split := o + |a.atoms|;
    var end := split + |b.atoms|;
    Piece(a.atoms + b.atoms,
          [Opening(f, k, o, split, end, reentrant)] + a.heads,
          a.tails + b.heads + Boundary(f, k, split, end, reentrant) + b.tails + [Closing(ForkScope(f, k), end)],
          a.resolvers + b.resolvers + ForkResolvers(f, k),
          1 + a.scopes + b.scopes)
  }

  function Rolled(o: nat, k: nat, a: Piece): Piece {
    var end := o + |a.atoms|;
    Piece(a.atoms, [RollOpening(k, o, end)] + a.heads, a.tails + [Closing(ScopeId(RollScope, k), end)], a.resolvers, 1 + a.scopes)
  }

  /** The rows of a tree whose first event is `o` and first scope ordinal `k`. */
  function Emitted(n: Source, o: nat, k: nat, reentrant: bool): Piece {
    match n
    case Leaf(m) => Piece([AtomOf(m)], [], [], [], 0)
    case Chain(l, r) =>
      var a := Emitted(l, o, k, reentrant);
      Then(a, Emitted(r, o + |a.atoms|, k + a.scopes, reentrant))
    case Split(f, l, r) =>
      var a := Emitted(l, o, k + 1, reentrant);
      Forked(f, o, k, reentrant, a, Emitted(r, o + |a.atoms|, k + 1 + a.scopes, reentrant))
    case Roll(b) => Rolled(o, k, Emitted(b, o, k + 1, true))
  }

  function Extend(rows: Rows, p: Piece): Rows {
    Rows(rows.events + p.atoms, rows.markers + (p.heads + p.tails), rows.resolvers + p.resolvers, rows.nextScope + p.scopes)
  }

  const EMPTY_ROWS := Rows([], [], [], 0)

  /** The lowered program. */
  function Lower(n: Source): Rows { Extend(EMPTY_ROWS, Emitted(n, 0, 0, false)) }

  /** Lowering counts: every tree contributes exactly the events, scope markers,
      resolver markers and scopes its type predicts. */
  lemma {:induction false} CountsAgree(n: Source, o: nat, k: nat, reentrant: bool)
    ensures Measure(Emitted(n, o, k, reentrant)) == ShapeOf(n)
  {
    hide Measure;
    hide Then;
    hide Forked;
    hide Rolled;
    hide Plus;
    match n
    case Leaf(m) => AtomMeasure(m);
    case Chain(l, r) =>
      var a := Emitted(l, o, k, reentrant);
      CountsAgree(l, o, k, reentrant);
      CountsAgree(r, o + |a.atoms|, k + a.scopes, reentrant);
      ThenMeasure(a, Emitted(r, o + |a.atoms|, k + a.scopes, reentrant));
    case Split(f, l, r) =>
      var a := Emitted(l, o, k + 1, reentrant);
      CountsAgree(l, o, k + 1, reentrant);
      CountsAgree(r, o + |a.atoms|, k + 1 + a.scopes, reentrant);
      ForkedMeasure(f, o, k, reentrant, a, Emitted(r, o + |a.atoms|, k + 1 + a.scopes, reentrant));
    case Roll(b) =>
      CountsAgree(b, o, k + 1, true);
      RolledMeasure(o, k, Emitted(b, o, k + 1, true));
  }

  /** What a piece contributes to each partition of the arena. */
  function Measure(p: Piece): Shape { Shape(|p.atoms|, |p.heads| + |p.tails|, |p.resolvers|, p.scopes) }

  lemma AtomMeasure(m: Message)
    ensures Measure(Piece([AtomOf(m)], [], [], [], 0)) == Shape(1, 0, 0, 0)
  {
  }

  lemma ThenMeasure(a: Piece, b: Piece)
    ensures Measure(Then(a, b)) == Plus(Measure(a), Measure(b), 0, 0, 0)
  {
  }

  lemma ForkedMeasure(f: Fork, o: nat, k: nat, reentrant: bool, a: Piece, b: Piece)
    ensures Measure(Forked(f, o, k, reentrant, a, b)) ==
      Plus(Measure(a), Measure(b), if f.Choice? then 4 else 3, if f.Choice? && f.resolver.Some? then 1 else 0, 1)
  {
  }

  lemma RolledMeasure(o: nat, k: nat, a: Piece)
    ensures Measure(Rolled(o, k, a)) == Plus(Measure(a), NO_ROWS, 2, 0, 1)
  {
  }

  // ---------------------------------------------------------- where markers lie

  predicate Ordinal(scope: ScopeId, k: nat, scopes: nat) { k <= scope.ordinal < k + scopes }

  predicate IsHead(m: Marker, o: nat) { m.offset == o && m.event.Enter? }

  predicate IsTail(m: Marker, o: nat, end: nat) { o < m.offset <= end && (m.offset == end ==> m.event.Exit?) }

  /** Heads open at the first event, tails lie behind it and end with exits. */
  predicate Good(p: Piece, o: nat, k: nat) {
    && |p.atoms| >= 1
    && (forall m :: m in p.heads ==> IsHead(m, o) && Ordinal(m.scope, k, p.scopes))
    && (forall m :: m in p.tails ==> IsTail(m, o, o + |p.atoms|) && Ordinal(m.scope, k, p.scopes))
    && (forall r :: r in p.resolvers ==> Ordinal(r.scope, k, p.scopes))
  }

  lemma {:induction false} ThenGood(a: Piece, b: Piece, o: nat, k: nat)
    requires Good(a, o, k) && Good(b, o + |a.atoms|, k + a.scopes)
    ensures Good(Then(a, b), o, k)
  {
  }

  lemma AmongFive<T>(x: T, a: seq<T>, b: seq<T>, c: seq<T>, d: seq<T>, e: seq<T>)
    ensures x in a + b + c + d + e <==> x in a || x in b || x in c || x in d || x in e
  {
    assert x in a + b + c + d + e <==> x in a + b + c + d || x in e;
    assert x in a + b + c + d <==> x in a + b + c || x in d;
    assert x in a + b + c <==> x in a + b || x in c;
  }

  lemma BoundaryRows(f: Fork, k: nat, split: nat, end: nat, reentrant: bool)
    ensures forall m :: m in Boundary(f, k, split, end, reentrant) ==> m.offset == split && m.scope == ForkScope(f, k)
  {
  }

  lemma {:induction false} ForkedGood(f: Fork, o: nat, k: nat, reentrant: bool, a: Piece, b: Piece)
    requires Good(a, o, k + 1) && Good(b, o + |a.atoms|, k + 1 + a.scopes)
    ensures Good(Forked(f, o, k, reentrant, a, b), o, k)
  {
    hide Boundary;
    var p := Forked(f, o, k, reentrant, a, b);
    var split, end := o + |a.atoms|, o + |a.atoms| + |b.atoms|;
    BoundaryRows(f, k, split, end, reentrant);
    forall m | m in p.tails ensures IsTail(m, o, end) && Ordinal(m.scope, k, p.scopes) {
      AmongFive(m, a.tails, b.heads, Boundary(f, k, split, end, reentrant), b.tails, [Closing(ForkScope(f, k), end)]);
    }
  }

  lemma {:induction false} RolledGood(o: nat, k: nat, a: Piece)
    requires Good(a, o, k + 1)
    ensures Good(Rolled(o, k, a), o, k)
  {
  }

  lemma AtomGood(m: Message, o: nat, k: nat)
    ensures Good(Piece([AtomOf(m)], [], [], [], 0), o, k)
  {
  }

  lemma {:induction false} EmittedGood(n: Source, o: nat, k: nat, reentrant: bool)
    ensures Good(Emitted(n, o, k, reentrant), o, k)
  {
    hide Good;
    hide Then;
    hide Forked;
    hide Rolled;
    match n
    case Leaf(m) => AtomGood(m, o, k);
    case Chain(l, r) =>
      var a := Emitted(l, o, k, reentrant);
      EmittedGood(l, o, k, reentrant);
      EmittedGood(r, o + |a.atoms|, k + a.scopes, reentrant);
      ThenGood(a, Emitted(r, o + |a.atoms|, k + a.scopes, reentrant), o, k);
    case Split(f, l, r) =>
      var a := Emitted(l, o, k + 1, reentrant);
      EmittedGood(l, o, k + 1, reentrant);
      EmittedGood(r, o + |a.atoms|, k + 1 + a.scopes, reentrant);
      ForkedGood(f, o, k, reentrant, a, Emitted(r, o + |a.atoms|, k + 1 + a.scopes, reentrant));
    case Roll(b) =>
      EmittedGood(b, o, k + 1, true);
      RolledGood(o, k, Emitted(b, o, k + 1, true));
  }

  // ------------------------------------------------------------ insertion lands

  lemma {:induction false} PlaceIs(ms: seq<Marker>, i: nat, idx: nat, m: Marker)
    requires idx <= i <= |ms| && (idx > 0 ==> !JumpsOver(m, ms[idx - 1]))
    requires forall j :: idx <= j < i ==> JumpsOver(m, ms[j])
    ensures Place(ms, i, m) == idx
  {
    if i > idx { PlaceIs(ms, i - 1, idx, m); }
  }

  /** `m` goes between `a` and `b` when it jumps over all of `b` and not over the
      last row of `a`. */
  lemma {:induction false} InsertBetween(a: seq<Marker>, b: seq<Marker>, m: Marker)
    requires a != [] ==> !JumpsOver(m, a[|a| - 1])
    requires forall x :: x in b ==> JumpsOver(m, x)
    ensures Insert(a + b, m) == a + [m] + b
  {
    forall j | |a| <= j < |a + b| ensures JumpsOver(m, (a + b)[j]) {
      assert (a + b)[j] == b[j - |a|];
    }
    PlaceIs(a + b, |a + b|, |a|, m);
  }

  /** Everything emitted before event `o` ends there or earlier. */
  predicate Closed(ms: seq<Marker>, o: nat) {
    forall m :: m in ms ==> m.offset <= o && (m.offset == o ==> m.event.Exit?)
  }

  predicate ClosedRows(rows: Rows) { Closed(rows.markers, |rows.events|) }

  lemma {:induction false} StaysClosed(rows: Rows, p: Piece)
    requires ClosedRows(rows) && Good(p, |rows.events|, rows.nextScope)
    ensures ClosedRows(Extend(rows, p))
  {
  }

  /** A scope's opening row lands in front of everything its parts emitted. */
  lemma {:induction false} OpeningLands(before: seq<Marker>, inner: seq<Marker>, m: Marker)
    requires m.event.Enter? && Closed(before, m.offset)
    requires forall x :: x in inner ==> x.offset >= m.offset && (x.offset == m.offset ==> x.event.Enter? && x.scope.ordinal > m.scope.ordinal)
    ensures Insert(before + inner, m) == before + [m] + inner
  {
    if before != [] { assert before[|before| - 1] in before; }
    InsertBetween(before, inner, m);
  }

  /** A boundary or closing row lands behind every row up to its offset. */
  lemma {:induction false} BoundaryLands(before: seq<Marker>, after: seq<Marker>, m: Marker)
    requires !m.event.Enter? && forall x :: x in before ==> x.offset <= m.offset
    requires forall x :: x in after ==> x.offset > m.offset
    ensures Insert(before + after, m) == before + [m] + after
  {
    if before != [] { assert before[|before| - 1] in before; }
    InsertBetween(before, after, m);
  }

  lemma Regroup7<T>(p: seq<T>, op: T, hl: seq<T>, tl: seq<T>, hr: seq<T>, bd: seq<T>, tr: seq<T>, cl: T)
    ensures p + [op] + (hl + tl) + hr + bd + tr + [cl] == p + (([op] + hl) + (tl + hr + bd + tr + [cl]))
  {
  }

  lemma Regroup5<T>(p: seq<T>, a: seq<T>, b: seq<T>, c: seq<T>, d: seq<T>)
    ensures p + (a + b) + (c + d) == p + (a + (b + c + d))
  {
  }

  lemma Regroup4<T>(a: seq<T>, b: seq<T>, c: seq<T>, d: seq<T>)
    ensures a + b + c == a + (b + c)
    ensures a + b + c + d == a + (b + c + d)
  {
    assert a + b + c == a + (b + c);
    assert a + b + c + d == a + (b + c + d);
  }

  /** A fork whose parts have been emitted behind the markers `before`. */
  datatype Joint = Joint(before: seq<Marker>, fork: Fork, start: nat, scope: nat, reentrant: bool, left: Piece, right: Piece) {
    function Middle(): nat { start + |left.atoms| }
    function End(): nat { start + |left.atoms| + |right.atoms| }
    function Open(): Marker { Opening(fork, scope, start, Middle(), End(), reentrant) }
    function First(): Marker { EndOfFirst(fork, scope, Middle()) }
    function Second(): Marker { StartOfSecond(fork, scope, Middle(), End(), reentrant) }
    function Close(): Marker { Closing(ForkScope(fork, scope), End()) }
    function Bounds(): seq<Marker> { Boundary(fork, scope, Middle(), End(), reentrant) }
    function Whole(): Piece { Forked(fork, start, scope, reentrant, left, right) }

    predicate Sound() {
      Closed(before, start) && Good(left, start, scope + 1) && Good(right, Middle(), scope + 1 + left.scopes)
    }

    // The markers before, and after each insertion of the fork's own rows.
    function Parts(): seq<Marker> { before + (left.heads + left.tails) + (right.heads + right.tails) }
    function Around(): seq<Marker> { before + [Open()] + (left.heads + left.tails) + right.heads }
    function Opened(): seq<Marker> { Around() + right.tails }
    function Halved(): seq<Marker> { Around() + [First()] + right.tails }
    function Laid(): seq<Marker> { Around() + Bounds() + right.tails }
    function Done(): seq<Marker> { before + (Whole().heads + Whole().tails) }
  }

  lemma {:induction false} OpeningStep(j: Joint)
    requires j.Sound()
    ensures Insert(j.Parts(), j.Open()) == j.Opened()
  {
    var inner := (j.left.heads + j.left.tails) + (j.right.heads + j.right.tails);
    assert j.Parts() == j.before + inner;
    OpeningLands(j.before, inner, j.Open());
    assert j.before + [j.Open()] + inner == j.Opened();
  }

  lemma {:induction false} AroundBounded(j: Joint)
    requires j.Sound()
    ensures forall m :: m in j.Around() ==> m.offset <= j.Middle()
  {
    forall m | m in j.Around() ensures m.offset <= j.Middle() {
      AmongFive(m, j.before, [j.Open()], j.left.heads + j.left.tails, j.right.heads, []);
    }
  }

  lemma {:induction false} FirstStep(j: Joint)
    requires j.Sound()
    ensures Insert(j.Opened(), j.First()) == j.Halved()
  {
    AroundBounded(j);
    BoundaryLands(j.Around(), j.right.tails, j.First());
  }

  lemma {:induction false} SecondStep(j: Joint)
    requires j.Sound()
    ensures if j.fork.Choice? then Insert(j.Halved(), j.Second()) == j.Laid() else j.Halved() == j.Laid()
  {
    if j.fork.Choice? {
      InsertBetween(j.Around() + [j.First()], j.right.tails, j.Second());
      assert j.Around() + [j.First()] + [j.Second()] == j.Around() + j.Bounds();
    }
  }

  lemma {:induction false} LaidBounded(j: Joint)
    requires j.Sound()
    ensures forall m :: m in j.Laid() ==> m.offset <= j.End()
  {
    AroundBounded(j);
    BoundaryRows(j.fork, j.scope, j.Middle(), j.End(), j.reentrant);
    hide Boundary;
    hide Joint.Around;
    forall m | m in j.Laid() ensures m.offset <= j.End() {
      AmongFive(m, j.Around(), j.Bounds(), j.right.tails, [], []);
    }
  }

  lemma {:induction false} LaidIs(j: Joint)
    ensures j.Laid() + [j.Close()] == j.Done()
  {
    hide Opening;
    hide Boundary;
    hide Closing;
    Regroup7(j.before, j.Open(), j.left.heads, j.left.tails, j.right.heads, j.Bounds(), j.right.tails, j.Close());
  }

  lemma {:induction false} ClosingStep(j: Joint)
    requires j.Sound()
    ensures Insert(j.Laid(), j.Close()) == j.Done()
  {
    LaidBounded(j);
    LaidIs(j);
    hide Joint.Laid;
    hide Joint.Done;
    hide Joint.Sound;
    hide Insert;
    BoundaryLands(j.Laid(), [], j.Close());
    assert j.Laid() + [] == j.Laid();
  }

  lemma RegroupRoll<T>(p: seq<T>, op: T, h: seq<T>, t: seq<T>, cl: T)
    ensures p + [op] + (h + t) + [cl] == p + (([op] + h) + (t + [cl]))
  {
  }

  lemma {:induction false} RollOpens(before: seq<Marker>, o: nat, k: nat, a: Piece)
    requires Closed(before, o) && Good(a, o, k + 1)
    ensures Insert(before + (a.heads + a.tails), RollOpening(k, o, o + |a.atoms|)) == before + [RollOpening(k, o, o + |a.atoms|)] + (a.heads + a.tails)
    ensures forall m :: m in before + [RollOpening(k, o, o + |a.atoms|)] + (a.heads + a.tails) ==> m.offset <= o + |a.atoms|
  {
    var op := RollOpening(k, o, o + |a.atoms|);
    OpeningLands(before, a.heads + a.tails, op);
    forall m | m in before + [op] + (a.heads + a.tails) ensures m.offset <= o + |a.atoms| {
      AmongFive(m, before, [op], a.heads + a.tails, [], []);
    }
  }

  lemma {:induction false} RollSteps(before: seq<Marker>, o: nat, k: nat, a: Piece)
    requires Closed(before, o) && Good(a, o, k + 1)
    ensures var end, p := o + |a.atoms|, Rolled(o, k, a);
      Insert(Insert(before + (a.heads + a.tails), RollOpening(k, o, end)), Closing(ScopeId(RollScope, k), end)) == before + (p.heads + p.tails)
  {
    hide Good;
    hide Closed;
    hide Insert;
    var end := o + |a.atoms|;
    var op, cl := RollOpening(k, o, end), Closing(ScopeId(RollScope, k), end);
    RollOpens(before, o, k, a);
    var rows := before + [op] + (a.heads + a.tails);
    BoundaryLands(rows, [], cl);
    assert rows + [] == rows;
    RegroupRoll(before, op, a.heads, a.tails, cl);
  }

  /** Two parts in sequence need no insertion. */
  lemma {:induction false} ThenExtends(rows: Rows, a: Piece, b: Piece)
    ensures Extend(Extend(rows, a), b) == Extend(rows, Then(a, b))
  {
    Regroup4(rows.events, a.atoms, b.atoms, []);
    Regroup4(rows.resolvers, a.resolvers, b.resolvers, []);
    Regroup5(rows.markers, a.heads, a.tails, b.heads, b.tails);
  }

  /** The parts of a fork and then its own rows make the fork. */
  lemma {:induction false} ForkedExtends(rows: Rows, f: Fork, reentrant: bool, a: Piece, b: Piece)
    ensures var k := rows.nextScope;
      var j, two := Joint(rows.markers, f, |rows.events|, k, reentrant, a, b), Extend(Extend(rows.(nextScope := k + 1), a), b);
      && two.markers == j.Parts()
      && Rows(two.events, j.Done(), two.resolvers + ForkResolvers(f, k), two.nextScope) == Extend(rows, j.Whole())
  {
    Regroup4(rows.events, a.atoms, b.atoms, []);
    Regroup4(rows.resolvers, a.resolvers, b.resolvers, ForkResolvers(f, rows.nextScope));
  }
}
