/** The lowering pass itself: it allocates scope ordinals, pushes events, and
    inserts scope markers in place into a partitioned arena. Every panic of the
    pass is the result `false`. */
module SourceEmission {
  import opened Choreography
  import opened Lowering

  const SCOPE_CAPACITY := 8192
  const OFFSET_MAX := 65535

  function Size(n: Source): (s: nat)
    ensures s >= 1
  {
    match n
    case Leaf(_) => 1
    case Chain(l, r) => 1 + Size(l) + Size(r)
    case Split(_, l, r) => 1 + Size(l) + Size(r)
    case Roll(b) => 1 + Size(b)
  }

  lemma SizeSplit(f: Fork, l: Source, r: Source)
    ensures Size(Split(f, l, r)) == 1 + Size(l) + Size(r)
  {
  }

  /** What emission needs of a tree: its rows, all its endpoint keys in the
      composed choreography, and the event where its last scope ends, 0 without
      scopes. */
  datatype Need = Need(shape: Shape, one: bool, last: nat)

  predicate Composed(k: Key) { k.component == 0 }

  ghost function LeafNeed(m: Message): Need {
    Need(Shape(1, 0, 0, 0), Composed(m.from) && Composed(m.to) && (m.payload.Delegated? ==> Composed(m.payload.key)), 0)
  }

  ghost function Both(a: Need, b: Need): Need {
    Need(Plus(a.shape, b.shape, 0, 0, 0), a.one && b.one, if b.last > 0 then a.shape.events + b.last else a.last)
  }

  /** A scope with `markers` and `resolvers` rows of its own. */
  ghost function Scoped(a: Need, markers: nat, resolvers: nat): Need {
    Need(Plus(a.shape, NO_ROWS, markers, resolvers, 1), a.one, a.shape.events)
  }

  function ForkMarkers(f: Fork): nat { if f.Choice? then 4 else 3 }

  ghost function NeedOf(n: Source): Need {
    match n
    case Leaf(m) => LeafNeed(m)
    case Chain(l, r) => Both(NeedOf(l), NeedOf(r))
    case Split(f, l, r) => Scoped(Both(NeedOf(l), NeedOf(r)), ForkMarkers(f), |ForkResolvers(f, 0)|)
    case Roll(b) => Scoped(NeedOf(b), 2, 0)
  }

  lemma {:induction false} NeedShape(n: Source)
    ensures NeedOf(n).shape == ShapeOf(n)
  {
    hide Plus;
    match n
    case Leaf(_) =>
    case Chain(l, r) => NeedShape(l); NeedShape(r);
    case Split(f, l, r) =>
      NeedShape(l);
      NeedShape(r);
      PlusTwice(ShapeOf(l), ShapeOf(r), ForkMarkers(f), |ForkResolvers(f, 0)|);
    case Roll(b) => NeedShape(b);
  }

  lemma PlusTwice(a: Shape, b: Shape, markers: nat, resolvers: nat)
    ensures Plus(Plus(a, b, 0, 0, 0), NO_ROWS, markers, resolvers, 1) == Plus(a, b, markers, resolvers, 1)
  {
  }

  lemma {:induction false} NeedLast(n: Source)
    ensures NeedOf(n).last <= NeedOf(n).shape.events && NeedOf(n).shape.events > 0
  {
    hide Both;
    hide Scoped;
    match n
    case Leaf(_) =>
    case Chain(l, r) => NeedLast(l); NeedLast(r); BothLast(NeedOf(l), NeedOf(r));
    case Split(f, l, r) =>
      NeedLast(l);
      NeedLast(r);
      BothLast(NeedOf(l), NeedOf(r));
      ScopedLast(Both(NeedOf(l), NeedOf(r)), ForkMarkers(f), |ForkResolvers(f, 0)|);
    case Roll(b) => NeedLast(b); ScopedLast(NeedOf(b), 2, 0);
  }

  lemma BothLast(a: Need, b: Need)
    requires a.last <= a.shape.events && b.last <= b.shape.events && a.shape.events > 0
    ensures Both(a, b).last <= Both(a, b).shape.events && Both(a, b).shape.events > 0
  {
  }

  lemma ScopedLast(a: Need, markers: nat, resolvers: nat)
    requires a.shape.events > 0
    ensures Scoped(a, markers, resolvers).last <= Scoped(a, markers, resolvers).shape.events
    ensures Scoped(a, markers, resolvers).shape.events > 0
  {
  }

  /** Room left in the arena, at event `at`. */
  datatype Space = Space(events: int, markers: int, resolvers: int, scopes: int, at: nat)

  function SpaceLeft(rows: Rows, events: nat, markers: nat, resolvers: nat): Space {
    Space(events - |rows.events|, markers - |rows.markers|, resolvers - |rows.resolvers|, SCOPE_CAPACITY - rows.nextScope, |rows.events|)
  }

  predicate Fits(n: Need, s: Space) {
    && n.one
    && n.shape.events <= s.events
    && n.shape.markers <= s.markers
    && n.shape.resolvers <= s.resolvers
    && n.shape.scopes <= s.scopes
    && (n.last > 0 ==> s.at + n.last <= OFFSET_MAX)
  }

  function Less(s: Space, used: Shape): Space {
    Space(s.events - used.events, s.markers - used.markers, s.resolvers - used.resolvers, s.scopes - used.scopes, s.at + used.events)
  }

  lemma FitsBoth(a: Need, b: Need, s: Space)
    requires a.last <= a.shape.events
    ensures Fits(Both(a, b), s) <==> Fits(a, s) && Fits(b, Less(s, a.shape))
  {
  }

  lemma FitsScoped(a: Need, markers: nat, resolvers: nat, s: Space)
    requires a.last <= a.shape.events && a.shape.events > 0
    ensures Fits(Scoped(a, markers, resolvers), s) <==>
      && s.scopes >= 1
      && Fits(a, s.(scopes := s.scopes - 1))
      && a.shape.markers + markers <= s.markers
      && a.shape.resolvers + resolvers <= s.resolvers
      && s.at + a.shape.events <= OFFSET_MAX
  {
  }

  lemma FitsRoll(a: Need, s: Space)
    requires a.last <= a.shape.events && a.shape.events > 0
    ensures Fits(Scoped(a, 2, 0), s) <==>
      s.scopes >= 1 && Fits(a, s.(scopes := s.scopes - 1)) && a.shape.markers + 2 <= s.markers && s.at + a.shape.events <= OFFSET_MAX
  {
  }

  /** Rows after emitting a tree. */
  ghost function Added(rows: Rows, n: Source, reentrant: bool): Rows {
    Extend(rows, Emitted(n, |rows.events|, rows.nextScope, reentrant))
  }

  predicate Below(resolvers: seq<Resolver>, k: nat) { forall r :: r in resolvers ==> r.scope.ordinal < k }

  lemma AtomsNonempty(a: Piece, o: nat, k: nat)
    requires Good(a, o, k)
    ensures |a.atoms| > 0
  {
  }

  lemma SoundNonempty(j: Joint)
    requires j.Sound()
    ensures |j.left.atoms| > 0 && |j.right.atoms| > 0
  {
  }

  lemma LeafAdded(rows: Rows, m: Message, reentrant: bool)
    ensures Added(rows, Leaf(m), reentrant) == rows.(events := rows.events + [AtomOf(m)])
  {
    assert rows.markers + ([] + []) == rows.markers;
  }

  lemma LeafFits(m: Message, s: Space)
    requires s.markers >= 0 && s.resolvers >= 0 && s.scopes >= 0
    ensures Fits(LeafNeed(m), s) <==> LeafNeed(m).one && s.events >= 1
  {
  }

  lemma AddedCounts(rows: Rows, n: Source, reentrant: bool)
    ensures var out := Added(rows, n, reentrant);
      && |out.events| == |rows.events| + ShapeOf(n).events
      && |out.markers| == |rows.markers| + ShapeOf(n).markers
      && |out.resolvers| == |rows.resolvers| + ShapeOf(n).resolvers
      && out.nextScope == rows.nextScope + ShapeOf(n).scopes
    ensures ClosedRows(rows) ==> ClosedRows(Added(rows, n, reentrant))
  {
    hide Emitted;
    hide ShapeOf;
    CountsAgree(n, |rows.events|, rows.nextScope, reentrant);
    EmittedGood(n, |rows.events|, rows.nextScope, reentrant);
    if ClosedRows(rows) { StaysClosed(rows, Emitted(n, |rows.events|, rows.nextScope, reentrant)); }
  }

  lemma ExtendSizes(rows: Rows, a: Piece)
    ensures |Extend(rows, a).events| == |rows.events| + |a.atoms| && Extend(rows, a).nextScope == rows.nextScope + a.scopes
  {
  }

  lemma TwoAdded(rows: Rows, l: Source, r: Source, reentrant: bool)
    ensures var a := Emitted(l, |rows.events|, rows.nextScope, reentrant);
      var b := Emitted(r, |rows.events| + |a.atoms|, rows.nextScope + a.scopes, reentrant);
      Added(Added(rows, l, reentrant), r, reentrant) == Extend(Extend(rows, a), b)
  {
    hide Emitted;
    hide Extend;
    ExtendSizes(rows, Emitted(l, |rows.events|, rows.nextScope, reentrant));
  }

  lemma ChainEmitted(l: Source, r: Source, o: nat, k: nat, reentrant: bool)
    ensures var a := Emitted(l, o, k, reentrant);
      Emitted(Chain(l, r), o, k, reentrant) == Then(a, Emitted(r, o + |a.atoms|, k + a.scopes, reentrant))
  {
    hide Then;
  }

  lemma ChainAdded(rows: Rows, l: Source, r: Source, reentrant: bool)
    ensures Added(Added(rows, l, reentrant), r, reentrant) == Added(rows, Chain(l, r), reentrant)
  {
    hide Extend;
    hide Then;
    ChainEmitted(l, r, |rows.events|, rows.nextScope, reentrant);
    hide Emitted;
    TwoAdded(rows, l, r, reentrant);
    var a := Emitted(l, |rows.events|, rows.nextScope, reentrant);
    ThenExtends(rows, a, Emitted(r, |rows.events| + |a.atoms|, rows.nextScope + a.scopes, reentrant));
  }

  lemma SplitAdded(rows: Rows, f: Fork, l: Source, r: Source, reentrant: bool)
    ensures var o, k := |rows.events|, rows.nextScope;
      var a := Emitted(l, o, k + 1, reentrant);
      var b := Emitted(r, o + |a.atoms|, k + 1 + a.scopes, reentrant);
      Extend(rows, Forked(f, o, k, reentrant, a, b)) == Added(rows, Split(f, l, r), reentrant)
  {
    hide Forked;
    hide Extend;
  }

  /** The rows in the arena when both parts of a fork are done, in numbers. */
  lemma ForkCounts(rows: Rows, l: Source, r: Source, reentrant: bool)
    ensures var inner := rows.(nextScope := rows.nextScope + 1);
      var need, two := Both(NeedOf(l), NeedOf(r)), Added(Added(inner, l, reentrant), r, reentrant);
      && |two.events| == |rows.events| + need.shape.events
      && |two.markers| == |rows.markers| + need.shape.markers
      && |two.resolvers| == |rows.resolvers| + need.shape.resolvers
  {
    hide Added;
    hide NeedOf;
    hide ShapeOf;
    var inner := rows.(nextScope := rows.nextScope + 1);
    NeedShape(l);
    NeedShape(r);
    AddedCounts(inner, l, reentrant);
    AddedCounts(Added(inner, l, reentrant), r, reentrant);
  }

  /** A fork fits exactly when a scope is free, its parts fit, and its own rows fit
      behind the rows of its parts. */
  lemma ForkFits(rows: Rows, f: Fork, l: Source, r: Source, e: nat, m: nat, q: nat)
    ensures var inner, need := rows.(nextScope := rows.nextScope + 1), Both(NeedOf(l), NeedOf(r));
      Fits(NeedOf(Split(f, l, r)), SpaceLeft(rows, e, m, q)) <==>
          && rows.nextScope < SCOPE_CAPACITY
          && Fits(need, SpaceLeft(inner, e, m, q))
          && |rows.markers| + need.shape.markers + ForkMarkers(f) <= m
          && |rows.events| + need.shape.events <= OFFSET_MAX
          && |rows.resolvers| + need.shape.resolvers + |ForkResolvers(f, rows.nextScope)| <= q
  {
    hide Fits;
    hide Both;
    hide Scoped;
    assert NeedOf(Chain(l, r)) == Both(NeedOf(l), NeedOf(r));
    assert NeedOf(Split(f, l, r)) == Scoped(Both(NeedOf(l), NeedOf(r)), ForkMarkers(f), |ForkResolvers(f, 0)|);
    hide NeedOf;
    NeedLast(Chain(l, r));
    FitsScoped(Both(NeedOf(l), NeedOf(r)), ForkMarkers(f), |ForkResolvers(f, 0)|, SpaceLeft(rows, e, m, q));
  }

  /** The parts of a fork, from the rows in front of it. */
  lemma ForkJoint(rows: Rows, f: Fork, l: Source, r: Source, reentrant: bool) returns (j: Joint)
    requires ClosedRows(rows)
    ensures j.before == rows.markers && j.fork == f && j.start == |rows.events| && j.scope == rows.nextScope && j.reentrant == reentrant
    ensures j.Sound() && j.Middle() == |rows.events| + ShapeOf(l).events
    ensures Extend(rows, j.Whole()) == Added(rows, Split(f, l, r), reentrant)
    ensures var inner := rows.(nextScope := rows.nextScope + 1);
      ClosedRows(inner) && Added(Added(inner, l, reentrant), r, reentrant) == Extend(Extend(inner, j.left), j.right)
  {
    hide Good;
    hide Forked;
    hide Closed;
    hide Added;
    hide Extend;
    hide Emitted;
    var o, k := |rows.events|, rows.nextScope;
    SplitAdded(rows, f, l, r, reentrant);
    TwoAdded(rows.(nextScope := k + 1), l, r, reentrant);
    CountsAgree(l, o, k + 1, reentrant);
    hide ShapeOf;
    var a := Emitted(l, o, k + 1, reentrant);
    var b := Emitted(r, o + |a.atoms|, k + 1 + a.scopes, reentrant);
    EmittedGood(l, o, k + 1, reentrant);
    EmittedGood(r, o + |a.atoms|, k + 1 + a.scopes, reentrant);
    j := Joint(rows.markers, f, o, k, reentrant, a, b);
  }

  lemma RolledRows(rows: Rows, a: Piece)
    ensures var p := Rolled(|rows.events|, rows.nextScope, a);
      Extend(rows, p) == Extend(rows.(nextScope := rows.nextScope + 1), a).(markers := rows.markers + (p.heads + p.tails))
  {
  }

  /** The body of a roll, from the rows in front of it. */
  lemma RollPiece(rows: Rows, b: Source, reentrant: bool) returns (a: Piece)
    requires ClosedRows(rows)
    ensures var o, k, inner := |rows.events|, rows.nextScope, rows.(nextScope := rows.nextScope + 1);
      var two, p := Added(inner, b, true), Rolled(o, k, a);
      && Good(a, o, k + 1) && Closed(rows.markers, o) && ClosedRows(inner)
      && |two.events| == o + |a.atoms|
      && two.markers == rows.markers + (a.heads + a.tails)
      && two.(markers := rows.markers + (p.heads + p.tails)) == Added(rows, Roll(b), reentrant)
  {
    hide Rolled;
    hide Good;
    hide Closed;
    var o, k := |rows.events|, rows.nextScope;
    a := Emitted(b, o, k + 1, true);
    assert Emitted(Roll(b), o, k, reentrant) == Rolled(o, k, a);
    hide Emitted;
    RolledRows(rows, a);
    EmittedGood(b, o, k + 1, true);
  }

  lemma NeedRoll(b: Source)
    ensures NeedOf(Roll(b)) == Scoped(NeedOf(b), 2, 0)
  {
    hide Scoped;
    hide Both;
    hide LeafNeed;
  }

  lemma RollFits(rows: Rows, b: Source, e: nat, m: nat, q: nat)
    ensures var inner := rows.(nextScope := rows.nextScope + 1);
      Fits(NeedOf(Roll(b)), SpaceLeft(rows, e, m, q)) <==>
          && rows.nextScope < SCOPE_CAPACITY
          && Fits(NeedOf(b), SpaceLeft(inner, e, m, q))
          && |Added(inner, b, true).markers| + 2 <= m
          && |Added(inner, b, true).events| <= OFFSET_MAX
  {
    hide Scoped;
    hide Fits;
    hide NeedOf;
    NeedRoll(b);
    hide ShapeOf;
    hide Added;
    NeedLast(b);
    NeedShape(b);
    FitsRoll(NeedOf(b), SpaceLeft(rows, e, m, q));
    AddedCounts(rows.(nextScope := rows.nextScope + 1), b, true);
  }

  /** A fork's scope is not yet among the resolver markers. */
  lemma UnusedScope(rs: seq<Resolver>, f: Fork, k: nat, o: nat, a: Piece, b: Piece)
    requires Below(rs, k) && Good(a, o, k + 1) && Good(b, o + |a.atoms|, k + 1 + a.scopes)
    ensures forall r :: r in rs + a.resolvers + b.resolvers ==> r.scope != ForkScope(f, k)
  {
    forall r | r in rs + a.resolvers + b.resolvers ensures r.scope != ForkScope(f, k) {
      AmongFive(r, rs, a.resolvers, b.resolvers, [], []);
    }
  }

  function RowCount(n: Source): nat { ShapeOf(n).events + ShapeOf(n).markers + ShapeOf(n).resolvers }

  /** The entry of a scope is one of its kind, with parts that are not empty. */
  predicate EntryFits(m: Marker, e: Entry) {
    match e
    case RouteEntry(rightEnd) => m.scope.kind.RouteScope? && m.segmentEnd < rightEnd <= OFFSET_MAX
    case RouteArmContinuation => m.scope.kind.RouteScope?
    case ParallelEntry(split) => m.scope.kind.ParallelScope? && m.offset < split < m.segmentEnd
    case RollEntry => m.scope.kind.RollScope?
  }

  /** What a marker row can hold. */
  predicate Encodable(m: Marker) {
    && m.offset <= OFFSET_MAX
    && m.segmentEnd <= OFFSET_MAX
    && match m.event
       case Enter(e) => m.offset < m.segmentEnd && EntryFits(m, e)
       case Divide => m.segmentEnd == m.offset && m.scope.kind.ParallelScope?
       case Exit => m.segmentEnd == m.offset
  }

  const BLANK := Marker(0, 0, ScopeId(RouteScope, 0), Exit, false)

  /** Shift later rows right until the marker's place is reached. */
  method InsertInPlace(rows: array<Marker>, len: nat, m: Marker)
    requires len < rows.Length
    modifies rows
    ensures rows[..len + 1] == Insert(old(rows[..len]), m)
  {
    ghost var before := rows[..len];
    var idx := len;
    while idx > 0 && JumpsOver(m, rows[idx - 1])
      invariant 0 <= idx <= len == |before|
      invariant forall i :: 0 <= i < idx ==> rows[i] == before[i]
      invariant forall i :: idx < i <= len ==> rows[i] == before[i - 1]
      invariant forall i :: idx <= i < len ==> JumpsOver(m, before[i])
    {
      rows[idx] := rows[idx - 1];
      idx := idx - 1;
    }
    rows[idx] := m;
    PlaceIs(before, len, idx, m);
    assert rows[..len + 1] == before[..idx] + [m] + before[idx..];
  }

  class SourceLowering {
    const eventCapacity: nat
    const resolverCapacity: nat
    var events: seq<Atom>
    var arena: array<Marker>
    var markerLen: nat
    var resolvers: seq<Resolver>
    var nextScope: nat

    ghost predicate Valid()
      reads this
    {
      && markerLen <= arena.Length
      && |events| <= eventCapacity
      && |resolvers| <= resolverCapacity
      && nextScope <= SCOPE_CAPACITY
      && Below(resolvers, nextScope)
    }

    ghost function Marked(): (ms: seq<Marker>)
      requires Valid()
      reads this, arena
      ensures |ms| == markerLen
    {
      arena[..markerLen]
    }

    ghost function Snapshot(): Rows
      requires Valid()
      reads this, arena
    {
      Rows(events, Marked(), resolvers, nextScope)
    }

    constructor (eventCount: nat, markerCount: nat, resolverCount: nat)
      ensures Valid() && fresh(arena) && arena.Length == markerCount
      ensures eventCapacity == eventCount && resolverCapacity == resolverCount
      ensures events == [] && Marked() == [] && resolvers == [] && nextScope == 0
    {
      eventCapacity, resolverCapacity := eventCount, resolverCount;
      arena := new Marker[markerCount](_ => BLANK);
      events, markerLen, resolvers, nextScope := [], 0, [], 0;
    }

    method InsertScopeMarker(m: Marker) returns (ok: bool)
      requires Valid()
      modifies this`markerLen, arena
      ensures Valid()
      ensures ok <==> old(markerLen) < arena.Length && Encodable(m)
      ensures ok ==> Marked() == Insert(old(Marked()), m) && markerLen == old(markerLen) + 1
    {
      ok := Encodable(m) && markerLen < arena.Length;
      if ok {
        InsertInPlace(arena, markerLen, m);
        markerLen := markerLen + 1;
      }
    }

    method PushEvent(atom: Atom) returns (ok: bool)
      requires Valid()
      modifies this`events
      ensures Valid()
      ensures ok <==> |old(events)| < eventCapacity
      ensures events == if ok then old(events) + [atom] else old(events)
    {
      ok := |events| < eventCapacity;
      if ok { events := events + [atom]; }
    }

    method AllocateScope() returns (ordinal: Option<nat>)
      requires Valid()
      modifies this`nextScope
      ensures Valid()
      ensures ordinal.Some? <==> old(nextScope) < SCOPE_CAPACITY
      ensures ordinal.Some? ==> ordinal.value == old(nextScope)
      ensures ordinal.Some? ==> Snapshot() == old(Snapshot()).(nextScope := ordinal.value + 1)
    {
      if nextScope >= SCOPE_CAPACITY { return None; }
      ordinal := Some(nextScope);
      nextScope := nextScope + 1;
    }

    /** The duplicate-scope panic needs an equal scope among the markers. */
    method PushRouteResolver(scope: ScopeId, id: nat) returns (ok: bool)
      requires Valid() && scope.ordinal < nextScope
      modifies this`resolvers
      ensures Valid()
      ensures ok <==> |old(resolvers)| < resolverCapacity && forall r :: r in old(resolvers) ==> r.scope != scope
      ensures resolvers == if ok then old(resolvers) + [Resolver(scope, id)] else old(resolvers)
    {
      for i := 0 to |resolvers|
        invariant forall j :: 0 <= j < i ==> resolvers[j].scope != scope
      {
        if resolvers[i].scope == scope {
          assert resolvers[i] in resolvers;
          return false;
        }
      }
      if |resolvers| >= resolverCapacity { return false; }
      resolvers := resolvers + [Resolver(scope, id)];
      ok := true;
    }

    /** Push the rows of a fork whose parts were emitted just before. */
    method PushFork(f: Fork, k: nat, start: nat, split: nat, end: nat, reentrant: bool, ghost j: Joint) returns (ok: bool)
      requires Valid() && j.Sound() && Marked() == j.Parts()
      requires j.fork == f && j.start == start && j.scope == k && j.reentrant == reentrant && j.Middle() == split && j.End() == end
      modifies this`markerLen, arena
      ensures Valid()
      ensures ok <==> old(markerLen) + ForkMarkers(f) <= arena.Length && end <= OFFSET_MAX
      ensures ok ==> Marked() == j.Done() && markerLen == old(markerLen) + ForkMarkers(f)
    {
      hide Valid;
      hide Marked;
      hide Insert;
      hide Joint.Sound;
      hide Joint.Parts;
      hide Joint.Opened;
      hide Joint.Halved;
      hide Joint.Laid;
      hide Joint.Done;
      SoundNonempty(j);
      OpeningStep(j);
      FirstStep(j);
      SecondStep(j);
      ClosingStep(j);
      ok := InsertScopeMarker(Opening(f, k, start, split, end, reentrant));
      if !ok { return false; }
      ok := InsertScopeMarker(EndOfFirst(f, k, split));
      if !ok { return false; }
      if f.Choice? {
        ok := InsertScopeMarker(StartOfSecond(f, k, split, end, reentrant));
        if !ok { return false; }
      }
      ok := InsertScopeMarker(Closing(ForkScope(f, k), end));
    }

    method PushRoll(k: nat, start: nat, end: nat, ghost before: seq<Marker>, ghost a: Piece) returns (ok: bool)
      requires Valid() && Closed(before, start) && Good(a, start, k + 1)
      requires end == start + |a.atoms| && Marked() == before + (a.heads + a.tails)
      modifies this`markerLen, arena
      ensures Valid()
      ensures ok <==> old(markerLen) + 2 <= arena.Length && end <= OFFSET_MAX
      ensures ok ==> var p := Rolled(start, k, a); Marked() == before + (p.heads + p.tails)
      ensures ok ==> markerLen == old(markerLen) + 2
    {
      hide Closed;
      hide Rolled;
      hide Insert;
      RollSteps(before, start, k, a);
      AtomsNonempty(a, start, k + 1);
      hide Good;
      hide Valid;
      hide Marked;
      ok := InsertScopeMarker(RollOpening(k, start, end));
      if !ok { return false; }
      ok := InsertScopeMarker(Closing(ScopeId(RollScope, k), end));
    }

    ghost function Left(): Space
      requires Valid()
      reads this, arena
    {
      SpaceLeft(Snapshot(), eventCapacity, arena.Length, resolverCapacity)
    }

    /** Emission succeeds exactly when the tree fits, and then appends the events,
        leaves the scope markers in closed-form order, and appends the resolver
        markers. */
    method Emit(n: Source, reentrant: bool) returns (ok: bool)
      requires Valid() && ClosedRows(Snapshot())
      modifies this`events, this`markerLen, this`resolvers, this`nextScope, arena
      ensures Valid()
      ensures ok <==> Fits(NeedOf(n), old(Left()))
      ensures ok ==> Snapshot() == Added(old(Snapshot()), n, reentrant)
      decreases Size(n), 2
    {
      hide ClosedRows;
      hide Added;
      hide Fits;
      hide Both;
      match n
      case Leaf(m) =>
        LeafAdded(old(Snapshot()), m, reentrant);
        LeafFits(m, Left());
        if m.from.component != 0 || m.to.component != 0 { return false; }
        if m.payload.Delegated? && m.payload.key.component != 0 { return false; }
        ok := PushEvent(AtomOf(m));
      case Chain(l, r) =>
        var split: nat;
        ok, split := EmitParts(l, r, reentrant);
        ChainAdded(old(Snapshot()), l, r, reentrant);
      case Split(f, l, r) => ok := EmitFork(f, l, r, reentrant);
      case Roll(b) => ok := EmitRoll(b, reentrant);
    }

    /** Two parts one after the other; the second starts at `split`. */
    method EmitParts(l: Source, r: Source, reentrant: bool) returns (ok: bool, split: nat)
      requires Valid() && ClosedRows(Snapshot())
      modifies this`events, this`markerLen, this`resolvers, this`nextScope, arena
      ensures Valid()
      ensures ok <==> Fits(Both(NeedOf(l), NeedOf(r)), old(Left()))
      ensures ok ==> Snapshot() == Added(Added(old(Snapshot()), l, reentrant), r, reentrant)
      ensures ok ==> split == |old(events)| + ShapeOf(l).events
      decreases Size(l) + Size(r), 3
    {
      hide Valid;
      hide Marked;
      hide Added;
      hide ClosedRows;
      hide Size;
      hide Fits;
      hide ShapeOf;
      hide NeedOf;
      hide Both;
      AddedCounts(Snapshot(), l, reentrant);
      NeedShape(l);
      NeedLast(l);
      FitsBoth(NeedOf(l), NeedOf(r), Left());
      ok := Emit(l, reentrant);
      split := |events|;
      if !ok { return; }
      ok := Emit(r, reentrant);
    }

    /** The fork's own rows, after its parts. */
    method FinishFork(f: Fork, k: nat, start: nat, split: nat, reentrant: bool, ghost rows: Rows, ghost j: Joint) returns (ok: bool)
      requires Valid() && j.Sound() && Below(rows.resolvers, k)
      requires j == Joint(rows.markers, f, start, k, reentrant, j.left, j.right)
      requires k == rows.nextScope && start == |rows.events| && split == j.Middle()
      requires Snapshot() == Extend(Extend(rows.(nextScope := k + 1), j.left), j.right)
      modifies this`markerLen, this`resolvers, arena
      ensures Valid()
      ensures ok <==>
        && old(markerLen) + ForkMarkers(f) <= arena.Length
        && |events| <= OFFSET_MAX
        && |old(resolvers)| + |ForkResolvers(f, k)| <= resolverCapacity
      ensures ok ==> Snapshot() == Extend(rows, j.Whole())
    {
      ForkedExtends(rows, f, reentrant, j.left, j.right);
      UnusedScope(rows.resolvers, f, k, start, j.left, j.right);
      assert |events| == j.End();
      assert resolvers == rows.resolvers + j.left.resolvers + j.right.resolvers;
      hide Joint.Sound;
      hide Joint.Parts;
      hide Joint.Done;
      hide Joint.Whole;
      hide Extend;
      ok := PushFork(f, k, start, split, |events|, reentrant, j);
      if !ok { return false; }
      if f.Choice? && f.resolver.Some? {
        ok := PushRouteResolver(ForkScope(f, k), f.resolver.value);
      } else {
        assert resolvers + ForkResolvers(f, k) == resolvers;
      }
    }

    method EmitFork(f: Fork, l: Source, r: Source, reentrant: bool) returns (ok: bool)
      requires Valid() && ClosedRows(Snapshot())
      modifies this`events, this`markerLen, this`resolvers, this`nextScope, arena
      ensures Valid()
      ensures ok <==> Fits(NeedOf(Split(f, l, r)), old(Left()))
      ensures ok ==> Snapshot() == Added(old(Snapshot()), Split(f, l, r), reentrant)
      decreases Size(Split(f, l, r)), 1
    {
      hide Marked;
      hide Joint.Sound;
      hide Joint.Whole;
      hide ClosedRows;
      hide Added;
      hide Extend;
      hide Fits;
      hide NeedOf;
      hide Both;
      hide ShapeOf;
      hide Size;
      SizeSplit(f, l, r);
      ghost var rows := Snapshot();
      ghost var j := ForkJoint(rows, f, l, r, reentrant);
      ForkFits(rows, f, l, r, eventCapacity, arena.Length, resolverCapacity);
      ForkCounts(rows, l, r, reentrant);
      var scope := AllocateScope();
      if scope.None? { return false; }
      ok := EmitForkParts(f, l, r, scope.value, reentrant, rows, j);
    }

    method EmitForkParts(f: Fork, l: Source, r: Source, k: nat, reentrant: bool, ghost rows: Rows, ghost j: Joint) returns (ok: bool)
      requires Valid() && Snapshot() == rows.(nextScope := k + 1) && k == rows.nextScope && ClosedRows(Snapshot())
      requires j.Sound() && Below(rows.resolvers, k)
      requires j == Joint(rows.markers, f, |rows.events|, k, reentrant, j.left, j.right)
      requires j.Middle() == |rows.events| + ShapeOf(l).events
      requires Added(Added(Snapshot(), l, reentrant), r, reentrant) == Extend(Extend(Snapshot(), j.left), j.right)
      modifies this`events, this`markerLen, this`resolvers, this`nextScope, arena
      ensures Valid()
      ensures var two := Added(Added(old(Snapshot()), l, reentrant), r, reentrant);
        ok <==>
          && Fits(Both(NeedOf(l), NeedOf(r)), old(Left()))
          && |two.markers| + ForkMarkers(f) <= arena.Length
          && |two.events| <= OFFSET_MAX
          && |two.resolvers| + |ForkResolvers(f, k)| <= resolverCapacity
      ensures ok ==> Snapshot() == Extend(rows, j.Whole())
      decreases Size(l) + Size(r), 4
    {
      hide Valid;
      hide Marked;
      hide Joint.Sound;
      hide Joint.Whole;
      hide ClosedRows;
      hide Added;
      hide Extend;
      hide Fits;
      hide NeedOf;
      hide Both;
      hide ShapeOf;
      hide Size;
      var start, split := |events|, 0;
      ok, split := EmitParts(l, r, reentrant);
      if !ok { return false; }
      ok := FinishFork(f, k, start, split, reentrant, rows, j);
    }

    method EmitRoll(b: Source, reentrant: bool) returns (ok: bool)
      requires Valid() && ClosedRows(Snapshot())
      modifies this`events, this`markerLen, this`resolvers, this`nextScope, arena
      ensures Valid()
      ensures ok <==> Fits(NeedOf(Roll(b)), old(Left()))
      ensures ok ==> Snapshot() == Added(old(Snapshot()), Roll(b), reentrant)
      decreases Size(Roll(b)), 1
    {
      hide Marked;
      hide ClosedRows;
      hide Closed;
      hide Added;
      hide Good;
      hide Rolled;
      hide Fits;
      hide NeedOf;
      ghost var rows := Snapshot();
      ghost var a := RollPiece(rows, b, reentrant);
      RollFits(rows, b, eventCapacity, arena.Length, resolverCapacity);
      var scope := AllocateScope();
      if scope.None? { return false; }
      var start := |events|;
      ok := Emit(b, true);
      if !ok { return false; }
      ok := PushRoll(scope.value, start, |events|, rows.markers, a);
    }
  }

  /** The whole pass over a source arena of `capacity` rows. It fails exactly when
      the predicted rows exceed the arena or the tree exceeds an encoding limit;
      the final count comparison cannot fail. */
  method LowerProgram(n: Source, capacity: nat) returns (out: Option<Rows>)
    ensures out.Some? <==>
      && RowCount(n) <= capacity
      && NeedOf(n).one
      && ShapeOf(n).scopes <= SCOPE_CAPACITY
      && NeedOf(n).last <= OFFSET_MAX
    ensures out.Some? ==> out.value == Lower(n)
  {
    var rowCount := RowCount(n);
    if rowCount == 0 || rowCount > capacity { return None; }
    NeedShape(n);
    NeedLast(n);
    AddedCounts(EMPTY_ROWS, n, false);
    var lowering := new SourceLowering(ShapeOf(n).events, ShapeOf(n).markers, ShapeOf(n).resolvers);
    var ok := lowering.Emit(n, false);
    if !ok { return None; }
    if |lowering.events| != ShapeOf(n).events || lowering.markerLen != ShapeOf(n).markers || |lowering.resolvers| != ShapeOf(n).resolvers {
      assert false;
    }
    out := Some(Rows(lowering.events, lowering.arena[..lowering.markerLen], lowering.resolvers, lowering.nextScope));
  }
}
