/** Which route arms each lane has visited, and one reference-counted selected arm
    per route scope. A scope is identified with its slot. */
module RouteTable {
  import opened Choreography

  type Arm = a: nat | a < 2

  datatype Held = Held(scope: nat, arm: Arm)
  datatype Slot = Slot(arm: nat, refs: nat)
  datatype Table = Table(lanes: seq<seq<Held>>, slots: seq<Slot>)

  const NO_ARM := 255
  const EMPTY_SLOT := Slot(NO_ARM, 0)
  const U16_MAX := 65535
  const NO_HISTORY: seq<Held> := []

  // ---------------------------------------------------------- lanes and slots

  /** Position of the scope in a lane's history; its length when absent. */
  function Place(h: seq<Held>, s: nat): (i: nat)
    ensures i <= |h|
    ensures i < |h| ==> h[i].scope == s
    ensures forall j :: 0 <= j < i ==> h[j].scope != s
  {
    if h == [] then 0 else if h[0].scope == s then 0 else 1 + Place(h[1..], s)
  }

  predicate Holds(h: seq<Held>, s: nat) { Place(h, s) < |h| }

  function WithArm(h: seq<Held>, s: nat, arm: Arm): seq<Held> {
    if Holds(h, s) then h[Place(h, s) := Held(s, arm)] else h + [Held(s, arm)]
  }

  /** A lane that already holds the scope selects another arm. `None` is an
      invariant failure, here and below. */
  function Reselected(slot: Slot, current: nat, arm: nat): Option<Slot> {
    if current == arm then Some(slot)
    else if slot.refs == 0 then None
    else if slot.arm == current then (if slot.refs != 1 then None else Some(slot.(arm := arm)))
    else if slot.arm != arm then None
    else Some(slot)
  }

  function Acquired(slot: Slot, arm: nat): Option<Slot> {
    if slot.refs == 0 then Some(Slot(arm, 1))
    else if slot.refs == U16_MAX then None
    else Some(slot.(refs := slot.refs + 1))
  }

  function Released(slot: Slot): Option<Slot> {
    if slot.refs == 0 then None else if slot.refs == 1 then Some(EMPTY_SLOT) else Some(slot.(refs := slot.refs - 1))
  }

  function Total(lanes: seq<seq<Held>>): nat {
    if lanes == [] then 0 else Total(lanes[..|lanes| - 1]) + |lanes[|lanes| - 1]|
  }

  function Empty(lanes: nat, scopes: nat): Table {
    Table(seq(lanes, _ => NO_HISTORY), seq(scopes, _ => EMPTY_SLOT))
  }

  // ---------------------------------------------------------------- operations

  predicate Preflight(t: Table, capacity: nat, lane: nat, s: nat, arm: Arm, reentrant: bool) {
    && lane < |t.lanes|
    && s < |t.slots|
    && s <= U16_MAX
    && var h, slot := t.lanes[lane], t.slots[s];
       if Holds(h, s) then
         var current := h[Place(h, s)].arm;
         current == arm || (slot.refs == 1 && slot.arm == current) || (reentrant && slot.arm == arm)
       else Total(t.lanes) < capacity && (slot.refs == 0 || (slot.arm == arm && slot.refs != U16_MAX))
  }

  function Apply(t: Table, capacity: nat, lane: nat, s: nat, arm: Arm): Option<Table> {
    if lane >= |t.lanes| || s >= |t.slots| then None
    else
      var h := t.lanes[lane];
      var slot := if Holds(h, s) then Reselected(t.slots[s], h[Place(h, s)].arm, arm)
                  else if Total(t.lanes) < capacity then Acquired(t.slots[s], arm) else None;
      if slot.None? then None
      else Some(Table(t.lanes[lane := WithArm(h, s, arm)], t.slots[s := slot.value]))
  }

  function Lookup(t: Table, s: nat): Option<nat> {
    if s >= |t.slots| || t.slots[s].refs == 0 || t.slots[s].arm == NO_ARM then None else Some(t.slots[s].arm)
  }

  // ------------------------------------------------------------------ soundness

  function Count(lanes: seq<seq<Held>>, s: nat): nat {
    if lanes == [] then 0 else Count(lanes[..|lanes| - 1], s) + (if Holds(lanes[|lanes| - 1], s) then 1 else 0)
  }

  /** No scope twice, and every row agrees with its slot. */
  predicate LaneSound(h: seq<Held>, slots: seq<Slot>) {
    forall i :: 0 <= i < |h| ==> Place(h, h[i].scope) == i && h[i].scope < |slots| && slots[h[i].scope].arm == h[i].arm
  }

  /** Each slot counts the lanes that hold its scope. */
  predicate SlotSound(lanes: seq<seq<Held>>, slot: Slot, s: nat) {
    slot.refs == Count(lanes, s) && (slot.refs == 0 ==> slot == EMPTY_SLOT) && (slot.refs > 0 ==> slot.arm < 2)
  }

  predicate Sound(t: Table) {
    && (forall d :: 0 <= d < |t.lanes| ==> LaneSound(t.lanes[d], t.slots))
    && (forall s :: 0 <= s < |t.slots| ==> SlotSound(t.lanes, t.slots[s], s))
  }

  lemma {:induction false} EmptySound(lanes: nat, scopes: nat)
    ensures Sound(Empty(lanes, scopes))
  {
    forall s: nat ensures Count(Empty(lanes, scopes).lanes, s) == 0 { CountNone(lanes, s); }
  }

  lemma {:induction false} CountNone(lanes: nat, s: nat)
    ensures Count(seq(lanes, _ => NO_HISTORY), s) == 0
  {
    if lanes > 0 {
      CountNone(lanes - 1, s);
      assert seq(lanes, _ => NO_HISTORY)[..lanes - 1] == seq(lanes - 1, _ => NO_HISTORY);
    }
  }

  function One(b: bool): int { if b then 1 else 0 }

  lemma {:induction false} CountUpdate(lanes: seq<seq<Held>>, d: nat, h: seq<Held>, s: nat)
    requires d < |lanes|
    ensures Count(lanes[d := h], s) == Count(lanes, s) - One(Holds(lanes[d], s)) + One(Holds(h, s))
  {
    hide Holds;
    var n := |lanes| - 1;
    if d < n {
      CountUpdate(lanes[..n], d, h, s);
      assert lanes[d := h][..n] == lanes[..n][d := h];
    } else {
      assert lanes[d := h][..n] == lanes[..n];
    }
  }

  lemma {:induction false} HolderCounts(lanes: seq<seq<Held>>, d: nat, s: nat)
    requires d < |lanes| && Holds(lanes[d], s)
    ensures Count(lanes, s) >= 1
    ensures Count(lanes, s) == 1 ==> forall e :: 0 <= e < |lanes| && e != d ==> !Holds(lanes[e], s)
  {
    hide Holds;
    var n := |lanes| - 1;
    if d < n {
      HolderCounts(lanes[..n], d, s);
      assert forall e :: 0 <= e < n ==> lanes[..n][e] == lanes[e];
    } else {
      forall e | 0 <= e < n && Count(lanes, s) == 1 ensures !Holds(lanes[e], s) {
        if Holds(lanes[..n][e], s) { HolderCounts(lanes[..n], e, s); }
      }
    }
  }

  /** Only the named scope changes in a lane, and it is then held with the arm. */
  lemma {:induction false} WithArmIs(h: seq<Held>, s: nat, arm: Arm)
    ensures var g := WithArm(h, s, arm);
      && Holds(g, s) && g[Place(g, s)] == Held(s, arm)
      && (forall x :: x != s ==> (Holds(g, x) <==> Holds(h, x)))
      && |g| == |h| + One(!Holds(h, s))
  {
    var g := WithArm(h, s, arm);
    var p := Place(h, s);
    forall x ensures x != s ==> (Holds(g, x) <==> Holds(h, x)) {
      if x != s && Holds(h, x) { assert g[Place(h, x)].scope == x; }
      if x != s && Holds(g, x) { assert h[Place(g, x)].scope == x; }
    }
    assert g[p].scope == s;
  }

  lemma {:induction false} WithArmSound(h: seq<Held>, slots: seq<Slot>, s: nat, arm: Arm, slot: Slot)
    requires LaneSound(h, slots) && s < |slots| && slot.arm == arm
    ensures LaneSound(WithArm(h, s, arm), slots[s := slot])
  {
    hide Place;
    var g, p := WithArm(h, s, arm), Place(h, s);
    assert forall j :: 0 <= j < |h| ==> g[j].scope == h[j].scope;
    forall i | 0 <= i < |g| ensures Place(g, g[i].scope) == i && g[i].scope < |slots| && slots[s := slot][g[i].scope].arm == g[i].arm {
      if i < |h| { assert Place(h, h[i].scope) == i; }
    }
  }

  /** A lane that does not hold the scope does not see its slot. */
  lemma {:induction false} OtherLaneSound(h: seq<Held>, slots: seq<Slot>, s: nat, slot: Slot)
    requires LaneSound(h, slots) && s < |slots| && (!Holds(h, s) || slot.arm == slots[s].arm)
    ensures LaneSound(h, slots[s := slot])
  {
    forall i | 0 <= i < |h| ensures slots[s := slot][h[i].scope].arm == h[i].arm {
      assert Place(h, h[i].scope) == i;
    }
  }

  /** The slot that an accepted preflight leads to. */
  lemma {:induction false} AppliedSlot(t: Table, capacity: nat, lane: nat, s: nat, arm: Arm, reentrant: bool) returns (slot: Slot)
    requires Sound(t) && Preflight(t, capacity, lane, s, arm, reentrant)
    ensures slot == Slot(arm, t.slots[s].refs + One(!Holds(t.lanes[lane], s)))
    ensures arm == t.slots[s].arm || t.slots[s].refs == 0 || (t.slots[s].refs == 1 && Holds(t.lanes[lane], s))
    ensures Apply(t, capacity, lane, s, arm) == Some(Table(t.lanes[lane := WithArm(t.lanes[lane], s, arm)], t.slots[s := slot]))
  {
    var h := t.lanes[lane];
    assert LaneSound(h, t.slots) && SlotSound(t.lanes, t.slots[s], s);
    hide WithArm;
    if Holds(h, s) { HolderCounts(t.lanes, lane, s); }
    slot := Slot(arm, t.slots[s].refs + One(!Holds(h, s)));
  }

  lemma {:induction false} SlotsStaySound(t: Table, lane: nat, s: nat, arm: Arm, slot: Slot)
    requires Sound(t) && lane < |t.lanes| && s < |t.slots| && slot == Slot(arm, t.slots[s].refs + One(!Holds(t.lanes[lane], s)))
    ensures var after := Table(t.lanes[lane := WithArm(t.lanes[lane], s, arm)], t.slots[s := slot]);
      forall x :: 0 <= x < |after.slots| ==> SlotSound(after.lanes, after.slots[x], x)
  {
    var h := t.lanes[lane];
    var after := Table(t.lanes[lane := WithArm(h, s, arm)], t.slots[s := slot]);
    WithArmIs(h, s, arm);
    hide WithArm;
    hide Holds;
    hide Count;
    if Holds(h, s) { HolderCounts(t.lanes, lane, s); }
    forall x | 0 <= x < |after.slots| ensures SlotSound(after.lanes, after.slots[x], x) {
      CountUpdate(t.lanes, lane, WithArm(h, s, arm), x);
      assert SlotSound(t.lanes, t.slots[x], x);
    }
  }

  /** An accepted preflight means that applying hits no invariant failure, keeps
      the table sound, and makes lookup return the chosen arm. */
  lemma {:induction false} PreflightedApply(t: Table, capacity: nat, lane: nat, s: nat, arm: Arm, reentrant: bool)
    requires Sound(t) && Preflight(t, capacity, lane, s, arm, reentrant)
    ensures Apply(t, capacity, lane, s, arm).Some?
    ensures var after := Apply(t, capacity, lane, s, arm).value;
      && Sound(after)
      && Lookup(after, s) == Some(arm)
      && (forall x :: x != s ==> Lookup(after, x) == Lookup(t, x))
  {
    var slot := AppliedSlot(t, capacity, lane, s, arm, reentrant);
    var after := Table(t.lanes[lane := WithArm(t.lanes[lane], s, arm)], t.slots[s := slot]);
    assert SlotSound(t.lanes, t.slots[s], s);
    if Holds(t.lanes[lane], s) { HolderCounts(t.lanes, lane, s); }
    hide Apply;
    hide WithArm;
    hide Holds;
    hide Count;
    hide LaneSound;
    hide SlotSound;
    LanesStaySound(t, lane, s, arm, after);
    SlotsStaySound(t, lane, s, arm, slot);
  }

  lemma {:induction false} LanesStaySound(t: Table, lane: nat, s: nat, arm: Arm, after: Table)
    requires Sound(t) && lane < |t.lanes| && s < |t.slots| && |after.slots| == |t.slots|
    requires after == Table(t.lanes[lane := WithArm(t.lanes[lane], s, arm)], t.slots[s := after.slots[s]]) && after.slots[s].arm == arm
    requires arm == t.slots[s].arm || t.slots[s].refs == 0 || (t.slots[s].refs == 1 && Holds(t.lanes[lane], s))
    ensures forall d :: 0 <= d < |after.lanes| ==> LaneSound(after.lanes[d], after.slots)
  {
    assert SlotSound(t.lanes, t.slots[s], s);
    forall d | 0 <= d < |after.lanes| ensures LaneSound(after.lanes[d], after.slots) {
      assert LaneSound(t.lanes[d], t.slots);
      if d == lane {
        WithArmSound(t.lanes[d], t.slots, s, arm, after.slots[s]);
      } else {
        if Holds(t.lanes[d], s) { HolderCounts(t.lanes, d, s); }
        OtherLaneSound(t.lanes[d], t.slots, s, after.slots[s]);
      }
    }
  }

  // ------------------------------------------------------------------- capacity

  /** Every recorded visit is one of the descriptor's (lane, scope) relations. */
  predicate Described(t: Table, relations: set<(nat, nat)>) {
    forall d, i :: 0 <= d < |t.lanes| && 0 <= i < |t.lanes[d]| ==> (d, t.lanes[d][i].scope) in relations
  }

  function Visited(lanes: seq<seq<Held>>): set<(nat, nat)> {
    set d, i | 0 <= d < |lanes| && 0 <= i < |lanes[d]| :: (d, lanes[d][i].scope)
  }

  function LaneVisits(d: nat, h: seq<Held>): set<(nat, nat)> {
    set i | 0 <= i < |h| :: (d, h[i].scope)
  }

  lemma {:induction false} LaneVisitsCount(d: nat, h: seq<Held>)
    requires forall i, j :: 0 <= i < j < |h| ==> h[i].scope != h[j].scope
    ensures |LaneVisits(d, h)| == |h|
  {
    if h != [] {
      var init, last := h[..|h| - 1], h[|h| - 1];
      LaneVisitsCount(d, init);
      assert (d, last.scope) !in LaneVisits(d, init);
      assert LaneVisits(d, h) == LaneVisits(d, init) + {(d, last.scope)};
    }
  }

  lemma VisitedSplit(lanes: seq<seq<Held>>, n: nat)
    requires |lanes| == n + 1
    ensures Visited(lanes) == Visited(lanes[..n]) + LaneVisits(n, lanes[n])
    ensures Visited(lanes[..n]) !! LaneVisits(n, lanes[n])
  {
    assert forall d :: 0 <= d < n ==> lanes[..n][d] == lanes[d];
  }

  lemma {:induction false} VisitedCount(lanes: seq<seq<Held>>, slots: seq<Slot>)
    requires forall d :: 0 <= d < |lanes| ==> LaneSound(lanes[d], slots)
    ensures |Visited(lanes)| == Total(lanes)
  {
    if lanes != [] {
      var n := |lanes| - 1;
      VisitedCount(lanes[..n], slots);
      assert LaneSound(lanes[n], slots);
      LaneVisitsCount(n, lanes[n]);
      VisitedSplit(lanes, n);
      hide Visited;
      hide LaneVisits;
    } else {
      assert Visited(lanes) == {};
    }
  }

  lemma {:induction false} SubsetSmaller<T>(a: set<T>, b: set<T>)
    requires a <= b
    ensures |a| <= |b|
  {
    assert b == a + (b - a);
  }

  /** History never overflows: with one cell per relation, every missing visit
      finds room. */
  lemma {:induction false} MissingVisitFits(t: Table, relations: set<(nat, nat)>, lane: nat, s: nat)
    requires Sound(t) && Described(t, relations)
    requires lane < |t.lanes| && (lane, s) in relations && !Holds(t.lanes[lane], s)
    ensures Total(t.lanes) < |relations|
  {
    VisitedCount(t.lanes, t.slots);
    var h := t.lanes[lane];
    assert forall i :: 0 <= i < |h| ==> h[i].scope != s;
    assert (lane, s) !in Visited(t.lanes);
    SubsetSmaller(Visited(t.lanes) + {(lane, s)}, relations);
  }

  lemma {:induction false} ApplyDescribed(t: Table, capacity: nat, relations: set<(nat, nat)>, lane: nat, s: nat, arm: Arm)
    requires Described(t, relations) && (lane, s) in relations && Apply(t, capacity, lane, s, arm).Some?
    ensures Described(Apply(t, capacity, lane, s, arm).value, relations)
  {
    var after := Apply(t, capacity, lane, s, arm).value;
    forall d, i | 0 <= d < |after.lanes| && 0 <= i < |after.lanes[d]| ensures (d, after.lanes[d][i].scope) in relations {
      if d == lane && i < |t.lanes[d]| { assert (d, t.lanes[d][i].scope) in relations; }
    }
  }

  // ------------------------------------------------------------ clearing a lane

  /** A lane's history without the scopes in `gone`. */
  function Kept(h: seq<Held>, gone: set<nat>): (k: seq<Held>)
    ensures |k| <= |h|
  {
    if h == [] then [] else (if h[0].scope in gone then [] else [h[0]]) + Kept(h[1..], gone)
  }

  function Dropped(slot: Slot): Slot {
    if slot.refs <= 1 then EMPTY_SLOT else slot.(refs := slot.refs - 1)
  }

  function DroppedSlots(slots: seq<Slot>, h: seq<Held>, gone: set<nat>): (r: seq<Slot>)
    ensures |r| == |slots|
  {
    seq(|slots|, s requires 0 <= s < |slots| => if s in gone && Holds(h, s) then Dropped(slots[s]) else slots[s])
  }

  /** Forget the visits of a lane to the given scopes and release their slots. */
  function ClearLane(t: Table, lane: nat, gone: set<nat>): Table
    requires lane < |t.lanes|
  {
    Table(t.lanes[lane := Kept(t.lanes[lane], gone)], DroppedSlots(t.slots, t.lanes[lane], gone))
  }

  lemma {:induction false} KeptIs(h: seq<Held>, gone: set<nat>)
    ensures forall r :: r in Kept(h, gone) <==> r in h && r.scope !in gone
  {
    if h != [] {
      KeptIs(h[1..], gone);
      assert h == [h[0]] + h[1..];
    }
  }

  lemma HoldsIs(h: seq<Held>, s: nat)
    ensures Holds(h, s) <==> exists r :: r in h && r.scope == s
  {
    if Holds(h, s) { assert h[Place(h, s)] in h; }
    if r :| r in h && r.scope == s {
      var i :| 0 <= i < |h| && h[i] == r;
    }
  }

  predicate Distinct(h: seq<Held>) { forall i, j :: 0 <= i < j < |h| ==> h[i].scope != h[j].scope }

  lemma DistinctPlaces(h: seq<Held>)
    ensures Distinct(h) <==> forall i :: 0 <= i < |h| ==> Place(h, h[i].scope) == i
  {
    if forall i :: 0 <= i < |h| ==> Place(h, h[i].scope) == i {
      forall i, j | 0 <= i < j < |h| ensures h[i].scope != h[j].scope { assert Place(h, h[j].scope) == j; }
    }
  }

  lemma {:induction false} KeptDistinct(h: seq<Held>, gone: set<nat>)
    requires Distinct(h)
    ensures Distinct(Kept(h, gone))
  {
    if h != [] {
      KeptDistinct(h[1..], gone);
      KeptIs(h[1..], gone);
      var k := Kept(h, gone);
      forall i, j | 0 <= i < j < |k| ensures k[i].scope != k[j].scope {
        if h[0].scope !in gone && i == 0 {
          assert k[j] == Kept(h[1..], gone)[j - 1];
          assert k[j] in h[1..];
          var x :| 0 <= x < |h[1..]| && h[1..][x] == k[j];
          assert h[x + 1] == k[j];
        }
      }
    }
  }

  lemma {:induction false} KeptHolds(h: seq<Held>, gone: set<nat>, s: nat)
    ensures Holds(Kept(h, gone), s) <==> Holds(h, s) && s !in gone
  {
    KeptIs(h, gone);
    HoldsIs(h, s);
    HoldsIs(Kept(h, gone), s);
    hide Kept;
    hide Holds;
    if r :| r in h && r.scope == s { if s !in gone { assert r in Kept(h, gone); } }
  }

  /** Clearing keeps every slot's count exact and every lane in agreement. */
  lemma {:induction false} ClearLaneSound(t: Table, lane: nat, gone: set<nat>)
    requires Sound(t) && lane < |t.lanes|
    ensures Sound(ClearLane(t, lane, gone))
    ensures forall s :: 0 <= s < |t.slots| && s !in gone ==> ClearLane(t, lane, gone).slots[s] == t.slots[s]
  {
    var h, after := t.lanes[lane], ClearLane(t, lane, gone);
    forall s | 0 <= s < |t.slots| ensures SlotSound(after.lanes, after.slots[s], s) {
      assert SlotSound(t.lanes, t.slots[s], s);
      CountUpdate(t.lanes, lane, Kept(h, gone), s);
      KeptHolds(h, gone, s);
      if Holds(h, s) { HolderCounts(t.lanes, lane, s); }
    }
    forall d | 0 <= d < |t.lanes| ensures LaneSound(after.lanes[d], after.slots) {
      ClearedLaneSound(t, lane, gone, d);
    }
  }

  lemma {:induction false} ClearedLaneSound(t: Table, lane: nat, gone: set<nat>, d: nat)
    requires Sound(t) && lane < |t.lanes| && d < |t.lanes|
    ensures LaneSound(ClearLane(t, lane, gone).lanes[d], ClearLane(t, lane, gone).slots)
  {
    var h, after := t.lanes[lane], ClearLane(t, lane, gone);
    var g := after.lanes[d];
    assert LaneSound(t.lanes[d], t.slots);
    DistinctPlaces(t.lanes[d]);
    KeptIs(h, gone);
    if d == lane { KeptDistinct(h, gone); }
    DistinctPlaces(g);
    forall i | 0 <= i < |g| ensures g[i].scope < |t.slots| && after.slots[g[i].scope].arm == g[i].arm {
      var s := g[i].scope;
      assert g[i] in t.lanes[d];
      var j :| 0 <= j < |t.lanes[d]| && t.lanes[d][j] == g[i];
      assert SlotSound(t.lanes, t.slots[s], s);
      if d != lane && s in gone && Holds(h, s) {
        HoldsIs(t.lanes[d], s);
        HolderCounts(t.lanes, d, s);
      }
    }
  }

  /** Clear the first `n` lanes. */
  function ClearLanes(t: Table, n: nat, gone: set<nat>): (r: Table)
    requires n <= |t.lanes|
    ensures |r.lanes| == |t.lanes| && |r.slots| == |t.slots|
  {
    if n == 0 then t else ClearLane(ClearLanes(t, n - 1, gone), n - 1, gone)
  }

  lemma {:induction false} ClearLanesSound(t: Table, n: nat, gone: set<nat>)
    requires Sound(t) && n <= |t.lanes|
    ensures Sound(ClearLanes(t, n, gone))
    ensures forall s :: 0 <= s < |t.slots| && s !in gone ==> ClearLanes(t, n, gone).slots[s] == t.slots[s]
  {
    hide Sound;
    hide ClearLane;
    if n > 0 {
      ClearLanesSound(t, n - 1, gone);
      ClearLaneSound(ClearLanes(t, n - 1, gone), n - 1, gone);
    }
  }

  // ------------------------------------------------------- a completed iteration

  function Renamed(h: seq<Held>, s: nat, from: Arm, to: Arm): (r: seq<Held>)
    ensures |r| == |h| && forall i :: 0 <= i < |h| ==> r[i] == if h[i] == Held(s, from) then Held(s, to) else h[i]
  {
    if h == [] then [] else [if h[0] == Held(s, from) then Held(s, to) else h[0]] + Renamed(h[1..], s, from, to)
  }

  function RenameLanes(lanes: seq<seq<Held>>, s: nat, from: Arm, to: Arm): seq<seq<Held>> {
    seq(|lanes|, d requires 0 <= d < |lanes| => Renamed(lanes[d], s, from, to))
  }

  function RenameSlot(slot: Slot, from: Arm, to: Arm): Slot {
    if slot.refs != 0 && slot.arm == from then slot.(arm := to) else slot
  }

  /** A reentrant route starts its next iteration: every lane moves from the
      completed arm to the new one and forgets what was selected inside the
      completed arm. */
  function Restarted(t: Table, s: nat, completed: Arm, arm: Arm, nested: set<nat>): Table
    requires s < |t.slots|
  {
    var c := ClearLanes(t, |t.lanes|, nested);
    Table(RenameLanes(c.lanes, s, completed, arm), c.slots[s := RenameSlot(c.slots[s], completed, arm)])
  }

  lemma {:induction false} RenamedPlace(h: seq<Held>, s: nat, from: Arm, to: Arm, x: nat)
    ensures Place(Renamed(h, s, from, to), x) == Place(h, x)
  {
    var r := Renamed(h, s, from, to);
    assert forall i :: 0 <= i < |h| ==> r[i].scope == h[i].scope;
  }

  lemma {:induction false} RenamedCount(lanes: seq<seq<Held>>, s: nat, from: Arm, to: Arm, x: nat)
    ensures Count(RenameLanes(lanes, s, from, to), x) == Count(lanes, x)
  {
    if lanes != [] {
      var n := |lanes| - 1;
      RenamedCount(lanes[..n], s, from, to, x);
      RenamedPlace(lanes[n], s, from, to, x);
      assert RenameLanes(lanes, s, from, to)[..n] == RenameLanes(lanes[..n], s, from, to);
    }
  }

  lemma {:induction false} RenameSound(t: Table, s: nat, completed: Arm, arm: Arm)
    requires Sound(t) && Lookup(t, s) == Some(completed)
    ensures Sound(Table(RenameLanes(t.lanes, s, completed, arm), t.slots[s := RenameSlot(t.slots[s], completed, arm)]))
  {
    var after := Table(RenameLanes(t.lanes, s, completed, arm), t.slots[s := RenameSlot(t.slots[s], completed, arm)]);
    forall x | 0 <= x < |t.slots| ensures SlotSound(after.lanes, after.slots[x], x) {
      assert SlotSound(t.lanes, t.slots[x], x);
      RenamedCount(t.lanes, s, completed, arm, x);
    }
    forall d | 0 <= d < |t.lanes| ensures LaneSound(after.lanes[d], after.slots) {
      var h, g := t.lanes[d], after.lanes[d];
      assert LaneSound(h, t.slots);
      forall i | 0 <= i < |g| ensures Place(g, g[i].scope) == i && g[i].scope < |after.slots| && after.slots[g[i].scope].arm == g[i].arm {
        RenamedPlace(h, s, completed, arm, h[i].scope);
      }
    }
  }

  lemma {:induction false} RestartSound(t: Table, s: nat, completed: Arm, arm: Arm, nested: set<nat>)
    requires Sound(t) && Lookup(t, s) == Some(completed) && s !in nested
    ensures Sound(Restarted(t, s, completed, arm, nested)) && Lookup(Restarted(t, s, completed, arm, nested), s) == Some(arm)
  {
    ClearLanesSound(t, |t.lanes|, nested);
    RenameSound(ClearLanes(t, |t.lanes|, nested), s, completed, arm);
  }

  lemma {:induction false} CountBound(lanes: seq<seq<Held>>, s: nat)
    ensures Count(lanes, s) <= |lanes|
  {
    if lanes != [] { CountBound(lanes[..|lanes| - 1], s); }
  }

  lemma {:induction false} ClearLanesDescribed(t: Table, n: nat, gone: set<nat>, relations: set<(nat, nat)>)
    requires Described(t, relations) && n <= |t.lanes|
    ensures Described(ClearLanes(t, n, gone), relations)
  {
    if n > 0 {
      ClearLanesDescribed(t, n - 1, gone, relations);
      ClearDescribed(ClearLanes(t, n - 1, gone), n - 1, gone, relations);
    }
  }

  lemma {:induction false} ClearDescribed(t: Table, lane: nat, gone: set<nat>, relations: set<(nat, nat)>)
    requires Described(t, relations) && lane < |t.lanes|
    ensures Described(ClearLane(t, lane, gone), relations)
  {
    var after := ClearLane(t, lane, gone);
    KeptIs(t.lanes[lane], gone);
    forall d, i | 0 <= d < |after.lanes| && 0 <= i < |after.lanes[d]| ensures (d, after.lanes[d][i].scope) in relations {
      assert after.lanes[d][i] in t.lanes[d];
      var j :| 0 <= j < |t.lanes[d]| && t.lanes[d][j] == after.lanes[d][i];
    }
  }

  lemma {:induction false} RestartDescribed(t: Table, s: nat, completed: Arm, arm: Arm, nested: set<nat>, relations: set<(nat, nat)>)
    requires Described(t, relations) && s < |t.slots|
    ensures Described(Restarted(t, s, completed, arm, nested), relations)
  {
    ClearLanesDescribed(t, |t.lanes|, nested, relations);
    var c, after := ClearLanes(t, |t.lanes|, nested), Restarted(t, s, completed, arm, nested);
    forall d, i | 0 <= d < |after.lanes| && 0 <= i < |after.lanes[d]| ensures (d, after.lanes[d][i].scope) in relations {
      assert (d, c.lanes[d][i].scope) in relations;
    }
  }

  predicate Unopposed(t: Table, s: nat, arm: Arm) { Lookup(t, s).None? || Lookup(t, s).value == arm }

  /** A row preflights, whatever its lane already holds, when no other arm of its
      scope is selected. */
  lemma {:induction false} UnopposedPreflights(t: Table, relations: set<(nat, nat)>, lane: nat, s: nat, arm: Arm, reentrant: bool)
    requires Sound(t) && Described(t, relations) && Unopposed(t, s, arm) && s < |t.slots| && s <= U16_MAX
    requires lane < |t.lanes| < U16_MAX && (lane, s) in relations
    ensures Preflight(t, |relations|, lane, s, arm, reentrant)
  {
    assert LaneSound(t.lanes[lane], t.slots) && SlotSound(t.lanes, t.slots[s], s);
    CountBound(t.lanes, s);
    if Holds(t.lanes[lane], s) { HolderCounts(t.lanes, lane, s); } else { MissingVisitFits(t, relations, lane, s); }
  }

  // ------------------------------------------------------------- rows of a commit

  /** A row of a commit. `complete` is present when the cursor finds the selected
      arm of a reentrant scope complete: the scopes nested in that arm. A row is
      `newVisit` from the first fresh row of its chain on; earlier rows are retained.
      `enterable`: the program has an entry for the arm. */
  datatype Choice = Choice(scope: nat, arm: Arm, complete: Option<set<nat>>, newVisit: bool, enterable: bool) {
    predicate Nests(x: nat) { complete.Some? && x in complete.value }
  }

  predicate Restarts(t: Table, c: Choice) {
    c.newVisit && c.complete.Some? && Lookup(t, c.scope).Some? && Lookup(t, c.scope).value < 2
  }

  /** What the kernel checks of a row before any row is applied. */
  predicate Accepted(t: Table, capacity: nat, lane: nat, c: Choice, reentrant: bool) {
    && lane < |t.lanes| && c.scope < |t.slots| && c.enterable
    && (!c.newVisit ==> Lookup(t, c.scope) == Some(c.arm))
    && if Lookup(t, c.scope).Some? && c.complete.Some? then true
       else Unopposed(t, c.scope, c.arm) && Preflight(t, capacity, lane, c.scope, c.arm, reentrant)
  }

  function ApplyRow(t: Table, capacity: nat, lane: nat, c: Choice): Option<Table> {
    if Restarts(t, c) then Apply(Restarted(t, c.scope, Lookup(t, c.scope).value, c.arm, c.complete.value), capacity, lane, c.scope, c.arm)
    else Apply(t, capacity, lane, c.scope, c.arm)
  }

  ghost predicate Healthy(t: Table, relations: set<(nat, nat)>) {
    Sound(t) && Described(t, relations) && |t.lanes| <= 256 && |t.slots| <= U16_MAX
  }

  /** What a row needs when it is applied. */
  predicate Applicable(t: Table, lane: nat, c: Choice) {
    lane < |t.lanes| && c.scope < |t.slots| && (Restarts(t, c) || Unopposed(t, c.scope, c.arm))
  }

  lemma AcceptedApplicable(t: Table, relations: set<(nat, nat)>, lane: nat, c: Choice, reentrant: bool)
    requires Healthy(t, relations) && Accepted(t, |relations|, lane, c, reentrant)
    ensures Applicable(t, lane, c)
  {
    assert SlotSound(t.lanes, t.slots[c.scope], c.scope);
  }

  /** It still has it when its scope was left alone or forgotten meanwhile. */
  lemma ApplicableStands(t: Table, after: Table, lane: nat, c: Choice)
    requires Applicable(t, lane, c) && |after.lanes| == |t.lanes| && |after.slots| == |t.slots|
    requires after.slots[c.scope] in {t.slots[c.scope], EMPTY_SLOT}
    ensures Applicable(after, lane, c)
  {
  }

  lemma {:induction false} ClearedAt(t: Table, n: nat, gone: set<nat>, d: nat)
    requires n <= |t.lanes| && d < |t.lanes|
    ensures ClearLanes(t, n, gone).lanes[d] == if d < n then Kept(t.lanes[d], gone) else t.lanes[d]
  {
    hide Kept;
    hide DroppedSlots;
    if n > 0 { ClearedAt(t, n - 1, gone, d); }
  }

  /** Clearing every lane forgets the given scopes and leaves the others alone. */
  lemma {:induction false} ClearForgets(t: Table, gone: set<nat>, x: nat)
    requires Sound(t) && x < |t.slots|
    ensures ClearLanes(t, |t.lanes|, gone).slots[x] == if x in gone then EMPTY_SLOT else t.slots[x]
  {
    var c := ClearLanes(t, |t.lanes|, gone);
    ClearLanesSound(t, |t.lanes|, gone);
    if x in gone {
      forall d | 0 <= d < |c.lanes| ensures !Holds(c.lanes[d], x) {
        ClearedAt(t, |t.lanes|, gone, d);
        KeptHolds(t.lanes[d], gone, x);
      }
      NobodyCounts(c.lanes, x);
      assert SlotSound(c.lanes, c.slots[x], x);
    }
  }

  lemma {:induction false} NobodyCounts(lanes: seq<seq<Held>>, x: nat)
    requires forall d :: 0 <= d < |lanes| ==> !Holds(lanes[d], x)
    ensures Count(lanes, x) == 0
  {
    hide Holds;
    if lanes != [] { NobodyCounts(lanes[..|lanes| - 1], x); }
  }

  lemma {:induction false} ClearHealthy(t: Table, relations: set<(nat, nat)>, gone: set<nat>)
    requires Healthy(t, relations)
    ensures Healthy(ClearLanes(t, |t.lanes|, gone), relations)
  {
    ClearLanesSound(t, |t.lanes|, gone);
    ClearLanesDescribed(t, |t.lanes|, gone, relations);
  }

  /** An applicable row applies without failure, and its scope then has its arm. */
  lemma {:induction false} RowApplies(t: Table, relations: set<(nat, nat)>, lane: nat, c: Choice)
    requires Healthy(t, relations) && (lane, c.scope) in relations && !c.Nests(c.scope)
    requires Applicable(t, lane, c)
    ensures ApplyRow(t, |relations|, lane, c).Some?
    ensures var after := ApplyRow(t, |relations|, lane, c).value;
      && Healthy(after, relations) && Lookup(after, c.scope) == Some(c.arm)
      && |after.lanes| == |t.lanes| && c.scope < |after.slots| == |t.slots|
  {
    if Restarts(t, c) {
      var completed := Lookup(t, c.scope).value;
      RestartSound(t, c.scope, completed, c.arm, c.complete.value);
      RestartDescribed(t, c.scope, completed, c.arm, c.complete.value, relations);
      var r := Restarted(t, c.scope, completed, c.arm, c.complete.value);
      UnopposedPreflights(r, relations, lane, c.scope, c.arm, true);
      PreflightedApply(r, |relations|, lane, c.scope, c.arm, true);
      ApplyDescribed(r, |relations|, relations, lane, c.scope, c.arm);
    } else {
      UnopposedPreflights(t, relations, lane, c.scope, c.arm, true);
      PreflightedApply(t, |relations|, lane, c.scope, c.arm, true);
      ApplyDescribed(t, |relations|, relations, lane, c.scope, c.arm);
    }
  }

  /** A row leaves every other scope alone or forgets it. */
  lemma {:induction false} RowAffects(t: Table, relations: set<(nat, nat)>, lane: nat, c: Choice, x: nat)
    requires Healthy(t, relations) && (lane, c.scope) in relations && !c.Nests(c.scope)
    requires Applicable(t, lane, c) && x != c.scope && x < |t.slots|
    ensures ApplyRow(t, |relations|, lane, c).Some?
    ensures var after := ApplyRow(t, |relations|, lane, c).value;
      |after.slots| == |t.slots| && after.slots[x] == if Restarts(t, c) && c.Nests(x) then EMPTY_SLOT else t.slots[x]
  {
    RowApplies(t, relations, lane, c);
    if Restarts(t, c) { ClearForgets(t, c.complete.value, x); }
  }

  // ---------------------------------------------------------------- whole chains

  function ApplyAll(t: Table, capacity: nat, lane: nat, chain: seq<Choice>): Option<Table>
    decreases |chain|
  {
    if chain == [] then Some(t)
    else
      var next := ApplyRow(t, capacity, lane, chain[0]);
      if next.None? then None else ApplyAll(next.value, capacity, lane, chain[1..])
  }

  /** The rows of a chain are all checked against the state before any is applied. */
  predicate AllAccepted(t: Table, capacity: nat, lane: nat, chain: seq<Choice>, reentrant: set<nat>) {
    forall i :: 0 <= i < |chain| ==> Accepted(t, capacity, lane, chain[i], chain[i].scope in reentrant)
  }

  predicate AllApplicable(t: Table, lane: nat, chain: seq<Choice>) {
    forall i :: 0 <= i < |chain| ==> Applicable(t, lane, chain[i])
  }

  /** The chain is on the lane's relations and root first: no scope twice, and no arm
      nests its own scope or an ancestor. */
  predicate RootFirst(relations: set<(nat, nat)>, lane: nat, chain: seq<Choice>) {
    && (forall i :: 0 <= i < |chain| ==> (lane, chain[i].scope) in relations && !chain[i].Nests(chain[i].scope))
    && (forall i, j :: 0 <= i < j < |chain| ==> chain[i].scope != chain[j].scope && !chain[j].Nests(chain[i].scope))
  }

  /** Starting a roll body again forgets the selections made inside it, on every
      lane, between the check of a chain and its application. */
  function BodyRestarted(t: Table, body: Option<set<nat>>): Table {
    if body.Some? then ClearLanes(t, |t.lanes|, body.value) else t
  }

  lemma {:induction false} BodyKeepsApplicable(t: Table, relations: set<(nat, nat)>, lane: nat, chain: seq<Choice>, body: Option<set<nat>>)
    requires Healthy(t, relations) && AllApplicable(t, lane, chain)
    ensures Healthy(BodyRestarted(t, body), relations) && AllApplicable(BodyRestarted(t, body), lane, chain)
  {
    if body.Some? {
      ClearHealthy(t, relations, body.value);
      forall i | 0 <= i < |chain| ensures Applicable(BodyRestarted(t, body), lane, chain[i]) {
        ClearForgets(t, body.value, chain[i].scope);
        ApplicableStands(t, BodyRestarted(t, body), lane, chain[i]);
      }
    }
  }

  /** A chain checked as a whole on one state applies without failure, whatever of it
      was already recorded and whatever a roll body forgot meanwhile, retained rows
      included; then every one of its arms is selected. */
  lemma {:induction false} ChainApplies(t: Table, relations: set<(nat, nat)>, lane: nat, chain: seq<Choice>, reentrant: set<nat>, body: Option<set<nat>>)
    requires Healthy(t, relations) && RootFirst(relations, lane, chain)
    requires AllAccepted(t, |relations|, lane, chain, reentrant)
    ensures AllApplicable(BodyRestarted(t, body), lane, chain) && Healthy(BodyRestarted(t, body), relations)
    ensures ApplyAll(BodyRestarted(t, body), |relations|, lane, chain).Some?
    ensures var after := ApplyAll(BodyRestarted(t, body), |relations|, lane, chain).value;
      Healthy(after, relations) && forall i :: 0 <= i < |chain| ==> Lookup(after, chain[i].scope) == Some(chain[i].arm)
  {
    forall i | 0 <= i < |chain| ensures Applicable(t, lane, chain[i]) {
      AcceptedApplicable(t, relations, lane, chain[i], chain[i].scope in reentrant);
    }
    BodyKeepsApplicable(t, relations, lane, chain, body);
    RowsApply(BodyRestarted(t, body), relations, lane, chain);
  }

  lemma {:induction false} RowsApply(t: Table, relations: set<(nat, nat)>, lane: nat, chain: seq<Choice>)
    requires Healthy(t, relations) && RootFirst(relations, lane, chain) && AllApplicable(t, lane, chain)
    ensures ApplyAll(t, |relations|, lane, chain).Some?
    ensures var after := ApplyAll(t, |relations|, lane, chain).value;
      Healthy(after, relations) && forall i :: 0 <= i < |chain| ==> Lookup(after, chain[i].scope) == Some(chain[i].arm)
    decreases |chain|
  {
    hide ApplyRow;
    hide Applicable;
    hide Healthy;
    hide Lookup;
    if chain != [] {
      var a, rest := chain[0], chain[1..];
      RowApplies(t, relations, lane, a);
      var next := ApplyRow(t, |relations|, lane, a).value;
      RestApplicable(t, next, relations, lane, chain);
      RowsApply(next, relations, lane, rest);
      ChainKeeps(next, relations, lane, rest, a.scope);
      var after := ApplyAll(next, |relations|, lane, rest).value;
      forall i | 0 <= i < |chain| ensures Lookup(after, chain[i].scope) == Some(chain[i].arm) {
        if i > 0 { assert rest[i - 1] == chain[i]; }
      }
    }
  }

  lemma {:induction false} RestApplicable(t: Table, next: Table, relations: set<(nat, nat)>, lane: nat, chain: seq<Choice>)
    requires Healthy(t, relations) && RootFirst(relations, lane, chain) && chain != []
    requires AllApplicable(t, lane, chain) && ApplyRow(t, |relations|, lane, chain[0]) == Some(next)
    ensures RootFirst(relations, lane, chain[1..]) && AllApplicable(next, lane, chain[1..])
  {
    hide ApplyRow;
    hide Healthy;
    var a, rest := chain[0], chain[1..];
    assert forall i :: 0 <= i < |rest| ==> rest[i] == chain[i + 1];
    RowApplies(t, relations, lane, a);
    forall i | 0 <= i < |rest| ensures Applicable(next, lane, rest[i]) {
      assert Applicable(t, lane, chain[i + 1]);
      RowAffects(t, relations, lane, a, rest[i].scope);
      ApplicableStands(t, next, lane, rest[i]);
    }
  }

  /** A chain keeps the slot of a scope that it neither names nor nests. */
  lemma {:induction false} ChainKeeps(t: Table, relations: set<(nat, nat)>, lane: nat, chain: seq<Choice>, x: nat)
    requires Healthy(t, relations) && RootFirst(relations, lane, chain) && AllApplicable(t, lane, chain) && x < |t.slots|
    requires forall i :: 0 <= i < |chain| ==> chain[i].scope != x && !chain[i].Nests(x)
    ensures ApplyAll(t, |relations|, lane, chain).Some?
    ensures var after := ApplyAll(t, |relations|, lane, chain).value; x < |after.slots| && after.slots[x] == t.slots[x] && Lookup(after, x) == Lookup(t, x)
    decreases |chain|
  {
    hide ApplyRow;
    hide Applicable;
    hide Healthy;
    hide Restarts;
    if chain != [] {
      var a, rest := chain[0], chain[1..];
      RowApplies(t, relations, lane, a);
      RowAffects(t, relations, lane, a, x);
      var next := ApplyRow(t, |relations|, lane, a).value;
      RestApplicable(t, next, relations, lane, chain);
      assert forall i :: 0 <= i < |rest| ==> rest[i] == chain[i + 1];
      ChainKeeps(next, relations, lane, rest, x);
    }
  }

  // ----------------------------------------------------------------------- runs

  datatype Step =
    | Commit(lane: nat, chain: seq<Choice>, reentrant: set<nat>, body: Option<set<nat>>)
    | Forget(lane: nat, gone: set<nat>)

  /** What the kernel checks before it changes the table. */
  predicate Permitted(t: Table, relations: set<(nat, nat)>, step: Step) {
    match step
    case Commit(lane, chain, reentrant, _) => RootFirst(relations, lane, chain) && AllAccepted(t, |relations|, lane, chain, reentrant)
    case Forget(lane, _) => lane < |t.lanes|
  }

  /** The table after a step; `None` when an invariant check fails. */
  function After(t: Table, relations: set<(nat, nat)>, step: Step): Option<Table> {
    if !Permitted(t, relations, step) then Some(t)
    else
      match step
      case Commit(lane, chain, _, body) => ApplyAll(BodyRestarted(t, body), |relations|, lane, chain)
      case Forget(lane, gone) => Some(ClearLane(t, lane, gone))
  }

  function Run(t: Table, relations: set<(nat, nat)>, steps: seq<Step>): Option<Table>
    decreases |steps|
  {
    if steps == [] then Some(t)
    else
      var next := After(t, relations, steps[0]);
      if next.None? then None else Run(next.value, relations, steps[1..])
  }

  lemma {:induction false} StepStaysHealthy(t: Table, relations: set<(nat, nat)>, step: Step)
    requires Healthy(t, relations)
    ensures After(t, relations, step).Some? && Healthy(After(t, relations, step).value, relations)
  {
    if Permitted(t, relations, step) {
      match step
      case Commit(lane, chain, reentrant, body) => ChainApplies(t, relations, lane, chain, reentrant, body);
      case Forget(lane, gone) =>
        ClearLaneSound(t, lane, gone);
        ClearDescribed(t, lane, gone, relations);
    }
  }

  lemma {:induction false} RunsHealthy(t: Table, relations: set<(nat, nat)>, steps: seq<Step>)
    requires Healthy(t, relations)
    ensures Run(t, relations, steps).Some? && Healthy(Run(t, relations, steps).value, relations)
    decreases |steps|
  {
    hide Healthy;
    hide After;
    if steps != [] {
      StepStaysHealthy(t, relations, steps[0]);
      RunsHealthy(After(t, relations, steps[0]).value, relations, steps[1..]);
    }
  }

  /** Guarded route selection, over every run from the empty table: no step fails
      an invariant check, each slot counts exactly the lanes that hold its scope,
      all those lanes agree with its arm, and the history stays within one cell
      per relation. */
  lemma {:induction false} GuardedRuns(lanes: nat, scopes: nat, relations: set<(nat, nat)>, steps: seq<Step>)
    requires lanes <= 256 && scopes <= U16_MAX
    ensures Run(Empty(lanes, scopes), relations, steps).Some?
    ensures var t := Run(Empty(lanes, scopes), relations, steps).value;
      && (forall s :: 0 <= s < |t.slots| ==> t.slots[s].refs == Count(t.lanes, s))
      && (forall d, i :: 0 <= d < |t.lanes| && 0 <= i < |t.lanes[d]| ==>
            t.lanes[d][i].scope < |t.slots| && Lookup(t, t.lanes[d][i].scope) == Some(t.lanes[d][i].arm))
      && Total(t.lanes) <= |relations|
  {
    EmptySound(lanes, scopes);
    RunsHealthy(Empty(lanes, scopes), relations, steps);
    var t := Run(Empty(lanes, scopes), relations, steps).value;
    hide Run;
    VisitedCount(t.lanes, t.slots);
    assert Visited(t.lanes) <= relations;
    SubsetSmaller(Visited(t.lanes), relations);
    forall s | 0 <= s < |t.slots| ensures t.slots[s].refs == Count(t.lanes, s) { assert SlotSound(t.lanes, t.slots[s], s); }
    forall d, i | 0 <= d < |t.lanes| && 0 <= i < |t.lanes[d]|
      ensures t.lanes[d][i].scope < |t.slots| && Lookup(t, t.lanes[d][i].scope) == Some(t.lanes[d][i].arm)
    {
      assert LaneSound(t.lanes[d], t.slots);
      var s := t.lanes[d][i].scope;
      assert SlotSound(t.lanes, t.slots[s], s);
      HolderCounts(t.lanes, d, s);
    }
  }
}
