/** The route state as the kernel stores it: one packed column of visits
    partitioned by lane, and a column of selected-arm slots. Every operation is
    proved against `RouteTable`. */
module RouteState {
  import opened Choreography
  import opened RouteTable

  // ------------------------------------------------------------- packed column

  function Flat(lanes: seq<seq<Held>>): seq<Held> {
    if lanes == [] then [] else Flat(lanes[..|lanes| - 1]) + lanes[|lanes| - 1]
  }

  /** What lies behind lane `d` in the column. */
  function Behind(lanes: seq<seq<Held>>, d: nat): seq<Held>
    requires d < |lanes|
  {
    if d == |lanes| - 1 then [] else Behind(lanes[..|lanes| - 1], d) + lanes[|lanes| - 1]
  }

  lemma {:induction false} FlatSplit(lanes: seq<seq<Held>>, d: nat, h: seq<Held>)
    requires d < |lanes|
    ensures Flat(lanes[d := h]) == Flat(lanes[..d]) + h + Behind(lanes, d)
  {
    var n := |lanes| - 1;
    if d == n {
      assert lanes[d := h][..n] == lanes[..d];
    } else {
      FlatSplit(lanes[..n], d, h);
      assert lanes[d := h][..n] == lanes[..n][d := h];
      assert lanes[..n][..d] == lanes[..d];
    }
  }

  lemma {:induction false} FlatLength(lanes: seq<seq<Held>>)
    ensures |Flat(lanes)| == Total(lanes)
  {
    if lanes != [] { FlatLength(lanes[..|lanes| - 1]); }
  }

  /** Where lane `d` lies in the column. */
  lemma {:induction false} LaneAt(lanes: seq<seq<Held>>, d: nat)
    requires d < |lanes|
    ensures Flat(lanes) == Flat(lanes[..d]) + lanes[d] + Behind(lanes, d)
    ensures |Flat(lanes[..d])| == Total(lanes[..d])
    ensures Total(lanes) == Total(lanes[..d]) + |lanes[d]| + |Behind(lanes, d)|
  {
    FlatSplit(lanes, d, lanes[d]);
    assert lanes[d := lanes[d]] == lanes;
    FlatLength(lanes);
    FlatLength(lanes[..d]);
  }

  lemma {:induction false} TotalUpdate(lanes: seq<seq<Held>>, d: nat, h: seq<Held>)
    requires d < |lanes|
    ensures Total(lanes[d := h]) == Total(lanes) - |lanes[d]| + |h|
  {
    FlatSplit(lanes, d, h);
    LaneAt(lanes, d);
    FlatLength(lanes[d := h]);
  }

  /** The column after a change of one lane. */
  lemma {:induction false} ColumnSet(lanes: seq<seq<Held>>, d: nat, pos: nat, x: Held)
    requires d < |lanes| && pos < |lanes[d]|
    ensures var at, next := Total(lanes[..d]) + pos, lanes[d := lanes[d][pos := x]];
      at < |Flat(lanes)| && Flat(next) == Flat(lanes)[at := x] && Total(next) == Total(lanes)
  {
    LaneAt(lanes, d);
    FlatSplit(lanes, d, lanes[d][pos := x]);
    TotalUpdate(lanes, d, lanes[d][pos := x]);
    hide Flat;
    hide Behind;
    hide Total;
    ColumnWrites(Flat(lanes[..d]), lanes[d], Behind(lanes, d), x, pos);
  }

  lemma {:induction false} ColumnPush(lanes: seq<seq<Held>>, d: nat, x: Held)
    requires d < |lanes|
    ensures var at, next := Total(lanes[..d]) + |lanes[d]|, lanes[d := lanes[d] + [x]];
      at <= |Flat(lanes)| && Flat(next) == Flat(lanes)[..at] + [x] + Flat(lanes)[at..] && Total(next) == Total(lanes) + 1
  {
    LaneAt(lanes, d);
    FlatSplit(lanes, d, lanes[d] + [x]);
    TotalUpdate(lanes, d, lanes[d] + [x]);
    hide Flat;
    hide Behind;
    hide Total;
    ColumnGrows(Flat(lanes[..d]), lanes[d], Behind(lanes, d), x);
  }

  lemma {:induction false} ColumnRemove(lanes: seq<seq<Held>>, d: nat, pos: nat)
    requires d < |lanes| && pos < |lanes[d]|
    ensures var at, next := Total(lanes[..d]) + pos, lanes[d := lanes[d][..pos] + lanes[d][pos + 1..]];
      at < |Flat(lanes)| && Flat(next) == Flat(lanes)[..at] + Flat(lanes)[at + 1..] && Total(next) == Total(lanes) - 1
  {
    LaneAt(lanes, d);
    FlatSplit(lanes, d, lanes[d][..pos] + lanes[d][pos + 1..]);
    TotalUpdate(lanes, d, lanes[d][..pos] + lanes[d][pos + 1..]);
    hide Flat;
    hide Behind;
    hide Total;
    ColumnShrinks(Flat(lanes[..d]), lanes[d], Behind(lanes, d), pos);
  }

  lemma ColumnWrites<T>(a: seq<T>, h: seq<T>, b: seq<T>, x: T, pos: nat)
    requires pos < |h|
    ensures (a + h + b)[|a| + pos := x] == a + h[pos := x] + b
  {
  }

  lemma ColumnGrows<T>(a: seq<T>, h: seq<T>, b: seq<T>, x: T)
    ensures var all, at := a + h + b, |a| + |h|; all[..at] + [x] + all[at..] == a + (h + [x]) + b
  {
  }

  lemma ColumnShrinks<T>(a: seq<T>, h: seq<T>, b: seq<T>, pos: nat)
    requires pos < |h|
    ensures var all, at := a + h + b, |a| + pos; all[..at] + all[at + 1..] == a + (h[..pos] + h[pos + 1..]) + b
  {
  }

  class RouteArmHistory {
    const laneDense: seq<Option<nat>>
    const rows: array<Held>
    const laneLengths: array<nat>
    var len: nat
    ghost var lanes: seq<seq<Held>>

    ghost predicate Valid()
      reads this, rows, laneLengths
    {
      && |lanes| == laneLengths.Length
      && (forall d :: 0 <= d < |lanes| ==> laneLengths[d] == |lanes[d]|)
      && len == Total(lanes) <= rows.Length <= U16_MAX
      && rows[..len] == Flat(lanes)
    }

    constructor (laneDense: seq<Option<nat>>, active: nat, capacity: nat)
      requires capacity <= U16_MAX
      ensures Valid() && fresh(rows) && fresh(laneLengths)
      ensures this.laneDense == laneDense && rows.Length == capacity && lanes == seq(active, _ => NO_HISTORY)
    {
      this.laneDense := laneDense;
      rows := new Held[capacity](_ => Held(0, 0));
      laneLengths := new nat[active](_ => 0);
      len, lanes := 0, seq(active, _ => NO_HISTORY);
      new;
      EmptyColumn(active);
    }

    function Dense(lane: nat): Option<nat>
      reads this
    {
      if lane < |laneDense| && laneDense[lane].Some? && laneDense[lane].value < laneLengths.Length then laneDense[lane] else None
    }

    // Rows by dense ordinal.

    /** Start and length of a lane's part of the column. */
    method Range(d: nat) returns (start: nat, laneLen: nat)
      requires Valid() && d < |lanes|
      ensures laneLen == |lanes[d]| && start == Total(lanes[..d])
      ensures start + laneLen <= len
      ensures forall i :: 0 <= i < laneLen ==> rows[start + i] == lanes[d][i]
    {
      start := 0;
      for current := 0 to d
        invariant start == Total(lanes[..current])
      {
        assert lanes[..current + 1][..current] == lanes[..current];
        start := start + laneLengths[current];
      }
      laneLen := laneLengths[d];
      LaneAt(lanes, d);
      assert forall i :: 0 <= i < len ==> rows[i] == rows[..len][i];
    }

    method RowAt(d: nat, pos: nat) returns (h: Held)
      requires Valid() && d < |lanes| && pos < |lanes[d]|
      ensures h == lanes[d][pos]
    {
      var start, laneLen := Range(d);
      h := rows[start + pos];
    }

    method WriteAt(d: nat, pos: nat, h: Held)
      requires Valid() && d < |lanes| && pos < |lanes[d]|
      modifies this`lanes, rows
      ensures Valid() && lanes == old(lanes)[d := old(lanes)[d][pos := h]]
    {
      hide Flat;
      hide Total;
      var start, laneLen := Range(d);
      ColumnSet(lanes, d, pos, h);
      rows[start + pos] := h;
      lanes := lanes[d := lanes[d][pos := h]];
      assert rows[..len] == old(rows[..len])[start + pos := h];
    }

    /** Move a lane's visit of the scope from one arm to another. */
    method ReplaceAt(d: nat, s: nat, from: Arm, to: Arm)
      requires Valid() && d < |lanes|
      modifies this`lanes, rows
      ensures Valid() && lanes == old(lanes)[d := Renamed(old(lanes)[d], s, from, to)]
    {
      hide Valid;
      hide Renamed;
      hide Replacing;
      var start, n := Range(d);
      ghost var before := lanes;
      ghost var h, r := before[d], Renamed(before[d], s, from, to);
      ReplacingEnds(before, d, r, h);
      for i := 0 to n
        invariant Valid() && n == |h| && lanes == before[d := Replacing(r, h, i)]
      {
        ReplacingStep(before, d, r, h, i);
        var current := RowAt(d, i);
        if current.scope == s && current.arm == from { WriteAt(d, i, Held(s, to)); }
      }
    }

    /** Append to a lane's part, moving everything behind it one cell up. */
    method InsertAt(d: nat, h: Held) returns (ok: bool)
      requires Valid() && d < |lanes|
      modifies this, rows, laneLengths
      ensures Valid()
      ensures ok <==> Total(old(lanes)) < rows.Length
      ensures lanes == if ok then old(lanes)[d := old(lanes)[d] + [h]] else old(lanes)
    {
      hide Flat;
      hide Total;
      var start, laneLen := Range(d);
      if len >= rows.Length || laneLen == U16_MAX { return false; }
      ColumnPush(lanes, d, h);
      ShiftUp(rows, start + laneLen, len, h);
      laneLengths[d] := laneLen + 1;
      len := len + 1;
      lanes := lanes[d := lanes[d] + [h]];
      ok := true;
    }

    /** Remove one row of a lane's part, moving everything behind it one cell down. */
    method RemoveAt(d: nat, pos: nat)
      requires Valid() && d < |lanes| && pos < |lanes[d]|
      modifies this, rows, laneLengths
      ensures Valid()
      ensures lanes == old(lanes)[d := old(lanes)[d][..pos] + old(lanes)[d][pos + 1..]]
    {
      hide Flat;
      hide Total;
      var start, laneLen := Range(d);
      ghost var rest := lanes[d][..pos] + lanes[d][pos + 1..];
      ColumnRemove(lanes, d, pos);
      ShiftDown(rows, start + pos, len);
      laneLengths[d] := laneLen - 1;
      len := len - 1;
      lanes := lanes[d := rest];
      assert rows[..len] == Flat(lanes);
    }

    // The column as the kernel addresses it, by logical lane.

    ghost function LaneOf(lane: nat): seq<Held>
      requires Valid()
      reads this, rows, laneLengths
    {
      if Dense(lane).Some? then lanes[Dense(lane).value] else []
    }

    /** Dense ordinal, start and length of a lane's part; `None` without an ordinal. */
    method LaneRange(lane: nat) returns (r: Option<(nat, nat, nat)>)
      requires Valid()
      ensures r.None? <==> Dense(lane).None?
      ensures r.Some? ==>
        && Some(r.value.0) == Dense(lane)
        && r.value.2 == |LaneOf(lane)|
        && r.value.1 + r.value.2 <= len
        && rows[r.value.1..r.value.1 + r.value.2] == LaneOf(lane)
    {
      var dense := Dense(lane);
      if dense.None? { return None; }
      var start, laneLen := Range(dense.value);
      r := Some((dense.value, start, laneLen));
    }

    method LaneLen(lane: nat) returns (n: nat)
      requires Valid()
      ensures n == |LaneOf(lane)|
    {
      var range := LaneRange(lane);
      n := if range.None? then 0 else range.value.2;
    }

    /** The row at a position of a lane; `None` is the source's empty row. */
    method Get(lane: nat, pos: nat) returns (h: Option<Held>)
      requires Valid()
      ensures h == if pos < |LaneOf(lane)| then Some(LaneOf(lane)[pos]) else None
    {
      var range := LaneRange(lane);
      if range.None? || pos >= range.value.2 { return None; }
      var row := RowAt(range.value.0, pos);
      h := Some(row);
    }

    method Set(lane: nat, pos: nat, h: Held) returns (ok: bool)
      requires Valid()
      modifies this`lanes, rows
      ensures Valid() && (ok <==> pos < |old(LaneOf(lane))|)
      ensures lanes == if ok then old(lanes)[Dense(lane).value := old(LaneOf(lane))[pos := h]] else old(lanes)
    {
      var range := LaneRange(lane);
      if range.None? || pos >= range.value.2 { return false; }
      WriteAt(range.value.0, pos, h);
      ok := true;
    }

    method Push(lane: nat, h: Held) returns (ok: bool)
      requires Valid()
      modifies this, rows, laneLengths
      ensures Valid() && (ok <==> Dense(lane).Some? && Total(old(lanes)) < rows.Length)
      ensures lanes == if ok then old(lanes)[Dense(lane).value := old(LaneOf(lane)) + [h]] else old(lanes)
    {
      var range := LaneRange(lane);
      if range.None? { return false; }
      ok := InsertAt(range.value.0, h);
    }

    method Remove(lane: nat, pos: nat) returns (ok: bool)
      requires Valid()
      modifies this, rows, laneLengths
      ensures Valid() && (ok <==> pos < |old(LaneOf(lane))|)
      ensures lanes == if ok then old(lanes)[Dense(lane).value := old(LaneOf(lane))[..pos] + old(LaneOf(lane))[pos + 1..]] else old(lanes)
    {
      var range := LaneRange(lane);
      if range.None? || pos >= range.value.2 { return false; }
      RemoveAt(range.value.0, pos);
      ok := true;
    }

    /** Move a lane's visit of the scope to another arm; nothing without an ordinal. */
    method ReplaceArm(lane: nat, s: nat, from: Arm, to: Arm)
      requires Valid()
      modifies this`lanes, rows
      ensures Valid()
      ensures lanes == if Dense(lane).Some? then old(lanes)[Dense(lane).value := Renamed(old(LaneOf(lane)), s, from, to)] else old(lanes)
    {
      if Dense(lane).Some? { ReplaceAt(Dense(lane).value, s, from, to); }
    }
  }

  method ShiftUp(rows: array<Held>, at: nat, len: nat, h: Held)
    requires at <= len < rows.Length
    modifies rows
    ensures rows[..len + 1] == old(rows[..len])[..at] + [h] + old(rows[..len])[at..]
  {
    ghost var before := rows[..len];
    forall i | at <= i < len { rows[i + 1] := rows[i]; }
    rows[at] := h;
    assert forall i :: at < i <= len ==> rows[i] == before[i - 1];
  }

  method ShiftDown(rows: array<Held>, at: nat, len: nat)
    requires at < len <= rows.Length
    modifies rows
    ensures rows[..len - 1] == old(rows[..len])[..at] + old(rows[..len])[at + 1..]
  {
    ghost var before := rows[..len];
    forall i | at <= i < len - 1 { rows[i] := rows[i + 1]; }
    rows[len - 1] := Held(0, 0);
    assert forall i :: at <= i < len - 1 ==> rows[i] == before[i + 1];
  }

  lemma {:induction false} EmptyColumn(n: nat)
    ensures Flat(seq(n, _ => NO_HISTORY)) == [] && Total(seq(n, _ => NO_HISTORY)) == 0
  {
    if n > 0 {
      EmptyColumn(n - 1);
      assert seq(n, _ => NO_HISTORY)[..n - 1] == seq(n - 1, _ => NO_HISTORY);
    }
  }

  // ---------------------------------------------------------------- clear loops

  /** What a clearing loop relies on: no scope twice in a lane, and exact counts. */
  predicate Counted(t: Table) {
    && (forall d :: 0 <= d < |t.lanes| ==> Distinct(t.lanes[d]) && InRange(t.lanes[d], |t.slots|))
    && (forall s :: 0 <= s < |t.slots| ==> t.slots[s].refs == Count(t.lanes, s))
  }

  predicate InRange(h: seq<Held>, scopes: nat) { forall i :: 0 <= i < |h| ==> h[i].scope < scopes }

  lemma {:induction false} SoundIsCounted(t: Table)
    requires Sound(t)
    ensures Counted(t)
  {
    forall d | 0 <= d < |t.lanes| ensures Distinct(t.lanes[d]) && InRange(t.lanes[d], |t.slots|) {
      assert LaneSound(t.lanes[d], t.slots);
      DistinctPlaces(t.lanes[d]);
    }
    forall s | 0 <= s < |t.slots| ensures t.slots[s].refs == Count(t.lanes, s) { assert SlotSound(t.lanes, t.slots[s], s); }
  }

  lemma {:induction false} KeptMore(h: seq<Held>, x: Held, gone: set<nat>)
    ensures Kept(h + [x], gone) == Kept(h, gone) + (if x.scope in gone then [] else [x])
  {
    if h == [] {
      assert h + [x] == [x] && [x][1..] == [];
      assert Kept([], gone) == [];
    } else {
      KeptMore(h[1..], x, gone);
      assert (h + [x])[1..] == h[1..] + [x];
      var first, last := if h[0].scope in gone then [] else [h[0]], if x.scope in gone then [] else [x];
      assert Kept(h + [x], gone) == first + Kept(h[1..] + [x], gone);
      assert first + (Kept(h[1..], gone) + last) == first + Kept(h[1..], gone) + last;
    }
  }

  lemma DroppedMore(slots: seq<Slot>, h: seq<Held>, x: Held, gone: set<nat>)
    requires x.scope < |slots| && !Holds(h, x.scope)
    ensures DroppedSlots(slots, h + [x], gone) ==
      if x.scope in gone then DroppedSlots(slots, h, gone)[x.scope := Dropped(slots[x.scope])] else DroppedSlots(slots, h, gone)
    ensures DroppedSlots(slots, h, gone)[x.scope] == slots[x.scope]
  {
    forall s: nat ensures Holds(h + [x], s) <==> Holds(h, s) || s == x.scope {
      HoldsIs(h + [x], s);
      HoldsIs(h, s);
      assert x in h + [x];
      assert forall r :: r in h + [x] <==> r in h || r == x;
    }
  }

  lemma DistinctPrefix(h: seq<Held>, j: nat)
    requires Distinct(h) && j < |h|
    ensures !Holds(h[..j], h[j].scope)
  {
    var p := h[..j];
    assert forall i :: 0 <= i < |p| ==> p[i] == h[i];
  }

  lemma {:induction false} HeldIsCounted(t: Table, d: nat, j: nat)
    requires Counted(t) && d < |t.lanes| && j < |t.lanes[d]|
    ensures t.lanes[d][j].scope < |t.slots| && t.slots[t.lanes[d][j].scope].refs >= 1
  {
    var s := t.lanes[d][j].scope;
    assert InRange(t.lanes[d], |t.slots|);
    HolderCounts(t.lanes, d, s);
  }

  /** A lane while it is being cleared: `j` of its rows looked at. */
  ghost function Clearing(h: seq<Held>, j: nat, gone: set<nat>): seq<Held>
    requires j <= |h|
  {
    Kept(h[..j], gone) + h[j..]
  }

  lemma {:induction false} ClearingStep(h: seq<Held>, j: nat, gone: set<nat>)
    requires j < |h|
    ensures var k, now, next := |Kept(h[..j], gone)|, Clearing(h, j, gone), Clearing(h, j + 1, gone);
      && k < |now| && now[k] == h[j]
      && (h[j].scope !in gone ==> next == now && |Kept(h[..j + 1], gone)| == k + 1)
      && (h[j].scope in gone ==> next == now[..k] + now[k + 1..] && |Kept(h[..j + 1], gone)| == k)
  {
    assert h[..j + 1] == h[..j] + [h[j]];
    KeptMore(h[..j], h[j], gone);
    hide Kept;
    var k := Kept(h[..j], gone);
    ClearingRegroups(k, h, j);
  }

  lemma ClearingRegroups(k: seq<Held>, h: seq<Held>, j: nat)
    requires j < |h|
    ensures var now := k + h[j..]; now[|k|] == h[j] && now[..|k|] + now[|k| + 1..] == k + h[j + 1..] && now == (k + [h[j]]) + h[j + 1..]
  {
  }

  lemma ClearingEnds(h: seq<Held>, slots: seq<Slot>, gone: set<nat>)
    ensures Clearing(h, 0, gone) == h && Clearing(h, |h|, gone) == Kept(h, gone) && |Kept(h[..0], gone)| == 0
    ensures DroppedSlots(slots, h[..0], gone) == slots
  {
    assert h[..0] == [] && h[0..] == h && h[..|h|] == h && h[|h|..] == [];
  }

  /** A lane while its rows are being replaced by those of `r`. */
  ghost function Replacing(r: seq<Held>, h: seq<Held>, i: nat): (now: seq<Held>)
    requires i <= |h| == |r|
    ensures |now| == |h|
  {
    r[..i] + h[i..]
  }

  lemma ReplacingEnds(before: seq<seq<Held>>, d: nat, r: seq<Held>, h: seq<Held>)
    requires d < |before| && h == before[d] && |h| == |r|
    ensures before[d := Replacing(r, h, 0)] == before && Replacing(r, h, |h|) == r
  {
    assert Replacing(r, h, 0) == h;
  }

  lemma ReplacingStep(before: seq<seq<Held>>, d: nat, r: seq<Held>, h: seq<Held>, i: nat)
    requires d < |before| && i < |h| == |r|
    ensures var now, next := Replacing(r, h, i), Replacing(r, h, i + 1);
      && now[i] == h[i]
      && before[d := now][d := now[i := r[i]]] == before[d := next]
      && (r[i] == h[i] ==> now == next)
  {
    var now, next := Replacing(r, h, i), Replacing(r, h, i + 1);
    assert now[i := r[i]] == next;
  }

  /** One step of a clearing loop, for the whole state. */
  lemma {:induction false} ClearingTable(t: Table, d: nat, j: nat, gone: set<nat>)
    requires Counted(t) && d < |t.lanes| && j < |t.lanes[d]|
    ensures var h := t.lanes[d];
      var k, now, next := |Kept(h[..j], gone)|, Clearing(h, j, gone), Clearing(h, j + 1, gone);
      var slots, x := DroppedSlots(t.slots, h[..j], gone), h[j];
      && k < |now| && now[k] == x
      && x.scope < |t.slots| && slots[x.scope] == t.slots[x.scope] && t.slots[x.scope].refs >= 1
      && (x.scope !in gone ==> next == now && |Kept(h[..j + 1], gone)| == k + 1 && DroppedSlots(t.slots, h[..j + 1], gone) == slots)
      && (x.scope in gone ==>
            && t.lanes[d := now][d := now[..k] + now[k + 1..]] == t.lanes[d := next]
            && |Kept(h[..j + 1], gone)| == k
            && DroppedSlots(t.slots, h[..j + 1], gone) == slots[x.scope := Dropped(t.slots[x.scope])])
  {
    hide Kept;
    hide Clearing;
    hide DroppedSlots;
    hide Holds;
    hide Count;
    var h := t.lanes[d];
    assert Distinct(h);
    hide Distinct;
    HeldIsCounted(t, d, j);
    hide Counted;
    DistinctPrefix(h, j);
    ClearingStep(h, j, gone);
    DroppedMore(t.slots, h[..j], h[j], gone);
    assert h[..j + 1] == h[..j] + [h[j]];
    var k, now, next := |Kept(h[..j], gone)|, Clearing(h, j, gone), Clearing(h, j + 1, gone);
    assert t.lanes[d := now][d := now[..k] + now[k + 1..]] == t.lanes[d := now[..k] + now[k + 1..]];
  }

  lemma ClearNothing(t: Table, d: nat, gone: set<nat>)
    requires d < |t.lanes| && t.lanes[d] == []
    ensures ClearLane(t, d, gone) == t
  {
    assert DroppedSlots(t.slots, [], gone) == t.slots;
    assert t.lanes[d := []] == t.lanes;
  }

  lemma ReleasedIsDropped(slot: Slot)
    requires slot.refs >= 1
    ensures Released(slot) == Some(Dropped(slot))
  {
  }

  // -------------------------------------------------------- restarting an iteration

  predicate SameScopes(a: seq<Held>, b: seq<Held>) { |a| == |b| && forall i :: 0 <= i < |a| ==> a[i].scope == b[i].scope }

  lemma {:induction false} CountSame(a: seq<seq<Held>>, b: seq<seq<Held>>, s: nat)
    requires |a| == |b| && forall d :: 0 <= d < |a| ==> SameScopes(a[d], b[d])
    ensures Count(a, s) == Count(b, s)
  {
    if a != [] {
      var n := |a| - 1;
      CountSame(a[..n], b[..n], s);
      assert SameScopes(a[n], b[n]);
      assert Place(a[n], s) == Place(b[n], s);
    }
  }

  /** Counts depend on the scopes a lane holds, not on the arms. */
  lemma {:induction false} CountedSameScopes(t: Table, lanes: seq<seq<Held>>)
    requires Counted(t) && |lanes| == |t.lanes| && forall d :: 0 <= d < |lanes| ==> SameScopes(lanes[d], t.lanes[d])
    ensures Counted(Table(lanes, t.slots))
  {
    forall d | 0 <= d < |lanes| ensures Distinct(lanes[d]) && InRange(lanes[d], |t.slots|) {
      assert SameScopes(lanes[d], t.lanes[d]) && Distinct(t.lanes[d]) && InRange(t.lanes[d], |t.slots|);
    }
    forall s | 0 <= s < |t.slots| ensures t.slots[s].refs == Count(lanes, s) { CountSame(lanes, t.lanes, s); }
  }

  lemma {:induction false} KeptRenamed(h: seq<Held>, s: nat, from: Arm, to: Arm, gone: set<nat>)
    ensures Kept(Renamed(h, s, from, to), gone) == Renamed(Kept(h, gone), s, from, to)
  {
    if h != [] {
      var r := Renamed(h, s, from, to);
      KeptRenamed(h[1..], s, from, to, gone);
      assert r[1..] == Renamed(h[1..], s, from, to);
      var k := Kept(h[1..], gone);
      assert Renamed([h[0]] + k, s, from, to) == [r[0]] + Renamed(k, s, from, to);
    }
  }

  lemma DroppedRenamed(slots: seq<Slot>, h: seq<Held>, s: nat, from: Arm, to: Arm, gone: set<nat>)
    ensures DroppedSlots(slots, Renamed(h, s, from, to), gone) == DroppedSlots(slots, h, gone)
  {
    forall x: nat ensures Place(Renamed(h, s, from, to), x) == Place(h, x) { RenamedPlace(h, s, from, to, x); }
  }

  /** The table when `k` lanes have moved to the new arm. */
  ghost function Restarting(t: Table, k: nat, s: nat, from: Arm, to: Arm, nested: set<nat>): Table
    requires k <= |t.lanes|
  {
    Table(seq(|t.lanes|, d requires 0 <= d < |t.lanes| => if d < k then Renamed(Kept(t.lanes[d], nested), s, from, to) else t.lanes[d]),
          ClearLanes(t, k, nested).slots)
  }

  /** The same, with lane `k` already on the new arm but not yet cleared. */
  ghost function Moved(t: Table, k: nat, s: nat, from: Arm, to: Arm, nested: set<nat>): Table
    requires k < |t.lanes|
  {
    var now := Restarting(t, k, s, from, to, nested);
    Table(now.lanes[k := Renamed(t.lanes[k], s, from, to)], now.slots)
  }

  lemma {:induction false} MovedCounted(t: Table, k: nat, s: nat, from: Arm, to: Arm, nested: set<nat>)
    requires Sound(t) && k < |t.lanes|
    ensures Counted(Moved(t, k, s, from, to, nested))
  {
    hide Sound;
    hide Counted;
    hide ClearLanes;
    var c, lanes := ClearLanes(t, k, nested), Moved(t, k, s, from, to, nested).lanes;
    ClearLanesSound(t, k, nested);
    SoundIsCounted(c);
    forall d | 0 <= d < |t.lanes| ensures SameScopes(lanes[d], c.lanes[d]) {
      ClearedAt(t, k, nested, d);
    }
    CountedSameScopes(c, lanes);
  }

  lemma {:induction false} MovedCleared(t: Table, k: nat, s: nat, from: Arm, to: Arm, nested: set<nat>)
    requires k < |t.lanes|
    ensures ClearLane(Moved(t, k, s, from, to, nested), k, nested) == Restarting(t, k + 1, s, from, to, nested)
  {
    var c, h, moved := ClearLanes(t, k, nested), t.lanes[k], Moved(t, k, s, from, to, nested);
    ClearedAt(t, k, nested, k);
    KeptRenamed(h, s, from, to, nested);
    DroppedRenamed(c.slots, h, s, from, to, nested);
    assert ClearLanes(t, k + 1, nested) == ClearLane(c, k, nested);
    hide ClearLanes;
    hide Kept;
    hide Renamed;
    hide DroppedSlots;
    assert moved.lanes[k] == Renamed(h, s, from, to);
    assert ClearLane(moved, k, nested).lanes == Restarting(t, k + 1, s, from, to, nested).lanes;
  }

  lemma {:induction false} RestartingStep(t: Table, k: nat, s: nat, from: Arm, to: Arm, nested: set<nat>)
    requires Sound(t) && k < |t.lanes|
    ensures var now := Restarting(t, k, s, from, to, nested);
      var moved := Table(now.lanes[k := Renamed(now.lanes[k], s, from, to)], now.slots);
      && Counted(moved)
      && ClearLane(moved, k, nested) == Restarting(t, k + 1, s, from, to, nested)
  {
    MovedCounted(t, k, s, from, to, nested);
    MovedCleared(t, k, s, from, to, nested);
    RestartingRest(t, k, s, from, to, nested);
    hide Restarting;
    hide Counted;
    hide ClearLane;
    hide Renamed;
    hide Sound;
  }

  lemma RestartingStart(t: Table, s: nat, from: Arm, to: Arm, nested: set<nat>)
    ensures Restarting(t, 0, s, from, to, nested) == t
  {
    assert Restarting(t, 0, s, from, to, nested).lanes == t.lanes;
  }

  lemma RestartingRest(t: Table, k: nat, s: nat, from: Arm, to: Arm, nested: set<nat>)
    requires k < |t.lanes|
    ensures Restarting(t, k, s, from, to, nested).lanes[k] == t.lanes[k]
    ensures |Restarting(t, k, s, from, to, nested).lanes| == |t.lanes|
  {
  }

  /** A lane without visits needs no move. */
  lemma RestartingSkips(t: Table, k: nat, s: nat, from: Arm, to: Arm, nested: set<nat>)
    requires k < |t.lanes| && t.lanes[k] == []
    ensures Restarting(t, k + 1, s, from, to, nested) == Restarting(t, k, s, from, to, nested)
  {
    ClearedAt(t, k, nested, k);
    assert DroppedSlots(ClearLanes(t, k, nested).slots, [], nested) == ClearLanes(t, k, nested).slots;
    assert Restarting(t, k + 1, s, from, to, nested).lanes == Restarting(t, k, s, from, to, nested).lanes;
  }

  lemma {:induction false} RestartingEnds(t: Table, s: nat, from: Arm, to: Arm, nested: set<nat>)
    requires s < |t.slots|
    ensures var done := Restarting(t, |t.lanes|, s, from, to, nested);
      Restarted(t, s, from, to, nested) == Table(done.lanes, done.slots[s := RenameSlot(done.slots[s], from, to)])
  {
    forall d | 0 <= d < |t.lanes| ensures ClearLanes(t, |t.lanes|, nested).lanes[d] == Kept(t.lanes[d], nested) {
      ClearedAt(t, |t.lanes|, nested, d);
    }
    hide Kept;
    hide Renamed;
    assert Restarting(t, |t.lanes|, s, from, to, nested).lanes == RenameLanes(ClearLanes(t, |t.lanes|, nested).lanes, s, from, to);
  }

  // ---------------------------------------------------------------- route state

  class RouteStateOwner {
    const history: RouteArmHistory
    const slots: array<Slot>
    ghost var selected: seq<Slot>

    ghost predicate Valid()
      reads this, history, history.rows, history.laneLengths, slots
    {
      history.Valid() && slots[..] == selected
    }

    ghost function View(): Table
      reads this, history
    {
      Table(history.lanes, selected)
    }

    constructor (laneDense: seq<Option<nat>>, active: nat, capacity: nat, scopes: nat)
      requires capacity <= U16_MAX
      ensures Valid() && fresh(history) && fresh(history.rows) && fresh(history.laneLengths) && fresh(slots)
      ensures View() == Empty(active, scopes) && history.laneDense == laneDense && history.rows.Length == capacity
    {
      history := new RouteArmHistory(laneDense, active, capacity);
      slots := new Slot[scopes](_ => EMPTY_SLOT);
      selected := seq(scopes, _ => EMPTY_SLOT);
    }

    /** First position of the scope in a lane's history. */
    method FindScope(lane: nat, s: nat) returns (pos: nat)
      requires Valid()
      ensures pos == Place(history.LaneOf(lane), s)
    {
      var n := history.LaneLen(lane);
      pos := 0;
      while pos < n
        invariant pos <= n && forall i :: 0 <= i < pos ==> history.LaneOf(lane)[i].scope != s
      {
        var current := history.Get(lane, pos);
        if current.value.scope == s { return; }
        pos := pos + 1;
      }
    }

    method Preflight(lane: nat, s: nat, arm: Arm, reentrant: bool) returns (ok: bool)
      requires Valid()
      ensures ok <==>
        history.Dense(lane).Some? && RouteTable.Preflight(View(), history.rows.Length, history.Dense(lane).value, s, arm, reentrant)
    {
      if s >= slots.Length { return false; }
      var slot := slots[s];
      var dense := history.Dense(lane);
      if dense.None? || s > U16_MAX { return false; }
      var pos := FindScope(lane, s);
      var row := history.Get(lane, pos);
      if row.Some? {
        var current := row.value.arm;
        return current == arm || (slot.refs == 1 && slot.arm == current) || (reentrant && slot.arm == arm);
      }
      if history.len >= history.rows.Length { return false; }
      ok := slot.refs == 0 || (slot.arm == arm && slot.refs != U16_MAX);
    }

    /** Apply one row; `false` is an invariant failure. */
    method ApplySelection(lane: nat, s: nat, arm: Arm) returns (ok: bool)
      requires Valid()
      modifies this`selected, history, history.rows, history.laneLengths, slots
      ensures Valid()
      ensures ok <==> history.Dense(lane).Some? && Apply(old(View()), history.rows.Length, history.Dense(lane).value, s, arm).Some?
      ensures ok ==> View() == Apply(old(View()), history.rows.Length, history.Dense(lane).value, s, arm).value
    {
      var dense := history.Dense(lane);
      if dense.None? || s >= slots.Length { return false; }
      var pos := FindScope(lane, s);
      var n := history.LaneLen(lane);
      if pos < n { ok := Reselect(lane, pos, s, arm); } else { ok := Visit(lane, s, arm); }
    }

    /** The lane already holds the scope. */
    method Reselect(lane: nat, pos: nat, s: nat, arm: Arm) returns (ok: bool)
      requires Valid() && s < |selected| && pos == Place(history.LaneOf(lane), s) < |history.LaneOf(lane)|
      modifies this`selected, history, history.rows, history.laneLengths, slots
      ensures Valid()
      ensures ok <==> Apply(old(View()), history.rows.Length, history.Dense(lane).value, s, arm).Some?
      ensures ok ==> View() == Apply(old(View()), history.rows.Length, history.Dense(lane).value, s, arm).value
    {
      var current := history.Get(lane, pos);
      var next := Reselected(slots[s], current.value.arm, arm);
      if next.None? { return false; }
      ok := history.Set(lane, pos, Held(s, arm));
      slots[s] := next.value;
      selected := selected[s := next.value];
    }

    /** The lane does not hold the scope yet. */
    method Visit(lane: nat, s: nat, arm: Arm) returns (ok: bool)
      requires Valid() && history.Dense(lane).Some? && s < |selected| && !Holds(history.LaneOf(lane), s)
      modifies this`selected, history, history.rows, history.laneLengths, slots
      ensures Valid()
      ensures ok <==> Apply(old(View()), history.rows.Length, history.Dense(lane).value, s, arm).Some?
      ensures ok ==> View() == Apply(old(View()), history.rows.Length, history.Dense(lane).value, s, arm).value
    {
      var next := Acquired(slots[s], arm);
      if next.None? { return false; }
      ok := history.Push(lane, Held(s, arm));
      if !ok { return false; }
      slots[s] := next.value;
      selected := selected[s := next.value];
    }

    method SelectedArm(s: nat) returns (arm: Option<nat>)
      requires Valid()
      ensures arm == Lookup(View(), s)
    {
      if s >= slots.Length { return None; }
      var slot := slots[s];
      arm := if slot.refs == 0 || slot.arm == NO_ARM then None else Some(slot.arm);
    }

    /** Remove one visit and release its slot. */
    method ReleaseRow(d: nat, idx: nat)
      requires Valid() && d < |history.lanes| && idx < |history.lanes[d]|
      requires history.lanes[d][idx].scope < |selected| && selected[history.lanes[d][idx].scope].refs >= 1
      modifies this`selected, history, history.rows, history.laneLengths, slots
      ensures Valid()
      ensures var h := old(history.lanes)[d];
        && history.lanes == old(history.lanes)[d := h[..idx] + h[idx + 1..]]
        && selected == old(selected)[h[idx].scope := Dropped(old(selected)[h[idx].scope])]
    {
      var current := history.RowAt(d, idx);
      var next := Released(slots[current.scope]);
      if next.None? { assert false; }
      ReleasedIsDropped(slots[current.scope]);
      hide RouteArmHistory.Valid;
      history.RemoveAt(d, idx);
      slots[current.scope] := next.value;
      selected := selected[current.scope := next.value];
    }

    /** Lane `d` has been cleared up to row `j`. */
    ghost predicate ClearedTo(t: Table, d: nat, j: nat, gone: set<nat>)
      requires d < |t.lanes| && j <= |t.lanes[d]|
      reads this, history
    {
      && history.lanes == t.lanes[d := Clearing(t.lanes[d], j, gone)]
      && selected == DroppedSlots(t.slots, t.lanes[d][..j], gone)
    }

    /** Look at the next row of the lane: keep it or release it. */
    method ClearNext(d: nat, idx: nat, gone: set<nat>, ghost t: Table, ghost j: nat) returns (kept: bool)
      requires Valid() && Counted(t) && d < |t.lanes| && j < |t.lanes[d]|
      requires ClearedTo(t, d, j, gone) && idx == |Kept(t.lanes[d][..j], gone)|
      modifies this`selected, history, history.rows, history.laneLengths, slots
      ensures Valid() && ClearedTo(t, d, j + 1, gone)
      ensures |Kept(t.lanes[d][..j + 1], gone)| == if kept then idx + 1 else idx
    {
      hide RouteArmHistory.Valid;
      hide Kept;
      hide Clearing;
      hide DroppedSlots;
      hide Counted;
      ClearingTable(t, d, j, gone);
      var current := history.RowAt(d, idx);
      kept := current.scope !in gone;
      if !kept { ReleaseRow(d, idx); }
    }

    /** Forget a lane's visits to the given scopes, releasing their slots; `false` is
        the invariant failure for a lane without an ordinal. */
    method ClearRoutes(lane: nat, gone: set<nat>) returns (ok: bool)
      requires Valid() && Counted(View())
      modifies this`selected, history, history.rows, history.laneLengths, slots
      ensures Valid() && (ok <==> history.Dense(lane).Some?)
      ensures View() == if ok then ClearLane(old(View()), history.Dense(lane).value, gone) else old(View())
    {
      ok := history.Dense(lane).Some?;
      if ok { ClearAt(history.Dense(lane).value, gone); }
    }

    method ClearAt(d: nat, gone: set<nat>)
      requires Valid() && d < |history.lanes| && Counted(View())
      modifies this`selected, history, history.rows, history.laneLengths, slots
      ensures Valid() && View() == ClearLane(old(View()), d, gone)
    {
      hide Kept;
      hide Counted;
      hide ClearedTo;
      hide ClearLane;
      ghost var t := View();
      ghost var h, j := t.lanes[d], 0;
      var start, n := history.Range(d);
      var idx := 0;
      StartOfClear(d, gone);
      hide RouteArmHistory.Valid;
      while idx < n
        invariant Valid() && j <= |h| && idx == |Kept(h[..j], gone)| && n == idx + |h| - j && ClearedTo(t, d, j, gone)
        decreases n - idx
      {
        var kept := ClearNext(d, idx, gone, t, j);
        if kept { idx := idx + 1; } else { n := n - 1; }
        j := j + 1;
      }
      EndOfClear(t, d, gone);
    }

    lemma StartOfClear(d: nat, gone: set<nat>)
      requires d < |history.lanes|
      ensures ClearedTo(View(), d, 0, gone) && |Kept(View().lanes[d][..0], gone)| == 0
    {
      var h := history.lanes[d];
      ClearingEnds(h, selected, gone);
      assert history.lanes[d := h] == history.lanes;
    }

    lemma EndOfClear(t: Table, d: nat, gone: set<nat>)
      requires d < |t.lanes| && ClearedTo(t, d, |t.lanes[d]|, gone)
      ensures View() == ClearLane(t, d, gone)
    {
      var h := t.lanes[d];
      ClearingEnds(h, t.slots, gone);
      assert h[..|h|] == h;
    }

    /** `false` is the invariant failure for a slot out of range. */
    method ReplaceSlot(s: nat, from: Arm, to: Arm) returns (ok: bool)
      requires Valid()
      modifies this`selected, slots
      ensures Valid() && (ok <==> s < |old(selected)|)
      ensures selected == if ok then old(selected)[s := RenameSlot(old(selected)[s], from, to)] else old(selected)
    {
      ok := s < slots.Length;
      if !ok { return; }
      if slots[s].refs != 0 && slots[s].arm == from { slots[s] := slots[s].(arm := to); }
      selected := selected[s := RenameSlot(selected[s], from, to)];
    }

    /** Start the next iteration of a reentrant route whose completed arm is
        `completed`, on every lane, then apply the new selection. */
    method RestartSelection(lane: nat, s: nat, completed: Arm, arm: Arm, nested: set<nat>) returns (ok: bool)
      requires Valid() && Sound(View()) && s < |selected|
      modifies this`selected, history, history.rows, history.laneLengths, slots
      ensures Valid()
      ensures var r := Restarted(old(View()), s, completed, arm, nested);
        && (ok <==> history.Dense(lane).Some? && Apply(r, history.rows.Length, history.Dense(lane).value, s, arm).Some?)
        && (ok ==> View() == Apply(r, history.rows.Length, history.Dense(lane).value, s, arm).value)
    {
      ghost var t := View();
      RestartingEnds(t, s, completed, arm, nested);
      MoveLanes(s, completed, arm, nested);
      hide Restarting;
      hide Restarted;
      hide Valid;
      ok := ReplaceSlot(s, completed, arm);
      ok := ApplySelection(lane, s, arm);
    }

    method PreflightRow(lane: nat, c: Choice, reentrant: bool) returns (ok: bool)
      requires Valid()
      ensures ok <==> history.Dense(lane).Some? && Accepted(View(), history.rows.Length, history.Dense(lane).value, c, reentrant)
    {
      if history.Dense(lane).None? || c.scope >= slots.Length || !c.enterable { return false; }
      var current := SelectedArm(c.scope);
      if !c.newVisit && current != Some(c.arm) { return false; }
      if current.Some? {
        if c.complete.Some? { return true; }
        if current.value != c.arm { return false; }
      }
      ok := Preflight(lane, c.scope, c.arm, reentrant);
    }

    method PreflightChain(lane: nat, chain: seq<Choice>, reentrant: set<nat>) returns (ok: bool)
      requires Valid() && history.Dense(lane).Some?
      ensures ok <==> AllAccepted(View(), history.rows.Length, history.Dense(lane).value, chain, reentrant)
    {
      hide Accepted;
      for i := 0 to |chain|
        invariant forall j :: 0 <= j < i ==>
          Accepted(View(), history.rows.Length, history.Dense(lane).value, chain[j], chain[j].scope in reentrant)
      {
        ok := PreflightRow(lane, chain[i], chain[i].scope in reentrant);
        if !ok { return; }
      }
      ok := true;
    }

    method CommitRow(lane: nat, c: Choice) returns (ok: bool)
      requires Valid() && Sound(View()) && history.Dense(lane).Some?
      modifies this`selected, history, history.rows, history.laneLengths, slots
      ensures Valid()
      ensures ok <==> ApplyRow(old(View()), history.rows.Length, history.Dense(lane).value, c).Some?
      ensures ok ==> View() == ApplyRow(old(View()), history.rows.Length, history.Dense(lane).value, c).value
    {
      var current := SelectedArm(c.scope);
      if c.newVisit && c.complete.Some? && current.Some? && current.value < 2 {
        ok := RestartSelection(lane, c.scope, current.value, c.arm, c.complete.value);
      } else {
        ok := ApplySelection(lane, c.scope, c.arm);
      }
    }

    /** Commit a chain: every row is checked before the first one is applied, and a
        refused chain leaves the state alone. `body`: the scopes a restarted roll body
        forgets before the rows are applied. */
    method CommitChain(lane: nat, chain: seq<Choice>, reentrant: set<nat>, body: Option<set<nat>>, ghost relations: set<(nat, nat)>) returns (ok: bool)
      requires Valid() && Healthy(View(), relations) && history.rows.Length == |relations|
      requires history.Dense(lane).Some? && RootFirst(relations, history.Dense(lane).value, chain)
      modifies this`selected, history, history.rows, history.laneLengths, slots
      ensures Valid() && Healthy(View(), relations)
      ensures ok <==> AllAccepted(old(View()), |relations|, history.Dense(lane).value, chain, reentrant)
      ensures !ok ==> View() == old(View())
      ensures ok ==> Some(View()) == ApplyAll(BodyRestarted(old(View()), body), |relations|, history.Dense(lane).value, chain)
      ensures ok ==> forall i :: 0 <= i < |chain| ==> Lookup(View(), chain[i].scope) == Some(chain[i].arm)
    {
      ok := PreflightChain(lane, chain, reentrant);
      if !ok { return; }
      ChainApplies(View(), relations, history.Dense(lane).value, chain, reentrant, body);
      if body.Some? { ClearBody(body.value); }
      CommitRows(lane, chain, relations);
    }

    /** Forget the scopes of a restarted roll body on every lane. */
    method ClearBody(gone: set<nat>)
      requires Valid() && Sound(View())
      modifies this`selected, history, history.rows, history.laneLengths, slots
      ensures Valid() && View() == ClearLanes(old(View()), |old(history.lanes)|, gone)
    {
      ghost var t := View();
      var n := history.laneLengths.Length;
      hide Sound;
      hide ClearLane;
      for k := 0 to n
        invariant Valid() && n == |t.lanes| && View() == ClearLanes(t, k, gone)
      {
        ClearLanesSound(t, k, gone);
        SoundIsCounted(View());
        var start, laneLen := history.Range(k);
        if laneLen != 0 { ClearAt(k, gone); } else { ClearNothing(View(), k, gone); }
      }
    }

    method CommitRows(lane: nat, chain: seq<Choice>, ghost relations: set<(nat, nat)>)
      requires Valid() && Healthy(View(), relations) && history.rows.Length == |relations|
      requires history.Dense(lane).Some? && RootFirst(relations, history.Dense(lane).value, chain)
      requires AllApplicable(View(), history.Dense(lane).value, chain)
      modifies this`selected, history, history.rows, history.laneLengths, slots
      ensures Valid()
      ensures Some(View()) == ApplyAll(old(View()), |relations|, history.Dense(lane).value, chain)
    {
      hide ApplyRow;
      hide Applicable;
      hide Valid;
      ghost var d, all := history.Dense(lane).value, ApplyAll(View(), |relations|, history.Dense(lane).value, chain);
      assert chain[0..] == chain;
      for i := 0 to |chain|
        invariant Valid() && Healthy(View(), relations)
        invariant RootFirst(relations, d, chain[i..]) && AllApplicable(View(), d, chain[i..])
        invariant ApplyAll(View(), |relations|, d, chain[i..]) == all
      {
        ghost var t, rest := View(), chain[i..];
        assert rest[0] == chain[i] && rest[1..] == chain[i + 1..];
        RowApplies(t, relations, d, rest[0]);
        RestApplicable(t, ApplyRow(t, |relations|, d, rest[0]).value, relations, d, rest);
        var applied := CommitRow(lane, chain[i]);
      }
      assert chain[|chain|..] == [];
    }

    method MoveLanes(s: nat, completed: Arm, arm: Arm, nested: set<nat>)
      requires Valid() && Sound(View())
      modifies this`selected, history, history.rows, history.laneLengths, slots
      ensures Valid() && View() == Restarting(old(View()), |old(history.lanes)|, s, completed, arm, nested)
    {
      ghost var t := View();
      RestartingStart(t, s, completed, arm, nested);
      hide Restarting;
      hide Sound;
      hide ClearLane;
      hide Renamed;
      var n := history.laneLengths.Length;
      for k := 0 to n
        invariant Valid() && n == |t.lanes| && View() == Restarting(t, k, s, completed, arm, nested)
      {
        RestartingStep(t, k, s, completed, arm, nested);
        RestartingRest(t, k, s, completed, arm, nested);
        var start, laneLen := history.Range(k);
        if laneLen != 0 {
          history.ReplaceAt(k, s, completed, arm);
          ClearAt(k, nested);
        } else {
          RestartingSkips(t, k, s, completed, arm, nested);
        }
      }
    }
  }
}
