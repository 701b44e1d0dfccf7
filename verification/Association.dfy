/** The association table: claims of sessions on lanes, kept prefix-packed in three
    columns with attachment count and fault in one word. It stands for a map. */
module Association {
  import opened Choreography

  datatype Fault = TransportClosed | DecodeFailed | ProtocolViolation | EndpointDropped | ProgressInvariantViolated

  datatype Key = Key(sid: nat, lane: nat)
  datatype Entry = Entry(count: nat, fault: Option<Fault>)
  type Table = map<Key, Entry>

  const COUNT_MAX := 256
  const COUNT_SPAN := 512
  const U16_MAX := 65535

  // ------------------------------------------------------------- the packed word

  function Encode(f: Option<Fault>): nat {
    match f
    case None => 0
    case Some(TransportClosed) => 1
    case Some(DecodeFailed) => 2
    case Some(ProtocolViolation) => 3
    case Some(EndpointDropped) => 4
    case Some(ProgressInvariantViolated) => 5
  }

  /** The outer option rejects codes that no fault has. */
  function Decode(code: nat): Option<Option<Fault>> {
    match code
    case 0 => Some(None)
    case 1 => Some(Some(TransportClosed))
    case 2 => Some(Some(DecodeFailed))
    case 3 => Some(Some(ProtocolViolation))
    case 4 => Some(Some(EndpointDropped))
    case 5 => Some(Some(ProgressInvariantViolated))
    case _ => None
  }

  function Pack(e: Entry): nat { Encode(e.fault) * COUNT_SPAN + e.count }

  function CountOf(raw: nat): nat { raw % COUNT_SPAN }

  function CodeOf(raw: nat): nat { raw / COUNT_SPAN }

  /** The word holds count and fault exactly, in sixteen bits. */
  lemma PackRoundTrip(e: Entry)
    requires e.count <= COUNT_MAX
    ensures CountOf(Pack(e)) == e.count && CodeOf(Pack(e)) == Encode(e.fault)
    ensures Decode(CodeOf(Pack(e))) == Some(e.fault) && Pack(e) <= U16_MAX
  {
    var c := Encode(e.fault);
    assert c <= 5;
  }

  function NextCount(count: nat): (next: Option<nat>)
    ensures next.Some? ==> next.value == count + 1 && next.value <= COUNT_MAX
  {
    if count >= COUNT_MAX then None else Some(count + 1)
  }

  // ------------------------------------------------------------- rows and the map

  datatype Row = Row(key: Key, entry: Entry)

  predicate Counted(e: Entry) { 1 <= e.count <= COUNT_MAX }

  /** The rows hold each claim once and exactly the map's entries. */
  ghost predicate Represents(rows: seq<Row>, t: Table) {
    && (forall i, j :: 0 <= i < j < |rows| ==> rows[i].key != rows[j].key)
    && (forall i :: 0 <= i < |rows| ==> rows[i].key in t && t[rows[i].key] == rows[i].entry)
    && (forall k :: k in t ==> exists i :: 0 <= i < |rows| && rows[i].key == k)
  }

  lemma AppendRepresents(rows: seq<Row>, t: Table, r: Row)
    requires Represents(rows, t) && r.key !in t
    ensures Represents(rows + [r], t[r.key := r.entry])
  {
    var out, next := rows + [r], t[r.key := r.entry];
    forall k | k in next ensures exists i :: 0 <= i < |out| && out[i].key == k {
      if k == r.key { assert out[|rows|].key == k; }
      else { var i :| 0 <= i < |rows| && rows[i].key == k; assert out[i].key == k; }
    }
  }

  lemma UpdateRepresents(rows: seq<Row>, t: Table, i: nat, e: Entry)
    requires Represents(rows, t) && i < |rows|
    ensures Represents(rows[i := Row(rows[i].key, e)], t[rows[i].key := e])
  {
    var out, next := rows[i := Row(rows[i].key, e)], t[rows[i].key := e];
    assert forall j :: 0 <= j < |rows| ==> out[j].key == rows[j].key;
    forall k | k in next ensures exists j :: 0 <= j < |out| && out[j].key == k {
      var j :| 0 <= j < |rows| && rows[j].key == k;
      assert out[j].key == k;
    }
  }

  /** Removal moves the last row into the gap. */
  function Vacate(rows: seq<Row>, i: nat): (out: seq<Row>)
    requires i < |rows|
    ensures |out| == |rows| - 1
  {
    var n := |rows| - 1;
    if i == n then rows[..n] else rows[..n][i := rows[n]]
  }

  lemma VacateRepresents(rows: seq<Row>, t: Table, i: nat)
    requires Represents(rows, t) && i < |rows|
    ensures Represents(Vacate(rows, i), t - {rows[i].key})
  {
    var n, out, gone := |rows| - 1, Vacate(rows, i), rows[i].key;
    assert forall j :: 0 <= j < n ==> out[j] == if j == i then rows[n] else rows[j];
    forall k | k in t - {gone} ensures exists j :: 0 <= j < |out| && out[j].key == k {
      var j :| 0 <= j < |rows| && rows[j].key == k;
      assert out[if j == n then i else j].key == k;
    }
  }

  function PoisonEntry(k: Key, e: Entry, sid: nat, cause: Fault): Entry {
    if k.sid == sid then e.(fault := Some(cause)) else e
  }

  function PoisonRows(rows: seq<Row>, sid: nat, cause: Fault): seq<Row> {
    seq(|rows|, i requires 0 <= i < |rows| => Row(rows[i].key, PoisonEntry(rows[i].key, rows[i].entry, sid, cause)))
  }

  function Poisoned(t: Table, sid: nat, cause: Fault): Table {
    map k | k in t :: PoisonEntry(k, t[k], sid, cause)
  }

  lemma PoisonRepresents(rows: seq<Row>, t: Table, sid: nat, cause: Fault)
    requires Represents(rows, t)
    ensures Represents(PoisonRows(rows, sid, cause), Poisoned(t, sid, cause))
  {
    var out := PoisonRows(rows, sid, cause);
    forall k | k in Poisoned(t, sid, cause) ensures exists j :: 0 <= j < |out| && out[j].key == k {
      var j :| 0 <= j < |rows| && rows[j].key == k;
      assert out[j].key == k;
    }
  }

  /** Some entry of the session is faulted. */
  predicate Faulted(t: Table, sid: nat) { exists k :: k in t && k.sid == sid && t[k].fault.Some? }

  // ------------------------------------------------------------ the table as a value

  /** Claims, lanes in range, and entries there is room for. */
  datatype Book = Book(table: Table, laneSlots: nat, capacity: nat)

  datatype Op = Activate(key: Key) | Release(key: Key) | Poison(sid: nat, cause: Fault) | Shrink(required: nat)

  predicate Ranges(b: Book, k: Key) { k.lane < b.laneSlots && k.lane <= 255 }

  /** An attachment is granted in range, while the session has no fault, below the
      maximal count, and with room for a first claim. */
  predicate Granted(b: Book, k: Key) {
    Ranges(b, k) && !Faulted(b.table, k.sid) && if k in b.table then b.table[k].count < COUNT_MAX else |b.table| < b.capacity
  }

  /** Shrinking must not grow or cut off a live lane. */
  predicate Shrinks(b: Book, required: nat) {
    required <= b.laneSlots && required <= U16_MAX && forall k :: k in b.table ==> k.lane < required
  }

  function CountIn(t: Table, k: Key): nat { if k in t then t[k].count else 0 }

  /** An operation that is refused changes nothing. */
  function After(b: Book, op: Op): Book {
    var t := b.table;
    match op
    case Activate(k) =>
      if !Granted(b, k) then b else b.(table := t[k := if k in t then t[k].(count := t[k].count + 1) else Entry(1, None)])
    case Release(k) =>
      if !Ranges(b, k) || k !in t || t[k].count == 0 then b
      else if t[k].count == 1 then b.(table := t - {k})
      else b.(table := t[k := t[k].(count := t[k].count - 1)])
    case Poison(sid, cause) => if Faulted(t, sid) then b else b.(table := Poisoned(t, sid, cause))
    case Shrink(required) => if Shrinks(b, required) then b.(laneSlots := required) else b
  }

  lemma {:induction false} RepresentsSize(rows: seq<Row>, t: Table)
    requires Represents(rows, t)
    ensures |t| == |rows|
  {
    if rows == [] {
      assert t == map[];
    } else {
      var n := |rows| - 1;
      VacateRepresents(rows, t, n);
      assert Vacate(rows, n) == rows[..n];
      RepresentsSize(rows[..n], t - {rows[n].key});
      assert t.Keys == (t - {rows[n].key}).Keys + {rows[n].key};
    }
  }

  // -------------------------------------------------------------------- the table

  datatype Registration = Registered | Full | Violation
  datatype Activation = Attached(first: bool) | OutOfRange | SessionPoisoned | Overflow | Broken

  class AssocTable {
    const laneBase: nat
    var laneSlots: nat
    const sids: array<nat>
    const lanes: array<nat>
    const states: array<nat>
    ghost var rows: seq<Row>
    ghost var table: Table

    ghost predicate Columns()
      reads this, sids, lanes, states
    {
      && sids != lanes && lanes != states && states != sids
      && sids.Length == lanes.Length == states.Length && |rows| <= states.Length
      && (forall i :: 0 <= i < |rows| ==> sids[i] == rows[i].key.sid && lanes[i] == rows[i].key.lane && states[i] == Pack(rows[i].entry))
      && (forall i :: |rows| <= i < states.Length ==> states[i] == 0)
    }

    ghost predicate Valid()
      reads this, sids, lanes, states
    {
      && Columns()
      && Represents(rows, table)
      && (forall i :: 0 <= i < |rows| ==> Counted(rows[i].entry) && rows[i].key.lane < laneSlots && rows[i].key.lane <= 255)
    }

    ghost function View(): Book
      reads this
    {
      Book(table, laneSlots, states.Length)
    }

    constructor (laneBase: nat, laneSlots: nat, assocSlots: nat)
      ensures Valid() && table == map[] && this.laneBase == laneBase && this.laneSlots == laneSlots && states.Length == assocSlots
      ensures fresh(sids) && fresh(lanes) && fresh(states)
    {
      this.laneBase, this.laneSlots := laneBase, laneSlots;
      sids := new nat[assocSlots](_ => 0);
      lanes := new nat[assocSlots](_ => 0);
      states := new nat[assocSlots](_ => 0);
      rows, table := [], map[];
    }

    lemma SizeMatches()
      requires Valid()
      ensures |table| == |rows| <= states.Length
    {
      RepresentsSize(rows, table);
    }

    /** The stored lane of a lane in range. */
    function LaneOffset(lane: nat): Option<nat>
      reads this
    {
      if lane < laneBase || lane - laneBase >= laneSlots || lane - laneBase > 255 then None else Some(lane - laneBase)
    }

    method FindEntry(k: Key) returns (idx: Option<nat>)
      requires Valid()
      ensures idx.Some? <==> k in table
      ensures idx.Some? ==> idx.value < |rows| && rows[idx.value] == Row(k, table[k])
    {
      for i := 0 to states.Length
        invariant forall j :: 0 <= j < i && j < |rows| ==> rows[j].key != k
      {
        if i < |rows| { PackRoundTrip(rows[i].entry); }
        if CountOf(states[i]) != 0 && lanes[i] == k.lane && sids[i] == k.sid { return Some(i); }
      }
      idx := None;
    }

    method HasEntry(lane: nat, sid: nat) returns (yes: bool)
      requires Valid()
      ensures yes <==> LaneOffset(lane).Some? && Key(sid, LaneOffset(lane).value) in table
    {
      var offset := LaneOffset(lane);
      if offset.None? { return false; }
      var idx := FindEntry(Key(sid, offset.value));
      yes := idx.Some?;
    }

    /** How many lane slots the live entries need. */
    method ActiveLaneSlots() returns (required: nat)
      requires Valid()
      ensures forall k :: k in table ==> k.lane < required
      ensures required == 0 || exists k :: k in table && k.lane + 1 == required
    {
      required := 0;
      for i := 0 to states.Length
        invariant forall j :: 0 <= j < i && j < |rows| ==> rows[j].key.lane < required
        invariant required == 0 || exists j :: 0 <= j < |rows| && rows[j].key.lane + 1 == required
      {
        if i < |rows| { PackRoundTrip(rows[i].entry); }
        if CountOf(states[i]) != 0 {
          if lanes[i] + 1 > required {
            required := lanes[i] + 1;
            assert rows[i].key.lane + 1 == required;
          }
        }
      }
    }

    /** `false` is an invariant failure: growing, or cutting off a live lane. */
    method ShrinkLaneSlots(required: nat) returns (ok: bool)
      requires Valid()
      modifies this`laneSlots
      ensures Valid()
      ensures ok <==> Shrinks(old(View()), required)
      ensures View() == After(old(View()), Shrink(required))
    {
      var active := ActiveLaneSlots();
      if required > laneSlots || required < active || required > U16_MAX { return false; }
      laneSlots := required;
      ok := true;
    }

    /** Claim a lane in the first empty entry. */
    method Register(lane: nat, sid: nat) returns (r: Registration)
      requires Valid()
      modifies this`rows, this`table, sids, lanes, states
      ensures Valid()
      ensures r.Violation? <==> LaneOffset(lane).None? || Key(sid, LaneOffset(lane).value) in old(table)
      ensures r.Full? <==> !r.Violation? && |old(rows)| == states.Length
      ensures table == if r.Registered? then old(table)[Key(sid, LaneOffset(lane).value) := Entry(1, None)] else old(table)
    {
      var offset := LaneOffset(lane);
      if offset.None? { return Violation; }
      var k := Key(sid, offset.value);
      var found := FindEntry(k);
      if found.Some? { return Violation; }
      var idx := FirstEmpty();
      if idx == states.Length { return Full; }
      hide Represents;
      WriteClaim(idx, k);
      r := Registered;
    }

    /** Fill the first empty entry. */
    method WriteClaim(idx: nat, k: Key)
      requires Valid() && idx == |rows| < states.Length && k !in table && k.lane < laneSlots && k.lane <= 255
      modifies this`rows, this`table, sids, lanes, states
      ensures Valid() && table == old(table)[k := Entry(1, None)]
    {
      hide Represents;
      AppendRepresents(rows, table, Row(k, Entry(1, None)));
      lanes[idx] := k.lane;
      sids[idx] := k.sid;
      states[idx] := 1;
      rows := rows + [Row(k, Entry(1, None))];
      table := table[k := Entry(1, None)];
    }

    method FirstEmpty() returns (idx: nat)
      requires Valid()
      ensures idx == |rows|
    {
      idx := 0;
      while idx < states.Length && CountOf(states[idx]) != 0
        invariant idx <= |rows|
      {
        idx := idx + 1;
      }
      if idx < |rows| { PackRoundTrip(rows[idx].entry); }
    }

    /** Unpack the entry of row `idx`. */
    method ReadEntry(idx: nat) returns (e: Entry)
      requires Valid() && idx < |rows|
      ensures e == rows[idx].entry && Counted(e)
    {
      PackRoundTrip(rows[idx].entry);
      var raw := states[idx];
      var fault := Decode(CodeOf(raw));
      e := Entry(CountOf(raw), fault.value);
    }

    /** Replace the entry of row `idx`. */
    method WriteEntry(idx: nat, e: Entry)
      requires Valid() && idx < |rows| && Counted(e)
      modifies this`rows, this`table, states
      ensures Valid() && rows == old(rows)[idx := Row(old(rows)[idx].key, e)] && table == old(table)[old(rows)[idx].key := e]
    {
      hide Represents;
      UpdateRepresents(rows, table, idx, e);
      states[idx] := Pack(e);
      table := table[rows[idx].key := e];
      rows := rows[idx := Row(rows[idx].key, e)];
    }

    /** One more attachment of a claim; `false` for `found` is an invariant failure,
        and `None` says that the count is at its maximum. */
    method Increment(lane: nat, sid: nat) returns (found: bool, next: Option<nat>)
      requires Valid()
      modifies this`rows, this`table, states
      ensures Valid()
      ensures found <==> LaneOffset(lane).Some? && Key(sid, LaneOffset(lane).value) in old(table)
      ensures found ==>
        var k := Key(sid, LaneOffset(lane).value);
        && next == NextCount(old(table)[k].count)
        && table == if next.Some? then old(table)[k := old(table)[k].(count := next.value)] else old(table)
      ensures !found ==> next.None? && table == old(table)
    {
      hide Valid;
      hide NextCount;
      found, next := false, None;
      var offset := LaneOffset(lane);
      if offset.None? { return; }
      var idx := FindEntry(Key(sid, offset.value));
      if idx.None? { return; }
      found := true;
      var e := ReadEntry(idx.value);
      next := NextCount(e.count);
      if next.Some? { WriteEntry(idx.value, e.(count := next.value)); }
    }

    /** Attach a session to a lane: range, fault, then one more attachment of a claim
        or a first one. */
    method ActivateLane(lane: nat, sid: nat) returns (r: Activation)
      requires Valid()
      modifies this`rows, this`table, sids, lanes, states
      ensures Valid()
      ensures r.OutOfRange? <==> lane < laneBase || lane - laneBase >= laneSlots
      ensures r.SessionPoisoned? <==> !r.OutOfRange? && Faulted(old(table), sid)
      ensures r.Attached? <==> lane >= laneBase && Granted(old(View()), Key(sid, lane - laneBase))
      ensures r.Attached? ==> r.first == (Key(sid, lane - laneBase) !in old(table))
      ensures View() == if lane < laneBase then old(View()) else After(old(View()), Activate(Key(sid, lane - laneBase)))
    {
      hide Valid;
      hide Faulted;
      if lane < laneBase || lane - laneBase >= laneSlots { return OutOfRange; }
      var fault := SessionFault(sid);
      if fault.Some? { return SessionPoisoned; }
      SizeMatches();
      var present := HasEntry(lane, sid);
      if present {
        var found, next := Increment(lane, sid);
        return if next.None? then Overflow else Attached(false);
      }
      var claim := Register(lane, sid);
      r := match claim case Registered => Attached(true) case Full => Overflow case Violation => Broken;
    }

    /** Release one attachment; the last one removes the entry. `None` is an
        invariant failure. */
    method Decrement(lane: nat, sid: nat) returns (next: Option<nat>)
      requires Valid()
      modifies this`rows, this`table, sids, lanes, states
      ensures Valid()
      ensures next.Some? <==> LaneOffset(lane).Some? && Key(sid, LaneOffset(lane).value) in old(table)
      ensures next.Some? ==> next.value == old(table)[Key(sid, LaneOffset(lane).value)].count - 1
      ensures View() == if lane < laneBase then old(View()) else After(old(View()), Release(Key(sid, lane - laneBase)))
    {
      hide Valid;
      var offset := LaneOffset(lane);
      if offset.None? { return None; }
      var idx := FindEntry(Key(sid, offset.value));
      if idx.None? { return None; }
      var e := ReadEntry(idx.value);
      next := Some(e.count - 1);
      if e.count == 1 { RemoveEntry(idx.value); } else { WriteEntry(idx.value, Entry(e.count - 1, e.fault)); }
    }

    method LastLive() returns (last: nat)
      requires Valid() && rows != []
      ensures last == |rows| - 1
    {
      assert forall i :: |rows| <= i < states.Length ==> CountOf(states[i]) == 0;
      last := states.Length - 1;
      while CountOf(states[last]) == 0
        invariant |rows| - 1 <= last < states.Length
        decreases last
      {
        PackRoundTrip(rows[|rows| - 1].entry);
        last := last - 1;
      }
    }

    /** Move the last live entry into the gap and clear its old place. */
    method RemoveEntry(idx: nat)
      requires Valid() && idx < |rows|
      modifies this`rows, this`table, sids, lanes, states
      ensures Valid() && rows == Vacate(old(rows), idx) && table == old(table) - {old(rows)[idx].key}
    {
      hide Represents;
      hide Pack;
      hide Counted;
      var last := LastLive();
      VacateRepresents(rows, table, idx);
      MoveEntry(idx, last);
      table := table - {rows[idx].key};
      rows := Vacate(rows, idx);
    }

    /** Copy entry `last` to `idx` and clear it, in all three columns. */
    method MoveEntry(idx: nat, last: nat)
      requires sids != lanes && lanes != states && states != sids && sids.Length == lanes.Length == states.Length && idx <= last < states.Length
      modifies sids, lanes, states
      ensures forall j :: 0 <= j < states.Length ==>
        && sids[j] == (if j == last then 0 else old(sids[if j == idx then last else j]))
        && lanes[j] == (if j == last then 0 else old(lanes[if j == idx then last else j]))
        && states[j] == (if j == last then 0 else old(states[if j == idx then last else j]))
    {
      if last != idx {
        lanes[idx] := lanes[last];
        sids[idx] := sids[last];
        states[idx] := states[last];
      }
      lanes[last] := 0;
      sids[last] := 0;
      states[last] := 0;
    }

    /** The first fault found among the session's entries. */
    method SessionFault(sid: nat) returns (f: Option<Fault>)
      requires Valid()
      ensures f.Some? <==> Faulted(table, sid)
      ensures f.Some? ==> exists k :: k in table && k.sid == sid && table[k].fault == f
    {
      for i := 0 to states.Length
        invariant forall j :: 0 <= j < i && j < |rows| && rows[j].key.sid == sid ==> rows[j].entry.fault.None?
      {
        if i < |rows| { PackRoundTrip(rows[i].entry); }
        var raw := states[i];
        if CountOf(raw) != 0 && sids[i] == sid {
          var fault := Decode(CodeOf(raw));
          if fault.value.Some? {
            assert rows[i].key in table;
            return fault.value;
          }
        }
      }
      f := None;
    }

    /** Record a cause for a session without one; otherwise report the first. */
    method PoisonSession(sid: nat, cause: Fault) returns (f: Fault)
      requires Valid()
      modifies this`rows, this`table, states
      ensures Valid()
      ensures View() == After(old(View()), Poison(sid, cause))
      ensures if Faulted(old(table), sid) then exists k :: k in table && k.sid == sid && table[k].fault == Some(f) else f == cause
    {
      var existing := SessionFault(sid);
      if existing.Some? { return existing.value; }
      WriteFaults(sid, cause);
      f := cause;
    }

    method WriteFaults(sid: nat, cause: Fault)
      requires Valid()
      modifies this`rows, this`table, states
      ensures Valid() && table == Poisoned(old(table), sid, cause)
    {
      hide Represents;
      for i := 0 to states.Length
        modifies states
        invariant forall j :: 0 <= j < |rows| ==> states[j] == Pack(if j < i then PoisonEntry(rows[j].key, rows[j].entry, sid, cause) else rows[j].entry)
        invariant forall j :: |rows| <= j < states.Length ==> states[j] == 0
      {
        if i < |rows| { PackRoundTrip(rows[i].entry); }
        var raw := states[i];
        var count := CountOf(raw);
        if count != 0 && sids[i] == sid { states[i] := Pack(Entry(count, Some(cause))); }
      }
      PoisonRepresents(rows, table, sid, cause);
      rows := PoisonRows(rows, sid, cause);
      table := Poisoned(table, sid, cause);
    }
  }

  // ------------------------------------------------------------------------ runs

  function Run(b: Book, ops: seq<Op>): Book {
    if ops == [] then b else After(Run(b, ops[..|ops| - 1]), ops[|ops| - 1])
  }

  /** All entries of a session carry the same fault, or none. */
  ghost predicate FaultsAgree(t: Table) {
    forall j, k :: j in t && k in t && j.sid == k.sid ==> t[j].fault == t[k].fault
  }

  /** Counts in range, live lanes in range, and no more claims than entries. */
  ghost predicate Bounded(b: Book) {
    && (forall k :: k in b.table ==> Counted(b.table[k]) && Ranges(b, k))
    && |b.table| <= b.capacity
  }

  function One(p: bool): nat { if p then 1 else 0 }

  /** Attachments granted to, and released by, a claim in the course of a run. */
  function Attachments(b: Book, ops: seq<Op>, k: Key): nat {
    if ops == [] then 0
    else
      var n := |ops| - 1;
      Attachments(b, ops[..n], k) + One(ops[n] == Activate(k) && Granted(Run(b, ops[..n]), k))
  }

  function Releases(b: Book, ops: seq<Op>, k: Key): nat {
    if ops == [] then 0
    else
      var n := |ops| - 1;
      Releases(b, ops[..n], k) + One(ops[n] == Release(k) && k in Run(b, ops[..n]).table)
  }

  lemma {:induction false} StepAgrees(b: Book, op: Op)
    requires FaultsAgree(b.table) && Bounded(b)
    ensures FaultsAgree(After(b, op).table)
  {
    var t, n := b.table, After(b, op).table;
    forall j, k | j in n && k in n && j.sid == k.sid ensures n[j].fault == n[k].fault {
      if op.Poison? {
        assert (j in t && k in t) && t[j].fault == t[k].fault;
      }
    }
  }

  lemma {:induction false} ActivateBounded(b: Book, k: Key)
    requires Bounded(b)
    ensures Bounded(After(b, Activate(k)))
  {
    hide Faulted;
    var t, n := b.table, After(b, Activate(k)).table;
    assert n.Keys == if Granted(b, k) then t.Keys + {k} else t.Keys;
    if k in t { assert t.Keys + {k} == t.Keys; }
  }

  lemma {:induction false} ReleaseBounded(b: Book, k: Key)
    requires Bounded(b)
    ensures Bounded(After(b, Release(k)))
  {
    var t, n := b.table, After(b, Release(k)).table;
    if n.Keys != t.Keys { assert n.Keys == t.Keys - {k}; }
  }

  lemma {:induction false} StepBounded(b: Book, op: Op)
    requires Bounded(b)
    ensures Bounded(After(b, op))
  {
    match op
    case Activate(k) => ActivateBounded(b, k);
    case Release(k) => ReleaseBounded(b, k);
    case Poison(_, _) => assert After(b, op).table.Keys == b.table.Keys;
    case Shrink(_) =>
  }

  lemma {:induction false} StepCounts(b: Book, op: Op, k: Key)
    requires Bounded(b)
    ensures CountIn(After(b, op).table, k) == CountIn(b.table, k) + One(op == Activate(k) && Granted(b, k)) - One(op == Release(k) && k in b.table)
  {
    hide Faulted;
    if k in b.table { assert Ranges(b, k); }
  }

  /** Over every run from an empty table all entries of a session share one fault,
      counts stay in 1..256, live lanes stay in the range as it shrinks, and claims
      within the capacity. */
  lemma {:induction false} RunsAgree(laneSlots: nat, capacity: nat, ops: seq<Op>)
    ensures FaultsAgree(Run(Book(map[], laneSlots, capacity), ops).table)
    ensures Bounded(Run(Book(map[], laneSlots, capacity), ops))
  {
    var b := Book(map[], laneSlots, capacity);
    if ops != [] {
      RunsAgree(laneSlots, capacity, ops[..|ops| - 1]);
      StepAgrees(Run(b, ops[..|ops| - 1]), ops[|ops| - 1]);
      StepBounded(Run(b, ops[..|ops| - 1]), ops[|ops| - 1]);
    }
  }

  /** The table is a map with exact counts: over every run from an empty one a claim's
      count, zero when it is not live, is the attachments it was granted less those it
      released. */
  lemma {:induction false} RunsExact(laneSlots: nat, capacity: nat, ops: seq<Op>, k: Key)
    ensures var b := Book(map[], laneSlots, capacity); CountIn(Run(b, ops).table, k) == Attachments(b, ops, k) - Releases(b, ops, k)
  {
    var b := Book(map[], laneSlots, capacity);
    if ops != [] {
      var n := |ops| - 1;
      RunsExact(laneSlots, capacity, ops[..n], k);
      RunsAgree(laneSlots, capacity, ops[..n]);
      StepCounts(Run(b, ops[..n]), ops[n], k);
      hide After;
      hide Granted;
    }
  }

  ghost predicate HasFault(t: Table, sid: nat, f: Fault) { exists k :: k in t && k.sid == sid && t[k].fault == Some(f) }

  /** The first fault stays until the last entry of the session is released. */
  lemma {:induction false} FirstFaultSticks(b: Book, op: Op, sid: nat, f: Fault)
    requires FaultsAgree(b.table) && HasFault(b.table, sid, f)
    ensures var n := After(b, op).table; forall k :: k in n && k.sid == sid ==> n[k].fault == Some(f)
  {
    var t, n := b.table, After(b, op).table;
    var w :| w in t && w.sid == sid && t[w].fault == Some(f);
    forall k | k in n && k.sid == sid ensures n[k].fault == Some(f) {
      assert k in t ==> t[k].fault == t[w].fault;
      assert Faulted(t, sid);
    }
  }

  predicate Alive(t: Table, sid: nat) { exists k :: k in t && k.sid == sid }

  /** Over a run in which the session always keeps some entry, its first fault is
      the fault of every entry it has. */
  lemma {:induction false} FirstFaultPersists(b: Book, ops: seq<Op>, sid: nat, f: Fault)
    requires FaultsAgree(b.table) && Bounded(b) && HasFault(b.table, sid, f)
    requires forall i :: 0 <= i <= |ops| ==> Alive(Run(b, ops[..i]).table, sid)
    ensures FaultsAgree(Run(b, ops).table) && Bounded(Run(b, ops))
    ensures var t := Run(b, ops).table; forall k :: k in t && k.sid == sid ==> t[k].fault == Some(f)
  {
    if ops == [] {
      var w :| w in b.table && w.sid == sid && b.table[w].fault == Some(f);
    } else {
      var n := |ops| - 1;
      assert forall i :: 0 <= i <= n ==> ops[..n][..i] == ops[..i];
      FirstFaultPersists(b, ops[..n], sid, f);
      var before := Run(b, ops[..n]);
      assert Alive(before.table, sid);
      var w :| w in before.table && w.sid == sid;
      assert HasFault(before.table, sid, f);
      StepAgrees(before, ops[n]);
      StepBounded(before, ops[n]);
      FirstFaultSticks(before, ops[n], sid, f);
    }
  }

  /** The refusal is needed: a claim keeps the session's entries in agreement
      exactly when none of them is faulted. */
  lemma {:induction false} ClaimAgreesIff(t: Table, k: Key)
    requires FaultsAgree(t) && k !in t
    ensures FaultsAgree(t[k := Entry(1, None)]) <==> !Faulted(t, k.sid)
  {
    var n := t[k := Entry(1, None)];
    if Faulted(t, k.sid) {
      var j :| j in t && j.sid == k.sid && t[j].fault.Some?;
      assert j in n && k in n;
      assert n[j].fault != n[k].fault;
    } else {
      forall i, j | i in n && j in n && i.sid == j.sid ensures n[i].fault == n[j].fault {
        assert i in t ==> (i.sid == k.sid ==> t[i].fault.None?);
        assert j in t ==> (j.sid == k.sid ==> t[j].fault.None?);
      }
    }
  }
}
