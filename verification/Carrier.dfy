/** The in-memory carrier: one shared frame queue, one waiter list, and a receive
    handle per open port that holds at most one frame. */
module Carrier {
  import opened Choreography

  /** A receive direction: session, lane and the role that receives. */
  datatype Key = Key(session: nat, lane: nat, role: nat)

  datatype Frame = Frame(key: Key, source: nat, frameLabel: nat, payload: seq<nat>)

  // ------------------------------------------------------------ queue and waiters

  /** Position of the first frame of a direction; the length when there is none. */
  function IndexFor(frames: seq<Frame>, k: Key): (i: nat)
    ensures i <= |frames|
    ensures i < |frames| ==> frames[i].key == k
    ensures forall j :: 0 <= j < i ==> frames[j].key != k
  {
    if frames == [] then 0 else if frames[0].key == k then 0 else 1 + IndexFor(frames[1..], k)
  }

  function Without<T>(xs: seq<T>, i: nat): seq<T>
    requires i < |xs|
  {
    xs[..i] + xs[i + 1..]
  }

  /** Removal that fills the gap with the last element. */
  function SwapRemove(ws: seq<Key>, i: nat): seq<Key>
    requires i < |ws|
  {
    var n := |ws| - 1;
    if i == n then ws[..n] else ws[..n][i := ws[n]]
  }

  function WaiterIndex(ws: seq<Key>, k: Key): (i: nat)
    ensures i <= |ws|
    ensures i < |ws| ==> ws[i] == k
    ensures forall j :: 0 <= j < i ==> ws[j] != k
  {
    if ws == [] then 0 else if ws[0] == k then 0 else 1 + WaiterIndex(ws[1..], k)
  }

  /** Unregister the waiter of a direction, if any: it is woken. */
  function Woken(ws: seq<Key>, k: Key): seq<Key> {
    if WaiterIndex(ws, k) < |ws| then SwapRemove(ws, WaiterIndex(ws, k)) else ws
  }

  function Registered(ws: seq<Key>, k: Key): seq<Key> {
    if WaiterIndex(ws, k) < |ws| then ws else ws + [k]
  }

  /** The frames of one direction, in order. */
  function Only(frames: seq<Frame>, k: Key): seq<Frame> {
    if frames == [] then [] else (if frames[0].key == k then [frames[0]] else []) + Only(frames[1..], k)
  }

  lemma {:induction false} OnlyConcat(a: seq<Frame>, b: seq<Frame>, k: Key)
    ensures Only(a + b, k) == Only(a, k) + Only(b, k)
  {
    if a == [] {
      assert a + b == b;
    } else {
      OnlyConcat(a[1..], b, k);
      assert (a + b)[1..] == a[1..] + b;
      var first := if a[0].key == k then [a[0]] else [];
      FirstRegroups(first, Only(a[1..], k), Only(b, k));
    }
  }

  lemma FirstRegroups(first: seq<Frame>, a: seq<Frame>, b: seq<Frame>)
    ensures first + (a + b) == first + a + b
  {
  }

  lemma OnlyEmpty(k: Key)
    ensures Only([], k) == []
  {
  }

  lemma OnlyOne(f: Frame, k: Key)
    ensures Only([f], k) == if f.key == k then [f] else []
  {
    assert [f][1..] == [];
    assert Only([f][1..], k) == [];
  }

  lemma {:induction false} OnlyNone(frames: seq<Frame>, k: Key)
    requires IndexFor(frames, k) == |frames|
    ensures Only(frames, k) == []
  {
    if frames != [] { OnlyNone(frames[1..], k); }
  }

  /** Taking the first frame of a direction takes the head of its order and leaves
      every other direction alone. */
  lemma {:induction false} TakeFirst(frames: seq<Frame>, k: Key, other: Key)
    requires IndexFor(frames, k) < |frames|
    ensures var i := IndexFor(frames, k);
      && Only(frames, k) == [frames[i]] + Only(Without(frames, i), k)
      && (other != k ==> Only(Without(frames, i), other) == Only(frames, other))
  {
    var i := IndexFor(frames, k);
    var a, f, b := frames[..i], frames[i], frames[i + 1..];
    assert frames == a + ([f] + b);
    OnlyConcat(a, [f] + b, k);
    OnlyConcat([f], b, k);
    OnlyConcat(a, b, k);
    OnlyOne(f, k);
    OnlyConcat(a, [f] + b, other);
    OnlyConcat([f], b, other);
    OnlyConcat(a, b, other);
    OnlyOne(f, other);
    assert IndexFor(a, k) == |a|;
    OnlyNone(a, k);
    hide Only;
    hide IndexFor;
  }

  // ------------------------------------------------------------------ the carrier

  class RxHandle {
    const key: Key
    var current: Option<Frame>

    constructor (key: Key)
      ensures this.key == key && current == None
    {
      this.key := key;
      current := None;
    }
  }

  class InMemoryTransport {
    var frames: seq<Frame>
    var waiters: seq<Key>

    constructor ()
      ensures frames == [] && waiters == []
    {
      frames, waiters := [], [];
    }

    method FrameFor(k: Key) returns (i: nat)
      ensures i == IndexFor(frames, k)
    {
      i := 0;
      while i < |frames| && frames[i].key != k
        invariant i <= |frames| && forall j :: 0 <= j < i ==> frames[j].key != k
      {
        i := i + 1;
      }
    }

    method WaiterFor(k: Key) returns (i: nat)
      ensures i == WaiterIndex(waiters, k)
    {
      i := 0;
      while i < |waiters| && waiters[i] != k
        invariant i <= |waiters| && forall j :: 0 <= j < i ==> waiters[j] != k
      {
        i := i + 1;
      }
    }

    method Wake(k: Key) returns (woke: bool)
      modifies this`waiters
      ensures woke <==> k in old(waiters)
      ensures waiters == Woken(old(waiters), k)
    {
      var i := WaiterFor(k);
      woke := i < |waiters|;
      if woke { waiters := SwapRemove(waiters, i); }
    }

    /** Sends complete at once; a lane other than the handle's own is refused. */
    method PollSend(session: nat, lane: nat, role: nat, outLane: nat, target: nat, frameLabel: nat, payload: seq<nat>)
      returns (ok: bool, woke: bool)
      modifies this
      ensures ok <==> outLane == lane
      ensures frames == if ok then old(frames) + [Frame(Key(session, lane, target), role, frameLabel, payload)] else old(frames)
      ensures waiters == if ok then Woken(old(waiters), Key(session, lane, target)) else old(waiters)
      ensures woke <==> ok && Key(session, lane, target) in old(waiters)
    {
      if outLane != lane { return false, false; }
      var frame := Frame(Key(session, lane, target), role, frameLabel, payload);
      woke := Wake(frame.key);
      frames := frames + [frame];
      ok := true;
    }

    /** Release the frame held before and take the oldest of this direction, or
        register as its waiter. */
    method PollRecv(rx: RxHandle) returns (frame: Option<Frame>)
      modifies this, rx
      ensures frame == rx.current
      ensures var i := IndexFor(old(frames), rx.key);
        if i < |old(frames)|
        then frame == Some(old(frames)[i]) && frames == Without(old(frames), i) && waiters == old(waiters)
        else frame == None && frames == old(frames) && waiters == Registered(old(waiters), rx.key)
    {
      rx.current := None;
      var i := FrameFor(rx.key);
      if i < |frames| {
        frame := Some(frames[i]);
        frames := Without(frames, i);
        rx.current := frame;
        return;
      }
      var w := WaiterFor(rx.key);
      if w >= |waiters| { waiters := waiters + [rx.key]; }
      frame := None;
    }

    /** Put the held frame back in front of the whole queue. */
    method Requeue(rx: RxHandle) returns (ok: bool, woke: bool)
      modifies this, rx
      ensures ok <==> old(rx.current).Some?
      ensures rx.current == None
      ensures frames == if ok then [old(rx.current).value] + old(frames) else old(frames)
      ensures waiters == if ok then Woken(old(waiters), old(rx.current).value.key) else old(waiters)
      ensures woke <==> ok && old(rx.current).value.key in old(waiters)
    {
      if rx.current.None? { return false, false; }
      var frame := rx.current.value;
      rx.current := None;
      woke := Wake(frame.key);
      frames := [frame] + frames;
      ok := true;
    }
  }

  // ------------------------------------------------------------------------ runs

  /** An open receive handle; `committed` once the protocol has advanced past the
      frame it still stores. */
  datatype Rx = Rx(key: Key, current: Option<Frame>, committed: bool)

  datatype Net = Net(frames: seq<Frame>, waiters: seq<Key>, rxs: seq<Rx>, accepted: seq<Frame>, consumed: seq<Frame>)

  datatype Act =
    | Open(key: Key)
    | Accept(frame: Frame)
    | Recv(rx: nat)
    | Commit(rx: nat)
    | Requeue(rx: nat)

  const EMPTY := Net([], [], [], [], [])

  /** The receiver holds a frame that the protocol has not advanced past. */
  predicate Holds(rx: Rx) { rx.current.Some? && !rx.committed }

  function HeldBy(rx: Rx): seq<Frame> { if Holds(rx) then [rx.current.value] else [] }

  /** No other receiver of the direction holds an uncommitted frame. */
  predicate Alone(n: Net, r: nat)
    requires r < |n.rxs|
  {
    forall q :: 0 <= q < |n.rxs| && q != r && n.rxs[q].key == n.rxs[r].key ==> !Holds(n.rxs[q])
  }

  /** A receiver polls only while no other receiver of its direction holds an
      uncommitted frame, and requeues only what it has not committed. */
  function After(n: Net, act: Act): Net {
    match act
    case Open(k) => n.(rxs := n.rxs + [Rx(k, None, false)])
    case Accept(f) => n.(frames := n.frames + [f], waiters := Woken(n.waiters, f.key), accepted := n.accepted + [f])
    case Recv(r) => if r < |n.rxs| && Alone(n, r) then Received(n, r) else n
    case Commit(r) =>
      if r < |n.rxs| && Holds(n.rxs[r])
      then n.(rxs := n.rxs[r := n.rxs[r].(committed := true)], consumed := n.consumed + [n.rxs[r].current.value])
      else n
    case Requeue(r) => if r < |n.rxs| && Holds(n.rxs[r]) then Requeued(n, r) else n
  }

  function Received(n: Net, r: nat): Net
    requires r < |n.rxs|
  {
    var rx := n.rxs[r];
    var i := IndexFor(n.frames, rx.key);
    var released := n.(consumed := n.consumed + HeldBy(rx));
    if i < |n.frames|
    then released.(frames := Without(n.frames, i), rxs := n.rxs[r := Rx(rx.key, Some(n.frames[i]), false)])
    else released.(waiters := Registered(n.waiters, rx.key), rxs := n.rxs[r := Rx(rx.key, None, false)])
  }

  function Requeued(n: Net, r: nat): Net
    requires r < |n.rxs| && n.rxs[r].current.Some?
  {
    var f := n.rxs[r].current.value;
    n.(frames := [f] + n.frames, waiters := Woken(n.waiters, f.key), rxs := n.rxs[r := n.rxs[r].(current := None)])
  }

  function Run(n: Net, acts: seq<Act>): Net {
    if acts == [] then n else After(Run(n, acts[..|acts| - 1]), acts[|acts| - 1])
  }

  /** Held frames belong to the receiver's own direction, one holder per direction. */
  ghost predicate OneHolder(n: Net) {
    && (forall r :: 0 <= r < |n.rxs| && n.rxs[r].current.Some? ==> n.rxs[r].current.value.key == n.rxs[r].key)
    && (forall r :: 0 <= r < |n.rxs| && Holds(n.rxs[r]) ==> Alone(n, r))
  }

  /** Accepted frames of a direction: consumed, then held, then queued. */
  ghost predicate Conserved(n: Net, k: Key) {
    && (forall r :: 0 <= r < |n.rxs| && n.rxs[r].key == k && Holds(n.rxs[r]) ==>
          Only(n.accepted, k) == Only(n.consumed, k) + [n.rxs[r].current.value] + Only(n.frames, k))
    && (Free(n, k) ==> Only(n.accepted, k) == Only(n.consumed, k) + Only(n.frames, k))
  }

  ghost predicate Free(n: Net, k: Key) { forall r :: 0 <= r < |n.rxs| && n.rxs[r].key == k ==> !Holds(n.rxs[r]) }

  /** What a direction sees is unchanged. */
  lemma OtherConserved(n: Net, m: Net, k: Key)
    requires Conserved(n, k) && |m.rxs| == |n.rxs|
    requires forall q :: 0 <= q < |n.rxs| ==> m.rxs[q].key == n.rxs[q].key && (n.rxs[q].key == k ==> m.rxs[q] == n.rxs[q])
    requires Only(m.accepted, k) == Only(n.accepted, k) && Only(m.consumed, k) == Only(n.consumed, k) && Only(m.frames, k) == Only(n.frames, k)
    ensures Conserved(m, k)
  {
    hide Only;
    if Free(m, k) {
      forall q | 0 <= q < |n.rxs| && n.rxs[q].key == k ensures !Holds(n.rxs[q]) { assert m.rxs[q] == n.rxs[q]; }
    }
  }

  /** Receiver `r` of a direction becomes its only possible holder. */
  lemma OwnConserved(m: Net, r: nat, k: Key)
    requires r < |m.rxs| && m.rxs[r].key == k && Alone(m, r)
    requires Only(m.accepted, k) == Only(m.consumed, k) + HeldBy(m.rxs[r]) + Only(m.frames, k)
    ensures Conserved(m, k)
  {
    hide Only;
    if Free(m, k) { assert Only(m.consumed, k) + [] == Only(m.consumed, k); }
  }

  /** A registered waiter has nothing queued, and no direction waits twice. */
  ghost predicate WaitersIdle(n: Net) {
    Distinct(n.waiters) && forall k :: k in n.waiters ==> Only(n.frames, k) == []
  }

  predicate Distinct(ws: seq<Key>) { forall i, j :: 0 <= i < j < |ws| ==> ws[i] != ws[j] }

  lemma SendConserves(n: Net, f: Frame, k: Key)
    requires Conserved(n, k)
    ensures Conserved(After(n, Accept(f)), k)
  {
    OnlyConcat(n.frames, [f], k);
    OnlyConcat(n.accepted, [f], k);
    hide Only;
  }

  lemma CommitConserves(n: Net, r: nat, k: Key)
    requires Conserved(n, k) && OneHolder(n) && r < |n.rxs| && Holds(n.rxs[r])
    ensures Conserved(After(n, Commit(r)), k)
  {
    var f, m := n.rxs[r].current.value, After(n, Commit(r));
    OnlyConcat(n.consumed, [f], k);
    OnlyOne(f, k);
    hide Only;
    if n.rxs[r].key == k {
      assert Alone(n, r);
      assert Only(m.consumed, k) + [] == Only(n.consumed, k) + [f];
      OwnConserved(m, r, k);
    } else {
      assert Only(n.consumed, k) + [] == Only(n.consumed, k);
      OtherConserved(n, m, k);
    }
  }

  lemma RequeueConserves(n: Net, r: nat, k: Key)
    requires Conserved(n, k) && OneHolder(n) && r < |n.rxs| && Holds(n.rxs[r])
    ensures Conserved(Requeued(n, r), k)
  {
    hide Only;
    hide Conserved;
    if n.rxs[r].key == k { RequeueOwn(n, r, k); } else { RequeueOther(n, r, k); }
  }

  lemma RequeueOwn(n: Net, r: nat, k: Key)
    requires Conserved(n, k) && OneHolder(n) && r < |n.rxs| && Holds(n.rxs[r]) && n.rxs[r].key == k
    ensures Conserved(Requeued(n, r), k)
  {
    hide Only;
    var f, m := n.rxs[r].current.value, Requeued(n, r);
    OnlyConcat([f], n.frames, k);
    OnlyOne(f, k);
    assert Alone(n, r);
    assert Only(n.consumed, k) + [f] + Only(n.frames, k) == Only(n.consumed, k) + [] + ([f] + Only(n.frames, k));
    OwnConserved(m, r, k);
  }

  lemma RequeueOther(n: Net, r: nat, k: Key)
    requires Conserved(n, k) && OneHolder(n) && r < |n.rxs| && Holds(n.rxs[r]) && n.rxs[r].key != k
    ensures Conserved(Requeued(n, r), k)
  {
    hide Only;
    var f, m := n.rxs[r].current.value, Requeued(n, r);
    OnlyConcat([f], n.frames, k);
    OnlyOne(f, k);
    assert [] + Only(n.frames, k) == Only(n.frames, k);
    OtherConserved(n, m, k);
  }

  lemma OwnOrder(n: Net, r: nat, k: Key)
    requires Conserved(n, k) && r < |n.rxs| && n.rxs[r].key == k && Alone(n, r)
    ensures Only(n.accepted, k) == Only(n.consumed, k) + HeldBy(n.rxs[r]) + Only(n.frames, k)
  {
    hide Only;
    if !Holds(n.rxs[r]) {
      assert Free(n, k);
      assert Only(n.consumed, k) + [] == Only(n.consumed, k);
    }
  }

  lemma ReceivedShape(n: Net, r: nat)
    requires r < |n.rxs|
    ensures var m := Received(n, r);
      && |m.rxs| == |n.rxs| && m.rxs[r].key == n.rxs[r].key
      && forall q :: 0 <= q < |n.rxs| && q != r ==> m.rxs[q] == n.rxs[q]
  {
  }

  lemma ReceiveConserves(n: Net, r: nat, k: Key)
    requires Conserved(n, k) && OneHolder(n) && r < |n.rxs| && Alone(n, r)
    ensures Conserved(Received(n, r), k)
  {
    hide Only;
    hide Received;
    hide Conserved;
    var rx, m := n.rxs[r], Received(n, r);
    ReceivedOrders(n, r, k);
    ReceivedShape(n, r);
    if rx.key == k {
      OwnOrder(n, r, k);
      Joins(Only(m.consumed, k), HeldBy(m.rxs[r]), Only(m.frames, k));
      OwnConserved(m, r, k);
    } else {
      Joins(Only(n.consumed, k), [], Only(m.frames, k));
      OtherConserved(n, m, k);
    }
  }

  lemma Joins(a: seq<Frame>, b: seq<Frame>, c: seq<Frame>)
    ensures a + b + c == a + (b + c) && a + [] == a && [] + c == c
  {
  }

  /** What a receive does to each direction's order. */
  lemma ReceivedOrders(n: Net, r: nat, k: Key)
    requires r < |n.rxs| && OneHolder(n)
    ensures var rx, m := n.rxs[r], Received(n, r);
      && m.accepted == n.accepted
      && Only(m.consumed, k) == Only(n.consumed, k) + (if rx.key == k then HeldBy(rx) else [])
      && Only(n.frames, k) == (if rx.key == k then HeldBy(m.rxs[r]) else []) + Only(m.frames, k)
  {
    hide Only;
    hide IndexFor;
    var rx := n.rxs[r];
    var i := IndexFor(n.frames, rx.key);
    OnlyConcat(n.consumed, HeldBy(rx), k);
    OnlyEmpty(k);
    if Holds(rx) { OnlyOne(rx.current.value, k); }
    if i < |n.frames| { TakeFirst(n.frames, rx.key, k); } else { OnlyNone(n.frames, rx.key); }
    assert [] + Only(n.frames, k) == Only(n.frames, k);
  }

  lemma {:induction false} OneHolderStays(n: Net, act: Act)
    requires OneHolder(n)
    ensures OneHolder(After(n, act))
  {
    var m := After(n, act);
    forall r | 0 <= r < |m.rxs| && Holds(m.rxs[r]) ensures Alone(m, r) {
      if r < |n.rxs| && Holds(n.rxs[r]) { assert Alone(n, r); }
    }
  }

  lemma {:induction false} StepConserves(n: Net, act: Act, k: Key)
    requires OneHolder(n) && Conserved(n, k)
    ensures Conserved(After(n, act), k)
  {
    match act
    case Open(_) => OpenConserves(n, After(n, act), k);
    case Accept(f) => SendConserves(n, f, k);
    case Recv(r) => if r < |n.rxs| && Alone(n, r) { ReceiveConserves(n, r, k); }
    case Commit(r) => if r < |n.rxs| && Holds(n.rxs[r]) { CommitConserves(n, r, k); }
    case Requeue(r) => if r < |n.rxs| && Holds(n.rxs[r]) { RequeueConserves(n, r, k); }
  }

  lemma OpenConserves(n: Net, m: Net, k: Key)
    requires Conserved(n, k) && m == n.(rxs := m.rxs) && |m.rxs| == |n.rxs| + 1 && m.rxs[..|n.rxs|] == n.rxs && !Holds(m.rxs[|n.rxs|])
    ensures Conserved(m, k)
  {
    hide Only;
    assert forall q :: 0 <= q < |n.rxs| ==> m.rxs[q] == n.rxs[q];
    if Free(m, k) {
      forall q | 0 <= q < |n.rxs| && n.rxs[q].key == k ensures !Holds(n.rxs[q]) { assert m.rxs[q] == n.rxs[q]; }
    }
  }

  lemma {:induction false} RunConserves(acts: seq<Act>, k: Key)
    ensures OneHolder(Run(EMPTY, acts)) && Conserved(Run(EMPTY, acts), k)
  {
    if acts != [] {
      RunConserves(acts[..|acts| - 1], k);
      var n, act := Run(EMPTY, acts[..|acts| - 1]), acts[|acts| - 1];
      OneHolderStays(n, act);
      StepConserves(n, act, k);
    }
  }

  /** FIFO and conservation: over every run, the accepted frames of a direction are
      those consumed, then the one a receiver holds, then those queued, each once
      and in order, across requeues and changes of receiver. */
  lemma {:induction false} FifoConservation(acts: seq<Act>, k: Key)
    ensures var n := Run(EMPTY, acts);
      && (Free(n, k) ==> Only(n.accepted, k) == Only(n.consumed, k) + Only(n.frames, k))
      && (forall r :: 0 <= r < |n.rxs| && n.rxs[r].key == k && Holds(n.rxs[r]) ==>
            Only(n.accepted, k) == Only(n.consumed, k) + [n.rxs[r].current.value] + Only(n.frames, k))
      && Only(n.consumed, k) <= Only(n.accepted, k)
  {
    RunConserves(acts, k);
    var n := Run(EMPTY, acts);
    hide Run;
    hide Only;
    if !Free(n, k) {
      var r :| 0 <= r < |n.rxs| && n.rxs[r].key == k && Holds(n.rxs[r]);
      Joins(Only(n.consumed, k), [n.rxs[r].current.value], Only(n.frames, k));
    }
  }

  /** The condition is needed: with two receivers of one direction holding frames,
      requeueing in the order of receipt delivers them in reverse. */
  lemma TwoHoldersReorder(a: Frame, b: Frame)
    requires a != b && a.key == b.key
    ensures var rx := Rx(a.key, None, false);
      var n := Net([a, b], [], [rx, rx], [a, b], []);
      var both := Received(Received(n, 0), 1);
      && !Alone(Received(n, 0), 1)
      && Requeued(Requeued(both, 0), 1).frames == [b, a]
  {
    var rx := Rx(a.key, None, false);
    var n := Net([a, b], [], [rx, rx], [a, b], []);
    assert IndexFor([a, b], a.key) == 0 && Without([a, b], 0) == [b];
    var one := Received(n, 0);
    assert one.frames == [b] && one.rxs == [Rx(a.key, Some(a), false), rx];
    assert IndexFor([b], a.key) == 0 && Without([b], 0) == [];
    var both := Received(one, 1);
    assert both.frames == [] && both.rxs == [Rx(a.key, Some(a), false), Rx(a.key, Some(b), false)];
    assert Holds(one.rxs[0]);
    assert [b] + ([a] + []) == [b, a];
  }

  // --------------------------------------------------------------------- wakeups

  lemma WokenIs(ws: seq<Key>, k: Key)
    requires Distinct(ws)
    ensures Distinct(Woken(ws, k))
    ensures forall x :: x in Woken(ws, k) <==> x in ws && x != k
  {
    var i, n, out := WaiterIndex(ws, k), |ws| - 1, Woken(ws, k);
    if i < |ws| {
      assert forall j :: 0 <= j < n ==> out[j] == if j == i then ws[n] else ws[j];
      forall x ensures x in out <==> x in ws && x != k {
        if x in ws && x != k {
          var j :| 0 <= j < |ws| && ws[j] == x;
          assert out[if j == n then i else j] == x;
        }
      }
    }
  }

  lemma RegisteredIs(ws: seq<Key>, k: Key)
    requires Distinct(ws)
    ensures Distinct(Registered(ws, k))
    ensures forall x :: x in Registered(ws, k) <==> x in ws || x == k
  {
    if WaiterIndex(ws, k) < |ws| { assert ws[WaiterIndex(ws, k)] in ws; }
  }

  lemma ArrivalWakes(n: Net, frames: seq<Frame>, f: Frame)
    requires WaitersIdle(n) && forall k :: k != f.key ==> Only(frames, k) == Only(n.frames, k)
    ensures WaitersIdle(n.(frames := frames, waiters := Woken(n.waiters, f.key)))
  {
    WokenIs(n.waiters, f.key);
  }

  lemma {:induction false} StepKeepsWaitersIdle(n: Net, act: Act)
    requires WaitersIdle(n)
    ensures WaitersIdle(After(n, act))
  {
    match act
    case Open(_) =>
    case Accept(f) =>
      forall k | k != f.key ensures Only(n.frames + [f], k) == Only(n.frames, k) {
        OnlyConcat(n.frames, [f], k);
        OnlyOne(f, k);
      }
      ArrivalWakes(n, n.frames + [f], f);
    case Recv(r) => if r < |n.rxs| && Alone(n, r) { ReceiveKeepsWaitersIdle(n, r); }
    case Commit(_) =>
    case Requeue(r) =>
      if r < |n.rxs| && Holds(n.rxs[r]) {
        var f := n.rxs[r].current.value;
        forall k | k != f.key ensures Only([f] + n.frames, k) == Only(n.frames, k) {
          OnlyConcat([f], n.frames, k);
          OnlyOne(f, k);
        }
        ArrivalWakes(n, [f] + n.frames, f);
      }
  }

  lemma ReceiveKeepsWaitersIdle(n: Net, r: nat)
    requires WaitersIdle(n) && r < |n.rxs|
    ensures WaitersIdle(Received(n, r))
  {
    var key := n.rxs[r].key;
    if IndexFor(n.frames, key) < |n.frames| {
      forall k | k in n.waiters ensures Only(Received(n, r).frames, k) == [] { TakeFirst(n.frames, key, k); }
    } else {
      OnlyNone(n.frames, key);
      RegisteredIs(n.waiters, key);
    }
  }

  /** No wakeup is lost: over every run a direction with a registered waiter has
      nothing queued, so whatever arrives or returns for it wakes that waiter. */
  lemma {:induction false} NoLostWakeup(acts: seq<Act>)
    ensures WaitersIdle(Run(EMPTY, acts))
  {
    if acts != [] {
      NoLostWakeup(acts[..|acts| - 1]);
      StepKeepsWaitersIdle(Run(EMPTY, acts[..|acts| - 1]), acts[|acts| - 1]);
    }
  }
}
