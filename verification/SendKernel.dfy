/** One send, from the future the application polls down to the transport calls.
    Everything the environment decides during a poll is an input of that poll. */
module SendKernel {
  import opened Choreography

  /** What a step of a poll answers: not yet, an error, or success. */
  datatype Verdict = Waiting | Failed | Passed

  /** What the environment decides during one poll. */
  datatype Turn = Turn(
    begins: bool,          // the endpoint admits the send on its first poll
    preview: Verdict,      // the projected send is found
    inits: bool,           // its descriptor and commit plan are accepted
    faultBefore: bool,     // the session has failed before a resumed send goes on
    admission: Verdict,    // the resumed send's plan still stands
    scratch: bool,         // the scratch buffer is free
    encodes: bool,         // the payload encodes
    transport: Verdict,    // the transport's answer
    faultAfter: bool)      // the session has failed when the transport returns

  /** What an observer of the send sees. */
  datatype Effect =
    | Staged               // the payload enters the kernel
    | Prepared             // the commit plan is built
    | Revalidated          // a resumed send is admitted again
    | Polled(answer: Verdict)
    | SentLocally(ok: bool)
    | Cancelled            // the transport is told to drop its pending send
    | Committed            // the post-transport commit
    | Yielded              // the poll returns to the application as pending

  datatype Io = Unpolled | TransportPending
  datatype Kernel = Preparing(input: bool) | Sending(io: Io) | Finished

  // ------------------------------------------------------------ specification

  function CancelSend(io: Io): (Io, seq<Effect>) {
    if io.TransportPending? then (Unpolled, [Cancelled]) else (io, [])
  }

  function PollOutgoing(local: bool, io: Io, e: Turn): (Verdict, Io, seq<Effect>) {
    if local then (if e.encodes then Passed else Failed, io, [SentLocally(e.encodes)])
    else if !e.scratch then (Waiting, io, [])
    else if !e.encodes then (Failed, CancelSend(io).0, CancelSend(io).1)
    else (e.transport, if e.transport.Waiting? then TransportPending else Unpolled, [Polled(e.transport)])
  }

  /** The transport part of a poll and what follows it. */
  function Transmit(local: bool, io: Io, e: Turn): (Kernel, Verdict, seq<Effect>) {
    var (v, next, fx) := PollOutgoing(local, io, e);
    if e.faultAfter then (Finished, Failed, fx + CancelSend(next).1)
    else
      match v
      case Waiting => (Sending(next), Waiting, fx)
      case Passed => (Finished, Passed, fx + [Committed])
      case Failed => (Finished, Failed, fx)
  }

  function KernelSend(local: bool, k: Kernel, given: bool, e: Turn): (Kernel, Verdict, seq<Effect>) {
    match k
    case Preparing(input) =>
      var staged := if given then [Staged] else [];
      var held := input || given;
      if e.preview.Waiting? then (Preparing(held), Waiting, staged)
      else if e.preview.Failed? || !held || !e.inits then (Finished, Failed, staged)
      else
        var (next, v, fx) := Transmit(local, Unpolled, e);
        (next, v, staged + [Prepared] + fx)
    case Sending(io) =>
      if e.faultBefore || e.admission.Failed? then (Finished, Failed, CancelSend(io).1)
      else if e.admission.Waiting? then (k, Waiting, [])
      else
        var (next, v, fx) := Transmit(local, io, e);
        (next, v, [Revalidated] + fx)
    case Finished => (k, Failed, [])
  }

  datatype Phase = Unarmed | Armed | Erroneous | Over

  datatype SendFuture = SendFuture(phase: Phase, payload: bool, kernel: Kernel, trace: seq<Effect>)

  const DIRECT := SendFuture(Unarmed, true, Finished, [])
  const BRANCH := SendFuture(Armed, true, Preparing(false), [])
  const REFUSED := SendFuture(Erroneous, false, Finished, [])

  /** One poll of the future. Polling a future that is over is a misuse and does
      nothing here. */
  function PollFuture(local: bool, s: SendFuture, e: Turn): (SendFuture, Verdict) {
    match s.phase
    case Erroneous => (s.(phase := Over), Failed)
    case Over => (s, Failed)
    case Unarmed => if e.begins then PollArmed(local, s.(phase := Armed, kernel := Preparing(false)), e) else (s.(phase := Over), Failed)
    case Armed => PollArmed(local, s, e)
  }

  function PollArmed(local: bool, s: SendFuture, e: Turn): (SendFuture, Verdict) {
    var (k, v, fx) := KernelSend(local, s.kernel, s.payload, e);
    var yielded := if v.Waiting? then [Yielded] else [];
    (SendFuture(if v.Waiting? then Armed else Over, false, k, s.trace + fx + yielded), v)
  }

  /** Dropping the future releases an armed send. */
  function DropFuture(s: SendFuture): SendFuture {
    if !s.phase.Armed? then s.(phase := Over)
    else s.(phase := Over, kernel := Finished, trace := s.trace + if s.kernel.Sending? then CancelSend(s.kernel.io).1 else [])
  }

  function Polls(local: bool, s: SendFuture, turns: seq<Turn>): SendFuture {
    if turns == [] then s else PollFuture(local, Polls(local, s, turns[..|turns| - 1]), turns[|turns| - 1]).0
  }

  // ------------------------------------------------------------------ monitor

  /** What the effects so far allow next. `clear`: the next transport call has
      fresh admission from this very poll. `armed`: the transport holds a pending
      send. `accepted`: the last effect was an acceptance. */
  datatype Monitor = Monitor(staged: nat, prepared: nat, commits: nat, clear: bool, armed: bool, accepted: bool)

  const QUIET := Monitor(0, 0, 0, false, false, false)

  /** `None` is a violation. */
  function Observe(m: Monitor, x: Effect): Option<Monitor> {
    var quiet := m.(accepted := false, clear := false);
    match x
    case Staged => if m.staged > 0 then None else Some(quiet.(staged := 1))
    case Prepared => if m.prepared > 0 || m.staged == 0 then None else Some(quiet.(prepared := 1, clear := true))
    case Revalidated => if m.prepared == 0 then None else Some(quiet.(clear := true))
    case Polled(v) => if !m.clear then None else Some(m.(clear := false, armed := v.Waiting?, accepted := v.Passed?))
    case SentLocally(ok) => if !m.clear || m.armed then None else Some(m.(clear := false, accepted := ok))
    case Cancelled => if !m.armed then None else Some(quiet.(armed := false))
    case Committed => if !m.accepted || m.commits > 0 then None else Some(quiet.(commits := 1))
    case Yielded => Some(quiet)
  }

  function ObserveAll(m: Monitor, xs: seq<Effect>): Option<Monitor>
    decreases |xs|
  {
    if xs == [] then Some(m)
    else
      var next := Observe(m, xs[0]);
      if next.None? then None else ObserveAll(next.value, xs[1..])
  }

  lemma ObserveFirst(m: Monitor, x: Effect, xs: seq<Effect>)
    ensures ObserveAll(m, []) == Some(m)
    ensures ObserveAll(m, [x] + xs) == if Observe(m, x).None? then None else ObserveAll(Observe(m, x).value, xs)
    ensures ObserveAll(m, [x]) == Observe(m, x)
  {
    assert ([x] + xs)[1..] == xs;
    assert [x][1..] == [];
    if Observe(m, x).Some? { assert ObserveAll(Observe(m, x).value, []) == Observe(m, x); }
  }

  lemma {:induction false} ObserveConcat(m: Monitor, a: seq<Effect>, b: seq<Effect>)
    ensures ObserveAll(m, a + b) == if ObserveAll(m, a).None? then None else ObserveAll(ObserveAll(m, a).value, b)
    decreases |a|
  {
    if a == [] {
      assert a + b == b;
    } else {
      assert (a + b)[1..] == a[1..] + b;
      if Observe(m, a[0]).Some? { ObserveConcat(Observe(m, a[0]).value, a[1..], b); }
    }
  }

  /** The monitor agrees with the kernel's own state. */
  predicate Agrees(local: bool, payload: bool, k: Kernel, m: Monitor) {
    && !m.clear && !m.accepted
    && (payload ==> m.staged == 0 && !k.Sending? && (k.Preparing? ==> !k.input))
    && (k.Preparing? ==> m.prepared == 0 && m.commits == 0 && !m.armed && (k.input <==> m.staged == 1))
    && (k.Sending? ==> m.staged == 1 && m.prepared == 1 && m.commits == 0 && (m.armed <==> k.io.TransportPending?))
    && (k.Finished? ==> !m.armed)
    && (local ==> !m.armed)
    && m.staged <= 1 && m.commits <= 1
  }

  /** The effects of a poll keep the discipline and leave monitor and kernel in
      agreement: as it stands when the poll yields, and up to what only matters
      within a poll when it is over. */
  ghost predicate Disciplined(local: bool, m: Monitor, k: Kernel, v: Verdict, fx: seq<Effect>) {
    var seen := ObserveAll(m, fx);
    && seen.Some?
    && !(v.Waiting? && k.Finished?) && (!v.Waiting? ==> k.Finished?)
    && Agrees(local, false, k, seen.value.(clear := false, accepted := false))
  }

  lemma {:induction false} TransmitObserved(local: bool, io: Io, e: Turn, m: Monitor)
    requires m.clear && !m.accepted && m.staged == 1 && m.prepared == 1 && m.commits == 0
    requires (m.armed <==> io.TransportPending?) && (local ==> !m.armed)
    ensures Disciplined(local, m, Transmit(local, io, e).0, Transmit(local, io, e).1, Transmit(local, io, e).2)
  {
    hide ObserveAll;
    var (v, next, fx) := PollOutgoing(local, io, e);
    var cancel := CancelSend(next).1;
    ObserveConcat(m, fx, cancel);
    ObserveConcat(m, fx, [Committed]);
    ObserveFirst(m, if fx != [] then fx[0] else Yielded, []);
    var mid := ObserveAll(m, fx).value;
    ObserveFirst(mid, Cancelled, []);
    ObserveFirst(mid, Committed, []);
  }

  lemma {:induction false} PreparingObserved(local: bool, input: bool, given: bool, e: Turn, m: Monitor)
    requires Agrees(local, given, Preparing(input), m)
    ensures var r := KernelSend(local, Preparing(input), given, e); Disciplined(local, m, r.0, r.1, r.2)
  {
    hide ObserveAll;
    hide Transmit;
    var staged := if given then [Staged] else [];
    ObserveFirst(m, Staged, []);
    var mid := ObserveAll(m, staged).value;
    if e.preview.Passed? && (input || given) && e.inits {
      var r := Transmit(local, Unpolled, e);
      ObserveFirst(mid, Prepared, r.2);
      TransmitObserved(local, Unpolled, e, Observe(mid, Prepared).value);
      ObserveConcat(m, staged, [Prepared] + r.2);
      assert staged + [Prepared] + r.2 == staged + ([Prepared] + r.2);
    }
  }

  lemma {:induction false} SendingObserved(local: bool, io: Io, e: Turn, m: Monitor)
    requires Agrees(local, false, Sending(io), m)
    ensures var r := KernelSend(local, Sending(io), false, e); Disciplined(local, m, r.0, r.1, r.2)
  {
    ObserveFirst(m, Cancelled, []);
    if !(e.faultBefore || e.admission.Failed?) && e.admission.Passed? {
      var r := Transmit(local, io, e);
      ObserveFirst(m, Revalidated, r.2);
      TransmitObserved(local, io, e, Observe(m, Revalidated).value);
    }
  }

  // --------------------------------------------------------------------- runs

  /** A future and the monitor of its whole trace. */
  ghost predicate Watched(local: bool, s: SendFuture) {
    var seen := ObserveAll(QUIET, s.trace);
    && seen.Some?
    && (s.phase.Armed? ==> !s.kernel.Finished? && Agrees(local, s.payload, s.kernel, seen.value))
    && (s.phase.Unarmed? ==> s.payload && seen.value == QUIET)
    && (s.phase.Over? || s.phase.Erroneous? ==> !seen.value.armed)
    && seen.value.staged <= 1 && seen.value.commits <= 1
  }

  lemma {:induction false} PollArmedWatched(local: bool, s: SendFuture, e: Turn)
    requires Watched(local, s) && s.phase.Armed?
    ensures Watched(local, PollArmed(local, s, e).0)
  {
    var m := ObserveAll(QUIET, s.trace).value;
    var r := KernelSend(local, s.kernel, s.payload, e);
    match s.kernel {
      case Preparing(input) => PreparingObserved(local, input, s.payload, e, m);
      case Sending(io) => SendingObserved(local, io, e, m);
    }
    var yielded := if r.1.Waiting? then [Yielded] else [];
    ObserveConcat(QUIET, s.trace, r.2);
    ObserveConcat(QUIET, s.trace + r.2, yielded);
    ObserveFirst(ObserveAll(m, r.2).value, Yielded, []);
  }

  lemma {:induction false} PollWatched(local: bool, s: SendFuture, e: Turn)
    requires Watched(local, s)
    ensures Watched(local, PollFuture(local, s, e).0)
  {
    if s.phase.Armed? { PollArmedWatched(local, s, e); }
    if s.phase.Unarmed? && e.begins { PollArmedWatched(local, s.(phase := Armed, kernel := Preparing(false)), e); }
  }

  lemma {:induction false} DropWatched(local: bool, s: SendFuture)
    requires Watched(local, s)
    ensures Watched(local, DropFuture(s)) && !ObserveAll(QUIET, DropFuture(s).trace).value.armed
  {
    var m := ObserveAll(QUIET, s.trace).value;
    ObserveConcat(QUIET, s.trace, if s.phase.Armed? && s.kernel.Sending? then CancelSend(s.kernel.io).1 else []);
    ObserveFirst(m, Cancelled, []);
    assert s.trace + [] == s.trace;
  }

  lemma {:induction false} PollsWatched(local: bool, s: SendFuture, turns: seq<Turn>)
    requires Watched(local, s)
    ensures Watched(local, Polls(local, s, turns))
  {
    if turns != [] {
      PollsWatched(local, s, turns[..|turns| - 1]);
      PollWatched(local, Polls(local, s, turns[..|turns| - 1]), turns[|turns| - 1]);
    }
  }

  /** Over every schedule of polls, with the future then dropped or not, the
      monitor accepts the trace: the payload is staged once, each transport call
      has fresh admission from its own poll, the commit follows an acceptance and
      happens at most once, and a cancel meets a send the transport holds. When
      the future is over or dropped the transport holds nothing. */
  lemma {:induction false} SendDiscipline(local: bool, start: SendFuture, turns: seq<Turn>)
    requires start in {DIRECT, BRANCH, REFUSED}
    ensures var s := Polls(local, start, turns);
      && ObserveAll(QUIET, s.trace).Some?
      && ObserveAll(QUIET, DropFuture(s).trace).Some?
      && !ObserveAll(QUIET, DropFuture(s).trace).value.armed
      && (s.phase.Over? ==> !ObserveAll(QUIET, s.trace).value.armed)
  {
    PollsWatched(local, start, turns);
    DropWatched(local, Polls(local, start, turns));
  }

  /** What the monitor has seen, read off the effects themselves. */
  ghost predicate Reads(xs: seq<Effect>, m: Monitor) {
    && (m.clear ==> xs != [] && (xs[|xs| - 1].Prepared? || xs[|xs| - 1].Revalidated?))
    && (m.accepted ==> xs != [] && (xs[|xs| - 1] == Polled(Passed) || xs[|xs| - 1] == SentLocally(true)))
    && (m.staged == 0 <==> Staged !in xs)
    && (m.prepared == 0 <==> Prepared !in xs)
    && (m.prepared == 0 ==> forall i :: 0 <= i < |xs| ==> !Transmits(xs[i]))
    && (m.prepared == 0 ==> !m.clear)
    && (m.commits == 0 <==> Committed !in xs)
    && (m.armed <==> exists j :: HeldSince(xs, j))
  }

  predicate Transmits(x: Effect) { x.Polled? || x.SentLocally? }

  /** The transport answered pending at `j` and nothing has answered or cancelled
      it since. */
  predicate HeldSince(xs: seq<Effect>, j: int) {
    0 <= j < |xs| && xs[j] == Polled(Waiting) && forall i :: j < i < |xs| ==> !xs[i].Polled? && !xs[i].Cancelled?
  }

  lemma {:induction false} HeldAfter(xs: seq<Effect>, x: Effect)
    ensures (exists j :: HeldSince(xs + [x], j)) <==>
      x == Polled(Waiting) || (!x.Polled? && !x.Cancelled? && exists j :: HeldSince(xs, j))
  {
    var all := xs + [x];
    if x == Polled(Waiting) { assert HeldSince(all, |xs|); }
    if j :| HeldSince(xs, j) { if !x.Polled? && !x.Cancelled? { assert HeldSince(all, j); } }
    if j :| HeldSince(all, j) {
      assert all[|xs|] == x;
      if j < |xs| {
        assert forall i :: 0 <= i < |xs| ==> xs[i] == all[i];
        assert HeldSince(xs, j);
      }
    }
  }

  lemma {:induction false} ReadsStep(xs: seq<Effect>, m: Monitor, x: Effect)
    requires Reads(xs, m) && Observe(m, x).Some?
    ensures Reads(xs + [x], Observe(m, x).value)
  {
    HeldAfter(xs, x);
    hide HeldSince;
    var all := xs + [x];
    assert all[|all| - 1] == x;
    assert forall e :: e in all <==> e in xs || e == x;
    assert forall i :: 0 <= i < |xs| ==> all[i] == xs[i];
  }

  lemma {:induction false} MonitorReads(xs: seq<Effect>)
    requires ObserveAll(QUIET, xs).Some?
    ensures Reads(xs, ObserveAll(QUIET, xs).value)
  {
    if xs != [] {
      var init, x := xs[..|xs| - 1], xs[|xs| - 1];
      assert xs == init + [x];
      ObserveConcat(QUIET, init, [x]);
      MonitorReads(init);
      ObserveFirst(ObserveAll(QUIET, init).value, x, []);
      hide ObserveAll;
      hide Reads;
      ReadsStep(init, ObserveAll(QUIET, init).value, x);
    }
  }

  /** What an accepted trace means, effect by effect: the payload is staged once and
      prepared once; a transport or local call directly follows the preparation or a
      revalidation, and only a revalidation once the send was prepared before; the
      commit directly follows an acceptance and happens once; a cancel meets a send
      the transport holds. */
  lemma {:induction false} MonitorMeaning(xs: seq<Effect>, i: nat)
    requires ObserveAll(QUIET, xs).Some? && i < |xs|
    ensures xs[i].Staged? ==> Staged !in xs[..i]
    ensures xs[i].Prepared? ==> Prepared !in xs[..i] && Staged in xs[..i] && forall j :: 0 <= j < i ==> !Transmits(xs[j])
    ensures xs[i].Revalidated? ==> Prepared in xs[..i]
    ensures Transmits(xs[i]) ==> i > 0 && (xs[i - 1].Prepared? || xs[i - 1].Revalidated?)
    ensures Transmits(xs[i]) && (Prepared in xs[..i - 1] || exists j :: 0 <= j < i && Transmits(xs[j])) ==> xs[i - 1].Revalidated?
    ensures xs[i].SentLocally? ==> forall j :: !HeldSince(xs[..i], j)
    ensures xs[i].Committed? ==> Committed !in xs[..i] && i > 0 && (xs[i - 1] == Polled(Passed) || xs[i - 1] == SentLocally(true))
    ensures xs[i].Cancelled? ==> exists j :: HeldSince(xs[..i], j)
  {
    EffectMeaning(xs, i);
    hide ObserveAll;
    hide HeldSince;
    if Transmits(xs[i]) && xs[i - 1].Prepared? { EffectMeaning(xs, i - 1); }
  }

  lemma {:induction false} EffectMeaning(xs: seq<Effect>, i: nat)
    requires ObserveAll(QUIET, xs).Some? && i < |xs|
    ensures ObserveAll(QUIET, xs[..i]).Some? && Reads(xs[..i], ObserveAll(QUIET, xs[..i]).value)
    ensures Observe(ObserveAll(QUIET, xs[..i]).value, xs[i]).Some?
    ensures forall j :: 0 <= j < i ==> xs[..i][j] == xs[j]
  {
    var before, rest := xs[..i], xs[i + 1..];
    assert xs == before + ([xs[i]] + rest);
    ObserveConcat(QUIET, before, [xs[i]] + rest);
    MonitorReads(before);
    ObserveFirst(ObserveAll(QUIET, before).value, xs[i], rest);
  }

  lemma Joins(a: seq<Effect>, b: seq<Effect>, c: seq<Effect>)
    ensures a + b + c == a + (b + c)
  {
  }

  // ------------------------------------------------------------ the mutable send

  /** The future, the kernel's send state and the pending transport send. */
  class RawSendFuture {
    const local: bool
    var phase: Phase
    var payload: bool
    var state: Kernel
    var trace: seq<Effect>

    ghost function View(): SendFuture
      reads this
    {
      SendFuture(phase, payload, state, trace)
    }

    constructor (local: bool, start: SendFuture)
      ensures this.local == local && View() == start
    {
      this.local := local;
      phase, payload, state, trace := start.phase, start.payload, start.kernel, start.trace;
    }

    /** Leave the pending state before the transport is called. */
    method CancelSendOutgoing(io: Io) returns (next: Io)
      modifies this`trace
      ensures next == CancelSend(io).0 && trace == old(trace) + CancelSend(io).1
    {
      if !io.TransportPending? { return io; }
      next := Unpolled;
      trace := trace + [Cancelled];
    }

    method PollSendOutgoing(io: Io, e: Turn) returns (v: Verdict, next: Io)
      modifies this`trace
      ensures var r := PollOutgoing(local, io, e); v == r.0 && next == r.1 && trace == old(trace) + r.2
    {
      assert old(trace) + [] == old(trace);
      next := io;
      if local {
        trace := trace + [SentLocally(e.encodes)];
        return if e.encodes then Passed else Failed, next;
      }
      if !e.scratch { return Waiting, next; }
      if !e.encodes {
        next := CancelSendOutgoing(io);
        return Failed, next;
      }
      trace := trace + [Polled(e.transport)];
      v := e.transport;
      next := if v.Waiting? then TransportPending else Unpolled;
    }

    method PollSendPending(io: Io, e: Turn) returns (v: Verdict)
      modifies this`state, this`trace
      ensures var r := Transmit(local, io, e); state == r.0 && v == r.1 && trace == old(trace) + r.2
    {
      ghost var first := PollOutgoing(local, io, e);
      Joins(trace, first.2, CancelSend(first.1).1);
      Joins(trace, first.2, [Committed]);
      var next;
      v, next := PollSendOutgoing(io, e);
      if e.faultAfter {
        next := CancelSendOutgoing(next);
        state, v := Finished, Failed;
        return;
      }
      match v
      case Waiting => state := Sending(next);
      case Failed => state := Finished;
      case Passed =>
        trace := trace + [Committed];
        state := Finished;
    }

    /** The kernel half of a poll. `given` is the payload on the first poll. */
    method SendStep(given: bool, e: Turn) returns (v: Verdict)
      modifies this`state, this`trace
      ensures var r := KernelSend(local, old(state), given, e); state == r.0 && v == r.1 && trace == old(trace) + r.2
    {
      ghost var staged: seq<Effect>, rest := if given then [Staged] else [], Transmit(local, Unpolled, e).2;
      assert old(trace) + [] == old(trace);
      Joins(trace, staged, [Prepared]);
      Joins(trace, staged + [Prepared], rest);
      if state.Sending? { Joins(trace, [Revalidated], Transmit(local, state.io, e).2); }
      match state
      case Preparing(input) =>
        var held := input || given;
        if given { trace := trace + [Staged]; }
        state := Preparing(held);
        if e.preview.Waiting? { return Waiting; }
        if e.preview.Failed? || !held || !e.inits {
          state := Finished;
          return Failed;
        }
        trace := trace + [Prepared];
        v := PollSendPending(Unpolled, e);
      case Sending(io) =>
        if e.faultBefore || e.admission.Failed? {
          var _ := CancelSendOutgoing(io);
          state := Finished;
          return Failed;
        }
        if e.admission.Waiting? { return Waiting; }
        trace := trace + [Revalidated];
        v := PollSendPending(io, e);
      case Finished => v := Failed;
    }

    method PollRaw(e: Turn) returns (v: Verdict)
      modifies this
      ensures (View(), v) == PollFuture(local, old(View()), e)
    {
      assert forall t: seq<Effect> :: t + [] == t;
      if phase.Over? { return Failed; }
      if phase.Erroneous? || (phase.Unarmed? && !e.begins) {
        phase := Over;
        return Failed;
      }
      if phase.Unarmed? {
        phase := Armed;
        state := Preparing(false);
      }
      var given := payload;
      payload := false;
      v := SendStep(given, e);
      if v.Waiting? { trace := trace + [Yielded]; } else { phase := Over; }
    }

    method DropSend()
      modifies this
      ensures View() == DropFuture(old(View()))
    {
      assert old(trace) + [] == old(trace);
      if phase.Armed? {
        if state.Sending? { var _ := CancelSendOutgoing(state.io); }
        state := Finished;
      }
      phase := Over;
    }
  }
}
