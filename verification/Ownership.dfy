/** One delegated resource across runtimes: its binding, the views and sends that
    may hold it, and the accepted frames that carry it. */
module Ownership {
  import opened Choreography
  import Views

  // -------------------------------------------------------------------- binding

  datatype Issuance = Available | Reserved | Issued

  function Reservable(i: Issuance): Option<Issuance> { if i.Available? then Some(Reserved) else None }

  /** Publication; `None` is an invariant failure. */
  function Published(i: Issuance): Option<Issuance> { if i.Reserved? then Some(Issued) else None }

  /** What is left when a reservation value is dropped. */
  function Returned(i: Issuance): Issuance { if i.Reserved? then Available else i }

  /** Permission to create the first endpoint of the resource. */
  class EndpointBinding {
    var issuance: Issuance

    constructor ()
      ensures issuance == Available
    {
      issuance := Available;
    }

    method Reserve() returns (reservation: bool)
      modifies this
      ensures reservation <==> Reservable(old(issuance)).Some?
      ensures issuance == if reservation then Reservable(old(issuance)).value else old(issuance)
    {
      if !issuance.Available? { return false; }
      issuance := Reserved;
      reservation := true;
    }

    /** Publish; the reservation value is dropped on return. */
    method CommitReservation() returns (ok: bool)
      modifies this
      ensures ok <==> Published(old(issuance)).Some?
      ensures issuance == if ok then Returned(Published(old(issuance)).value) else old(issuance)
    {
      if !issuance.Reserved? { return false; }
      issuance := Issued;
      DropReservation();
      ok := true;
    }

    method DropReservation()
      modifies this
      ensures issuance == Returned(old(issuance))
    {
      if issuance.Reserved? { issuance := Available; }
    }
  }

  // ------------------------------------------------------------- receive commit

  datatype Outcome = SessionFault | Rejected | Delivered | Obtained(handle: Views.Handle)

  /** The view a validated owned receive issues, if it issues one. */
  function Obtains(a: Views.Actor, role: nat, envelopeOk: bool, fault: bool): Option<Views.Handle> {
    if !fault && envelopeOk then Views.IssueReceived(a, role) else None
  }

  /** The receiving side: the actor's views and its protocol progress. */
  class RecvKernel {
    const views: Views.ActorViews
    var progress: nat
    var discarded: nat

    constructor (views: Views.ActorViews)
      ensures this.views == views && progress == 0 && discarded == 0
    {
      this.views := views;
      progress, discarded := 0, 0;
    }

    /** Validate, check for a fault, and only then commit: progress and the new
        view are published together or not at all. `endpoint` is the role the
        event delivers, if it delivers one. */
    method PublishRecvCommitPlan(endpoint: Option<nat>, envelopeOk: bool, codecOk: bool, fault: bool) returns (r: Outcome)
      modifies this, views, views.headers
      ensures fault <==> r.SessionFault?
      ensures r.Delivered? <==> !fault && endpoint.None? && codecOk
      ensures endpoint.Some? ==>
        (if r.Obtained? then Some(r.handle) else None) == Obtains(old(views.View()), endpoint.value, envelopeOk, fault)
      ensures r.Obtained? ==> endpoint.Some?
      ensures if r.Obtained? then views.View() == Views.Issued(old(views.View()), endpoint.value, r.handle.generation)
              else views.View() == old(views.View())
      ensures if r.Delivered? || r.Obtained? then progress == old(progress) + 1 && discarded == old(discarded)
              else progress == old(progress) && discarded == old(discarded) + 1
    {
      var generation: Option<nat> := None;
      var valid := codecOk;
      if endpoint.Some? {
        var role := endpoint.value;
        valid := envelopeOk && role < views.headers.Length && !Views.Live(views.headers[role]);
        if valid {
          generation := Views.NextGeneration(views.counter);
          valid := generation.Some?;
        }
      }
      if fault {
        discarded := discarded + 1;
        return SessionFault;
      }
      if !valid {
        discarded := discarded + 1;
        return Rejected;
      }
      progress := progress + 1;
      if endpoint.None? { return Delivered; }
      var issued := views.IssueReceivedView(endpoint.value);
      if issued.None? { assert false; }
      r := Obtained(issued.value);
    }
  }

  // ------------------------------------------------------------ the whole system

  datatype Phase = Direct | Branch | Pending

  /** Where an actor's endpoint value of the resource is. `Spent`: in a send future
      that has failed, which cannot be polled again, only dropped. */
  datatype Holder =
    | Vacant
    | Held(handle: Views.Handle)
    | InSend(handle: Views.Handle, phase: Phase)
    | Spent(handle: Views.Handle)

  /** An actor of some runtime, with the role its program gives the resource. */
  datatype Site = Site(actor: Views.Actor, role: nat, holder: Holder)

  /** `frames`: accepted and not yet consumed, by the actor they are addressed to. */
  datatype World = World(issuance: Issuance, reserved: bool, sites: seq<Site>, frames: multiset<nat>, published: nat)

  datatype PollResult = Waits | Fails | Accepts(to: nat, faulted: bool)

  datatype Step =
    | Reserve
    | Abandon                                  // an unpublished attachment fails
    | Attach(site: nat)                        // the attachment publishes its view
    | BeginSend(site: nat, branch: bool)       // the future takes the endpoint value
    | PollSend(site: nat, result: PollResult)
    | DropValue(site: nat)                     // of an endpoint or of its send future
    | Receive(site: nat, envelopeOk: bool, fault: bool)
    | Lose(to: nat)                            // an accepted frame is isolated by closure
    | Elsewhere(site: nat, op: Views.Op)       // the actor's other views share its counter

  predicate In(w: World, a: nat) { a < |w.sites| }

  function SetSite(w: World, a: nat, s: Site): World
    requires In(w, a)
  {
    w.(sites := w.sites[a := s])
  }

  function Granted(s: Site, h: Views.Handle): Site {
    if s.role < |s.actor.views| then s.(actor := Views.Issued(s.actor, s.role, h.generation), holder := Held(h)) else s
  }

  /** The endpoint value goes: its view is retired if the handle still validates. */
  function Vacated(s: Site): Site {
    if !s.holder.Vacant? && s.role < |s.actor.views| && Views.Validates(s.actor, s.holder.handle)
    then s.(actor := Views.Retired(s.actor, s.role), holder := Vacant)
    else s.(holder := Vacant)
  }

  predicate Sending(w: World, a: nat) { In(w, a) && w.sites[a].holder.InSend? }

  /** One poll of an owned send. Acceptance puts the right into the frame, also when
      the session fails before the commit that retires the sender's view. */
  function PollOnce(w: World, a: nat, result: PollResult): World
    requires Sending(w, a)
  {
    var s := w.sites[a];
    match result
    case Waits => SetSite(w, a, s.(holder := InSend(s.holder.handle, Pending)))
    case Fails => SetSite(w, a, s.(holder := Spent(s.holder.handle)))
    case Accepts(to, faulted) =>
      SetSite(w, a, if faulted then s.(holder := Spent(s.holder.handle)) else Vacated(s)).(frames := w.frames + multiset{to})
  }

  function AttachTo(w: World, a: nat): World {
    var handle := if In(w, a) then Views.IssueInitial(w.sites[a].actor, w.sites[a].role) else None;
    if handle.Some? && Published(w.issuance).Some?
    then SetSite(w, a, Granted(w.sites[a], handle.value))
           .(issuance := Returned(Published(w.issuance).value), reserved := false, published := w.published + 1)
    else w.(issuance := Returned(w.issuance), reserved := false)
  }

  function ReceiveAt(w: World, a: nat, envelopeOk: bool, fault: bool): World
    requires In(w, a)
  {
    var taken, handle := w.(frames := w.frames - multiset{a}), Obtains(w.sites[a].actor, w.sites[a].role, envelopeOk, fault);
    if handle.Some? then SetSite(taken, a, Granted(w.sites[a], handle.value)) else taken
  }

  function Moved(a: Views.Actor, op: Views.Op): Views.Actor { Views.Step(Views.History(a, [], {}), op).actor }

  /** A step that does not apply changes nothing. */
  function Next(w: World, s: Step): World {
    match s
    case Reserve => if Reservable(w.issuance).Some? then w.(issuance := Reservable(w.issuance).value, reserved := true) else w
    case Abandon => if w.reserved then w.(issuance := Returned(w.issuance), reserved := false) else w
    case Attach(a) => if w.reserved then AttachTo(w, a) else w
    case BeginSend(a, branch) =>
      if In(w, a) && w.sites[a].holder.Held?
      then SetSite(w, a, w.sites[a].(holder := InSend(w.sites[a].holder.handle, if branch then Branch else Direct)))
      else w
    case PollSend(a, result) => if Sending(w, a) then PollOnce(w, a, result) else w
    case DropValue(a) => if In(w, a) then SetSite(w, a, Vacated(w.sites[a])) else w
    case Receive(a, envelopeOk, fault) => if In(w, a) && a in w.frames then ReceiveAt(w, a, envelopeOk, fault) else w
    case Lose(a) => w.(frames := w.frames - multiset{a})
    case Elsewhere(a, op) =>
      if In(w, a) && op.role != w.sites[a].role then SetSite(w, a, w.sites[a].(actor := Moved(w.sites[a].actor, op))) else w
  }

  function Run(w: World, steps: seq<Step>): World {
    if steps == [] then w else Next(Run(w, steps[..|steps| - 1]), steps[|steps| - 1])
  }

  /** Nobody has the resource yet. */
  predicate Untouched(w: World) {
    && w.issuance.Available? && !w.reserved && w.frames == multiset{} && w.published == 0
    && forall a :: 0 <= a < |w.sites| ==> w.sites[a].holder.Vacant? && !LiveView(w.sites[a])
  }

  // ---------------------------------------------------------- headers and values

  predicate LiveView(s: Site) { s.role < |s.actor.views| && Views.Live(s.actor.views[s.role]) }

  /** The header of the resource is live exactly while a value with its handle is
      around. */
  predicate Tied(s: Site) {
    && (LiveView(s) <==> !s.holder.Vacant?)
    && (!s.holder.Vacant? ==> s.holder.handle.role == s.role && Views.Validates(s.actor, s.holder.handle))
  }

  lemma GrantedTied(s: Site, h: Views.Handle)
    requires Views.IssueReceived(s.actor, s.role) == Some(h) || Views.IssueInitial(s.actor, s.role) == Some(h)
    ensures Tied(Granted(s, h)) && !LiveView(s) && LiveView(Granted(s, h))
  {
  }

  lemma VacatedTied(s: Site)
    requires Tied(s)
    ensures Tied(Vacated(s)) && !LiveView(Vacated(s))
  {
  }

  lemma MovedTied(s: Site, op: Views.Op)
    requires Tied(s) && op.role != s.role
    ensures Tied(s.(actor := Moved(s.actor, op)))
  {
  }

  // ------------------------------------------------------------------- counting

  function One(b: bool): int { if b then 1 else 0 }

  /** The value can still be used: it is held, or in a send that may be polled. */
  predicate Usable(s: Site) { s.holder.Held? || s.holder.InSend? }

  function Holding(ss: seq<Site>): nat {
    if ss == [] then 0 else Holding(ss[..|ss| - 1]) + One(Usable(ss[|ss| - 1]))
  }

  function Headers(ss: seq<Site>): nat {
    if ss == [] then 0 else Headers(ss[..|ss| - 1]) + One(LiveView(ss[|ss| - 1]))
  }

  /** In how many places the right can be used from: the reservation, usable
      endpoint values, and accepted frames. */
  function Rights(w: World): nat { One(w.reserved) + Holding(w.sites) + |w.frames| }

  /** In how many places it appears at all: the reservation, live views with or
      without a pending send, and accepted frames. */
  function Places(w: World): nat { One(w.reserved) + Headers(w.sites) + |w.frames| }

  lemma {:induction false} SiteUpdate(ss: seq<Site>, a: nat, s: Site)
    requires a < |ss|
    ensures Holding(ss[a := s]) == Holding(ss) - One(Usable(ss[a])) + One(Usable(s))
    ensures Headers(ss[a := s]) == Headers(ss) - One(LiveView(ss[a])) + One(LiveView(s))
  {
    hide Usable;
    hide LiveView;
    var n := |ss| - 1;
    if a < n {
      SiteUpdate(ss[..n], a, s);
      assert ss[a := s][..n] == ss[..n][a := s];
    } else {
      assert ss[a := s][..n] == ss[..n];
    }
  }

  lemma {:induction false} NoneCounted(ss: seq<Site>)
    requires forall a :: 0 <= a < |ss| ==> ss[a].holder.Vacant? && !LiveView(ss[a])
    ensures Holding(ss) == 0 && Headers(ss) == 0
  {
    if ss != [] { NoneCounted(ss[..|ss| - 1]); }
  }

  lemma FrameCounts(frames: multiset<nat>, a: nat)
    ensures |frames + multiset{a}| == |frames| + 1
    ensures |frames - multiset{a}| == |frames| - One(a in frames)
  {
    if a !in frames { assert frames - multiset{a} == frames; }
  }

  // ------------------------------------------------------------------- one step

  ghost predicate AllTied(w: World) { forall a :: 0 <= a < |w.sites| ==> Tied(w.sites[a]) }

  ghost predicate Affine(w: World) {
    && AllTied(w)
    && Rights(w) <= 1
    && w.published <= 1
    && (w.reserved <==> w.issuance.Reserved?)
    && (w.published == 1 <==> w.issuance.Issued?)
    && (w.issuance.Available? ==> Rights(w) == 0 && Places(w) == 0)
    && (w.reserved ==> Places(w) <= 1)
  }

  /** The transport has accepted the frame and the session then fails, before the
      commit that retires the sender's view. */
  predicate LateFault(w: World, s: Step) { s.PollSend? && Sending(w, s.site) && s.result.Accepts? && s.result.faulted }

  /** A step adds no right and, but for a late fault, no place. */
  ghost predicate Shrinks(w: World, s: Step) {
    && AllTied(Next(w, s))
    && Rights(Next(w, s)) <= Rights(w)
    && (if LateFault(w, s) then Places(Next(w, s)) == Places(w) + 1 else Places(Next(w, s)) <= Places(w))
  }

  lemma {:induction false} BeginShrinks(w: World, a: nat, branch: bool)
    requires AllTied(w)
    ensures Shrinks(w, BeginSend(a, branch))
  {
    if In(w, a) { SiteUpdate(w.sites, a, Next(w, BeginSend(a, branch)).sites[a]); }
  }

  lemma {:induction false} PollShrinks(w: World, a: nat, result: PollResult)
    requires AllTied(w)
    ensures Shrinks(w, PollSend(a, result))
  {
    hide Holding;
    hide Headers;
    hide Vacated;
    if Sending(w, a) {
      SiteUpdate(w.sites, a, PollOnce(w, a, result).sites[a]);
      VacatedTied(w.sites[a]);
      if result.Accepts? { FrameCounts(w.frames, result.to); }
    }
  }

  lemma {:induction false} LoseShrinks(w: World, a: nat)
    requires AllTied(w)
    ensures Shrinks(w, Lose(a))
  {
    FrameCounts(w.frames, a);
  }

  lemma {:induction false} DropShrinks(w: World, a: nat)
    requires AllTied(w)
    ensures Shrinks(w, DropValue(a))
  {
    if In(w, a) {
      VacatedTied(w.sites[a]);
      SiteUpdate(w.sites, a, Vacated(w.sites[a]));
    }
  }

  lemma {:induction false} ReceiveShrinks(w: World, a: nat, envelopeOk: bool, fault: bool)
    requires AllTied(w)
    ensures Shrinks(w, Receive(a, envelopeOk, fault))
  {
    if In(w, a) && a in w.frames {
      FrameCounts(w.frames, a);
      var handle := Obtains(w.sites[a].actor, w.sites[a].role, envelopeOk, fault);
      if handle.Some? {
        GrantedTied(w.sites[a], handle.value);
        SiteUpdate(w.sites, a, Granted(w.sites[a], handle.value));
      }
    }
  }

  lemma {:induction false} ElsewhereShrinks(w: World, a: nat, op: Views.Op)
    requires AllTied(w)
    ensures Shrinks(w, Elsewhere(a, op))
  {
    if In(w, a) && op.role != w.sites[a].role {
      MovedTied(w.sites[a], op);
      SiteUpdate(w.sites, a, w.sites[a].(actor := Moved(w.sites[a].actor, op)));
    }
  }

  /** A published attachment turns the reservation into a live view. */
  lemma {:induction false} AttachKeeps(w: World, a: nat)
    requires AllTied(w) && w.reserved && w.issuance.Reserved?
    ensures var n := AttachTo(w, a);
      && AllTied(n) && !n.reserved
      && (n.issuance.Issued? ==> n.published == w.published + 1 && Rights(n) == Rights(w) && Places(n) == Places(w))
      && (!n.issuance.Issued? ==> n.issuance.Available? && n.published == w.published && Rights(n) == Rights(w) - 1 && Places(n) == Places(w) - 1)
  {
    if In(w, a) {
      var handle := Views.IssueInitial(w.sites[a].actor, w.sites[a].role);
      if handle.Some? {
        GrantedTied(w.sites[a], handle.value);
        SiteUpdate(w.sites, a, Granted(w.sites[a], handle.value));
      }
    }
  }

  predicate Transfers(s: Step) { !s.Reserve? && !s.Abandon? && !s.Attach? }

  lemma {:induction false} TransferShrinks(w: World, s: Step)
    requires AllTied(w) && Transfers(s)
    ensures Shrinks(w, s)
    ensures var n := Next(w, s); n.issuance == w.issuance && n.reserved == w.reserved && n.published == w.published
  {
    hide Shrinks;
    hide AllTied;
    match s
    case BeginSend(a, branch) => BeginShrinks(w, a, branch);
    case PollSend(a, result) => PollShrinks(w, a, result);
    case DropValue(a) => DropShrinks(w, a);
    case Receive(a, envelopeOk, fault) => ReceiveShrinks(w, a, envelopeOk, fault);
    case Lose(a) => LoseShrinks(w, a);
    case Elsewhere(a, op) => ElsewhereShrinks(w, a, op);
  }

  /** No sender has a live value while the resource is not issued. */
  lemma {:induction false} SenderIssued(w: World, s: Step)
    requires Affine(w) && LateFault(w, s)
    ensures w.issuance.Issued? && Places(w) >= 1
  {
    SiteUpdate(w.sites, s.site, w.sites[s.site].(holder := Vacant, role := |w.sites[s.site].actor.views|));
  }

  lemma {:induction false} StepAffine(w: World, s: Step)
    requires Affine(w)
    ensures Affine(Next(w, s))
    ensures w.issuance.Issued? ==> Rights(Next(w, s)) <= Rights(w) && Next(w, s).issuance.Issued?
    ensures if LateFault(w, s) then Places(Next(w, s)) >= 2 else Places(Next(w, s)) <= if Places(w) <= 1 then 1 else Places(w)
  {
    hide Places;
    hide Rights;
    hide AllTied;
    if LateFault(w, s) { SenderIssued(w, s); }
    if Transfers(s) {
      TransferShrinks(w, s);
    } else {
      AdmissionAffine(w, s);
    }
  }

  lemma {:induction false} AdmissionAffine(w: World, s: Step)
    requires Affine(w) && !Transfers(s)
    ensures Affine(Next(w, s))
    ensures w.issuance.Issued? ==> Next(w, s) == w
    ensures Places(Next(w, s)) <= if Places(w) <= 1 then 1 else Places(w)
  {
    hide Holding;
    hide Headers;
    hide Tied;
    match s
    case Reserve =>
    case Abandon =>
    case Attach(a) => if w.reserved { AttachKeeps(w, a); }
  }

  lemma {:induction false} RunAffine(w: World, steps: seq<Step>)
    requires Affine(w)
    ensures Affine(Run(w, steps))
    ensures w.issuance.Issued? ==> Rights(Run(w, steps)) <= Rights(w) && Run(w, steps).issuance.Issued?
  {
    hide Affine;
    hide Next;
    if steps != [] {
      RunAffine(w, steps[..|steps| - 1]);
      StepAffine(Run(w, steps[..|steps| - 1]), steps[|steps| - 1]);
    }
  }

  lemma UntouchedAffine(w: World)
    requires Untouched(w)
    ensures Affine(w)
  {
    NoneCounted(w.sites);
  }

  // ----------------------------------------------------------------- every run

  /** One right, one place to use it from: over every run across runtimes it is in
      at most one of the reservation, a usable endpoint value, a pending send or an
      accepted frame; a value's handle validates against the live header of its
      view; and the resource is published initially at most once. */
  lemma {:induction false} OneRightOnePlace(w: World, steps: seq<Step>)
    requires Untouched(w)
    ensures var n := Run(w, steps);
      && Rights(n) <= 1
      && n.published <= 1
      && forall a :: 0 <= a < |n.sites| ==> Tied(n.sites[a])
  {
    UntouchedAffine(w);
    RunAffine(w, steps);
  }

  /** Nothing returns a right after its first issue: over any further run the number
      of places to use it from only falls, and the binding stays closed. */
  lemma {:induction false} NothingReturns(w: World, steps: seq<Step>, more: seq<Step>)
    requires Untouched(w) && Run(w, steps).published == 1
    ensures var before, after := Run(w, steps), Run(Run(w, steps), more);
      Rights(after) <= Rights(before) && after.published == 1 && Reservable(after.issuance).None?
  {
    UntouchedAffine(w);
    RunAffine(w, steps);
    RunAffine(Run(w, steps), more);
  }

  /** A failure before publication leaves the binding as it was. */
  lemma {:induction false} UnpublishedReturns(w: World, steps: seq<Step>, a: nat)
    requires Untouched(w) && Run(w, steps).issuance.Available?
    ensures var n := Run(w, steps);
      && Next(Next(n, Reserve), Abandon) == n
      && (Next(Next(n, Reserve), Attach(a)) == n || Next(Next(n, Reserve), Attach(a)).published == 1)
  {
    UntouchedAffine(w);
    RunAffine(w, steps);
  }

  // ------------------------------------------------------------ late faults

  /** Two runtimes whose programs both number the resource 1. The first actor issues
      its first view. */
  function TwoRuntimes(): World {
    var first := Views.Actor(1, 0, [None, Some(0)], 1, [1, 0]);
    World(Available, false, [Site(first, 1, Vacant), Site(first.(allocation := 2), 1, Vacant)], multiset{}, 0)
  }

  const LATE_FAULT: seq<Step> := [Reserve, Attach(0), BeginSend(0, false), PollSend(0, Accepts(1, true))]

  lemma RunsOn(w: World, steps: seq<Step>, s: Step)
    ensures Run(w, steps + [s]) == Next(Run(w, steps), s)
  {
    assert (steps + [s])[..|steps|] == steps;
  }

  lemma FourSteps(w: World, a: Step, b: Step, c: Step, d: Step)
    ensures Run(w, [a, b, c, d]) == Next(Next(Next(Next(w, a), b), c), d)
  {
    hide Next;
    assert [] + [a] == [a] && [a] + [b] == [a, b] && [a, b] + [c] == [a, b, c] && [a, b, c] + [d] == [a, b, c, d];
    RunsOn(w, [], a);
    RunsOn(w, [a], b);
    RunsOn(w, [a, b], c);
    RunsOn(w, [a, b, c], d);
  }

  lemma PairHeaders(ss: seq<Site>)
    requires |ss| == 2
    ensures Headers(ss) == One(LiveView(ss[0])) + One(LiveView(ss[1]))
  {
    assert Headers(ss[..1]) == Headers(ss[..1][..0]) + One(LiveView(ss[..1][0]));
  }

  /** A live view beside the accepted frame that carries its right. */
  lemma {:induction false} LiveBesideFrame()
    ensures Untouched(TwoRuntimes())
    ensures var w := Run(TwoRuntimes(), LATE_FAULT);
      && Places(w) == 2 && w.frames == multiset{1} && !w.reserved
      && |w.sites| == 2 && w.sites[0].holder.Spent? && LiveView(w.sites[0]) && w.sites[1] == TwoRuntimes().sites[1]
  {
    hide Run;
    hide Next;
    hide Headers;
    FourSteps(TwoRuntimes(), Reserve, Attach(0), BeginSend(0, false), PollSend(0, Accepts(1, true)));
    LateFaultState();
    PairHeaders(Run(TwoRuntimes(), LATE_FAULT).sites);
  }

  lemma LateFaultState()
    ensures var w := Next(Next(Next(Next(TwoRuntimes(), Reserve), Attach(0)), BeginSend(0, false)), PollSend(0, Accepts(1, true)));
      && w.frames == multiset{1} && !w.reserved && |w.sites| == 2
      && w.sites[0].holder.Spent? && LiveView(w.sites[0]) && w.sites[1] == TwoRuntimes().sites[1]
  {
    var w1 := Next(TwoRuntimes(), Reserve);
    var w2 := Next(w1, Attach(0));
    assert w2.sites[0].holder.Held? && !w2.reserved;
  }

  /** And, once that frame is received, two live views. */
  lemma {:induction false} TwoLiveViews()
    ensures var w := Run(TwoRuntimes(), LATE_FAULT + [Receive(1, true, false)]);
      && Places(w) == 2 && w.frames == multiset{} && |w.sites| == 2
      && LiveView(w.sites[0]) && w.sites[0].holder.Spent? && LiveView(w.sites[1]) && w.sites[1].holder.Held?
  {
    LiveBesideFrame();
    RunsOn(TwoRuntimes(), LATE_FAULT, Receive(1, true, false));
    var w := Run(TwoRuntimes(), LATE_FAULT);
    hide Run;
    hide Headers;
    var n := Next(w, Receive(1, true, false));
    GrantedTied(w.sites[1], Views.IssueReceived(w.sites[1].actor, 1).value);
    PairHeaders(n.sites);
  }

  ghost predicate AlwaysOnePlace(w: World, steps: seq<Step>) {
    forall k :: 0 <= k <= |steps| ==> Places(Run(w, steps[..k])) <= 1
  }

  ghost predicate NoLateFault(w: World, steps: seq<Step>) {
    forall k :: 0 <= k < |steps| ==> !LateFault(Run(w, steps[..k]), steps[k])
  }

  /** Counting every live view, the right stays in one place throughout a run exactly
      when no send meets a session fault after its frame was accepted. */
  lemma {:induction false} OnePlaceIffNoLateFault(w: World, steps: seq<Step>)
    requires Untouched(w)
    ensures AlwaysOnePlace(w, steps) <==> NoLateFault(w, steps)
  {
    hide Untouched;
    hide Run;
    hide Places;
    hide LateFault;
    if NoLateFault(w, steps) {
      forall k | 0 <= k <= |steps| ensures Places(Run(w, steps[..k])) <= 1 { QuietPlaces(w, steps, k); }
    } else {
      var k :| 0 <= k < |steps| && LateFault(Run(w, steps[..k]), steps[k]);
      LateFaultShows(w, steps, k);
    }
  }

  lemma {:induction false} PlacesStep(w: World, steps: seq<Step>, k: nat)
    requires Untouched(w) && k < |steps|
    ensures var now, next := Run(w, steps[..k]), Run(w, steps[..k + 1]);
      if LateFault(now, steps[k]) then Places(next) >= 2 else Places(next) <= if Places(now) <= 1 then 1 else Places(now)
  {
    hide Affine;
    hide Next;
    hide Places;
    hide LateFault;
    UntouchedAffine(w);
    RunAffine(w, steps[..k]);
    StepAffine(Run(w, steps[..k]), steps[k]);
    assert steps[..k + 1][..k] == steps[..k];
  }

  lemma {:induction false} LateFaultShows(w: World, steps: seq<Step>, k: nat)
    requires Untouched(w) && k < |steps| && LateFault(Run(w, steps[..k]), steps[k])
    ensures !AlwaysOnePlace(w, steps)
  {
    hide Run;
    hide Places;
    hide LateFault;
    PlacesStep(w, steps, k);
  }

  lemma {:induction false} QuietPlaces(w: World, steps: seq<Step>, k: nat)
    requires Untouched(w) && NoLateFault(w, steps) && k <= |steps|
    ensures Places(Run(w, steps[..k])) <= 1
  {
    if k == 0 {
      UntouchedAffine(w);
    } else {
      QuietPlaces(w, steps, k - 1);
      PlacesStep(w, steps, k - 1);
    }
  }
}
