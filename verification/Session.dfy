/** The composed session: one projected program per role, and the frames in
    flight between them. Frames are matched by message site, because every site
    has its own frame label. */
module Session {
  import opened Choreography
  import opened Progress
  import opened Agreement
  import opened EventProgram
  import opened Projection
  import opened Paths
  import opened LocalRuns

  type Locals = ls: seq<LocalState> | |ls| == 256 witness seq(256, _ => LocalState([], []))

  datatype System = System(locals: Locals, flight: multiset<nat>)

  datatype Move = Move(role: Role, id: nat)

  function Start(t: Term): System {
    System(seq(256, p requires 0 <= p < 256 => Initial(Compile(t, p))), multiset{})
  }

  /** A role commits an enabled event; a receive also needs its frame. */
  predicate CanMove(t: Term, sys: System, mv: Move) {
    var es := Compile(t, mv.role).events;
    && mv.id < |es|
    && Enabled(es, sys.locals[mv.role], es[mv.id])
    && (es[mv.id].action.Receives? ==> es[mv.id].site in sys.flight)
  }

  function Moved(t: Term, sys: System, mv: Move): System
    requires CanMove(t, sys, mv)
  {
    var e := Compile(t, mv.role).events[mv.id];
    System(sys.locals[mv.role := Commit(sys.locals[mv.role], e)],
           match e.action
           case Sends(_, _, _) => sys.flight + multiset{e.site}
           case Receives(_, _, _) => sys.flight - multiset{e.site}
           case Locally(_, _) => sys.flight)
  }

  function Play(t: Term, sys: System, moves: seq<Move>): Option<System>
    decreases |moves|
  {
    if moves == [] then Some(sys)
    else if CanMove(t, sys, moves[0]) then Play(t, Moved(t, sys, moves[0]), moves[1..])
    else None
  }

  // ---------------------------------------------------------------- invariant

  predicate InFlight(t: Term, K: Board, s: nat) {
    && Within(t, 0, s)
    && Leaf(t, 0, s).from != Leaf(t, 0, s).to
    && s in K[Leaf(t, 0, s).from]
    && s !in K[Leaf(t, 0, s).to]
  }

  /** The system and the board describe the same progress, the roles agree, and
      exactly the sent and unreceived frames are in flight, once each. */
  ghost predicate Good(t: Term, sys: System, K: Board) {
    && (forall p: Role :: InStep(t, p, sys.locals[p], K[p]))
    && Agreed(t, 0, K)
    && (forall s: nat :: sys.flight[s] == if InFlight(t, K, s) then 1 else 0)
  }

  const BLANK: Board := seq(256, _ => {})

  lemma {:induction false} BlankAgreed(t: Term, o: nat)
    ensures Agreed(t, o, BLANK) && forall p: Role :: !Started(t, o, p, BLANK[p])
  {
    match t
    case Send(_, _, _) =>
    case Join(_, l, r) => BlankAgreed(l, o); BlankAgreed(r, o + Sites(l));
    case Resolve(i, _) => BlankAgreed(i, o);
  }

  lemma {:induction false} StartsGood(t: Term)
    ensures Good(t, Start(t), BLANK)
  {
    BlankAgreed(t, 0);
    forall p: Role ensures InStep(t, p, Start(t).locals[p], BLANK[p]) { StartsInStep(t, p); }
  }

  /** A move of the system is a ready step of the board, and conversely. */
  lemma {:induction false} MoveIsReady(t: Term, sys: System, K: Board, mv: Move)
    requires Good(t, sys, K) && mv.id < |Compile(t, mv.role).events|
    ensures CanMove(t, sys, mv) <==> Ready(t, 0, K, mv.role, Compile(t, mv.role).events[mv.id].site)
  {
    CompiledEvent(t, mv.role, mv.id);
    EnabledIffTaken(t, mv.role, sys.locals[mv.role], K[mv.role], mv.id);
    var s := Compile(t, mv.role).events[mv.id].site;
    if May(t, 0, mv.role, K[mv.role], s) { MayWithin(t, 0, mv.role, K[mv.role], s); }
    assert sys.flight[s] == if InFlight(t, K, s) then 1 else 0;
  }

  lemma {:induction false} MoveKeepsGood(t: Term, sys: System, K: Board, mv: Move)
    requires KnowsChoice(t) && Good(t, sys, K) && CanMove(t, sys, mv)
    ensures Good(t, Moved(t, sys, mv), Mark(K, mv.role, Compile(t, mv.role).events[mv.id].site))
  {
    hide Compile;
    hide Agreed;
    hide InFlight;
    LocalsMove(t, sys, K, mv);
    FlightMoves(t, sys, K, mv);
    MoveIsReady(t, sys, K, mv);
    assert AllLegal(t, 0, K);
    hide InStep;
    AgreedStep(t, 0, K, mv.role, Compile(t, mv.role).events[mv.id].site);
  }

  lemma {:induction false} LocalsMove(t: Term, sys: System, K: Board, mv: Move)
    requires Good(t, sys, K) && CanMove(t, sys, mv)
    ensures var K' := Mark(K, mv.role, Compile(t, mv.role).events[mv.id].site);
      forall q: Role :: InStep(t, q, Moved(t, sys, mv).locals[q], K'[q])
  {
    CommitInStep(t, mv.role, sys.locals[mv.role], K[mv.role], mv.id);
    hide InStep;
    hide Compile;
    hide Enabled;
    hide Commit;
    hide Agreed;
    hide InFlight;
    assert forall q: Role :: InStep(t, q, sys.locals[q], K[q]);
  }

  lemma MarkElsewhere(t: Term, K: Board, p: Role, x: nat, s: nat)
    requires s != x
    ensures InFlight(t, Mark(K, p, x), s) == InFlight(t, K, s)
  {
    assert forall q: Role :: s in Mark(K, p, x)[q] <==> s in K[q];
  }

  /** The frame of the moving event before and after the move. */
  lemma {:induction false} FlightOfMove(t: Term, sys: System, K: Board, mv: Move)
    requires Good(t, sys, K) && CanMove(t, sys, mv)
    ensures var e := Compile(t, mv.role).events[mv.id];
      && (InFlight(t, Mark(K, mv.role, e.site), e.site) <==> e.action.Sends?)
      && (InFlight(t, K, e.site) <==> e.action.Receives?)
  {
    hide Compile;
    hide Agreed;
    hide Legal;
    hide May;
    hide Leaf;
    var p := mv.role;
    var e := Compile(t, p).events[mv.id];
    var x := e.site;
    MoveIsReady(t, sys, K, mv);
    CompiledEvent(t, p, mv.id);
    MayWithin(t, 0, p, K[p], x);
    ReceiveFollowsSend(t, 0, K, x);
    hide InStep;
    assert e.action == ActionOf(Leaf(t, 0, x), p);
  }

  lemma {:induction false} FlightMoves(t: Term, sys: System, K: Board, mv: Move)
    requires Good(t, sys, K) && CanMove(t, sys, mv)
    ensures var K' := Mark(K, mv.role, Compile(t, mv.role).events[mv.id].site);
      forall s: nat :: Moved(t, sys, mv).flight[s] == if InFlight(t, K', s) then 1 else 0
  {
    hide Compile;
    hide InStep;
    hide Agreed;
    FlightOfMove(t, sys, K, mv);
    var e := Compile(t, mv.role).events[mv.id];
    var K', flight := Mark(K, mv.role, e.site), Moved(t, sys, mv).flight;
    forall s: nat ensures flight[s] == if InFlight(t, K', s) then 1 else 0 {
      assert sys.flight[s] == if InFlight(t, K, s) then 1 else 0;
      if s != e.site { MarkElsewhere(t, K, mv.role, e.site, s); }
      hide InFlight;
    }
  }

  lemma {:induction false} ReceiveFollowsSend(t: Term, o: nat, K: Board, s: nat)
    requires Agreed(t, o, K) && Within(t, o, s)
    ensures s in K[Leaf(t, o, s).to] ==> s in K[Leaf(t, o, s).from]
  {
    match t
    case Send(_, _, _) =>
    case Join(_, l, r) =>
      if s < o + Sites(l) { ReceiveFollowsSend(l, o, K, s); } else { ReceiveFollowsSend(r, o + Sites(l), K, s); }
    case Resolve(i, _) => ReceiveFollowsSend(i, o, K, s);
  }

  /** Every reachable state is good. */
  lemma {:induction false} ReachableGood(t: Term, sys: System, K: Board, moves: seq<Move>) returns (K': Board)
    requires KnowsChoice(t) && Good(t, sys, K) && Play(t, sys, moves).Some?
    ensures Good(t, Play(t, sys, moves).value, K')
    decreases |moves|
  {
    K' := K;
    if moves != [] {
      MoveKeepsGood(t, sys, K, moves[0]);
      var s := Compile(t, moves[0].role).events[moves[0].id].site;
      K' := ReachableGood(t, Moved(t, sys, moves[0]), Mark(K, moves[0].role, s), moves[1..]);
    }
  }

  predicate Reaches(t: Term, moves: seq<Move>, sys: System) {
    Play(t, Start(t), moves) == Some(sys)
  }

  // -------------------------------------------------------- branch agreement

  /** The role that chooses the arm of conflict `x`. */
  function Chooser(t: Term, c: nat, x: nat): Role
    requires c <= x < c + Routes(t)
  {
    match t
    case Send(_, _, _) => 0
    case Join(op, l, r) =>
      if op.Route? && x == c then Leader(l)
      else if x < LeftBase(op, c) + Routes(l) then Chooser(l, LeftBase(op, c), x)
      else Chooser(r, LeftBase(op, c) + Routes(l), x)
    case Resolve(i, _) => Chooser(i, c, x)
  }

  lemma {:induction false} ChooserSelected(t: Term, o: nat, c: nat, K: Board, locals: Locals, p: Role, x: nat)
    requires Agreed(t, o, K) && c <= x < c + Routes(t)
    requires forall q: Role :: Tracks(t, o, c, q, K[q], locals[q].selected) && Legal(t, o, q, K[q])
    requires x < |locals[p].selected| && locals[p].selected[x].Some?
    ensures var k := Chooser(t, c, x); x < |locals[k].selected| && locals[k].selected[x] == locals[p].selected[x]
  {
    match t
    case Join(op, l, r) =>
      assert forall q: Role :: Legal(t, o, q, K[q]) ==> Legal(l, o, q, K[q]) && Legal(r, o + Sites(l), q, K[q]);
      assert forall q: Role :: Tracks(t, o, c, q, K[q], locals[q].selected) ==>
          && Tracks(l, o, LeftBase(op, c), q, K[q], locals[q].selected)
          && Tracks(r, o + Sites(l), LeftBase(op, c) + Routes(l), q, K[q], locals[q].selected);
      if op.Route? && x == c {
        assert Tracks(t, o, c, p, K[p], locals[p].selected);
        assert Tracks(t, o, c, Leader(l), K[Leader(l)], locals[Leader(l)].selected);
        assert Legal(t, o, Leader(l), K[Leader(l)]);
      } else if x < LeftBase(op, c) + Routes(l) {
        ChooserSelected(l, o, LeftBase(op, c), K, locals, p, x);
      } else {
        ChooserSelected(r, o + Sites(l), LeftBase(op, c) + Routes(l), K, locals, p, x);
      }
    case Resolve(i, _) =>
      assert forall q: Role :: Legal(t, o, q, K[q]) ==> Legal(i, o, q, K[q]);
      assert forall q: Role :: Tracks(t, o, c, q, K[q], locals[q].selected) ==> Tracks(i, o, c, q, K[q], locals[q].selected);
      ChooserSelected(i, o, c, K, locals, p, x);
    case Send(_, _, _) =>
  }

  /** Branch agreement: in every reachable state of the session, whatever arm a
      role has selected, the chooser of that route selected it too; so no two
      roles are ever in different arms of one route. */
  lemma {:induction false} BranchAgreement(t: Term, moves: seq<Move>, sys: System, p: Role, q: Role, x: nat)
    requires KnowsChoice(t) && Reaches(t, moves, sys) && x < Routes(t)
    ensures |sys.locals[p].selected| == |sys.locals[q].selected| == Routes(t)
    ensures sys.locals[p].selected[x].Some? ==>
      |sys.locals[Chooser(t, 0, x)].selected| == Routes(t) && sys.locals[Chooser(t, 0, x)].selected[x] == sys.locals[p].selected[x]
    ensures sys.locals[p].selected[x].Some? && sys.locals[q].selected[x].Some? ==>
      sys.locals[p].selected[x] == sys.locals[q].selected[x]
  {
    StartsGood(t);
    var K := ReachableGood(t, Start(t), BLANK, moves);
    assert InStep(t, p, sys.locals[p], K[p]) && InStep(t, q, sys.locals[q], K[q]);
    assert InStep(t, Chooser(t, 0, x), sys.locals[Chooser(t, 0, x)], K[Chooser(t, 0, x)]);
    if sys.locals[p].selected[x].Some? { ChooserSelected(t, 0, 0, K, sys.locals, p, x); }
    if sys.locals[q].selected[x].Some? { ChooserSelected(t, 0, 0, K, sys.locals, q, x); }
  }

  // -------------------------------------------------------- deadlock freedom

  /** Every event of the role is done or lies in a discarded arm. */
  predicate RoleDone(t: Term, p: Role, st: LocalState) {
    forall id :: 0 <= id < |Compile(t, p).events| ==> Settled(Compile(t, p).events, st, id)
  }

  lemma {:induction false} FinishedOpposed(t: Term, o: nat, c: nat, p: Role, D: set<nat>, selected: seq<Option<nat>>, s: nat)
    requires Legal(t, o, p, D) && Tracks(t, o, c, p, D, selected) && Finished(t, o, p, D)
    requires Within(t, o, s) && Involves(Leaf(t, o, s), p) && s !in D
    ensures exists m :: m in Memberships(t, o, c, s) && Opposes(m, selected)
  {
    match t
    case Send(_, _, _) =>
    case Join(op, l, r) =>
      var m, cl := o + Sites(l), LeftBase(op, c);
      var here := Membership(c, if s < m then 0 else 1);
      if op.Route? { assert here in Memberships(t, o, c, s); }
      if op.Route? && (if s < m then Started(r, m, p, D) else Started(l, o, p, D)) {
        assert Opposes(here, selected);
      } else if s < m {
        FinishedOpposed(l, o, cl, p, D, selected, s);
      } else {
        FinishedOpposed(r, m, cl + Routes(l), p, D, selected, s);
      }
    case Resolve(i, _) => FinishedOpposed(i, o, c, p, D, selected, s);
  }

  /** Finishing the choreography and having no open event are the same. */
  lemma {:induction false} FinishedIsDone(t: Term, p: Role, st: LocalState, D: set<nat>)
    requires InStep(t, p, st, D)
    ensures Finished(t, 0, p, D) <==> RoleDone(t, p, st)
  {
    var es := Compile(t, p).events;
    if Finished(t, 0, p, D) {
      forall id | 0 <= id < |es| ensures Settled(es, st, id) {
        CompiledEvent(t, p, id);
        if !st.done[id] { FinishedOpposed(t, 0, 0, p, D, st.selected, es[id].site); }
      }
    } else {
      var s := UnfinishedMay(t, 0, p, D);
      MayWithin(t, 0, p, D, s);
      var id := EventAt(t, p, s);
      EnabledIffTaken(t, p, st, D, id);
      assert !Settled(es, st, id);
    }
  }

  /** Deadlock freedom: in every reachable state either every role is done or
      some role has an enabled send, local step, or receive whose frame is in
      flight. */
  lemma {:induction false} DeadlockFreedom(t: Term, moves: seq<Move>, sys: System)
    requires KnowsChoice(t) && Reaches(t, moves, sys)
    ensures (forall p: Role :: RoleDone(t, p, sys.locals[p])) || (exists mv :: CanMove(t, sys, mv))
  {
    StartsGood(t);
    var K := ReachableGood(t, Start(t), BLANK, moves);
    if p: Role :| !RoleDone(t, p, sys.locals[p]) {
      FinishedIsDone(t, p, sys.locals[p], K[p]);
      assert AllLegal(t, 0, K);
      var q, s := SomeoneReady(t, 0, K, p);
      MayWithin(t, 0, q, K[q], s);
      var id := EventAt(t, q, s);
      MoveIsReady(t, sys, K, Move(q, id));
      assert CanMove(t, sys, Move(q, id));
    }
  }

  // ----------------------------------------------------------- complete runs

  /** A site is on the path of both its roles or of neither. */
  lemma {:induction false} PathShared(t: Term, o: nat, c: nat, p: Role, q: Role, R: set<nat>, s: nat)
    requires s in Path(t, o, c, p, R)
    ensures Within(t, o, s) && (Involves(Leaf(t, o, s), q) ==> s in Path(t, o, c, q, R))
  {
    match t
    case Send(_, _, _) =>
    case Join(op, l, r) =>
      var m, cl := o + Sites(l), LeftBase(op, c);
      if s in Path(l, o, cl, p, R) && (op.Route? ==> c !in R) { PathShared(l, o, cl, p, q, R, s); }
      else { PathShared(r, m, cl + Routes(l), p, q, R, s); }
    case Resolve(i, _) => PathShared(i, o, c, p, q, R, s);
  }

  /** The conflicts whose chooser took the right arm. */
  ghost function RightArms(t: Term, sys: System): set<nat> {
    set c | 0 <= c < Routes(t) && c < |sys.locals[Chooser(t, 0, c)].selected| && sys.locals[Chooser(t, 0, c)].selected[c] == Some(1)
  }

  lemma {:induction false} RoleOnPath(t: Term, moves: seq<Move>, sys: System, K: Board, p: Role)
    requires KnowsChoice(t) && Reaches(t, moves, sys) && Good(t, sys, K)
    requires RoleDone(t, p, sys.locals[p])
    ensures K[p] == Path(t, 0, 0, p, RightArms(t, sys))
  {
    var R, st := RightArms(t, sys), sys.locals[p];
    assert InStep(t, p, st, K[p]);
    forall x | 0 <= x < |st.selected| && st.selected[x].Some?
      ensures x in R <==> st.selected[x].value == 1
    {
      BranchAgreement(t, moves, sys, p, p, x);
    }
    ChosenFromSelected(t, 0, 0, p, K[p], st.selected, R);
    FinishedIsDone(t, p, st, K[p]);
    FinishedIsPath(t, 0, 0, p, K[p], R);
    ActedIs(t, 0, p, K[p]);
    LocalSitesAre(t, p, 0);
  }

  /** A session that cannot move has finished: all roles followed one resolved
      path, each committing exactly its events on that path, and no frame is
      left in flight. */
  lemma {:induction false} StuckSessionIsComplete(t: Term, moves: seq<Move>, sys: System) returns (R: set<nat>)
    requires KnowsChoice(t) && Reaches(t, moves, sys)
    requires forall mv :: !CanMove(t, sys, mv)
    ensures sys.flight == multiset{}
    ensures forall p: Role, id: nat :: id < |Compile(t, p).events| ==>
      && id < |sys.locals[p].done|
      && (sys.locals[p].done[id] <==> Compile(t, p).events[id].site in Path(t, 0, 0, p, R))
  {
    hide Project;
    DeadlockFreedom(t, moves, sys);
    StartsGood(t);
    var K := ReachableGood(t, Start(t), BLANK, moves);
    R := RightArms(t, sys);
    forall p: Role ensures K[p] == Path(t, 0, 0, p, R) { RoleOnPath(t, moves, sys, K, p); }
    forall p: Role, id: nat | id < |Compile(t, p).events|
      ensures id < |sys.locals[p].done|
      ensures sys.locals[p].done[id] <==> Compile(t, p).events[id].site in Path(t, 0, 0, p, R)
    {
      assert InStep(t, p, sys.locals[p], K[p]);
    }
    forall s: nat ensures sys.flight[s] == 0 {
      assert sys.flight[s] == if InFlight(t, K, s) then 1 else 0;
      if InFlight(t, K, s) { PathShared(t, 0, 0, Leaf(t, 0, s).from, Leaf(t, 0, s).to, R, s); }
    }
  }

  function TotalPending(locals: seq<LocalState>): nat {
    if locals == [] then 0 else Pending(locals[0].done) + TotalPending(locals[1..])
  }

  lemma {:induction false} TotalPendingDrops(locals: seq<LocalState>, p: nat, id: nat, selected: seq<Option<nat>>)
    requires p < |locals| && id < |locals[p].done| && !locals[p].done[id]
    ensures TotalPending(locals[p := LocalState(locals[p].done[id := true], selected)]) == TotalPending(locals) - 1
  {
    var next := LocalState(locals[p].done[id := true], selected);
    if p == 0 {
      PendingDrops(locals[0].done, id);
    } else {
      TotalPendingDrops(locals[1..], p - 1, id, selected);
      assert locals[p := next][1..] == locals[1..][p - 1 := next];
    }
  }

  /** Every run of the session terminates: it has at most as many moves as the
      local programs have events. With `StuckSessionIsComplete`, every session
      that keeps moving completes. */
  lemma {:induction false} SessionTerminates(t: Term, sys: System, moves: seq<Move>)
    requires Play(t, sys, moves).Some?
    ensures |moves| + TotalPending(Play(t, sys, moves).value.locals) == TotalPending(sys.locals)
    decreases |moves|
  {
    if moves != [] {
      var mv := moves[0];
      var e := Compile(t, mv.role).events[mv.id];
      TotalPendingDrops(sys.locals, mv.role, e.id, Commit(sys.locals[mv.role], e).selected);
      SessionTerminates(t, Moved(t, sys, mv), moves[1..]);
    }
  }
}
