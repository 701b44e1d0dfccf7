/** Projection preserves meaning: the dependency and conflict graph that
    `Project` builds admits exactly the steps of the residual choreography. */
module Projection {
  import opened Choreography
  import opened Progress
  import opened EventProgram

  /** The sites at which a role acts, left to right. */
  function LocalSites(t: Term, p: Role, o: nat): seq<nat> {
    match t
    case Send(_, _, _) => if Involves(t, p) then [o] else []
    case Join(_, l, r) => LocalSites(l, p, o) + LocalSites(r, p, o + Sites(l))
    case Resolve(i, _) => LocalSites(i, p, o)
  }

  lemma {:induction false} LocalSitesAre(t: Term, p: Role, o: nat)
    ensures forall s :: s in LocalSites(t, p, o) <==> Within(t, o, s) && Involves(Leaf(t, o, s), p)
    ensures forall i, j :: 0 <= i < j < |LocalSites(t, p, o)| ==> LocalSites(t, p, o)[i] < LocalSites(t, p, o)[j]
  {
    match t
    case Send(_, _, _) =>
    case Join(_, l, r) =>
      LocalSitesAre(l, p, o);
      LocalSitesAre(r, p, o + Sites(l));
      var a, b := LocalSites(l, p, o), LocalSites(r, p, o + Sites(l));
      forall i, j | 0 <= i < j < |a + b| ensures (a + b)[i] < (a + b)[j] {
        assert i < |a| ==> a[i] in a;
        assert j >= |a| ==> b[j - |a|] in b;
      }
    case Resolve(i, _) => LocalSitesAre(i, p, o);
  }

  function LeftBase(op: Op, c: nat): nat { if op.Route? then c + 1 else c }

  /** The route memberships of a site inside `t`, outermost first, when the first
      conflict of `t` is `c`. */
  function Memberships(t: Term, o: nat, c: nat, s: nat): seq<Membership>
    requires Within(t, o, s)
  {
    match t
    case Send(_, _, _) => []
    case Join(op, l, r) =>
      var left := s < o + Sites(l);
      var inner := if left then Memberships(l, o, LeftBase(op, c), s)
                   else Memberships(r, o + Sites(l), LeftBase(op, c) + Routes(l), s);
      Own(op, c, if left then 0 else 1) + inner
    case Resolve(i, _) => Memberships(i, o, c, s)
  }

  lemma LeafJoin(op: Op, l: Term, r: Term, o: nat, s: nat)
    requires Within(Join(op, l, r), o, s)
    ensures Leaf(Join(op, l, r), o, s) == if s < o + Sites(l) then Leaf(l, o, s) else Leaf(r, o + Sites(l), s)
  {
  }

  lemma MembershipsJoin(op: Op, l: Term, r: Term, o: nat, c: nat, s: nat)
    requires Within(Join(op, l, r), o, s)
    ensures var left, cl := s < o + Sites(l), LeftBase(op, c);
      var inner := if left then Memberships(l, o, cl, s) else Memberships(r, o + Sites(l), cl + Routes(l), s);
      Memberships(Join(op, l, r), o, c, s) == Own(op, c, if left then 0 else 1) + inner
  {
    hide Own;
  }

  lemma {:induction false} MembershipsBounded(t: Term, o: nat, c: nat, s: nat)
    requires Within(t, o, s)
    ensures forall m :: m in Memberships(t, o, c, s) ==> c <= m.conflict < c + Routes(t)
  {
    match t
    case Send(_, _, _) =>
    case Join(op, l, r) =>
      MembershipsJoin(op, l, r, o, c, s);
      hide Memberships;
      if s < o + Sites(l) { MembershipsBounded(l, o, LeftBase(op, c), s); }
      else { MembershipsBounded(r, o + Sites(l), LeftBase(op, c) + Routes(l), s); }
    case Resolve(i, _) => MembershipsBounded(i, o, c, s);
  }

  predicate ContextOk(b: Image, ctx: Context) {
    forall d :: d in ctx.incoming ==> d < |b.events|
  }

  /** An event that `Project` added for `t`. */
  predicate Added(e: Event, id: nat, t: Term, p: Role, c: nat, ctx: Context, o: nat) {
    && e.id == id
    && Within(t, o, e.site)
    && Involves(Leaf(t, o, e.site), p)
    && e.action == ActionOf(Leaf(t, o, e.site), p)
    && e.conflicts == ctx.conflicts + Memberships(t, o, c, e.site)
    && forall d :: d in e.deps ==> d < id
  }

  lemma ProjectJoin(op: Op, l: Term, r: Term, p: Role, b: Image, ctx: Context, o: nat)
    ensures var (b1, le) := Project(l, p, Open(op, b), LeftContext(op, b, ctx), o);
      var (b2, re) := Project(r, p, b1, RightContext(op, b, ctx, le), o + Sites(l));
      Project(Join(op, l, r), p, b, ctx, o) == (b2, if op.Seq? then re else Unique(le + re))
  {
    hide Open;
    hide LeftContext;
    hide RightContext;
    hide Unique;
  }

  /** Projection only appends, one event per local site. */
  lemma {:induction false} Grows(t: Term, p: Role, b: Image, ctx: Context, o: nat)
    requires ContextOk(b, ctx)
    ensures var (b', ex) := Project(t, p, b, ctx, o);
      && b.events <= b'.events
      && b'.nextLane == b.nextLane + 2 * Forks(t)
      && b'.nextConflict == b.nextConflict + Routes(t)
      && |b'.events| == |b.events| + |LocalSites(t, p, o)|
      && ContextOk(b', ctx.(incoming := ex))
      && (forall d :: d in ex ==> d in ctx.incoming || |b.events| <= d)
  {
    match t
    case Send(_, _, _) =>
    case Join(op, l, r) =>
      ProjectJoin(op, l, r, p, b, ctx, o);
      hide Project;
      Grows(l, p, Open(op, b), LeftContext(op, b, ctx), o);
      var (b1, le) := Project(l, p, Open(op, b), LeftContext(op, b, ctx), o);
      Grows(r, p, b1, RightContext(op, b, ctx, le), o + Sites(l));
    case Resolve(i, _) => Grows(i, p, b, ctx, o);
  }

  /** Every appended event carries its site, action and route memberships. */
  lemma {:induction false} Shape(t: Term, p: Role, b: Image, ctx: Context, o: nat, id: nat)
    requires ContextOk(b, ctx)
    requires |b.events| <= id < |Project(t, p, b, ctx, o).0.events|
    ensures Added(Project(t, p, b, ctx, o).0.events[id], id, t, p, b.nextConflict, ctx, o)
    decreases t, 1
  {
    match t
    case Send(_, _, _) =>
    case Join(op, l, r) => ShapeInJoin(op, l, r, p, b, ctx, o, id);
    case Resolve(i, _) => Shape(i, p, b, ctx, o, id);
  }

  lemma {:induction false} ShapeInJoin(op: Op, l: Term, r: Term, p: Role, b: Image, ctx: Context, o: nat, id: nat)
    requires ContextOk(b, ctx)
    requires |b.events| <= id < |Project(Join(op, l, r), p, b, ctx, o).0.events|
    ensures Added(Project(Join(op, l, r), p, b, ctx, o).0.events[id], id, Join(op, l, r), p, b.nextConflict, ctx, o)
    decreases Join(op, l, r), 0
  {
    hide Project;
    hide Added;
    hide Unique;
    ProjectJoin(op, l, r, p, b, ctx, o);
    var lc := LeftContext(op, b, ctx);
    Grows(l, p, Open(op, b), lc, o);
    var (b1, le) := Project(l, p, Open(op, b), lc, o);
    var rc := RightContext(op, b, ctx, le);
    Grows(r, p, b1, rc, o + Sites(l));
    var b2 := Project(r, p, b1, rc, o + Sites(l)).0;
    if id < |b1.events| {
      Shape(l, p, Open(op, b), lc, o, id);
      AddedIn(b1.events[id], id, op, l, r, true, p, b, ctx, le, o);
    } else {
      Shape(r, p, b1, rc, o + Sites(l), id);
      AddedIn(b2.events[id], id, op, l, r, false, p, b, ctx, le, o);
    }
  }

  lemma {:induction false} AddedIn(e: Event, id: nat, op: Op, l: Term, r: Term, left: bool, p: Role, b: Image, ctx: Context, le: seq<nat>, o: nat)
    requires left ==> Added(e, id, l, p, LeftBase(op, b.nextConflict), LeftContext(op, b, ctx), o)
    requires !left ==> Added(e, id, r, p, LeftBase(op, b.nextConflict) + Routes(l), RightContext(op, b, ctx, le), o + Sites(l))
    ensures Added(e, id, Join(op, l, r), p, b.nextConflict, ctx, o)
  {
    hide Memberships;
    hide Leaf;
    hide Involves;
    hide ActionOf;
    hide Own;
    var c := b.nextConflict;
    LeafJoin(op, l, r, o, e.site);
    MembershipsJoin(op, l, r, o, c, e.site);
    var own := Own(op, c, if left then 0 else 1);
    var inner := if left then Memberships(l, o, LeftBase(op, c), e.site)
                 else Memberships(r, o + Sites(l), LeftBase(op, c) + Routes(l), e.site);
    Regroup(ctx.conflicts, own, inner);
  }

  lemma Regroup<T>(a: seq<T>, b: seq<T>, c: seq<T>)
    ensures a + (b + c) == a + b + c
  {
  }

  // ----------------------------------------------------- states and done sets

  /** The selected arms are those the role has entered. */
  predicate Tracks(t: Term, o: nat, c: nat, p: Role, D: set<nat>, selected: seq<Option<nat>>) {
    match t
    case Send(_, _, _) => true
    case Join(op, l, r) =>
      var m := o + Sites(l);
      && Tracks(l, o, LeftBase(op, c), p, D, selected)
      && Tracks(r, m, LeftBase(op, c) + Routes(l), p, D, selected)
      && (op.Route? ==>
            && c < |selected|
            && selected[c] == if Started(l, o, p, D) then Some(0)
                              else if Started(r, m, p, D) then Some(1) else None)
    case Resolve(i, _) => Tracks(i, o, c, p, D, selected)
  }

  predicate Live(ctx: Context, st: LocalState) {
    forall m :: m in ctx.conflicts ==> !Opposes(m, st.selected)
  }

  /** The program `es` contains the projection of `t`. */
  ghost predicate Holds(t: Term, p: Role, b: Image, ctx: Context, o: nat, es: seq<Event>) {
    ContextOk(b, ctx) && Project(t, p, b, ctx, o).0.events <= es
  }

  /** The events `lo..hi` of `es` belong to `t`, and `st` and `D` record the same
      progress through it. */
  ghost predicate Simulates(t: Term, p: Role, c: nat, incoming: seq<nat>, o: nat, lo: nat, hi: nat, es: seq<Event>, st: LocalState, D: set<nat>) {
    && lo <= hi <= |es| == |st.done|
    && (forall id :: lo <= id < hi ==> st.done[id] == (es[id].site in D))
    && Tracks(t, o, c, p, D, st.selected)
    && Legal(t, o, p, D)
    && (Started(t, o, p, D) ==> AllSettled(es, st, incoming))
  }

  /** Inside a discarded arm everything is excluded. */
  lemma {:induction false} Discarded(t: Term, p: Role, b: Image, ctx: Context, o: nat, es: seq<Event>, st: LocalState)
    requires Holds(t, p, b, ctx, o, es) && |st.done| == |es|
    requires !Live(ctx, st)
    ensures forall id :: |b.events| <= id < |Project(t, p, b, ctx, o).0.events| ==> Excluded(es[id], st.selected)
    ensures AllSettled(es, st, ctx.incoming) ==> AllSettled(es, st, Project(t, p, b, ctx, o).1)
  {
    Grows(t, p, b, ctx, o);
    var m :| m in ctx.conflicts && Opposes(m, st.selected);
    forall id | |b.events| <= id < |Project(t, p, b, ctx, o).0.events|
      ensures Excluded(es[id], st.selected)
    {
      Shape(t, p, b, ctx, o, id);
      assert m in es[id].conflicts;
    }
  }

  /** The pieces of a join's projection. */
  lemma {:induction false} JoinPieces(op: Op, l: Term, r: Term, p: Role, b: Image, ctx: Context, o: nat, es: seq<Event>)
    returns (b1: Image, b2: Image, le: seq<nat>, re: seq<nat>)
    requires Holds(Join(op, l, r), p, b, ctx, o, es)
    ensures Project(l, p, Open(op, b), LeftContext(op, b, ctx), o) == (b1, le)
    ensures Project(r, p, b1, RightContext(op, b, ctx, le), o + Sites(l)) == (b2, re)
    ensures Project(Join(op, l, r), p, b, ctx, o) == (b2, if op.Seq? then re else Unique(le + re))
    ensures Holds(l, p, Open(op, b), LeftContext(op, b, ctx), o, es)
    ensures Holds(r, p, b1, RightContext(op, b, ctx, le), o + Sites(l), es)
    ensures b1.nextConflict == LeftBase(op, b.nextConflict) + Routes(l)
    ensures |b.events| <= |b1.events| <= |b2.events| <= |es|
  {
    ProjectJoin(op, l, r, p, b, ctx, o);
    hide Project;
    hide Unique;
    var lc := LeftContext(op, b, ctx);
    Grows(l, p, Open(op, b), lc, o);
    b1, le := Project(l, p, Open(op, b), lc, o).0, Project(l, p, Open(op, b), lc, o).1;
    var rc := RightContext(op, b, ctx, le);
    Grows(r, p, b1, rc, o + Sites(l));
    b2, re := Project(r, p, b1, rc, o + Sites(l)).0, Project(r, p, b1, rc, o + Sites(l)).1;
  }

  /** The events of a subterm lie at the role's sites, in order. */
  lemma {:induction false} SitesInOrder(t: Term, p: Role, b: Image, ctx: Context, o: nat, es: seq<Event>, id: nat)
    requires Holds(t, p, b, ctx, o, es)
    requires |b.events| <= id < |Project(t, p, b, ctx, o).0.events|
    ensures id < |es| && id - |b.events| < |LocalSites(t, p, o)| && es[id].site == LocalSites(t, p, o)[id - |b.events|]
    decreases t, 1
  {
    match t
    case Send(_, _, _) => assert es[id] == Project(t, p, b, ctx, o).0.events[id];
    case Join(op, l, r) => SitesInJoin(op, l, r, p, b, ctx, o, es, id);
    case Resolve(i, _) => SitesInOrder(i, p, b, ctx, o, es, id);
  }

  lemma {:induction false} SitesInJoin(op: Op, l: Term, r: Term, p: Role, b: Image, ctx: Context, o: nat, es: seq<Event>, id: nat)
    requires Holds(Join(op, l, r), p, b, ctx, o, es)
    requires |b.events| <= id < |Project(Join(op, l, r), p, b, ctx, o).0.events|
    ensures var sites := LocalSites(Join(op, l, r), p, o);
      id < |es| && id - |b.events| < |sites| && es[id].site == sites[id - |b.events|]
    decreases Join(op, l, r), 0
  {
    hide LocalSites;
    hide Project;
    hide Unique;
    LocalSitesJoin(op, l, r, p, o);
    var b1, b2, le, re := JoinPieces(op, l, r, p, b, ctx, o, es);
    EventCount(l, p, Open(op, b), LeftContext(op, b, ctx), o, es);
    hide Holds;
    hide Open;
    OpenKeeps(op, b);
    hide LeftContext;
    hide RightContext;
    if id < |b1.events| { SitesInOrder(l, p, Open(op, b), LeftContext(op, b, ctx), o, es, id); }
    else { SitesInOrder(r, p, b1, RightContext(op, b, ctx, le), o + Sites(l), es, id); }
  }

  lemma OpenKeeps(op: Op, b: Image)
    ensures Open(op, b).events == b.events
  {
  }

  lemma LocalSitesJoin(op: Op, l: Term, r: Term, p: Role, o: nat)
    ensures var sl, sr, all := LocalSites(l, p, o), LocalSites(r, p, o + Sites(l)), LocalSites(Join(op, l, r), p, o);
      && |all| == |sl| + |sr|
      && (forall i :: 0 <= i < |sl| ==> all[i] == sl[i])
      && (forall i :: |sl| <= i < |all| ==> all[i] == sr[i - |sl|])
  {
  }

  lemma EventCount(t: Term, p: Role, b: Image, ctx: Context, o: nat, es: seq<Event>)
    requires Holds(t, p, b, ctx, o, es)
    ensures |Project(t, p, b, ctx, o).0.events| == |b.events| + |LocalSites(t, p, o)|
  {
    Grows(t, p, b, ctx, o);
  }

  lemma UnionSettled(es: seq<Event>, st: LocalState, a: seq<nat>, b: seq<nat>)
    ensures AllSettled(es, st, Unique(a + b)) <==> AllSettled(es, st, a) && AllSettled(es, st, b)
  {
    assert forall d :: d in Unique(a + b) <==> d in a + b;
    assert forall d :: d in a + b <==> d in a || d in b;
  }

  /** Which arms of a join are live. */
  lemma {:induction false} LiveArms(op: Op, l: Term, r: Term, p: Role, b: Image, ctx: Context, o: nat, st: LocalState, D: set<nat>, le: seq<nat>)
    requires Tracks(Join(op, l, r), o, b.nextConflict, p, D, st.selected) && Live(ctx, st)
    requires Legal(Join(op, l, r), o, p, D)
    ensures Live(LeftContext(op, b, ctx), st) <==> !(op.Route? && Started(r, o + Sites(l), p, D))
    ensures Live(RightContext(op, b, ctx, le), st) <==> !(op.Route? && Started(l, o, p, D))
  {
    if op.Route? {
      assert Membership(b.nextConflict, 0) in LeftContext(op, b, ctx).conflicts;
      assert Membership(b.nextConflict, 1) in RightContext(op, b, ctx, le).conflicts;
    }
  }

  /** `Simulates` for the parts of a join. */
  lemma {:induction false} SimulatesLeft(op: Op, l: Term, r: Term, p: Role, c: nat, incoming: seq<nat>, o: nat, lo: nat, mid: nat, hi: nat, es: seq<Event>, st: LocalState, D: set<nat>)
    requires lo <= mid <= hi && Simulates(Join(op, l, r), p, c, incoming, o, lo, hi, es, st, D)
    ensures Simulates(l, p, LeftBase(op, c), incoming, o, lo, mid, es, st, D)
  {
    hide AllSettled;
  }

  lemma {:induction false} SimulatesRight(op: Op, l: Term, r: Term, p: Role, c: nat, incoming: seq<nat>, le: seq<nat>, o: nat, lo: nat, mid: nat, hi: nat, es: seq<Event>, st: LocalState, D: set<nat>)
    requires lo <= mid <= hi && Simulates(Join(op, l, r), p, c, incoming, o, lo, hi, es, st, D)
    requires op.Seq? ==> (AllSettled(es, st, le) <==> AllSettled(es, st, incoming) && Finished(l, o, p, D))
    ensures Simulates(r, p, LeftBase(op, c) + Routes(l), if op.Seq? then le else incoming, o + Sites(l), mid, hi, es, st, D)
  {
    hide AllSettled;
  }

  lemma {:induction false} SimulatesLegal(t: Term, p: Role, c: nat, incoming: seq<nat>, o: nat, lo: nat, hi: nat, es: seq<Event>, st: LocalState, D: set<nat>)
    requires Simulates(t, p, c, incoming, o, lo, hi, es, st, D)
    ensures |es| == |st.done| && Tracks(t, o, c, p, D, st.selected) && Legal(t, o, p, D)
  {
    hide AllSettled;
  }

  /** The exits of a live subterm are settled exactly when its entry is settled
      and the role has finished it. */
  lemma {:induction false} ExitsFaithful(t: Term, p: Role, b: Image, ctx: Context, o: nat, es: seq<Event>, st: LocalState, D: set<nat>)
    requires Holds(t, p, b, ctx, o, es) && Live(ctx, st)
    requires Simulates(t, p, b.nextConflict, ctx.incoming, o, |b.events|, |Project(t, p, b, ctx, o).0.events|, es, st, D)
    ensures AllSettled(es, st, Project(t, p, b, ctx, o).1) <==>
              AllSettled(es, st, ctx.incoming) && Finished(t, o, p, D)
    decreases t, 1
  {
    match t
    case Send(_, _, _) =>
      if Involves(t, p) {
        var e := Project(t, p, b, ctx, o).0.events[|b.events|];
        assert es[|b.events|] == e;
        assert !Excluded(e, st.selected);
        assert |b.events| in Project(t, p, b, ctx, o).1;
      }
    case Join(op, l, r) => ExitsOfJoin(op, l, r, p, b, ctx, o, es, st, D);
    case Resolve(i, _) => ExitsFaithful(i, p, b, ctx, o, es, st, D);
  }

  lemma {:induction false} ExitsOfJoin(op: Op, l: Term, r: Term, p: Role, b: Image, ctx: Context, o: nat, es: seq<Event>, st: LocalState, D: set<nat>)
    requires Holds(Join(op, l, r), p, b, ctx, o, es) && Live(ctx, st)
    requires Simulates(Join(op, l, r), p, b.nextConflict, ctx.incoming, o, |b.events|, |Project(Join(op, l, r), p, b, ctx, o).0.events|, es, st, D)
    ensures AllSettled(es, st, Project(Join(op, l, r), p, b, ctx, o).1) <==>
              AllSettled(es, st, ctx.incoming) && Finished(Join(op, l, r), o, p, D)
    decreases Join(op, l, r), 0
  {
    var c, m := b.nextConflict, o + Sites(l);
    JoinUnfolds(op, l, r, o, p, D);
    hide Project;
    hide Started;
    hide Finished;
    hide Legal;
    hide Tracks;
    hide AllSettled;
    hide Simulates;
    hide Holds;
    hide Live;
    hide Unique;
    var b1, b2, le, re := JoinPieces(op, l, r, p, b, ctx, o, es);
    SimulatesLegal(Join(op, l, r), p, c, ctx.incoming, o, |b.events|, |b2.events|, es, st, D);
    var lc, rc := LeftContext(op, b, ctx), RightContext(op, b, ctx, le);
    LiveArms(op, l, r, p, b, ctx, o, st, D, le);
    if Live(lc, st) {
      SimulatesLeft(op, l, r, p, c, ctx.incoming, o, |b.events|, |b1.events|, |b2.events|, es, st, D);
      ExitsFaithful(l, p, Open(op, b), lc, o, es, st, D);
    } else { Discarded(l, p, Open(op, b), lc, o, es, st); }
    if Live(rc, st) {
      SimulatesRight(op, l, r, p, c, ctx.incoming, le, o, |b.events|, |b1.events|, |b2.events|, es, st, D);
      ExitsFaithful(r, p, b1, rc, m, es, st, D);
    } else { Discarded(r, p, b1, rc, m, es, st); }
    UnionSettled(es, st, le, re);
  }

  /** An event of a live subterm is enabled exactly when the entry of the subterm
      is settled and the role may act at its site. */
  lemma {:induction false} EnabledFaithful(t: Term, p: Role, b: Image, ctx: Context, o: nat, es: seq<Event>, st: LocalState, D: set<nat>, id: nat)
    requires Holds(t, p, b, ctx, o, es) && Live(ctx, st)
    requires Simulates(t, p, b.nextConflict, ctx.incoming, o, |b.events|, |Project(t, p, b, ctx, o).0.events|, es, st, D)
    requires |b.events| <= id < |Project(t, p, b, ctx, o).0.events|
    ensures id < |es| && (Enabled(es, st, es[id]) <==> AllSettled(es, st, ctx.incoming) && May(t, o, p, D, es[id].site))
    decreases t, 1
  {
    match t
    case Send(_, _, _) =>
      assert es[id] == Project(t, p, b, ctx, o).0.events[id];
      assert AllSettled(es, st, Unique(ctx.incoming)) <==> AllSettled(es, st, ctx.incoming);
    case Join(op, l, r) => EnabledInJoin(op, l, r, p, b, ctx, o, es, st, D, id);
    case Resolve(i, _) => EnabledFaithful(i, p, b, ctx, o, es, st, D, id);
  }

  lemma {:induction false} EnabledInJoin(op: Op, l: Term, r: Term, p: Role, b: Image, ctx: Context, o: nat, es: seq<Event>, st: LocalState, D: set<nat>, id: nat)
    requires Holds(Join(op, l, r), p, b, ctx, o, es) && Live(ctx, st)
    requires Simulates(Join(op, l, r), p, b.nextConflict, ctx.incoming, o, |b.events|, |Project(Join(op, l, r), p, b, ctx, o).0.events|, es, st, D)
    requires |b.events| <= id < |Project(Join(op, l, r), p, b, ctx, o).0.events|
    ensures id < |es| && (Enabled(es, st, es[id]) <==> AllSettled(es, st, ctx.incoming) && May(Join(op, l, r), o, p, D, es[id].site))
    decreases Join(op, l, r), 0
  {
    var c, m := b.nextConflict, o + Sites(l);
    hide Project;
    hide AllSettled;
    hide Simulates;
    hide Holds;
    hide Live;
    hide Unique;
    var b1, b2, le, re := JoinPieces(op, l, r, p, b, ctx, o, es);
    JoinUnfolds(op, l, r, o, p, D);
    MayUnfolds(op, l, r, o, p, D, es[id].site);
    hide Started;
    hide Finished;
    hide Legal;
    hide Tracks;
    hide May;
    SimulatesLegal(Join(op, l, r), p, c, ctx.incoming, o, |b.events|, |b2.events|, es, st, D);
    var lc, rc := LeftContext(op, b, ctx), RightContext(op, b, ctx, le);
    LiveArms(op, l, r, p, b, ctx, o, st, D, le);
    SimulatesLeft(op, l, r, p, c, ctx.incoming, o, |b.events|, |b1.events|, |b2.events|, es, st, D);
    if id < |b1.events| {
      SiteOf(l, p, Open(op, b), lc, o, es, id);
      if Live(lc, st) { EnabledFaithful(l, p, Open(op, b), lc, o, es, st, D, id); }
      else { Discarded(l, p, Open(op, b), lc, o, es, st); }
    } else {
      SiteOf(r, p, b1, rc, m, es, id);
      if op.Seq? { ExitsFaithful(l, p, Open(op, b), lc, o, es, st, D); }
      if Live(rc, st) {
        SimulatesRight(op, l, r, p, c, ctx.incoming, le, o, |b.events|, |b1.events|, |b2.events|, es, st, D);
        EnabledFaithful(r, p, b1, rc, m, es, st, D, id);
      } else { Discarded(r, p, b1, rc, m, es, st); }
    }
  }

  lemma {:induction false} SiteOf(t: Term, p: Role, b: Image, ctx: Context, o: nat, es: seq<Event>, id: nat)
    requires Holds(t, p, b, ctx, o, es)
    requires |b.events| <= id < |Project(t, p, b, ctx, o).0.events|
    ensures id < |es| && Within(t, o, es[id].site)
  {
    Shape(t, p, b, ctx, o, id);
    assert es[id] == Project(t, p, b, ctx, o).0.events[id];
  }

  // ----------------------------------------------------------------- commits

  /** The first arm that a membership list names for conflict `x`. */
  function ArmIn(ms: seq<Membership>, x: nat): Option<nat> {
    if ms == [] then None
    else
      var prior, last := ArmIn(ms[..|ms| - 1], x), ms[|ms| - 1];
      if prior.Some? || last.conflict != x then prior else Some(last.arm)
  }

  lemma {:induction false} ArmInCons(m: Membership, ms: seq<Membership>, x: nat)
    ensures ArmIn([m] + ms, x) == if m.conflict == x then Some(m.arm) else ArmIn(ms, x)
  {
    if ms == [] {
      assert [m] + ms == [m] && [m][..0] == [];
      assert ArmIn([], x) == None;
    } else {
      ArmInCons(m, ms[..|ms| - 1], x);
      assert ([m] + ms)[..|ms|] == [m] + ms[..|ms| - 1];
    }
  }

  lemma {:induction false} ArmInIs(ms: seq<Membership>, x: nat)
    ensures ArmIn(ms, x).Some? ==> Membership(x, ArmIn(ms, x).value) in ms
    ensures ArmIn(ms, x).None? ==> forall m :: m in ms ==> m.conflict != x
  {
    if ms != [] {
      ArmInIs(ms[..|ms| - 1], x);
      assert ms == ms[..|ms| - 1] + [ms[|ms| - 1]];
    }
  }

  /** `after` is `before` with the memberships recorded where no arm was. */
  predicate Records(before: seq<Option<nat>>, after: seq<Option<nat>>, ms: seq<Membership>, lo: nat, hi: nat) {
    && |after| == |before|
    && hi <= |before|
    && forall x :: lo <= x < hi ==> after[x] == if before[x].Some? then before[x] else ArmIn(ms, x)
  }

  lemma {:induction false} SelectRecords(before: seq<Option<nat>>, ms: seq<Membership>)
    ensures Records(before, Select(before, ms), ms, 0, |before|)
  {
    if ms != [] { SelectRecords(before, ms[..|ms| - 1]); }
  }

  lemma {:induction false} MembershipsCoherent(t: Term, o: nat, c: nat, s: nat)
    requires Within(t, o, s)
    ensures Coherent(Memberships(t, o, c, s))
  {
    match t
    case Send(_, _, _) =>
    case Join(op, l, r) =>
      MembershipsJoin(op, l, r, o, c, s);
      hide Memberships;
      if s < o + Sites(l) {
        MembershipsCoherent(l, o, LeftBase(op, c), s);
        MembershipsBounded(l, o, LeftBase(op, c), s);
      } else {
        MembershipsCoherent(r, o + Sites(l), LeftBase(op, c) + Routes(l), s);
        MembershipsBounded(r, o + Sites(l), LeftBase(op, c) + Routes(l), s);
      }
    case Resolve(i, _) => MembershipsCoherent(i, o, c, s);
  }

  lemma {:induction false} TracksOutside(t: Term, o: nat, c: nat, p: Role, D: set<nat>, s: nat, before: seq<Option<nat>>, after: seq<Option<nat>>)
    requires Tracks(t, o, c, p, D, before) && !Within(t, o, s)
    requires |before| == |after| && forall x :: c <= x < c + Routes(t) && x < |before| ==> before[x] == after[x]
    ensures Tracks(t, o, c, p, D + {s}, after)
  {
    match t
    case Send(_, _, _) =>
    case Join(op, l, r) =>
      Outside(l, o, p, D, s);
      Outside(r, o + Sites(l), p, D, s);
      TracksOutside(l, o, LeftBase(op, c), p, D, s, before, after);
      TracksOutside(r, o + Sites(l), LeftBase(op, c) + Routes(l), p, D, s, before, after);
    case Resolve(i, _) => TracksOutside(i, o, c, p, D, s, before, after);
  }

  lemma TracksUnfolds(op: Op, l: Term, r: Term, o: nat, c: nat, p: Role, D: set<nat>, selected: seq<Option<nat>>)
    ensures var m := o + Sites(l);
      Tracks(Join(op, l, r), o, c, p, D, selected) <==>
        && Tracks(l, o, LeftBase(op, c), p, D, selected)
        && Tracks(r, m, LeftBase(op, c) + Routes(l), p, D, selected)
        && (op.Route? ==> c < |selected| && selected[c] == if Started(l, o, p, D) then Some(0) else if Started(r, m, p, D) then Some(1) else None)
  {
  }

  /** The first arm a site's memberships name, through a join. */
  lemma {:induction false} ArmOfJoin(op: Op, l: Term, r: Term, o: nat, c: nat, s: nat, x: nat)
    requires Within(Join(op, l, r), o, s)
    ensures var m, cl := o + Sites(l), LeftBase(op, c);
      ArmIn(Memberships(Join(op, l, r), o, c, s), x) ==
        if op.Route? && x == c then Some(if s < m then 0 else 1)
        else ArmIn(if s < m then Memberships(l, o, cl, s) else Memberships(r, m, cl + Routes(l), s), x)
  {
    hide ArmIn;
    hide Memberships;
    var m, cl := o + Sites(l), LeftBase(op, c);
    MembershipsJoin(op, l, r, o, c, s);
    ArmInOwn(op, c, if s < m then 0 else 1, if s < m then Memberships(l, o, cl, s) else Memberships(r, m, cl + Routes(l), s), x);
  }

  lemma {:induction false} ArmInOwn(op: Op, c: nat, arm: nat, ms: seq<Membership>, x: nat)
    ensures ArmIn(Own(op, c, arm) + ms, x) == if op.Route? && x == c then Some(arm) else ArmIn(ms, x)
  {
    hide ArmIn;
    if op.Route? { ArmInCons(Membership(c, arm), ms, x); } else { assert [] + ms == ms; }
  }

  lemma {:induction false} ArmOutside(t: Term, o: nat, c: nat, s: nat, x: nat)
    requires Within(t, o, s) && !(c <= x < c + Routes(t))
    ensures ArmIn(Memberships(t, o, c, s), x) == None
  {
    MembershipsBounded(t, o, c, s);
    ArmInIs(Memberships(t, o, c, s), x);
  }

  /** What `Records` says of a join, for the part that holds the site, the other
      part, and the join's own route. */
  lemma {:induction false} RecordsParts(op: Op, l: Term, r: Term, o: nat, c: nat, s: nat, before: seq<Option<nat>>, after: seq<Option<nat>>)
    requires Within(Join(op, l, r), o, s)
    requires Records(before, after, Memberships(Join(op, l, r), o, c, s), c, c + Routes(Join(op, l, r)))
    ensures var m, cl, arm := o + Sites(l), LeftBase(op, c), if s < o + Sites(l) then 0 else 1;
      var cr := cl + Routes(l);
      && (s < m ==> Records(before, after, Memberships(l, o, cl, s), cl, cr) && forall x :: cr <= x < cr + Routes(r) ==> after[x] == before[x])
      && (s >= m ==> Records(before, after, Memberships(r, m, cr, s), cr, cr + Routes(r)) && forall x :: cl <= x < cr ==> after[x] == before[x])
      && (op.Route? ==> after[c] == if before[c].Some? then before[c] else Some(arm))
  {
    hide ArmIn;
    hide Memberships;
    var m, cl := o + Sites(l), LeftBase(op, c);
    var cr := cl + Routes(l);
    forall x: nat | c <= x < cr + Routes(r)
      ensures after[x] == if before[x].Some? then before[x] else
        if op.Route? && x == c then Some(if s < m then 0 else 1)
        else ArmIn(if s < m then Memberships(l, o, cl, s) else Memberships(r, m, cr, s), x)
    {
      ArmOfJoin(op, l, r, o, c, s, x);
    }
    forall x: nat ensures s < m && x >= cr ==> ArmIn(Memberships(l, o, cl, s), x) == None {
      if s < m && x >= cr { ArmOutside(l, o, cl, s, x); }
    }
    forall x: nat ensures s >= m && x < cr ==> ArmIn(Memberships(r, m, cr, s), x) == None {
      if s >= m && x < cr { ArmOutside(r, m, cr, s, x); }
    }
  }

  /** Committing a site keeps the selected arms in step with the done set. */
  lemma {:induction false} TracksStep(t: Term, o: nat, c: nat, p: Role, D: set<nat>, s: nat, before: seq<Option<nat>>, after: seq<Option<nat>>)
    requires Tracks(t, o, c, p, D, before) && Legal(t, o, p, D) && May(t, o, p, D, s)
    requires Within(t, o, s) && Records(before, after, Memberships(t, o, c, s), c, c + Routes(t))
    ensures Tracks(t, o, c, p, D + {s}, after)
    decreases t, 1
  {
    match t
    case Send(_, _, _) =>
    case Join(op, l, r) => TracksStepInJoin(op, l, r, o, c, p, D, s, before, after);
    case Resolve(i, _) => TracksStep(i, o, c, p, D, s, before, after);
  }

  lemma {:induction false} TracksStepInJoin(op: Op, l: Term, r: Term, o: nat, c: nat, p: Role, D: set<nat>, s: nat, before: seq<Option<nat>>, after: seq<Option<nat>>)
    requires var t := Join(op, l, r); Tracks(t, o, c, p, D, before) && Legal(t, o, p, D) && May(t, o, p, D, s)
    requires var t := Join(op, l, r); Within(t, o, s) && Records(before, after, Memberships(t, o, c, s), c, c + Routes(t))
    ensures Tracks(Join(op, l, r), o, c, p, D + {s}, after)
    decreases Join(op, l, r), 0
  {
    hide Tracks;
    hide Started;
    hide Finished;
    hide Legal;
    hide May;
    hide Memberships;
    hide Records;
    var m, cl := o + Sites(l), LeftBase(op, c);
    var cr := cl + Routes(l);
    TracksUnfolds(op, l, r, o, c, p, D, before);
    TracksUnfolds(op, l, r, o, c, p, D + {s}, after);
    JoinUnfolds(op, l, r, o, p, D);
    MayUnfolds(op, l, r, o, p, D, s);
    RecordsLengths(before, after, Memberships(Join(op, l, r), o, c, s), c, c + Routes(Join(op, l, r)));
    RecordsParts(op, l, r, o, c, s, before, after);
    if s < m {
      TracksStep(l, o, cl, p, D, s, before, after);
      TracksOutside(r, m, cr, p, D, s, before, after);
      StepLegal(l, o, p, D, s);
      Outside(r, m, p, D, s);
    } else {
      TracksStep(r, m, cr, p, D, s, before, after);
      TracksOutside(l, o, cl, p, D, s, before, after);
      StepLegal(r, m, p, D, s);
      Outside(l, o, p, D, s);
    }
  }

  lemma RecordsLengths(before: seq<Option<nat>>, after: seq<Option<nat>>, ms: seq<Membership>, lo: nat, hi: nat)
    requires Records(before, after, ms, lo, hi)
    ensures |after| == |before| && hi <= |before|
  {
  }
}
