/** Whole runs of one role: equivalence with the residual choreography,
    confluence, termination and what a maximal run has committed. */
module LocalRuns {
  import opened Choreography
  import opened Progress
  import opened EventProgram
  import opened Projection
  import opened Paths

  /** The state and the done set describe the same progress of role `p`. */
  ghost predicate InStep(t: Term, p: Role, st: LocalState, D: set<nat>) {
    var b := Compile(t, p);
    && |st.done| == |b.events|
    && |st.selected| == Routes(t)
    && (forall id :: 0 <= id < |b.events| ==> st.done[id] == (b.events[id].site in D))
    && Tracks(t, 0, 0, p, D, st.selected)
    && Legal(t, 0, p, D)
    && (forall s :: s in D ==> s in LocalSites(t, p, 0))
  }

  lemma {:induction false} NothingDone(t: Term, o: nat, c: nat, p: Role, selected: seq<Option<nat>>)
    requires c + Routes(t) <= |selected|
    requires forall x :: 0 <= x < |selected| ==> selected[x] == None
    ensures !Started(t, o, p, {}) && Legal(t, o, p, {}) && Tracks(t, o, c, p, {}, selected)
  {
    match t
    case Send(_, _, _) =>
    case Join(op, l, r) =>
      NothingDone(l, o, LeftBase(op, c), p, selected);
      NothingDone(r, o + Sites(l), LeftBase(op, c) + Routes(l), p, selected);
    case Resolve(i, _) => NothingDone(i, o, c, p, selected);
  }

  lemma {:induction false} StartsInStep(t: Term, p: Role)
    ensures InStep(t, p, Initial(Compile(t, p)), {})
  {
    Grows(t, p, EMPTY_IMAGE, ROOT, 0);
    NothingDone(t, 0, 0, p, Initial(Compile(t, p)).selected);
  }

  /** Event `id` of the compiled program, with what projection recorded in it. */
  lemma {:induction false} CompiledEvent(t: Term, p: Role, id: nat)
    requires id < |Compile(t, p).events|
    ensures Compile(t, p).nextConflict == Routes(t)
    ensures Added(Compile(t, p).events[id], id, t, p, 0, ROOT, 0)
    ensures Compile(t, p).events[id].conflicts == Memberships(t, 0, 0, Compile(t, p).events[id].site)
    ensures Coherent(Compile(t, p).events[id].conflicts)
    ensures forall m :: m in Compile(t, p).events[id].conflicts ==> m.conflict < Routes(t)
    ensures |Compile(t, p).events| == |LocalSites(t, p, 0)|
    ensures Compile(t, p).events[id].site == LocalSites(t, p, 0)[id]
  {
    hide Project;
    hide Memberships;
    hide LocalSites;
    hide Leaf;
    Grows(t, p, EMPTY_IMAGE, ROOT, 0);
    Shape(t, p, EMPTY_IMAGE, ROOT, 0, id);
    SitesInOrder(t, p, EMPTY_IMAGE, ROOT, 0, Compile(t, p).events, id);
    var e := Compile(t, p).events[id];
    assert e.conflicts == Memberships(t, 0, 0, e.site);
    MembershipsCoherent(t, 0, 0, e.site);
    MembershipsBounded(t, 0, 0, e.site);
  }

  /** The event of a site the role acts at. */
  lemma {:induction false} EventAt(t: Term, p: Role, s: nat) returns (id: nat)
    requires Within(t, 0, s) && Involves(Leaf(t, 0, s), p)
    ensures id < |Compile(t, p).events| && Compile(t, p).events[id].site == s
  {
    Grows(t, p, EMPTY_IMAGE, ROOT, 0);
    LocalSitesAre(t, p, 0);
    id :| 0 <= id < |LocalSites(t, p, 0)| && LocalSites(t, p, 0)[id] == s;
    SitesInOrder(t, p, EMPTY_IMAGE, ROOT, 0, Compile(t, p).events, id);
  }

  /** Projection preserves meaning, in any state in step: an event is enabled
      under dependencies and conflicts exactly when the residual choreography can
      take its site. */
  lemma {:induction false} EnabledIffTaken(t: Term, p: Role, st: LocalState, D: set<nat>, id: nat)
    requires InStep(t, p, st, D) && id < |Compile(t, p).events|
    ensures var e := Compile(t, p).events[id];
      && (Enabled(Compile(t, p).events, st, e) <==> May(t, 0, p, D, e.site))
      && (Enabled(Compile(t, p).events, st, e) <==> Take(Rest(t, 0, p, D), e.site).Some?)
  {
    EnabledFaithful(t, p, EMPTY_IMAGE, ROOT, 0, Compile(t, p).events, st, D, id);
    RestSteps(t, 0, p, D, Compile(t, p).events[id].site);
  }

  /** Committing keeps the two in step. */
  lemma {:induction false} CommitInStep(t: Term, p: Role, st: LocalState, D: set<nat>, id: nat)
    requires InStep(t, p, st, D) && id < |Compile(t, p).events|
    requires Enabled(Compile(t, p).events, st, Compile(t, p).events[id])
    ensures var e := Compile(t, p).events[id];
      && e.id < |st.done|
      && InStep(t, p, Commit(st, e), D + {e.site})
      && Take(Rest(t, 0, p, D), e.site) == Some(Rest(t, 0, p, D + {e.site}))
  {
    hide Compile;
    hide Enabled;
    hide Tracks;
    hide Legal;
    hide May;
    hide Rest;
    hide Take;
    hide Memberships;
    hide LocalSites;
    hide Select;
    hide Coherent;
    hide Records;
    var es := Compile(t, p).events;
    var e := es[id];
    CompiledEvent(t, p, id);
    EnabledIffTaken(t, p, st, D, id);
    RestSteps(t, 0, p, D, e.site);
    StepLegal(t, 0, p, D, e.site);
    SelectRecords(st.selected, e.conflicts);
    TracksStep(t, 0, 0, p, D, e.site, st.selected, Commit(st, e).selected);
    LocalSitesAre(t, p, 0);
    forall i | 0 <= i < |es| ensures Commit(st, e).done[i] == (es[i].site in D + {e.site}) {
      CompiledEvent(t, p, i);
    }
  }

  predicate Known(b: Image, ids: seq<nat>) {
    forall k :: 0 <= k < |ids| ==> ids[k] < |b.events|
  }

  /** Run the listed events; `None` when one of them is not enabled. */
  function Run(b: Image, st: LocalState, ids: seq<nat>): Option<LocalState>
    decreases |ids|
  {
    if ids == [] then Some(st)
    else if ids[0] < |b.events| && Enabled(b.events, st, b.events[ids[0]])
    then Run(b, Commit(st, b.events[ids[0]]), ids[1..])
    else None
  }

  function TakeAll(r: Residual, sites: seq<nat>): Option<Residual>
    decreases |sites|
  {
    if sites == [] then Some(r)
    else if Take(r, sites[0]).Some? then TakeAll(Take(r, sites[0]).value, sites[1..])
    else None
  }

  function SitesOf(b: Image, ids: seq<nat>): seq<nat>
    requires Known(b, ids)
  {
    if ids == [] then [] else [b.events[ids[0]].site] + SitesOf(b, ids[1..])
  }

  lemma {:induction false} RunsFrom(t: Term, p: Role, st: LocalState, D: set<nat>, ids: seq<nat>) returns (D': set<nat>)
    requires InStep(t, p, st, D)
    requires Known(Compile(t, p), ids)
    ensures var b := Compile(t, p);
      var run, rest := Run(b, st, ids), TakeAll(Rest(t, 0, p, D), SitesOf(b, ids));
      && (run.Some? <==> rest.Some?)
      && (run.Some? ==> InStep(t, p, run.value, D') && rest.value == Rest(t, 0, p, D'))
    decreases |ids|
  {
    var b := Compile(t, p);
    D' := D;
    if ids != [] {
      EnabledIffTaken(t, p, st, D, ids[0]);
      assert SitesOf(b, ids)[1..] == SitesOf(b, ids[1..]);
      if Enabled(b.events, st, b.events[ids[0]]) {
        CommitInStep(t, p, st, D, ids[0]);
        D' := RunsFrom(t, p, Commit(st, b.events[ids[0]]), D + {b.events[ids[0]].site}, ids[1..]);
      }
    }
  }

  /** Projection preserves meaning over whole runs: a sequence of events runs in
      the projected program exactly when the residual choreography takes their
      sites, and afterwards the enabled sites are those the residual can take. */
  lemma {:induction false} ProjectionPreservesMeaning(t: Term, p: Role, ids: seq<nat>)
    requires Known(Compile(t, p), ids)
    ensures var b := Compile(t, p);
      var run, rest := Run(b, Initial(b), ids), TakeAll(Rest(t, 0, p, {}), SitesOf(b, ids));
      && (run.Some? <==> rest.Some?)
      && (run.Some? ==> forall s: nat ::
            Take(rest.value, s).Some? <==>
              exists id: nat :: id < |b.events| && b.events[id].site == s && Enabled(b.events, run.value, b.events[id]))
  {
    StartsInStep(t, p);
    var b := Compile(t, p);
    var D := RunsFrom(t, p, Initial(b), {}, ids);
    var run, rest := Run(b, Initial(b), ids), TakeAll(Rest(t, 0, p, {}), SitesOf(b, ids));
    if run.Some? {
      forall s: nat
        ensures Take(rest.value, s).Some? <==>
          exists id: nat :: id < |b.events| && b.events[id].site == s && Enabled(b.events, run.value, b.events[id])
      {
        RestSteps(t, 0, p, D, s);
        if Take(rest.value, s).Some? {
          MayWithin(t, 0, p, D, s);
          var id := EventAt(t, p, s);
          EnabledIffTaken(t, p, run.value, D, id);
        }
        forall id: nat | id < |b.events| && b.events[id].site == s && Enabled(b.events, run.value, b.events[id])
          ensures Take(rest.value, s).Some?
        {
          EnabledIffTaken(t, p, run.value, D, id);
        }
      }
    }
  }

  // --------------------------------------------------------------- confluence

  predicate Opposing(e: Event, f: Event) {
    exists m, n :: m in e.conflicts && n in f.conflicts && m.conflict == n.conflict && m.arm != n.arm
  }

  lemma {:induction false} SettledStays(b: Image, st: LocalState, e: Event, d: nat)
    requires WellFormed(b) && e in b.events && |st.done| == |b.events| && |st.selected| == b.nextConflict
    requires Settled(b.events, st, d)
    ensures Settled(b.events, Commit(st, e), d)
  {
    SelectRecords(st.selected, e.conflicts);
    if !st.done[d] {
      var m :| m in b.events[d].conflicts && Opposes(m, st.selected);
      assert Opposes(m, Commit(st, e).selected);
    }
  }

  /** Recording two unopposed membership lists commutes. */
  lemma {:induction false} SelectCommutes(selected: seq<Option<nat>>, e: Event, f: Event)
    requires !Opposing(e, f)
    ensures Select(Select(selected, e.conflicts), f.conflicts) == Select(Select(selected, f.conflicts), e.conflicts)
  {
    hide Select;
    hide ArmIn;
    var se, sf := Select(selected, e.conflicts), Select(selected, f.conflicts);
    SelectRecords(selected, e.conflicts);
    SelectRecords(selected, f.conflicts);
    SelectRecords(se, f.conflicts);
    SelectRecords(sf, e.conflicts);
    forall x: nat | x < |selected| ensures Select(se, f.conflicts)[x] == Select(sf, e.conflicts)[x] {
      ArmInIs(e.conflicts, x);
      ArmInIs(f.conflicts, x);
    }
  }

  /** An event rules out exactly the events it opposes, among those not yet
      ruled out. */
  lemma {:induction false} RulesOutOpposing(b: Image, st: LocalState, e: Event, f: Event)
    requires WellFormed(b) && |st.selected| == b.nextConflict && e in b.events && f in b.events
    requires !Excluded(e, st.selected) && !Excluded(f, st.selected)
    ensures Excluded(f, Select(st.selected, e.conflicts)) <==> Opposing(e, f)
  {
    hide Select;
    hide ArmIn;
    var after := Select(st.selected, e.conflicts);
    SelectRecords(st.selected, e.conflicts);
    if Opposing(e, f) {
      var m, n :| m in e.conflicts && n in f.conflicts && m.conflict == n.conflict && m.arm != n.arm;
      ArmInIs(e.conflicts, n.conflict);
      assert !Opposes(m, st.selected) && !Opposes(n, st.selected);
      assert Opposes(n, after);
    }
    forall n | n in f.conflicts && Opposes(n, after) ensures Opposing(e, f) {
      ArmInIs(e.conflicts, n.conflict);
      assert !Opposes(n, st.selected);
      assert Membership(n.conflict, after[n.conflict].value) in e.conflicts;
    }
  }

  /** Confluence, and exactly when it applies: of two enabled events the second
      stays enabled after the first unless they lie in opposite arms of a route,
      and then both orders reach the same state. */
  lemma {:induction false} Confluence(b: Image, st: LocalState, e: Event, f: Event)
    requires WellFormed(b) && |st.done| == |b.events| && |st.selected| == b.nextConflict
    requires e in b.events && f in b.events && e.id != f.id
    requires Enabled(b.events, st, e) && Enabled(b.events, st, f)
    ensures Enabled(b.events, Commit(st, e), f) <==> !Opposing(e, f)
    ensures !Opposing(e, f) ==> Commit(Commit(st, e), f) == Commit(Commit(st, f), e)
  {
    RulesOutOpposing(b, st, e, f);
    hide Select;
    hide Excluded;
    hide Opposing;
    forall d | d in f.deps ensures Settled(b.events, Commit(st, e), d) { SettledStays(b, st, e, d); }
    if !Opposing(e, f) { SelectCommutes(st.selected, e, f); }
  }

  lemma {:induction false} CompiledWellFormed(t: Term, p: Role)
    ensures WellFormed(Compile(t, p))
  {
    forall i | 0 <= i < |Compile(t, p).events|
      ensures var e := Compile(t, p).events[i];
        && e.id == i
        && (forall d :: d in e.deps ==> d < i)
        && (forall m :: m in e.conflicts ==> m.conflict < Compile(t, p).nextConflict)
        && Coherent(e.conflicts)
    {
      CompiledEvent(t, p, i);
    }
  }

  // ------------------------------------------------------------- maximal runs

  /** A run commits each of its events once, and nothing else. */
  lemma {:induction false} RunCommitsOnce(b: Image, st: LocalState, ids: seq<nat>)
    requires WellFormed(b) && |st.done| == |b.events| && Run(b, st, ids).Some?
    ensures |Run(b, st, ids).value.done| == |b.events|
    ensures Known(b, ids)
    ensures forall k :: 0 <= k < |ids| ==> !st.done[ids[k]] && ids[k] !in ids[..k]
    ensures forall i :: 0 <= i < |b.events| ==> (Run(b, st, ids).value.done[i] <==> st.done[i] || i in ids)
    decreases |ids|
  {
    if ids != [] {
      RunCommitsOnce(b, Commit(st, b.events[ids[0]]), ids[1..]);
      forall k | 0 <= k < |ids| ensures !st.done[ids[k]] && ids[k] !in ids[..k] {
        if k > 0 {
          assert ids[k] == ids[1..][k - 1];
          assert ids[..k] == [ids[0]] + ids[1..][..k - 1];
        }
      }
      assert ids == [ids[0]] + ids[1..];
    }
  }

  function Pending(done: seq<bool>): nat {
    if done == [] then 0 else Pending(done[..|done| - 1]) + (if done[|done| - 1] then 0 else 1)
  }

  lemma {:induction false} PendingDrops(done: seq<bool>, i: nat)
    requires i < |done| && !done[i]
    ensures Pending(done[i := true]) == Pending(done) - 1
  {
    var n := |done| - 1;
    if i < n {
      PendingDrops(done[..n], i);
      assert done[i := true][..n] == done[..n][i := true];
    } else {
      assert done[i := true][..n] == done[..n];
    }
  }

  /** Every run terminates: each commit uses up one pending event. */
  lemma {:induction false} RunTerminates(b: Image, st: LocalState, ids: seq<nat>)
    requires |st.done| == |b.events| && Run(b, st, ids).Some?
    ensures |ids| + Pending(Run(b, st, ids).value.done) == Pending(st.done)
    decreases |ids|
  {
    if ids != [] {
      PendingDrops(st.done, b.events[ids[0]].id);
      RunTerminates(b, Commit(st, b.events[ids[0]]), ids[1..]);
    }
  }

  /** A run that cannot be extended has committed exactly the events of one
      resolved path, each once, and nothing from a discarded arm. */
  lemma {:induction false} MaximalRunIsOnePath(t: Term, p: Role, ids: seq<nat>) returns (R: set<nat>)
    requires Run(Compile(t, p), Initial(Compile(t, p)), ids).Some?
    requires var b := Compile(t, p);
      forall id: nat :: id < |b.events| ==> !Enabled(b.events, Run(b, Initial(b), ids).value, b.events[id])
    ensures Known(Compile(t, p), ids)
    ensures forall k :: 0 <= k < |ids| ==> ids[k] !in ids[..k]
    ensures forall id: nat :: id < |Compile(t, p).events| ==>
      (id in ids <==> Compile(t, p).events[id].site in Path(t, 0, 0, p, R))
  {
    var b := Compile(t, p);
    CompiledWellFormed(t, p);
    RunCommitsOnce(b, Initial(b), ids);
    StartsInStep(t, p);
    var D := RunsFrom(t, p, Initial(b), {}, ids);
    var st := Run(b, Initial(b), ids).value;
    if !Finished(t, 0, p, D) {
      var s := UnfinishedMay(t, 0, p, D);
      MayWithin(t, 0, p, D, s);
      var id := EventAt(t, p, s);
      EnabledIffTaken(t, p, st, D, id);
    }
    R := set c | 0 <= c < |st.selected| && st.selected[c] == Some(1);
    ChosenFromSelected(t, 0, 0, p, D, st.selected, R);
    FinishedIsPath(t, 0, 0, p, D, R);
    ActedIs(t, 0, p, D);
    forall id: nat | id < |b.events|
      ensures id in ids <==> b.events[id].site in Path(t, 0, 0, p, R)
    {
      CompiledEvent(t, p, id);
    }
  }
}
