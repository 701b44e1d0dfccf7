/** The mutable builder and state of the reference semantics, proved against the
    functions of `EventProgram`. */
module ReferenceMachine {
  import opened Choreography
  import opened EventProgram
  import opened Projection

  method UniqueIds(input: seq<nat>) returns (output: seq<nat>)
    ensures output == Unique(input)
  {
    output := [];
    for k := 0 to |input|
      invariant output == Unique(input[..k])
    {
      assert input[..k + 1][..k] == input[..k];
      if input[k] !in output { output := output + [input[k]]; }
    }
    assert input[..|input|] == input;
  }

  class ReferenceBuilder {
    var events: seq<Event>
    var nextLane: nat
    var nextConflict: nat

    ghost function Snapshot(): Image
      reads this
    {
      Image(events, nextLane, nextConflict)
    }

    constructor ()
      ensures Snapshot() == EMPTY_IMAGE
    {
      events, nextLane, nextConflict := [], 1, 0;
    }

    method AddEvent(action: Action, site: nat, lane: nat, deps: seq<nat>, conflicts: seq<Membership>) returns (id: nat)
      modifies this
      ensures id == |old(events)|
      ensures Snapshot() == old(Snapshot()).(events := old(events) + [Event(id, site, action, lane, Unique(deps), conflicts)])
    {
      var unique := UniqueIds(deps);
      id := |events|;
      events := events + [Event(id, site, action, lane, unique, conflicts)];
    }

    /** `None` is the overflow panic of the `u8` lane counter. */
    method ChildLane() returns (lane: Option<nat>)
      requires nextLane <= LANE_LIMIT
      modifies this
      ensures if old(nextLane) < LANE_LIMIT
              then lane == Some(old(nextLane)) && Snapshot() == old(Snapshot()).(nextLane := old(nextLane) + 1)
              else lane == None && Snapshot() == old(Snapshot())
    {
      if nextLane == LANE_LIMIT { return None; }
      lane := Some(nextLane);
      nextLane := nextLane + 1;
    }

    method Conflict() returns (conflict: nat)
      modifies this
      ensures conflict == old(nextConflict)
      ensures Snapshot() == old(Snapshot()).(nextConflict := old(nextConflict) + 1)
    {
      conflict := nextConflict;
      nextConflict := nextConflict + 1;
    }

    /** The contexts of a join's parts; the right one still waits for the incoming
        events of the join. */
    method OpenJoin(op: Op, ctx: Context) returns (parts: Option<(Context, Context)>)
      requires nextLane <= LANE_LIMIT
      modifies this
      ensures parts.Some? <==> Open(op, old(Snapshot())).nextLane <= LANE_LIMIT
      ensures parts.Some? ==> Snapshot() == Open(op, old(Snapshot()))
      ensures parts.Some? ==> parts.value.0 == LeftContext(op, old(Snapshot()), ctx)
      ensures parts.Some? ==> parts.value.1 == RightContext(op, old(Snapshot()), ctx, ctx.incoming)
    {
      var leftConflicts, rightConflicts := ctx.conflicts, ctx.conflicts;
      var leftLane, rightLane := Some(ctx.lane), Some(ctx.lane);
      if op.Route? {
        var conflict := Conflict();
        leftConflicts := leftConflicts + [Membership(conflict, 0)];
        rightConflicts := rightConflicts + [Membership(conflict, 1)];
      }
      assert leftConflicts == ctx.conflicts + Own(op, old(nextConflict), 0) && rightConflicts == ctx.conflicts + Own(op, old(nextConflict), 1);
      if !op.Seq? {
        leftLane := ChildLane();
        if leftLane.None? { return None; }
        rightLane := ChildLane();
        if rightLane.None? { return None; }
      }
      parts := Some((Context(ctx.incoming, leftLane.value, leftConflicts), Context(ctx.incoming, rightLane.value, rightConflicts)));
    }

    /** Projection succeeds exactly when the lane counter has room for two lanes
        per fork, and then builds the specified image and exits. */
    method ProjectTerm(t: Term, p: Role, ctx: Context, o: nat) returns (exits: Option<seq<nat>>)
      requires nextLane <= LANE_LIMIT
      modifies this
      ensures exits.Some? <==> old(nextLane) + 2 * Forks(t) <= LANE_LIMIT
      ensures exits.Some? ==> (Snapshot(), exits.value) == Project(t, p, old(Snapshot()), ctx, o)
      ensures exits.Some? ==> nextLane == old(nextLane) + 2 * Forks(t)
      decreases t
    {
      match t
      case Send(_, _, _) =>
        if !Involves(t, p) { return Some(ctx.incoming); }
        var id := AddEvent(ActionOf(t, p), o, ctx.lane, ctx.incoming, ctx.conflicts);
        exits := Some([id]);
      case Join(op, l, r) =>
        ProjectJoin(op, l, r, p, Snapshot(), ctx, o);
        hide Project;
        hide Unique;
        var parts := OpenJoin(op, ctx);
        if parts.None? { return None; }
        var leftExits := ProjectTerm(l, p, parts.value.0, o);
        if leftExits.None? { return None; }
        var rightContext := parts.value.1.(incoming := if op.Seq? then leftExits.value else ctx.incoming);
        assert rightContext == RightContext(op, old(Snapshot()), ctx, leftExits.value);
        hide RightContext;
        hide LeftContext;
        var rightExits := ProjectTerm(r, p, rightContext, o + Sites(l));
        if rightExits.None? { return None; }
        if op.Seq? { return rightExits; }
        var joined := UniqueIds(leftExits.value + rightExits.value);
        exits := Some(joined);
      case Resolve(i, _) => exits := ProjectTerm(i, p, ctx, o);
    }
  }

  /** The local program of a role, unless its lanes overflow. */
  method FromSteps(t: Term, p: Role) returns (program: Option<Image>)
    ensures program == if Forks(t) <= 127 then Some(Compile(t, p)) else None
  {
    var builder := new ReferenceBuilder();
    var exits := builder.ProjectTerm(t, p, ROOT, 0);
    if exits.None? { return None; }
    program := Some(Image(builder.events, builder.nextLane, builder.nextConflict));
  }

  function LabelOf(a: Action): nat { a.logical }

  datatype CommitResult =
    | Committed(event: nat)
    | NotEnabled(logical: nat)
    | EventAbsent(event: nat)
    | ConflictSelected(conflict: nat, selected: nat, attempted: nat)

  /** An arm already taken against membership `k` was taken by an earlier one. */
  lemma {:induction false} ClashIsIncoherent(selected: seq<Option<nat>>, ms: seq<Membership>, k: nat)
    requires k < |ms| && ms[k].conflict < |selected| && !Opposes(ms[k], selected)
    requires Opposes(ms[k], Select(selected, ms[..k]))
    ensures !Coherent(ms)
  {
    hide Select;
    hide ArmIn;
    SelectRecords(selected, ms[..k]);
    ArmInIs(ms[..k], ms[k].conflict);
    var other := Membership(ms[k].conflict, Select(selected, ms[..k])[ms[k].conflict].value);
    assert other in ms[..k] && ms[..k] <= ms;
  }

  lemma {:induction false} SelectMore(selected: seq<Option<nat>>, ms: seq<Membership>, m: Membership)
    ensures var before := Select(selected, ms);
      Select(selected, ms + [m]) ==
        if m.conflict < |before| && before[m.conflict].None? then before[m.conflict := Some(m.arm)] else before
  {
    assert (ms + [m])[..|ms|] == ms;
  }

  predicate Reflects(selected: seq<Option<nat>>, ms: seq<Membership>) {
    forall m :: m in ms ==> m.conflict < |selected| && selected[m.conflict] == Some(m.arm)
  }

  lemma {:induction false} ReflectsMore(selected: seq<Option<nat>>, ms: seq<Membership>, m: Membership)
    requires Reflects(selected, ms) && m.conflict < |selected|
    ensures selected[m.conflict] == Some(m.arm) ==> Reflects(selected, ms + [m])
    ensures selected[m.conflict].None? ==> Reflects(selected[m.conflict := Some(m.arm)], ms + [m])
  {
  }

  lemma {:induction false} ReflectsIsCoherent(selected: seq<Option<nat>>, ms: seq<Membership>)
    requires Reflects(selected, ms)
    ensures Coherent(ms)
  {
  }

  predicate Labelled(b: Image, st: LocalState, logical: nat, i: nat)
    requires i < |b.events|
  {
    LabelOf(b.events[i].action) == logical && Enabled(b.events, st, b.events[i])
  }

  class ReferenceState {
    const program: Image
    var done: seq<bool>
    var selected: seq<Option<nat>>

    ghost function Snapshot(): LocalState
      reads this
    {
      LocalState(done, selected)
    }

    ghost predicate Valid()
      reads this
    {
      && InBounds(program)
      && |done| == |program.events|
      && |selected| == program.nextConflict
    }

    constructor (program: Image)
      requires InBounds(program)
      ensures Valid() && this.program == program && Snapshot() == Initial(program)
    {
      this.program := program;
      done := seq(|program.events|, _ => false);
      selected := seq(program.nextConflict, _ => None);
    }

    /** Commit one event. An absent or disabled event changes nothing. The
        conflicting-arm error arises exactly for an event that lists two arms of
        one route, which no compiled program has. */
    method CommitEvent(id: nat) returns (r: CommitResult)
      requires Valid()
      modifies this
      ensures Valid()
      ensures id >= |program.events| ==> r == EventAbsent(id) && Snapshot() == old(Snapshot())
      ensures id < |program.events| && !old(Enabled(program.events, Snapshot(), program.events[id])) ==>
        r == NotEnabled(LabelOf(program.events[id].action)) && Snapshot() == old(Snapshot())
      ensures id < |program.events| && old(Enabled(program.events, Snapshot(), program.events[id])) ==>
        if Coherent(program.events[id].conflicts)
        then r == Committed(id) && Snapshot() == Commit(old(Snapshot()), program.events[id])
        else r.ConflictSelected? && done == old(done)
    {
      if id >= |program.events| { return EventAbsent(id); }
      var e := program.events[id];
      if !Enabled(program.events, LocalState(done, selected), e) { return NotEnabled(LabelOf(e.action)); }
      assert forall m :: m in e.conflicts ==> m.conflict < |selected| && !Opposes(m, selected);
      hide Enabled;
      hide Coherent;
      hide Select;
      var clash := SelectArms(e.conflicts);
      if clash.Some? { return clash.value; }
      done := done[id := true];
      r := Committed(id);
    }

    /** Record the arms of an admitted event. */
    method SelectArms(ms: seq<Membership>) returns (clash: Option<CommitResult>)
      requires forall m :: m in ms ==> m.conflict < |selected| && !Opposes(m, selected)
      modifies this`selected
      ensures |selected| == |old(selected)|
      ensures clash.None? <==> Coherent(ms)
      ensures clash.Some? ==> clash.value.ConflictSelected?
      ensures clash.None? ==> selected == Select(old(selected), ms)
    {
      assert Select(selected, ms[..0]) == selected;
      hide Coherent;
      hide Select;
      for k := 0 to |ms|
        invariant |selected| == |old(selected)| && selected == Select(old(selected), ms[..k])
        invariant Reflects(selected, ms[..k])
      {
        var m := ms[k];
        SelectMore(old(selected), ms[..k], m);
        ReflectsMore(selected, ms[..k], m);
        assert ms[..k + 1] == ms[..k] + [m];
        if selected[m.conflict].Some? {
          if selected[m.conflict].value != m.arm {
            ClashIsIncoherent(old(selected), ms, k);
            return Some(ConflictSelected(m.conflict, selected[m.conflict].value, m.arm));
          }
        } else {
          selected := selected[m.conflict := Some(m.arm)];
        }
      }
      assert ms[..|ms|] == ms;
      ReflectsIsCoherent(selected, ms);
      clash := None;
    }

    /** Commit the first enabled event that carries the label. */
    method CommitLabel(logical: nat) returns (r: CommitResult)
      requires Valid()
      modifies this
      ensures Valid()
      ensures r.NotEnabled? <==> forall i :: 0 <= i < |program.events| ==> !Labelled(program, old(Snapshot()), logical, i)
      ensures r.NotEnabled? ==> r.logical == logical && Snapshot() == old(Snapshot())
      ensures !r.NotEnabled? ==> exists i: nat ::
        && i < |program.events|
        && Labelled(program, old(Snapshot()), logical, i)
        && (forall j :: 0 <= j < i ==> !Labelled(program, old(Snapshot()), logical, j))
        && if Coherent(program.events[i].conflicts)
           then r == Committed(i) && Snapshot() == Commit(old(Snapshot()), program.events[i])
           else r.ConflictSelected? && done == old(done)
    {
      hide Enabled;
      hide Coherent;
      for i := 0 to |program.events|
        invariant Snapshot() == old(Snapshot())
        invariant forall j :: 0 <= j < i ==> !Labelled(program, Snapshot(), logical, j)
      {
        if LabelOf(program.events[i].action) == logical && Enabled(program.events, LocalState(done, selected), program.events[i]) {
          assert Labelled(program, old(Snapshot()), logical, i);
          r := CommitEvent(i);
          return;
        }
      }
      r := NotEnabled(logical);
    }
  }
}
