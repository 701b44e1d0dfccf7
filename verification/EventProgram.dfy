/** The event program a role runs: projection of a choreography into events with
    dependencies and route memberships, and the state that admits and commits
    them. */
module EventProgram {
  import opened Choreography

  datatype Action =
    | Sends(from: Role, to: Role, logical: nat)
    | Receives(from: Role, to: Role, logical: nat)
    | Locally(role: Role, logical: nat)

  datatype Membership = Membership(conflict: nat, arm: nat)

  /** `site` is the source position of the message: its frame label. */
  datatype Event = Event(
    id: nat, site: nat, action: Action, lane: nat, deps: seq<nat>, conflicts: seq<Membership>)

  datatype Context = Context(incoming: seq<nat>, lane: nat, conflicts: seq<Membership>)

  datatype Image = Image(events: seq<Event>, nextLane: nat, nextConflict: nat)

  /** Lane identifiers are `u8`, and the last one is never handed out. */
  const LANE_LIMIT := 255

  const EMPTY_IMAGE := Image([], 1, 0)
  const ROOT := Context([], 0, [])

  function ActionOf(leaf: Term, p: Role): Action
    requires leaf.Send? && Involves(leaf, p)
  {
    if leaf.from == leaf.to then Locally(p, leaf.logical)
    else if p == leaf.from then Sends(leaf.from, leaf.to, leaf.logical)
    else Receives(leaf.from, leaf.to, leaf.logical)
  }

  /** First occurrences, in order. */
  function Unique(ids: seq<nat>): (u: seq<nat>)
    ensures forall i :: i in u <==> i in ids
    ensures forall i, j :: 0 <= i < j < |u| ==> u[i] != u[j]
  {
    if ids == [] then []
    else
      var init, last := ids[..|ids| - 1], ids[|ids| - 1];
      var u := Unique(init);
      assert ids == init + [last];
      if last in u then u else u + [last]
  }

  function Open(op: Op, b: Image): Image {
    b.(nextLane := b.nextLane + (if op.Seq? then 0 else 2),
       nextConflict := b.nextConflict + (if op.Route? then 1 else 0))
  }

  /** The membership a join adds to the events of one of its parts. */
  function Own(op: Op, conflict: nat, arm: nat): seq<Membership> {
    if op.Route? then [Membership(conflict, arm)] else []
  }

  function LeftContext(op: Op, b: Image, ctx: Context): Context {
    Context(ctx.incoming, if op.Seq? then ctx.lane else b.nextLane, ctx.conflicts + Own(op, b.nextConflict, 0))
  }

  function RightContext(op: Op, b: Image, ctx: Context, leftExits: seq<nat>): Context {
    Context(if op.Seq? then leftExits else ctx.incoming,
            if op.Seq? then ctx.lane else b.nextLane + 1,
            ctx.conflicts + Own(op, b.nextConflict, 1))
  }

  /** Projection onto role `p` of a term whose first site is `o`: the extended
      image and the exits that a following step must wait for. */
  function Project(t: Term, p: Role, b: Image, ctx: Context, o: nat): (Image, seq<nat>) {
    match t
    case Send(_, _, _) =>
      if !Involves(t, p) then (b, ctx.incoming)
      else
        var id := |b.events|;
        var e := Event(id, o, ActionOf(t, p), ctx.lane, Unique(ctx.incoming), ctx.conflicts);
        (b.(events := b.events + [e]), [id])
    case Join(op, l, r) =>
      var (b1, le) := Project(l, p, Open(op, b), LeftContext(op, b, ctx), o);
      var (b2, re) := Project(r, p, b1, RightContext(op, b, ctx, le), o + Sites(l));
      (b2, if op.Seq? then re else Unique(le + re))
    case Resolve(i, _) => Project(i, p, b, ctx, o)
  }

  /** The whole local program of a role. */
  function Compile(t: Term, p: Role): Image { Project(t, p, EMPTY_IMAGE, ROOT, 0).0 }

  // ------------------------------------------------------------- local states

  datatype LocalState = LocalState(done: seq<bool>, selected: seq<Option<nat>>)

  function Initial(b: Image): LocalState {
    LocalState(seq(|b.events|, _ => false), seq(b.nextConflict, _ => None))
  }

  predicate Opposes(m: Membership, selected: seq<Option<nat>>) {
    && m.conflict < |selected|
    && selected[m.conflict].Some?
    && selected[m.conflict].value != m.arm
  }

  predicate Excluded(e: Event, selected: seq<Option<nat>>) {
    exists m :: m in e.conflicts && Opposes(m, selected)
  }

  predicate Settled(es: seq<Event>, st: LocalState, d: nat) {
    d < |st.done| && d < |es| && (st.done[d] || Excluded(es[d], st.selected))
  }

  predicate AllSettled(es: seq<Event>, st: LocalState, ids: seq<nat>) {
    forall d :: d in ids ==> Settled(es, st, d)
  }

  predicate Enabled(es: seq<Event>, st: LocalState, e: Event) {
    && e.id < |st.done|
    && !st.done[e.id]
    && !Excluded(e, st.selected)
    && AllSettled(es, st, e.deps)
  }

  /** Record each membership that has no arm yet. */
  function Select(selected: seq<Option<nat>>, ms: seq<Membership>): (r: seq<Option<nat>>)
    ensures |r| == |selected|
  {
    if ms == [] then selected
    else
      var before, m := Select(selected, ms[..|ms| - 1]), ms[|ms| - 1];
      if m.conflict < |before| && before[m.conflict].None? then before[m.conflict := Some(m.arm)] else before
  }

  function Commit(st: LocalState, e: Event): LocalState
    requires e.id < |st.done|
  {
    LocalState(st.done[e.id := true], Select(st.selected, e.conflicts))
  }

  /** At most one arm of any one route. */
  predicate Coherent(ms: seq<Membership>) {
    forall m, n :: m in ms && n in ms && m.conflict == n.conflict ==> m == n
  }

  /** Identities, dependencies and memberships stay inside the program. */
  predicate InBounds(b: Image) {
    forall i :: 0 <= i < |b.events| ==>
      && b.events[i].id == i
      && (forall d :: d in b.events[i].deps ==> d < i)
      && (forall m :: m in b.events[i].conflicts ==> m.conflict < b.nextConflict)
  }

  predicate WellFormed(b: Image) {
    InBounds(b) && forall e :: e in b.events ==> Coherent(e.conflicts)
  }
}
