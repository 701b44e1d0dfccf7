/** Endpoint views and their generations. The views of one actor share one counter;
    an odd generation is live, the even successor retired. */
module Views {
  import opened Choreography

  const U32_MAX := 4294967295

  /** The next odd generation, unless retiring it would leave no room. */
  function NextGeneration(current: nat): (next: Option<nat>)
    ensures next.Some? ==> next.value == current + 2 && next.value % 2 == 1 && next.value + 1 < U32_MAX
    ensures next.None? <==> current % 2 == 0 || current + 2 >= U32_MAX
  {
    if current % 2 == 0 then None
    else if current + 2 > U32_MAX then None
    else if current + 2 != U32_MAX then Some(current + 2)
    else None
  }

  type Nonzero = n: nat | n > 0 witness 1

  /** One allocated actor: its own role, the program's initial actor of each role
      (a role without one is its own), and the view generation of each role. */
  datatype Actor = Actor(allocation: Nonzero, own: nat, initial: seq<Option<nat>>, counter: nat, views: seq<nat>)

  datatype Tag = Handle(allocation: Nonzero, role: nat, generation: nat)
  type Handle = h: Tag | Live(h.generation) && h.generation < U32_MAX witness Handle(1, 0, 1)

  predicate Live(generation: nat) { generation % 2 == 1 }

  /** The allocation generation a view's header shows: zero when it is not live. */
  function Shown(a: Actor, role: nat): nat
    requires role < |a.views|
  {
    if Live(a.views[role]) then a.allocation else 0
  }

  /** A handle validates against the header of its view. */
  predicate Validates(a: Actor, h: Handle) {
    h.role < |a.views| && Shown(a, h.role) == h.allocation && a.views[h.role] == h.generation
  }

  function InitialActor(a: Actor, role: nat): nat {
    if role < |a.initial| && a.initial[role].Some? then a.initial[role].value else role
  }

  /** An actor starts with the view of its own role. */
  function Started(allocation: Nonzero, initial: seq<Option<nat>>, roles: nat, role: nat): Actor
    requires role < roles
  {
    Actor(allocation, role, initial, 1, seq(roles, r => if r == role then 1 else 0))
  }

  function Issued(a: Actor, role: nat, generation: nat): Actor
    requires role < |a.views|
  {
    a.(counter := generation, views := a.views[role := generation])
  }

  /** The first view of a role is issued once, by its initial actor, and a received
      view only while the role has no live view. `None` is a refusal, without effect. */
  function IssueInitial(a: Actor, role: nat): Option<Handle> {
    if role >= |a.views| || InitialActor(a, role) != a.own || NextGeneration(a.counter).None? || a.views[role] != 0 then None
    else Some(Handle(a.allocation, role, NextGeneration(a.counter).value))
  }

  function IssueReceived(a: Actor, role: nat): Option<Handle> {
    if role >= |a.views| || Live(a.views[role]) || NextGeneration(a.counter).None? then None
    else Some(Handle(a.allocation, role, NextGeneration(a.counter).value))
  }

  function Retired(a: Actor, role: nat): Actor
    requires role < |a.views|
  {
    if Live(a.views[role]) then a.(views := a.views[role := a.views[role] + 1]) else a
  }

  // ---------------------------------------------------------------- the headers

  /** The headers of one actor and the counter they share. */
  class ActorViews {
    const allocation: Nonzero
    const own: nat
    const initial: seq<Option<nat>>
    var counter: nat
    const headers: array<nat>

    ghost function View(): Actor
      reads this, headers
    {
      Actor(allocation, own, initial, counter, headers[..])
    }

    constructor (allocation: Nonzero, initial: seq<Option<nat>>, roles: nat, role: nat)
      requires role < roles
      ensures View() == Started(allocation, initial, roles, role) && fresh(headers)
    {
      this.allocation, own, this.initial := allocation, role, initial;
      headers := new nat[roles](r => if r == role then 1 else 0);
      counter := 1;
    }

    method IssueInitialView(role: nat) returns (h: Option<Handle>)
      modifies this, headers
      ensures h == IssueInitial(old(View()), role)
      ensures View() == if h.Some? then Issued(old(View()), role, h.value.generation) else old(View())
    {
      if role >= headers.Length { return None; }
      var actor := if role < |initial| && initial[role].Some? then initial[role].value else role;
      if own != actor { return None; }
      var generation := NextGeneration(counter);
      if generation.None? || headers[role] != 0 { return None; }
      headers[role] := generation.value;
      counter := generation.value;
      h := Some(Handle(allocation, role, generation.value));
    }

    method IssueReceivedView(role: nat) returns (h: Option<Handle>)
      modifies this, headers
      ensures h == IssueReceived(old(View()), role)
      ensures View() == if h.Some? then Issued(old(View()), role, h.value.generation) else old(View())
    {
      if role >= headers.Length || Live(headers[role]) { return None; }
      var generation := NextGeneration(counter);
      if generation.None? { return None; }
      headers[role] := generation.value;
      counter := generation.value;
      h := Some(Handle(allocation, role, generation.value));
    }

    method RetireView(role: nat)
      requires role < headers.Length
      modifies headers
      ensures View() == Retired(old(View()), role)
    {
      if Live(headers[role]) { headers[role] := headers[role] + 1; }
    }

    method Matches(h: Handle) returns (yes: bool)
      ensures yes <==> Validates(View(), h)
    {
      if h.role >= headers.Length { return false; }
      var shown: nat := if Live(headers[h.role]) then allocation else 0;
      yes := shown == h.allocation && headers[h.role] == h.generation;
    }
  }

  // ----------------------------------------------------------------------- runs

  datatype Op = Initial(role: nat) | Received(role: nat) | Retire(role: nat)

  /** An actor with the handles it has issued, in order, and those retired. */
  datatype History = History(actor: Actor, issued: seq<Handle>, retired: set<Handle>)

  function Start(allocation: Nonzero, initial: seq<Option<nat>>, roles: nat, role: nat): History
    requires role < roles
  {
    History(Started(allocation, initial, roles, role), [Handle(allocation, role, 1)], {})
  }

  function HandleOf(a: Actor, role: nat): Handle
    requires role < |a.views| && Live(a.views[role]) && a.views[role] < U32_MAX
  {
    Handle(a.allocation, role, a.views[role])
  }

  function Step(s: History, op: Op): History {
    match op
    case Initial(role) => Granted(s, IssueInitial(s.actor, role))
    case Received(role) => Granted(s, IssueReceived(s.actor, role))
    case Retire(role) =>
      if role < |s.actor.views| && Live(s.actor.views[role]) && s.actor.views[role] < U32_MAX
      then History(Retired(s.actor, role), s.issued, s.retired + {HandleOf(s.actor, role)})
      else s
  }

  function Granted(s: History, h: Option<Handle>): History {
    if h.Some? && h.value.role < |s.actor.views|
    then History(Issued(s.actor, h.value.role, h.value.generation), s.issued + [h.value], s.retired)
    else s
  }

  function Run(s: History, ops: seq<Op>): History {
    if ops == [] then s else Step(Run(s, ops[..|ops| - 1]), ops[|ops| - 1])
  }

  predicate Increasing(hs: seq<Handle>) {
    forall i, j :: 0 <= i < j < |hs| ==> hs[i].generation < hs[j].generation
  }

  ghost predicate Consistent(s: History) {
    && Live(s.actor.counter) && s.actor.counter + 1 < U32_MAX
    && Increasing(s.issued)
    && (forall h: Handle :: h in s.issued ==> h.allocation == s.actor.allocation && h.generation <= s.actor.counter && h.role < |s.actor.views|)
    && (forall r :: 0 <= r < |s.actor.views| ==> s.actor.views[r] <= s.actor.counter + 1)
    && (forall r :: 0 <= r < |s.actor.views| && Live(s.actor.views[r]) ==> HandleOf(s.actor, r) in s.issued)
    && (forall h: Handle :: h in s.issued ==> (h in s.retired <==> !Validates(s.actor, h)))
    && (forall h :: h in s.retired ==> h in s.issued)
  }

  lemma {:induction false} GrantedConsistent(s: History, h: Option<Handle>)
    requires Consistent(s)
    requires h.Some? ==> h.value.role < |s.actor.views| && !Live(s.actor.views[h.value.role]) && h.value.allocation == s.actor.allocation && NextGeneration(s.actor.counter) == Some(h.value.generation)
    ensures Consistent(Granted(s, h))
  {
    if h.Some? {
      var n := Granted(s, h);
      forall x | x in n.issued ensures x in n.retired <==> !Validates(n.actor, x) {
        assert x in s.issued || x == h.value;
      }
    }
  }

  lemma {:induction false} RetireConsistent(s: History, role: nat)
    requires Consistent(s) && role < |s.actor.views| && Live(s.actor.views[role])
    ensures Consistent(Step(s, Retire(role)))
  {
    var n, gone := Step(s, Retire(role)), HandleOf(s.actor, role);
    forall x | x in n.issued ensures x in n.retired <==> !Validates(n.actor, x) {
      if x.role == role && x != gone { assert !Validates(s.actor, x); }
    }
  }

  lemma {:induction false} RunConsistent(s: History, ops: seq<Op>)
    requires Consistent(s)
    ensures Consistent(Run(s, ops)) && Run(s, ops).actor.allocation == s.actor.allocation
  {
    if ops != [] {
      RunConsistent(s, ops[..|ops| - 1]);
      var t, op := Run(s, ops[..|ops| - 1]), ops[|ops| - 1];
      match op
      case Initial(role) => GrantedConsistent(t, IssueInitial(t.actor, role));
      case Received(role) => GrantedConsistent(t, IssueReceived(t.actor, role));
      case Retire(role) => if role < |t.actor.views| && Live(t.actor.views[role]) { RetireConsistent(t, role); }
    }
  }

  /** Stale handles never revive. Over every run of an actor, issued generations
      strictly increase; an issued handle validates exactly until it is retired; no
      two handles validate for one view; only the actor's own issued handles
      validate; and the counter never reaches its end: an exhausted one refuses. */
  lemma {:induction false} StaleHandlesNeverRevive(allocation: Nonzero, initial: seq<Option<nat>>, roles: nat, role: nat, ops: seq<Op>, h: Handle, g: Handle)
    requires role < roles
    ensures var s := Run(Start(allocation, initial, roles, role), ops);
      && Increasing(s.issued)
      && (h in s.issued ==> (Validates(s.actor, h) <==> h !in s.retired))
      && (Validates(s.actor, h) && Validates(s.actor, g) && h.role == g.role ==> h == g)
      && (Validates(s.actor, h) ==> h in s.issued && h.allocation == allocation)
      && s.actor.counter + 1 < U32_MAX
      && (s.actor.counter + 2 >= U32_MAX ==> forall op: Op :: Step(s, op).issued == s.issued)
  {
    var start := Start(allocation, initial, roles, role);
    assert Consistent(start);
    RunConsistent(start, ops);
    var s := Run(start, ops);
    if Validates(s.actor, h) { assert HandleOf(s.actor, h.role) == h; }
  }

  /** A handle once retired stays retired, and so never validates again. */
  lemma {:induction false} RetirementIsForever(allocation: Nonzero, initial: seq<Option<nat>>, roles: nat, role: nat, ops: seq<Op>, more: seq<Op>, h: Handle)
    requires role < roles && h in Run(Start(allocation, initial, roles, role), ops).retired
    ensures !Validates(Run(Run(Start(allocation, initial, roles, role), ops), more).actor, h)
  {
    var start := Start(allocation, initial, roles, role);
    var s := Run(start, ops);
    assert Consistent(start);
    RunConsistent(start, ops);
    RunConsistent(s, more);
    RetiredGrows(s, more, h);
  }

  lemma {:induction false} RetiredGrows(s: History, ops: seq<Op>, h: Handle)
    requires h in s.retired
    ensures h in Run(s, ops).retired
  {
    if ops != [] { RetiredGrows(s, ops[..|ops| - 1], h); }
  }
}
