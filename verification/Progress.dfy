/** What one role may do next, said over the choreography tree itself.

    `D` is the set of sites at which the role has acted. The predicates walk the
    tree; `Rest` is the residual term, whose small-step `Take` knows nothing of
    done sets, dependencies or conflicts. */
module Progress {
  import opened Choreography

  /** The role has acted somewhere in `t`. */
  predicate Started(t: Term, o: nat, p: Role, D: set<nat>) {
    match t
    case Send(_, _, _) => Involves(t, p) && o in D
    case Join(_, l, r) => Started(l, o, p, D) || Started(r, o + Sites(l), p, D)
    case Resolve(i, _) => Started(i, o, p, D)
  }

  /** Nothing in `t` is left for the role. A route the role has not entered is
      finished only when the role has no event in either arm. */
  predicate Finished(t: Term, o: nat, p: Role, D: set<nat>) {
    match t
    case Send(_, _, _) => Involves(t, p) ==> o in D
    case Join(op, l, r) =>
      var m := o + Sites(l);
      if op.Route? && Started(l, o, p, D) then Finished(l, o, p, D)
      else if op.Route? && Started(r, m, p, D) then Finished(r, m, p, D)
      else Finished(l, o, p, D) && Finished(r, m, p, D)
    case Resolve(i, _) => Finished(i, o, p, D)
  }

  /** The role may act at site `s` now. */
  predicate May(t: Term, o: nat, p: Role, D: set<nat>, s: nat) {
    match t
    case Send(_, _, _) => s == o && Involves(t, p) && o !in D
    case Join(op, l, r) =>
      var m := o + Sites(l);
      if s < m
      then May(l, o, p, D, s) && (op.Route? ==> !Started(r, m, p, D))
      else
        && May(r, m, p, D, s)
        && (op.Route? ==> !Started(l, o, p, D))
        && (op.Seq? ==> Finished(l, o, p, D))
    case Resolve(i, _) => May(i, o, p, D, s)
  }

  /** `D` respects sequencing and enters at most one arm of each route. */
  predicate Legal(t: Term, o: nat, p: Role, D: set<nat>) {
    match t
    case Send(_, _, _) => true
    case Join(op, l, r) =>
      var m := o + Sites(l);
      && Legal(l, o, p, D)
      && Legal(r, m, p, D)
      && (op.Seq? && Started(r, m, p, D) ==> Finished(l, o, p, D))
      && (op.Route? ==> !(Started(l, o, p, D) && Started(r, m, p, D)))
    case Resolve(i, _) => Legal(i, o, p, D)
  }

  /** One step of the definitions at a join. */
  lemma JoinUnfolds(op: Op, l: Term, r: Term, o: nat, p: Role, D: set<nat>)
    ensures var t, m := Join(op, l, r), o + Sites(l);
      var sl, sr := Started(l, o, p, D), Started(r, m, p, D);
      && Started(t, o, p, D) == (sl || sr)
      && Finished(t, o, p, D) == (((op.Route? && sr && !sl) || Finished(l, o, p, D)) && ((op.Route? && sl) || Finished(r, m, p, D)))
      && Legal(t, o, p, D) == (Legal(l, o, p, D) && Legal(r, m, p, D) && (op.Seq? && sr ==> Finished(l, o, p, D)) && !(op.Route? && sl && sr))
  {
  }

  lemma MayUnfolds(op: Op, l: Term, r: Term, o: nat, p: Role, D: set<nat>, s: nat)
    ensures var t, m := Join(op, l, r), o + Sites(l);
      May(t, o, p, D, s) ==
        if s < m then May(l, o, p, D, s) && !(op.Route? && Started(r, m, p, D))
        else May(r, m, p, D, s) && !(op.Route? && Started(l, o, p, D)) && (op.Seq? ==> Finished(l, o, p, D))
  {
  }

  // ---------------------------------------------------------------- residuals

  datatype Residual =
    | Nil
    | Act(site: nat)
    | Then(first: Residual, second: Residual)
    | Both(left: Residual, right: Residual)
    | Choice(left: Residual, right: Residual)

  predicate Idle(r: Residual) {
    match r
    case Nil => true
    case Act(_) => false
    case Then(a, b) => Idle(a) && Idle(b)
    case Both(a, b) => Idle(a) && Idle(b)
    case Choice(a, b) => Idle(a) && Idle(b)
  }

  /** One step of a residual: the second part of a sequence waits for the first,
      parallel parts interleave, and the first step of a choice discards the
      other alternative. */
  function Take(r: Residual, s: nat): Option<Residual> {
    match r
    case Nil => None
    case Act(x) => if x == s then Some(Nil) else None
    case Then(a, b) =>
      if Take(a, s).Some? then Some(Then(Take(a, s).value, b))
      else if Idle(a) && Take(b, s).Some? then Some(Then(a, Take(b, s).value))
      else None
    case Both(a, b) =>
      if Take(a, s).Some? then Some(Both(Take(a, s).value, b))
      else if Take(b, s).Some? then Some(Both(a, Take(b, s).value))
      else None
    case Choice(a, b) =>
      if Take(a, s).Some? then Take(a, s) else Take(b, s)
  }

  /** The residual left when the role has acted at `D`. */
  function Rest(t: Term, o: nat, p: Role, D: set<nat>): Residual {
    match t
    case Send(_, _, _) => if Involves(t, p) && o !in D then Act(o) else Nil
    case Join(op, l, r) =>
      var a, b := Rest(l, o, p, D), Rest(r, o + Sites(l), p, D);
      if op.Seq? then Then(a, b)
      else if op.Par? then Both(a, b)
      else if Started(l, o, p, D) then a
      else if Started(r, o + Sites(l), p, D) then b
      else Choice(a, b)
    case Resolve(i, _) => Rest(i, o, p, D)
  }

  // ------------------------------------------------------------------- frames

  /** Acting outside a subtree changes nothing inside it. */
  lemma {:induction false} Outside(t: Term, o: nat, p: Role, D: set<nat>, s: nat)
    requires !Within(t, o, s)
    ensures Started(t, o, p, D + {s}) == Started(t, o, p, D)
    ensures Finished(t, o, p, D + {s}) == Finished(t, o, p, D)
    ensures Legal(t, o, p, D + {s}) == Legal(t, o, p, D)
    ensures Rest(t, o, p, D + {s}) == Rest(t, o, p, D)
    ensures !May(t, o, p, D, s) && Take(Rest(t, o, p, D), s).None?
  {
    match t
    case Send(_, _, _) =>
    case Join(_, l, r) =>
      Outside(l, o, p, D, s);
      Outside(r, o + Sites(l), p, D, s);
    case Resolve(i, _) => Outside(i, o, p, D, s);
  }

  lemma {:induction false} MayWithin(t: Term, o: nat, p: Role, D: set<nat>, s: nat)
    requires May(t, o, p, D, s)
    ensures Within(t, o, s) && s !in D && Involves(Leaf(t, o, s), p)
  {
    match t
    case Send(_, _, _) =>
    case Join(_, l, r) =>
      if s < o + Sites(l) { MayWithin(l, o, p, D, s); } else { MayWithin(r, o + Sites(l), p, D, s); }
    case Resolve(i, _) => MayWithin(i, o, p, D, s);
  }

  /** A permitted step starts the subtree and keeps the done set legal. */
  lemma {:induction false} StepLegal(t: Term, o: nat, p: Role, D: set<nat>, s: nat)
    requires Legal(t, o, p, D) && May(t, o, p, D, s)
    ensures Legal(t, o, p, D + {s}) && Started(t, o, p, D + {s})
    ensures !Finished(t, o, p, D)
  {
    match t
    case Send(_, _, _) =>
    case Join(op, l, r) =>
      var m := o + Sites(l);
      if s < m {
        StepLegal(l, o, p, D, s);
        Outside(r, m, p, D, s);
      } else {
        StepLegal(r, m, p, D, s);
        Outside(l, o, p, D, s);
      }
    case Resolve(i, _) => StepLegal(i, o, p, D, s);
  }

  lemma {:induction false} IdleIsFinished(t: Term, o: nat, p: Role, D: set<nat>)
    ensures Idle(Rest(t, o, p, D)) == Finished(t, o, p, D)
  {
    match t
    case Send(_, _, _) =>
    case Join(_, l, r) =>
      IdleIsFinished(l, o, p, D);
      IdleIsFinished(r, o + Sites(l), p, D);
    case Resolve(i, _) => IdleIsFinished(i, o, p, D);
  }

  /** The tree predicates are the residual semantics: a site may be taken exactly
      when the residual takes it, and the step leaves the residual of the larger
      done set. */
  lemma {:induction false} RestSteps(t: Term, o: nat, p: Role, D: set<nat>, s: nat)
    requires Legal(t, o, p, D)
    ensures May(t, o, p, D, s) <==> Take(Rest(t, o, p, D), s).Some?
    ensures May(t, o, p, D, s) ==> Take(Rest(t, o, p, D), s) == Some(Rest(t, o, p, D + {s}))
  {
    match t
    case Send(_, _, _) =>
    case Join(op, l, r) =>
      var m := o + Sites(l);
      IdleIsFinished(l, o, p, D);
      if s < m {
        RestSteps(l, o, p, D, s);
        Outside(r, m, p, D, s);
        if May(l, o, p, D, s) { StepLegal(l, o, p, D, s); }
      } else {
        RestSteps(r, m, p, D, s);
        Outside(l, o, p, D, s);
        if May(r, m, p, D, s) { StepLegal(r, m, p, D, s); }
      }
    case Resolve(i, _) => RestSteps(i, o, p, D, s);
  }
}
