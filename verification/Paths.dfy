/** Resolved paths: the sites a role visits once every route has an arm. */
module Paths {
  import opened Choreography
  import opened Progress
  import opened Projection

  /** The sites of `p` when exactly the conflicts in `R` take their right arm. */
  function Path(t: Term, o: nat, c: nat, p: Role, R: set<nat>): set<nat> {
    match t
    case Send(_, _, _) => if Involves(t, p) then {o} else {}
    case Join(op, l, r) =>
      var a := Path(l, o, LeftBase(op, c), p, R);
      var b := Path(r, o + Sites(l), LeftBase(op, c) + Routes(l), p, R);
      if !op.Route? then a + b else if c in R then b else a
    case Resolve(i, _) => Path(i, o, c, p, R)
  }

  /** The sites of `t` at which the role has acted. */
  function Acted(t: Term, o: nat, p: Role, D: set<nat>): set<nat> {
    match t
    case Send(_, _, _) => if Involves(t, p) && o in D then {o} else {}
    case Join(_, l, r) => Acted(l, o, p, D) + Acted(r, o + Sites(l), p, D)
    case Resolve(i, _) => Acted(i, o, p, D)
  }

  /** `R` names the arms the role has entered. */
  predicate Chosen(t: Term, o: nat, c: nat, p: Role, D: set<nat>, R: set<nat>) {
    match t
    case Send(_, _, _) => true
    case Join(op, l, r) =>
      && Chosen(l, o, LeftBase(op, c), p, D, R)
      && Chosen(r, o + Sites(l), LeftBase(op, c) + Routes(l), p, D, R)
      && (op.Route? ==>
            && (Started(l, o, p, D) ==> c !in R)
            && (Started(r, o + Sites(l), p, D) ==> c in R))
    case Resolve(i, _) => Chosen(i, o, c, p, D, R)
  }

  lemma {:induction false} ActedIs(t: Term, o: nat, p: Role, D: set<nat>)
    ensures forall s :: s in Acted(t, o, p, D) <==> s in D && Within(t, o, s) && Involves(Leaf(t, o, s), p)
    ensures Started(t, o, p, D) <==> Acted(t, o, p, D) != {}
  {
    match t
    case Send(_, _, _) =>
    case Join(_, l, r) =>
      ActedIs(l, o, p, D);
      ActedIs(r, o + Sites(l), p, D);
      assert Acted(l, o, p, D) <= Acted(t, o, p, D) && Acted(r, o + Sites(l), p, D) <= Acted(t, o, p, D);
    case Resolve(i, _) => ActedIs(i, o, p, D);
  }

  lemma {:induction false} NoPath(t: Term, o: nat, c: nat, p: Role, D: set<nat>, R: set<nat>)
    requires !Started(t, o, p, D) && Finished(t, o, p, D)
    ensures Path(t, o, c, p, R) == {} == Acted(t, o, p, D)
  {
    match t
    case Send(_, _, _) =>
    case Join(op, l, r) =>
      NoPath(l, o, LeftBase(op, c), p, D, R);
      NoPath(r, o + Sites(l), LeftBase(op, c) + Routes(l), p, D, R);
    case Resolve(i, _) => NoPath(i, o, c, p, D, R);
  }

  /** A finished role has acted at every site of its resolved path and nowhere in
      a discarded arm. */
  lemma {:induction false} FinishedIsPath(t: Term, o: nat, c: nat, p: Role, D: set<nat>, R: set<nat>)
    requires Legal(t, o, p, D) && Finished(t, o, p, D) && Chosen(t, o, c, p, D, R)
    ensures Acted(t, o, p, D) == Path(t, o, c, p, R)
  {
    match t
    case Send(_, _, _) =>
    case Join(op, l, r) =>
      var m, cl := o + Sites(l), LeftBase(op, c);
      ActedIs(l, o, p, D);
      ActedIs(r, m, p, D);
      if op.Route? && Started(l, o, p, D) {
        FinishedIsPath(l, o, cl, p, D, R);
      } else if op.Route? && Started(r, m, p, D) {
        FinishedIsPath(r, m, cl + Routes(l), p, D, R);
      } else if op.Route? {
        NoPath(l, o, cl, p, D, R);
        NoPath(r, m, cl + Routes(l), p, D, R);
      } else {
        FinishedIsPath(l, o, cl, p, D, R);
        FinishedIsPath(r, m, cl + Routes(l), p, D, R);
      }
    case Resolve(i, _) => FinishedIsPath(i, o, c, p, D, R);
  }

  /** An unfinished role may act somewhere. */
  lemma {:induction false} UnfinishedMay(t: Term, o: nat, p: Role, D: set<nat>) returns (s: nat)
    requires Legal(t, o, p, D) && !Finished(t, o, p, D)
    ensures May(t, o, p, D, s)
  {
    match t
    case Send(_, _, _) => s := o;
    case Join(op, l, r) =>
      var m := o + Sites(l);
      if !Finished(l, o, p, D) && !(op.Route? && Started(r, m, p, D)) {
        s := UnfinishedMay(l, o, p, D);
        MayWithin(l, o, p, D, s);
      } else {
        s := UnfinishedMay(r, m, p, D);
        MayWithin(r, m, p, D, s);
      }
    case Resolve(i, _) => s := UnfinishedMay(i, o, p, D);
  }

  /** The arms recorded in a state that tracks the done set. */
  lemma {:induction false} ChosenFromSelected(t: Term, o: nat, c: nat, p: Role, D: set<nat>, selected: seq<Option<nat>>, R: set<nat>)
    requires Tracks(t, o, c, p, D, selected) && Legal(t, o, p, D)
    requires forall x :: 0 <= x < |selected| && selected[x].Some? ==> (x in R <==> selected[x].value == 1)
    ensures Chosen(t, o, c, p, D, R)
  {
    match t
    case Send(_, _, _) =>
    case Join(op, l, r) =>
      ChosenFromSelected(l, o, LeftBase(op, c), p, D, selected, R);
      ChosenFromSelected(r, o + Sites(l), LeftBase(op, c) + Routes(l), p, D, selected, R);
    case Resolve(i, _) => ChosenFromSelected(i, o, c, p, D, selected, R);
  }
}
