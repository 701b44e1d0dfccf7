/** The choreography type tree that roles project, and static facts about it.

    A message site is a leaf of the tree. Sites are numbered left to right, so a
    site's number is its source position, the identity the transport calls a
    frame label. */
module Choreography {

  /** Role identifiers are `u8`. */
  type Role = r: int | 0 <= r < 256

  datatype Option<+T> = None | Some(value: T)

  datatype Op = Seq | Par | Route

  datatype Term =
    | Send(from: Role, to: Role, logical: nat)
    | Join(op: Op, left: Term, right: Term)
    | Resolve(inner: Term, resolver: nat)

  /** Number of message sites. */
  function Sites(t: Term): (n: nat)
    ensures n >= 1
  {
    match t
    case Send(_, _, _) => 1
    case Join(_, l, r) => Sites(l) + Sites(r)
    case Resolve(i, _) => Sites(i)
  }

  /** Number of routes, which is also the number of conflict identities. */
  function Routes(t: Term): nat {
    match t
    case Send(_, _, _) => 0
    case Join(op, l, r) => (if op.Route? then 1 else 0) + Routes(l) + Routes(r)
    case Resolve(i, _) => Routes(i)
  }

  /** Number of nodes that open two child lanes. */
  function Forks(t: Term): nat {
    match t
    case Send(_, _, _) => 0
    case Join(op, l, r) => (if op.Seq? then 0 else 1) + Forks(l) + Forks(r)
    case Resolve(i, _) => Forks(i)
  }

  predicate Within(t: Term, o: nat, s: nat) { o <= s < o + Sites(t) }

  /** The leaf at site `s`, for a term whose first site is `o`. */
  function Leaf(t: Term, o: nat, s: nat): (leaf: Term)
    requires Within(t, o, s)
    ensures leaf.Send?
  {
    match t
    case Send(_, _, _) => t
    case Join(_, l, r) => if s < o + Sites(l) then Leaf(l, o, s) else Leaf(r, o + Sites(l), s)
    case Resolve(i, _) => Leaf(i, o, s)
  }

  predicate Involves(leaf: Term, p: Role)
    requires leaf.Send?
  {
    p == leaf.from || p == leaf.to
  }

  predicate Occurs(t: Term, p: Role) {
    match t
    case Send(_, _, _) => Involves(t, p)
    case Join(_, l, r) => Occurs(l, p) || Occurs(r, p)
    case Resolve(i, _) => Occurs(i, p)
  }

  /** The role that acts first: the sender at the leftmost site. */
  function Leader(t: Term): Role {
    match t
    case Send(f, _, _) => f
    case Join(_, l, _) => Leader(l)
    case Resolve(i, _) => Leader(i)
  }

  /** Every event with which `p` can begin `t` is a receive. */
  predicate FirstsReceive(t: Term, p: Role) {
    match t
    case Send(f, _, _) => p != f
    case Join(op, l, r) => FirstsReceive(l, p) && ((op.Seq? && Occurs(l, p)) || FirstsReceive(r, p))
    case Resolve(i, _) => FirstsReceive(i, p)
  }

  /** The accepted choices: both arms of a route have the same participants, and
      every participant except the chooser begins each arm by receiving. The
      chooser is the leader of the left arm; the leader of an arm begins it by
      sending, so no other role could be the exempt one. */
  predicate KnowsChoice(t: Term) {
    match t
    case Send(_, _, _) => true
    case Join(op, l, r) =>
      && KnowsChoice(l)
      && KnowsChoice(r)
      && (op.Route? ==>
            && (forall p: Role :: Occurs(l, p) == Occurs(r, p))
            && (forall p: Role :: p != Leader(l) ==> FirstsReceive(l, p) && FirstsReceive(r, p)))
    case Resolve(i, _) => KnowsChoice(i)
  }

  lemma {:induction false} LeaderOccurs(t: Term)
    ensures Occurs(t, Leader(t))
    ensures !FirstsReceive(t, Leader(t))
  {
    match t
    case Send(_, _, _) =>
    case Join(_, l, _) => LeaderOccurs(l);
    case Resolve(i, _) => LeaderOccurs(i);
  }
}
