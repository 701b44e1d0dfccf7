/** All roles of one choreography together, over the tree.

    A board records, for every role, the sites at which it has acted. The
    invariants here are what makes the composed session agree on every choice and
    never get stuck. */
module Agreement {
  import opened Choreography
  import opened Progress

  type Board = k: seq<set<nat>> | |k| == 256 witness seq(256, _ => {})

  /** Every role runs legally, no receive precedes its send, and a role is inside
      an arm only if the chooser of that route is inside the same arm. */
  ghost predicate Agreed(t: Term, o: nat, K: Board) {
    match t
    case Send(f, g, _) => o in K[g] && f != g ==> o in K[f]
    case Join(op, l, r) =>
      var m := o + Sites(l);
      && Agreed(l, o, K)
      && Agreed(r, m, K)
      && (op.Route? ==> forall p: Role ::
            && (Started(l, o, p, K[p]) ==> Started(l, o, Leader(l), K[Leader(l)]))
            && (Started(r, m, p, K[p]) ==> Started(r, m, Leader(l), K[Leader(l)])))
    case Resolve(i, _) => Agreed(i, o, K)
  }

  ghost predicate AllLegal(t: Term, o: nat, K: Board) {
    forall p: Role :: Legal(t, o, p, K[p])
  }

  /** The role may act at the site, and a receive finds its frame sent. */
  ghost predicate Ready(t: Term, o: nat, K: Board, p: Role, s: nat) {
    && May(t, o, p, K[p], s)
    && Within(t, o, s)
    && (Leaf(t, o, s).from != p ==> s in K[Leaf(t, o, s).from])
  }

  function Mark(K: Board, p: Role, s: nat): Board { K[p := K[p] + {s}] }

  lemma {:induction false} Absent(t: Term, o: nat, p: Role, D: set<nat>)
    requires !Occurs(t, p)
    ensures !Started(t, o, p, D) && Finished(t, o, p, D)
  {
    match t
    case Send(_, _, _) =>
    case Join(_, l, r) => Absent(l, o, p, D); Absent(r, o + Sites(l), p, D);
    case Resolve(i, _) => Absent(i, o, p, D);
  }

  lemma {:induction false} Untouched(t: Term, o: nat, p: Role, D: set<nat>)
    requires Occurs(t, p) && !Started(t, o, p, D)
    ensures !Finished(t, o, p, D)
  {
    match t
    case Send(_, _, _) =>
    case Join(_, l, r) =>
      if Occurs(l, p) { Untouched(l, o, p, D); } else { Untouched(r, o + Sites(l), p, D); }
    case Resolve(i, _) => Untouched(i, o, p, D);
  }

  /** A role whose first events are receives enters a term only by receiving. */
  lemma {:induction false} EntersByReceiving(t: Term, o: nat, p: Role, D: set<nat>, s: nat)
    requires FirstsReceive(t, p) && !Started(t, o, p, D) && May(t, o, p, D, s)
    ensures Within(t, o, s) && Leaf(t, o, s).from != p
  {
    MayWithin(t, o, p, D, s);
    match t
    case Send(_, _, _) =>
    case Join(op, l, r) =>
      if s < o + Sites(l) {
        EntersByReceiving(l, o, p, D, s);
      } else {
        if op.Seq? && Occurs(l, p) { Untouched(l, o, p, D); }
        EntersByReceiving(r, o + Sites(l), p, D, s);
      }
    case Resolve(i, _) => EntersByReceiving(i, o, p, D, s);
  }

  lemma {:induction false} SenderStarted(t: Term, o: nat, K: Board, s: nat)
    requires Within(t, o, s) && s in K[Leaf(t, o, s).from]
    ensures Started(t, o, Leaf(t, o, s).from, K[Leaf(t, o, s).from])
  {
    match t
    case Send(_, _, _) =>
    case Join(_, l, r) =>
      if s < o + Sites(l) { SenderStarted(l, o, K, s); } else { SenderStarted(r, o + Sites(l), K, s); }
    case Resolve(i, _) => SenderStarted(i, o, K, s);
  }

  lemma {:induction false} AgreedOutside(t: Term, o: nat, K: Board, p: Role, s: nat)
    requires !Within(t, o, s)
    ensures Agreed(t, o, Mark(K, p, s)) == Agreed(t, o, K)
    ensures forall q: Role :: Started(t, o, q, Mark(K, p, s)[q]) == Started(t, o, q, K[q])
  {
    Outside(t, o, p, K[p], s);
    match t
    case Send(_, _, _) =>
    case Join(_, l, r) =>
      AgreedOutside(l, o, K, p, s);
      AgreedOutside(r, o + Sites(l), K, p, s);
    case Resolve(i, _) => AgreedOutside(i, o, K, p, s);
  }

  /** Branch agreement is kept by every ready step. */
  lemma {:induction false} AgreedStep(t: Term, o: nat, K: Board, p: Role, s: nat)
    requires KnowsChoice(t) && Agreed(t, o, K) && AllLegal(t, o, K) && Ready(t, o, K, p, s)
    ensures Agreed(t, o, Mark(K, p, s))
  {
    match t
    case Send(_, _, _) =>
    case Join(op, l, r) =>
      var m := o + Sites(l);
      assert AllLegal(l, o, K) && AllLegal(r, m, K);
      if s < m {
        MayWithin(l, o, p, K[p], s);
        AgreedStep(l, o, K, p, s);
        AgreedOutside(r, m, K, p, s);
        if op.Route? { ArmStep(l, o, Leader(l), K, p, s); }
      } else {
        MayWithin(r, m, p, K[p], s);
        AgreedStep(r, m, K, p, s);
        AgreedOutside(l, o, K, p, s);
        if op.Route? { ArmStep(r, m, Leader(l), K, p, s); }
      }
    case Resolve(i, _) =>
      assert AllLegal(i, o, K);
      AgreedStep(i, o, K, p, s);
  }

  /** One arm of a route: whoever steps into it, the chooser is already there. */
  lemma {:induction false} ArmStep(a: Term, o: nat, k: Role, K: Board, p: Role, s: nat)
    requires AllLegal(a, o, K) && Ready(a, o, K, p, s)
    requires p != k ==> FirstsReceive(a, p)
    requires forall q: Role :: Started(a, o, q, K[q]) ==> Started(a, o, k, K[k])
    ensures forall q: Role :: Started(a, o, q, Mark(K, p, s)[q]) ==> Started(a, o, k, Mark(K, p, s)[k])
  {
    StepLegal(a, o, p, K[p], s);
    if p != k && !Started(a, o, p, K[p]) {
      EntersByReceiving(a, o, p, K[p], s);
      SenderStarted(a, o, K, s);
    }
  }

  /** Deadlock freedom over the tree: while any role is unfinished, some role has
      a send, a local step, or a receive whose frame has been sent. */
  lemma {:induction false} SomeoneReady(t: Term, o: nat, K: Board, p: Role) returns (q: Role, s: nat)
    requires KnowsChoice(t) && Agreed(t, o, K) && AllLegal(t, o, K)
    requires !Finished(t, o, p, K[p])
    ensures Ready(t, o, K, q, s)
  {
    match t
    case Send(f, g, _) => q, s := if o in K[f] then g else f, o;
    case Join(op, l, r) =>
      var m := o + Sites(l);
      assert AllLegal(l, o, K) && AllLegal(r, m, K);
      if op.Route? {
        var k := Leader(l);
        LeaderOccurs(l);
        assert Legal(t, o, k, K[k]) && Legal(t, o, p, K[p]);
        if !Occurs(l, p) { Absent(l, o, p, K[p]); Absent(r, m, p, K[p]); }
        if Started(r, m, k, K[k]) {
          if !Started(r, m, p, K[p]) { Untouched(r, m, p, K[p]); }
          q, s := SomeoneReady(r, m, K, p);
        } else {
          var u := if Started(l, o, k, K[k]) then p else k;
          if !Started(l, o, u, K[u]) { Untouched(l, o, u, K[u]); }
          q, s := SomeoneReady(l, o, K, u);
        }
      } else if u: Role :| !Finished(l, o, u, K[u]) {
        q, s := SomeoneReady(l, o, K, u);
      } else {
        q, s := SomeoneReady(r, m, K, p);
      }
    case Resolve(i, _) =>
      assert AllLegal(i, o, K);
      q, s := SomeoneReady(i, o, K, p);
  }
}
