/** Root-first chains of route decisions: reading a decision at its own depth, and
    merging the chains of several conflicts into one. */
module RouteChains {
  import opened Choreography

  /** One route decision. */
  datatype Decision = Decision(scope: nat, arm: nat)

  /** The route scopes of a descriptor by ordinal, each with the decision it lies
      under. Ordinals are handed out in preorder, so a parent has a smaller one. */
  type Forest = f: seq<Option<Decision>> | forall s :: 0 <= s < |f| && f[s].Some? ==> f[s].value.scope < s

  /** The registered chain of a decision: every ancestor, root first, then itself. */
  function ChainOf(f: Forest, s: nat, arm: nat): (c: seq<Decision>)
    requires s < |f|
    ensures |c| > 0 && c[|c| - 1] == Decision(s, arm)
    decreases s
  {
    (if f[s].None? then [] else ChainOf(f, f[s].value.scope, f[s].value.arm)) + [Decision(s, arm)]
  }

  /** The chain that a conflict selects; none when the scope is not registered. */
  function ChainFor(f: Forest, d: Decision): Option<seq<Decision>> {
    if d.scope < |f| then Some(ChainOf(f, d.scope, d.arm)) else None
  }

  predicate Complete(f: Forest, c: seq<Decision>) {
    c == [] || ChainFor(f, c[|c| - 1]) == Some(c)
  }

  // -------------------------------------------------------------------- lookup

  /** What the runtime does: read the one position at the scope's own depth. */
  function ArmForScope(f: Forest, c: seq<Decision>, s: nat): Option<nat> {
    if c == [] || s >= |f| then None
    else
      var depth := |ChainOf(f, s, 0)| - 1;
      if depth < |c| && c[depth].scope == s then Some(c[depth].arm) else None
  }

  /** What it stands for: search the whole chain. */
  function Scan(c: seq<Decision>, s: nat): Option<nat> {
    if c == [] then None else if c[0].scope == s then Some(c[0].arm) else Scan(c[1..], s)
  }

  lemma {:induction false} ScanIs(c: seq<Decision>, s: nat)
    ensures Scan(c, s).None? <==> forall i :: 0 <= i < |c| ==> c[i].scope != s
    ensures Scan(c, s).Some? ==> Decision(s, Scan(c, s).value) in c
  {
    if c != [] && c[0].scope != s {
      ScanIs(c[1..], s);
      assert c == [c[0]] + c[1..];
    }
  }

  /** The arm of a decision does not change how deep its scope lies. */
  lemma {:induction false} SameDepth(f: Forest, s: nat, a: nat, b: nat)
    requires s < |f|
    ensures |ChainOf(f, s, a)| == |ChainOf(f, s, b)|
  {
  }

  /** Every prefix of a registered chain is the chain of its last decision. */
  lemma {:induction false} PrefixIsChain(f: Forest, s: nat, arm: nat, i: nat)
    requires s < |f| && i < |ChainOf(f, s, arm)|
    ensures var c := ChainOf(f, s, arm); c[i].scope < |f| && c[..i + 1] == ChainOf(f, c[i].scope, c[i].arm)
    decreases s
  {
    var c := ChainOf(f, s, arm);
    if i < |c| - 1 {
      var p := ChainOf(f, f[s].value.scope, f[s].value.arm);
      assert c == p + [Decision(s, arm)];
      PrefixIsChain(f, f[s].value.scope, f[s].value.arm, i);
      assert c[..i + 1] == p[..i + 1];
    } else {
      assert c[..i + 1] == c;
    }
  }

  lemma {:induction false} CompletePrefix(f: Forest, c: seq<Decision>, i: nat)
    requires Complete(f, c) && i < |c|
    ensures c[i].scope < |f| && c[..i + 1] == ChainOf(f, c[i].scope, c[i].arm)
  {
    var last := c[|c| - 1];
    assert last.scope < |f| && c == ChainOf(f, last.scope, last.arm);
    PrefixIsChain(f, last.scope, last.arm, i);
  }

  /** Depth lookup equals the scan of the chain. */
  lemma {:induction false} DepthLookupIsScan(f: Forest, c: seq<Decision>, s: nat)
    requires Complete(f, c)
    ensures ArmForScope(f, c, s) == Scan(c, s)
  {
    ScanIs(c, s);
    forall i | 0 <= i < |c| && c[i].scope == s ensures s < |f| && i == |ChainOf(f, s, 0)| - 1 {
      CompletePrefix(f, c, i);
      SameDepth(f, s, c[i].arm, 0);
    }
    if Scan(c, s).Some? {
      var i :| 0 <= i < |c| && c[i] == Decision(s, Scan(c, s).value);
    }
  }

  /** Containment of complete chains is the prefix order. */
  lemma {:induction false} ContainsIffPrefix(f: Forest, c: seq<Decision>, d: seq<Decision>)
    requires Complete(f, c) && Complete(f, d)
    ensures (forall r :: r in d ==> r in c) <==> d <= c
  {
    if d != [] && forall r :: r in d ==> r in c {
      assert d[|d| - 1] in c;
      var i :| 0 <= i < |c| && c[i] == d[|d| - 1];
      CompletePrefix(f, c, i);
    }
  }

  // --------------------------------------------------------------------- merge

  /** Selected rows under construction. */
  datatype Selection = Selection(rows: seq<Decision>, lane: nat)

  datatype Request = Request(lane: nat, conflict: Decision)

  const EMPTY := Selection([], 0)

  /** Merging a conflict's chain into a selection: keep the longer of the two when
      one is a prefix of the other. */
  function Merge(f: Forest, maxLen: nat, sel: Selection, r: Request): Option<Selection> {
    var chain := ChainFor(f, r.conflict);
    if chain.None? || |chain.value| > maxLen then None
    else if sel.rows == [] then Some(Selection(chain.value, r.lane))
    else if sel.lane != r.lane then None
    else if chain.value <= sel.rows then Some(sel)
    else if sel.rows <= chain.value then Some(Selection(chain.value, r.lane))
    else None
  }

  /** The mutable row set of the kernel. */
  class SelectedRouteCommitRows {
    const maxLen: nat
    var rows: seq<Decision>
    var lane: nat

    constructor (maxLen: nat)
      ensures this.maxLen == maxLen && Selection(rows, lane) == EMPTY
    {
      this.maxLen := maxLen;
      rows, lane := [], 0;
    }

    method StartsWith(longer: seq<Decision>, shorter: seq<Decision>) returns (yes: bool)
      ensures yes <==> shorter <= longer
    {
      if |longer| < |shorter| { return false; }
      for i := 0 to |shorter|
        invariant shorter[..i] <= longer
      {
        if longer[i] != shorter[i] { return false; }
      }
      assert shorter[..|shorter|] == shorter;
      yes := true;
    }

    method MergeChain(f: Forest, r: Request) returns (ok: bool)
      modifies this
      ensures var merged := Merge(f, maxLen, old(Selection(rows, lane)), r);
        && (ok <==> merged.Some?)
        && Selection(rows, lane) == if ok then merged.value else old(Selection(rows, lane))
    {
      if r.conflict.scope >= |f| { return false; }
      var incoming := ChainOf(f, r.conflict.scope, r.conflict.arm);
      if |incoming| > maxLen { return false; }
      if rows == [] {
        rows, lane := incoming, r.lane;
        return true;
      }
      if lane != r.lane { return false; }
      var covered := StartsWith(rows, incoming);
      if covered { return true; }
      ok := StartsWith(incoming, rows);
      if ok { rows, lane := incoming, r.lane; }
    }
  }

  function MergeAll(f: Forest, maxLen: nat, rs: seq<Request>): Option<Selection> {
    if rs == [] then Some(EMPTY)
    else
      var before := MergeAll(f, maxLen, rs[..|rs| - 1]);
      if before.None? then None else Merge(f, maxLen, before.value, rs[|rs| - 1])
  }

  predicate Comparable(c: seq<Decision>, d: seq<Decision>) { c <= d || d <= c }

  /** Each request selects a registered chain within the bound. */
  predicate Registered(f: Forest, maxLen: nat, r: Request) {
    r.conflict.scope < |f| && |ChainOf(f, r.conflict.scope, r.conflict.arm)| <= maxLen
  }

  predicate AllRegistered(f: Forest, maxLen: nat, rs: seq<Request>) { forall r :: r in rs ==> Registered(f, maxLen, r) }

  function Rows(f: Forest, r: Request): seq<Decision>
    requires r.conflict.scope < |f|
  {
    ChainOf(f, r.conflict.scope, r.conflict.arm)
  }

  /** One lane, and any two chains comparable. */
  predicate Compatible(f: Forest, maxLen: nat, rs: seq<Request>)
    requires AllRegistered(f, maxLen, rs)
  {
    forall i, j :: 0 <= i < j < |rs| ==>
      && Registered(f, maxLen, rs[i]) && Registered(f, maxLen, rs[j])
      && rs[i].lane == rs[j].lane && Comparable(Rows(f, rs[i]), Rows(f, rs[j]))
  }

  /** The selection is the chain of one request and contains all of them. */
  ghost predicate LeastUpperBound(f: Forest, maxLen: nat, rs: seq<Request>, sel: Selection)
    requires AllRegistered(f, maxLen, rs)
  {
    && (rs == [] ==> sel == EMPTY)
    && (rs != [] ==> exists r :: r in rs && Registered(f, maxLen, r) && sel == Selection(Rows(f, r), r.lane))
    && (forall r :: r in rs ==> Registered(f, maxLen, r) && r.lane == sel.lane && Rows(f, r) <= sel.rows)
  }

  lemma {:induction false} MergeStep(f: Forest, maxLen: nat, init: seq<Request>, r: Request, sel: Selection)
    requires AllRegistered(f, maxLen, init) && LeastUpperBound(f, maxLen, init, sel)
    ensures var merged := Merge(f, maxLen, sel, r);
      && (merged.Some? <==> Registered(f, maxLen, r) && (init == [] || (r.lane == sel.lane && Comparable(Rows(f, r), sel.rows))))
      && (merged.Some? ==> AllRegistered(f, maxLen, init + [r]) && LeastUpperBound(f, maxLen, init + [r], merged.value))
  {
    MergeSucceeds(f, maxLen, init, r, sel);
    var merged := Merge(f, maxLen, sel, r);
    if merged.Some? {
      hide Merge;
      hide Rows;
      hide Registered;
      assert forall x :: x in init + [r] <==> x in init || x == r;
      if init != [] && merged.value == sel {
        var w :| w in init && Registered(f, maxLen, w) && sel == Selection(Rows(f, w), w.lane);
        assert w in init + [r];
      } else {
        assert r in init + [r];
      }
    }
  }

  /** One merge: exactly when it succeeds, and which of the two chains it keeps. */
  lemma {:induction false} MergeSucceeds(f: Forest, maxLen: nat, init: seq<Request>, r: Request, sel: Selection)
    requires AllRegistered(f, maxLen, init) && LeastUpperBound(f, maxLen, init, sel)
    ensures var merged := Merge(f, maxLen, sel, r);
      && (merged.Some? <==> Registered(f, maxLen, r) && (init == [] || (r.lane == sel.lane && Comparable(Rows(f, r), sel.rows))))
      && (merged.Some? ==> merged.value == Selection(Rows(f, r), r.lane) || (init != [] && merged.value == sel))
      && (merged.Some? && init != [] ==> r.lane == sel.lane && sel.rows <= merged.value.rows && Rows(f, r) <= merged.value.rows)
  {
    hide ChainOf;
    if init != [] {
      var w :| w in init && Registered(f, maxLen, w) && sel == Selection(Rows(f, w), w.lane);
    }
  }

  /** Chain merge is a least upper bound. Merging a sequence of requests succeeds
      exactly when every chain is registered and within the bound and they are
      pairwise compatible on one lane; the result is then the longest of them. */
  lemma {:induction false} MergeIsLeastUpperBound(f: Forest, maxLen: nat, rs: seq<Request>)
    ensures MergeAll(f, maxLen, rs).Some? <==> AllRegistered(f, maxLen, rs) && Compatible(f, maxLen, rs)
    ensures MergeAll(f, maxLen, rs).Some? ==> LeastUpperBound(f, maxLen, rs, MergeAll(f, maxLen, rs).value)
  {
    if rs != [] {
      var init, r := rs[..|rs| - 1], rs[|rs| - 1];
      assert rs == init + [r];
      MergeIsLeastUpperBound(f, maxLen, init);
      if MergeAll(f, maxLen, init).Some? {
        var sel := MergeAll(f, maxLen, init).value;
        MergeStep(f, maxLen, init, r, sel);
        if Merge(f, maxLen, sel, r).Some? {
          BoundIsCompatible(f, maxLen, rs, Merge(f, maxLen, sel, r).value);
        } else if AllRegistered(f, maxLen, rs) && Compatible(f, maxLen, rs) {
          TopIsCompatible(f, maxLen, init, r, sel);
        }
      } else if AllRegistered(f, maxLen, rs) && Compatible(f, maxLen, rs) {
        assert AllRegistered(f, maxLen, init);
        assert forall i, j :: 0 <= i < j < |init| ==> init[i] == rs[i] && init[j] == rs[j];
        assert Compatible(f, maxLen, init);
      }
    }
  }

  lemma {:induction false} BoundIsCompatible(f: Forest, maxLen: nat, rs: seq<Request>, sel: Selection)
    requires AllRegistered(f, maxLen, rs) && LeastUpperBound(f, maxLen, rs, sel)
    ensures Compatible(f, maxLen, rs)
  {
    forall i, j | 0 <= i < j < |rs|
      ensures Registered(f, maxLen, rs[i]) && Registered(f, maxLen, rs[j])
      ensures rs[i].lane == rs[j].lane && Comparable(Rows(f, rs[i]), Rows(f, rs[j]))
    {
      assert rs[i] in rs && rs[j] in rs;
    }
  }

  lemma {:induction false} TopIsCompatible(f: Forest, maxLen: nat, init: seq<Request>, r: Request, sel: Selection)
    requires AllRegistered(f, maxLen, init + [r]) && Compatible(f, maxLen, init + [r])
    requires AllRegistered(f, maxLen, init) && LeastUpperBound(f, maxLen, init, sel)
    ensures Registered(f, maxLen, r) && (init == [] || (r.lane == sel.lane && Comparable(Rows(f, r), sel.rows)))
  {
    var rs := init + [r];
    assert r in rs;
    if init != [] {
      var w :| w in init && Registered(f, maxLen, w) && sel == Selection(Rows(f, w), w.lane);
      var i :| 0 <= i < |init| && init[i] == w;
      assert rs[i] == w && rs[|init|] == r;
    }
  }

  lemma {:induction false} MergedInAnyOrder(f: Forest, maxLen: nat, rs: seq<Request>, qs: seq<Request>)
    requires forall r :: r in rs <==> r in qs
    requires MergeAll(f, maxLen, rs).Some?
    ensures MergeAll(f, maxLen, qs) == MergeAll(f, maxLen, rs)
  {
    MergeIsLeastUpperBound(f, maxLen, rs);
    MergeIsLeastUpperBound(f, maxLen, qs);
    var sel := MergeAll(f, maxLen, rs).value;
    assert qs != [] ==> qs[0] in qs;
    if rs != [] {
      assert rs[0] in qs;
      assert AllRegistered(f, maxLen, qs);
      assert LeastUpperBound(f, maxLen, qs, sel);
      BoundIsCompatible(f, maxLen, qs, sel);
    }
  }

  /** Success and the merged chain do not depend on the order of the requests. */
  lemma {:induction false} MergeOrderIrrelevant(f: Forest, maxLen: nat, rs: seq<Request>, qs: seq<Request>)
    requires forall r :: r in rs <==> r in qs
    ensures MergeAll(f, maxLen, qs) == MergeAll(f, maxLen, rs)
  {
    if MergeAll(f, maxLen, rs).Some? { MergedInAnyOrder(f, maxLen, rs, qs); }
    else if MergeAll(f, maxLen, qs).Some? { MergedInAnyOrder(f, maxLen, qs, rs); }
  }

  /** Nothing shorter would do: a complete chain that contains every request's
      chain contains the merged one. */
  lemma {:induction false} MergeIsLeast(f: Forest, maxLen: nat, rs: seq<Request>, c: seq<Decision>)
    requires MergeAll(f, maxLen, rs).Some? && forall r :: r in rs && r.conflict.scope < |f| ==> Rows(f, r) <= c
    ensures MergeAll(f, maxLen, rs).value.rows <= c
  {
    MergeIsLeastUpperBound(f, maxLen, rs);
    var sel := MergeAll(f, maxLen, rs).value;
    if rs != [] {
      var r :| r in rs && Registered(f, maxLen, r) && sel == Selection(Rows(f, r), r.lane);
    }
  }
}
