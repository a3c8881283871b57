/** Budgets along an accepted chain: when delegation narrows a dimension, and when it need not. */
module Budgets {
  import opened Prelude
  import opened Patterns
  import opened Mandate

  predicate OtherMandates(c: Context, e: Context) {
    e == c.(mandates := e.mandates)
  }

  /** Every grant after the leaf and before the root names this dimension. */
  predicate NamedThroughout(chain: seq<Grant>, d: string) {
    forall k :: 0 < k < |chain| - 1 ==> Capped(chain[k].budget, d)
  }

  /** The leaf's cap is within every cap above it, along a chain whose every grant names the dimension. */
  lemma {:induction false} CapsNarrow(c: Context, chain: seq<Grant>, d: string, i: nat)
    requires IsChain(c, chain) && 1 <= i < |chain| && forall k :: 0 <= k < |chain| ==> Capped(chain[k].budget, d)
    ensures CapFault(CapOf(chain[0].budget, d), CapOf(chain[i].budget, d)).None?
  {
    assert Delegates(c, chain[i - 1], chain[i - 1 + 1]);
    CapWithin(chain[i - 1].budget, chain[i].budget, d);
    if i > 1 {
      CapsNarrow(c, chain, d, i - 1);
      CapsCompose(CapOf(chain[0].budget, d), CapOf(chain[i - 1].budget, d), CapOf(chain[i].budget, d));
    }
  }

  /** The same chain with other budgets, in which the same grants between leaf and root name the dimension. */
  predicate Rebudgeted(chain: seq<Grant>, other: seq<Grant>, d: string) {
    && |other| == |chain|
    && (forall k :: 0 <= k < |chain| ==> SameButBudget(chain[k], other[k]))
    && (forall k :: 0 < k < |chain| - 1 ==> (Capped(other[k].budget, d) <==> Capped(chain[k].budget, d)))
  }

  predicate SameButBudget(g: Grant, h: Grant) {
    h == g.(budget := h.budget)
  }

  predicate EndsNamed(chain: seq<Grant>, d: string) {
    chain != [] && Capped(chain[0].budget, d) && Capped(chain[|chain| - 1].budget, d)
  }

  predicate LeafWithinRoot(chain: seq<Grant>, d: string)
    requires chain != []
  {
    CapFault(CapOf(chain[0].budget, d), CapOf(chain[|chain| - 1].budget, d)).None?
  }

  predicate ExceedsRoot(chain: seq<Grant>, d: string) {
    EndsNamed(chain, d)
    && CapFault(CapOf(chain[0].budget, d), CapOf(chain[|chain| - 1].budget, d)) == Some("mandate-budget-exceeds-parent")
  }

  /** Budgets that agree on every hop and let the leaf exceed the root past the grant at `k`. */
  function Slack(chain: seq<Grant>, d: string, k: nat, i: nat): seq<(string, Cap)>
    requires i < |chain|
  {
    if i == k || (0 < i < |chain| - 1 && !Capped(chain[i].budget, d)) then []
    else if i < k then [(d, Whole(1))]
    else [(d, Whole(0))]
  }

  function Slackened(chain: seq<Grant>, d: string, k: nat): (r: seq<Grant>)
    ensures |r| == |chain| && forall i :: 0 <= i < |chain| ==> r[i] == chain[i].(budget := Slack(chain, d, k, i))
  {
    seq(|chain|, i requires 0 <= i < |chain| => chain[i].(budget := Slack(chain, d, k, i)))
  }

  lemma SlackFits(chain: seq<Grant>, d: string, k: nat, i: nat)
    requires 0 < k < |chain| - 1 && i < |chain| - 1
    ensures BudgetFault(Slack(chain, d, k, i), Slack(chain, d, k, i + 1)).None?
  {
    var child, parent := Slack(chain, d, k, i), Slack(chain, d, k, i + 1);
    if child != [] && parent != [] {
      assert parent[1..] == [] && CapOf(child, d) == parent[0].1;
    }
  }

  /** No grant stands twice in a chain, because hop budgets fall. */
  lemma ReferencesDiffer(c: Context, chain: seq<Grant>, i: nat, j: nat)
    requires IsChain(c, chain) && i < j < |chain| - 1
    ensures chain[i].parent != chain[j].parent
  {
    assert Delegates(c, chain[i], chain[i + 1]) && Delegates(c, chain[j], chain[j + 1]);
    DepthsRise(c, chain, i + 1, j + 1);
  }

  lemma {:induction false} DepthsRise(c: Context, chain: seq<Grant>, i: nat, j: nat)
    requires IsChain(c, chain) && i < j < |chain|
    ensures chain[i].maxDepth < chain[j].maxDepth
    decreases j
  {
    assert Delegates(c, chain[j - 1], chain[j - 1 + 1]);
    if i < j - 1 { DepthsRise(c, chain, i, j - 1); }
  }

  /** The mandates with the first `n` parents of a chain replaced. */
  function Replaced(mandates: map<string, Grant>, chain: seq<Grant>, other: seq<Grant>, n: nat): map<string, Grant>
    requires n < |chain| == |other| && forall i :: 0 <= i < n ==> chain[i].parent.Some?
  {
    if n == 0 then mandates
    else Replaced(mandates, chain, other, n - 1)[chain[n - 1].parent.value := other[n]]
  }

  lemma {:induction false} ReplacedHolds(c: Context, chain: seq<Grant>, other: seq<Grant>, n: nat, i: nat)
    requires IsChain(c, chain) && |other| == |chain| && i < n < |chain| && forall j :: 0 <= j < n ==> chain[j].parent.Some?
    ensures var r := chain[i].parent.value; var m := Replaced(c.mandates, chain, other, n);
      r in m && m[r] == other[i + 1]
    decreases n
  {
    if i < n - 1 {
      ReferencesDiffer(c, chain, i, n - 1);
      ReplacedHolds(c, chain, other, n - 1, i);
    }
  }

  lemma ParentsNamed(c: Context, chain: seq<Grant>)
    requires IsChain(c, chain)
    ensures forall i :: 0 <= i < |chain| - 1 ==> chain[i].parent.Some?
  {
    forall i | 0 <= i < |chain| - 1 ensures chain[i].parent.Some? { assert Delegates(c, chain[i], chain[i + 1]); }
  }

  lemma SlackDelegates(c: Context, chain: seq<Grant>, d: string, k: nat, i: nat, e: Context)
    requires IsChain(c, chain) && 0 < k < |chain| - 1 && i < |chain| - 1 && chain[i].parent.Some?
    requires var r := chain[i].parent.value; r in e.mandates && e.mandates[r] == Slackened(chain, d, k)[i + 1]
    ensures Delegates(e, Slackened(chain, d, k)[i], Slackened(chain, d, k)[i + 1])
  {
    assert Delegates(c, chain[i], chain[i + 1]);
    SlackFits(chain, d, k, i);
  }

  lemma SlackLinks(c: Context, chain: seq<Grant>, d: string, k: nat, e: Context)
    requires IsChain(c, chain) && OtherMandates(c, e)
    ensures forall i :: 0 <= i < |chain| ==> LinkFault(Slackened(chain, d, k)[i], e.at, e.revoked, e.question).None?
  {
    forall i | 0 <= i < |chain| ensures LinkFault(Slackened(chain, d, k)[i], e.at, e.revoked, e.question).None? {
      assert LinkFault(chain[i], c.at, c.revoked, c.question).None?;
    }
  }

  lemma SlackIsChain(c: Context, chain: seq<Grant>, d: string, k: nat) returns (e: Context)
    requires IsChain(c, chain) && 0 < k < |chain| - 1
    ensures OtherMandates(c, e) && IsChain(e, Slackened(chain, d, k))
  {
    var other, last := Slackened(chain, d, k), |chain| - 1;
    ParentsNamed(c, chain);
    e := c.(mandates := Replaced(c.mandates, chain, other, last));
    SlackLinks(c, chain, d, k, e);
    forall i | 0 <= i < |other| - 1 ensures Delegates(e, other[i], other[i + 1]) {
      ReplacedHolds(c, chain, other, last, i);
      SlackDelegates(c, chain, d, k, i, e);
    }
  }

  /** Ids and references stay as they are while budgets are replaced. An id in the system is a hash of its mandate, so
      the other chain stands for one of mandates with ids of their own that refer to each other as these do.

      Let some grant strictly between the ends omit a dimension. Then budgets exist, named by the same grants, with
      which the chain is still one and its leaf exceeds its root. */
  lemma OmittedCapLeavesOpen(c: Context, chain: seq<Grant>, d: string, k: nat)
    requires IsChain(c, chain) && 0 < k < |chain| - 1 && !Capped(chain[k].budget, d)
    ensures exists e, other :: OtherMandates(c, e) && Rebudgeted(chain, other, d) && IsChain(e, other) && ExceedsRoot(other, d)
  {
    var e := SlackIsChain(c, chain, d, k);
    SlackIsNamed(chain, d, k);
  }

  lemma SlackIsNamed(chain: seq<Grant>, d: string, k: nat)
    requires 0 < k < |chain| - 1 && !Capped(chain[k].budget, d)
    ensures Rebudgeted(chain, Slackened(chain, d, k), d) && ExceedsRoot(Slackened(chain, d, k), d)
  {
    var other := Slackened(chain, d, k);
    forall i | 0 < i < |chain| - 1 ensures Capped(other[i].budget, d) <==> Capped(chain[i].budget, d) {
      if other[i].budget != [] { assert other[i].budget[0].0 == d; }
    }
    assert other[0].budget[0].0 == d && other[|other| - 1].budget[0].0 == d;
  }

  /** Every budgeting of this chain that names the dimension at both ends keeps its leaf within its root. */
  ghost predicate AlwaysNarrows(c: Context, chain: seq<Grant>, d: string) {
    forall e, other :: OtherMandates(c, e) && Rebudgeted(chain, other, d) && IsChain(e, other) && EndsNamed(other, d)
                       && |other| > 1 ==>
      LeafWithinRoot(other, d)
  }

  /** Delegation narrows a dimension, whatever the caps, exactly when no grant between leaf and root omits it. */
  lemma NarrowsExactlyWhenNamed(c: Context, chain: seq<Grant>, d: string)
    requires IsChain(c, chain)
    ensures AlwaysNarrows(c, chain, d) <==> NamedThroughout(chain, d)
  {
    if NamedThroughout(chain, d) {
      forall e: Context, other: seq<Grant> | OtherMandates(c, e) && Rebudgeted(chain, other, d) && IsChain(e, other)
        && EndsNamed(other, d) && |other| > 1
        ensures LeafWithinRoot(other, d)
      {
        forall k | 0 <= k < |other| ensures Capped(other[k].budget, d) { if 0 < k < |other| - 1 { assert Capped(chain[k].budget, d); } }
        CapsNarrow(e, other, d, |other| - 1);
      }
    } else {
      var k :| 0 < k < |chain| - 1 && !Capped(chain[k].budget, d);
      OmittedCapLeavesOpen(c, chain, d, k);
      var e: Context, other: seq<Grant> :| OtherMandates(c, e) && Rebudgeted(chain, other, d) && IsChain(e, other) && ExceedsRoot(other, d);
      assert !LeafWithinRoot(other, d) && |other| > 1;
    }
  }

  // ---- it happens ----

  const NOTHING: Scope := Scope([], [], [], [])
  const ROOT: Grant := Grant("r", "interactive", None, Party("h", "human", "Ada"), "a", Some("h"), "1", "3", NOTHING,
                             [("requests", Whole(10))], 2)
  const MIDDLE: Grant := Grant("m", "delegated", Some("r"), Party("a", "agent", "A"), "b", Some("a"), "1", "3", NOTHING,
                               [("tokens", Whole(1))], 1)
  const LEAF: Grant := Grant("l", "delegated", Some("m"), Party("b", "agent", "B"), "k", Some("b"), "1", "3", NOTHING,
                             [("requests", Whole(100))], 0)
  const THREE: Context := Context(map["r" := ROOT, "m" := MIDDLE, "l" := LEAF], "2", map[], ["h"], Question(None, None), 3)

  lemma HopsOfThree()
    ensures HopFault(LEAF, MIDDLE).None? && HopFault(MIDDLE, ROOT).None?
  {
    LexTotal("1", "1");
    LexTotal("3", "3");
    assert !Capped(LEAF.budget, "tokens") && !Capped(MIDDLE.budget, "requests");
    assert MIDDLE.budget[1..] == [] && ROOT.budget[1..] == [];
  }

  /** A walk that is accepted, on a leaf that may make ten times the requests its root may. */
  lemma AcceptedAboveRoot()
    ensures WalkFrom(THREE, "l", "k") == Ok(Accepted("Ada", "h", 2))
    ensures ExceedsRoot([LEAF, MIDDLE, ROOT], "requests")
  {
    var chain := [LEAF, MIDDLE, ROOT];
    HopsOfThree();
    assert LexLt("1", "2") && LexLt("2", "3") by { assert "1"[0] < "2"[0] && "2"[0] < "3"[0]; }
    LexTotal("1", "2");
    LexTotal("2", "3");
    forall i | 0 <= i < 3 ensures LinkFault(chain[i], "2", map[], Question(None, None)).None? {}
    forall i | 0 <= i < 2 ensures Delegates(THREE, chain[i], chain[i + 1]) {}
    assert IsChain(THREE, chain);
    ChainIsWalked(THREE, chain, 0);
    assert LEAF.budget[0].0 == "requests" && ROOT.budget[0].0 == "requests";
    assert EndsNamed(chain, "requests");
  }
}
