/** The rules of delegation written on the members of the grants, and the walk against them. */
module MandateRules {
  import opened Prelude
  import opened Patterns
  import opened Mandate
  import Decimal
  import Money

  /** The grant allows what is asked: signed by who grants it, to somebody else, in its window, not revoked, and for
      the request and the resource in question. */
  ghost predicate Allows(g: Grant, c: Context) {
    && g.signer == Some(g.grantor.key) && g.grantor.key != g.grantee
    && g.notAfter != "" && LexLe(g.notBefore, c.at) && LexLe(c.at, g.notAfter)
    && (g.id in c.revoked ==> LexLt(c.at, c.revoked[g.id]))
    && (c.question.request.Some? ==>
          var r := c.question.request.value;
          && Names(g.scope.components, r.component) && Names(g.scope.actions, r.action)
          && Names(g.scope.classes, r.classification) && Names(g.scope.resources, r.resource))
    && (c.question.resource.Some? ==> Names(g.scope.resources, c.question.resource.value))
  }

  /** Some pattern is `*`, the value itself, or a prefix of it that ends at a point. */
  ghost predicate Names(patterns: seq<string>, value: string) {
    exists i :: 0 <= i < |patterns| && Spells(patterns[i], value)
  }

  ghost predicate Spells(pattern: string, value: string) {
    pattern == "*" || pattern == value || exists prefix, rest :: pattern == prefix + ".*" && value == prefix + "." + rest
  }

  /** Each pattern spells only values that one and the same of the parent's does. */
  ghost predicate Narrows(child: seq<string>, parent: seq<string>) {
    forall i :: 0 <= i < |child| ==> IncludedIn(parent, child[i])
  }

  ghost predicate IncludedIn(parent: seq<string>, pattern: string) {
    exists j :: 0 <= j < |parent| && Includes(parent[j], pattern)
  }

  ghost predicate Includes(wider: string, narrower: string) {
    forall value :: Spells(narrower, value) ==> Spells(wider, value)
  }

  /** The cap a child sets against its parent's: exact amounts, or counts; a boolean bounds a count by 0 or 1. */
  ghost predicate CapHolds(value: Cap, bound: Cap) {
    match (value, bound)
    case (Amount(v), Amount(b)) => Decimal.IsDecimal(v) && Decimal.IsDecimal(b) && Decimal.Amount(v) <= Decimal.Amount(b)
    case (Whole(v), Whole(b)) => v <= b
    case (Whole(v), Flag(on)) => v <= if on then 1 else 0
    case _ => false
  }

  /** Where both name a dimension the child's first cap on it holds against each of the parent's. */
  ghost predicate CapsHold(child: seq<(string, Cap)>, parent: seq<(string, Cap)>) {
    forall i, j :: 0 <= i < |parent| && 0 <= j < |child| && child[j].0 == parent[i].0
                   && (forall k :: 0 <= k < j ==> child[k].0 != child[j].0) ==>
      CapHolds(child[j].1, parent[i].1)
  }

  /** One delegation: by an agent who holds the parent, with fewer hops left, and nothing wider. */
  ghost predicate DelegatedUnder(g: Grant, parent: Grant, c: Context) {
    && g.kind == "delegated" && g.grantor.role == "agent" && g.grantor.key == parent.grantee
    && g.parent.Some? && g.parent.value in c.mandates && c.mandates[g.parent.value] == parent
    && 1 <= parent.maxDepth && g.maxDepth < parent.maxDepth
    && Narrows(g.scope.components, parent.scope.components) && Narrows(g.scope.actions, parent.scope.actions)
    && Narrows(g.scope.classes, parent.scope.classes) && Narrows(g.scope.resources, parent.scope.resources)
    && LexLe(parent.notBefore, g.notBefore) && LexLe(g.notAfter, parent.notAfter)
    && CapsHold(g.budget, parent.budget)
  }

  /** A human whose key is enrolled grants it, to hold now or for as long as it stands. */
  predicate Rooted(g: Grant, roots: seq<string>) {
    && (g.kind == "interactive" || g.kind == "standing") && g.parent.None?
    && g.grantor.role == "human" && g.grantor.key in roots
  }

  ghost predicate Lawful(c: Context, reference: string, subjectKey: string, chain: seq<Grant>) {
    && reference in c.mandates && chain != [] && chain[0] == c.mandates[reference] && chain[0].grantee == subjectKey
    && (forall i :: 0 <= i < |chain| ==> Allows(chain[i], c))
    && (forall i :: 0 <= i < |chain| - 1 ==> DelegatedUnder(chain[i], chain[i + 1], c))
    && Rooted(chain[|chain| - 1], c.roots)
    && (|chain| > 1 ==> |chain| - 1 <= c.maxDepth)
  }

  // ---- the checks against the rules ----

  lemma SpellsExactly(pattern: string, value: string)
    ensures PatternMatches(pattern, value) <==> Spells(pattern, value)
  {
    PatternMeans(pattern, value);
  }

  lemma NamesExactly(patterns: seq<string>, value: string)
    ensures Matches(patterns, value) <==> Names(patterns, value)
  {
    forall i | 0 <= i < |patterns| ensures PatternMatches(patterns[i], value) <==> Spells(patterns[i], value) {
      SpellsExactly(patterns[i], value);
    }
  }

  lemma IncludesExactly(wider: string, narrower: string)
    ensures Covers(wider, narrower) <==> Includes(wider, narrower)
  {
    CoversIsInclusion(wider, narrower);
    if Covers(wider, narrower) {
      forall value | Spells(narrower, value) ensures Spells(wider, value) {
        SpellsExactly(narrower, value);
        SpellsExactly(wider, value);
      }
    }
    if Includes(wider, narrower) {
      forall value | PatternMatches(narrower, value) ensures PatternMatches(wider, value) {
        SpellsExactly(narrower, value);
        SpellsExactly(wider, value);
      }
    }
  }

  lemma CoveredExactly(parent: seq<string>, pattern: string)
    ensures Covered(parent, pattern) <==> IncludedIn(parent, pattern)
  {
    if Covered(parent, pattern) {
      var j :| 0 <= j < |parent| && Covers(parent[j], pattern);
      IncludesExactly(parent[j], pattern);
    }
    if j :| 0 <= j < |parent| && Includes(parent[j], pattern) {
      IncludesExactly(parent[j], pattern);
    }
  }

  lemma NarrowsExactly(child: seq<string>, parent: seq<string>)
    ensures SubsetOf(child, parent) <==> Narrows(child, parent)
  {
    if SubsetOf(child, parent) {
      forall i | 0 <= i < |child| ensures IncludedIn(parent, child[i]) {
        assert Covered(parent, child[i]);
        CoveredExactly(parent, child[i]);
      }
    }
    if Narrows(child, parent) {
      forall i | 0 <= i < |child| ensures Covered(parent, child[i]) { CoveredExactly(parent, child[i]); }
    }
  }

  lemma QuestionExactly(g: Grant, q: Question)
    ensures (q.request.Some? ==> ScopePermits(g.scope, q.request.value)) <==>
      (q.request.Some? ==>
         var r := q.request.value;
         && Names(g.scope.components, r.component) && Names(g.scope.actions, r.action)
         && Names(g.scope.classes, r.classification) && Names(g.scope.resources, r.resource))
  {
    if q.request.Some? {
      NamesExactly(g.scope.components, q.request.value.component);
      NamesExactly(g.scope.actions, q.request.value.action);
      NamesExactly(g.scope.classes, q.request.value.classification);
      NamesExactly(g.scope.resources, q.request.value.resource);
    }
  }

  lemma AllowsExactly(g: Grant, c: Context)
    ensures LinkFault(g, c.at, c.revoked, c.question).None? <==> Allows(g, c)
  {
    QuestionExactly(g, c.question);
    if c.question.resource.Some? { NamesExactly(g.scope.resources, c.question.resource.value); }
    LexTotal(c.at, g.notBefore);
    LexTotal(g.notAfter, c.at);
    if g.id in c.revoked { LexTotal(c.revoked[g.id], c.at); }
  }

  lemma CapHoldsExactly(value: Cap, bound: Cap)
    ensures CapFault(value, bound).None? <==> CapHolds(value, bound)
  {
    CapNarrows(value, bound);
  }

  lemma {:induction false} FirstCap(budget: seq<(string, Cap)>, d: string) returns (j: nat)
    requires Capped(budget, d)
    ensures j < |budget| && budget[j].0 == d && CapOf(budget, d) == budget[j].1 && forall k :: 0 <= k < j ==> budget[k].0 != d
  {
    if budget[0].0 == d {
      j := 0;
    } else {
      var i :| 0 <= i < |budget| && budget[i].0 == d;
      assert budget[1..][i - 1].0 == d;
      j := FirstCap(budget[1..], d);
      assert forall k :: 0 < k < j + 1 ==> budget[k] == budget[1..][k - 1];
      j := j + 1;
    }
  }

  lemma CapsHoldExactly(child: seq<(string, Cap)>, parent: seq<(string, Cap)>)
    ensures BudgetFault(child, parent).None? <==> CapsHold(child, parent)
  {
    BudgetsWithin(child, parent);
    forall i | 0 <= i < |parent|
      ensures (Capped(child, parent[i].0) ==> CapFault(CapOf(child, parent[i].0), parent[i].1).None?) <==> CapsHoldAt(child, parent[i])
    {
      CapHeldExactly(child, parent[i]);
    }
  }

  ghost predicate CapsHoldAt(child: seq<(string, Cap)>, bound: (string, Cap)) {
    forall j :: 0 <= j < |child| && child[j].0 == bound.0 && (forall k :: 0 <= k < j ==> child[k].0 != child[j].0) ==>
      CapHolds(child[j].1, bound.1)
  }

  lemma CapHeldExactly(child: seq<(string, Cap)>, bound: (string, Cap))
    ensures (Capped(child, bound.0) ==> CapFault(CapOf(child, bound.0), bound.1).None?) <==> CapsHoldAt(child, bound)
  {
    if Capped(child, bound.0) {
      var j := FirstCap(child, bound.0);
      CapHoldsExactly(child[j].1, bound.1);
    }
  }

  lemma HopExactly(g: Grant, parent: Grant)
    ensures HopFault(g, parent).None? <==>
      && g.grantor.key == parent.grantee && 1 <= parent.maxDepth && g.maxDepth < parent.maxDepth
      && Narrows(g.scope.components, parent.scope.components) && Narrows(g.scope.actions, parent.scope.actions)
      && Narrows(g.scope.classes, parent.scope.classes) && Narrows(g.scope.resources, parent.scope.resources)
      && LexLe(parent.notBefore, g.notBefore) && LexLe(g.notAfter, parent.notAfter)
      && CapsHold(g.budget, parent.budget)
  {
    NarrowsExactly(g.scope.components, parent.scope.components);
    NarrowsExactly(g.scope.actions, parent.scope.actions);
    NarrowsExactly(g.scope.classes, parent.scope.classes);
    NarrowsExactly(g.scope.resources, parent.scope.resources);
    LexTotal(g.notBefore, parent.notBefore);
    LexTotal(parent.notAfter, g.notAfter);
    CapsHoldExactly(g.budget, parent.budget);
  }

  lemma DelegatedExactly(g: Grant, parent: Grant, c: Context)
    ensures Delegates(c, g, parent) <==> DelegatedUnder(g, parent, c)
  {
    HopExactly(g, parent);
  }

  lemma LawfulExactly(c: Context, reference: string, subjectKey: string, chain: seq<Grant>)
    ensures LeadsFrom(c, reference, subjectKey, chain) <==> Lawful(c, reference, subjectKey, chain)
  {
    forall i | 0 <= i < |chain| ensures LinkFault(chain[i], c.at, c.revoked, c.question).None? <==> Allows(chain[i], c) {
      AllowsExactly(chain[i], c);
    }
    forall i | 0 <= i < |chain| - 1 ensures Delegates(c, chain[i], chain[i + 1]) <==> DelegatedUnder(chain[i], chain[i + 1], c) {
      DelegatedExactly(chain[i], chain[i + 1], c);
    }
  }

  /** The walk accepts exactly when a lawful chain leads from the leaf to an enrolled human, and it then names that human,
      the human's key, and the number of hops. */
  lemma AcceptedExactlyWhenLawful(c: Context, reference: string, subjectKey: string)
    ensures WalkFrom(c, reference, subjectKey).Ok? <==> exists chain: seq<Grant> :: Lawful(c, reference, subjectKey, chain)
    ensures forall chain: seq<Grant> :: Lawful(c, reference, subjectKey, chain) ==>
      var root := chain[|chain| - 1].grantor;
      WalkFrom(c, reference, subjectKey) == Ok(Accepted(root.subject, root.key, |chain| - 1))
  {
    AcceptedExactlyWithChain(c, reference, subjectKey);
    forall chain: seq<Grant> ensures LeadsFrom(c, reference, subjectKey, chain) <==> Lawful(c, reference, subjectKey, chain) {
      LawfulExactly(c, reference, subjectKey, chain);
    }
  }

  // ---- the refusals, in order ----

  /** What the walk answers of a grant by itself. */
  ghost function GrantRefusal(g: Grant, c: Context): Option<string> {
    if g.signer.None? then Some("sig-invalid")
    else if g.signer != Some(g.grantor.key) then Some("mandate-signer-not-grantor")
    else if g.grantor.key == g.grantee then Some("mandate-self-grant")
    else if g.notAfter == "" then Some("mandate-missing-expiry")
    else if !LexLe(g.notBefore, c.at) then Some("mandate-not-yet-valid")
    else if !LexLe(c.at, g.notAfter) then Some("mandate-expired")
    else if g.id in c.revoked && !LexLt(c.at, c.revoked[g.id]) then Some("mandate-revoked")
    else if !Allows(g, c) then Some("mandate-scope-not-permitted")
    else None
  }

  lemma GrantRefusedInOrder(g: Grant, c: Context)
    ensures LinkFault(g, c.at, c.revoked, c.question) == GrantRefusal(g, c)
  {
    AllowsExactly(g, c);
    LexTotal(c.at, g.notBefore);
    LexTotal(g.notAfter, c.at);
    if g.id in c.revoked { LexTotal(c.revoked[g.id], c.at); }
  }

  /** What it answers of a hop. A cap that is not comparable is a type error, and one that is wider is named so. */
  lemma HopRefusedInOrder(g: Grant, parent: Grant)
    ensures var fault := HopFault(g, parent);
      if g.grantor.key != parent.grantee then fault == Some("mandate-delegation-not-held")
      else if parent.maxDepth < 1 || g.maxDepth >= parent.maxDepth then fault == Some("mandate-delegation-depth-exceeded")
      else if !(Narrows(g.scope.components, parent.scope.components) && Narrows(g.scope.actions, parent.scope.actions)
                && Narrows(g.scope.classes, parent.scope.classes) && Narrows(g.scope.resources, parent.scope.resources))
      then fault == Some("mandate-scope-widened")
      else if !(LexLe(parent.notBefore, g.notBefore) && LexLe(g.notAfter, parent.notAfter)) then
        fault == Some("mandate-window-outside-parent")
      else if CapsHold(g.budget, parent.budget) then fault.None?
      else fault == Some("schema-type-mismatch") || fault == Some("mandate-budget-exceeds-parent")
  {
    HopExactly(g, parent);
    NarrowsExactly(g.scope.components, parent.scope.components);
    NarrowsExactly(g.scope.actions, parent.scope.actions);
    NarrowsExactly(g.scope.classes, parent.scope.classes);
    NarrowsExactly(g.scope.resources, parent.scope.resources);
    LexTotal(g.notBefore, parent.notBefore);
    LexTotal(parent.notAfter, g.notAfter);
    BudgetFaultIsOne(g.budget, parent.budget);
  }

  lemma {:induction false} BudgetFaultIsOne(child: seq<(string, Cap)>, parent: seq<(string, Cap)>)
    ensures var f := BudgetFault(child, parent);
      f.None? || f == Some("schema-type-mismatch") || f == Some("mandate-budget-exceeds-parent")
  {
    if child != [] && parent != [] { BudgetFaultIsOne(child, parent[1..]); }
  }

  /** Which of the two: wider where both are amounts, or counts, that can be compared. */
  lemma CapRefused(value: Cap, bound: Cap)
    ensures CapFault(value, bound) == Some("mandate-budget-exceeds-parent") <==>
      || (value.Amount? && bound.Amount? && Decimal.IsDecimal(value.text) && Decimal.IsDecimal(bound.text)
          && Decimal.Amount(value.text) > Decimal.Amount(bound.text))
      || (value.Whole? && bound.Whole? && value.n > bound.n)
      || (value.Whole? && bound.Flag? && value.n > if bound.on then 1 else 0)
    ensures CapFault(value, bound).Some? ==>
      CapFault(value, bound).value == "mandate-budget-exceeds-parent" || CapFault(value, bound).value == "schema-type-mismatch"
  {
    if value.Amount? && bound.Amount? { Money.AtMostIsAtMost(value.text, bound.text); }
  }

  /** What it answers at the end of a chain, and of where a delegation points. */
  lemma EndRefusedInOrder(g: Grant, roots: seq<string>)
    ensures IsRootKind(g) <==> g.kind == "interactive" || g.kind == "standing"
    ensures RootFault(g, roots) ==
      if g.parent.Some? then Some("mandate-root-has-parent")
      else if g.grantor.role != "human" then Some("mandate-root-grantor-not-human")
      else if forall i :: 0 <= i < |roots| ==> roots[i] != g.grantor.key then Some("mandate-root-not-enrolled")
      else None
    ensures ParentFault(g) ==
      if g.kind != "delegated" then Some("mandate-kind-unknown")
      else if g.parent.None? then Some("mandate-delegated-without-parent")
      else if g.grantor.role != "agent" then Some("mandate-delegated-grantor-not-agent")
      else None
  {
  }
}
