/** The mandate walk: from a leaf, over delegated grants, to a human whose key is enrolled. */
module Mandate {
  import opened Prelude
  import opened Patterns
  import Decimal
  import Money

  /** A budget cap as it arrives: a decimal string, an integer, a boolean, or anything else. */
  datatype Cap = Amount(text: string) | Whole(n: int) | Flag(on: bool) | Other

  datatype Party = Party(key: string, role: string, subject: string)

  /** A grant. `id` is its object id and `signer` what verifying its signature answered; an expiry that
      is missing or empty is "". */
  datatype Grant = Grant(id: string, kind: string, parent: Option<string>, grantor: Party, grantee: string,
                         signer: Option<string>, notBefore: string, notAfter: string, scope: Scope,
                         budget: seq<(string, Cap)>, maxDepth: int)

  datatype Revocation = Revocation(genuine: bool, revokes: Option<string>, at: Option<string>)

  /** What the walk is asked: a whole request, or a resource alone, or neither. */
  datatype Question = Question(request: Option<Request>, resource: Option<string>)

  datatype Accepted = Accepted(humanRoot: string, rootKey: string, depth: nat)

  // ---- revocations ----

  predicate Revokes(r: Revocation, id: string, at: string) {
    r.genuine && r.revokes == Some(id) && r.at == Some(at)
  }

  ghost predicate Witnessed(revocations: seq<Revocation>, id: string, at: string) {
    exists k :: 0 <= k < |revocations| && Revokes(revocations[k], id, at)
  }

  /** The instants are those of valid revocations, and the earliest of each mandate. */
  ghost predicate Earliest(revocations: seq<Revocation>, instants: map<string, string>) {
    && (forall id :: id in instants ==> Witnessed(revocations, id, instants[id]))
    && (forall id, at :: Witnessed(revocations, id, at) ==> id in instants && LexLe(instants[id], at))
  }

  /** A second revocation never moves the instant later. */
  method RevocationInstants(revocations: seq<Revocation>) returns (instants: map<string, string>)
    ensures Earliest(revocations, instants)
  {
    instants := map[];
    for i := 0 to |revocations|
      invariant Earliest(revocations[..i], instants)
    {
      var r := revocations[i];
      ghost var before := instants;
      if r.genuine && r.revokes.Some? && r.at.Some? {
        if r.revokes.value !in instants || LexLt(r.at.value, instants[r.revokes.value]) {
          instants := instants[r.revokes.value := r.at.value];
        }
      }
      OneMoreRevocation(revocations, i, before, instants);
    }
    assert revocations[..|revocations|] == revocations;
  }

  lemma OneMoreRevocation(revocations: seq<Revocation>, i: nat, before: map<string, string>, after: map<string, string>)
    requires i < |revocations| && Earliest(revocations[..i], before)
    requires var r := revocations[i];
      if r.genuine && r.revokes.Some? && r.at.Some?
         && (r.revokes.value !in before || LexLt(r.at.value, before[r.revokes.value]))
      then after == before[r.revokes.value := r.at.value]
      else after == before
    ensures Earliest(revocations[..i + 1], after)
  {
    var some, more := revocations[..i], revocations[..i + 1];
    assert forall k :: 0 <= k < i ==> more[k] == some[k];
    forall id | id in after ensures Witnessed(more, id, after[id]) {
      if id in before && after[id] == before[id] {
        var k :| 0 <= k < |some| && Revokes(some[k], id, before[id]);
        assert Revokes(more[k], id, after[id]);
      } else {
        assert Revokes(more[i], id, after[id]);
      }
    }
    forall id, at | Witnessed(more, id, at) ensures id in after && LexLe(after[id], at) {
      LexTotal(at, at);
      var k :| 0 <= k < |more| && Revokes(more[k], id, at);
      if k < i {
        assert some[k] == more[k] && Revokes(some[k], id, at) && Witnessed(some, id, at);
        assert id in before && LexLe(before[id], at);
        if after[id] != before[id] {
          LexTotal(at, after[id]);
          if LexLt(at, after[id]) { LexTransitive(at, after[id], before[id]); }
        }
      }
    }
  }

  /** Which instants they are is settled by the revocations. */
  lemma EarliestIsUnique(revocations: seq<Revocation>, a: map<string, string>, b: map<string, string>)
    requires Earliest(revocations, a) && Earliest(revocations, b)
    ensures a == b
  {
    forall id | id in a ensures id in b && a[id] == b[id] {
      assert Witnessed(revocations, id, a[id]) && Witnessed(revocations, id, b[id]);
      LexTotal(a[id], b[id]);
    }
    forall id | id in b ensures id in a { assert Witnessed(revocations, id, b[id]); }
  }

  // ---- budgets ----

  predicate Capped(budget: seq<(string, Cap)>, dimension: string) {
    exists i :: 0 <= i < |budget| && budget[i].0 == dimension
  }

  function CapOf(budget: seq<(string, Cap)>, dimension: string): Cap {
    if budget == [] then Other
    else if budget[0].0 == dimension then budget[0].1
    else CapOf(budget[1..], dimension)
  }

  /** A boolean cap counts as 0 or 1; a boolean claim is a type error. */
  function CapFault(value: Cap, cap: Cap): Option<string> {
    if value.Amount? || cap.Amount? then
      if !value.Amount? || !cap.Amount? then Some("schema-type-mismatch")
      else
        match Money.AtMost(value.text, cap.text)
        case Err(_) => Some("schema-type-mismatch")
        case Ok(within) => if within then None else Some("mandate-budget-exceeds-parent")
    else if !value.Whole? || !(cap.Whole? || cap.Flag?) then Some("schema-type-mismatch")
    else
      var bound := if cap.Whole? then cap.n else if cap.on then 1 else 0;
      if value.n > bound then Some("mandate-budget-exceeds-parent") else None
  }

  /** Each of the parent's caps in turn, where the child names the dimension too. */
  function BudgetFault(child: seq<(string, Cap)>, parent: seq<(string, Cap)>): Option<string> {
    if child == [] || parent == [] then None
    else
      var (dimension, cap) := parent[0];
      var fault := if Capped(child, dimension) then CapFault(CapOf(child, dimension), cap) else None;
      if fault.Some? then fault else BudgetFault(child, parent[1..])
  }

  lemma {:induction false} BudgetsWithin(child: seq<(string, Cap)>, parent: seq<(string, Cap)>)
    ensures BudgetFault(child, parent).None? <==>
      child == [] || forall i :: 0 <= i < |parent| && Capped(child, parent[i].0) ==>
        CapFault(CapOf(child, parent[i].0), parent[i].1).None?
  {
    if child != [] && parent != [] {
      BudgetsWithin(child, parent[1..]);
      assert forall i :: 0 < i < |parent| ==> parent[i] == parent[1..][i - 1];
    }
  }

  /** What a cap allows, compared exactly. */
  lemma CapNarrows(value: Cap, cap: Cap)
    ensures CapFault(value, cap).None? <==>
      || (value.Amount? && cap.Amount? && Decimal.IsDecimal(value.text) && Decimal.IsDecimal(cap.text)
          && Decimal.Amount(value.text) <= Decimal.Amount(cap.text))
      || (value.Whole? && cap.Whole? && value.n <= cap.n)
      || (value.Whole? && cap.Flag? && value.n <= if cap.on then 1 else 0)
  {
    if value.Amount? && cap.Amount? { Money.AtMostIsAtMost(value.text, cap.text); }
  }

  lemma CapsCompose(leaf: Cap, middle: Cap, root: Cap)
    requires CapFault(leaf, middle).None? && CapFault(middle, root).None?
    ensures CapFault(leaf, root).None?
  {
    CapNarrows(leaf, middle);
    CapNarrows(middle, root);
    CapNarrows(leaf, root);
  }

  /** A delegation's cap is within its parent's where both name the dimension. */
  lemma {:induction false} CapWithin(child: seq<(string, Cap)>, parent: seq<(string, Cap)>, d: string)
    requires BudgetFault(child, parent).None? && Capped(child, d) && Capped(parent, d)
    ensures CapFault(CapOf(child, d), CapOf(parent, d)).None?
  {
    if parent[0].0 != d {
      var i :| 0 <= i < |parent| && parent[i].0 == d;
      assert parent[1..][i - 1].0 == d;
      CapWithin(child, parent[1..], d);
    }
  }

  // ---- one grant, one hop ----

  /** The checks of a grant by itself, in order. */
  function LinkFault(g: Grant, at: string, revoked: map<string, string>, q: Question): Option<string> {
    if g.signer.None? then Some("sig-invalid")
    else if g.signer.value != g.grantor.key then Some("mandate-signer-not-grantor")
    else if g.grantor.key == g.grantee then Some("mandate-self-grant")
    else if g.notAfter == "" then Some("mandate-missing-expiry")
    else if LexLt(at, g.notBefore) then Some("mandate-not-yet-valid")
    else if LexLt(g.notAfter, at) then Some("mandate-expired")
    else if g.id in revoked && LexLe(revoked[g.id], at) then Some("mandate-revoked")
    else if q.request.Some? && !ScopePermits(g.scope, q.request.value) then Some("mandate-scope-not-permitted")
    else if q.resource.Some? && !Matches(g.scope.resources, q.resource.value) then Some("mandate-scope-not-permitted")
    else None
  }

  predicate IsRootKind(g: Grant) {
    g.kind == "interactive" || g.kind == "standing"
  }

  /** The checks of a root: no parent, a human, an enrolled key. */
  function RootFault(g: Grant, roots: seq<string>): Option<string> {
    if g.parent.Some? then Some("mandate-root-has-parent")
    else if g.grantor.role != "human" then Some("mandate-root-grantor-not-human")
    else if g.grantor.key !in roots then Some("mandate-root-not-enrolled")
    else None
  }

  /** The checks of one delegation against its parent, in order. */
  function HopFault(g: Grant, parent: Grant): Option<string> {
    if g.grantor.key != parent.grantee then Some("mandate-delegation-not-held")
    else if parent.maxDepth < 1 then Some("mandate-delegation-depth-exceeded")
    else if g.maxDepth > parent.maxDepth - 1 then Some("mandate-delegation-depth-exceeded")
    else if !ScopeSubset(g.scope, parent.scope) then Some("mandate-scope-widened")
    else if LexLt(g.notBefore, parent.notBefore) || LexLt(parent.notAfter, g.notAfter) then Some("mandate-window-outside-parent")
    else BudgetFault(g.budget, parent.budget)
  }

  /** Where a delegation points, before its parent is looked at. */
  function ParentFault(g: Grant): Option<string> {
    if g.kind != "delegated" then Some("mandate-kind-unknown")
    else if g.parent.None? then Some("mandate-delegated-without-parent")
    else if g.grantor.role != "agent" then Some("mandate-delegated-grantor-not-agent")
    else None
  }

  // ---- the walk ----

  datatype Context = Context(mandates: map<string, Grant>, at: string, revoked: map<string, string>, roots: seq<string>,
                             question: Question, maxDepth: int)

  function HopsLeft(c: Context, depth: nat): nat {
    if depth < c.maxDepth then c.maxDepth - depth else 0
  }

  /** The walk from this grant on, `depth` hops from the leaf. */
  function Walk(c: Context, g: Grant, depth: nat): Result<Accepted, string>
    decreases HopsLeft(c, depth)
  {
    var link := LinkFault(g, c.at, c.revoked, c.question);
    if link.Some? then Err(link.value)
    else if IsRootKind(g) then
      var fault := RootFault(g, c.roots);
      if fault.Some? then Err(fault.value) else Ok(Accepted(g.grantor.subject, g.grantor.key, depth))
    else
      var fault := ParentFault(g);
      if fault.Some? then Err(fault.value)
      else if g.parent.value !in c.mandates then Err("mandate-unresolved")
      else
        var parent := c.mandates[g.parent.value];
        var hop := HopFault(g, parent);
        if hop.Some? then Err(hop.value)
        else if depth + 1 > c.maxDepth then Err("mandate-delegation-depth-exceeded")
        else Walk(c, parent, depth + 1)
  }

  function WalkFrom(c: Context, reference: string, subjectKey: string): Result<Accepted, string> {
    if reference !in c.mandates then Err("mandate-unresolved")
    else if c.mandates[reference].grantee != subjectKey then Err("mandate-grantee-key-mismatch")
    else Walk(c, c.mandates[reference], 0)
  }

  /** The whole check: the walk, with the earliest valid revocation of each mandate. */
  method VerifyMandateChain(mandates: map<string, Grant>, reference: string, question: Question, at: string,
                            subjectKey: string, roots: seq<string>, revocations: seq<Revocation>, maxDepth: int)
    returns (r: Result<Accepted, string>)
    ensures forall revoked :: Earliest(revocations, revoked) ==>
      r == WalkFrom(Context(mandates, at, revoked, roots, question, maxDepth), reference, subjectKey)
  {
    var instants := RevocationInstants(revocations);
    forall revoked | Earliest(revocations, revoked) ensures revoked == instants {
      EarliestIsUnique(revocations, revoked, instants);
    }
    r := FollowMandates(mandates, reference, question, at, subjectKey, roots, instants, maxDepth);
  }

  /** The walk as a loop. It ends on any map of mandates, cyclic ones too: every hop spends one of a
      bounded number. */
  method FollowMandates(mandates: map<string, Grant>, reference: string, question: Question, at: string,
                        subjectKey: string, roots: seq<string>, instants: map<string, string>, maxDepth: int)
    returns (r: Result<Accepted, string>)
    ensures r == WalkFrom(Context(mandates, at, instants, roots, question, maxDepth), reference, subjectKey)
  {
    ghost var c := Context(mandates, at, instants, roots, question, maxDepth);
    if reference !in mandates { return Err("mandate-unresolved"); }
    var mandate := mandates[reference];
    if mandate.grantee != subjectKey { return Err("mandate-grantee-key-mismatch"); }
    var depth: nat := 0;
    while true
      invariant WalkFrom(c, reference, subjectKey) == Walk(c, mandate, depth)
      decreases HopsLeft(c, depth)
    {
      var link := LinkFault(mandate, at, instants, question);
      if link.Some? { return Err(link.value); }
      if IsRootKind(mandate) {
        var fault := RootFault(mandate, roots);
        if fault.Some? { return Err(fault.value); }
        return Ok(Accepted(mandate.grantor.subject, mandate.grantor.key, depth));
      }
      var fault := ParentFault(mandate);
      if fault.Some? { return Err(fault.value); }
      if mandate.parent.value !in mandates { return Err("mandate-unresolved"); }
      var parent := mandates[mandate.parent.value];
      var hop := HopFault(mandate, parent);
      if hop.Some? { return Err(hop.value); }
      if depth + 1 > maxDepth { return Err("mandate-delegation-depth-exceeded"); }
      mandate, depth := parent, depth + 1;
    }
  }

  // ---- what acceptance means ----

  /** A chain of grants: each valid by itself, each delegated within the next, the last a human's. */
  predicate IsChain(c: Context, chain: seq<Grant>) {
    && chain != []
    && (forall i :: 0 <= i < |chain| ==> LinkFault(chain[i], c.at, c.revoked, c.question).None?)
    && (forall i :: 0 <= i < |chain| - 1 ==> Delegates(c, chain[i], chain[i + 1]))
    && var root := chain[|chain| - 1]; IsRootKind(root) && RootFault(root, c.roots).None?
  }

  predicate Delegates(c: Context, g: Grant, parent: Grant) {
    && !IsRootKind(g) && ParentFault(g).None?
    && g.parent.value in c.mandates && c.mandates[g.parent.value] == parent
    && HopFault(g, parent).None?
  }

  predicate WithinDepth(c: Context, chain: seq<Grant>) {
    |chain| == 1 || |chain| - 1 <= c.maxDepth
  }

  function Verdict(chain: seq<Grant>, depth: nat): Accepted
    requires chain != []
  {
    var root := chain[|chain| - 1];
    Accepted(root.grantor.subject, root.grantor.key, depth + |chain| - 1)
  }

  /** A chain from a grant is what the walk follows from there. */
  lemma {:induction false} ChainIsWalked(c: Context, chain: seq<Grant>, depth: nat)
    requires IsChain(c, chain) && (|chain| == 1 || depth + |chain| - 1 <= c.maxDepth)
    ensures Walk(c, chain[0], depth) == Ok(Verdict(chain, depth))
    decreases |chain|
  {
    assert LinkFault(chain[0], c.at, c.revoked, c.question).None?;
    if |chain| > 1 {
      var rest := chain[1..];
      assert Delegates(c, chain[0], chain[0 + 1]);
      forall i | 0 <= i < |rest| - 1 ensures Delegates(c, rest[i], rest[i + 1]) {
        assert Delegates(c, chain[i + 1], chain[i + 1 + 1]);
      }
      ChainIsWalked(c, rest, depth + 1);
    }
  }

  /** A walk that is accepted has followed a chain. */
  lemma {:induction false} WalkIsChain(c: Context, g: Grant, depth: nat) returns (chain: seq<Grant>)
    requires Walk(c, g, depth).Ok?
    ensures IsChain(c, chain) && chain[0] == g && (|chain| == 1 || depth + |chain| - 1 <= c.maxDepth)
    ensures Walk(c, g, depth) == Ok(Verdict(chain, depth))
    decreases HopsLeft(c, depth)
  {
    if IsRootKind(g) {
      chain := [g];
    } else {
      var parent := c.mandates[g.parent.value];
      var rest := WalkIsChain(c, parent, depth + 1);
      chain := [g] + rest;
      assert Delegates(c, g, parent);
      forall i | 0 <= i < |chain| - 1 ensures Delegates(c, chain[i], chain[i + 1]) {
        if i > 0 { assert Delegates(c, rest[i - 1], rest[i - 1 + 1]); }
      }
    }
  }

  /** A chain from the grant referred to, held by this key, within the hop limit. */
  predicate LeadsFrom(c: Context, reference: string, subjectKey: string, chain: seq<Grant>) {
    && reference in c.mandates && c.mandates[reference].grantee == subjectKey
    && IsChain(c, chain) && chain[0] == c.mandates[reference] && WithinDepth(c, chain)
  }

  /** The walk accepts exactly when a chain leads from the leaf to an enrolled human within the hop
      limit; it then names that human and the number of hops. */
  lemma AcceptedExactlyWithChain(c: Context, reference: string, subjectKey: string)
    ensures WalkFrom(c, reference, subjectKey).Ok? <==> exists chain :: LeadsFrom(c, reference, subjectKey, chain)
    ensures forall chain :: LeadsFrom(c, reference, subjectKey, chain) ==>
      WalkFrom(c, reference, subjectKey) == Ok(Verdict(chain, 0))
  {
    if WalkFrom(c, reference, subjectKey).Ok? {
      var chain := WalkIsChain(c, c.mandates[reference], 0);
      assert LeadsFrom(c, reference, subjectKey, chain);
    }
    forall chain | LeadsFrom(c, reference, subjectKey, chain)
      ensures WalkFrom(c, reference, subjectKey) == Ok(Verdict(chain, 0))
    {
      ChainIsWalked(c, chain, 0);
    }
  }

  // ---- the leaf suffices ----

  /** What the leaf itself permits is permitted all along the chain. */
  lemma {:induction false} ScopeCarries(c: Context, chain: seq<Grant>, i: nat, request: Request)
    requires IsChain(c, chain) && i < |chain| && ScopePermits(chain[0].scope, request)
    ensures ScopePermits(chain[i].scope, request)
  {
    if i > 0 {
      ScopeCarries(c, chain, i - 1, request);
      assert Delegates(c, chain[i - 1], chain[i - 1 + 1]);
      ScopeNarrows(chain[i - 1].scope, chain[i].scope, request);
    }
  }

  lemma {:induction false} ResourceCarries(c: Context, chain: seq<Grant>, i: nat, resource: string)
    requires IsChain(c, chain) && i < |chain| && Matches(chain[0].scope.resources, resource)
    ensures Matches(chain[i].scope.resources, resource)
  {
    if i > 0 {
      ResourceCarries(c, chain, i - 1, resource);
      assert Delegates(c, chain[i - 1], chain[i - 1 + 1]);
      SubsetMatches(chain[i - 1].scope.resources, chain[i].scope.resources, resource);
    }
  }

  /** The leaf's window lies within every window of the chain. */
  lemma {:induction false} WindowCarries(c: Context, chain: seq<Grant>, i: nat)
    requires IsChain(c, chain) && i < |chain|
    ensures LexLe(chain[i].notBefore, chain[0].notBefore) && LexLe(chain[0].notAfter, chain[i].notAfter)
  {
    LexTotal(chain[0].notBefore, chain[0].notBefore);
    LexTotal(chain[0].notAfter, chain[0].notAfter);
    if i > 0 {
      WindowCarries(c, chain, i - 1);
      assert Delegates(c, chain[i - 1], chain[i - 1 + 1]);
      LexLeTransitive(chain[i].notBefore, chain[i - 1].notBefore, chain[0].notBefore);
      LexLeTransitive(chain[0].notAfter, chain[i - 1].notAfter, chain[i].notAfter);
    }
  }

  lemma LexLeTransitive(a: string, b: string, c: string)
    requires LexLe(a, b) && LexLe(b, c)
    ensures LexLe(a, c)
  {
    LexTotal(a, b);
    LexTotal(b, c);
    LexTotal(a, c);
    if LexLt(c, a) {
      if a != b { LexTransitive(c, a, b); }
    }
  }

  /** What the leaf's own scope permits of a question. */
  predicate LeafPermits(leaf: Grant, q: Question) {
    && (q.request.Some? ==> ScopePermits(leaf.scope, q.request.value))
    && (q.resource.Some? ==> Matches(leaf.scope.resources, q.resource.value))
  }

  predicate InWindow(leaf: Grant, at: string) {
    LexLe(leaf.notBefore, at) && LexLe(at, leaf.notAfter)
  }

  predicate Revoked(g: Grant, revoked: map<string, string>, at: string) {
    g.id in revoked && LexLe(revoked[g.id], at)
  }

  /** The same walk asked another question, at another instant, with other revocations known. */
  function Asked(c: Context, q: Question, at: string, revoked: map<string, string>): Context {
    c.(question := q, at := at, revoked := revoked)
  }

  lemma LinkHoldsAgain(c: Context, chain: seq<Grant>, i: nat, q: Question, at: string, revoked: map<string, string>)
    requires IsChain(c, chain) && i < |chain| && LeafPermits(chain[0], q) && InWindow(chain[0], at)
    requires !Revoked(chain[i], revoked, at)
    ensures LinkFault(chain[i], at, revoked, q).None?
  {
    assert LinkFault(chain[i], c.at, c.revoked, c.question).None?;
    WindowCarries(c, chain, i);
    LexLeTransitive(chain[i].notBefore, chain[0].notBefore, at);
    LexLeTransitive(at, chain[0].notAfter, chain[i].notAfter);
    if q.request.Some? { ScopeCarries(c, chain, i, q.request.value); }
    if q.resource.Some? { ResourceCarries(c, chain, i, q.resource.value); }
  }

  /** The leaf suffices: once accepted along a chain, a leaf is accepted with the same human root and depth
      for every question its own scope permits, at every instant in its own window at which no member of
      the chain is revoked. */
  lemma LeafSuffices(c: Context, chain: seq<Grant>, reference: string, subjectKey: string, q: Question, at: string,
                     revoked: map<string, string>)
    requires LeadsFrom(c, reference, subjectKey, chain)
    requires LeafPermits(chain[0], q) && InWindow(chain[0], at)
    requires forall i :: 0 <= i < |chain| ==> !Revoked(chain[i], revoked, at)
    ensures WalkFrom(c, reference, subjectKey).Ok?
    ensures WalkFrom(Asked(c, q, at, revoked), reference, subjectKey) == WalkFrom(c, reference, subjectKey)
  {
    var d := Asked(c, q, at, revoked);
    forall i | 0 <= i < |chain| ensures LinkFault(chain[i], d.at, d.revoked, d.question).None? {
      LinkHoldsAgain(c, chain, i, q, at, revoked);
    }
    forall i | 0 <= i < |chain| - 1 ensures Delegates(d, chain[i], chain[i + 1]) {
      assert Delegates(c, chain[i], chain[i + 1]);
    }
    assert IsChain(d, chain) && WithinDepth(d, chain);
    ChainIsWalked(c, chain, 0);
    ChainIsWalked(d, chain, 0);
  }

  /** And the other way: outside the leaf's scope or window, or past a revocation, nothing accepts it. */
  lemma LeafIsNecessary(c: Context, reference: string, subjectKey: string)
    requires WalkFrom(c, reference, subjectKey).Ok?
    ensures LeafPermits(c.mandates[reference], c.question) && InWindow(c.mandates[reference], c.at)
    ensures !Revoked(c.mandates[reference], c.revoked, c.at)
  {
  }

  // ---- hops ----

  /** Hop budgets fall by one or more at every delegation. */
  lemma {:induction false} HopsFall(c: Context, chain: seq<Grant>, i: nat)
    requires IsChain(c, chain) && 1 <= i < |chain|
    ensures chain[i].maxDepth >= i
    ensures chain[0].maxDepth + i <= chain[i].maxDepth
  {
    assert Delegates(c, chain[i - 1], chain[i - 1 + 1]);
    if i > 1 { HopsFall(c, chain, i - 1); }
  }

  /** A depth of one hop or more never exceeds what the root allows, nor the limit asked for. */
  lemma DepthWithinRoot(c: Context, chain: seq<Grant>, reference: string, subjectKey: string)
    requires LeadsFrom(c, reference, subjectKey, chain) && |chain| > 1
    ensures WalkFrom(c, reference, subjectKey) == Ok(Verdict(chain, 0)) && Verdict(chain, 0).depth == |chain| - 1
    ensures Verdict(chain, 0).depth <= chain[|chain| - 1].maxDepth && Verdict(chain, 0).depth <= c.maxDepth
  {
    ChainIsWalked(c, chain, 0);
    HopsFall(c, chain, |chain| - 1);
  }
}
