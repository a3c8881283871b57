/** The approved action is the recorded action, in every run. */
module Recorded {
  import opened Prelude
  import opened Calendar
  import opened Gate
  import opened Store
  import opened Protocol
  import opened Streams
  import opened Frames
  import Accounts
  import Citations
  import AtMostOnce

  /** The request a thread acts under, once it has found one. */
  function Carried(pc: Pc): Option<Members> {
    match pc
    case Found(row) => Some(row.request)
    case Refused(row, _) => Some(row.request)
    case Passed(row, _) => Some(row.request)
    case Beaten(row) => Some(row.request)
    case Won(row) => Some(row.request)
    case Denying(g) => Some(g.request)
    case Ready(Some(g)) => Some(g.request)
    case Ahead(Some(g), _) => Some(g.request)
    case Ran(Some(g), _, _) => Some(g.request)
    case _ => None
  }

  /** An envelope under an authorization performs the nine members its request names, and is stamped. */
  predicate Bound(content: Gate.Envelope) {
    content.authorization.Some? ==>
      && content.authorization.value.request.Some?
      && BoundEqual(content.authorization.value.request.value, content.performed)
      && content.emittedAt.Text?
  }

  predicate ThreadBound(t: Thread) {
    Carried(t.pc).Some? ==> BoundEqual(Carried(t.pc).value, t.fields)
  }

  ghost predicate Inv(s: State) {
    && (forall c :: c in s.threads ==> ThreadBound(s.threads[c]))
    && (forall i :: i in s.db.intents ==> Bound(s.db.intents[i].draft.content))
    && (forall k :: 0 <= k < |s.db.envelopes| && !s.db.envelopes[k].origin.Seeding? ==>
          Bound(s.db.envelopes[k].record.draft.content))
  }

  lemma EffectIsBound(key: string, fields: Members, outcome: string, auth: Option<Grant>, now: string)
    requires auth.Some? ==> BoundEqual(auth.value.request, fields)
    ensures Bound(EffectDraft(key, fields, outcome, auth, now).content)
  {
  }

  /** What a step tries to append is bound, unless it is a catalog seed. */
  lemma AttemptIsBound(s: State, t: Step)
    requires Inv(s) && Attempt(s, t).Some? && !Attempt(s, t).value.origin.Seeding?
    ensures Bound(Attempt(s, t).value.draft.content)
  {
    if t.Deny? || t.Record? {
      assert ThreadBound(s.threads[t.caller]);
    }
  }

  lemma MoveStaysBound(kit: Kit, s: State, thread: Thread, t: Step, pc: Pc)
    requires ThreadBound(thread) && Follows(kit, s, thread, t, pc)
    ensures ThreadBound(thread.(pc := pc))
  {
  }

  lemma ThreadStaysBound(kit: Kit, s: State, n: State, t: Step, c: nat)
    requires Inv(s) && c in n.threads && Lives(kit, s, n, t, c)
    ensures ThreadBound(n.threads[c])
  {
    if c in s.threads && Moved(kit, s, n, t, c) {
      assert ThreadBound(s.threads[c]);
      if n.threads[c] != s.threads[c] { MoveStaysBound(kit, s, s.threads[c], t, n.threads[c].pc); }
    }
  }

  lemma IntentsStayBound(kit: Kit, s: State, t: Step, i: string)
    requires Inv(s) && i in Apply(kit, s, t).db.intents
    ensures Bound(Apply(kit, s, t).db.intents[i].draft.content)
  {
    IntentsOnlyGrow(kit, s, t, i);
    if i !in s.db.intents {
      assert ThreadBound(s.threads[t.caller]);
      EffectIsBound(s.threads[t.caller].key, s.threads[t.caller].fields, "attempted", s.threads[t.caller].pc.auth, t.now);
    }
  }

  lemma StepKeepsInv(kit: Kit, s: State, t: Step)
    requires Inv(s)
    ensures Inv(Apply(kit, s, t))
  {
    var n := Apply(kit, s, t);
    StepsAppend(kit, s, t);
    if Attempt(s, t).Some? && !Attempt(s, t).value.origin.Seeding? { AttemptIsBound(s, t); }
    forall c | c in n.threads ensures ThreadBound(n.threads[c]) {
      StepLives(kit, s, t, c);
      ThreadStaysBound(kit, s, n, t, c);
    }
    forall i | i in n.db.intents ensures Bound(n.db.intents[i].draft.content) { IntentsStayBound(kit, s, t, i); }
  }

  lemma {:induction false} RunKeepsInv(kit: Kit, steps: seq<Step>)
    ensures Inv(Run(kit, steps))
  {
    if steps != [] {
      RunKeepsInv(kit, steps[..|steps| - 1]);
      StepKeepsInv(kit, Run(kit, steps[..|steps| - 1]), steps[|steps| - 1]);
    }
  }

  /** The approved action is the recorded action: in every run, each envelope chained under a call's
      authorization (applied, failed, denied, or recovered as attempted) agrees with the signed request
      on all nine members, so the kernel's step (10) passes. */
  lemma ApprovedIsRecorded(kit: Kit, steps: seq<Step>, k: nat)
    requires k < |Run(kit, steps).db.envelopes| && !Run(kit, steps).db.envelopes[k].origin.Seeding?
    requires Run(kit, steps).db.envelopes[k].record.draft.content.authorization.Some?
    ensures var content := Run(kit, steps).db.envelopes[k].record.draft.content;
      && content.authorization.value.request.Some?
      && BoundEqual(content.authorization.value.request.value, content.performed)
      && BoundAgree(content.authorization.value.request.value, content.performed)
      && NineAgree(content.authorization.value.request.value, content.performed)
      && NineReadAlike(content.authorization.value.request.value, content.performed)
  {
    RunKeepsInv(kit, steps);
    var content := Run(kit, steps).db.envelopes[k].record.draft.content;
    assert Bound(content);
    EqualBindingAgrees(content.authorization.value.request.value, content.performed);
    BoundIsNine(content.authorization.value.request.value, content.performed);
  }

  /** Whatever approvers the kernel knows, the check the claim passed settles all the rest of its answer. */
  lemma ClaimedCheckPredicts(kit: Kit, claim: Holding, content: Gate.Envelope, kernels: seq<Approver>, requiresGate: bool,
                             spent: set<string>)
    requires CheckGrant(kit, claim.grant, claim.approvers, {}, claim.at).Ok?
    requires Bound(content) && content.authorization == Some(AsAuthorization(claim.grant))
    ensures var d := claim.grant.decision;
      && d.signer.Some? && Get(d.members, "decided-at").Text? && Get(d.members, "not-after").Text?
      && IsTimestamp(Get(d.members, "decided-at").s) && IsTimestamp(Get(d.members, "not-after").s)
      && VerifyKernel(kit.hash, content, requiresGate, kernels, spent)
           == KernelAnswer(kernels, Get(claim.grant.request, "subject"), ApprovalOf(kit.hash(claim.grant.request), d),
                           Get(d.members, "decided-at").s, Get(d.members, "not-after").s, content.emittedAt.s, spent)
  {
    var g := claim.grant;
    var probe := Gate.Envelope(g.request, Text(claim.at), Some(AsAuthorization(g)));
    LocalPasses(kit.hash, probe, claim.approvers, {}, claim.at);
    TimingLater(g.request, g.decision, claim.at, claim.at);
    LocalCheckPredictsKernel(kit.hash, probe, content, claim.approvers, kernels, {}, claim.at, spent, requiresGate);
  }

  /** What the kernel will say of an envelope a call chained under an approval: yes, unless its own approvers do
      not place the signature with someone else who may approve, it was emitted outside the approval's window on
      the calendar, or the approval was spent before. */
  lemma KernelAnswers(kit: Kit, steps: seq<Step>, k: nat, h: string, kernels: seq<Approver>, requiresGate: bool,
                      spent: set<string>)
    requires k < |Run(kit, steps).db.envelopes| && !Run(kit, steps).db.envelopes[k].origin.Seeding?
    requires Accounts.CitesApproval(kit, Run(kit, steps).db.envelopes[k], h)
    ensures var s := Run(kit, steps);
      h in s.history.claims
      && var claim, content := s.history.claims[h], s.db.envelopes[k].record.draft.content;
         var d := claim.grant.decision;
         && d.signer.Some? && Get(d.members, "decided-at").Text? && Get(d.members, "not-after").Text?
         && IsTimestamp(Get(d.members, "decided-at").s) && IsTimestamp(Get(d.members, "not-after").s)
         && content.emittedAt.Text?
         && VerifyKernel(kit.hash, content, requiresGate, kernels, spent)
              == KernelAnswer(kernels, Get(claim.grant.request, "subject"), ApprovalOf(h, d), Get(d.members, "decided-at").s,
                              Get(d.members, "not-after").s, content.emittedAt.s, spent)
  {
    var s := Run(kit, steps);
    RunKeepsInv(kit, steps);
    Accounts.RunKeepsBooks(kit, steps);
    CitedGrantIsClaimed(kit, s, k, h);
    var content := s.db.envelopes[k].record.draft.content;
    assert Bound(content);
    ClaimedCheckPredicts(kit, s.history.claims[h], content, kernels, requiresGate, spent);
  }

  /** Where the kernel's approvers place the signature with the one the gateway's do, only emission and replay
      are left to decide. */
  lemma KernelAnswersAlike(kit: Kit, steps: seq<Step>, k: nat, h: string, kernels: seq<Approver>, requiresGate: bool,
                           spent: set<string>)
    requires k < |Run(kit, steps).db.envelopes| && !Run(kit, steps).db.envelopes[k].origin.Seeding?
    requires Accounts.CitesApproval(kit, Run(kit, steps).db.envelopes[k], h)
    requires var claims := Run(kit, steps).history.claims;
      h in claims && claims[h].grant.decision.signer.Some? ==>
        FindApprover(kernels, claims[h].grant.decision.signer.value)
          == FindApprover(claims[h].approvers, claims[h].grant.decision.signer.value)
    ensures var s := Run(kit, steps);
      && h in s.history.claims && s.history.claims[h].grant.decision.signer.Some?
      && var claim, content := s.history.claims[h], s.db.envelopes[k].record.draft.content;
         var members := claim.grant.decision.members;
         && Get(members, "decided-at").Text? && Get(members, "not-after").Text? && content.emittedAt.Text?
         && IsTimestamp(Get(members, "decided-at").s) && IsTimestamp(Get(members, "not-after").s)
         && VerifyKernel(kit.hash, content, requiresGate, kernels, spent)
              == AnswerLater(ApprovalOf(h, claim.grant.decision), Get(members, "decided-at").s, Get(members, "not-after").s,
                             content.emittedAt.s, spent)
  {
    var s := Run(kit, steps);
    KernelAnswers(kit, steps, k, h, kernels, requiresGate, spent);
    Accounts.RunKeepsBooks(kit, steps);
    CitedGrantIsClaimed(kit, s, k, h);
    var claim := s.history.claims[h];
    PassedHasApprover(kit, claim);
    SameApproverSameFault(kernels, claim.approvers, claim.grant.decision.signer.value, Get(claim.grant.request, "subject"));
  }

  lemma PassedHasApprover(kit: Kit, claim: Holding)
    requires CheckGrant(kit, claim.grant, claim.approvers, {}, claim.at).Ok?
    ensures claim.grant.decision.signer.Some?
    ensures ApproverFault(claim.approvers, claim.grant.decision.signer.value, Get(claim.grant.request, "subject")).None?
  {
  }

  lemma CitedGrantIsClaimed(kit: Kit, s: State, k: nat, h: string)
    requires Accounts.Books(kit, s) && k < |s.db.envelopes| && Accounts.CitesApproval(kit, s.db.envelopes[k], h)
    ensures h in s.history.claims && kit.hash(s.history.claims[h].grant.request) == h
    ensures s.db.envelopes[k].record.draft.content.authorization == Some(AsAuthorization(s.history.claims[h].grant))
    ensures var claim := s.history.claims[h]; CheckGrant(kit, claim.grant, claim.approvers, {}, claim.at).Ok?
  {
    Accounts.CitedByClaimant(kit, s, k, h);
    CitedInFull(s.db.envelopes[k].record.draft.content);
    ClaimChecked(kit, s, h);
  }

  lemma CitedInFull(content: Gate.Envelope)
    requires Citations.Cites(content).Some?
    ensures content.authorization == Some(AsAuthorization(Citations.Cites(content).value))
  {
  }

  lemma ClaimChecked(kit: Kit, s: State, h: string)
    requires AtMostOnce.ClaimsRecorded(kit, s) && h in s.history.claims
    ensures var claim := s.history.claims[h];
      kit.hash(claim.grant.request) == h && CheckGrant(kit, claim.grant, claim.approvers, {}, claim.at).Ok?
  {
  }
}
