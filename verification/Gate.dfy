/** Verification of a human's authorization: the gateway's local check and the kernel's check of the
    emitted envelope, in the order each implementation takes the eleven steps.

    A JSON object is a map from member names; what is not a string or a boolean is an opaque value.
    The members an approval binds are read off the envelope under their nine request names.
 */
module Gate {
  import opened Prelude
  import opened Calendar

  datatype Field = Absent | Text(s: string) | Boolean(on: bool) | Opaque(n: int)

  type Members = map<string, Field>

  function Get(m: Members, name: string): Field {
    if name in m then m[name] else Absent
  }

  /** A signed decision; `signer` is what verifying the signed object answered. */
  datatype Decision = Decision(members: Members, signer: Option<string>)

  /** `request` and `decision` are absent when missing or not objects. */
  datatype Authorization = Authorization(request: Option<Members>, decision: Option<Decision>)

  datatype Envelope = Envelope(performed: Members, emittedAt: Field, authorization: Option<Authorization>)

  datatype Approver = Approver(key: string, subject: Option<string>)

  datatype Approval = Approval(requestHash: string, decidedBy: string, singleUse: bool)

  const BOUND: seq<string> := ["subject", "key", "component", "mandate-ref", "policy-version",
                               "classification", "action", "target", "args-hash"]

  /** The nine members an approval binds hold the same values. */
  predicate NineAgree(r: Members, p: Members) {
    && Get(r, "subject") == Get(p, "subject")
    && Get(r, "key") == Get(p, "key")
    && Get(r, "component") == Get(p, "component")
    && Get(r, "mandate-ref") == Get(p, "mandate-ref")
    && Get(r, "policy-version") == Get(p, "policy-version")
    && Get(r, "classification") == Get(p, "classification")
    && Get(r, "action") == Get(p, "action")
    && Get(r, "target") == Get(p, "target")
    && Get(r, "args-hash") == Get(p, "args-hash")
  }

  /** The nine members hold the same texts, or neither holds one. */
  predicate NineReadAlike(r: Members, p: Members) {
    && AsText(Get(r, "subject")) == AsText(Get(p, "subject"))
    && AsText(Get(r, "key")) == AsText(Get(p, "key"))
    && AsText(Get(r, "component")) == AsText(Get(p, "component"))
    && AsText(Get(r, "mandate-ref")) == AsText(Get(p, "mandate-ref"))
    && AsText(Get(r, "policy-version")) == AsText(Get(p, "policy-version"))
    && AsText(Get(r, "classification")) == AsText(Get(p, "classification"))
    && AsText(Get(r, "action")) == AsText(Get(p, "action"))
    && AsText(Get(r, "target")) == AsText(Get(p, "target"))
    && AsText(Get(r, "args-hash")) == AsText(Get(p, "args-hash"))
  }

  /** What an approval binds is these nine, and each of them. */
  lemma BoundIsNine(r: Members, p: Members)
    ensures BoundEqual(r, p) <==> NineAgree(r, p)
    ensures BoundAgree(r, p) <==> NineReadAlike(r, p)
  {
    assert |BOUND| == 9;
    assert BOUND[0] == "subject" && BOUND[1] == "key" && BOUND[2] == "component" && BOUND[3] == "mandate-ref"
        && BOUND[4] == "policy-version" && BOUND[5] == "classification" && BOUND[6] == "action" && BOUND[7] == "target"
        && BOUND[8] == "args-hash";
  }

  /** The first approver listed with this key. */
  function FindApprover(approvers: seq<Approver>, key: string): (a: Option<Approver>)
    ensures a.None? <==> forall i :: 0 <= i < |approvers| ==> approvers[i].key != key
    ensures a.Some? ==> a.value in approvers && a.value.key == key
  {
    if approvers == [] then None
    else if approvers[0].key == key then Some(approvers[0])
    else FindApprover(approvers[1..], key)
  }

  function AsText(f: Field): Option<string> {
    match f case Text(s) => Some(s) case _ => None
  }

  /** The approver acts as the subject that asked. */
  predicate ActsAsRequester(approver: Option<Approver>, requestedBy: Field) {
    approver.Some? && approver.value.subject.Some? && requestedBy == Text(approver.value.subject.value)
  }

  /** A missing or non-boolean `single-use` is the restrictive reading. */
  function SingleUse(d: Decision): bool {
    match Get(d.members, "single-use") case Boolean(on) => on case _ => true
  }

  /** Steps (8) and (9) once all four instants are strings: the window, compared as text. */
  function WindowFault(decidedAt: string, decisionNotAfter: string, requestNotAfter: string, at: string): Option<string> {
    if !IsTimestamp(decidedAt) || !IsTimestamp(decisionNotAfter) || !IsTimestamp(requestNotAfter) || !IsTimestamp(at)
    then Some("encoding-bad-timestamp")
    else if LexLt(requestNotAfter, decidedAt) then Some("gate-request-expired")
    else if LexLt(at, decidedAt) || LexLt(decisionNotAfter, at) then Some("gate-approval-expired")
    else None
  }

  /** The window as instants on the calendar. */
  lemma WindowIsChronological(decidedAt: string, decisionNotAfter: string, requestNotAfter: string, at: string)
    requires IsTimestamp(decidedAt) && IsTimestamp(decisionNotAfter) && IsTimestamp(requestNotAfter) && IsTimestamp(at)
    ensures WindowFault(decidedAt, decisionNotAfter, requestNotAfter, at).None?
      <==> && Instant(decidedAt) <= Instant(requestNotAfter)
           && Instant(decidedAt) <= Instant(at) <= Instant(decisionNotAfter)
  {
    LexOrderIsChronological(requestNotAfter, decidedAt);
    LexOrderIsChronological(at, decidedAt);
    LexOrderIsChronological(decisionNotAfter, at);
  }

  /** Steps (4) and (5) on the approver a key belongs to: not the requester, and one that may approve. */
  function ApproverFault(approvers: seq<Approver>, key: string, requestedBy: Field): Option<string> {
    var approver := FindApprover(approvers, key);
    if ActsAsRequester(approver, requestedBy) then Some("gate-self-approval")
    else if approver.None? then Some("gate-approver-not-permitted")
    else None
  }

  /** Steps (2) to (7) as the gateway takes them: whose decision this is, and that it approves. */
  function LocalStanding(requestHash: string, request: Members, decision: Decision, approvers: seq<Approver>): Option<string> {
    if Get(decision.members, "request-hash") != Text(requestHash) then Some("gate-authorization-request-hash-mismatch")
    else if decision.signer.None? then Some("gate-decision-sig-invalid")
    else if !Get(request, "key").Text? then Some("schema-missing-member")
    else if Get(request, "key") == Text(decision.signer.value) then Some("gate-self-approval")
    else
      var fault := ApproverFault(approvers, decision.signer.value, Get(request, "subject"));
      if fault.Some? then fault
      else
        var verdict := Get(decision.members, "decision");
        if verdict != Text("approve") && verdict != Text("deny") then Some("gate-decision-unknown")
        else if verdict == Text("deny") then Some(DenialFault(decision))
        else None
  }

  /** Step (7): a denial must say why, and is never authorization. */
  function DenialFault(decision: Decision): string {
    var reason := Get(decision.members, "reason");
    if !reason.Text? || reason.s == "" then "gate-denial-without-reason" else "gate-denied"
  }

  /** Steps (8) and (9) with their operands still to be read. */
  function TimingFault(request: Members, decision: Decision, when: Field): Option<string> {
    var decidedAt, until, deadline :=
      Get(decision.members, "decided-at"), Get(decision.members, "not-after"), Get(request, "not-after");
    if !decidedAt.Text? || !until.Text? || !deadline.Text? || !when.Text? then Some("schema-missing-member")
    else WindowFault(decidedAt.s, until.s, deadline.s, when.s)
  }

  /** Every bound member of the request is the envelope's, compared as JSON values. */
  predicate BoundEqual(request: Members, performed: Members) {
    forall i :: 0 <= i < |BOUND| ==> Get(request, BOUND[i]) == Get(performed, BOUND[i])
  }

  function ApprovalOf(requestHash: string, decision: Decision): Approval
    requires decision.signer.Some?
  {
    Approval(requestHash, decision.signer.value, SingleUse(decision))
  }

  predicate Replayed(requestHash: string, decision: Decision, seen: set<string>) {
    SingleUse(decision) && requestHash in seen
  }

  /** The gateway's check. `at` overrides the envelope's own instant when given. */
  function VerifyLocal(hash: Members -> string, envelope: Envelope, requiresGate: bool, approvers: seq<Approver>,
                       seen: set<string>, at: Option<string>): Result<Option<Approval>, string>
  {
    if envelope.authorization.None? then
      if requiresGate then Err("gate-authorization-missing") else Ok(None)
    else if envelope.authorization.value.request.None? || envelope.authorization.value.decision.None? then
      Err("schema-type-mismatch")
    else
      var request, decision := envelope.authorization.value.request.value, envelope.authorization.value.decision.value;
      var standing := LocalStanding(hash(request), request, decision, approvers);
      if standing.Some? then Err(standing.value)
      else
        var timing := TimingFault(request, decision, if at.Some? then Text(at.value) else envelope.emittedAt);
        if timing.Some? then Err(timing.value)
        else if !BoundEqual(request, envelope.performed) then Err("gate-authorization-action-mismatch")
        else if Replayed(hash(request), decision, seen) then Err("gate-authorization-replayed")
        else Ok(Some(ApprovalOf(hash(request), decision)))
  }

  /** Of the standing faults only a denial reads as denied, */
  lemma DeniedStandingDenies(requestHash: string, request: Members, decision: Decision, approvers: seq<Approver>)
    requires LocalStanding(requestHash, request, decision, approvers) == Some("gate-denied")
    ensures Get(decision.members, "decision") == Text("deny")
  {
  }

  /** and no timing fault does. */
  lemma TimingDeniesNothing(request: Members, decision: Decision, when: Field)
    ensures TimingFault(request, decision, when) != Some("gate-denied")
  {
  }

  /** A local check that answers denied is of a decision that denies. */
  lemma DeniedDenies(hash: Members -> string, envelope: Envelope, requiresGate: bool, approvers: seq<Approver>,
                     seen: set<string>, at: Option<string>)
    requires VerifyLocal(hash, envelope, requiresGate, approvers, seen, at) == Err("gate-denied")
    ensures envelope.authorization.Some? && envelope.authorization.value.decision.Some?
    ensures Get(envelope.authorization.value.decision.value.members, "decision") == Text("deny")
  {
    if envelope.authorization.Some? && envelope.authorization.value.request.Some? && envelope.authorization.value.decision.Some? {
      var request, decision := envelope.authorization.value.request.value, envelope.authorization.value.decision.value;
      TimingDeniesNothing(request, decision, if at.Some? then Text(at.value) else envelope.emittedAt);
      if LocalStanding(hash(request), request, decision, approvers).Some? {
        DeniedStandingDenies(hash(request), request, decision, approvers);
      }
    }
  }

  /** Steps (2) to (7) as the kernel takes them: a member of the wrong type is a missing member. */
  function KernelStanding(requestHash: string, request: Members, decision: Decision, approvers: seq<Approver>): Option<string> {
    if !Get(decision.members, "request-hash").Text? then Some("schema-missing-member")
    else if Get(decision.members, "request-hash").s != requestHash then Some("gate-authorization-request-hash-mismatch")
    else if decision.signer.None? then Some("gate-decision-sig-invalid")
    else if !Get(request, "key").Text? then Some("schema-missing-member")
    else if Get(request, "key").s == decision.signer.value then Some("gate-self-approval")
    else
      var fault := ApproverFault(approvers, decision.signer.value, Get(request, "subject"));
      if fault.Some? then fault
      else
        var verdict := Get(decision.members, "decision");
        if !verdict.Text? then Some("schema-missing-member")
        else if verdict.s == "approve" then None
        else if verdict.s == "deny" then Some(DenialFault(decision))
        else Some("gate-decision-unknown")
  }

  /** The kernel's check of an emitted envelope. */
  function VerifyKernel(hash: Members -> string, envelope: Envelope, requiresGate: bool, approvers: seq<Approver>,
                        seen: set<string>): Result<Option<Approval>, string>
  {
    if envelope.authorization.None? then
      if requiresGate then Err("gate-authorization-missing") else Ok(None)
    else if envelope.authorization.value.request.None? || envelope.authorization.value.decision.None? then
      Err("schema-missing-member")
    else
      var request, decision := envelope.authorization.value.request.value, envelope.authorization.value.decision.value;
      var standing := KernelStanding(hash(request), request, decision, approvers);
      if standing.Some? then Err(standing.value)
      else
        var timing := TimingFault(request, decision, envelope.emittedAt);
        if timing.Some? then Err(timing.value)
        else if !BoundAgree(request, envelope.performed) then Err("gate-authorization-action-mismatch")
        else if Replayed(hash(request), decision, seen) then Err("gate-authorization-replayed")
        else Ok(Some(ApprovalOf(hash(request), decision)))
  }

  /** The kernel reads both sides of each bound member as text, or as nothing. */
  predicate BoundAgree(request: Members, performed: Members) {
    forall i :: 0 <= i < |BOUND| ==> AsText(Get(request, BOUND[i])) == AsText(Get(performed, BOUND[i]))
  }

  /** Step (10) as the kernel runs it: a loop over the bound members with an early return. */
  method CheckBound(request: Members, performed: Members) returns (mismatch: Option<string>)
    ensures mismatch.None? <==> BoundAgree(request, performed)
    ensures mismatch.None? <==> NineReadAlike(request, performed)
    ensures mismatch.Some? ==>
      mismatch.value in BOUND && AsText(Get(request, mismatch.value)) != AsText(Get(performed, mismatch.value))
  {
    BoundIsNine(request, performed);
    for i := 0 to |BOUND|
      invariant forall j :: 0 <= j < i ==> AsText(Get(request, BOUND[j])) == AsText(Get(performed, BOUND[j]))
    {
      if AsText(Get(request, BOUND[i])) != AsText(Get(performed, BOUND[i])) {
        return Some(BOUND[i]);
      }
    }
    mismatch := None;
  }

  /** No bound member holds two different values that are not text. */
  predicate TextualBinding(request: Members, performed: Members) {
    forall i :: 0 <= i < |BOUND| ==>
      Get(request, BOUND[i]).Text? || Get(performed, BOUND[i]).Text?
      || Get(request, BOUND[i]) == Get(performed, BOUND[i])
  }

  lemma EqualBindingAgrees(request: Members, performed: Members)
    ensures BoundEqual(request, performed) <==> BoundAgree(request, performed) && TextualBinding(request, performed)
  {
    if BoundAgree(request, performed) && TextualBinding(request, performed) {
      forall i | 0 <= i < |BOUND| ensures Get(request, BOUND[i]) == Get(performed, BOUND[i]) {
        assert AsText(Get(request, BOUND[i])) == AsText(Get(performed, BOUND[i]));
      }
    }
  }

  /** Both implementations stand behind exactly the same decisions. */
  lemma StandingAgrees(requestHash: string, request: Members, decision: Decision, approvers: seq<Approver>)
    ensures LocalStanding(requestHash, request, decision, approvers).None?
      <==> KernelStanding(requestHash, request, decision, approvers).None?
  {
  }

  /** What the local check passes, the kernel's check passes with the same approval. The kernel passes
      more on exactly one ground: bound members that differ without either being text. */
  lemma LocalNeverLaxer(hash: Members -> string, e: Envelope, requiresGate: bool, approvers: seq<Approver>, seen: set<string>)
    ensures var p, k := VerifyLocal(hash, e, requiresGate, approvers, seen, None),
                        VerifyKernel(hash, e, requiresGate, approvers, seen);
      && (p.Ok? ==> k == p)
      && (k.Ok? && e.authorization.Some? && e.authorization.value.request.Some? ==>
            (p.Ok? <==> TextualBinding(e.authorization.value.request.value, e.performed)))
  {
    if e.authorization.Some? && e.authorization.value.request.Some? && e.authorization.value.decision.Some? {
      var request, decision := e.authorization.value.request.value, e.authorization.value.decision.value;
      StandingAgrees(hash(request), request, decision, approvers);
      EqualBindingAgrees(request, e.performed);
    }
  }

  /** What decides the kernel's answer once the decision itself stands: the emission instant on the
      calendar, and whether the approval was spent before. */
  function AnswerLater(approval: Approval, decidedAt: string, until: string, emittedAt: string, spent: set<string>)
    : Result<Option<Approval>, string>
    requires IsTimestamp(decidedAt) && IsTimestamp(until)
  {
    if !IsTimestamp(emittedAt) then Err("encoding-bad-timestamp")
    else if Instant(emittedAt) < Instant(decidedAt) || Instant(until) < Instant(emittedAt) then Err("gate-approval-expired")
    else if approval.singleUse && approval.requestHash in spent then Err("gate-authorization-replayed")
    else Ok(Some(approval))
  }

  /** Two lists of approvers that place a key with the same approver find the same fault, or none. */
  lemma SameApproverSameFault(a: seq<Approver>, b: seq<Approver>, key: string, requestedBy: Field)
    requires FindApprover(a, key) == FindApprover(b, key)
    ensures ApproverFault(a, key, requestedBy) == ApproverFault(b, key, requestedBy)
  {
  }

  /** After a local check at one instant, the kernel's answer for an envelope emitted later under that
      authorization, whose bound members are the request's, depends only on whom the kernel's own approvers
      place the signature with, on when it was emitted, and on whether the approval was spent before. */
  lemma LocalCheckPredictsKernel(hash: Members -> string, probe: Envelope, e: Envelope, approvers: seq<Approver>,
                                 kernels: seq<Approver>, seen: set<string>, at: string, spent: set<string>, requiresGate: bool)
    requires VerifyLocal(hash, probe, true, approvers, seen, Some(at)).Ok?
    requires e.authorization == probe.authorization && e.emittedAt.Text?
    requires BoundEqual(e.authorization.value.request.value, e.performed)
    ensures var approval := VerifyLocal(hash, probe, true, approvers, seen, Some(at)).value.value;
      var request, members := probe.authorization.value.request.value, probe.authorization.value.decision.value.members;
      VerifyKernel(hash, e, requiresGate, kernels, spent)
        == KernelAnswer(kernels, Get(request, "subject"), approval, Get(members, "decided-at").s, Get(members, "not-after").s,
                        e.emittedAt.s, spent)
  {
    LocalPasses(hash, probe, approvers, seen, at);
    var request, decision := probe.authorization.value.request.value, probe.authorization.value.decision.value;
    StandingOfAnother(hash(request), request, decision, approvers, kernels);
    EqualBindingAgrees(request, e.performed);
    KernelTakes(hash, e, requiresGate, kernels, spent, request, decision);
    TimingLater(request, decision, at, e.emittedAt.s);
  }

  /** The kernel's check of an envelope that performs what its request binds. */
  lemma KernelTakes(hash: Members -> string, e: Envelope, requiresGate: bool, kernels: seq<Approver>, spent: set<string>,
                    request: Members, decision: Decision)
    requires e.authorization == Some(Authorization(Some(request), Some(decision))) && decision.signer.Some?
    requires BoundAgree(request, e.performed)
    ensures var standing, timing := KernelStanding(hash(request), request, decision, kernels), TimingFault(request, decision, e.emittedAt);
      VerifyKernel(hash, e, requiresGate, kernels, spent) ==
        if standing.Some? then Err(standing.value)
        else if timing.Some? then Err(timing.value)
        else if Replayed(hash(request), decision, spent) then Err("gate-authorization-replayed")
        else Ok(Some(ApprovalOf(hash(request), decision)))
  {
  }

  /** What passing the local check says of the decision. */
  lemma LocalPasses(hash: Members -> string, probe: Envelope, approvers: seq<Approver>, seen: set<string>, at: string)
    requires VerifyLocal(hash, probe, true, approvers, seen, Some(at)).Ok?
    ensures probe.authorization.Some? && probe.authorization.value.request.Some? && probe.authorization.value.decision.Some?
    ensures var request, decision := probe.authorization.value.request.value, probe.authorization.value.decision.value;
      && LocalStanding(hash(request), request, decision, approvers).None? && TimingFault(request, decision, Text(at)).None?
      && VerifyLocal(hash, probe, true, approvers, seen, Some(at)).value == Some(ApprovalOf(hash(request), decision))
  {
  }

  /** A decision in time at one instant is in time at another that its own window holds. */
  lemma TimingLater(request: Members, decision: Decision, at: string, when: string)
    requires TimingFault(request, decision, Text(at)).None?
    ensures var decidedAt, until := Get(decision.members, "decided-at"), Get(decision.members, "not-after");
      && decidedAt.Text? && until.Text? && IsTimestamp(decidedAt.s) && IsTimestamp(until.s)
      && TimingFault(request, decision, Text(when)) ==
           if !IsTimestamp(when) then Some("encoding-bad-timestamp")
           else if Instant(when) < Instant(decidedAt.s) || Instant(until.s) < Instant(when) then Some("gate-approval-expired")
           else None
  {
    if IsTimestamp(when) {
      LexOrderIsChronological(when, Get(decision.members, "decided-at").s);
      LexOrderIsChronological(Get(decision.members, "not-after").s, when);
    }
  }

  /** A decision that stands with the gateway stands with the kernel, but for the approver the kernel finds. */
  lemma StandingOfAnother(requestHash: string, request: Members, decision: Decision, approvers: seq<Approver>, kernels: seq<Approver>)
    requires LocalStanding(requestHash, request, decision, approvers).None?
    ensures KernelStanding(requestHash, request, decision, kernels)
         == ApproverFault(kernels, decision.signer.value, Get(request, "subject"))
  {
  }

  function KernelAnswer(kernels: seq<Approver>, requestedBy: Field, approval: Approval, decidedAt: string, until: string,
                        emittedAt: string, spent: set<string>): Result<Option<Approval>, string>
    requires IsTimestamp(decidedAt) && IsTimestamp(until)
  {
    match ApproverFault(kernels, approval.decidedBy, requestedBy)
    case Some(code) => Err(code)
    case None => AnswerLater(approval, decidedAt, until, emittedAt, spent)
  }
}
