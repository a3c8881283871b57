/** The rules of the gate written on the members of a request and its decision, and both checks against them. */
module GateRules {
  import opened Prelude
  import opened Calendar
  import opened Gate
  import opened Protocol
  import Store

  /** Approver `i` is the one this key belongs to. */
  predicate Listed(approvers: seq<Approver>, key: string, i: nat) {
    i < |approvers| && approvers[i].key == key && forall j :: 0 <= j < i ==> approvers[j].key != key
  }

  predicate Unlisted(approvers: seq<Approver>, key: string) {
    forall i :: 0 <= i < |approvers| ==> approvers[i].key != key
  }

  /** The key belongs to an approver who acts as the subject that asked. */
  predicate IsRequester(approvers: seq<Approver>, key: string, subject: Field) {
    exists i: nat :: i < |approvers| && Listed(approvers, key, i) && approvers[i].subject.Some?
                && subject == Text(approvers[i].subject.value)
  }

  predicate IsInstant(f: Field) {
    f.Text? && IsTimestamp(f.s)
  }

  /** Both are instants, and the first is the later. */
  predicate After(a: Field, b: Field) {
    IsInstant(a) && IsInstant(b) && Instant(a.s) > Instant(b.s)
  }

  predicate GivesReason(d: Decision) {
    Get(d.members, "reason").Text? && Get(d.members, "reason") != Text("")
  }

  /** The decision may be used again and again only if it says so. */
  predicate Spent(requestHash: string, d: Decision, seen: set<string>) {
    Get(d.members, "single-use") != Boolean(false) && requestHash in seen
  }

  /** The decision is of this request, signed by someone listed who is not the one that asked. */
  predicate SignedFor(requestHash: string, r: Members, d: Decision, approvers: seq<Approver>) {
    && Get(d.members, "request-hash") == Text(requestHash)
    && d.signer.Some? && !Unlisted(approvers, d.signer.value) && !IsRequester(approvers, d.signer.value, Get(r, "subject"))
    && Get(r, "key").Text? && Get(r, "key") != Text(d.signer.value)
  }

  /** Decided while the request was open, and in force at this instant. */
  predicate InTime(r: Members, d: Decision, when: Field) {
    && IsInstant(Get(d.members, "decided-at")) && IsInstant(Get(d.members, "not-after")) && IsInstant(Get(r, "not-after"))
    && IsInstant(when)
    && !After(Get(d.members, "decided-at"), Get(r, "not-after"))
    && !After(Get(d.members, "decided-at"), when) && !After(when, Get(d.members, "not-after"))
  }

  /** What an approval of this request must be, to be good at this instant. */
  predicate Approves(requestHash: string, r: Members, d: Decision, approvers: seq<Approver>, when: Field, seen: set<string>) {
    && SignedFor(requestHash, r, d, approvers) && Get(d.members, "decision") == Text("approve")
    && InTime(r, d, when) && !Spent(requestHash, d, seen)
  }

  // ---- the refusals, in order ----

  /** Steps (8) and (9). */
  function TimingRefusal(r: Members, d: Decision, when: Field): Option<string> {
    var decidedAt, until, deadline := Get(d.members, "decided-at"), Get(d.members, "not-after"), Get(r, "not-after");
    if !(decidedAt.Text? && until.Text? && deadline.Text? && when.Text?) then Some("schema-missing-member")
    else if !(IsInstant(decidedAt) && IsInstant(until) && IsInstant(deadline) && IsInstant(when)) then Some("encoding-bad-timestamp")
    else if After(decidedAt, deadline) then Some("gate-request-expired")
    else if After(decidedAt, when) || After(when, until) then Some("gate-approval-expired")
    else None
  }

  /** Steps (3) to (5). */
  function SignerRefusal(r: Members, d: Decision, approvers: seq<Approver>): Option<string> {
    if d.signer.None? then Some("gate-decision-sig-invalid")
    else if !Get(r, "key").Text? then Some("schema-missing-member")
    else if Get(r, "key") == Text(d.signer.value) then Some("gate-self-approval")
    else if IsRequester(approvers, d.signer.value, Get(r, "subject")) then Some("gate-self-approval")
    else if Unlisted(approvers, d.signer.value) then Some("gate-approver-not-permitted")
    else None
  }

  /** Steps (2) to (7) at the gateway. */
  function GatewayRefusal(requestHash: string, r: Members, d: Decision, approvers: seq<Approver>): Option<string> {
    if Get(d.members, "request-hash") != Text(requestHash) then Some("gate-authorization-request-hash-mismatch")
    else if SignerRefusal(r, d, approvers).Some? then SignerRefusal(r, d, approvers)
    else if Get(d.members, "decision") == Text("approve") then None
    else if Get(d.members, "decision") != Text("deny") then Some("gate-decision-unknown")
    else if !GivesReason(d) then Some("gate-denial-without-reason")
    else Some("gate-denied")
  }

  /** Steps (2) to (7) at the kernel. */
  function KernelRefusal(requestHash: string, r: Members, d: Decision, approvers: seq<Approver>): Option<string> {
    if !Get(d.members, "request-hash").Text? || (SignerRefusal(r, d, approvers).None?
         && Get(d.members, "request-hash") == Text(requestHash) && !Get(d.members, "decision").Text?)
    then Some("schema-missing-member")
    else GatewayRefusal(requestHash, r, d, approvers)
  }

  lemma FoundIsListed(approvers: seq<Approver>, key: string)
    ensures match FindApprover(approvers, key)
      case None => Unlisted(approvers, key)
      case Some(a) => exists i: nat :: i < |approvers| && Listed(approvers, key, i) && approvers[i] == a
  {
    if FindApprover(approvers, key).Some? {
      var i := FoundAt(approvers, key);
    }
  }

  lemma {:induction false} FoundAt(approvers: seq<Approver>, key: string) returns (i: nat)
    requires FindApprover(approvers, key).Some?
    ensures i < |approvers| && Listed(approvers, key, i) && FindApprover(approvers, key) == Some(approvers[i])
  {
    if approvers[0].key == key {
      i := 0;
    } else {
      var k := FoundAt(approvers[1..], key);
      i := k + 1;
      forall j | 0 <= j < i ensures approvers[j].key != key { if j > 0 { assert approvers[1..][j - 1] == approvers[j]; } }
    }
  }

  lemma FaultIsRefusal(approvers: seq<Approver>, key: string, subject: Field)
    ensures ApproverFault(approvers, key, subject) ==
      if IsRequester(approvers, key, subject) then Some("gate-self-approval")
      else if Unlisted(approvers, key) then Some("gate-approver-not-permitted")
      else None
  {
    FoundIsListed(approvers, key);
    if FindApprover(approvers, key).Some? {
      var i := FoundAt(approvers, key);
      forall j: nat | j < |approvers| && Listed(approvers, key, j) ensures j == i {}
    }
  }

  lemma LaterReads(a: string, b: string)
    requires IsTimestamp(a) && IsTimestamp(b)
    ensures LexLt(b, a) <==> After(Text(a), Text(b))
  {
    LexOrderIsChronological(b, a);
  }

  lemma WindowReads(decidedAt: string, until: string, deadline: string, when: string)
    requires IsTimestamp(decidedAt) && IsTimestamp(until) && IsTimestamp(deadline) && IsTimestamp(when)
    ensures WindowFault(decidedAt, until, deadline, when) ==
      if After(Text(decidedAt), Text(deadline)) then Some("gate-request-expired")
      else if After(Text(decidedAt), Text(when)) || After(Text(when), Text(until)) then Some("gate-approval-expired")
      else None
  {
    LaterReads(decidedAt, deadline);
    LaterReads(decidedAt, when);
    LaterReads(when, until);
  }

  lemma WindowIsRefused(r: Members, d: Decision, when: Field)
    ensures TimingFault(r, d, when) == TimingRefusal(r, d, when)
  {
    var decidedAt, until, deadline := Get(d.members, "decided-at"), Get(d.members, "not-after"), Get(r, "not-after");
    if IsInstant(decidedAt) && IsInstant(until) && IsInstant(deadline) && IsInstant(when) {
      WindowReads(decidedAt.s, until.s, deadline.s, when.s);
    }
  }

  lemma InTimeExactly(r: Members, d: Decision, when: Field)
    ensures TimingRefusal(r, d, when).None? <==> InTime(r, d, when)
  {
  }

  lemma RefusedExactly(requestHash: string, r: Members, d: Decision, approvers: seq<Approver>)
    ensures GatewayRefusal(requestHash, r, d, approvers).None? <==>
      SignedFor(requestHash, r, d, approvers) && Get(d.members, "decision") == Text("approve")
    ensures KernelRefusal(requestHash, r, d, approvers).None? <==> GatewayRefusal(requestHash, r, d, approvers).None?
    ensures GatewayRefusal(requestHash, r, d, approvers) == Some("gate-denied") <==>
      SignedFor(requestHash, r, d, approvers) && Get(d.members, "decision") == Text("deny") && GivesReason(d)
  {
  }

  lemma DenialIsRefused(d: Decision)
    ensures DenialFault(d) == if GivesReason(d) then "gate-denied" else "gate-denial-without-reason"
  {
  }

  lemma GatewayStands(requestHash: string, r: Members, d: Decision, approvers: seq<Approver>)
    ensures LocalStanding(requestHash, r, d, approvers) == GatewayRefusal(requestHash, r, d, approvers)
  {
    if d.signer.Some? { FaultIsRefusal(approvers, d.signer.value, Get(r, "subject")); }
    DenialIsRefused(d);
  }

  lemma KernelStands(requestHash: string, r: Members, d: Decision, approvers: seq<Approver>)
    ensures KernelStanding(requestHash, r, d, approvers) == KernelRefusal(requestHash, r, d, approvers)
  {
    if d.signer.Some? { FaultIsRefusal(approvers, d.signer.value, Get(r, "subject")); }
    DenialIsRefused(d);
  }

  /** After the standing of the decision: window, binding, replay. */
  function Rest(requestHash: string, r: Members, d: Decision, binds: bool, when: Field, seen: set<string>): Result<Option<Approval>, string>
    requires d.signer.Some?
  {
    if TimingRefusal(r, d, when).Some? then Err(TimingRefusal(r, d, when).value)
    else if !binds then Err("gate-authorization-action-mismatch")
    else if Spent(requestHash, d, seen) then Err("gate-authorization-replayed")
    else Ok(Some(Approval(requestHash, d.signer.value, Get(d.members, "single-use") != Boolean(false))))
  }

  lemma SpentExactly(requestHash: string, d: Decision, seen: set<string>)
    requires d.signer.Some?
    ensures Replayed(requestHash, d, seen) <==> Spent(requestHash, d, seen)
    ensures ApprovalOf(requestHash, d) == Approval(requestHash, d.signer.value, Get(d.members, "single-use") != Boolean(false))
  {
  }

  lemma LocalRest(hash: Members -> string, e: Envelope, gated: bool, approvers: seq<Approver>, seen: set<string>, at: Option<string>,
                  r: Members, d: Decision)
    requires e.authorization == Some(Authorization(Some(r), Some(d))) && d.signer.Some?
    requires LocalStanding(hash(r), r, d, approvers).None?
    ensures VerifyLocal(hash, e, gated, approvers, seen, at)
      == Rest(hash(r), r, d, NineAgree(r, e.performed), if at.Some? then Text(at.value) else e.emittedAt, seen)
  {
    WindowIsRefused(r, d, if at.Some? then Text(at.value) else e.emittedAt);
    BoundIsNine(r, e.performed);
    SpentExactly(hash(r), d, seen);
  }

  lemma KernelRest(hash: Members -> string, e: Envelope, gated: bool, approvers: seq<Approver>, seen: set<string>,
                   r: Members, d: Decision)
    requires e.authorization == Some(Authorization(Some(r), Some(d))) && d.signer.Some?
    requires KernelStanding(hash(r), r, d, approvers).None?
    ensures VerifyKernel(hash, e, gated, approvers, seen) == Rest(hash(r), r, d, NineReadAlike(r, e.performed), e.emittedAt, seen)
  {
    WindowIsRefused(r, d, e.emittedAt);
    BoundIsNine(r, e.performed);
    SpentExactly(hash(r), d, seen);
  }

  lemma Refuses(hash: Members -> string, e: Envelope, gated: bool, approvers: seq<Approver>, seen: set<string>, at: Option<string>,
                r: Members, d: Decision)
    requires e.authorization == Some(Authorization(Some(r), Some(d)))
    ensures var local, kernel := LocalStanding(hash(r), r, d, approvers), KernelStanding(hash(r), r, d, approvers);
      && (local.Some? ==> VerifyLocal(hash, e, gated, approvers, seen, at) == Err(local.value))
      && (kernel.Some? ==> VerifyKernel(hash, e, gated, approvers, seen) == Err(kernel.value))
  {
  }

  /** The gateway's check answers each request and decision by the rules, in their order. */
  lemma LocalGoesByRules(hash: Members -> string, e: Envelope, gated: bool, approvers: seq<Approver>, seen: set<string>, at: Option<string>)
    requires e.authorization.Some? && e.authorization.value.request.Some? && e.authorization.value.decision.Some?
    ensures var r, d := e.authorization.value.request.value, e.authorization.value.decision.value;
      var refusal := GatewayRefusal(hash(r), r, d, approvers);
      && (refusal.None? ==> d.signer.Some?)
      && VerifyLocal(hash, e, gated, approvers, seen, at) ==
           if refusal.Some? then Err(refusal.value)
           else Rest(hash(r), r, d, NineAgree(r, e.performed), if at.Some? then Text(at.value) else e.emittedAt, seen)
  {
    var r, d := e.authorization.value.request.value, e.authorization.value.decision.value;
    GatewayStands(hash(r), r, d, approvers);
    RefusedExactly(hash(r), r, d, approvers);
    Refuses(hash, e, gated, approvers, seen, at, r, d);
    if GatewayRefusal(hash(r), r, d, approvers).None? { LocalRest(hash, e, gated, approvers, seen, at, r, d); }
  }

  /** And so does the kernel's. */
  lemma KernelGoesByRules(hash: Members -> string, e: Envelope, gated: bool, approvers: seq<Approver>, seen: set<string>)
    requires e.authorization.Some? && e.authorization.value.request.Some? && e.authorization.value.decision.Some?
    ensures var r, d := e.authorization.value.request.value, e.authorization.value.decision.value;
      var refusal := KernelRefusal(hash(r), r, d, approvers);
      && (refusal.None? ==> d.signer.Some?)
      && VerifyKernel(hash, e, gated, approvers, seen) ==
           if refusal.Some? then Err(refusal.value)
           else Rest(hash(r), r, d, NineReadAlike(r, e.performed), e.emittedAt, seen)
  {
    var r, d := e.authorization.value.request.value, e.authorization.value.decision.value;
    KernelStands(hash(r), r, d, approvers);
    RefusedExactly(hash(r), r, d, approvers);
    Refuses(hash, e, gated, approvers, seen, None, r, d);
    if KernelRefusal(hash(r), r, d, approvers).None? { KernelRest(hash, e, gated, approvers, seen, r, d); }
  }

  /** With no authorization, or half of one. */
  lemma WithoutAuthorization(hash: Members -> string, e: Envelope, gated: bool, approvers: seq<Approver>, seen: set<string>, at: Option<string>)
    requires !(e.authorization.Some? && e.authorization.value.request.Some? && e.authorization.value.decision.Some?)
    ensures VerifyLocal(hash, e, gated, approvers, seen, at) ==
      if e.authorization.Some? then Err("schema-type-mismatch") else if gated then Err("gate-authorization-missing") else Ok(None)
    ensures VerifyKernel(hash, e, gated, approvers, seen) ==
      if e.authorization.Some? then Err("schema-missing-member") else if gated then Err("gate-authorization-missing") else Ok(None)
  {
  }

  /** The gateway passes exactly a good approval of the nine members performed. */
  lemma LocalPassesExactly(hash: Members -> string, e: Envelope, gated: bool, approvers: seq<Approver>, seen: set<string>, at: Option<string>)
    requires e.authorization.Some? && e.authorization.value.request.Some? && e.authorization.value.decision.Some?
    ensures var r, d := e.authorization.value.request.value, e.authorization.value.decision.value;
      VerifyLocal(hash, e, gated, approvers, seen, at).Ok? <==>
        && Approves(hash(r), r, d, approvers, if at.Some? then Text(at.value) else e.emittedAt, seen)
        && NineAgree(r, e.performed)
  {
    var r, d := e.authorization.value.request.value, e.authorization.value.decision.value;
    LocalGoesByRules(hash, e, gated, approvers, seen, at);
    RefusedExactly(hash(r), r, d, approvers);
    InTimeExactly(r, d, if at.Some? then Text(at.value) else e.emittedAt);
  }

  /** The kernel passes exactly a good approval whose nine members read as those performed. */
  lemma KernelPassesExactly(hash: Members -> string, e: Envelope, gated: bool, approvers: seq<Approver>, seen: set<string>)
    requires e.authorization.Some? && e.authorization.value.request.Some? && e.authorization.value.decision.Some?
    ensures var r, d := e.authorization.value.request.value, e.authorization.value.decision.value;
      VerifyKernel(hash, e, gated, approvers, seen).Ok? <==>
        Approves(hash(r), r, d, approvers, e.emittedAt, seen) && NineReadAlike(r, e.performed)
  {
    var r, d := e.authorization.value.request.value, e.authorization.value.decision.value;
    KernelGoesByRules(hash, e, gated, approvers, seen);
    RefusedExactly(hash(r), r, d, approvers);
    InTimeExactly(r, d, e.emittedAt);
  }

  /** A denial reads as one exactly when whoever may decide denied this very request and gave a reason. */
  lemma DeniedExactly(hash: Members -> string, e: Envelope, gated: bool, approvers: seq<Approver>, seen: set<string>, at: Option<string>)
    requires e.authorization.Some? && e.authorization.value.request.Some? && e.authorization.value.decision.Some?
    ensures var r, d := e.authorization.value.request.value, e.authorization.value.decision.value;
      VerifyLocal(hash, e, gated, approvers, seen, at) == Err("gate-denied") <==>
        SignedFor(hash(r), r, d, approvers) && Get(d.members, "decision") == Text("deny") && GivesReason(d)
  {
    var r, d := e.authorization.value.request.value, e.authorization.value.decision.value;
    LocalGoesByRules(hash, e, gated, approvers, seen, at);
    RefusedExactly(hash(r), r, d, approvers);
  }

  /** The check of a parked or catalog decision passes exactly a good approval of its own request, */
  lemma GrantPassesExactly(kit: Store.Kit, g: Grant, approvers: seq<Approver>, seen: set<string>, now: string)
    ensures CheckGrant(kit, g, approvers, seen, now).Ok?
      <==> Approves(kit.hash(g.request), g.request, g.decision, approvers, Text(now), seen)
  {
    LocalPassesExactly(kit.hash, Gate.Envelope(g.request, Text(now), Some(AsAuthorization(g))), true, approvers, seen, Some(now));
  }

  /** and answers denied exactly for a reasoned denial of it. */
  lemma GrantDeniedExactly(kit: Store.Kit, g: Grant, approvers: seq<Approver>, seen: set<string>, now: string)
    ensures CheckGrant(kit, g, approvers, seen, now) == Err("gate-denied") <==>
      SignedFor(kit.hash(g.request), g.request, g.decision, approvers)
      && Get(g.decision.members, "decision") == Text("deny") && GivesReason(g.decision)
  {
    DeniedExactly(kit.hash, Gate.Envelope(g.request, Text(now), Some(AsAuthorization(g))), true, approvers, seen, Some(now));
  }
}
