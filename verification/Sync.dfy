/** What a component may do once the kernel has answered "no". */
module Sync {
  import opened Prelude
  import opened Calendar
  import opened Store
  import opened Pushers
  import opened AnyPushers

  datatype SyncDecision = Serve(finding: bool) | Refuse(code: string)

  datatype Standing = Accepted | Unreachable | Refused(reason: string)

  predicate HasPrefix(s: string, prefix: string) {
    prefix <= s
  }

  /** The reason leaves no grace for any class: what was refused is the authority itself. */
  predicate DeniesEveryClass(reason: string) {
    HasPrefix(reason, "mandate-") || reason == "policy-not-published"
  }

  predicate NoGraceClass(classification: string) {
    classification == "consequential" || classification == "prohibited"
  }

  /** `decide`, with elapsed time in milliseconds. */
  function Decide(standing: Standing, classification: string, elapsedMillis: int, offline: string, graceSeconds: int): SyncDecision {
    match standing
    case Accepted => Serve(false)
    case Unreachable => if offline == "allow" then Serve(false) else Refuse("policy-stale-offline")
    case Refused(reason) =>
      if DeniesEveryClass(reason) then Refuse(reason)
      else if NoGraceClass(classification) then Refuse(reason)
      else if elapsedMillis < graceSeconds * 1000 then Serve(true)
      else Refuse(reason)
  }

  /** `_require_not_wedged`: what the enforcer decides about a call on this stream at `now`. */
  function DecideCall(db: Db, stream: string, classification: string, now: string, offline: string, grace: int): Option<SyncDecision>
    requires stream in db.wedges ==> IsTimestamp(db.wedges[stream].firstRefusedAt)
    requires IsTimestamp(now)
  {
    if stream !in db.wedges then None
    else
      var w := db.wedges[stream];
      Some(Decide(Refused(w.reason), classification, Instant(now) - Instant(w.firstRefusedAt), offline, grace))
  }

  /** A call on a wedged stream, as it is decided. */
  datatype Call = Call(classification: string, now: string, offline: string, graceSeconds: int)

  /** The call is decided, and served under the refusal. */
  predicate Serves(db: Db, stream: string, c: Call) {
    && stream in db.wedges && IsTimestamp(db.wedges[stream].firstRefusedAt) && IsTimestamp(c.now)
    && DecideCall(db, stream, c.classification, c.now, c.offline, c.graceSeconds) == Some(Serve(true))
  }

  /** This refusal leaves grace for the call: its reason is not the authority itself, the call is of a class that may
      use grace, and the window from the first refusal has not run out. */
  predicate GraceFor(wedge: Wedge, c: Call) {
    && IsTimestamp(wedge.firstRefusedAt) && IsTimestamp(c.now)
    && !(|wedge.reason| >= 8 && wedge.reason[..8] == "mandate-") && wedge.reason != "policy-not-published"
    && c.classification != "consequential" && c.classification != "prohibited"
    && Instant(c.now) - Instant(wedge.firstRefusedAt) < c.graceSeconds * 1000
  }

  /** A component serves what the kernel accepted; when it cannot reach the kernel, what policy lets it; and after a
      refusal, what is left grace for, as a finding. */
  lemma DecidesByStanding(standing: Standing, classification: string, elapsedMillis: int, offline: string, graceSeconds: int)
    ensures var d := Decide(standing, classification, elapsedMillis, offline, graceSeconds);
      match standing
      case Accepted => d == Serve(false)
      case Unreachable => d == if offline == "allow" then Serve(false) else Refuse("policy-stale-offline")
      case Refused(reason) =>
        d == if !(|reason| >= 8 && reason[..8] == "mandate-") && reason != "policy-not-published"
                && classification != "consequential" && classification != "prohibited" && elapsedMillis < graceSeconds * 1000
             then Serve(true) else Refuse(reason)
  {
  }

  /** From a wedge on, over steps in which the kernel accepts nothing on the stream and nobody settles an acceptance
      heard on it before, a call is served exactly when the first refusal leaves grace for it, and refused with that
      refusal's own reason otherwise, however many refusals, crashes, restarts and graced calls lie between. */
  lemma ServedExactly(w: World, steps: seq<Step>, stream: string, c: Call)
    requires stream in w.db.wedges && NothingEnds(w, steps, stream)
    requires IsTimestamp(w.db.wedges[stream].firstRefusedAt) && IsTimestamp(c.now)
    ensures var db, wedge := RunFrom(w, steps).db, w.db.wedges[stream];
      && stream in db.wedges && db.wedges[stream].firstRefusedAt == wedge.firstRefusedAt
      && DecideCall(db, stream, c.classification, c.now, c.offline, c.graceSeconds)
           == Some(if GraceFor(wedge, c) then Serve(true) else Refuse(wedge.reason))
  {
    WedgeStands(w, steps, stream);
  }

  /** Grace is bounded: at or after the first refusal plus the grace window no call is served. */
  lemma NoServiceAfterGrace(w: World, steps: seq<Step>, stream: string, c: Call)
    requires stream in w.db.wedges && NothingEnds(w, steps, stream)
    requires IsTimestamp(w.db.wedges[stream].firstRefusedAt) && IsTimestamp(c.now)
    requires Instant(c.now) >= Instant(w.db.wedges[stream].firstRefusedAt) + c.graceSeconds * 1000
    ensures var db := RunFrom(w, steps).db;
      && stream in db.wedges && IsTimestamp(db.wedges[stream].firstRefusedAt)
      && DecideCall(db, stream, c.classification, c.now, c.offline, c.graceSeconds) == Some(Refuse(w.db.wedges[stream].reason))
  {
    ServedExactly(w, steps, stream, c);
  }

  // ---- every served call is counted ----

  /** The calls counted on this stream. */
  function Graces(steps: seq<Step>, stream: string): nat {
    if steps == [] then 0
    else Graces(steps[..|steps| - 1], stream) + if steps[|steps| - 1] == Grace(stream) then 1 else 0
  }

  /** Each call counted on this stream was decided, and served, where it was counted. */
  ghost predicate GracesServed(w: World, steps: seq<Step>, stream: string, calls: nat -> Call) {
    forall k :: 0 <= k < |steps| && steps[k] == Grace(stream) ==> Serves(RunFrom(w, steps[..k]).db, stream, calls(k))
  }

  /** The wedge's count is of the calls served since, each of them one the first refusal left grace for. */
  lemma GraceIsCounted(w: World, steps: seq<Step>, stream: string, calls: nat -> Call)
    requires stream in w.db.wedges && NothingEnds(w, steps, stream)
    requires GracesServed(w, steps, stream, calls)
    ensures var wedge, later := w.db.wedges[stream], RunFrom(w, steps).db;
      && stream in later.wedges && later.wedges[stream].graceServed == wedge.graceServed + Graces(steps, stream)
      && forall k :: 0 <= k < |steps| && steps[k] == Grace(stream) ==> GraceFor(wedge, calls(k))
  {
    CountsGraces(w, steps, stream);
    forall k | 0 <= k < |steps| && steps[k] == Grace(stream) ensures GraceFor(w.db.wedges[stream], calls(k)) {
      GraceWasLeft(w, steps, stream, k, calls(k));
    }
  }

  lemma GraceWasLeft(w: World, steps: seq<Step>, stream: string, k: nat, c: Call)
    requires stream in w.db.wedges && NothingEnds(w, steps, stream)
    requires k <= |steps| && Serves(RunFrom(w, steps[..k]).db, stream, c)
    ensures GraceFor(w.db.wedges[stream], c)
  {
    NothingEndsBefore(w, steps, stream, k);
    WedgeStands(w, steps[..k], stream);
  }

  lemma StepCounts(w: World, t: Step, stream: string)
    requires stream in w.db.wedges && stream in Apply(w, t).db.wedges
    ensures Apply(w, t).db.wedges[stream].graceServed == w.db.wedges[stream].graceServed + if t == Grace(stream) then 1 else 0
  {
  }

  lemma {:induction false} CountsGraces(w: World, steps: seq<Step>, stream: string)
    requires stream in w.db.wedges && NothingEnds(w, steps, stream)
    ensures stream in RunFrom(w, steps).db.wedges
    ensures RunFrom(w, steps).db.wedges[stream].graceServed == w.db.wedges[stream].graceServed + Graces(steps, stream)
  {
    WedgeStands(w, steps, stream);
    if steps != [] {
      var before := steps[..|steps| - 1];
      NothingEndsBefore(w, steps, stream, |before|);
      CountsGraces(w, before, stream);
      StepCounts(RunFrom(w, before), steps[|steps| - 1], stream);
    }
  }

  /** What ends it: a wedge that is gone went by an acceptance heard since, of an old row too, or by the settling of
      one heard before. */
  lemma GoneWasAccepted(w: World, steps: seq<Step>, stream: string)
    requires stream in w.db.wedges && stream !in RunFrom(w, steps).db.wedges
    ensures exists k :: 0 <= k < |steps| && EndsWedge(w, steps, k, stream)
  {
    if NothingEnds(w, steps, stream) { WedgeStands(w, steps, stream); }
  }
}
