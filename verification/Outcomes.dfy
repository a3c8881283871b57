/** What the chain says of an effect is how it went, in every run. */
module Outcomes {
  import opened Prelude
  import opened Gate
  import opened Store
  import opened Protocol
  import opened Streams
  import opened Frames

  /** A call was forwarded with this write-ahead record, and came back, or raised. */
  ghost predicate Went(s: State, i: string, raised: bool) {
    exists k :: 0 <= k < |s.history.forwards| && s.history.forwards[k].intent == Some(i)
                && s.history.forwards[k].outcome == (if raised then Raised else Returned)
  }

  ghost predicate ThreadWent(s: State, pc: Pc) {
    match pc
    case Ran(auth, Some(i), failed) => Went(s, i, failed)
    case Ran(auth, None, _) => auth.None?
    case _ => true
  }

  /** The outcome an envelope may carry, by what it accounts for. */
  ghost predicate Tells(s: State, outcome: string, auth: Option<Authorization>, origin: Origin) {
    match origin
    case Closing(i) => outcome == "attempted" || (outcome == "applied" && Went(s, i, false)) || (outcome == "failed" && Went(s, i, true))
    case Seeding(_) => outcome == "applied"
    case Plain => auth.Some? ==> outcome == "denied"
  }

  ghost predicate RowTells(s: State, row: Row) {
    Tells(s, row.record.draft.outcome, row.record.draft.content.authorization, row.origin)
  }

  ghost predicate Inv(s: State) {
    && (forall i :: i in s.db.intents ==> s.db.intents[i].draft.outcome == "attempted")
    && (forall c :: c in s.threads ==> ThreadWent(s, s.threads[c].pc))
    && (forall k :: 0 <= k < |s.db.envelopes| ==> RowTells(s, s.db.envelopes[k]))
  }

  /** Forwards once made stay made. */
  ghost predicate Later(s: State, n: State) {
    |s.history.forwards| <= |n.history.forwards| && n.history.forwards[..|s.history.forwards|] == s.history.forwards
  }

  lemma WentStays(s: State, n: State, i: string, raised: bool)
    requires Later(s, n) && Went(s, i, raised)
    ensures Went(n, i, raised)
  {
    var k :| 0 <= k < |s.history.forwards| && s.history.forwards[k].intent == Some(i)
             && s.history.forwards[k].outcome == (if raised then Raised else Returned);
    assert n.history.forwards[k] == n.history.forwards[..|s.history.forwards|][k];
  }

  lemma TellsStays(s: State, n: State, outcome: string, auth: Option<Authorization>, origin: Origin)
    requires Later(s, n) && Tells(s, outcome, auth, origin)
    ensures Tells(n, outcome, auth, origin)
  {
    if origin.Closing? && Went(s, origin.intent, false) { WentStays(s, n, origin.intent, false); }
    if origin.Closing? && Went(s, origin.intent, true) { WentStays(s, n, origin.intent, true); }
  }

  lemma StepIsLater(kit: Kit, s: State, t: Step)
    ensures Later(s, Apply(kit, s, t))
  {
    ForwardsOnlyGrow(kit, s, t);
  }

  /** What a step tries to chain tells how it went. */
  lemma AttemptTells(s: State, t: Step)
    requires Inv(s) && Attempt(s, t).Some?
    ensures var a := Attempt(s, t).value; Tells(s, a.draft.outcome, a.draft.content.authorization, a.origin)
  {
    if t.Record? { assert ThreadWent(s, s.threads[t.caller].pc); }
  }

  lemma IntentsStayAttempted(kit: Kit, s: State, t: Step, i: string)
    requires Inv(s) && i in Apply(kit, s, t).db.intents
    ensures Apply(kit, s, t).db.intents[i].draft.outcome == "attempted"
  {
    IntentsOnlyGrow(kit, s, t, i);
  }

  /** A call that comes back was forwarded and not refused downstream. */
  lemma ForwardWent(s: State, c: nat, outcome: Outcome)
    requires c in s.threads && c in DoForward(s, c, outcome).threads
    ensures var n := DoForward(s, c, outcome);
      n.threads[c] == s.threads[c] || ThreadWent(n, n.threads[c].pc)
  {
    var n := DoForward(s, c, outcome);
    if n.threads[c] != s.threads[c] {
      var f := n.history.forwards[|s.history.forwards|];
      assert f.intent == n.threads[c].pc.ahead && f.outcome == outcome;
    }
  }

  lemma OtherMovesWent(kit: Kit, s: State, n: State, t: Step, c: nat)
    requires c in s.threads && c in n.threads && Moved(kit, s, n, t, c) && Later(s, n) && ThreadWent(s, s.threads[c].pc)
    requires t.Forward? ==> n.threads[c] == s.threads[c]
    ensures ThreadWent(n, n.threads[c].pc)
  {
    if n.threads[c] == s.threads[c] && s.threads[c].pc.Ran? && s.threads[c].pc.ahead.Some? {
      WentStays(s, n, s.threads[c].pc.ahead.value, s.threads[c].pc.failed);
    }
  }

  lemma ThreadsWent(kit: Kit, s: State, t: Step, c: nat)
    requires Inv(s) && c in Apply(kit, s, t).threads
    ensures ThreadWent(Apply(kit, s, t), Apply(kit, s, t).threads[c].pc)
  {
    var n := Apply(kit, s, t);
    StepLives(kit, s, t, c);
    StepIsLater(kit, s, t);
    if c in s.threads && Moved(kit, s, n, t, c) {
      assert ThreadWent(s, s.threads[c].pc);
      if t.Forward? && Actor(t) == Some(c) && n.threads[c] != s.threads[c] {
        ForwardWent(s, c, t.outcome);
      } else {
        if t.Forward? && Actor(t) != Some(c) { OthersStand(kit, s, t, c); }
        OtherMovesWent(kit, s, n, t, c);
      }
    }
  }

  lemma RowsTell(kit: Kit, s: State, t: Step, k: nat)
    requires Inv(s) && k < |Apply(kit, s, t).db.envelopes|
    ensures RowTells(Apply(kit, s, t), Apply(kit, s, t).db.envelopes[k])
  {
    var n := Apply(kit, s, t);
    StepsAppend(kit, s, t);
    StepIsLater(kit, s, t);
    if k < |s.db.envelopes| {
      assert n.db.envelopes[k] == s.db.envelopes[k] && RowTells(s, s.db.envelopes[k]);
      TellsStays(s, n, s.db.envelopes[k].record.draft.outcome, s.db.envelopes[k].record.draft.content.authorization, s.db.envelopes[k].origin);
    } else {
      var a := Attempt(s, t).value;
      AttemptTells(s, t);
      TellsStays(s, n, a.draft.outcome, a.draft.content.authorization, a.origin);
    }
  }

  lemma StepKeepsInv(kit: Kit, s: State, t: Step)
    requires Inv(s)
    ensures Inv(Apply(kit, s, t))
  {
    var n := Apply(kit, s, t);
    forall i | i in n.db.intents ensures n.db.intents[i].draft.outcome == "attempted" { IntentsStayAttempted(kit, s, t, i); }
    forall c | c in n.threads ensures ThreadWent(n, n.threads[c].pc) { ThreadsWent(kit, s, t, c); }
    forall k | 0 <= k < |n.db.envelopes| ensures RowTells(n, n.db.envelopes[k]) { RowsTell(kit, s, t, k); }
  }

  lemma {:induction false} RunKeepsInv(kit: Kit, steps: seq<Step>)
    ensures Inv(Run(kit, steps))
  {
    if steps != [] {
      RunKeepsInv(kit, steps[..|steps| - 1]);
      StepKeepsInv(kit, Run(kit, steps[..|steps| - 1]), steps[|steps| - 1]);
    }
  }

  /** In every run an envelope that closes a write-ahead record says `applied` only if a call was forwarded with that
      record and came back, `failed` only if one was and raised, and `attempted` otherwise. */
  lemma ClosedAsItWent(kit: Kit, steps: seq<Step>, k: nat)
    requires k < |Run(kit, steps).db.envelopes| && Run(kit, steps).db.envelopes[k].origin.Closing?
    ensures var s := Run(kit, steps);
      var row := s.db.envelopes[k];
      var outcome := row.record.draft.outcome;
      && (outcome == "applied" || outcome == "failed" || outcome == "attempted")
      && (outcome != "attempted" ==>
            exists j :: 0 <= j < |s.history.forwards| && s.history.forwards[j].intent == Some(row.origin.intent)
                   && s.history.forwards[j].outcome == (if outcome == "failed" then Raised else Returned))
  {
    RunKeepsInv(kit, steps);
    assert RowTells(Run(kit, steps), Run(kit, steps).db.envelopes[k]);
  }

  /** An authorization is cited by the record of an effect, of a seed, or of a denial, and each says which it is. */
  lemma CitedAsItWent(kit: Kit, steps: seq<Step>, k: nat)
    requires k < |Run(kit, steps).db.envelopes| && !Run(kit, steps).db.envelopes[k].origin.Closing?
    requires Run(kit, steps).db.envelopes[k].record.draft.content.authorization.Some?
    ensures var row := Run(kit, steps).db.envelopes[k];
      row.record.draft.outcome == if row.origin.Seeding? then "applied" else "denied"
  {
    RunKeepsInv(kit, steps);
    assert RowTells(Run(kit, steps), Run(kit, steps).db.envelopes[k]);
  }

  /** Every write-ahead record says `attempted`. */
  lemma WrittenAsAttempted(kit: Kit, steps: seq<Step>, i: string)
    requires i in Run(kit, steps).db.intents
    ensures Run(kit, steps).db.intents[i].draft.outcome == "attempted"
  {
    RunKeepsInv(kit, steps);
  }
}
