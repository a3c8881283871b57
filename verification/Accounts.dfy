/** Nothing lost, nothing doubled: write-ahead records and the envelopes that close them. */
module Accounts {
  import opened Prelude
  import opened Gate
  import opened Store
  import opened Protocol
  import opened Streams
  import opened Frames
  import AtMostOnce
  import opened Citations
  import opened Seating
  import opened Closings
  import opened Ledgers

  // ---- every orderly run ----

  ghost predicate Books(kit: Kit, s: State) {
    AtMostOnce.Inv(kit, s) && OwnersInv(s) && Provenance(kit, s)
  }

  lemma {:induction false} RunKeepsBooks(kit: Kit, steps: seq<Step>)
    ensures Books(kit, Run(kit, steps))
  {
    if steps != [] {
      var s, t := Run(kit, steps[..|steps| - 1]), steps[|steps| - 1];
      RunKeepsBooks(kit, steps[..|steps| - 1]);
      AtMostOnce.StepKeepsInv(kit, s, t);
      StepKeepsOwners(kit, s, t);
      StepKeepsProvenance(kit, s, t);
    }
  }

  lemma {:induction false} RunKeepsLedger(kit: Kit, steps: seq<Step>)
    requires Orderly(kit, steps)
    ensures var s := Run(kit, steps); Seats(s) && Pledges(s) && Ledger(s)
  {
    if steps != [] {
      var s, t := Run(kit, steps[..|steps| - 1]), steps[|steps| - 1];
      RunKeepsBooks(kit, steps[..|steps| - 1]);
      RunKeepsLedger(kit, steps[..|steps| - 1]);
      StepKeepsSeats(kit, s, t);
      StepKeepsPledges(kit, s, t);
      StepKeepsLedger(kit, s, t);
    }
  }

  lemma LedgerSettles(s: State, i: string)
    requires Ledger(s) && i in s.db.intents
    ensures if Unresolved(s, i) then NeverClosed(s, i) else ClosedOnce(s, i)
  {
    if !Unresolved(s, i) {
      var k :| 0 <= k < |s.db.envelopes| && Closes(s.db.envelopes[k], i);
      assert s.db.envelopes[k].origin == Closing(i);
      assert forall j :: 0 <= j < |s.db.envelopes| && Closes(s.db.envelopes[j], i) ==> s.db.envelopes[j].origin == Closing(i);
    }
  }

  /** Nothing lost, nothing doubled: after any orderly run, with crashes anywhere, every write-ahead
      record is either open with no envelope or closed with exactly one. */
  lemma OpenOrClosedOnce(kit: Kit, steps: seq<Step>, i: string)
    requires Orderly(kit, steps) && i in Run(kit, steps).db.intents
    ensures var s := Run(kit, steps);
      if Unresolved(s, i) then NeverClosed(s, i) else ClosedOnce(s, i)
  {
    RunKeepsLedger(kit, steps);
    LedgerSettles(Run(kit, steps), i);
  }

  // ---- forwarded effects ----

  /** A forwarded call is the work of its write-ahead record's writer; without one, it was a read
      folded into a window and carried no authorization. */
  ghost predicate ForwardsWritten(s: State) {
    forall k :: 0 <= k < |s.history.forwards| ==>
      match s.history.forwards[k].intent
      case Some(i) => i in s.history.owners && s.history.owners[i] == s.history.forwards[k].caller
      case None => s.history.forwards[k].auth.None?
  }

  lemma {:induction false} RunKeepsForwardsWritten(kit: Kit, steps: seq<Step>)
    ensures ForwardsWritten(Run(kit, steps))
  {
    if steps != [] {
      var s, t := Run(kit, steps[..|steps| - 1]), steps[|steps| - 1];
      RunKeepsBooks(kit, steps[..|steps| - 1]);
      RunKeepsForwardsWritten(kit, steps[..|steps| - 1]);
      ForwardsStayWritten(kit, s, t);
    }
  }

  lemma ForwardsStayWritten(kit: Kit, s: State, t: Step)
    requires OwnersInv(s) && ForwardsWritten(s)
    ensures ForwardsWritten(Apply(kit, s, t))
  {
    ForwardsOnlyGrow(kit, s, t);
    OwnersOnlyGrow(kit, s, t);
    if t.Forward? && t.caller in s.threads && s.threads[t.caller].pc.Ahead? {
      assert OpenOf(s.threads[t.caller].pc).Some?;
    }
  }

  /** Every forwarded effect that was not a folded read has its write-ahead record, written by its own
      caller: open with no envelope, or closed with exactly one. */
  lemma ForwardedIsAccounted(kit: Kit, steps: seq<Step>, k: nat)
    requires Orderly(kit, steps) && k < |Run(kit, steps).history.forwards|
    requires Run(kit, steps).history.forwards[k].intent.Some?
    ensures var s := Run(kit, steps);
      var i := s.history.forwards[k].intent.value;
      && i in s.db.intents && i in s.history.owners && s.history.owners[i] == s.history.forwards[k].caller
      && if Unresolved(s, i) then NeverClosed(s, i) else ClosedOnce(s, i)
  {
    RunKeepsForwardsWritten(kit, steps);
    RunKeepsBooks(kit, steps);
    OpenOrClosedOnce(kit, steps, Run(kit, steps).history.forwards[k].intent.value);
  }

  /** This envelope cites an authorization that is not a denial, for this request hash. */
  predicate CitesApproval(kit: Kit, row: Row, h: string) {
    var cited := Cites(row.record.draft.content);
    cited.Some? && !Denies(cited.value) && kit.hash(cited.value.request) == h
  }

  /** Whoever holds the claim is who an envelope citing the approval answers to. */
  lemma CitedByClaimant(kit: Kit, s: State, k: nat, h: string)
    requires Books(kit, s) && k < |s.db.envelopes| && CitesApproval(kit, s.db.envelopes[k], h)
    ensures h in s.history.claims && s.history.claims[h].grant == Cites(s.db.envelopes[k].record.draft.content).value
    ensures match s.db.envelopes[k].origin
      case Closing(i) => i in s.history.owners && s.history.owners[i] == s.history.claims[h].caller
      case Seeding(c) => c == s.history.claims[h].caller && c in s.history.seeders
      case Plain => false
  {
    assert RowAccounts(kit, s, s.db.envelopes[k]);
    match s.db.envelopes[k].origin
    case Closing(i) => assert IntentAccounts(kit, s, i);
    case _ =>
  }

  /** One approval, one envelope: after any orderly run, each request hash is cited as approved by at
      most one chained envelope, whether the effect was applied, failed, recovered, or a seed. */
  lemma ApprovalCitedAtMostOnce(kit: Kit, steps: seq<Step>, j: nat, k: nat, h: string)
    requires Orderly(kit, steps)
    requires j < k < |Run(kit, steps).db.envelopes|
    requires CitesApproval(kit, Run(kit, steps).db.envelopes[j], h)
    ensures !CitesApproval(kit, Run(kit, steps).db.envelopes[k], h)
  {
    var s := Run(kit, steps);
    RunKeepsBooks(kit, steps);
    RunKeepsLedger(kit, steps);
    CitedByClaimant(kit, s, j, h);
    if CitesApproval(kit, s.db.envelopes[k], h) {
      CitedByClaimant(kit, s, k, h);
      assert false;
    }
  }

  // ---- without the discipline ----

  lemma {:induction false} RunKeepsPosted(kit: Kit, steps: seq<Step>)
    ensures Posted(Run(kit, steps))
  {
    if steps != [] {
      RunKeepsBooks(kit, steps[..|steps| - 1]);
      RunKeepsPosted(kit, steps[..|steps| - 1]);
      StepKeepsPosted(kit, Run(kit, steps[..|steps| - 1]), steps[|steps| - 1]);
    }
  }

  lemma ClosingAddsOneCloser(kit: Kit, s: State, t: Step)
    requires ClosedBy(kit, s, t).Some?
    ensures var n, i := Apply(kit, s, t), ClosedBy(kit, s, t).value;
      && |n.db.envelopes| == |s.db.envelopes| + 1
      && (forall k :: 0 <= k < |s.db.envelopes| ==> n.db.envelopes[k] == s.db.envelopes[k])
      && Closes(n.db.envelopes[|s.db.envelopes|], i)
  {
    StepsAppend(kit, s, t);
  }

  /** In any run whatever, a step that closes a record accounts for it once exactly when the record was
      still open, which is the test the closing update does not make. */
  lemma ClosedOnceExactlyWhenOpen(kit: Kit, steps: seq<Step>, t: Step)
    requires ClosedBy(kit, Run(kit, steps), t).Some?
    ensures var s := Run(kit, steps);
      var i := ClosedBy(kit, s, t).value;
      ClosedOnce(Apply(kit, s, t), i) <==> Unresolved(s, i)
  {
    var s := Run(kit, steps);
    var n, i := Apply(kit, s, t), ClosedBy(kit, s, t).value;
    RunKeepsPosted(kit, steps);
    RunKeepsBooks(kit, steps);
    ClosedIsKnown(kit, s, t);
    ClosingAddsOneCloser(kit, s, t);
    CountsOnce(s, n, i);
  }

  lemma CountsOnce(s: State, n: State, i: string)
    requires Posted(s) && i in s.db.intents
    requires |n.db.envelopes| == |s.db.envelopes| + 1
    requires forall k :: 0 <= k < |s.db.envelopes| ==> n.db.envelopes[k] == s.db.envelopes[k]
    requires Closes(n.db.envelopes[|s.db.envelopes|], i)
    ensures ClosedOnce(n, i) <==> Unresolved(s, i)
  {
    if Unresolved(s, i) {
      forall k | 0 <= k < |s.db.envelopes| ensures !Closes(n.db.envelopes[k], i) {
        assert s.db.envelopes[k] == n.db.envelopes[k];
      }
    } else {
      var k :| 0 <= k < |s.db.envelopes| && Closes(s.db.envelopes[k], i);
      assert Closes(n.db.envelopes[k], i);
    }
  }
}
