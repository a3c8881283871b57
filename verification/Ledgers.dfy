/** The ledger of a run without overlaps: no record is closed twice. */
module Ledgers {
  import opened Prelude
  import opened Gate
  import opened Store
  import opened Protocol
  import opened Streams
  import opened Frames
  import AtMostOnce
  import opened Citations
  import opened Seating
  import opened Closings

  /** What is about to be closed is open, so no envelope accounts for it yet. */
  lemma ClosedWasOpen(kit: Kit, s: State, t: Step)
    requires Pledges(s) && Posted(s) && ClosedBy(kit, s, t).Some?
    ensures Unresolved(s, ClosedBy(kit, s, t).value)
    ensures NeverClosed(s, ClosedBy(kit, s, t).value)
  {
    CloserIsPledged(kit, s, t);
    if t.Recover? {
      var session := s.sessions[t.session];
      assert IsOpen(s.db, session.phase.todo[0], session.stream, session.key);
    }
  }

  lemma OldRowsStayInLedger(kit: Kit, s: State, t: Step)
    requires Posted(s)
    ensures var n := Apply(kit, s, t);
      && |s.db.envelopes| <= |n.db.envelopes|
      && (forall k :: 0 <= k < |s.db.envelopes| ==> n.db.envelopes[k] == s.db.envelopes[k])
      && (forall k :: 0 <= k < |s.db.envelopes| && s.db.envelopes[k].origin.Closing? ==>
            var i := s.db.envelopes[k].origin.intent; i in n.db.intents && n.db.intents[i].resolvedAt.Some?)
  {
    var n := Apply(kit, s, t);
    StepsAppend(kit, s, t);
    forall k | 0 <= k < |s.db.envelopes| && s.db.envelopes[k].origin.Closing?
      ensures var i := s.db.envelopes[k].origin.intent; i in n.db.intents && n.db.intents[i].resolvedAt.Some?
    {
      OnlyClosingResolves(kit, s, t, s.db.envelopes[k].origin.intent);
    }
  }

  lemma NewRowEntersLedger(kit: Kit, s: State, t: Step)
    ensures var n := Apply(kit, s, t);
      if Attempt(s, t).Some? && Append(kit, s.db, Attempt(s, t).value).Some?
      then |n.db.envelopes| == |s.db.envelopes| + 1
           && n.db.envelopes[|s.db.envelopes|].origin == Attempt(s, t).value.origin
      else n.db.envelopes == s.db.envelopes
  {
    StepsAppend(kit, s, t);
  }

  lemma ResolvedHasRow(kit: Kit, s: State, t: Step, i: string)
    requires Posted(s) && i in Apply(kit, s, t).db.intents && Apply(kit, s, t).db.intents[i].resolvedAt.Some?
    ensures exists k :: 0 <= k < |Apply(kit, s, t).db.envelopes| && Closes(Apply(kit, s, t).db.envelopes[k], i)
  {
    var n := Apply(kit, s, t);
    IntentsOnlyGrow(kit, s, t, i);
    OldRowsStayInLedger(kit, s, t);
    NewRowEntersLedger(kit, s, t);
    if i in s.db.intents {
      OnlyClosingResolves(kit, s, t, i);
      if Unresolved(s, i) {
        assert Closes(n.db.envelopes[|s.db.envelopes|], i);
      } else {
        var k :| 0 <= k < |s.db.envelopes| && Closes(s.db.envelopes[k], i);
        assert Closes(n.db.envelopes[k], i);
      }
    }
  }

  /** What is closed was written. */
  lemma ClosedIsKnown(kit: Kit, s: State, t: Step)
    requires Provenance(kit, s) && ClosedBy(kit, s, t).Some?
    ensures ClosedBy(kit, s, t).value in s.db.intents
  {
    AttemptIsAccounted(kit, s, t);
  }

  /** Closers close known, resolved records, and resolved records have a closer. */
  lemma PostedOf(s: State, n: State)
    requires Posted(s) && |s.db.envelopes| <= |n.db.envelopes| <= |s.db.envelopes| + 1
    requires forall k :: 0 <= k < |s.db.envelopes| ==> n.db.envelopes[k] == s.db.envelopes[k]
    requires forall k :: 0 <= k < |s.db.envelopes| && s.db.envelopes[k].origin.Closing? ==>
      s.db.envelopes[k].origin.intent in n.db.intents && n.db.intents[s.db.envelopes[k].origin.intent].resolvedAt.Some?
    requires |n.db.envelopes| > |s.db.envelopes| && n.db.envelopes[|s.db.envelopes|].origin.Closing? ==>
      var i := n.db.envelopes[|s.db.envelopes|].origin.intent; i in n.db.intents && n.db.intents[i].resolvedAt.Some?
    requires forall i :: i in n.db.intents && n.db.intents[i].resolvedAt.Some? ==>
      exists k :: 0 <= k < |n.db.envelopes| && Closes(n.db.envelopes[k], i)
    ensures Posted(n)
  {
  }

  lemma NewCloserResolves(kit: Kit, s: State, t: Step)
    requires Provenance(kit, s) && ClosedBy(kit, s, t).Some?
    ensures var n, i := Apply(kit, s, t), ClosedBy(kit, s, t).value; i in n.db.intents && n.db.intents[i].resolvedAt.Some?
  {
    ClosedIsKnown(kit, s, t);
    OnlyClosingResolves(kit, s, t, ClosedBy(kit, s, t).value);
  }

  lemma StepKeepsPosted(kit: Kit, s: State, t: Step)
    requires Provenance(kit, s) && Posted(s)
    ensures Posted(Apply(kit, s, t))
  {
    var n := Apply(kit, s, t);
    OldRowsStayInLedger(kit, s, t);
    NewRowEntersLedger(kit, s, t);
    forall i | i in n.db.intents && n.db.intents[i].resolvedAt.Some?
      ensures exists k :: 0 <= k < |n.db.envelopes| && Closes(n.db.envelopes[k], i)
    {
      ResolvedHasRow(kit, s, t, i);
    }
    if ClosedBy(kit, s, t).Some? { NewCloserResolves(kit, s, t); }
    PostedOf(s, n);
  }

  lemma LedgerOf(s: State, n: State)
    requires Ledger(s) && Posted(n) && |s.db.envelopes| <= |n.db.envelopes| <= |s.db.envelopes| + 1
    requires forall k :: 0 <= k < |s.db.envelopes| ==> n.db.envelopes[k] == s.db.envelopes[k]
    requires |n.db.envelopes| > |s.db.envelopes| && n.db.envelopes[|s.db.envelopes|].origin.Closing? ==>
      forall j :: 0 <= j < |s.db.envelopes| ==> s.db.envelopes[j].origin != n.db.envelopes[|s.db.envelopes|].origin
    ensures Ledger(n)
  {
  }

  /** A row that closes a record is the first to close it. */
  lemma NewRowClosesFirst(kit: Kit, s: State, t: Step, n: State)
    requires Pledges(s) && Posted(s) && n == Apply(kit, s, t) && |n.db.envelopes| > |s.db.envelopes|
    ensures n.db.envelopes[|s.db.envelopes|].origin.Closing? ==>
      forall j :: 0 <= j < |s.db.envelopes| ==> s.db.envelopes[j].origin != n.db.envelopes[|s.db.envelopes|].origin
  {
    NewRowEntersLedger(kit, s, t);
    if ClosedBy(kit, s, t).Some? {
      var i := ClosedBy(kit, s, t).value;
      ClosedWasOpen(kit, s, t);
      forall j | 0 <= j < |s.db.envelopes| ensures s.db.envelopes[j].origin != Closing(i) {
        assert !Closes(s.db.envelopes[j], i);
      }
    }
  }

  lemma StepKeepsLedger(kit: Kit, s: State, t: Step)
    requires Provenance(kit, s) && Pledges(s) && Ledger(s)
    ensures Ledger(Apply(kit, s, t))
  {
    var n := Apply(kit, s, t);
    StepKeepsPosted(kit, s, t);
    OldRowsStayInLedger(kit, s, t);
    NewRowEntersLedger(kit, s, t);
    if |n.db.envelopes| > |s.db.envelopes| { NewRowClosesFirst(kit, s, t, n); }
    LedgerOf(s, n);
  }
}
