/** Who wrote each write-ahead record, and what each envelope that cites an approval answers to. */
module Citations {
  import opened Prelude
  import opened Gate
  import opened Store
  import opened Protocol
  import opened Streams
  import opened Frames
  import AtMostOnce

  /** The write-ahead record a thread has open. */
  function OpenOf(pc: Pc): Option<string> {
    match pc
    case Ahead(_, intent) => Some(intent)
    case Ran(_, ahead, _) => ahead
    case _ => None
  }

  /** The grant an envelope cites. */
  function Cites(content: Gate.Envelope): Option<Grant> {
    match content.authorization
    case Some(Authorization(Some(request), Some(decision))) => Some(Grant(request, decision))
    case _ => None
  }

  predicate Denies(g: Grant) {
    Get(g.decision.members, "decision") == Text("deny")
  }

  // ---- who wrote which record ----

  /** Each write-ahead record has the one caller that wrote it, who writes no other. */
  ghost predicate OwnersInv(s: State) {
    && s.history.owners.Keys == s.db.intents.Keys
    && (forall i :: i in s.history.owners ==> s.history.owners[i] in s.history.callers)
    && (forall i, j :: i in s.history.owners && j in s.history.owners && s.history.owners[i] == s.history.owners[j] ==> i == j)
    && (forall i :: i in s.history.owners && s.history.owners[i] in s.threads ==>
          OpenOf(s.threads[s.history.owners[i]].pc) == Some(i))
    && (forall c :: c in s.threads && OpenOf(s.threads[c].pc).Some? ==>
          OpenOf(s.threads[c].pc).value in s.history.owners && s.history.owners[OpenOf(s.threads[c].pc).value] == c)
  }

  /** A thread keeps its write-ahead record open, or is new and has none. */
  ghost predicate KeepsOpen(s: State, n: State, c: nat)
    requires c in n.threads
  {
    if c in s.threads then OpenOf(n.threads[c].pc) == OpenOf(s.threads[c].pc)
    else c !in s.history.callers && OpenOf(n.threads[c].pc).None?
  }

  lemma LivingKeepsOpen(kit: Kit, s: State, n: State, t: Step, c: nat)
    requires AtMostOnce.CallersKnown(s) && !t.WriteAhead? && c in n.threads && Lives(kit, s, n, t, c)
    ensures KeepsOpen(s, n, c)
  {
  }

  lemma OwnersOfThreads(s: State, n: State)
    requires OwnersInv(s)
    requires n.history.owners == s.history.owners && n.db.intents.Keys == s.db.intents.Keys
    requires s.history.callers <= n.history.callers
    requires forall c :: c in n.threads ==> KeepsOpen(s, n, c)
    ensures OwnersInv(n)
  {
  }

  lemma OwnersOfWriteAhead(kit: Kit, s: State, n: State, t: Step)
    requires AtMostOnce.CallersKnown(s) && OwnersInv(s) && t.WriteAhead?
    requires t.caller in s.threads && t.caller in n.threads && s.threads[t.caller].pc.Ready? && t.intent !in s.db.intents
    requires n.threads[t.caller] == s.threads[t.caller].(pc := Ahead(s.threads[t.caller].pc.auth, t.intent))
    requires n.history == s.history.(owners := s.history.owners[t.intent := t.caller])
    requires n.db.intents.Keys == s.db.intents.Keys + {t.intent}
    requires forall c :: c in n.threads && c != t.caller ==> c in s.threads && n.threads[c] == s.threads[c]
    ensures OwnersInv(n)
  {
  }

  /** A writer that could not write has moved nowhere, or gone. */
  lemma OwnersStay(s: State, n: State)
    requires OwnersInv(s) && n.db == s.db && n.history == s.history
    requires forall c :: c in n.threads ==> c in s.threads && n.threads[c] == s.threads[c]
    ensures OwnersInv(n)
  {
  }

  lemma WritingKeepsOwners(kit: Kit, s: State, n: State, t: Step)
    requires AtMostOnce.CallersKnown(s) && OwnersInv(s) && t.WriteAhead?
    requires Wrote(s, n, t.caller, t.intent, t.now)
    requires forall c :: c in n.threads && c != t.caller ==> c in s.threads && n.threads[c] == s.threads[c]
    requires n.db == s.db && t.caller in n.threads ==> t.caller in s.threads && n.threads[t.caller] == s.threads[t.caller]
    ensures OwnersInv(n)
  {
    if n.db != s.db { OwnersOfWriteAhead(kit, s, n, t); } else { OwnersStay(s, n); }
  }

  /** A writer whose write fails is gone or stands. */
  lemma WriterStands(s: State, c: nat, i: string, now: string, ok: bool)
    requires c in DoWriteAhead(s, c, i, now, ok).threads
    requires DoWriteAhead(s, c, i, now, ok).db == s.db
    ensures c in s.threads && DoWriteAhead(s, c, i, now, ok).threads[c] == s.threads[c]
  {
  }

  lemma WriterKeepsOwners(kit: Kit, s: State, t: Step)
    requires AtMostOnce.CallersKnown(s) && OwnersInv(s) && t.WriteAhead?
    ensures OwnersInv(Apply(kit, s, t))
  {
    var n := DoWriteAhead(s, t.caller, t.intent, t.now, t.ok);
    WritingGrows(s, t.caller, t.intent, t.now, t.ok);
    forall c | c in n.threads && c != t.caller ensures c in s.threads && n.threads[c] == s.threads[c] {
      OthersStand(kit, s, t, c);
    }
    if n.db == s.db && t.caller in n.threads { WriterStands(s, t.caller, t.intent, t.now, t.ok); }
    WritingKeepsOwners(kit, s, n, t);
  }

  lemma OthersKeepOwners(kit: Kit, s: State, t: Step)
    requires AtMostOnce.CallersKnown(s) && OwnersInv(s) && !t.WriteAhead?
    ensures OwnersInv(Apply(kit, s, t))
  {
    var n := Apply(kit, s, t);
    OthersOwnNothing(kit, s, t);
    CallersOnlyGrow(kit, s, t);
    StepsAppend(kit, s, t);
    forall c | c in n.threads ensures KeepsOpen(s, n, c) {
      StepLives(kit, s, t, c);
      LivingKeepsOpen(kit, s, n, t, c);
    }
    OwnersOfThreads(s, n);
  }

  lemma StepKeepsOwners(kit: Kit, s: State, t: Step)
    requires AtMostOnce.CallersKnown(s) && OwnersInv(s)
    ensures OwnersInv(Apply(kit, s, t))
  {
    if t.WriteAhead? { WriterKeepsOwners(kit, s, t); } else { OthersKeepOwners(kit, s, t); }
  }

  // ---- what each envelope accounts for ----

  function AuthOf(pc: Pc): Option<Grant> {
    match pc
    case Ahead(auth, _) => auth
    case Ran(auth, _, _) => auth
    case _ => None
  }

  /** A refusal recorded as a denial is one. */
  predicate DenialsDeny(pc: Pc) {
    match pc
    case Refused(row, true) => row.decision.Some? ==> Denies(GrantOf(row))
    case Denying(g) => Denies(g)
    case _ => true
  }

  ghost predicate IntentAccounts(kit: Kit, s: State, i: string)
    requires i in s.db.intents
  {
    var content := s.db.intents[i].draft.content;
    Cites(content).Some? ==> i in s.history.owners && AtMostOnce.Owns(kit, s, s.history.owners[i], Cites(content).value)
  }

  ghost predicate ThreadAccounts(s: State, c: nat)
    requires c in s.threads
  {
    var thread := s.threads[c];
    && DenialsDeny(thread.pc)
    && (OpenOf(thread.pc).Some? ==>
          var i := OpenOf(thread.pc).value;
          && i in s.db.intents
          && s.db.intents[i].stream == thread.stream && s.db.intents[i].key == thread.key
          && Cites(s.db.intents[i].draft.content) == AuthOf(thread.pc))
    && (thread.pc.Ran? && thread.pc.ahead.None? ==> thread.pc.auth.None?)
  }

  /** A row cites a denial, or the grant of the write-ahead record it closes, or that of the seed it
      puts in force. */
  ghost predicate RowAccounts(kit: Kit, s: State, row: Row) {
    var cited := Cites(row.record.draft.content);
    match row.origin
    case Plain => cited.Some? ==> Denies(cited.value)
    case Closing(i) => i in s.db.intents && cited == Cites(s.db.intents[i].draft.content)
    case Seeding(c) =>
      c in s.history.seeders && c !in s.threads && cited.Some? && AtMostOnce.Owns(kit, s, c, cited.value)
  }

  ghost predicate Provenance(kit: Kit, s: State) {
    && (forall i :: i in s.db.intents ==> IntentAccounts(kit, s, i))
    && (forall c :: c in s.threads ==> ThreadAccounts(s, c))
    && (forall k :: 0 <= k < |s.db.envelopes| ==> RowAccounts(kit, s, s.db.envelopes[k]))
    && (forall j, k :: 0 <= j < k < |s.db.envelopes| && s.db.envelopes[j].origin.Seeding? ==>
          s.db.envelopes[j].origin != s.db.envelopes[k].origin)
  }

  /** Claims already won stay won. */
  lemma OwnsIsKept(kit: Kit, s: State, t: Step, c: nat, g: Grant)
    requires AtMostOnce.ClaimsRecorded(kit, s) && AtMostOnce.Owns(kit, s, c, g)
    ensures AtMostOnce.Owns(kit, Apply(kit, s, t), c, g)
  {
    ClaimsOnlyGrow(kit, s, t, kit.hash(g.request));
  }

  lemma EffectCites(key: string, fields: Members, outcome: string, auth: Option<Grant>, now: string)
    ensures Cites(EffectDraft(key, fields, outcome, auth, now).content) == auth
  {
  }

  lemma OldIntentStaysAccounted(kit: Kit, s: State, t: Step, i: string)
    requires AtMostOnce.Inv(kit, s) && OwnersInv(s)
    requires i in s.db.intents && i in Apply(kit, s, t).db.intents && IntentAccounts(kit, s, i)
    ensures IntentAccounts(kit, Apply(kit, s, t), i)
  {
    IntentsOnlyGrow(kit, s, t, i);
    OwnersOnlyGrow(kit, s, t);
    if Cites(s.db.intents[i].draft.content).Some? {
      OwnsIsKept(kit, s, t, s.history.owners[i], Cites(s.db.intents[i].draft.content).value);
    }
  }

  lemma IntentsStayAccounted(kit: Kit, s: State, t: Step, i: string)
    requires AtMostOnce.Inv(kit, s) && OwnersInv(s) && Provenance(kit, s)
    requires i in Apply(kit, s, t).db.intents
    ensures IntentAccounts(kit, Apply(kit, s, t), i)
  {
    if i in s.db.intents {
      OldIntentStaysAccounted(kit, s, t, i);
    } else {
      IntentsOnlyGrow(kit, s, t, i);
      OwnersOnlyGrow(kit, s, t);
      var thread := s.threads[t.caller];
      EffectCites(thread.key, thread.fields, "attempted", thread.pc.auth, t.now);
      if thread.pc.auth.Some? {
        assert AtMostOnce.Holds(thread.pc) == thread.pc.auth;
        OwnsIsKept(kit, s, t, t.caller, thread.pc.auth.value);
      }
    }
  }

  /** A check that answers denied is of a decision that denies. */
  lemma DeniedGrantDenies(kit: Kit, g: Grant, approvers: seq<Approver>, seen: set<string>, now: string)
    requires CheckGrant(kit, g, approvers, seen, now) == Err("gate-denied")
    ensures Denies(g)
  {
    Gate.DeniedDenies(kit.hash, Gate.Envelope(g.request, Text(now), Some(AsAuthorization(g))), true, approvers, seen, Some(now));
  }

  lemma CheckStaysAccounted(kit: Kit, s: State, thread: Thread, t: Step, pc: Pc)
    requires t.Check? && Follows(kit, s, thread, t, pc)
    ensures DenialsDeny(pc) && OpenOf(pc) == OpenOf(thread.pc) && AuthOf(pc) == AuthOf(thread.pc) && !pc.Ran?
  {
    var row := thread.pc.row;
    if pc == Refused(row, true) { DeniedGrantDenies(kit, GrantOf(row), thread.approvers, SeenOf(s.db, row.hash), t.now); }
  }

  lemma MoveStaysAccounted(kit: Kit, s: State, thread: Thread, t: Step, pc: Pc)
    requires Follows(kit, s, thread, t, pc) && !t.WriteAhead? && DenialsDeny(thread.pc)
    requires thread.pc.Ran? && thread.pc.ahead.None? ==> thread.pc.auth.None?
    ensures DenialsDeny(pc) && OpenOf(pc) == OpenOf(thread.pc) && AuthOf(pc) == AuthOf(thread.pc)
    ensures pc.Ran? && pc.ahead.None? ==> pc.auth.None?
  {
    if t.Check? { CheckStaysAccounted(kit, s, thread, t, pc); }
  }

  lemma ThreadStaysAccounted(kit: Kit, s: State, n: State, t: Step, c: nat)
    requires Provenance(kit, s) && c in n.threads && Lives(kit, s, n, t, c) && !t.WriteAhead?
    requires forall i :: i in s.db.intents ==>
      i in n.db.intents && n.db.intents[i] == s.db.intents[i].(resolvedAt := n.db.intents[i].resolvedAt)
    ensures ThreadAccounts(n, c)
  {
    if c in s.threads && Moved(kit, s, n, t, c) {
      assert ThreadAccounts(s, c);
      if n.threads[c] != s.threads[c] { MoveStaysAccounted(kit, s, s.threads[c], t, n.threads[c].pc); }
    }
  }

  lemma ThreadsStayAccounted(kit: Kit, s: State, t: Step, c: nat)
    requires Provenance(kit, s) && c in Apply(kit, s, t).threads
    ensures ThreadAccounts(Apply(kit, s, t), c)
  {
    var n := Apply(kit, s, t);
    StepLives(kit, s, t, c);
    OwnersOnlyGrow(kit, s, t);
    forall i | i in s.db.intents && i in n.db.intents
      ensures n.db.intents[i] == s.db.intents[i].(resolvedAt := n.db.intents[i].resolvedAt)
    {
      IntentsOnlyGrow(kit, s, t, i);
    }
    IntentsStayKnown(kit, s, t);
    if t.WriteAhead? {
      WriterStaysAccounted(kit, s, t, c);
    } else {
      ThreadStaysAccounted(kit, s, n, t, c);
    }
  }

  lemma IntentsStayKnown(kit: Kit, s: State, t: Step)
    ensures s.db.intents.Keys <= Apply(kit, s, t).db.intents.Keys
  {
    StepsAppend(kit, s, t);
    OwnersOnlyGrow(kit, s, t);
  }

  /** A thread that stands where it stood, beside records that only get closed. */
  lemma StandingStaysAccounted(kit: Kit, s: State, t: Step, n: State, c: nat)
    requires n == Apply(kit, s, t) && c in s.threads && c in n.threads && n.threads[c] == s.threads[c] && ThreadAccounts(s, c)
    ensures ThreadAccounts(n, c)
  {
    IntentsStayKnown(kit, s, t);
    if OpenOf(s.threads[c].pc).Some? { IntentsOnlyGrow(kit, s, t, OpenOf(s.threads[c].pc).value); }
  }

  lemma WriterStaysAccounted(kit: Kit, s: State, t: Step, c: nat)
    requires Provenance(kit, s) && t.WriteAhead? && c in Apply(kit, s, t).threads
    ensures ThreadAccounts(Apply(kit, s, t), c)
  {
    var n := Apply(kit, s, t);
    if c != t.caller { OthersStand(kit, s, t, c); }
    if c in s.threads {
      assert ThreadAccounts(s, c);
      MovesFollow(kit, s, t, c);
      if n.threads[c] == s.threads[c] {
        StandingStaysAccounted(kit, s, t, n, c);
      } else {
        OwnersOnlyGrow(kit, s, t);
        IntentsOnlyGrow(kit, s, t, t.intent);
        EffectCites(s.threads[c].key, s.threads[c].fields, "attempted", s.threads[c].pc.auth, t.now);
      }
    }
  }

  lemma OldRowStaysAccounted(kit: Kit, s: State, t: Step, row: Row)
    requires AtMostOnce.Inv(kit, s) && RowAccounts(kit, s, row)
    ensures RowAccounts(kit, Apply(kit, s, t), row)
  {
    IntentsStayKnown(kit, s, t);
    match row.origin
    case Plain =>
    case Closing(i) => IntentsOnlyGrow(kit, s, t, i);
    case Seeding(c) =>
      OwnsIsKept(kit, s, t, c, Cites(row.record.draft.content).value);
      CallersOnlyGrow(kit, s, t);
      if c in Apply(kit, s, t).threads {
        StepLives(kit, s, t, c);
        assert false;
      }
  }

  /** The row an append adds, when it goes through. */
  function Appended(kit: Kit, db: Db, a: Appending): Row
    requires Append(kit, db, a).Some?
  {
    var rows := Append(kit, db, a).value.envelopes;
    rows[|rows| - 1]
  }

  lemma RestampedCites(draft: Draft, now: string)
    ensures Cites(Restamped(draft, now).content) == Cites(draft.content)
  {
  }

  /** What a step tries to append cites what it should. */
  ghost predicate AttemptAccounts(kit: Kit, s: State, a: Appending) {
    var cited := Cites(a.draft.content);
    match a.origin
    case Plain => cited.Some? ==> Denies(cited.value)
    case Closing(i) => i in s.db.intents && cited == Cites(s.db.intents[i].draft.content)
    case Seeding(c) => c in s.threads && s.threads[c].pc.SeedWon? && cited == Some(s.threads[c].pc.grant)
  }

  lemma AttemptIsAccounted(kit: Kit, s: State, t: Step)
    requires Provenance(kit, s) && Attempt(s, t).Some?
    ensures AttemptAccounts(kit, s, Attempt(s, t).value)
  {
    match t
    case Recover(id, now, _) => RestampedCites(s.db.intents[s.sessions[id].phase.todo[0]].draft, now);
    case Deny(c, _, _) => assert ThreadAccounts(s, c);
    case Record(c, _, _) => assert ThreadAccounts(s, c);
    case SeedRecord(_, _, _, _) =>
    case Other(_, _, _, _) =>
  }

  lemma SeederEnds(kit: Kit, s: State, t: Step)
    requires t.SeedRecord? && Attempt(s, t).Some?
    ensures t.caller !in Apply(kit, s, t).threads && Attempt(s, t).value.origin == Seeding(t.caller)
    ensures Apply(kit, s, t).history == s.history
  {
  }

  lemma SeedRowIsAccounted(kit: Kit, s: State, t: Step)
    requires AtMostOnce.Inv(kit, s) && t.SeedRecord? && Attempt(s, t).Some?
    ensures var n, cited := Apply(kit, s, t), Cites(Attempt(s, t).value.draft.content);
      && t.caller in n.history.seeders && t.caller !in n.threads
      && cited.Some? && AtMostOnce.Owns(kit, n, t.caller, cited.value)
  {
    var g := s.threads[t.caller].pc.grant;
    SeederEnds(kit, s, t);
    EffectCites(s.threads[t.caller].key, t.performed, "applied", Some(g), t.now);
    assert AtMostOnce.Holds(s.threads[t.caller].pc) == Some(g);
    OwnsIsKept(kit, s, t, t.caller, g);
  }

  lemma NewRowIsAccounted(kit: Kit, s: State, t: Step)
    requires AtMostOnce.Inv(kit, s) && Provenance(kit, s)
    requires Attempt(s, t).Some? && Append(kit, s.db, Attempt(s, t).value).Some?
    ensures RowAccounts(kit, Apply(kit, s, t), Appended(kit, s.db, Attempt(s, t).value))
  {
    var a := Attempt(s, t).value;
    AttemptIsAccounted(kit, s, t);
    match a.origin
    case Plain =>
    case Closing(i) =>
      IntentsStayKnown(kit, s, t);
      IntentsOnlyGrow(kit, s, t, i);
    case Seeding(_) => SeedRowIsAccounted(kit, s, t);
  }

  /** Rows stay accounted for, and at most one is added, which is. */
  ghost predicate RowsAccounted(kit: Kit, s: State, n: State) {
    var k := |s.db.envelopes|;
    && (forall i :: 0 <= i < k ==> RowAccounts(kit, n, s.db.envelopes[i]))
    && (|| n.db.envelopes == s.db.envelopes
        || (&& |n.db.envelopes| == k + 1 && n.db.envelopes[..k] == s.db.envelopes && RowAccounts(kit, n, n.db.envelopes[k])
            && forall j :: 0 <= j < k && s.db.envelopes[j].origin.Seeding? ==>
                 s.db.envelopes[j].origin != n.db.envelopes[k].origin))
  }

  lemma ProvenanceOf(kit: Kit, s: State, n: State)
    requires Provenance(kit, s) && RowsAccounted(kit, s, n)
    requires forall i :: i in n.db.intents ==> IntentAccounts(kit, n, i)
    requires forall c :: c in n.threads ==> ThreadAccounts(n, c)
    ensures Provenance(kit, n)
  {
    var k := |s.db.envelopes|;
    forall i | 0 <= i < |n.db.envelopes| ensures RowAccounts(kit, n, n.db.envelopes[i]) {
      if i < k { assert n.db.envelopes[i] == s.db.envelopes[i]; }
    }
  }

  lemma RowsStayAccounted(kit: Kit, s: State, t: Step)
    requires AtMostOnce.Inv(kit, s) && Provenance(kit, s)
    ensures RowsAccounted(kit, s, Apply(kit, s, t))
  {
    StepsAppend(kit, s, t);
    forall k | 0 <= k < |s.db.envelopes| ensures RowAccounts(kit, Apply(kit, s, t), s.db.envelopes[k]) {
      OldRowStaysAccounted(kit, s, t, s.db.envelopes[k]);
    }
    if Attempt(s, t).Some? && Append(kit, s.db, Attempt(s, t).value).Some? {
      NewRowIsAccounted(kit, s, t);
      SeedsStayDistinct(kit, s, t);
    }
  }

  lemma StepKeepsProvenance(kit: Kit, s: State, t: Step)
    requires AtMostOnce.Inv(kit, s) && OwnersInv(s) && Provenance(kit, s)
    ensures Provenance(kit, Apply(kit, s, t))
  {
    var n := Apply(kit, s, t);
    forall i | i in n.db.intents ensures IntentAccounts(kit, n, i) { IntentsStayAccounted(kit, s, t, i); }
    forall c | c in n.threads ensures ThreadAccounts(n, c) { ThreadsStayAccounted(kit, s, t, c); }
    RowsStayAccounted(kit, s, t);
    ProvenanceOf(kit, s, n);
  }

  lemma SeedsStayDistinct(kit: Kit, s: State, t: Step)
    requires Provenance(kit, s) && Attempt(s, t).Some? && Append(kit, s.db, Attempt(s, t).value).Some?
    ensures forall j :: 0 <= j < |s.db.envelopes| && s.db.envelopes[j].origin.Seeding? ==>
      s.db.envelopes[j].origin != Attempt(s, t).value.origin
  {
    AttemptIsAccounted(kit, s, t);
    forall j | 0 <= j < |s.db.envelopes| && s.db.envelopes[j].origin.Seeding?
      ensures s.db.envelopes[j].origin != Attempt(s, t).value.origin
    {
      assert RowAccounts(kit, s, s.db.envelopes[j]);
    }
  }
}
