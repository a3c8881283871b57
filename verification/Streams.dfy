/** Every stream of every reachable store verifies from genesis. */
module Streams {
  import opened Prelude
  import opened Chain
  import opened Store
  import opened Protocol

  /** One call of the store's append. */
  datatype Appending = Appending(stream: string, draft: Draft, at: string, origin: Origin)

  /** The append a step attempts, if it attempts one. */
  function Attempt(s: State, t: Step): Option<Appending> {
    match t
    case Recover(id, now, ok) =>
      if id in s.sessions && s.sessions[id].phase.Recovering? && s.sessions[id].phase.todo != []
         && s.sessions[id].phase.todo[0] in s.db.intents && ok
      then
        var intent := s.sessions[id].phase.todo[0];
        Some(Appending(s.sessions[id].stream, Restamped(s.db.intents[intent].draft, now), now, Closing(intent)))
      else None
    case Deny(c, now, ok) =>
      if c in s.threads && s.threads[c].pc.Denying? && ok then
        var thread := s.threads[c];
        Some(Appending(thread.stream, EffectDraft(thread.key, thread.fields, "denied", Some(thread.pc.grant), now), now, Plain))
      else None
    case Record(c, now, ok) =>
      if c in s.threads && s.threads[c].pc.Ran? && (s.threads[c].pc.ahead.Some? || s.threads[c].pc.failed) && ok then
        var thread := s.threads[c];
        Some(Appending(thread.stream,
                       EffectDraft(thread.key, thread.fields, if thread.pc.failed then "failed" else "applied", thread.pc.auth, now),
                       now, match thread.pc.ahead case Some(i) => Closing(i) case None => Plain))
      else None
    case SeedRecord(c, performed, now, ok) =>
      if c in s.threads && s.threads[c].pc.SeedWon? && ok then
        var thread := s.threads[c];
        Some(Appending(thread.stream, EffectDraft(thread.key, performed, "applied", Some(thread.pc.grant), now), now, Seeding(c)))
      else None
    case Other(stream, draft, now, ok) =>
      if draft.content.authorization.None? && ok then Some(Appending(stream, draft, now, Plain)) else None
    case _ => None
  }

  function Append(kit: Kit, db: Db, a: Appending): Option<Db> {
    AppendNext(kit, db, a.stream, a.draft, a.at, a.origin)
  }

  /** Steps that may chain an envelope. */
  predicate Appends(t: Step) {
    t.Recover? || t.Deny? || t.Record? || t.SeedRecord? || t.Other?
  }

  /** Steps by which a thread passes the gate. */
  predicate AtGate(t: Step) {
    t.Begin? || t.Locate? || t.Park? || t.Check? || t.Claim? || t.Spend? || t.Seed?
  }

  ghost predicate Chains(kit: Kit, s: State, t: Step) {
    var n := Apply(kit, s, t);
    match Attempt(s, t)
    case Some(a) => n.db == OrElse(Append(kit, s.db, a), s.db)
    case None => n.db.envelopes == s.db.envelopes && (t.WriteAhead? || n.db.intents == s.db.intents)
  }

  lemma EffectsChain(kit: Kit, s: State, t: Step)
    requires t.Recover? || t.Record?
    ensures Chains(kit, s, t)
  {
  }

  lemma DecisionsChain(kit: Kit, s: State, t: Step)
    requires t.Deny? || t.SeedRecord? || t.Other?
    ensures Chains(kit, s, t)
  {
  }

  /** Chain and write-ahead records are as they were. */
  predicate SameRecords(s: State, n: State) {
    n.db.envelopes == s.db.envelopes && n.db.intents == s.db.intents
  }

  lemma AskingChainsNothing(kit: Kit, s: State, t: Step)
    requires t.Begin? || t.Locate? || t.Park? || t.Check?
    ensures SameRecords(s, Apply(kit, s, t))
  {
  }

  lemma ClaimChainsNothing(kit: Kit, s: State, c: nat, now: string)
    ensures SameRecords(s, DoClaim(kit, s, c, now))
  {
  }

  lemma SpendChainsNothing(s: State, c: nat, now: string)
    ensures SameRecords(s, DoSpend(s, c, now))
  {
  }

  lemma GateChainsNothing(kit: Kit, s: State, t: Step)
    requires AtGate(t)
    ensures Chains(kit, s, t)
  {
    if t.Claim? { ClaimChainsNothing(kit, s, t.caller, t.now); }
    else if t.Spend? { SpendChainsNothing(s, t.caller, t.now); }
    else if !t.Seed? { AskingChainsNothing(kit, s, t); }
  }

  lemma OthersChainNothing(kit: Kit, s: State, t: Step)
    requires !AtGate(t) && !Appends(t)
    ensures Chains(kit, s, t)
  {
  }

  /** Steps change the envelope table by appending, and in no other way; an append changes nothing
      but that table and the write-ahead records. */
  lemma StepsAppend(kit: Kit, s: State, t: Step)
    ensures Attempt(s, t).Some? ==> Apply(kit, s, t).db == OrElse(Append(kit, s.db, Attempt(s, t).value), s.db)
    ensures Attempt(s, t).None? ==> Apply(kit, s, t).db.envelopes == s.db.envelopes
    ensures Attempt(s, t).None? && !t.WriteAhead? ==> Apply(kit, s, t).db.intents == s.db.intents
  {
    if t.Recover? || t.Record? { EffectsChain(kit, s, t); }
    else if Appends(t) { DecisionsChain(kit, s, t); }
    else if AtGate(t) { GateChainsNothing(kit, s, t); }
    else { OthersChainNothing(kit, s, t); }
    assert Chains(kit, s, t);
  }

  /** Record `k` of a stream: at position `k`, naming its predecessor, well formed. */
  predicate LinkedAt(kit: Kit, records: seq<Record>, stream: string, k: nat)
    requires k < |records|
  {
    && records[k].stream == stream
    && records[k].seqno == k
    && kit.view.shape(records[k]).None?
    && records[k].prev == (if k == 0 then None else Some(kit.view.id(records[k - 1])))
  }

  ghost predicate Linked(kit: Kit, records: seq<Record>, stream: string) {
    forall k :: 0 <= k < |records| ==> LinkedAt(kit, records, stream, k)
  }

  ghost predicate Kept(kit: Kit, rows: seq<Row>) {
    && (forall stream :: Linked(kit, Select(rows, stream), stream))
    && (forall i :: 0 <= i < |rows| ==> rows[i].id == kit.view.id(rows[i].record))
  }

  lemma LinkedPrefix(kit: Kit, records: seq<Record>, n: nat, stream: string)
    requires Linked(kit, records, stream) && n <= |records|
    ensures Linked(kit, records[..n], stream)
  {
    forall k | 0 <= k < n ensures LinkedAt(kit, records[..n], stream, k) {
      assert LinkedAt(kit, records, stream, k);
    }
  }

  lemma LinkedAccepts(kit: Kit, records: seq<Record>, stream: string)
    requires Faithful(kit) && Linked(kit, records, stream) && records != []
    ensures Accepts(kit.view, records, stream, None) && SeqOf(kit.view, records[0]) == 0
  {
    assert LinkedAt(kit, records, stream, 0);
    forall k | 0 <= k < |records|
      ensures Sound(kit.view, records[k], stream) && Placed(kit.view, records, None, k)
    {
      assert LinkedAt(kit, records, stream, k);
    }
  }

  /** The row an append looks up is the last of its stream. */
  lemma {:induction false} LatestIsLast(kit: Kit, rows: seq<Row>, stream: string)
    requires Linked(kit, Select(rows, stream), stream)
    ensures var records := Select(rows, stream);
      match Latest(rows, stream)
      case None => records == []
      case Some(row) => records != [] && row.record == records[|records| - 1]
  {
    if rows != [] {
      var before := rows[..|rows| - 1];
      var records, earlier := Select(rows, stream), Select(before, stream);
      LinkedPrefix(kit, records, |earlier|, stream);
      assert records[..|earlier|] == earlier;
      LatestIsLast(kit, before, stream);
      if rows[|rows| - 1].record.stream == stream {
        assert LinkedAt(kit, records, stream, |earlier|);
        assert earlier != [] ==> LinkedAt(kit, earlier, stream, |earlier| - 1);
      }
    }
  }

  /** What an append adds to each stream. */
  lemma AppendSelects(kit: Kit, db: Db, a: Appending, stream: string)
    requires Append(kit, db, a).Some?
    ensures Select(Append(kit, db, a).value.envelopes, stream)
      == if stream == a.stream then Select(db.envelopes, stream) + [Build(kit, db, a.stream, a.draft).value]
         else Select(db.envelopes, stream)
  {
    var rows := Append(kit, db, a).value.envelopes;
    assert rows[..|rows| - 1] == db.envelopes;
  }

  /** The record an append builds follows the last of its stream. */
  lemma BuiltFollows(kit: Kit, db: Db, a: Appending)
    requires Kept(kit, db.envelopes) && Build(kit, db, a.stream, a.draft).Some?
    ensures var was := Select(db.envelopes, a.stream);
      LinkedAt(kit, was + [Build(kit, db, a.stream, a.draft).value], a.stream, |was|)
  {
    var was := Select(db.envelopes, a.stream);
    assert Linked(kit, was, a.stream);
    LatestIsLast(kit, db.envelopes, a.stream);
    if was != [] { assert LinkedAt(kit, was, a.stream, |was| - 1); }
  }

  lemma OneMoreLinked(kit: Kit, records: seq<Record>, record: Record, stream: string)
    requires Linked(kit, records, stream) && LinkedAt(kit, records + [record], stream, |records|)
    ensures Linked(kit, records + [record], stream)
  {
    forall k | 0 <= k < |records| ensures LinkedAt(kit, records + [record], stream, k) {
      assert LinkedAt(kit, records, stream, k);
    }
  }

  lemma AppendKeeps(kit: Kit, db: Db, a: Appending)
    requires Faithful(kit) && Kept(kit, db.envelopes) && Append(kit, db, a).Some?
    ensures Kept(kit, Append(kit, db, a).value.envelopes)
  {
    forall stream ensures Linked(kit, Select(Append(kit, db, a).value.envelopes, stream), stream) {
      assert Linked(kit, Select(db.envelopes, stream), stream);
      AppendSelects(kit, db, a, stream);
      if stream == a.stream {
        BuiltFollows(kit, db, a);
        OneMoreLinked(kit, Select(db.envelopes, stream), Build(kit, db, a.stream, a.draft).value, stream);
      }
    }
  }

  lemma {:induction false} RunKeeps(kit: Kit, steps: seq<Step>)
    requires Faithful(kit)
    ensures Kept(kit, Run(kit, steps).db.envelopes)
  {
    if steps != [] {
      var s, t := Run(kit, steps[..|steps| - 1]), steps[|steps| - 1];
      RunKeeps(kit, steps[..|steps| - 1]);
      StepsAppend(kit, s, t);
      if Attempt(s, t).Some? && Append(kit, s.db, Attempt(s, t).value).Some? {
        AppendKeeps(kit, s.db, Attempt(s, t).value);
      }
    }
  }

  /** What a table that keeps its streams linked gives each verifier. */
  lemma StreamVerifies(kit: Kit, rows: seq<Row>, stream: string)
    requires Faithful(kit) && Kept(kit, rows) && Select(rows, stream) != []
    ensures var records := Select(rows, stream);
      && Latest(rows, stream).Some?
      && PythonVerdict(kit.view, records, stream, None) == Ok(Report(Latest(rows, stream).value.id, |records|, true))
      && RustVerdict(kit.view, records, stream, None) == Ok(Report(Latest(rows, stream).value.id, |records|, true))
  {
    var records := Select(rows, stream);
    assert Linked(kit, records, stream);
    LinkedAccepts(kit, records, stream);
    LatestIsLast(kit, rows, stream);
    AcceptedReport(kit.view, records, stream, None);
  }

  /** After any run, with any number of processes appending, each non-empty stream is a range both
      verifiers accept from position 0, with the last stored id as its head. */
  lemma EveryStreamVerifies(kit: Kit, steps: seq<Step>, stream: string)
    requires Faithful(kit) && Select(Run(kit, steps).db.envelopes, stream) != []
    ensures var rows := Run(kit, steps).db.envelopes;
      var records := Select(rows, stream);
      && Latest(rows, stream).Some?
      && PythonVerdict(kit.view, records, stream, None) == Ok(Report(Latest(rows, stream).value.id, |records|, true))
      && RustVerdict(kit.view, records, stream, None) == Ok(Report(Latest(rows, stream).value.id, |records|, true))
  {
    RunKeeps(kit, steps);
    StreamVerifies(kit, Run(kit, steps).db.envelopes, stream);
  }
}
