/** One question per call: a human is never asked twice about one call at once. */
module OneQuestion {
  import opened Prelude
  import opened Gate
  import opened Store
  import opened Protocol
  import opened Database

  /** The two rows ask about the same call: all nine identity members agree. */
  predicate SameCall(a: Parked, b: Parked) {
    BoundEqual(a.request, b.request)
  }

  /** Two rows that both still wait for an answer about one call. */
  predicate AskedTwice(a: Parked, b: Parked, now: string) {
    Unanswered(a) && Unanswered(b) && SameCall(a, b) && Answerable(a, now) && Answerable(b, now)
  }

  /** Of two waiting rows about one call, the earlier can no longer be answered. */
  ghost predicate Inv(parked: seq<Parked>, now: string) {
    forall i, j :: 0 <= i < j < |parked| ==> !AskedTwice(parked[i], parked[j], now)
  }

  lemma ExpiredStays(row: Parked, was: string, now: string)
    requires !Answerable(row, was) && LexLe(was, now)
    ensures !Answerable(row, now)
  {
    if Get(row.request, "not-after").Text? { LexLtLe(Get(row.request, "not-after").s, was, now); }
  }

  lemma TimeKeepsInv(parked: seq<Parked>, was: string, now: string)
    requires Inv(parked, was) && LexLe(was, now)
    ensures Inv(parked, now)
  {
    forall i, j | 0 <= i < j < |parked| ensures !AskedTwice(parked[i], parked[j], now) {
      assert !AskedTwice(parked[i], parked[j], was);
      if !Answerable(parked[i], was) { ExpiredStays(parked[i], was, now); }
      if !Answerable(parked[j], was) { ExpiredStays(parked[j], was, now); }
    }
  }

  /** Answering or using rows only takes them out of the question. */
  lemma SettlingKeepsInv(before: seq<Parked>, after: seq<Parked>, now: string)
    requires Inv(before, now) && |after| == |before|
    requires forall i :: 0 <= i < |before| ==>
      after[i].request == before[i].request && (Unanswered(after[i]) ==> Unanswered(before[i]))
    ensures Inv(after, now)
  {
    forall i, j | 0 <= i < j < |after| ensures !AskedTwice(after[i], after[j], now) {
      assert !AskedTwice(before[i], before[j], now);
    }
  }

  lemma {:induction false} WithoutKeepsInv(parked: seq<Parked>, hash: string, now: string)
    requires Inv(parked, now)
    ensures Inv(Without(parked, hash), now)
  {
    if parked != [] {
      var tail := parked[1..];
      forall i, j | 0 <= i < j < |tail| ensures !AskedTwice(tail[i], tail[j], now) {
        assert !AskedTwice(parked[i + 1], parked[j + 1], now);
      }
      WithoutKeepsInv(tail, hash, now);
      var r := Without(parked, hash);
      if parked[0].hash != hash {
        forall i, j | 0 <= i < j < |r| ensures !AskedTwice(r[i], r[j], now) {
          if i == 0 {
            assert r[j] in Without(tail, hash);
            var k :| 0 <= k < |tail| && tail[k] == r[j];
            assert !AskedTwice(parked[0], parked[k + 1], now);
          } else {
            assert !AskedTwice(Without(tail, hash)[i - 1], Without(tail, hash)[j - 1], now);
          }
        }
      }
    }
  }

  /** Parking under the writer lock: the lookup and the insert are one step, so no earlier row about
      the call was answerable when this one was stored. */
  lemma ParkingKeepsInv(db: Db, row: Parked, fields: Members, now: string, clock: string)
    requires Inv(db.parked, clock) && LexLe(now, clock) && BoundEqual(row.request, fields)
    ensures Inv(ParkUnique(db, row, fields, now).0.parked, clock)
  {
    var sorted := ByAge(db.parked);
    if OutstandingRow(sorted, fields, now).None? {
      WithoutKeepsInv(db.parked, row.hash, clock);
      var kept := Without(db.parked, row.hash);
      forall i | 0 <= i < |kept| ensures !AskedTwice(kept[i], row, clock) {
        assert kept[i] in db.parked;
        assert kept[i] in multiset(sorted);
        assert !(Unanswered(kept[i]) && Answerable(kept[i], now) && Matches(kept[i], fields));
        if SameCall(kept[i], row) && !Answerable(kept[i], now) { ExpiredStays(kept[i], now, clock); }
      }
      var after := kept + [row];
      forall i, j | 0 <= i < j < |after| ensures !AskedTwice(after[i], after[j], clock) {
        if j < |kept| { assert !AskedTwice(kept[i], kept[j], clock); }
      }
    }
  }

  /** The steps that touch parked requests or the clock. */
  predicate Touches(t: Step) {
    t.Tick? || t.Decide? || t.Spend? || t.Park?
  }

  lemma OthersLeaveParked(kit: Kit, s: State, t: Step)
    requires !Touches(t)
    ensures Apply(kit, s, t).db.parked == s.db.parked && Apply(kit, s, t).clock == s.clock
  {
    if t.Recover? || t.Deny? || t.Record? || t.SeedRecord? || t.Other? { ChainingLeavesParked(kit, s, t); } else { GateLeavesParked(kit, s, t); }
  }

  lemma ChainingLeavesParked(kit: Kit, s: State, t: Step)
    requires t.Recover? || t.Deny? || t.Record? || t.SeedRecord? || t.Other?
    ensures Apply(kit, s, t).db.parked == s.db.parked && Apply(kit, s, t).clock == s.clock
  {
  }

  lemma GateLeavesParked(kit: Kit, s: State, t: Step)
    requires !Touches(t) && !(t.Recover? || t.Deny? || t.Record? || t.SeedRecord? || t.Other?)
    ensures Apply(kit, s, t).db.parked == s.db.parked && Apply(kit, s, t).clock == s.clock
  {
  }

  lemma SpendingConsumes(s: State, c: nat, now: string)
    ensures var n := DoSpend(s, c, now);
      n.clock == s.clock && (n.db.parked == s.db.parked
        || exists hash :: n.db.parked == Consume(s.db, hash, now).parked)
  {
    if c in s.threads {
      match s.threads[c].pc
      case Won(row) => assert row.decision.Some? ==> DoSpend(s, c, now).db.parked == Consume(s.db, row.hash, now).parked;
      case Beaten(row) => assert DoSpend(s, c, now).db.parked == Consume(s.db, row.hash, now).parked;
      case Refused(row, _) => assert DoSpend(s, c, now).db.parked == Consume(s.db, row.hash, now).parked;
      case _ =>
    }
  }

  lemma ParkStepKeepsInv(kit: Kit, s: State, c: nat, request: Members, now: string)
    requires Inv(s.db.parked, s.clock)
    ensures var n := DoPark(kit, s, c, request, now); Inv(n.db.parked, n.clock)
  {
    if c in s.threads && s.threads[c].pc.Parking? && LexLe(now, s.clock) && BoundEqual(request, s.threads[c].fields) {
      ParkingKeepsInv(s.db, Parked(kit.hash(request), request, now, None, None), s.threads[c].fields, now, s.clock);
    }
  }

  lemma StepKeepsInv(kit: Kit, s: State, t: Step)
    requires Inv(s.db.parked, s.clock)
    ensures Inv(Apply(kit, s, t).db.parked, Apply(kit, s, t).clock)
  {
    if !Touches(t) {
      OthersLeaveParked(kit, s, t);
    } else if t.Spend? {
      SpendKeepsInv(s, t.caller, t.now);
    } else if t.Park? {
      ParkStepKeepsInv(kit, s, t.caller, t.request, t.now);
    } else {
      WorldKeepsInv(kit, s, t);
    }
  }

  lemma WorldKeepsInv(kit: Kit, s: State, t: Step)
    requires Inv(s.db.parked, s.clock) && (t.Tick? || t.Decide?)
    ensures Inv(Apply(kit, s, t).db.parked, Apply(kit, s, t).clock)
  {
    match t
    case Tick(now) => if LexLe(s.clock, now) { TimeKeepsInv(s.db.parked, s.clock, now); }
    case Decide(hash, d) => SettlingKeepsInv(s.db.parked, RecordDecision(s.db, hash, d).parked, s.clock);
  }

  lemma SpendKeepsInv(s: State, c: nat, now: string)
    requires Inv(s.db.parked, s.clock)
    ensures Inv(DoSpend(s, c, now).db.parked, DoSpend(s, c, now).clock)
  {
    SpendingConsumes(s, c, now);
    if DoSpend(s, c, now).db.parked != s.db.parked {
      var hash :| DoSpend(s, c, now).db.parked == Consume(s.db, hash, now).parked;
      SettlingKeepsInv(s.db.parked, Consume(s.db, hash, now).parked, s.clock);
    }
  }

  lemma {:induction false} RunKeepsInv(kit: Kit, steps: seq<Step>)
    ensures Inv(Run(kit, steps).db.parked, Run(kit, steps).clock)
  {
    if steps != [] {
      RunKeepsInv(kit, steps[..|steps| - 1]);
      StepKeepsInv(kit, Run(kit, steps[..|steps| - 1]), steps[|steps| - 1]);
    }
  }

  /** No reachable state holds two undecided, unconsumed, still answerable requests about one call,
      however many processes park at once. */
  lemma NeverAskedTwice(kit: Kit, steps: seq<Step>, i: nat, j: nat)
    requires i < j < |Run(kit, steps).db.parked|
    ensures !AskedTwice(Run(kit, steps).db.parked[i], Run(kit, steps).db.parked[j], Run(kit, steps).clock)
    ensures var s := Run(kit, steps);
      !(Waits(s.db.parked[i], s.db.parked[j].request, s.clock) && Waits(s.db.parked[j], s.db.parked[i].request, s.clock))
  {
    RunKeepsInv(kit, steps);
    var s := Run(kit, steps);
    WaitsExactly(s.db.parked[i], s.db.parked[j].request, s.clock);
    WaitsExactly(s.db.parked[j], s.db.parked[i].request, s.clock);
  }
}
