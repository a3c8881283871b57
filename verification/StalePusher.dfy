/** What a pusher with an old batch can break: concrete runs. */
module StalePusher {
  import opened Prelude
  import opened Gate
  import opened Chain
  import opened Store
  import opened Push
  import opened Pushers
  import AnyPushers

  const DRAFT: Draft := Draft("k", "applied", Gate.Envelope(map[], Absent, None), None)
  const A: Row := Row("a", Record("s", 0, None, DRAFT), "", None, None, Plain)
  const B: Row := Row("b", Record("s", 1, Some("a"), DRAFT), "", None, None, Plain)
  const A1: Row := A.(pushedAt := Some("t"))
  const B1: Row := B.(pushedAt := Some("t"), pushError := Some("r: d"))
  const WEDGE: Wedge := Wedge("b", 1, "r", "d", "t", 0)
  const YES: Reply := Reply(Accepted, "t", "t")
  const NO: Reply := Reply(Answer.Refused("r", "d"), "t", "t")
  const DOWN: Reply := Reply(Unreachable("down"), "t", "t")

  function Table(a: Row, b: Row, wedges: map<string, Wedge>): Db {
    Db([a, b], map[], [], map[], wedges)
  }

  /** Two pushers read the same two rows. The first gets one accepted and the other refused; the second, its
      batch now old, takes up the first row. */
  function StaleSchedule(): seq<Step> {
    [Step.Store(A), Step.Store(B), Read(1, [A, B]), Read(2, [A, B]),
     Look(1), Hear(1, YES), Settle(1), Look(1), Hear(1, NO), Settle(1), Look(2)]
  }

  function Both(first: Pusher, second: Pusher): map<nat, Pusher> {
    map[1 := first, 2 := second]
  }

  const FRESH: Pusher := Pusher([A, B], {}, Choosing)

  function Offers(batch: seq<Row>, standing: bool): Pusher {
    Pusher(batch, {}, Offering(standing))
  }

  lemma RunPrefix(steps: seq<Step>, k: nat)
    requires k < |steps|
    ensures Run(steps[..k + 1]) == Apply(Run(steps[..k]), steps[k])
  {
    assert steps[..k + 1][..k] == steps[..k];
  }

  lemma BothRead()
    ensures Run(StaleSchedule()[..4]) == World(Table(A, B, map[]), Both(FRESH, FRESH))
  {
    var p := StaleSchedule();
    RunPrefix(p, 0);
    RunPrefix(p, 1);
    RunPrefix(p, 2);
    RunPrefix(p, 3);
    assert Run(p[..1]) == World(Db([A], map[], [], map[], map[]), map[]);
    assert Run(p[..2]) == World(Table(A, B, map[]), map[]);
    BatchOfBoth();
    assert Run(p[..3]) == World(Table(A, B, map[]), map[1 := FRESH]);
  }

  lemma BatchOfBoth()
    ensures IsBatch(Table(A, B, map[]), [A, B])
  {
    var db, batch := Table(A, B, map[]), [A, B];
    assert A in db.envelopes by { assert db.envelopes[0] == A; }
    assert B in db.envelopes by { assert db.envelopes[1] == B; }
    LexTotal("s", "s");
    forall row, k | row in db.envelopes && row.pushedAt.None? && 0 <= k < |batch| && RowBefore(row, batch[k])
      ensures row in batch[..k]
    {
      if row == A && k == 1 { assert batch[..1][0] == A; }
    }
  }

  lemma FirstOffered()
    ensures Run(StaleSchedule()[..5]) == World(Table(A, B, map[]), Both(Offers([A, B], false), FRESH))
  {
    BothRead();
    RunPrefix(StaleSchedule(), 4);
  }

  lemma FirstMarked()
    ensures Run(StaleSchedule()[..6]) == World(Table(A1, B, map[]), Both(Pusher([A, B], {}, Clearing), FRESH))
  {
    FirstOffered();
    RunPrefix(StaleSchedule(), 5);
    assert MarkPushed(Table(A, B, map[]), "a", "t", None) == Table(A1, B, map[]);
  }

  lemma FirstAccepted()
    ensures Run(StaleSchedule()[..7]) == World(Table(A1, B, map[]), Both(Pusher([B], {}, Choosing), FRESH))
  {
    FirstMarked();
    RunPrefix(StaleSchedule(), 6);
    assert [A, B][1..] == [B];
  }

  lemma SecondOffered()
    ensures Run(StaleSchedule()[..8]) == World(Table(A1, B, map[]), Both(Offers([B], false), FRESH))
  {
    FirstAccepted();
    RunPrefix(StaleSchedule(), 7);
  }

  lemma SecondMarked()
    ensures Run(StaleSchedule()[..9]) == World(Table(A1, B1, map[]), Both(Pusher([B], {}, Wedging(WEDGE)), FRESH))
  {
    SecondOffered();
    RunPrefix(StaleSchedule(), 8);
    assert "r" + ": " + "d" == "r: d";
    assert MarkPushed(Table(A1, B, map[]), "b", "t", Some("r: d")) == Table(A1, B1, map[]);
  }

  lemma SecondRefused()
    ensures Run(StaleSchedule()[..10]) == World(Table(A1, B1, map["s" := WEDGE]), Both(Pusher([], {"s"}, Choosing), FRESH))
  {
    SecondMarked();
    RunPrefix(StaleSchedule(), 9);
    assert [B][1..] == [] && {} + {"s"} == {"s"};
    assert RecordWedge(Table(A1, B1, map[]), "s", WEDGE) == Table(A1, B1, map["s" := WEDGE]);
  }

  lemma SettledWedgeIsExact()
    ensures WedgesExact(Table(A1, B1, map["s" := WEDGE]))
  {
    var db := Table(A1, B1, map["s" := WEDGE]);
    assert "r" + ": " + "d" == "r: d";
    assert LastConsumed(db.envelopes, 1) && WedgedAt(WEDGE, db.envelopes[1]);
    assert OnLast(db.envelopes, "s", WEDGE);
  }

  /** Two rows of a stream, the first consumed, with exact wedges. */
  lemma TwoRowsConsistent(db: Db)
    requires |db.envelopes| == 2 && SameStream(db.envelopes[0], db.envelopes[1]) && WedgesExact(db)
    requires db.envelopes[0].id != db.envelopes[1].id && db.envelopes[0].record.seqno < db.envelopes[1].record.seqno
    requires Consumed(db.envelopes[0]) && !(WasRefused(db.envelopes[0]) && WasRefused(db.envelopes[1]))
    ensures Inv(db)
  {
  }

  lemma SettledStoreIsConsistent()
    ensures Inv(Table(A1, B1, map["s" := WEDGE]))
  {
    SettledWedgeIsExact();
    TwoRowsConsistent(Table(A1, B1, map["s" := WEDGE]));
  }

  /** The second pusher has its old first row with the kernel, in a store that is consistent. */
  lemma StaleOffer()
    ensures Run(StaleSchedule()) == World(Table(A1, B1, map["s" := WEDGE]), Both(Pusher([], {"s"}, Choosing), Offers([A, B], true)))
    ensures Inv(Run(StaleSchedule()).db)
  {
    SecondRefused();
    RunPrefix(StaleSchedule(), 10);
    assert StaleSchedule()[..11] == StaleSchedule();
    SettledStoreIsConsistent();
  }

  lemma StaleAccepted()
    ensures var n := DoSettle(DoHear(Run(StaleSchedule()), 2, YES), 2);
      n.db == Table(A1, B1, map[]) && 2 in n.pushers && n.pushers[2] == Pusher([B], {}, Choosing)
  {
    StaleOffer();
    assert MarkPushed(Run(StaleSchedule()).db, "a", "t", None) == Run(StaleSchedule()).db;
    assert [A, B][1..] == [B];
  }

  /** Accepted again, the old row ends the wedge that a later row's refusal left. */
  lemma StaleAcceptanceEndsWedge()
    ensures var w := Run(StaleSchedule());
      var n := DoSettle(DoHear(w, 2, YES), 2).db;
      "s" in w.db.wedges && n.wedges == map[] && StillRefused(B1, n) && !Inv(n)
  {
    StaleOffer();
    StaleAccepted();
    var n := Table(A1, B1, map[]);
    assert n.envelopes[1] == B1;
    assert LastConsumed(n.envelopes, 1) && WasRefused(n.envelopes[1]);
  }

  /** Unreachable, the old row reads as refused though it was accepted, beside one that was. */
  lemma StaleErrorUnmakesAcceptance()
    ensures var w := Run(StaleSchedule());
      var n := DoHear(w, 2, DOWN).db;
      w.db.envelopes == [A1, B1] && |n.envelopes| == 2 && WasAccepted(A1) && WasRefused(n.envelopes[0]) && !Inv(n)
  {
    StaleOffer();
    var n := DoHear(Run(StaleSchedule()), 2, DOWN).db;
    assert n.envelopes[0] == A1.(pushError := Some("down")) && n.envelopes[1] == B1;
    assert SameStream(n.envelopes[0], n.envelopes[1]);
  }

  lemma StaleSecondOffer()
    ensures var n := DoLook(DoSettle(DoHear(Run(StaleSchedule()), 2, YES), 2), 2);
      n.db.envelopes == [A1, B1] && 2 in n.pushers && n.pushers[2].spot.Offering? && n.pushers[2].batch == [B]
  {
    StaleAccepted();
  }

  /** And a recorded refusal reason is lost: the second pusher, past its first row, is unreachable on the next. */
  lemma StaleErrorErasesReason()
    ensures var w := Run(StaleSchedule());
      var n := DoHear(DoLook(DoSettle(DoHear(w, 2, YES), 2), 2), 2, DOWN).db;
      StillRefused(B1, w.db) && !StillRefused(B1, n)
  {
    StaleOffer();
    var w := Run(StaleSchedule());
    assert w.db.envelopes[1] == B1;
    StaleSecondOffer();
    var n := DoHear(DoLook(DoSettle(DoHear(w, 2, YES), 2), 2), 2, DOWN).db;
    assert n.envelopes == [A1, B1.(pushError := Some("down"))];
  }
}
