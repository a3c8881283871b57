/** Batches need not be old: two pushers, each with a fresh batch, each marking only the next unconsumed row, and the
    first one's second transaction comes late. */
module FreshPushers {
  import opened Prelude
  import opened Store
  import opened Push
  import opened Pushers
  import opened StalePusher
  import opened AnyPushers
  import Marking

  predicate Judges(reply: Reply) {
    reply.answer.Accepted? || reply.answer.Refused?
  }

  function Marked(row: Row, reply: Reply): Row {
    match reply.answer
    case Refused(reason, detail) => row.(pushedAt := Some(reply.at), pushError := Some(reason + ": " + detail))
    case _ => row.(pushedAt := Some(reply.at))
  }

  function Half(row: Row, reply: Reply): Spot {
    match reply.answer
    case Refused(reason, detail) => Wedging(WedgeFor(row, reason, detail, reply.later))
    case _ => Clearing
  }

  /** The first pusher marks its first row; the second reads what is left, marks it and settles. */
  function FreshSchedule(first: Reply, second: Reply): seq<Step> {
    [Step.Store(A), Step.Store(B), Read(1, [A, B]), Look(1), Hear(1, first), Read(2, [B]), Look(2), Hear(2, second), Settle(2)]
  }

  lemma FreshOffered(first: Reply, second: Reply)
    ensures Run(FreshSchedule(first, second)[..4]) == World(Table(A, B, map[]), map[1 := Offers([A, B], false)])
  {
    var p := FreshSchedule(first, second);
    RunPrefix(p, 0);
    RunPrefix(p, 1);
    RunPrefix(p, 2);
    RunPrefix(p, 3);
    assert Run(p[..1]) == World(Db([A], map[], [], map[], map[]), map[]);
    assert Run(p[..2]) == World(Table(A, B, map[]), map[]);
    BatchOfBoth();
    assert Run(p[..3]) == World(Table(A, B, map[]), map[1 := FRESH]);
  }

  lemma FreshMarked(first: Reply, second: Reply)
    requires Judges(first)
    ensures Run(FreshSchedule(first, second)[..5]) == World(Table(Marked(A, first), B, map[]), map[1 := Pusher([A, B], {}, Half(A, first))])
  {
    FreshOffered(first, second);
    RunPrefix(FreshSchedule(first, second), 4);
    var error := Marking.ErrorOf(first.answer);
    assert MarkPushed(Table(A, B, map[]), "a", first.at, error) == Table(Marked(A, first), B, map[]);
  }

  lemma BatchOfRest(a: Row)
    requires Consumed(a) && a.record == A.record
    ensures IsBatch(Table(a, B, map[]), [B])
  {
    var db, batch := Table(a, B, map[]), [B];
    assert B in db.envelopes by { assert db.envelopes[1] == B; }
    LexTotal("s", "s");
  }

  lemma RestOffered(first: Reply, second: Reply)
    requires Judges(first)
    ensures Run(FreshSchedule(first, second)[..7])
      == World(Table(Marked(A, first), B, map[]), Both(Pusher([A, B], {}, Half(A, first)), Offers([B], false)))
  {
    var p := FreshSchedule(first, second);
    FreshMarked(first, second);
    RunPrefix(p, 5);
    BatchOfRest(Marked(A, first));
    assert Run(p[..6]) == World(Table(Marked(A, first), B, map[]), Both(Pusher([A, B], {}, Half(A, first)), Pusher([B], {}, Choosing)));
    RunPrefix(p, 6);
  }

  lemma RestMarked(first: Reply, second: Reply)
    requires Judges(first) && Judges(second)
    ensures Run(FreshSchedule(first, second)[..8])
      == World(Table(Marked(A, first), Marked(B, second), map[]), Both(Pusher([A, B], {}, Half(A, first)), Pusher([B], {}, Half(B, second))))
  {
    RestOffered(first, second);
    RunPrefix(FreshSchedule(first, second), 7);
    var error := Marking.ErrorOf(second.answer);
    assert MarkPushed(Table(Marked(A, first), B, map[]), "b", second.at, error) == Table(Marked(A, first), Marked(B, second), map[]);
  }

  /** The wedges once the second pusher has settled. */
  function Left(second: Reply): map<string, Wedge> {
    match Half(B, second)
    case Wedging(wedge) => map["s" := wedge]
    case _ => map[]
  }

  lemma RestSettled(first: Reply, second: Reply)
    requires Judges(first) && Judges(second)
    ensures var w := Run(FreshSchedule(first, second));
      && w.db == Table(Marked(A, first), Marked(B, second), Left(second))
      && w.pushers.Keys == {1, 2} && w.pushers[1] == Pusher([A, B], {}, Half(A, first)) && !Midway(w.pushers[2])
  {
    var p := FreshSchedule(first, second);
    RestMarked(first, second);
    RunPrefix(p, 8);
    assert p[..9] == p;
  }

  /** Both marks passed the test marking does not make. */
  lemma MarksPass(first: Reply, second: Reply)
    requires Judges(first) && Judges(second) && (first.answer.Refused? ==> second.answer.Accepted?)
    ensures var p := FreshSchedule(first, second);
      Marking.Markable(Run(p[..4]).db, A, first.answer) && Marking.Markable(Run(p[..7]).db, B, second.answer)
  {
    FreshOffered(first, second);
    RestOffered(first, second);
    assert Table(A, B, map[]).envelopes[0] == A;
    assert Table(Marked(A, first), B, map[]).envelopes[1] == B;
  }

  /** Of two consumed rows of a stream the second is the last. */
  lemma SecondIsLast(db: Db)
    requires |db.envelopes| == 2 && SameStream(db.envelopes[0], db.envelopes[1]) && Consumed(db.envelopes[1])
    ensures LastConsumed(db.envelopes, 1) && forall i: nat :: LastConsumed(db.envelopes, i) ==> i == 1
  {
  }

  /** The store once one row is accepted and the other refused and wedged, or the other way round. */
  lemma SettledWedges(first: Reply, second: Reply)
    requires Judges(first) && Judges(second) && (first.answer.Refused? ==> second.answer.Accepted?)
    ensures WedgesExact(Table(Marked(A, first), Marked(B, second), Left(second)))
  {
    var db := Table(Marked(A, first), Marked(B, second), Left(second));
    SecondIsLast(db);
    if second.answer.Refused? { assert OnLast(db.envelopes, "s", db.wedges["s"]); }
  }

  lemma SettledInEitherOrder(first: Reply, second: Reply)
    requires first.answer.Accepted? != second.answer.Accepted? && Judges(first) && Judges(second)
    ensures Push.Inv(Run(FreshSchedule(first, second)).db)
  {
    RestSettled(first, second);
    SettledWedges(first, second);
    TwoRowsConsistent(Run(FreshSchedule(first, second)).db);
  }

  lemma UnwedgedBreaks(db: Db)
    requires |db.envelopes| == 2 && SameStream(db.envelopes[0], db.envelopes[1]) && WasRefused(db.envelopes[1])
    requires db.envelopes[1].record.stream !in db.wedges
    ensures !Push.Inv(db)
  {
    SecondIsLast(db);
  }

  lemma LateClearing()
    ensures var w := Run(FreshSchedule(YES, NO));
      var n := Apply(w, Settle(1));
      w.db.wedges.Keys == {"s"} && w.db.wedges["s"].envelopeId == "b" && n.db == Table(Marked(A, YES), Marked(B, NO), map[])
      && !AcceptsOn(w, Settle(1), "s") && SettlesOld(w, [Settle(1)], 0, "s")
  {
    RestSettled(YES, NO);
  }

  /** Accepted, then refused and wedged: the late clearing takes the other row's wedge, though every mark passed its
      test and the kernel accepted nothing since. */
  lemma LateClearingEndsWedge()
    ensures var w := Run(FreshSchedule(YES, NO));
      var n := Apply(w, Settle(1));
      && Push.Inv(w.db) && w.db.wedges.Keys == {"s"} && w.db.wedges["s"].envelopeId == "b"
      && !AcceptsOn(w, Settle(1), "s") && SettlesOld(w, [Settle(1)], 0, "s")
      && n.db.wedges == map[] && StillRefused(Marked(B, NO), n.db) && !Push.Inv(n.db)
    ensures Marking.Markable(Run(FreshSchedule(YES, NO)[..4]).db, A, YES.answer)
    ensures Marking.Markable(Run(FreshSchedule(YES, NO)[..7]).db, B, NO.answer)
  {
    SettledInEitherOrder(YES, NO);
    MarksPass(YES, NO);
    LateClearing();
    var db := Table(Marked(A, YES), Marked(B, NO), map[]);
    assert db.envelopes[1] == Marked(B, NO);
    UnwedgedBreaks(db);
  }

  /** Refused, then accepted: the late wedge stands behind an accepted row. */
  lemma LateWedgeStandsBehind()
    ensures var w := Run(FreshSchedule(NO, YES));
      var n := Apply(w, Settle(1));
      && Push.Inv(w.db) && w.db.wedges == map[]
      && n.db.wedges.Keys == {"s"} && n.db.wedges["s"].envelopeId == "a" && n.db.envelopes == [Marked(A, NO), Marked(B, YES)]
      && !Push.Inv(n.db)
    ensures Marking.Markable(Run(FreshSchedule(NO, YES)[..4]).db, A, NO.answer)
    ensures Marking.Markable(Run(FreshSchedule(NO, YES)[..7]).db, B, YES.answer)
  {
    RestSettled(NO, YES);
    SettledInEitherOrder(NO, YES);
    MarksPass(NO, YES);
    var n := Apply(Run(FreshSchedule(NO, YES)), Settle(1));
    assert n.db.envelopes == [Marked(A, NO), Marked(B, YES)];
    SecondIsLast(n.db);
    assert !OnLast(n.db.envelopes, "s", n.db.wedges["s"]);
  }

  /** Refused, and refused again before the first wedge is recorded: two refused rows side by side, which no second
      transaction undoes. */
  lemma RefusedSideBySide()
    ensures var w := Run(FreshSchedule(NO, NO));
      var n := Apply(w, Settle(1));
      && !RefusalsApart(w.db.envelopes) && !RefusalsApart(n.db.envelopes) && n.db.wedges == w.db.wedges
      && NobodyMidway(n)
  {
    RestSettled(NO, NO);
    var w := Run(FreshSchedule(NO, NO));
    var n := Apply(w, Settle(1));
    assert SameStream(w.db.envelopes[0], w.db.envelopes[1]);
    assert n.db.envelopes == w.db.envelopes;
  }
}
