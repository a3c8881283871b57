/** What survives any number of pushers, and crashes anywhere. */
module AnyPushers {
  import opened Prelude
  import opened Store
  import opened Push
  import opened Pushers

  // ---- rows are consumed in order ----

  /** The table later on: rows keep their place and identity, and stay consumed. */
  ghost predicate Grown(rows: seq<Row>, after: seq<Row>) {
    && |rows| <= |after|
    && forall i :: 0 <= i < |rows| ==>
         after[i].id == rows[i].id && after[i].record == rows[i].record && (Consumed(rows[i]) ==> Consumed(after[i]))
  }

  /** Table row `i` is batch row `k`, and every row before it on its stream is consumed or comes earlier
      in the batch. */
  ghost predicate InLine(rows: seq<Row>, batch: seq<Row>, k: nat, i: nat)
    requires k < |batch|
  {
    && i < |rows| && rows[i].id == batch[k].id && rows[i].record == batch[k].record
    && forall j :: 0 <= j < i && SameStream(rows[j], rows[i]) ==> Consumed(rows[j]) || Waits(batch[..k], rows[j])
  }

  ghost predicate RowInLine(rows: seq<Row>, pusher: Pusher, k: nat)
    requires k < |pusher.batch|
  {
    pusher.batch[k].record.stream in pusher.held || exists i: nat :: InLine(rows, pusher.batch, k, i)
  }

  /** The first row of the batch, between its two transactions, is consumed. */
  ghost predicate HeadConsumed(rows: seq<Row>, pusher: Pusher) {
    && pusher.batch != []
    && exists i: nat :: i < |rows| && rows[i].id == pusher.batch[0].id && rows[i].record == pusher.batch[0].record && Consumed(rows[i])
  }

  predicate Midway(pusher: Pusher) {
    pusher.spot.Clearing? || pusher.spot.Wedging?
  }

  ghost predicate NobodyMidway(w: World) {
    forall p :: p in w.pushers ==> !Midway(w.pushers[p])
  }

  ghost predicate PusherInLine(rows: seq<Row>, pusher: Pusher) {
    && (forall k :: 0 <= k < |pusher.batch| ==> RowInLine(rows, pusher, k))
    && (Midway(pusher) ==> HeadConsumed(rows, pusher))
    && (!pusher.spot.Choosing? ==> pusher.batch != [] && pusher.batch[0].record.stream !in pusher.held)
  }

  /** A wedge names a row of its stream that was consumed. */
  ghost predicate WedgesName(db: Db) {
    forall stream :: stream in db.wedges ==> Named(db, stream)
  }

  ghost predicate Named(db: Db, stream: string)
    requires stream in db.wedges
  {
    exists i: nat :: i < |db.envelopes| && NamesRow(db.wedges[stream], db.envelopes[i], stream)
  }

  predicate NamesRow(wedge: Wedge, row: Row, stream: string) {
    row.record.stream == stream && Consumed(row) && row.id == wedge.envelopeId && row.record.seqno == wedge.seqno
  }

  /** A wedge about to be recorded names the row just consumed. */
  predicate WedgeInHand(pusher: Pusher) {
    pusher.spot.Wedging? ==>
      pusher.batch != [] && pusher.spot.wedge.envelopeId == pusher.batch[0].id && pusher.spot.wedge.seqno == pusher.batch[0].record.seqno
  }

  ghost predicate Inv(w: World) {
    && Ordered(w.db.envelopes) && Prefixed(w.db.envelopes) && WedgesName(w.db)
    && forall p :: p in w.pushers ==> PusherInLine(w.db.envelopes, w.pushers[p]) && WedgeInHand(w.pushers[p])
  }

  lemma GrownKeepsLine(rows: seq<Row>, after: seq<Row>, pusher: Pusher)
    requires Grown(rows, after) && PusherInLine(rows, pusher)
    ensures PusherInLine(after, pusher)
  {
    forall k | 0 <= k < |pusher.batch| ensures RowInLine(after, pusher, k) {
      assert RowInLine(rows, pusher, k);
      if pusher.batch[k].record.stream !in pusher.held {
        var i: nat :| InLine(rows, pusher.batch, k, i);
        GrownKeepsRow(rows, after, pusher.batch, k, i);
      }
    }
    if Midway(pusher) {
      var i: nat :| i < |rows| && rows[i].id == pusher.batch[0].id && rows[i].record == pusher.batch[0].record && Consumed(rows[i]);
      assert i < |after| && after[i].id == pusher.batch[0].id && after[i].record == pusher.batch[0].record && Consumed(after[i]);
    }
  }

  lemma GrownKeepsRow(rows: seq<Row>, after: seq<Row>, batch: seq<Row>, k: nat, i: nat)
    requires Grown(rows, after) && k < |batch| && InLine(rows, batch, k, i)
    ensures InLine(after, batch, k, i)
  {
    forall j | 0 <= j < i && SameStream(after[j], after[i]) ensures Consumed(after[j]) || Waits(batch[..k], after[j]) {
      assert SameStream(rows[j], rows[i]);
      if !Consumed(rows[j]) {
        var m :| 0 <= m < |batch[..k]| && batch[..k][m].id == rows[j].id && batch[..k][m].record == rows[j].record;
        assert batch[..k][m].id == after[j].id && batch[..k][m].record == after[j].record;
      }
    }
  }

  /** Past the first row: it was consumed, or its stream is held. */
  lemma OnwardKeepsLine(rows: seq<Row>, pusher: Pusher, held: set<string>)
    requires Ordered(rows) && PusherInLine(rows, pusher) && pusher.batch != [] && pusher.held <= held
    requires pusher.batch[0].record.stream in held || HeadConsumed(rows, pusher)
    ensures PusherInLine(rows, Onward(pusher, held))
  {
    var batch, next := pusher.batch, Onward(pusher, held);
    forall k | 0 <= k < |next.batch| ensures RowInLine(rows, next, k) {
      assert RowInLine(rows, pusher, k + 1);
      if next.batch[k].record.stream !in held {
        var i: nat :| InLine(rows, batch, k + 1, i);
        LineMovesUp(rows, pusher, held, k, i);
      }
    }
  }

  lemma LineMovesUp(rows: seq<Row>, pusher: Pusher, held: set<string>, k: nat, i: nat)
    requires Ordered(rows) && k + 1 < |pusher.batch| && InLine(rows, pusher.batch, k + 1, i)
    requires pusher.batch[k + 1].record.stream !in held
    requires pusher.batch[0].record.stream in held || HeadConsumed(rows, pusher)
    ensures InLine(rows, pusher.batch[1..], k, i)
  {
    var batch, rest := pusher.batch, pusher.batch[1..];
    forall j | 0 <= j < i && SameStream(rows[j], rows[i]) && !Consumed(rows[j]) ensures Waits(rest[..k], rows[j]) {
      var m :| 0 <= m < |batch[..k + 1]| && batch[..k + 1][m].id == rows[j].id && batch[..k + 1][m].record == rows[j].record;
      assert m > 0;
      assert rest[..k][m - 1] == batch[..k + 1][m];
    }
  }

  /** Consuming the first row of a batch leaves consumed rows a prefix of their stream. */
  lemma MarkingKeepsPrefix(db: Db, pusher: Pusher, at: string, error: Option<string>)
    requires Ordered(db.envelopes) && Prefixed(db.envelopes) && PusherInLine(db.envelopes, pusher)
    requires pusher.batch != [] && pusher.batch[0].record.stream !in pusher.held
    ensures var after := MarkPushed(db, pusher.batch[0].id, at, error).envelopes;
      Grown(db.envelopes, after) && Ordered(after) && Prefixed(after) && HeadConsumed(after, pusher)
  {
    var rows, after := db.envelopes, MarkPushed(db, pusher.batch[0].id, at, error).envelopes;
    assert RowInLine(rows, pusher, 0);
    var i: nat :| InLine(rows, pusher.batch, 0, i);
    MarkingIsOneRow(db, i, at, error);
    OneRowKeepsOrder(rows, after, i);
    forall a, b | 0 <= a < b < |after| && SameStream(after[a], after[b]) && Consumed(after[b]) ensures Consumed(after[a]) {
      if b == i { assert Consumed(rows[a]) || Waits(pusher.batch[..0], rows[a]); }
    }
    assert Consumed(after[i]);
  }

  lemma TroublingGrows(db: Db, id: string, detail: string)
    ensures var after := MarkPushError(db, id, detail).envelopes;
      Grown(db.envelopes, after) && forall i :: 0 <= i < |after| ==> Consumed(after[i]) == Consumed(db.envelopes[i])
    ensures Ordered(db.envelopes) && Prefixed(db.envelopes) ==>
      Ordered(MarkPushError(db, id, detail).envelopes) && Prefixed(MarkPushError(db, id, detail).envelopes)
  {
  }

  predicate SamePlace(a: Wedge, b: Wedge) {
    a.envelopeId == b.envelopeId && a.seqno == b.seqno
  }

  /** Wedges name their rows still in a grown table. */
  lemma GrownKeepsNames(db: Db, n: Db)
    requires WedgesName(db) && Grown(db.envelopes, n.envelopes)
    requires forall stream :: stream in n.wedges ==> stream in db.wedges && SamePlace(n.wedges[stream], db.wedges[stream])
    ensures WedgesName(n)
  {
    forall stream | stream in n.wedges ensures Named(n, stream) {
      assert Named(db, stream);
      var i: nat :| i < |db.envelopes| && NamesRow(db.wedges[stream], db.envelopes[i], stream);
      assert NamesRow(n.wedges[stream], n.envelopes[i], stream);
    }
  }

  lemma MarkingGrows(db: Db, id: string, at: string, error: Option<string>)
    ensures Grown(db.envelopes, MarkPushed(db, id, at, error).envelopes)
  {
  }

  lemma HearGrows(w: World, p: nat, reply: Reply)
    ensures Grown(w.db.envelopes, DoHear(w, p, reply).db.envelopes)
  {
    if p in w.pushers && w.pushers[p].spot.Offering? && w.pushers[p].batch != [] {
      var id := w.pushers[p].batch[0].id;
      match reply.answer
      case Unreachable(detail) => TroublingGrows(w.db, id, detail);
      case NotJudged(detail) => TroublingGrows(w.db, id, detail);
      case Accepted => MarkingGrows(w.db, id, reply.at, None);
      case Refused(reason, detail) => MarkingGrows(w.db, id, reply.at, Some(reason + ": " + detail));
    }
  }

  /** Rows keep their place and identity through every step, and stay consumed. */
  lemma StepGrows(w: World, t: Step)
    ensures Grown(w.db.envelopes, Apply(w, t).db.envelopes)
  {
    if t.Hear? { HearGrows(w, t.pusher, t.reply); }
  }

  lemma LookKeepsInv(w: World, p: nat)
    requires Inv(w)
    ensures Inv(DoLook(w, p))
  {
    if p in w.pushers && w.pushers[p].spot.Choosing? && w.pushers[p].batch != [] {
      var pusher := w.pushers[p];
      if pusher.batch[0].record.stream in pusher.held {
        OnwardKeepsLine(w.db.envelopes, pusher, pusher.held);
      } else {
        var next := DoLook(w, p).pushers[p];
        forall k | 0 <= k < |next.batch| ensures RowInLine(w.db.envelopes, next, k) {
          assert RowInLine(w.db.envelopes, pusher, k);
        }
      }
    }
  }

  /** A pusher whose row has just been marked. */
  lemma MarkedKeepsLine(rows: seq<Row>, after: seq<Row>, pusher: Pusher, spot: Spot)
    requires PusherInLine(rows, pusher) && pusher.spot.Offering? && Grown(rows, after) && HeadConsumed(after, pusher)
    requires spot.Clearing? || spot.Wedging?
    ensures PusherInLine(after, pusher.(spot := spot))
  {
    GrownKeepsLine(rows, after, pusher);
    var next := pusher.(spot := spot);
    forall k | 0 <= k < |next.batch| ensures RowInLine(after, next, k) { assert RowInLine(after, pusher, k); }
  }

  lemma HearKeepsInv(w: World, p: nat, reply: Reply)
    requires Inv(w)
    ensures Inv(DoHear(w, p, reply))
  {
    var n := DoHear(w, p, reply);
    if p in w.pushers && w.pushers[p].spot.Offering? && w.pushers[p].batch != [] {
      var pusher, row := w.pushers[p], w.pushers[p].batch[0];
      match reply.answer {
        case Unreachable(detail) => TroublingGrows(w.db, row.id, detail);
        case NotJudged(detail) => TroublingGrows(w.db, row.id, detail);
        case Accepted =>
          MarkingKeepsPrefix(w.db, pusher, reply.at, None);
          MarkedKeepsLine(w.db.envelopes, n.db.envelopes, pusher, Clearing);
        case Refused(reason, detail) =>
          if pusher.spot.standing {
            OnwardKeepsLine(w.db.envelopes, pusher, pusher.held + {row.record.stream});
          } else {
            MarkingKeepsPrefix(w.db, pusher, reply.at, Some(reason + ": " + detail));
            MarkedKeepsLine(w.db.envelopes, n.db.envelopes, pusher, Wedging(WedgeFor(row, reason, detail, reply.later)));
          }
      }
      OthersKeepLine(w, n, p);
      GrownKeepsNames(w.db, n.db);
    }
  }

  lemma OthersKeepLine(w: World, n: World, p: nat)
    requires Inv(w) && Grown(w.db.envelopes, n.db.envelopes)
    ensures forall q :: q in w.pushers && q != p ==> PusherInLine(n.db.envelopes, w.pushers[q]) && WedgeInHand(w.pushers[q])
  {
    forall q | q in w.pushers && q != p ensures PusherInLine(n.db.envelopes, w.pushers[q]) {
      GrownKeepsLine(w.db.envelopes, n.db.envelopes, w.pushers[q]);
    }
  }

  lemma SettlingKeepsNames(w: World, p: nat)
    requires Inv(w) && p in w.pushers
    ensures WedgesName(Settled(w.db, w.pushers[p]))
  {
    var pusher, n := w.pushers[p], Settled(w.db, w.pushers[p]);
    forall stream | stream in n.wedges ensures Named(n, stream) {
      if stream in w.db.wedges {
        assert Named(w.db, stream);
      } else {
        var i: nat :| i < |n.envelopes| && n.envelopes[i].id == pusher.batch[0].id
          && n.envelopes[i].record == pusher.batch[0].record && Consumed(n.envelopes[i]);
        assert NamesRow(n.wedges[stream], n.envelopes[i], stream);
      }
    }
  }

  lemma SettleKeepsInv(w: World, p: nat)
    requires Inv(w)
    ensures Inv(DoSettle(w, p))
  {
    if p in w.pushers {
      var pusher := w.pushers[p];
      SettlingKeepsNames(w, p);
      if Midway(pusher) {
        OnwardKeepsLine(w.db.envelopes, pusher, AfterSettling(pusher).held);
      }
    }
  }

  lemma ReadKeepsInv(w: World, p: nat, batch: seq<Row>)
    requires Inv(w) && p !in w.pushers && IsBatch(w.db, batch)
    ensures Inv(At(w, p, Pusher(batch, {}, Choosing)))
  {
    BatchIsLined(w.db, batch);
    var rows, pusher := w.db.envelopes, Pusher(batch, {}, Choosing);
    forall k | 0 <= k < |batch| ensures RowInLine(rows, pusher, k) {
      assert InTurn(Cycle(w.db, {}, false), batch, k);
      var i: nat :| StandsAt(rows, batch, k, i);
      assert InLine(rows, batch, k, i);
    }
  }

  lemma StoreKeepsInv(w: World, row: Row)
    requires Inv(w) && Chainable(w.db.envelopes, row)
    ensures Inv(w.(db := w.db.(envelopes := w.db.envelopes + [row])))
  {
    var n := w.(db := w.db.(envelopes := w.db.envelopes + [row]));
    OthersKeepLine(w, n, 0);
    if 0 in w.pushers { GrownKeepsLine(w.db.envelopes, n.db.envelopes, w.pushers[0]); }
    GrownKeepsNames(w.db, n.db);
  }

  lemma StepKeepsInv(w: World, t: Step)
    requires Inv(w)
    ensures Inv(Apply(w, t))
  {
    match t
    case Store(row) => if Chainable(w.db.envelopes, row) { StoreKeepsInv(w, row); }
    case Grace(stream) => GrownKeepsNames(w.db, NoteGraceUse(w.db, stream));
    case Read(p, batch) => if p !in w.pushers && IsBatch(w.db, batch) { ReadKeepsInv(w, p, batch); }
    case Look(p) => LookKeepsInv(w, p);
    case Hear(p, reply) => HearKeepsInv(w, p, reply);
    case Settle(p) => SettleKeepsInv(w, p);
    case Crash(p) =>
  }

  /** In every run, with any number of pushers and crashes anywhere: ids are unique, the consumed rows of
      a stream are a prefix of it, and a wedge names a consumed row of its stream. */
  lemma {:induction false} RunKeepsPrefix(steps: seq<Step>)
    ensures Inv(Run(steps))
  {
    if steps != [] {
      RunKeepsPrefix(steps[..|steps| - 1]);
      StepKeepsInv(Run(steps[..|steps| - 1]), steps[|steps| - 1]);
    }
  }

  // ---- a wedge ends by an acceptance ----

  /** The kernel accepts something on this stream. */
  predicate AcceptsOn(w: World, t: Step, stream: string) {
    t.Hear? && t.reply.answer.Accepted? && t.pusher in w.pushers && w.pushers[t.pusher].spot.Offering?
    && w.pushers[t.pusher].batch != [] && w.pushers[t.pusher].batch[0].record.stream == stream
  }

  /** An acceptance on this stream is about to clear the wedge. */
  predicate ClearingOn(pusher: Pusher, stream: string) {
    pusher.spot.Clearing? && pusher.batch != [] && pusher.batch[0].record.stream == stream
  }

  predicate ClearsOn(w: World, t: Step, stream: string) {
    t.Settle? && t.pusher in w.pushers && ClearingOn(w.pushers[t.pusher], stream)
  }

  predicate SameRefusal(a: Wedge, b: Wedge) {
    b == a.(graceServed := b.graceServed)
  }

  /** Only the second transaction of an acceptance takes a wedge away. */
  lemma StepKeepsWedge(w: World, t: Step, stream: string)
    requires stream in w.db.wedges && !ClearsOn(w, t, stream)
    ensures stream in Apply(w, t).db.wedges && SameRefusal(w.db.wedges[stream], Apply(w, t).db.wedges[stream])
  {
  }

  lemma ClearsAfterAccepting(w: World, t: Step, p: nat, stream: string)
    requires p in Apply(w, t).pushers && ClearingOn(Apply(w, t).pushers[p], stream)
    ensures AcceptsOn(w, t, stream) || (p in w.pushers && ClearingOn(w.pushers[p], stream))
  {
  }

  /** Step `k` settles an acceptance on this stream that was heard before the run began. */
  predicate SettlesOld(w: World, steps: seq<Step>, k: nat, stream: string)
    requires k < |steps|
  {
    ClearsOn(RunFrom(w, steps[..k]), steps[k], stream) && ClearsOn(w, steps[k], stream)
  }

  /** Step `k` ends the refusal: the kernel accepts something on the stream, or an acceptance heard on it before the
      run is settled. */
  predicate EndsWedge(w: World, steps: seq<Step>, k: nat, stream: string)
    requires k < |steps|
  {
    AcceptsOn(RunFrom(w, steps[..k]), steps[k], stream) || SettlesOld(w, steps, k, stream)
  }

  ghost predicate NothingEnds(w: World, steps: seq<Step>, stream: string) {
    forall k :: 0 <= k < |steps| ==> !EndsWedge(w, steps, k, stream)
  }

  lemma NothingEndsBefore(w: World, steps: seq<Step>, stream: string, n: nat)
    requires n <= |steps| && NothingEnds(w, steps, stream)
    ensures NothingEnds(w, steps[..n], stream)
  {
    forall k | 0 <= k < n ensures !EndsWedge(w, steps[..n], k, stream) {
      assert steps[..n][..k] == steps[..k] && steps[..n][k] == steps[k];
      assert !EndsWedge(w, steps, k, stream);
    }
  }

  /** Where the kernel accepts nothing, whoever is about to clear the wedge was so from the start. */
  lemma {:induction false} ClearersAreOld(w: World, steps: seq<Step>, p: nat, stream: string)
    requires NothingEnds(w, steps, stream) && p in RunFrom(w, steps).pushers && ClearingOn(RunFrom(w, steps).pushers[p], stream)
    ensures p in w.pushers && ClearingOn(w.pushers[p], stream)
  {
    if steps != [] {
      var before, t := steps[..|steps| - 1], steps[|steps| - 1];
      NothingEndsBefore(w, steps, stream, |before|);
      assert !EndsWedge(w, steps, |before|, stream);
      ClearsAfterAccepting(RunFrom(w, before), t, p, stream);
      ClearersAreOld(w, before, p, stream);
    }
  }

  lemma LastStepKeepsWedge(w: World, steps: seq<Step>, stream: string)
    requires steps != [] && NothingEnds(w, steps, stream)
    ensures !ClearsOn(RunFrom(w, steps[..|steps| - 1]), steps[|steps| - 1], stream)
  {
    var before, t := steps[..|steps| - 1], steps[|steps| - 1];
    assert !EndsWedge(w, steps, |before|, stream);
    if ClearsOn(RunFrom(w, before), t, stream) {
      NothingEndsBefore(w, steps, stream, |before|);
      ClearersAreOld(w, before, t.pusher, stream);
    }
  }

  /** Whatever any number of pushers do, and however they crash, a wedge stands with its reason and the instant of
      the first refusal, over steps in which the kernel accepts nothing on its stream and nobody settles an
      acceptance heard on it before. */
  lemma {:induction false} WedgeStands(w: World, steps: seq<Step>, stream: string)
    requires stream in w.db.wedges && NothingEnds(w, steps, stream)
    ensures stream in RunFrom(w, steps).db.wedges && SameRefusal(w.db.wedges[stream], RunFrom(w, steps).db.wedges[stream])
  {
    if steps != [] {
      var before, t := steps[..|steps| - 1], steps[|steps| - 1];
      NothingEndsBefore(w, steps, stream, |before|);
      WedgeStands(w, before, stream);
      LastStepKeepsWedge(w, steps, stream);
      StepKeepsWedge(RunFrom(w, before), t, stream);
    }
  }

  /** A consumed row never becomes unconsumed. */
  lemma {:induction false} RunGrows(steps: seq<Step>, n: nat)
    requires n <= |steps|
    ensures Grown(Run(steps[..n]).db.envelopes, Run(steps).db.envelopes)
    decreases |steps| - n
  {
    if n < |steps| {
      StepGrows(Run(steps[..n]), steps[n]);
      assert steps[..n + 1][..n] == steps[..n];
      RunGrows(steps, n + 1);
    } else {
      assert steps[..n] == steps;
    }
  }
}
