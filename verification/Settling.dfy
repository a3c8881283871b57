/** The second transaction of an acceptance or a refusal: exactly when clearing a wedge, and when recording one,
    keeps the store consistent. */
module Settling {
  import opened Prelude
  import opened Store
  import opened Push
  import opened Pushers
  import opened AnyPushers
  import opened Transactions

  /** Every stream's last consumed row, on this stream, was accepted. */
  ghost predicate LastAccepted(rows: seq<Row>, stream: string) {
    forall i: nat :: LastConsumed(rows, i) && rows[i].record.stream == stream ==> WasAccepted(rows[i])
  }

  /** Somebody has a wedge at this very row in hand. */
  predicate HasInHand(pusher: Pusher, stream: string, id: string) {
    pusher.spot.Wedging? && pusher.batch != [] && pusher.batch[0].record.stream == stream && pusher.spot.wedge.envelopeId == id
  }

  ghost predicate SomeoneRewedges(w: World, stream: string, id: string) {
    exists q :: q in w.pushers && HasInHand(w.pushers[q], stream, id)
  }

  /** The test the second transaction does not make. To clear: the wedge is gone, or sits before the last consumed
      row, or somebody is about to record it again. To record: a wedge stands already, or the refused row is still
      the last consumed one, or the last one was accepted and somebody is still to clear past the refused row. */
  ghost predicate Settleable(w: World, p: nat)
    requires MidwayIn(w, p) && w.pushers[p].batch != []
  {
    var row := w.pushers[p].batch[0];
    var stream := row.record.stream;
    match w.pushers[p].spot
    case Clearing =>
      || stream !in w.db.wedges || !OnLast(w.db.envelopes, stream, w.db.wedges[stream])
      || SomeoneRewedges(w, stream, w.db.wedges[stream].envelopeId)
    case Wedging(_) =>
      || stream in w.db.wedges || IsLast(w.db.envelopes, row)
      || (LastAccepted(w.db.envelopes, stream) && SomeoneClears(w, stream, row.record.seqno))
  }

  ghost predicate Settles(w: World, n: World, p: nat) {
    && MidwayIn(w, p) && w.pushers[p].batch != [] && OnlyMoved(w, n, p) && !MidwayIn(n, p) && AnyPushers.Inv(n)
    && n.db.envelopes == w.db.envelopes
  }

  lemma SettleSettles(w: World, p: nat)
    requires AnyPushers.Inv(w) && MidwayIn(w, p)
    ensures w.pushers[p].batch != [] && Settles(w, DoSettle(w, p), p)
    ensures DoSettle(w, p).db == Settled(w.db, w.pushers[p])
  {
    assert PusherInLine(w.db.envelopes, w.pushers[p]);
    AnyPushers.SettleKeepsInv(w, p);
  }

  /** A second transaction that finds nothing to do. */
  lemma IdleKeeps(w: World, n: World, p: nat)
    requires Consistent(w) && Settles(w, n, p) && n.db == w.db
    requires w.pushers[p].spot.Clearing? <==> w.pushers[p].batch[0].record.stream !in w.db.wedges
    ensures Consistent(n) && Settleable(w, p)
  {
    LeavingKeepsExactly(w, n, p);
  }

  /** Other pushers' second transactions are as much about to be made as they were. */
  lemma OthersStillClear(w: World, n: World, p: nat, stream: string, seqno: nat)
    requires Settles(w, n, p) && (w.pushers[p].spot.Clearing? ==> stream != w.pushers[p].batch[0].record.stream)
    ensures SomeoneClears(n, stream, seqno) <==> SomeoneClears(w, stream, seqno)
  {
    if SomeoneClears(w, stream, seqno) {
      var q :| q in w.pushers && ClearsPast(w.pushers[q], stream, seqno);
      assert q in n.pushers && n.pushers[q] == w.pushers[q];
    }
    if SomeoneClears(n, stream, seqno) {
      var q :| q in n.pushers && ClearsPast(n.pushers[q], stream, seqno);
      assert q in w.pushers && n.pushers[q] == w.pushers[q];
    }
  }

  lemma OthersStillRecord(w: World, n: World, p: nat, row: Row)
    requires Settles(w, n, p) && !Records(w.pushers[p], row)
    ensures SomeoneRecords(n, row) <==> SomeoneRecords(w, row)
  {
    if SomeoneRecords(w, row) {
      var q :| q in w.pushers && Records(w.pushers[q], row);
      assert q in n.pushers && n.pushers[q] == w.pushers[q];
    }
    if SomeoneRecords(n, row) {
      var q :| q in n.pushers && Records(n.pushers[q], row);
      assert q in w.pushers && n.pushers[q] == w.pushers[q];
    }
  }

  /** One stream is attended. */
  ghost predicate StreamAttended(w: World, stream: string) {
    && (stream in w.db.wedges ==> WedgeAttended(w, stream))
    && (forall i: nat :: i < |w.db.envelopes| && w.db.envelopes[i].record.stream == stream ==> RowAttended(w, i))
  }

  /** Wedges of other streams are as they were. */
  ghost predicate SameElsewhere(w: World, n: World, own: string) {
    forall stream :: stream != own ==>
      (stream in n.db.wedges <==> stream in w.db.wedges)
      && (stream in w.db.wedges ==> n.db.wedges[stream] == w.db.wedges[stream])
  }

  /** Streams other than the pusher's own are attended as before. */
  lemma OwnStreamDecides(w: World, n: World, p: nat, own: string)
    requires Attended(w) && Settles(w, n, p) && own == w.pushers[p].batch[0].record.stream
    requires SameElsewhere(w, n, own)
    ensures Attended(n) <==> StreamAttended(n, own)
  {
    forall stream | stream in n.db.wedges && stream != own ensures WedgeAttended(n, stream) {
      assert WedgeAttended(w, stream);
      OthersStillClear(w, n, p, stream, w.db.wedges[stream].seqno);
    }
    forall i: nat | i < |n.db.envelopes| && n.db.envelopes[i].record.stream != own ensures RowAttended(n, i) {
      assert RowAttended(w, i);
      OthersStillRecord(w, n, p, w.db.envelopes[i]);
    }
  }

  // ---- clearing ----

  lemma RewedgesRecords(w: World, stream: string, i: nat)
    requires Firm(w) && i < |w.db.envelopes| && w.db.envelopes[i].record.stream == stream
    ensures SomeoneRewedges(w, stream, w.db.envelopes[i].id) <==> SomeoneRecords(w, w.db.envelopes[i])
  {
    if SomeoneRewedges(w, stream, w.db.envelopes[i].id) {
      var q :| q in w.pushers && HasInHand(w.pushers[q], stream, w.db.envelopes[i].id);
      SameHand(w, q, i);
    }
  }

  lemma ClearedRows(w: World, n: World, p: nat, i: nat, stream: string)
    requires Consistent(w) && Settles(w, n, p) && w.pushers[p].spot.Clearing? && i < |w.db.envelopes|
    requires stream in w.db.wedges && w.db.envelopes[i].record.stream == stream && stream !in n.db.wedges
    ensures RowAttended(n, i) <==>
      !(LastConsumed(w.db.envelopes, i) && WasRefused(w.db.envelopes[i]))
      || SomeoneRewedges(w, stream, w.db.wedges[stream].envelopeId)
  {
    assert RowAttended(w, i);
    OthersStillRecord(w, n, p, w.db.envelopes[i]);
    RewedgesRecords(w, stream, i);
  }

  lemma ClearingAttends(w: World, n: World, p: nat, stream: string)
    requires Consistent(w) && Settles(w, n, p) && w.pushers[p].spot.Clearing?
    requires stream == w.pushers[p].batch[0].record.stream && stream in w.db.wedges && stream !in n.db.wedges
    ensures StreamAttended(n, stream) <==> Settleable(w, p)
  {
    var rows := w.db.envelopes;
    forall i: nat | LastConsumed(rows, i) && rows[i].record.stream == stream && WasRefused(rows[i])
      ensures WedgedAt(w.db.wedges[stream], rows[i])
    {
      assert RowAttended(w, i);
    }
    if Settleable(w, p) {
      forall i: nat | i < |rows| && rows[i].record.stream == stream ensures RowAttended(n, i) {
        ClearedRows(w, n, p, i, stream);
      }
    } else {
      var i: nat :| LastConsumed(rows, i) && rows[i].record.stream == stream && WedgedAt(w.db.wedges[stream], rows[i]);
      ClearedRows(w, n, p, i, stream);
    }
  }

  // ---- recording ----

  /** The pusher records its wedge, at row `k`, where none stood. */
  ghost predicate Recording(w: World, n: World, p: nat, stream: string, k: nat) {
    && Settles(w, n, p) && w.pushers[p].spot.Wedging?
    && stream == w.pushers[p].batch[0].record.stream && stream !in w.db.wedges
    && n.db.wedges == w.db.wedges[stream := w.pushers[p].spot.wedge]
    && k < |w.db.envelopes| && Consumed(w.db.envelopes[k]) && Records(w.pushers[p], w.db.envelopes[k])
    && w.db.envelopes[k].id == w.pushers[p].batch[0].id && w.db.envelopes[k].record == w.pushers[p].batch[0].record
  }

  lemma RecordedWedge(w: World, n: World, p: nat, stream: string, k: nat)
    requires Firm(w) && Recording(w, n, p, stream, k)
    ensures WedgeAttended(n, stream) <==>
      LastConsumed(w.db.envelopes, k) || SomeoneClears(w, stream, w.pushers[p].batch[0].record.seqno)
  {
    OthersStillClear(w, n, p, stream, w.pushers[p].batch[0].record.seqno);
    WedgeOfRow(w.db.envelopes, stream, w.pushers[p].spot.wedge, k);
  }

  lemma RecordingAttends(w: World, n: World, p: nat, stream: string, k: nat)
    requires Firm(w) && Recording(w, n, p, stream, k)
    ensures StreamAttended(n, stream) <==> Settleable(w, p)
  {
    var rows := w.db.envelopes;
    LastIs(rows, w.pushers[p].batch[0], k);
    RecordedWedge(w, n, p, stream, k);
    if LastConsumed(rows, k) {
      forall i: nat | i < |rows| && rows[i].record.stream == stream ensures RowAttended(n, i) {
        if LastConsumed(rows, i) { LastIsOne(rows, i, k); }
      }
    } else {
      RecordingLate(w, n, p, stream, k);
    }
  }

  lemma WedgeOfRow(rows: seq<Row>, stream: string, wedge: Wedge, k: nat)
    requires Ordered(rows) && k < |rows| && rows[k].record.stream == stream && WedgedAt(wedge, rows[k])
    ensures OnLast(rows, stream, wedge) <==> LastConsumed(rows, k)
  {
    if OnLast(rows, stream, wedge) {
      var i: nat :| LastConsumed(rows, i) && rows[i].record.stream == stream && WedgedAt(wedge, rows[i]);
      assert rows[i].id == rows[k].id;
    }
  }

  /** A wedge recorded behind later rows. */
  lemma RecordingLate(w: World, n: World, p: nat, stream: string, k: nat)
    requires Firm(w) && Recording(w, n, p, stream, k) && !LastConsumed(w.db.envelopes, k)
    ensures (forall i: nat :: i < |w.db.envelopes| && w.db.envelopes[i].record.stream == stream ==> RowAttended(n, i))
      <==> LastAccepted(w.db.envelopes, stream)
  {
    var rows := w.db.envelopes;
    forall i: nat | i < |rows| && rows[i].record.stream == stream ensures LastConsumed(rows, i) ==> (RowAttended(n, i) <==> WasAccepted(rows[i])) {
      if LastConsumed(rows, i) { LateRow(w, n, p, stream, k, i); }
    }
    if LastAccepted(rows, stream) {
      forall i: nat | i < |rows| && rows[i].record.stream == stream ensures RowAttended(n, i) {}
    }
  }

  lemma LateRow(w: World, n: World, p: nat, stream: string, k: nat, i: nat)
    requires Firm(w) && Recording(w, n, p, stream, k) && !LastConsumed(w.db.envelopes, k)
    requires i < |w.db.envelopes| && w.db.envelopes[i].record.stream == stream && LastConsumed(w.db.envelopes, i)
    ensures RowAttended(n, i) <==> WasAccepted(w.db.envelopes[i])
  {
    assert i != k && w.db.envelopes[i].id != w.db.envelopes[k].id;
  }

  /** Settling keeps what is firm. */
  lemma SettledIsFirm(w: World, n: World, p: nat)
    requires Firm(w) && Settles(w, n, p)
    requires forall stream :: stream in n.db.wedges ==> stream in w.db.wedges && n.db.wedges[stream] == w.db.wedges[stream]
    ensures Firm(n)
  {
    FirmStays(w, n, p);
  }

  lemma RecordedIsFirm(w: World, n: World, p: nat, stream: string, k: nat)
    requires Firm(w) && Recording(w, n, p, stream, k)
    ensures Firm(n)
  {
    assert OnRefused(n.db.envelopes, stream, n.db.wedges[stream]);
    FirmStays(w, n, p);
  }

  lemma ClearingStanding(w: World, n: World, p: nat, stream: string)
    requires Consistent(w) && Settles(w, n, p) && w.pushers[p].spot.Clearing?
    requires stream == w.pushers[p].batch[0].record.stream && stream in w.db.wedges && stream !in n.db.wedges
    requires SameElsewhere(w, n, stream)
    ensures Consistent(n) <==> Settleable(w, p)
  {
    SettledIsFirm(w, n, p);
    OwnStreamDecides(w, n, p, stream);
    ClearingAttends(w, n, p, stream);
  }

  lemma ClearOne(db: Db, stream: string)
    ensures stream !in db.wedges ==> ClearWedge(db, stream) == db
    ensures var n := ClearWedge(db, stream);
      stream !in n.wedges && forall s :: s != stream ==>
        (s in n.wedges <==> s in db.wedges) && (s in db.wedges ==> n.wedges[s] == db.wedges[s])
  {
    if stream !in db.wedges { assert ClearWedge(db, stream).wedges == db.wedges; }
  }

  lemma ClearingKeepsExactly(w: World, n: World, p: nat)
    requires Consistent(w) && Settles(w, n, p) && w.pushers[p].spot.Clearing?
    requires n.db == ClearWedge(w.db, w.pushers[p].batch[0].record.stream)
    ensures Consistent(n) <==> Settleable(w, p)
  {
    var stream := w.pushers[p].batch[0].record.stream;
    ClearOne(w.db, stream);
    if stream in w.db.wedges {
      ClearingStanding(w, n, p, stream);
    } else {
      IdleKeeps(w, n, p);
    }
  }

  lemma RecordingStanding(w: World, n: World, p: nat, stream: string, k: nat)
    requires Consistent(w) && Recording(w, n, p, stream, k)
    ensures Consistent(n) <==> Settleable(w, p)
  {
    RecordedIsFirm(w, n, p, stream, k);
    OwnStreamDecides(w, n, p, stream);
    RecordingAttends(w, n, p, stream, k);
  }

  lemma RecordingKeepsExactly(w: World, n: World, p: nat)
    requires Consistent(w) && Settles(w, n, p) && w.pushers[p].spot.Wedging?
    requires n.db == RecordWedge(w.db, w.pushers[p].batch[0].record.stream, w.pushers[p].spot.wedge)
    ensures Consistent(n) <==> Settleable(w, p)
  {
    var stream := w.pushers[p].batch[0].record.stream;
    if stream !in w.db.wedges {
      var k := HandIsHead(w, p);
      RecordingStanding(w, n, p, stream, k);
    } else {
      IdleKeeps(w, n, p);
    }
  }

  /** The second transaction keeps the store consistent, and every consumed row as it is, exactly when the test
      holds that it does not make. */
  lemma SettleKeepsExactly(w: World, p: nat)
    requires Consistent(w) && MidwayIn(w, p)
    ensures w.pushers[p].batch != []
    ensures Keeps(w, DoSettle(w, p)) <==> Settleable(w, p)
  {
    SettleSettles(w, p);
    if w.pushers[p].spot.Clearing? { ClearingKeepsExactly(w, DoSettle(w, p), p); } else { RecordingKeepsExactly(w, DoSettle(w, p), p); }
  }
}
