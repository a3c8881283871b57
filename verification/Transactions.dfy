/** One transaction of one pusher among any number of them: exactly when it keeps the store consistent, up to
    what pushers between their two transactions are still to do. */
module Transactions {
  import opened Prelude
  import opened Store
  import opened Push
  import opened Pushers
  import opened AnyPushers

  /** Accepted past this position of the stream, and about to clear its wedge. */
  predicate ClearsPast(pusher: Pusher, stream: string, seqno: nat) {
    ClearingOn(pusher, stream) && pusher.batch[0].record.seqno > seqno
  }

  /** Refused at this row, and about to record its wedge. */
  predicate Records(pusher: Pusher, row: Row) {
    pusher.spot.Wedging? && pusher.batch != [] && pusher.batch[0].record.stream == row.record.stream && WedgedAt(pusher.spot.wedge, row)
  }

  ghost predicate SomeoneClears(w: World, stream: string, seqno: nat) {
    exists q :: q in w.pushers && ClearsPast(w.pushers[q], stream, seqno)
  }

  ghost predicate SomeoneRecords(w: World, row: Row) {
    exists q :: q in w.pushers && Records(w.pushers[q], row)
  }

  /** The wedge sits on a consumed row of its stream, with that row's reason. */
  ghost predicate OnRefused(rows: seq<Row>, stream: string, w: Wedge) {
    exists i: nat :: i < |rows| && Consumed(rows[i]) && rows[i].record.stream == stream && WedgedAt(w, rows[i])
  }

  ghost predicate InHand(rows: seq<Row>, pusher: Pusher) {
    pusher.spot.Wedging? ==> exists i: nat :: i < |rows| && Consumed(rows[i]) && Records(pusher, rows[i])
  }

  /** What the table says of refusals stands: none is adjacent to another, and every wedge, recorded or in hand,
      sits on a row refused with its reason. */
  ghost predicate Firm(w: World) {
    && AnyPushers.Inv(w) && RefusalsApart(w.db.envelopes)
    && (forall stream :: stream in w.db.wedges ==> OnRefused(w.db.envelopes, stream, w.db.wedges[stream]))
    && (forall p :: p in w.pushers ==> InHand(w.db.envelopes, w.pushers[p]))
  }

  /** A wedge sits on the last consumed row of its stream, or somebody is about to clear it. */
  ghost predicate WedgeAttended(w: World, stream: string)
    requires stream in w.db.wedges
  {
    OnLast(w.db.envelopes, stream, w.db.wedges[stream]) || SomeoneClears(w, stream, w.db.wedges[stream].seqno)
  }

  /** The wedge of a last consumed row that was refused is recorded, or somebody is about to record it. */
  ghost predicate RowAttended(w: World, i: nat) {
    LastConsumed(w.db.envelopes, i) && WasRefused(w.db.envelopes[i]) ==>
      var row := w.db.envelopes[i];
      if row.record.stream in w.db.wedges then WedgedAt(w.db.wedges[row.record.stream], row) else SomeoneRecords(w, row)
  }

  ghost predicate Attended(w: World) {
    && (forall stream :: stream in w.db.wedges ==> WedgeAttended(w, stream))
    && (forall i: nat :: RowAttended(w, i))
  }

  /** The store is consistent, up to what pushers between their two transactions are still to do. */
  ghost predicate Consistent(w: World) {
    Firm(w) && Attended(w)
  }

  lemma MidwayRecordsNothing(w: World)
    requires NobodyMidway(w)
    ensures forall stream, seqno :: !SomeoneClears(w, stream, seqno)
    ensures forall row :: !SomeoneRecords(w, row)
  {
  }

  /** With nobody between two transactions that is consistency of the store, no more and no less. */
  lemma SettledExactly(w: World)
    requires AnyPushers.Inv(w) && NobodyMidway(w)
    ensures Consistent(w) <==> Push.Inv(w.db)
  {
    MidwayRecordsNothing(w);
    if Consistent(w) {
      forall i: nat | LastConsumed(w.db.envelopes, i) && WasRefused(w.db.envelopes[i])
        ensures w.db.envelopes[i].record.stream in w.db.wedges
      {
        assert RowAttended(w, i);
      }
      forall stream | stream in w.db.wedges ensures OnLast(w.db.envelopes, stream, w.db.wedges[stream]) {
        assert WedgeAttended(w, stream);
      }
    }
    if Push.Inv(w.db) { ExactIsAttended(w); }
  }

  lemma ExactIsAttended(w: World)
    requires AnyPushers.Inv(w) && NobodyMidway(w) && Push.Inv(w.db)
    ensures Consistent(w)
  {
    var rows := w.db.envelopes;
    forall stream | stream in w.db.wedges
      ensures WedgeAttended(w, stream) && OnRefused(rows, stream, w.db.wedges[stream])
    {
      var i: nat :| LastConsumed(rows, i) && rows[i].record.stream == stream && WedgedAt(w.db.wedges[stream], rows[i]);
    }
    forall i: nat ensures RowAttended(w, i) {
      if LastConsumed(rows, i) && WasRefused(rows[i]) {
        var stream := rows[i].record.stream;
        assert OnLast(rows, stream, w.db.wedges[stream]);
        var j: nat :| LastConsumed(rows, j) && rows[j].record.stream == stream && WedgedAt(w.db.wedges[stream], rows[j]);
        LastIsOne(rows, i, j);
      }
    }
  }

  lemma LastIsOne(rows: seq<Row>, i: nat, j: nat)
    requires LastConsumed(rows, i) && LastConsumed(rows, j) && SameStream(rows[i], rows[j])
    ensures i == j
  {
    assert SameStream(rows[j], rows[i]);
  }

  // ---- what a transaction may not do ----

  /** Rows once consumed read as they did. */
  ghost predicate Unrewritten(rows: seq<Row>, after: seq<Row>) {
    |rows| <= |after| && forall i :: 0 <= i < |rows| && Consumed(rows[i]) ==> after[i] == rows[i]
  }

  ghost predicate Keeps(w: World, n: World) {
    Consistent(n) && Unrewritten(w.db.envelopes, n.db.envelopes)
  }

  /** Only this pusher has moved. */
  ghost predicate OnlyMoved(w: World, n: World, p: nat) {
    forall q :: q != p ==> (q in n.pushers <==> q in w.pushers) && (q in w.pushers ==> n.pushers[q] == w.pushers[q])
  }

  ghost predicate MidwayIn(w: World, p: nat) {
    p in w.pushers && Midway(w.pushers[p])
  }

  lemma RefusedStays(rows: seq<Row>, after: seq<Row>, stream: string, w: Wedge)
    requires Unrewritten(rows, after) && OnRefused(rows, stream, w)
    ensures OnRefused(after, stream, w)
  {
    var i: nat :| i < |rows| && Consumed(rows[i]) && rows[i].record.stream == stream && WedgedAt(w, rows[i]);
    assert after[i] == rows[i];
  }

  lemma HandStays(rows: seq<Row>, after: seq<Row>, pusher: Pusher)
    requires Unrewritten(rows, after) && InHand(rows, pusher)
    ensures InHand(after, pusher)
  {
    if pusher.spot.Wedging? {
      var i: nat :| i < |rows| && Consumed(rows[i]) && Records(pusher, rows[i]);
      assert after[i] == rows[i];
    }
  }

  /** What was firm stays so where no consumed row is rewritten. */
  lemma FirmStays(w: World, n: World, p: nat)
    requires Firm(w) && AnyPushers.Inv(n) && RefusalsApart(n.db.envelopes) && Unrewritten(w.db.envelopes, n.db.envelopes)
    requires OnlyMoved(w, n, p) && (p in n.pushers ==> InHand(n.db.envelopes, n.pushers[p]))
    requires forall stream :: stream in n.db.wedges ==>
      OnRefused(n.db.envelopes, stream, n.db.wedges[stream])
      || (stream in w.db.wedges && SameRefusal(w.db.wedges[stream], n.db.wedges[stream]))
    ensures Firm(n)
  {
    var rows, after := w.db.envelopes, n.db.envelopes;
    forall stream | stream in n.db.wedges ensures OnRefused(after, stream, n.db.wedges[stream]) {
      if stream in w.db.wedges && SameRefusal(w.db.wedges[stream], n.db.wedges[stream]) {
        RefusedStays(rows, after, stream, w.db.wedges[stream]);
        var i: nat :| i < |after| && Consumed(after[i]) && after[i].record.stream == stream && WedgedAt(w.db.wedges[stream], after[i]);
        assert WedgedAt(n.db.wedges[stream], after[i]);
      }
    }
    forall q | q in n.pushers ensures InHand(after, n.pushers[q]) {
      if q != p { HandStays(rows, after, w.pushers[q]); }
    }
  }

  // ---- pushers that come and go ----

  /** More pushers midway do no harm. */
  lemma JoiningKeeps(w: World, n: World, p: nat)
    requires Consistent(w) && n.db == w.db && OnlyMoved(w, n, p) && !MidwayIn(w, p)
    requires AnyPushers.Inv(n) && (p in n.pushers ==> InHand(n.db.envelopes, n.pushers[p]))
    ensures Consistent(n)
  {
    FirmStays(w, n, p);
    forall stream | stream in n.db.wedges ensures WedgeAttended(n, stream) {
      assert WedgeAttended(w, stream);
      if SomeoneClears(w, stream, w.db.wedges[stream].seqno) {
        var q :| q in w.pushers && ClearsPast(w.pushers[q], stream, w.db.wedges[stream].seqno);
        assert q in n.pushers && n.pushers[q] == w.pushers[q];
      }
    }
    forall i: nat ensures RowAttended(n, i) {
      assert RowAttended(w, i);
      if LastConsumed(w.db.envelopes, i) && SomeoneRecords(w, w.db.envelopes[i]) {
        var q :| q in w.pushers && Records(w.pushers[q], w.db.envelopes[i]);
        assert q in n.pushers && n.pushers[q] == w.pushers[q];
      }
    }
  }

  ghost predicate OtherClears(w: World, p: nat, stream: string, seqno: nat) {
    exists q :: q in w.pushers && q != p && ClearsPast(w.pushers[q], stream, seqno)
  }

  /** The row, as somebody's batch has it, is the last its stream had consumed. */
  predicate IsLast(rows: seq<Row>, row: Row) {
    exists i :: 0 <= i < |rows| && rows[i].id == row.id && Consumed(rows[i])
      && forall j :: i < j < |rows| && SameStream(rows[i], rows[j]) ==> !Consumed(rows[j])
  }

  /** Nobody needs this pusher's second transaction. */
  ghost predicate Spared(w: World, p: nat)
    requires MidwayIn(w, p) && w.pushers[p].batch != []
  {
    var row := w.pushers[p].batch[0];
    var stream := row.record.stream;
    match w.pushers[p].spot
    case Clearing =>
      || stream !in w.db.wedges || OnLast(w.db.envelopes, stream, w.db.wedges[stream])
      || OtherClears(w, p, stream, w.db.wedges[stream].seqno)
    case Wedging(wedge) =>
      || stream in w.db.wedges || !IsLast(w.db.envelopes, row)
      || (exists q :: q in w.pushers && q != p && w.pushers[q].spot.Wedging? && w.pushers[q].batch != []
                      && w.pushers[q].batch[0].record.stream == stream && w.pushers[q].spot.wedge.envelopeId == wedge.envelopeId)
  }

  /** The row a pusher's wedge in hand sits on is its own first row. */
  lemma HandIsHead(w: World, p: nat) returns (i: nat)
    requires Firm(w) && p in w.pushers && w.pushers[p].spot.Wedging?
    ensures i < |w.db.envelopes| && Consumed(w.db.envelopes[i]) && WasRefused(w.db.envelopes[i])
    ensures w.pushers[p].batch != [] && w.db.envelopes[i].id == w.pushers[p].batch[0].id == w.pushers[p].spot.wedge.envelopeId
    ensures w.db.envelopes[i].record == w.pushers[p].batch[0].record && Records(w.pushers[p], w.db.envelopes[i])
  {
    var rows, pusher := w.db.envelopes, w.pushers[p];
    assert InHand(rows, pusher) && WedgeInHand(pusher) && PusherInLine(rows, pusher);
    i :| i < |rows| && Consumed(rows[i]) && Records(pusher, rows[i]);
    assert HeadConsumed(rows, pusher);
    var k: nat :| k < |rows| && rows[k].id == pusher.batch[0].id && rows[k].record == pusher.batch[0].record && Consumed(rows[k]);
    assert k == i;
  }

  lemma LastIs(rows: seq<Row>, row: Row, i: nat)
    requires Ordered(rows) && i < |rows| && rows[i].id == row.id
    ensures IsLast(rows, row) <==> LastConsumed(rows, i)
  {
  }

  /** Two wedges in hand that name one row sit on one row. */
  lemma SameHand(w: World, q: nat, i: nat)
    requires Firm(w) && q in w.pushers && w.pushers[q].spot.Wedging? && i < |w.db.envelopes|
    ensures Records(w.pushers[q], w.db.envelopes[i]) <==>
      w.pushers[q].batch != [] && w.pushers[q].spot.wedge.envelopeId == w.db.envelopes[i].id
      && w.pushers[q].batch[0].record.stream == w.db.envelopes[i].record.stream
  {
    var k := HandIsHead(w, q);
    if w.db.envelopes[k].id == w.db.envelopes[i].id { assert k == i; }
  }

  /** A pusher that leaves between its two transactions, by a crash or by passing the second over. */
  ghost predicate Leaves(w: World, n: World, p: nat) {
    MidwayIn(w, p) && !MidwayIn(n, p) && n.db == w.db && OnlyMoved(w, n, p) && AnyPushers.Inv(n)
  }

  lemma LeavingClearer(w: World, n: World, p: nat)
    requires Consistent(w) && Leaves(w, n, p) && w.pushers[p].spot.Clearing? && w.pushers[p].batch != []
    ensures Attended(n) <==> Spared(w, p)
  {
    var own := w.pushers[p].batch[0].record.stream;
    forall stream, seqno ensures SomeoneClears(n, stream, seqno) <==> OtherClears(w, p, stream, seqno) {
      if SomeoneClears(n, stream, seqno) {
        var q :| q in n.pushers && ClearsPast(n.pushers[q], stream, seqno);
        assert q != p && ClearsPast(w.pushers[q], stream, seqno);
      }
      if OtherClears(w, p, stream, seqno) {
        var q :| q in w.pushers && q != p && ClearsPast(w.pushers[q], stream, seqno);
        assert q in n.pushers && ClearsPast(n.pushers[q], stream, seqno);
      }
    }
    forall i: nat ensures RowAttended(n, i) { LeftRows(w, n, p, i); }
    forall stream | stream in n.db.wedges && stream != own ensures WedgeAttended(n, stream) {
      assert WedgeAttended(w, stream);
    }
    assert own in n.db.wedges ==> (WedgeAttended(n, own) <==> Spared(w, p));
  }

  lemma LeftWedges(w: World, n: World, p: nat)
    requires Attended(w) && Leaves(w, n, p) && w.pushers[p].spot.Wedging?
    ensures forall stream :: stream in n.db.wedges ==> WedgeAttended(n, stream)
  {
    forall stream | stream in n.db.wedges ensures WedgeAttended(n, stream) {
      assert WedgeAttended(w, stream);
      if SomeoneClears(w, stream, w.db.wedges[stream].seqno) {
        var q :| q in w.pushers && ClearsPast(w.pushers[q], stream, w.db.wedges[stream].seqno);
        assert q != p && n.pushers[q] == w.pushers[q];
      }
    }
  }

  lemma LeftRows(w: World, n: World, p: nat, i: nat)
    requires Attended(w) && Leaves(w, n, p)
    requires LastConsumed(w.db.envelopes, i) ==> !Records(w.pushers[p], w.db.envelopes[i])
    ensures RowAttended(n, i)
  {
    assert RowAttended(w, i);
    if LastConsumed(w.db.envelopes, i) && SomeoneRecords(w, w.db.envelopes[i]) {
      var q :| q in w.pushers && Records(w.pushers[q], w.db.envelopes[i]);
      assert q != p && n.pushers[q] == w.pushers[q];
    }
  }

  lemma LeavingRecorder(w: World, n: World, p: nat)
    requires Consistent(w) && Leaves(w, n, p) && w.pushers[p].spot.Wedging? && w.pushers[p].batch != []
    ensures Attended(n) <==> Spared(w, p)
  {
    var rows := w.db.envelopes;
    var k := HandIsHead(w, p);
    LastIs(rows, w.pushers[p].batch[0], k);
    LeftWedges(w, n, p);
    forall i: nat | i != k ensures RowAttended(n, i) {
      if LastConsumed(rows, i) { SameHand(w, p, i); }
      LeftRows(w, n, p, i);
    }
    LeftRecorder(w, n, p, k);
    assert RowAttended(w, k);
    assert RowAttended(n, k) <==> Spared(w, p);
  }

  lemma LeftRecorder(w: World, n: World, p: nat, k: nat)
    requires Firm(w) && Leaves(w, n, p) && w.pushers[p].spot.Wedging? && w.pushers[p].batch != []
    requires k < |w.db.envelopes| && w.db.envelopes[k].id == w.pushers[p].spot.wedge.envelopeId
    requires w.db.envelopes[k].record == w.pushers[p].batch[0].record
    ensures SomeoneRecords(n, w.db.envelopes[k]) <==>
      exists q :: q in w.pushers && q != p && w.pushers[q].spot.Wedging? && w.pushers[q].batch != []
                  && w.pushers[q].batch[0].record.stream == w.pushers[p].batch[0].record.stream
                  && w.pushers[q].spot.wedge.envelopeId == w.pushers[p].spot.wedge.envelopeId
  {
    if SomeoneRecords(n, w.db.envelopes[k]) {
      var q :| q in n.pushers && Records(n.pushers[q], w.db.envelopes[k]);
      assert q != p && w.pushers[q] == n.pushers[q];
      SameHand(w, q, k);
    }
    if q :| q in w.pushers && q != p && w.pushers[q].spot.Wedging? && w.pushers[q].batch != []
            && w.pushers[q].batch[0].record.stream == w.pushers[p].batch[0].record.stream
            && w.pushers[q].spot.wedge.envelopeId == w.pushers[p].spot.wedge.envelopeId {
      SameHand(w, q, k);
      assert n.pushers[q] == w.pushers[q];
    }
  }

  lemma LeavingKeepsExactly(w: World, n: World, p: nat)
    requires Consistent(w) && Leaves(w, n, p)
    ensures w.pushers[p].batch != [] && (Consistent(n) <==> Spared(w, p))
  {
    assert PusherInLine(w.db.envelopes, w.pushers[p]);
    FirmStays(w, n, p);
    if w.pushers[p].spot.Clearing? { LeavingClearer(w, n, p); } else { LeavingRecorder(w, n, p); }
  }

  /** A pusher may die anywhere but between its two transactions, and there exactly when nobody needs its second. */
  lemma CrashKeepsExactly(w: World, p: nat)
    requires Consistent(w) && p in w.pushers
    ensures MidwayIn(w, p) ==> w.pushers[p].batch != []
    ensures Keeps(w, End(w, p)) <==> MidwayIn(w, p) ==> Spared(w, p)
  {
    if MidwayIn(w, p) { LeavingKeepsExactly(w, End(w, p), p); } else { JoiningKeeps(w, End(w, p), p); }
  }
}
