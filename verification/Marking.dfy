/** The transaction that follows the kernel's answer: exactly when marking a row keeps the store consistent. */
module Marking {
  import opened Prelude
  import opened Store
  import opened Push
  import opened Pushers
  import opened AnyPushers
  import opened Transactions

  /** The row is in the table, not yet consumed. */
  predicate Unspent(db: Db, row: Row) {
    exists i :: 0 <= i < |db.envelopes| && db.envelopes[i].id == row.id && !Consumed(db.envelopes[i])
  }

  /** The row right before it on its stream was refused. */
  predicate FollowsRefusal(rows: seq<Row>, row: Row) {
    exists j :: 0 <= j < |rows| && SameStream(rows[j], row) && row.record.seqno == rows[j].record.seqno + 1 && WasRefused(rows[j])
  }

  /** The test the transaction does not make: the row is not yet consumed and, where it is refused, its stream is
      not wedged and the row before it was not refused. */
  predicate Markable(db: Db, row: Row, answer: Answer) {
    Unspent(db, row) && (answer.Refused? ==> row.record.stream !in db.wedges && !FollowsRefusal(db.envelopes, row))
  }

  /** The row reads already as this reply would have it: the same instant and reason, or the same error. */
  predicate ReadsSo(db: Db, row: Row, reply: Reply) {
    exists i :: 0 <= i < |db.envelopes| && db.envelopes[i].id == row.id && SaysSo(db.envelopes[i], reply)
  }

  predicate SaysSo(row: Row, reply: Reply) {
    match reply.answer
    case Unreachable(detail) => row.pushError == Some(detail)
    case NotJudged(detail) => row.pushError == Some(detail)
    case Accepted => row.pushedAt == Some(reply.at) && row.pushError.None?
    case Refused(reason, detail) => row.pushedAt == Some(reply.at) && row.pushError == Some(reason + ": " + detail)
  }

  /** Where the row a pusher has on offer stands in the table. */
  lemma OfferedRow(w: World, p: nat) returns (i: nat)
    requires AnyPushers.Inv(w) && p in w.pushers && w.pushers[p].spot.Offering?
    ensures w.pushers[p].batch != [] && i < |w.db.envelopes|
    ensures w.db.envelopes[i].id == w.pushers[p].batch[0].id && w.db.envelopes[i].record == w.pushers[p].batch[0].record
    ensures forall j :: 0 <= j < i && SameStream(w.db.envelopes[j], w.db.envelopes[i]) ==> Consumed(w.db.envelopes[j])
  {
    var rows, pusher := w.db.envelopes, w.pushers[p];
    assert PusherInLine(rows, pusher) && RowInLine(rows, pusher, 0);
    i :| InLine(rows, pusher.batch, 0, i);
    forall j | 0 <= j < i && SameStream(rows[j], rows[i]) ensures Consumed(rows[j]) {
      assert Consumed(rows[j]) || Waits(pusher.batch[..0], rows[j]);
    }
  }

  lemma OneId(db: Db, row: Row, i: nat, reply: Reply)
    requires Ordered(db.envelopes) && i < |db.envelopes| && db.envelopes[i].id == row.id
    ensures Unspent(db, row) <==> !Consumed(db.envelopes[i])
    ensures ReadsSo(db, row, reply) <==> SaysSo(db.envelopes[i], reply)
  {
  }

  // ---- consuming the next row ----

  /** Row `i`, the next of its stream, is consumed, and the pusher is between its two transactions. */
  ghost predicate Marks(w: World, n: World, p: nat, i: nat) {
    && p in w.pushers && !Midway(w.pushers[p]) && p in n.pushers && OnlyMoved(w, n, p) && AnyPushers.Inv(n)
    && NextUp(w.db.envelopes, i) && OnlyRow(w.db.envelopes, n.db.envelopes, i) && Consumed(n.db.envelopes[i])
    && n.db.wedges == w.db.wedges
    && (WasAccepted(n.db.envelopes[i]) ==>
          ClearingOn(n.pushers[p], w.db.envelopes[i].record.stream) && n.pushers[p].batch[0].record == w.db.envelopes[i].record)
    && (WasRefused(n.db.envelopes[i]) ==> Records(n.pushers[p], n.db.envelopes[i]))
  }

  lemma MarkingIsApart(w: World, n: World, p: nat, i: nat)
    requires Firm(w) && Marks(w, n, p, i)
    requires WasRefused(n.db.envelopes[i]) ==> !FollowsRefusal(w.db.envelopes, w.db.envelopes[i])
    ensures RefusalsApart(n.db.envelopes)
  {
    var rows, after := w.db.envelopes, n.db.envelopes;
    forall a, b | 0 <= a < b < |after| && SameStream(after[a], after[b])
      && after[b].record.seqno == after[a].record.seqno + 1 && WasRefused(after[a])
      ensures !WasRefused(after[b])
    {
      if b == i { assert after[a] == rows[a]; }
      else if a == i && Consumed(rows[b]) { assert SameStream(rows[a], rows[b]); }
    }
  }

  lemma MarkingIsFirm(w: World, n: World, p: nat, i: nat)
    requires Firm(w) && Marks(w, n, p, i)
    requires WasRefused(n.db.envelopes[i]) ==> !FollowsRefusal(w.db.envelopes, w.db.envelopes[i])
    ensures Firm(n)
  {
    MarkingIsApart(w, n, p, i);
    FirmStays(w, n, p);
  }

  /** A wedge of the marked stream sits before the marked row. */
  lemma WedgeBefore(w: World, i: nat)
    requires Firm(w) && NextUp(w.db.envelopes, i) && w.db.envelopes[i].record.stream in w.db.wedges
    ensures var wedge := w.db.wedges[w.db.envelopes[i].record.stream];
      wedge.seqno < w.db.envelopes[i].record.seqno && wedge.envelopeId != w.db.envelopes[i].id
  {
    var rows, stream := w.db.envelopes, w.db.envelopes[i].record.stream;
    var j: nat :| j < |rows| && Consumed(rows[j]) && rows[j].record.stream == stream && WedgedAt(w.db.wedges[stream], rows[j]);
    if i < j { assert SameStream(rows[i], rows[j]); }
  }

  lemma MarkedWedges(w: World, n: World, p: nat, i: nat, stream: string)
    requires Consistent(w) && Marks(w, n, p, i) && stream in n.db.wedges
    requires stream == w.db.envelopes[i].record.stream ==> WasAccepted(n.db.envelopes[i])
    ensures WedgeAttended(n, stream)
  {
    var rows, after := w.db.envelopes, n.db.envelopes;
    assert WedgeAttended(w, stream);
    if stream == rows[i].record.stream {
      WedgeBefore(w, i);
      assert ClearsPast(n.pushers[p], stream, n.db.wedges[stream].seqno);
    } else if OnLast(rows, stream, w.db.wedges[stream]) {
      var j: nat :| LastConsumed(rows, j) && rows[j].record.stream == stream && WedgedAt(w.db.wedges[stream], rows[j]);
      ConsumingKeepsPrefix(rows, after, i);
      assert !SameStream(rows[j], rows[i]) && LastConsumed(after, j);
    } else {
      var q :| q in w.pushers && ClearsPast(w.pushers[q], stream, w.db.wedges[stream].seqno);
      assert q in n.pushers && n.pushers[q] == w.pushers[q];
    }
  }

  lemma MarkedRows(w: World, n: World, p: nat, i: nat, j: nat)
    requires Consistent(w) && Marks(w, n, p, i) && LastConsumed(n.db.envelopes, j)
    requires WasRefused(n.db.envelopes[i]) ==> w.db.envelopes[i].record.stream !in w.db.wedges
    ensures RowAttended(n, j)
  {
    var rows, after := w.db.envelopes, n.db.envelopes;
    ConsumingKeepsPrefix(rows, after, i);
    if j == i {
      assert WasRefused(after[i]) ==> Records(n.pushers[p], after[i]);
    } else {
      assert RowAttended(w, j);
      if WasRefused(rows[j]) && SomeoneRecords(w, rows[j]) {
        var q :| q in w.pushers && Records(w.pushers[q], rows[j]);
        assert q in n.pushers && n.pushers[q] == w.pushers[q];
      }
    }
  }

  lemma MarkingKeeps(w: World, n: World, p: nat, i: nat)
    requires Consistent(w) && Marks(w, n, p, i)
    requires WasRefused(n.db.envelopes[i]) ==>
      w.db.envelopes[i].record.stream !in w.db.wedges && !FollowsRefusal(w.db.envelopes, w.db.envelopes[i])
    ensures Consistent(n)
  {
    MarkingIsFirm(w, n, p, i);
    forall stream | stream in n.db.wedges ensures WedgeAttended(n, stream) { MarkedWedges(w, n, p, i, stream); }
    forall j: nat ensures RowAttended(n, j) {
      if LastConsumed(n.db.envelopes, j) { MarkedRows(w, n, p, i, j); }
    }
  }

  lemma RefusingAfterRefusal(rows: seq<Row>, after: seq<Row>, i: nat)
    requires Ordered(rows) && OnlyRow(rows, after, i) && WasRefused(after[i]) && FollowsRefusal(rows, rows[i])
    ensures !RefusalsApart(after)
  {
    var j :| 0 <= j < |rows| && SameStream(rows[j], rows[i]) && rows[i].record.seqno == rows[j].record.seqno + 1 && WasRefused(rows[j]);
    assert j < i by { if i < j { assert SameStream(rows[i], rows[j]); } }
    assert SameStream(after[j], after[i]) && WasRefused(after[j]);
  }

  lemma RefusingBreaks(w: World, n: World, p: nat, i: nat)
    requires Consistent(w) && Marks(w, n, p, i) && WasRefused(n.db.envelopes[i])
    requires w.db.envelopes[i].record.stream in w.db.wedges || FollowsRefusal(w.db.envelopes, w.db.envelopes[i])
    ensures !Consistent(n)
  {
    if FollowsRefusal(w.db.envelopes, w.db.envelopes[i]) {
      RefusingAfterRefusal(w.db.envelopes, n.db.envelopes, i);
    } else {
      WedgeBefore(w, i);
      ConsumingKeepsPrefix(w.db.envelopes, n.db.envelopes, i);
      assert LastConsumed(n.db.envelopes, i) && !RowAttended(n, i);
    }
  }

  // ---- noting an error ----

  lemma TroubledWedges(w: World, n: World, p: nat, i: nat)
    requires Attended(w) && p in w.pushers && !Midway(w.pushers[p]) && OnlyMoved(w, n, p) && n.db.wedges == w.db.wedges
    requires OnlyRow(w.db.envelopes, n.db.envelopes, i) && !Consumed(w.db.envelopes[i]) && !Consumed(n.db.envelopes[i])
    ensures Attended(n)
  {
    var rows, after := w.db.envelopes, n.db.envelopes;
    forall j: nat ensures LastConsumed(after, j) <==> LastConsumed(rows, j) { SameConsumedSameLast(rows, after, j); }
    forall stream | stream in n.db.wedges ensures WedgeAttended(n, stream) {
      assert WedgeAttended(w, stream);
      if OnLast(rows, stream, w.db.wedges[stream]) {
        var j: nat :| LastConsumed(rows, j) && rows[j].record.stream == stream && WedgedAt(w.db.wedges[stream], rows[j]);
        assert LastConsumed(after, j) && after[j] == rows[j];
      } else {
        var q :| q in w.pushers && ClearsPast(w.pushers[q], stream, w.db.wedges[stream].seqno);
        assert q in n.pushers && n.pushers[q] == w.pushers[q];
      }
    }
    forall j: nat ensures RowAttended(n, j) {
      assert RowAttended(w, j);
      if LastConsumed(rows, j) && SomeoneRecords(w, rows[j]) {
        var q :| q in w.pushers && Records(w.pushers[q], rows[j]);
        assert q in n.pushers && n.pushers[q] == w.pushers[q];
      }
    }
  }

  lemma TroublingKeeps(w: World, n: World, p: nat, i: nat)
    requires Consistent(w) && p in w.pushers && !Midway(w.pushers[p]) && p !in n.pushers && OnlyMoved(w, n, p)
    requires n.db.wedges == w.db.wedges && AnyPushers.Inv(n)
    requires OnlyRow(w.db.envelopes, n.db.envelopes, i) && !Consumed(w.db.envelopes[i]) && !Consumed(n.db.envelopes[i])
    ensures Consistent(n)
  {
    TroubledWedges(w, n, p, i);
    UnconsumedKeepsShape(w.db.envelopes, n.db.envelopes, i);
    FirmStays(w, n, p);
  }

  // ---- the kernel's answer ----

  /** What an answer that judges nothing does. */
  lemma UnjudgedKeepsExactly(w: World, p: nat, reply: Reply, i: nat)
    requires Consistent(w) && p in w.pushers && w.pushers[p].spot.Offering? && w.pushers[p].batch != []
    requires i < |w.db.envelopes| && w.db.envelopes[i].id == w.pushers[p].batch[0].id
    requires reply.answer.Unreachable? || reply.answer.NotJudged?
    ensures Keeps(w, DoHear(w, p, reply)) <==> !Consumed(w.db.envelopes[i]) || SaysSo(w.db.envelopes[i], reply)
  {
    var n := DoHear(w, p, reply);
    AnyPushers.HearKeepsInv(w, p, reply);
    TroublingIsOneRow(w.db, i, reply.answer.detail);
    if !Consumed(w.db.envelopes[i]) {
      TroublingKeeps(w, n, p, i);
    } else if SaysSo(w.db.envelopes[i], reply) {
      assert n.db.envelopes == w.db.envelopes;
      JoiningKeeps(w, n, p);
    }
  }

  /** An answer that marks the row. */
  predicate MarksRow(pusher: Pusher, answer: Answer) {
    answer.Accepted? || (answer.Refused? && !(pusher.spot.Offering? && pusher.spot.standing))
  }

  function ErrorOf(answer: Answer): Option<string> {
    match answer
    case Refused(reason, detail) => Some(reason + ": " + detail)
    case _ => None
  }

  lemma HearMarks(w: World, p: nat, reply: Reply)
    requires p in w.pushers && w.pushers[p].spot.Offering? && w.pushers[p].batch != [] && MarksRow(w.pushers[p], reply.answer)
    ensures var n, row := DoHear(w, p, reply), w.pushers[p].batch[0];
      && n.db == MarkPushed(w.db, row.id, reply.at, ErrorOf(reply.answer)) && OnlyMoved(w, n, p) && p in n.pushers
      && n.pushers[p].batch == w.pushers[p].batch
      && if reply.answer.Accepted? then n.pushers[p].spot.Clearing?
         else n.pushers[p].spot == Wedging(WedgeFor(row, reply.answer.reason, reply.answer.detail, reply.later))
  {
  }

  lemma JudgedIsMark(w: World, p: nat, reply: Reply, i: nat)
    requires AnyPushers.Inv(w) && p in w.pushers && w.pushers[p].spot.Offering? && w.pushers[p].batch != []
    requires NextUp(w.db.envelopes, i) && w.db.envelopes[i].id == w.pushers[p].batch[0].id
    requires w.db.envelopes[i].record == w.pushers[p].batch[0].record && MarksRow(w.pushers[p], reply.answer)
    ensures Marks(w, DoHear(w, p, reply), p, i)
    ensures WasRefused(DoHear(w, p, reply).db.envelopes[i]) <==> reply.answer.Refused?
  {
    HearMarks(w, p, reply);
    AnyPushers.HearKeepsInv(w, p, reply);
    MarkingIsOneRow(w.db, i, reply.at, ErrorOf(reply.answer));
  }

  /** A consumed row marked just as it reads. */
  lemma MarkedAgainKeeps(w: World, p: nat, reply: Reply, i: nat)
    requires Consistent(w) && p in w.pushers && w.pushers[p].spot.Offering? && w.pushers[p].batch != []
    requires i < |w.db.envelopes| && w.db.envelopes[i].id == w.pushers[p].batch[0].id
    requires w.db.envelopes[i].record == w.pushers[p].batch[0].record && MarksRow(w.pushers[p], reply.answer)
    requires SaysSo(w.db.envelopes[i], reply)
    ensures Keeps(w, DoHear(w, p, reply))
  {
    var n := DoHear(w, p, reply);
    HearMarks(w, p, reply);
    AnyPushers.HearKeepsInv(w, p, reply);
    MarkingIsOneRow(w.db, i, reply.at, ErrorOf(reply.answer));
    assert n.db.envelopes == w.db.envelopes;
    if reply.answer.Refused? { assert Records(n.pushers[p], n.db.envelopes[i]); }
    JoiningKeeps(w, n, p);
  }

  lemma JudgedKeepsExactly(w: World, p: nat, reply: Reply, i: nat)
    requires Consistent(w) && p in w.pushers && w.pushers[p].spot.Offering? && w.pushers[p].batch != []
    requires i < |w.db.envelopes| && w.db.envelopes[i].id == w.pushers[p].batch[0].id
    requires w.db.envelopes[i].record == w.pushers[p].batch[0].record && MarksRow(w.pushers[p], reply.answer)
    requires !Consumed(w.db.envelopes[i]) ==> NextUp(w.db.envelopes, i)
    ensures Keeps(w, DoHear(w, p, reply)) <==> Markable(w.db, w.pushers[p].batch[0], reply.answer) || SaysSo(w.db.envelopes[i], reply)
  {
    var n, row := DoHear(w, p, reply), w.pushers[p].batch[0];
    OneId(w.db, row, i, reply);
    if !Consumed(w.db.envelopes[i]) {
      JudgedIsMark(w, p, reply, i);
      assert FollowsRefusal(w.db.envelopes, row) <==> FollowsRefusal(w.db.envelopes, w.db.envelopes[i]);
      if Markable(w.db, row, reply.answer) { MarkingKeeps(w, n, p, i); } else { RefusingBreaks(w, n, p, i); }
    } else if SaysSo(w.db.envelopes[i], reply) {
      MarkedAgainKeeps(w, p, reply, i);
    } else {
      HearMarks(w, p, reply);
      MarkingIsOneRow(w.db, i, reply.at, ErrorOf(reply.answer));
      assert n.db.envelopes[i] != w.db.envelopes[i];
    }
  }

  /** The transaction that follows the kernel's answer keeps the store consistent, and every consumed row as it is,
      exactly when it leaves the row alone, or the test holds that it does not make, or the row reads so already. */
  lemma HearKeepsExactly(w: World, p: nat, reply: Reply)
    requires Consistent(w) && p in w.pushers && w.pushers[p].spot.Offering?
    ensures w.pushers[p].batch != []
    ensures var row := w.pushers[p].batch[0];
      Keeps(w, DoHear(w, p, reply)) <==>
        || (reply.answer.Refused? && w.pushers[p].spot.standing)
        || Markable(w.db, row, reply.answer)
        || ReadsSo(w.db, row, reply)
  {
    var i := OfferedRow(w, p);
    OneId(w.db, w.pushers[p].batch[0], i, reply);
    if reply.answer.Unreachable? || reply.answer.NotJudged? {
      UnjudgedKeepsExactly(w, p, reply, i);
    } else if MarksRow(w.pushers[p], reply.answer) {
      JudgedKeepsExactly(w, p, reply, i);
    } else {
      AnyPushers.HearKeepsInv(w, p, reply);
      JoiningKeeps(w, DoHear(w, p, reply), p);
    }
  }
}
