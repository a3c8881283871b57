/** Pushing the local chain to the kernel: acceptance, refusal, and the wedge a refusal leaves. */
module Push {
  import opened Prelude
  import opened Store

  /** What the kernel may answer to one submission. */
  datatype Answer = Unreachable(detail: string) | Accepted | NotJudged(detail: string) | Refused(reason: string, detail: string)

  /** An answer, with the clock as it is read for marking the row and then for recording a wedge. */
  datatype Reply = Reply(answer: Answer, at: string, later: string)

  /** A push cycle under way: the streams held since a refusal, and whether it has stopped. */
  datatype Cycle = Cycle(db: Db, wedged: set<string>, stopped: bool)

  predicate Consumed(row: Row) {
    row.pushedAt.Some?
  }

  predicate WasRefused(row: Row) {
    row.pushedAt.Some? && row.pushError.Some?
  }

  predicate WasAccepted(row: Row) {
    row.pushedAt.Some? && row.pushError.None?
  }

  function WedgeFor(row: Row, reason: string, detail: string, at: string): Wedge {
    Wedge(row.id, row.record.seqno, reason, detail, at, 0)
  }

  /** Acceptance: consume the row and end the refused state. */
  function Accepting(db: Db, row: Row, at: string): Db {
    ClearWedge(MarkPushed(db, row.id, at, None), row.record.stream)
  }

  /** Refusal: consume the row with its reason and wedge the stream there. */
  function Refusing(db: Db, row: Row, reason: string, detail: string, at: string, later: string): Db {
    RecordWedge(MarkPushed(db, row.id, at, Some(reason + ": " + detail)), row.record.stream, WedgeFor(row, reason, detail, later))
  }

  /** One row of a cycle, both of its transactions, as when nobody else pushes. */
  function PushOne(c: Cycle, row: Row, reply: Reply): Cycle {
    var stream := row.record.stream;
    if stream in c.wedged then c
    else
      match reply.answer
      case Unreachable(detail) => c.(db := MarkPushError(c.db, row.id, detail), stopped := true)
      case Accepted => c.(db := Accepting(c.db, row, reply.at))
      case NotJudged(detail) => c.(db := MarkPushError(c.db, row.id, detail), stopped := true)
      case Refused(reason, detail) =>
        if stream in c.db.wedges then c.(wedged := c.wedged + {stream})
        else c.(db := Refusing(c.db, row, reason, detail, reply.at, reply.later), wedged := c.wedged + {stream})
  }

  // ---- the invariant ----

  predicate SameStream(a: Row, b: Row) {
    a.record.stream == b.record.stream
  }

  /** Table order is chain order, and ids are unique. */
  ghost predicate Ordered(rows: seq<Row>) {
    && (forall i, j :: 0 <= i < j < |rows| && SameStream(rows[i], rows[j]) ==> rows[i].record.seqno < rows[j].record.seqno)
    && (forall i, j :: 0 <= i < j < |rows| ==> rows[i].id != rows[j].id)
  }

  /** Each stream's consumed rows come before its others. */
  ghost predicate Prefixed(rows: seq<Row>) {
    forall i, j :: 0 <= i < j < |rows| && SameStream(rows[i], rows[j]) && Consumed(rows[j]) ==> Consumed(rows[i])
  }

  /** Row `i` is the last its stream had consumed. */
  ghost predicate LastConsumed(rows: seq<Row>, i: nat) {
    && i < |rows| && Consumed(rows[i])
    && forall j :: i < j < |rows| && SameStream(rows[i], rows[j]) ==> !Consumed(rows[j])
  }

  predicate WedgedAt(w: Wedge, row: Row) {
    && w.envelopeId == row.id && w.seqno == row.record.seqno
    && row.pushError == Some(w.reason + ": " + w.detail)
  }

  /** The wedge sits on its stream's last consumed row. */
  ghost predicate OnLast(rows: seq<Row>, stream: string, w: Wedge) {
    exists i: nat :: LastConsumed(rows, i) && rows[i].record.stream == stream && WedgedAt(w, rows[i])
  }

  /** A stream is wedged exactly while its last consumed row was refused, and exactly there. */
  ghost predicate WedgesExact(db: Db) {
    && (forall stream :: stream in db.wedges ==> OnLast(db.envelopes, stream, db.wedges[stream]))
    && (forall i: nat :: LastConsumed(db.envelopes, i) && WasRefused(db.envelopes[i]) ==>
          db.envelopes[i].record.stream in db.wedges)
  }

  /** The row after a refused one was accepted, if it was consumed at all. */
  ghost predicate RefusalsApart(rows: seq<Row>) {
    forall i, j :: 0 <= i < j < |rows| && SameStream(rows[i], rows[j])
                   && rows[j].record.seqno == rows[i].record.seqno + 1 && WasRefused(rows[i]) ==>
      !WasRefused(rows[j])
  }

  ghost predicate Inv(db: Db) {
    Ordered(db.envelopes) && Prefixed(db.envelopes) && WedgesExact(db) && RefusalsApart(db.envelopes)
  }

  /** Table row `i` is the next its stream has to push. */
  ghost predicate NextUp(rows: seq<Row>, i: nat) {
    && i < |rows| && !Consumed(rows[i])
    && forall j :: 0 <= j < i && SameStream(rows[j], rows[i]) ==> Consumed(rows[j])
  }

  // ---- one transaction at a time ----

  /** The table after row `i`, and no other, is rewritten. */
  ghost predicate OnlyRow(rows: seq<Row>, after: seq<Row>, i: nat) {
    && i < |rows| == |after|
    && after[i].id == rows[i].id && after[i].record == rows[i].record
    && forall j :: 0 <= j < |rows| && j != i ==> after[j] == rows[j]
  }

  lemma MarkingIsOneRow(db: Db, i: nat, at: string, error: Option<string>)
    requires Ordered(db.envelopes) && i < |db.envelopes|
    ensures var after := MarkPushed(db, db.envelopes[i].id, at, error).envelopes;
      OnlyRow(db.envelopes, after, i) && after[i].pushedAt == Some(at) && after[i].pushError == error
  {
  }

  lemma TroublingIsOneRow(db: Db, i: nat, detail: string)
    requires Ordered(db.envelopes) && i < |db.envelopes|
    ensures var after := MarkPushError(db, db.envelopes[i].id, detail).envelopes;
      OnlyRow(db.envelopes, after, i) && after[i].pushedAt == db.envelopes[i].pushedAt
  {
  }

  lemma OneRowKeepsOrder(rows: seq<Row>, after: seq<Row>, i: nat)
    requires Ordered(rows) && OnlyRow(rows, after, i)
    ensures Ordered(after)
  {
  }

  /** Consuming the next row leaves a longer prefix, of which it is the last. */
  lemma ConsumingKeepsPrefix(rows: seq<Row>, after: seq<Row>, i: nat)
    requires Ordered(rows) && Prefixed(rows) && NextUp(rows, i) && OnlyRow(rows, after, i) && Consumed(after[i])
    ensures Prefixed(after) && LastConsumed(after, i)
    ensures forall j: nat :: j < |rows| && !SameStream(rows[j], rows[i]) ==>
      (LastConsumed(after, j) <==> LastConsumed(rows, j))
    ensures forall j: nat :: LastConsumed(after, j) && SameStream(after[j], after[i]) ==> j == i
  {
    forall j: nat | j < |rows| && !SameStream(rows[j], rows[i]) && LastConsumed(after, j) ensures LastConsumed(rows, j) {
      forall k | j < k < |rows| && SameStream(rows[j], rows[k]) ensures !Consumed(rows[k]) {
        assert SameStream(after[j], after[k]);
      }
    }
    forall j: nat | j < |rows| && !SameStream(rows[j], rows[i]) && LastConsumed(rows, j) ensures LastConsumed(after, j) {
      forall k | j < k < |rows| && SameStream(after[j], after[k]) ensures !Consumed(after[k]) {
        assert SameStream(rows[j], rows[k]);
      }
    }
  }

  /** The last consumed row of the stream whose next row is `i`, if that stream has one. */
  lemma PredecessorIsLast(rows: seq<Row>, i: nat, p: nat)
    requires Ordered(rows) && Prefixed(rows) && NextUp(rows, i) && p < i && SameStream(rows[p], rows[i])
    requires rows[i].record.seqno == rows[p].record.seqno + 1
    ensures LastConsumed(rows, p)
  {
    forall j | p < j < |rows| && SameStream(rows[p], rows[j]) ensures !Consumed(rows[j]) {
      assert rows[p].record.seqno < rows[j].record.seqno;
      assert SameStream(rows[i], rows[j]) && SameStream(rows[j], rows[i]);
    }
  }

  lemma AcceptingKeepsInv(db: Db, i: nat, at: string)
    requires Inv(db) && NextUp(db.envelopes, i)
    ensures Inv(Accepting(db, db.envelopes[i], at))
  {
    var rows, n := db.envelopes, Accepting(db, db.envelopes[i], at);
    MarkingIsOneRow(db, i, at, None);
    OneRowKeepsOrder(rows, n.envelopes, i);
    ConsumingKeepsPrefix(rows, n.envelopes, i);
    OtherWedgesStand(db, n, i);
    ApartAfterAcceptance(rows, n.envelopes, i);
  }

  lemma ApartAfterAcceptance(rows: seq<Row>, after: seq<Row>, i: nat)
    requires RefusalsApart(rows) && OnlyRow(rows, after, i) && !WasRefused(after[i])
    ensures RefusalsApart(after)
  {
  }

  /** Wedges of other streams stay exact. */
  lemma OtherWedgesStand(db: Db, n: Db, i: nat)
    requires WedgesExact(db) && i < |db.envelopes| && OnlyRow(db.envelopes, n.envelopes, i)
    requires forall j: nat :: j < |db.envelopes| && !SameStream(db.envelopes[j], db.envelopes[i]) ==>
      (LastConsumed(n.envelopes, j) <==> LastConsumed(db.envelopes, j))
    requires n.wedges - {db.envelopes[i].record.stream} == db.wedges - {db.envelopes[i].record.stream}
    ensures forall stream :: stream in n.wedges && stream != db.envelopes[i].record.stream ==>
      OnLast(n.envelopes, stream, n.wedges[stream])
    ensures forall j: nat :: LastConsumed(n.envelopes, j) && WasRefused(n.envelopes[j])
                             && !SameStream(db.envelopes[j], db.envelopes[i]) ==>
      n.envelopes[j].record.stream in n.wedges
  {
    var own := db.envelopes[i].record.stream;
    forall stream | stream in n.wedges && stream != own
      ensures OnLast(n.envelopes, stream, n.wedges[stream])
    {
      assert stream in n.wedges - {own} && stream in db.wedges - {own};
      assert n.wedges[stream] == (n.wedges - {own})[stream] == (db.wedges - {own})[stream] == db.wedges[stream];
      assert OnLast(db.envelopes, stream, db.wedges[stream]);
      var j: nat :| LastConsumed(db.envelopes, j) && db.envelopes[j].record.stream == stream
                    && WedgedAt(db.wedges[stream], db.envelopes[j]);
      assert LastConsumed(n.envelopes, j);
    }
    forall j: nat | LastConsumed(n.envelopes, j) && WasRefused(n.envelopes[j]) && !SameStream(db.envelopes[j], db.envelopes[i])
      ensures n.envelopes[j].record.stream in n.wedges
    {
      assert LastConsumed(db.envelopes, j);
      assert db.envelopes[j].record.stream in db.wedges - {own};
      assert db.envelopes[j].record.stream in n.wedges - {own};
    }
  }

  lemma RefusingKeepsInv(db: Db, i: nat, reason: string, detail: string, at: string, later: string)
    requires Inv(db) && NextUp(db.envelopes, i) && db.envelopes[i].record.stream !in db.wedges
    ensures Inv(Refusing(db, db.envelopes[i], reason, detail, at, later))
  {
    var rows, n := db.envelopes, Refusing(db, db.envelopes[i], reason, detail, at, later);
    MarkingIsOneRow(db, i, at, Some(reason + ": " + detail));
    OneRowKeepsOrder(rows, n.envelopes, i);
    ConsumingKeepsPrefix(rows, n.envelopes, i);
    OtherWedgesStand(db, n, i);
    assert LastConsumed(n.envelopes, i) && WedgedAt(n.wedges[rows[i].record.stream], n.envelopes[i]);
    ApartAfterRefusal(db, n, i);
  }

  /** A row refused while the stream is not wedged does not follow a refused row. */
  lemma ApartAfterRefusal(db: Db, n: Db, i: nat)
    requires Inv(db) && NextUp(db.envelopes, i) && db.envelopes[i].record.stream !in db.wedges
    requires OnlyRow(db.envelopes, n.envelopes, i)
    ensures RefusalsApart(n.envelopes)
  {
    var rows, after := db.envelopes, n.envelopes;
    forall p, j | 0 <= p < j < |after| && SameStream(after[p], after[j])
      && after[j].record.seqno == after[p].record.seqno + 1 && WasRefused(after[p])
      ensures !WasRefused(after[j])
    {
      if j == i { PredecessorIsLast(rows, i, p); }
    }
  }

  lemma SameConsumedSameLast(rows: seq<Row>, after: seq<Row>, j: nat)
    requires |rows| == |after| && forall k :: 0 <= k < |rows| ==> Consumed(after[k]) == Consumed(rows[k]) && SameStream(after[k], rows[k])
    ensures LastConsumed(after, j) <==> LastConsumed(rows, j)
  {
  }

  lemma TroublingKeepsWedges(db: Db, n: Db, i: nat)
    requires WedgesExact(db) && OnlyRow(db.envelopes, n.envelopes, i) && n.wedges == db.wedges
    requires !Consumed(db.envelopes[i]) && !Consumed(n.envelopes[i])
    ensures WedgesExact(n)
  {
    var rows := db.envelopes;
    forall j: nat | j < |rows| ensures LastConsumed(n.envelopes, j) <==> LastConsumed(rows, j) {
      SameConsumedSameLast(rows, n.envelopes, j);
    }
    forall stream | stream in n.wedges ensures OnLast(n.envelopes, stream, n.wedges[stream]) {
      assert OnLast(rows, stream, db.wedges[stream]);
      var j: nat :| LastConsumed(rows, j) && rows[j].record.stream == stream && WedgedAt(db.wedges[stream], rows[j]);
      assert LastConsumed(n.envelopes, j);
    }
  }

  lemma UnconsumedKeepsShape(rows: seq<Row>, after: seq<Row>, i: nat)
    requires Prefixed(rows) && RefusalsApart(rows) && OnlyRow(rows, after, i) && !Consumed(rows[i]) && !Consumed(after[i])
    ensures Prefixed(after) && RefusalsApart(after)
  {
  }

  lemma TroublingKeepsInv(db: Db, i: nat, detail: string)
    requires Inv(db) && i < |db.envelopes| && !Consumed(db.envelopes[i])
    ensures Inv(MarkPushError(db, db.envelopes[i].id, detail))
  {
    var n := MarkPushError(db, db.envelopes[i].id, detail);
    TroublingIsOneRow(db, i, detail);
    OneRowKeepsOrder(db.envelopes, n.envelopes, i);
    UnconsumedKeepsShape(db.envelopes, n.envelopes, i);
    TroublingKeepsWedges(db, n, i);
  }

  // ---- a whole cycle ----

  /** Row `k` of the batch, when its stream is not held, stands in the table with only batch rows of
      the cycle still ahead of it. */
  ghost predicate InTurn(c: Cycle, batch: seq<Row>, k: nat)
    requires k < |batch|
  {
    batch[k].record.stream in c.wedged || exists i: nat :: StandsAt(c.db.envelopes, batch, k, i)
  }

  ghost predicate StandsAt(rows: seq<Row>, batch: seq<Row>, k: nat, i: nat)
    requires k < |batch|
  {
    && i < |rows| && rows[i].id == batch[k].id && rows[i].record == batch[k].record && !Consumed(rows[i])
    && forall j :: 0 <= j < i && SameStream(rows[j], rows[i]) && !Consumed(rows[j]) ==> Waits(batch[..k], rows[j])
  }

  /** This table row is among these batch rows. */
  ghost predicate Waits(batch: seq<Row>, row: Row) {
    exists m :: 0 <= m < |batch| && batch[m].id == row.id && batch[m].record == row.record
  }

  ghost predicate Lined(c: Cycle, batch: seq<Row>) {
    && (forall k :: 0 <= k < |batch| ==> InTurn(c, batch, k))
    && (forall j, k :: 0 <= j < k < |batch| ==> batch[j].id != batch[k].id)
  }

  /** A fresh batch is lined up. */
  lemma BatchIsLined(db: Db, batch: seq<Row>)
    requires Ordered(db.envelopes) && IsBatch(db, batch)
    ensures Lined(Cycle(db, {}, false), batch)
  {
    var rows := db.envelopes;
    forall k | 0 <= k < |batch| ensures InTurn(Cycle(db, {}, false), batch, k) {
      var i :| 0 <= i < |rows| && rows[i] == batch[k];
      forall j | 0 <= j < i && SameStream(rows[j], rows[i]) && !Consumed(rows[j]) ensures Waits(batch[..k], rows[j]) {
        assert RowBefore(rows[j], batch[k]) && rows[j] in rows;
        var m :| 0 <= m < |batch[..k]| && batch[..k][m] == rows[j];
      }
      assert StandsAt(rows, batch, k, i);
    }
    forall j, k | 0 <= j < k < |batch| ensures batch[j].id != batch[k].id {
      assert RowBefore(batch[j], batch[k]);
      LexTotal(batch[j].record.stream, batch[k].record.stream);
      var a :| 0 <= a < |rows| && rows[a] == batch[j];
      var b :| 0 <= b < |rows| && rows[b] == batch[k];
      assert a != b;
    }
  }

  /** The head of a lined-up batch is the next row of its stream. */
  lemma HeadIsNext(c: Cycle, batch: seq<Row>) returns (i: nat)
    requires Lined(c, batch) && batch != [] && batch[0].record.stream !in c.wedged
    ensures NextUp(c.db.envelopes, i) && c.db.envelopes[i].id == batch[0].id && c.db.envelopes[i].record == batch[0].record
  {
    assert InTurn(c, batch, 0);
    i :| StandsAt(c.db.envelopes, batch, 0, i);
    forall j | 0 <= j < i && SameStream(c.db.envelopes[j], c.db.envelopes[i]) ensures Consumed(c.db.envelopes[j]) {
      assert !Consumed(c.db.envelopes[j]) ==> Waits(batch[..0], c.db.envelopes[j]);
    }
  }

  lemma PushOneKeepsInv(c: Cycle, batch: seq<Row>, reply: Reply)
    requires Inv(c.db) && batch != [] && Lined(c, batch)
    ensures Inv(PushOne(c, batch[0], reply).db)
  {
    if batch[0].record.stream !in c.wedged {
      var i := HeadIsNext(c, batch);
      var row := c.db.envelopes[i];
      match reply.answer
      case Unreachable(detail) => TroublingKeepsInv(c.db, i, detail);
      case NotJudged(detail) => TroublingKeepsInv(c.db, i, detail);
      case Accepted => AcceptingKeepsInv(c.db, i, reply.at);
      case Refused(reason, detail) =>
        if row.record.stream !in c.db.wedges { RefusingKeepsInv(c.db, i, reason, detail, reply.at, reply.later); }
    }
  }

  /** What one turn does to the table: nothing, or one row rewritten, which was the batch's head. */
  lemma PushOneTouchesHead(c: Cycle, batch: seq<Row>, reply: Reply) returns (i: nat)
    requires Ordered(c.db.envelopes) && Lined(c, batch) && batch != []
    ensures var n := PushOne(c, batch[0], reply);
      || (n.db.envelopes == c.db.envelopes && batch[0].record.stream in n.wedged)
      || (batch[0].record.stream !in c.wedged && NextUp(c.db.envelopes, i) && c.db.envelopes[i].id == batch[0].id
          && OnlyRow(c.db.envelopes, n.db.envelopes, i)
          && (Consumed(n.db.envelopes[i]) || n.stopped))
  {
    i := 0;
    if batch[0].record.stream !in c.wedged {
      i := HeadIsNext(c, batch);
      match reply.answer
      case Unreachable(detail) => TroublingIsOneRow(c.db, i, detail);
      case NotJudged(detail) => TroublingIsOneRow(c.db, i, detail);
      case Accepted => MarkingIsOneRow(c.db, i, reply.at, None);
      case Refused(reason, detail) => MarkingIsOneRow(c.db, i, reply.at, Some(reason + ": " + detail));
    }
  }

  /** Rows behind the head stay lined up while the cycle runs. */
  lemma PushOneKeepsLined(c: Cycle, batch: seq<Row>, reply: Reply)
    requires Ordered(c.db.envelopes) && Lined(c, batch) && batch != [] && !PushOne(c, batch[0], reply).stopped
    ensures Lined(PushOne(c, batch[0], reply), batch[1..])
  {
    var n, rest := PushOne(c, batch[0], reply), batch[1..];
    var i0 := PushOneTouchesHead(c, batch, reply);
    forall k | 0 <= k < |rest| ensures InTurn(n, rest, k) {
      assert InTurn(c, batch, k + 1);
      if rest[k].record.stream !in n.wedged {
        var i: nat :| StandsAt(c.db.envelopes, batch, k + 1, i);
        StandsOn(c, n, batch, k, i, i0);
      }
    }
  }

  lemma StandsOn(c: Cycle, n: Cycle, batch: seq<Row>, k: nat, i: nat, i0: nat)
    requires batch != [] && k < |batch| - 1 && StandsAt(c.db.envelopes, batch, k + 1, i)
    requires batch[0].id != batch[k + 1].id && batch[k + 1].record.stream !in n.wedged
    requires (n.db.envelopes == c.db.envelopes && batch[0].record.stream in n.wedged)
      || (i0 < |c.db.envelopes| && c.db.envelopes[i0].id == batch[0].id
          && OnlyRow(c.db.envelopes, n.db.envelopes, i0) && Consumed(n.db.envelopes[i0]))
    requires Ordered(c.db.envelopes)
    ensures StandsAt(n.db.envelopes, batch[1..], k, i)
  {
    var rows, after, rest := c.db.envelopes, n.db.envelopes, batch[1..];
    forall j | 0 <= j < i && SameStream(after[j], after[i]) && !Consumed(after[j]) ensures Waits(rest[..k], after[j]) {
      assert after[j] == rows[j] && Waits(batch[..k + 1], rows[j]);
      var m :| 0 <= m < |batch[..k + 1]| && batch[..k + 1][m].id == rows[j].id && batch[..k + 1][m].record == rows[j].record;
      assert m > 0;
      assert rest[..k][m - 1] == batch[..k + 1][m];
    }
  }

  // ---- appends and calls ----

  /** A row the chain may take next: new, unpushed, past its stream's others. */
  predicate Chainable(rows: seq<Row>, row: Row) {
    && row.pushedAt.None? && row.pushError.None?
    && forall j :: 0 <= j < |rows| ==>
         rows[j].id != row.id && (SameStream(rows[j], row) ==> rows[j].record.seqno < row.record.seqno)
  }

  lemma StoringKeepsWedges(db: Db, row: Row)
    requires WedgesExact(db) && row.pushedAt.None?
    ensures WedgesExact(db.(envelopes := db.envelopes + [row]))
  {
    var rows, after := db.envelopes, db.envelopes + [row];
    assert forall j :: 0 <= j < |rows| ==> after[j] == rows[j];
    forall j: nat | LastConsumed(rows, j) ensures LastConsumed(after, j) {}
    forall j: nat | LastConsumed(after, j) ensures LastConsumed(rows, j) {
      forall k | j < k < |rows| && SameStream(rows[j], rows[k]) ensures !Consumed(rows[k]) {
        assert SameStream(after[j], after[k]);
      }
    }
    forall stream | stream in db.wedges ensures OnLast(after, stream, db.wedges[stream]) {
      assert OnLast(rows, stream, db.wedges[stream]);
      var j: nat :| LastConsumed(rows, j) && rows[j].record.stream == stream && WedgedAt(db.wedges[stream], rows[j]);
      assert LastConsumed(after, j);
    }
    forall j: nat | LastConsumed(after, j) && WasRefused(after[j]) ensures after[j].record.stream in db.wedges {
      assert LastConsumed(rows, j) && after[j] == rows[j];
    }
  }

  lemma StoringKeepsInv(db: Db, row: Row)
    requires Inv(db) && Chainable(db.envelopes, row)
    ensures Inv(db.(envelopes := db.envelopes + [row]))
  {
    StoringKeepsWedges(db, row);
  }

  lemma GraceKeepsInv(db: Db, stream: string)
    requires Inv(db)
    ensures Inv(NoteGraceUse(db, stream))
  {
    var n := NoteGraceUse(db, stream);
    forall s | s in n.wedges ensures OnLast(n.envelopes, s, n.wedges[s]) {
      assert OnLast(db.envelopes, s, db.wedges[s]);
      var j: nat :| LastConsumed(db.envelopes, j) && db.envelopes[j].record.stream == s && WedgedAt(db.wedges[s], db.envelopes[j]);
      assert WedgedAt(n.wedges[s], n.envelopes[j]);
    }
    assert WedgesExact(n);
  }

  // ---- what a refusal leaves behind ----

  /** A refused row of the table, found again with its reason. */
  ghost predicate StillRefused(row: Row, db: Db) {
    row in db.envelopes && WasRefused(row)
  }

  lemma PushOneKeepsRefusals(c: Cycle, batch: seq<Row>, reply: Reply, row: Row)
    requires Ordered(c.db.envelopes) && Lined(c, batch) && batch != [] && StillRefused(row, c.db)
    ensures StillRefused(row, PushOne(c, batch[0], reply).db)
  {
    var n := PushOne(c, batch[0], reply);
    var i := PushOneTouchesHead(c, batch, reply);
    var j :| 0 <= j < |c.db.envelopes| && c.db.envelopes[j] == row;
    if n.db.envelopes != c.db.envelopes { assert n.db.envelopes[j] == row; }
  }

  // ---- the two crashes this rests on ----

  /** Between marking a refused row consumed and recording its wedge, the store is never consistent. */
  lemma CrashAfterRefusal(db: Db, i: nat, at: string, reason: string)
    requires Inv(db) && NextUp(db.envelopes, i) && db.envelopes[i].record.stream !in db.wedges
    ensures !Inv(MarkPushed(db, db.envelopes[i].id, at, Some(reason)))
  {
    var refused := MarkPushed(db, db.envelopes[i].id, at, Some(reason));
    MarkingIsOneRow(db, i, at, Some(reason));
    ConsumingKeepsPrefix(db.envelopes, refused.envelopes, i);
    assert LastConsumed(refused.envelopes, i) && WasRefused(refused.envelopes[i]);
  }

  /** Between marking an accepted row and clearing the wedge, it is inconsistent exactly when the
      stream was wedged. */
  lemma CrashAfterAcceptance(db: Db, i: nat, at: string)
    requires Inv(db) && NextUp(db.envelopes, i)
    ensures Inv(MarkPushed(db, db.envelopes[i].id, at, None)) <==> db.envelopes[i].record.stream !in db.wedges
  {
    var stream, accepted := db.envelopes[i].record.stream, MarkPushed(db, db.envelopes[i].id, at, None);
    if stream !in db.wedges {
      AcceptingKeepsInv(db, i, at);
      assert ClearWedge(accepted, stream) == accepted;
    } else {
      MarkingIsOneRow(db, i, at, None);
      ConsumingKeepsPrefix(db.envelopes, accepted.envelopes, i);
      forall j: nat | LastConsumed(accepted.envelopes, j) && accepted.envelopes[j].record.stream == stream
        ensures !WedgedAt(accepted.wedges[stream], accepted.envelopes[j])
      {
        assert SameStream(accepted.envelopes[j], accepted.envelopes[i]);
      }
    }
  }
}
