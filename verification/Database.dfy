/** The gateway's database as an object: each method is one transaction on tables it updates in place. */
module Database {
  import opened Prelude
  import opened Gate
  import opened Store

  /** Positions grow along each stream: `PRIMARY KEY (stream, seq)`, and an append goes at the head. */
  ghost predicate Keyed(rows: seq<Row>) {
    forall i, j :: 0 <= i < j < |rows| && rows[i].record.stream == rows[j].record.stream ==>
      rows[i].record.seqno < rows[j].record.seqno
  }

  // ---- ORDER BY ----

  /** Ordered by stream and position. */
  ghost predicate Sorted(rows: seq<Row>) {
    forall j, k :: 0 <= j < k < |rows| ==> RowBefore(rows[j], rows[k])
  }

  /** No row shares its stream and position with `row`. */
  ghost predicate Apart(rows: seq<Row>, row: Row) {
    forall k :: 0 <= k < |rows| ==> rows[k].record.stream != row.record.stream || rows[k].record.seqno != row.record.seqno
  }

  lemma RowOrderIsTotal(a: Row, b: Row)
    ensures RowBefore(a, b) || RowBefore(b, a) || (a.record.stream == b.record.stream && a.record.seqno == b.record.seqno)
    ensures !(RowBefore(a, b) && RowBefore(b, a))
  {
    LexTotal(a.record.stream, b.record.stream);
  }

  lemma RowOrderIsTransitive(a: Row, b: Row, c: Row)
    requires RowBefore(a, b) && RowBefore(b, c)
    ensures RowBefore(a, c)
  {
    if LexLt(a.record.stream, b.record.stream) && LexLt(b.record.stream, c.record.stream) {
      LexTransitive(a.record.stream, b.record.stream, c.record.stream);
    }
  }

  /** One item more, and nothing else. */
  ghost predicate Inserted<T>(items: seq<T>, item: T, r: seq<T>) {
    |r| == |items| + 1 && exists i: nat :: InsertedAt(items, item, r, i)
  }

  ghost predicate InsertedAt<T>(items: seq<T>, item: T, r: seq<T>, i: nat) {
    i <= |items| && r == items[..i] + [item] + items[i..]
  }

  lemma InsertedHolds<T>(items: seq<T>, item: T, r: seq<T>)
    requires Inserted(items, item, r)
    ensures forall x :: x in r <==> x in items || x == item
    ensures item !in items && (forall j, k :: 0 <= j < k < |items| ==> items[j] != items[k]) ==>
              (forall j, k :: 0 <= j < k < |r| ==> r[j] != r[k])
  {
    var i: nat :| InsertedAt(items, item, r, i);
    assert items == items[..i] + items[i..];
  }

  /** Put a row where its stream and position say. */
  method Place(sorted: seq<Row>, row: Row) returns (r: seq<Row>)
    requires Sorted(sorted) && Apart(sorted, row)
    ensures Sorted(r) && Inserted(sorted, row, r)
  {
    var i := 0;
    while i < |sorted| && RowBefore(sorted[i], row)
      invariant 0 <= i <= |sorted|
      invariant forall k :: 0 <= k < i ==> RowBefore(sorted[k], row)
    {
      i := i + 1;
    }
    r := sorted[..i] + [row] + sorted[i..];
    assert InsertedAt(sorted, row, r, i);
    forall k | i <= k < |sorted| ensures RowBefore(row, sorted[k]) {
      RowOrderIsTotal(row, sorted[i]);
      if k > i { RowOrderIsTransitive(row, sorted[i], sorted[k]); }
    }
  }

  /** Exactly the rows not yet consumed. */
  ghost predicate HoldsUnpushed(sorted: seq<Row>, rows: seq<Row>) {
    forall row :: row in sorted <==> row in rows && row.pushedAt.None?
  }

  lemma OneMoreUnpushed(before: seq<Row>, sorted: seq<Row>, rows: seq<Row>, row: Row)
    requires HoldsUnpushed(before, rows)
    requires if row.pushedAt.None? then Inserted(before, row, sorted) else sorted == before
    ensures HoldsUnpushed(sorted, rows + [row])
  {
    if row.pushedAt.None? { InsertedHolds(before, row, sorted); }
  }

  lemma ApartFromBefore(sorted: seq<Row>, rows: seq<Row>, i: nat)
    requires Keyed(rows) && i < |rows| && HoldsUnpushed(sorted, rows[..i])
    ensures Apart(sorted, rows[i])
  {
    forall k | 0 <= k < |sorted|
      ensures sorted[k].record.stream != rows[i].record.stream || sorted[k].record.seqno != rows[i].record.seqno
    {
      assert sorted[k] in rows[..i];
      var j :| 0 <= j < i && rows[j] == sorted[k];
    }
  }

  method SortUnpushed(rows: seq<Row>) returns (sorted: seq<Row>)
    requires Keyed(rows)
    ensures Sorted(sorted) && forall row :: row in sorted <==> row in rows && row.pushedAt.None?
  {
    sorted := [];
    for i := 0 to |rows|
      invariant Sorted(sorted) && HoldsUnpushed(sorted, rows[..i])
    {
      ghost var before := sorted;
      if rows[i].pushedAt.None? {
        ApartFromBefore(sorted, rows, i);
        sorted := Place(sorted, rows[i]);
      }
      OneMoreUnpushed(before, sorted, rows[..i], rows[i]);
      assert rows[..i + 1] == rows[..i] + [rows[i]];
    }
    assert rows[..|rows|] == rows;
  }

  lemma FirstOfSorted(db: Db, sorted: seq<Row>, batch: seq<Row>)
    requires Sorted(sorted) && batch <= sorted
    requires forall row :: row in sorted <==> row in db.envelopes && row.pushedAt.None?
    ensures IsBatch(db, batch)
  {
    forall k | 0 <= k < |batch| ensures batch[k] in db.envelopes && batch[k].pushedAt.None? {
      assert batch[k] == sorted[k];
    }
    forall row, k | row in db.envelopes && row.pushedAt.None? && 0 <= k < |batch| && RowBefore(row, batch[k])
      ensures row in batch[..k]
    {
      var j :| 0 <= j < |sorted| && sorted[j] == row;
      assert batch[k] == sorted[k];
      if j >= k { RowOrderIsTotal(row, sorted[k]); }
      assert batch[..k][j] == row;
    }
  }

  /** `a` was written before `b`: ORDER BY created_at, rowid. */
  predicate Older(a: Intent, b: Intent) {
    LexLt(a.createdAt, b.createdAt) || (a.createdAt == b.createdAt && a.rowid < b.rowid)
  }

  lemma AgeIsAnOrder(a: Intent, b: Intent, c: Intent)
    ensures !(Older(a, b) && Older(b, a))
    ensures Older(a, b) && Older(b, c) ==> Older(a, c)
    ensures !Older(b, a) && !Older(c, b) ==> !Older(c, a)
  {
    LexTotal(a.createdAt, b.createdAt);
    LexTotal(b.createdAt, c.createdAt);
    LexTotal(a.createdAt, c.createdAt);
    if LexLt(a.createdAt, b.createdAt) && LexLt(b.createdAt, c.createdAt) {
      LexTransitive(a.createdAt, b.createdAt, c.createdAt);
    }
  }

  /** The first is no younger: written at an earlier instant, or at the same one and stored no later. */
  predicate InAge(a: Intent, b: Intent) {
    LexLt(a.createdAt, b.createdAt) || (a.createdAt == b.createdAt && a.rowid <= b.rowid)
  }

  lemma InAgeExactly(a: Intent, b: Intent)
    ensures InAge(a, b) <==> !Older(b, a)
  {
    LexTotal(a.createdAt, b.createdAt);
  }

  /** Write-ahead records listed oldest first. */
  ghost predicate OldestFirst(intents: map<string, Intent>, ids: seq<string>) {
    && (forall k :: 0 <= k < |ids| ==> ids[k] in intents)
    && forall j, k :: 0 <= j < k < |ids| ==> InAge(intents[ids[j]], intents[ids[k]])
  }

  /** Put an open record where its age says. */
  method PlaceByAge(intents: map<string, Intent>, ids: seq<string>, id: string) returns (r: seq<string>)
    requires id in intents && OldestFirst(intents, ids)
    ensures OldestFirst(intents, r) && Inserted(ids, id, r)
  {
    forall a, b ensures InAge(a, b) <==> !Older(b, a) { InAgeExactly(a, b); }
    var i := 0;
    while i < |ids| && !Older(intents[id], intents[ids[i]])
      invariant 0 <= i <= |ids|
      invariant forall k :: 0 <= k < i ==> !Older(intents[id], intents[ids[k]])
    {
      i := i + 1;
    }
    r := ids[..i] + [id] + ids[i..];
    assert InsertedAt(ids, id, r, i);
    forall k | i <= k < |ids| ensures !Older(intents[ids[k]], intents[id]) {
      AgeIsAnOrder(intents[id], intents[ids[i]], intents[ids[k]]);
    }
  }

  /** The request asks about this call and waits for an answer that can still come. */
  predicate Waits(row: Parked, fields: Members, now: string) {
    && row.decision.None? && row.consumedAt.None? && NineAgree(row.request, fields)
    && Get(row.request, "not-after").Text? && LexLe(now, Get(row.request, "not-after").s)
  }

  /** The request asks about this call and has an answer nobody has used. */
  predicate Answers(row: Parked, fields: Members) {
    row.decision.Some? && row.consumedAt.None? && NineAgree(row.request, fields)
  }

  lemma WaitsExactly(row: Parked, fields: Members, now: string)
    ensures Waits(row, fields, now) <==> Unanswered(row) && Answerable(row, now) && Matches(row, fields)
  {
    BoundIsNine(row.request, fields);
    if Get(row.request, "not-after").Text? { LexTotal(now, Get(row.request, "not-after").s); }
  }

  lemma AnswersExactly(row: Parked, fields: Members)
    ensures Answers(row, fields) <==> Decided(row) && Matches(row, fields)
  {
    BoundIsNine(row.request, fields);
  }

  /** `row` is the oldest of the rows with this property. */
  ghost predicate OldestSuch(rows: seq<Parked>, row: Parked, such: Parked -> bool) {
    row in rows && such(row) && forall r :: r in rows && such(r) ==> !LexLt(r.createdAt, row.createdAt)
  }

  /** The first such row of those ordered by age is the oldest. */
  lemma FirstIsOldest(rows: seq<Parked>, i: nat, such: Parked -> bool)
    requires i < |ByAge(rows)| && such(ByAge(rows)[i]) && forall j :: 0 <= j < i ==> !such(ByAge(rows)[j])
    ensures OldestSuch(rows, ByAge(rows)[i], such)
  {
    var sorted := ByAge(rows);
    ByAgeAscends(rows);
    SameRows(rows);
    forall r | r in rows && such(r) ensures !LexLt(r.createdAt, sorted[i].createdAt) {
      var j :| 0 <= j < |sorted| && sorted[j] == r;
      LexTotal(r.createdAt, r.createdAt);
    }
  }

  lemma SameRows(rows: seq<Parked>)
    ensures forall row :: row in ByAge(rows) <==> row in rows
  {
    forall row ensures row in ByAge(rows) <==> row in rows {
      assert row in rows <==> row in multiset(rows);
      assert row in ByAge(rows) <==> row in multiset(ByAge(rows));
    }
  }

  lemma OutstandingIsOldest(rows: seq<Parked>, fields: Members, now: string)
    ensures var r := OutstandingRow(ByAge(rows), fields, now);
      if r.Some? then OldestSuch(rows, r.value, row => Waits(row, fields, now))
      else forall row :: row in rows ==> !Waits(row, fields, now)
  {
    var sorted := ByAge(rows);
    var r := OutstandingRow(sorted, fields, now);
    SameRows(rows);
    forall row ensures Waits(row, fields, now) <==> Unanswered(row) && Answerable(row, now) && Matches(row, fields) {
      WaitsExactly(row, fields, now);
    }
    if r.Some? {
      var i :| 0 <= i < |sorted| && sorted[i] == r.value && NoneOutstanding(sorted, i, fields, now);
      FirstIsOldest(rows, i, row => Waits(row, fields, now));
    }
  }

  lemma DecidedIsOldest(rows: seq<Parked>, fields: Members)
    ensures var r := FirstDecided(ByAge(rows), fields);
      if r.Some? then OldestSuch(rows, r.value, row => Answers(row, fields))
      else forall row :: row in rows ==> !Answers(row, fields)
  {
    var sorted := ByAge(rows);
    var r := FirstDecided(sorted, fields);
    SameRows(rows);
    forall row ensures Answers(row, fields) <==> Decided(row) && Matches(row, fields) { AnswersExactly(row, fields); }
    if r.Some? {
      var i :| 0 <= i < |sorted| && sorted[i] == r.value && NoneDecided(sorted, i, fields);
      FirstIsOldest(rows, i, row => Answers(row, fields));
    }
  }

  /** The oldest undecided, unconsumed request for this call that is still answerable. */
  method FindOutstanding(rows: seq<Parked>, fields: Members, now: string) returns (r: Option<Parked>)
    ensures r == OutstandingRow(rows, fields, now)
  {
    for i := 0 to |rows|
      invariant OutstandingRow(rows, fields, now) == OutstandingRow(rows[i..], fields, now)
    {
      var row := rows[i];
      if Unanswered(row) && Answerable(row, now) && Matches(row, fields) { return Some(row); }
      assert rows[i..][1..] == rows[i + 1..];
    }
    return None;
  }

  /** What was pushed is told anew of the rows with this id; they stay the rows they are, and every other row is
      as it was. */
  ghost predicate Retold(rows: seq<Row>, after: seq<Row>, id: string) {
    && |after| == |rows|
    && forall i :: 0 <= i < |rows| ==>
         if rows[i].id == id then after[i] == rows[i].(pushedAt := after[i].pushedAt, pushError := after[i].pushError)
         else after[i] == rows[i]
  }

  /** The requests with this hash keep request and age; every other is as it was. */
  ghost predicate Reparked(rows: seq<Parked>, after: seq<Parked>, hash: string) {
    && |after| == |rows|
    && forall i :: 0 <= i < |rows| ==>
         if rows[i].hash == hash then after[i] == rows[i].(decision := after[i].decision, consumedAt := after[i].consumedAt)
         else after[i] == rows[i]
  }

  class GatewayStore {
    const kit: Kit
    var envelopes: seq<Row>
    var intents: map<string, Intent>
    var parked: seq<Parked>
    var seen: map<string, string>
    var wedges: map<string, Wedge>

    /** What the tables hold. */
    ghost function Tables(): Db
      reads this
    {
      Db(envelopes, intents, parked, seen, wedges)
    }

    ghost predicate Valid()
      reads this
    {
      Keyed(envelopes)
    }

    constructor (kit: Kit)
      ensures Valid() && Tables() == EMPTY && this.kit == kit
    {
      this.kit := kit;
      envelopes, intents, parked, seen, wedges := [], map[], [], map[], map[];
    }

    // ---- the local chain ----

    /** Take the stream's next position, build the envelope, store it and close its write-ahead
        record. A build that refuses leaves no trace. */
    method AppendNext(stream: string, draft: Draft, at: string, origin: Origin) returns (stored: bool)
      requires Valid()
      modifies this`envelopes, this`intents
      ensures Valid()
      ensures stored == Store.AppendNext(kit, old(Tables()), stream, draft, at, origin).Some?
      ensures Tables() == if stored then Store.AppendNext(kit, old(Tables()), stream, draft, at, origin).value else old(Tables())
    {
      var head := Latest(envelopes, stream);
      var seqno, prev := 0, None;
      if head.Some? {
        seqno, prev := head.value.record.seqno + 1, Some(head.value.id);
      }
      var record := Record(stream, seqno, prev, draft);
      if kit.view.shape(record).Some? { return false; }
      envelopes := envelopes + [Row(kit.view.id(record), record, at, None, None, origin)];
      if origin.Closing? && origin.intent in intents {
        intents := intents[origin.intent := intents[origin.intent].(resolvedAt := Some(at))];
      }
      return true;
    }

    /** Envelopes not yet consumed by a push, in chain order per stream, at most `limit` of them. */
    method Unpushed(limit: nat) returns (batch: seq<Row>)
      requires Valid()
      ensures |batch| <= limit && IsBatch(Tables(), batch)
      ensures |batch| < limit ==> forall row :: row in envelopes && row.pushedAt.None? ==> row in batch
    {
      var sorted := SortUnpushed(envelopes);
      batch := if |sorted| <= limit then sorted else sorted[..limit];
      assert batch <= sorted;
      FirstOfSorted(Tables(), sorted, batch);
    }

    method MarkPushed(id: string, at: string, error: Option<string>)
      modifies this`envelopes
      ensures Tables() == Store.MarkPushed(old(Tables()), id, at, error)
      ensures Retold(old(envelopes), envelopes, id)
      ensures forall i :: 0 <= i < |envelopes| && envelopes[i].id == id ==>
                envelopes[i].pushedAt == Some(at) && envelopes[i].pushError == error
      ensures old(Valid()) ==> Valid()
    {
      var rows := envelopes;
      envelopes := seq(|rows|, i requires 0 <= i < |rows| => Pushed(rows[i], id, at, error));
    }

    method MarkPushError(id: string, detail: string)
      modifies this`envelopes
      ensures Tables() == Store.MarkPushError(old(Tables()), id, detail)
      ensures Retold(old(envelopes), envelopes, id)
      ensures forall i :: 0 <= i < |envelopes| && envelopes[i].id == id ==>
                envelopes[i].pushedAt == old(envelopes)[i].pushedAt && envelopes[i].pushError == Some(detail)
      ensures old(Valid()) ==> Valid()
    {
      var rows := envelopes;
      envelopes := seq(|rows|, i requires 0 <= i < |rows| => Troubled(rows[i], id, detail));
    }

    // ---- refused streams ----

    /** `INSERT OR IGNORE`: a later refusal does not move the first. */
    method RecordWedge(stream: string, wedge: Wedge)
      modifies this`wedges
      ensures Tables() == Store.RecordWedge(old(Tables()), stream, wedge)
      ensures stream in wedges && (stream !in old(wedges) ==> wedges[stream] == wedge)
      ensures forall s :: s in old(wedges) ==> s in wedges && wedges[s] == old(wedges)[s]
      ensures forall s :: s in wedges && s != stream ==> s in old(wedges)
    {
      if stream !in wedges { wedges := wedges[stream := wedge]; }
    }

    method ClearWedge(stream: string)
      modifies this`wedges
      ensures Tables() == Store.ClearWedge(old(Tables()), stream)
      ensures stream !in wedges
      ensures forall s :: s != stream ==> (s in wedges <==> s in old(wedges))
      ensures forall s :: s in wedges ==> wedges[s] == old(wedges)[s]
    {
      wedges := wedges - {stream};
    }

    /** Count one call served under the grace window; the running total. */
    method NoteGraceUse(stream: string) returns (total: nat)
      modifies this`wedges
      ensures Tables() == Store.NoteGraceUse(old(Tables()), stream)
      ensures total == if stream in wedges then wedges[stream].graceServed else 0
    {
      if stream !in wedges { return 0; }
      var wedge := wedges[stream];
      wedges := wedges[stream := wedge.(graceServed := wedge.graceServed + 1)];
      return wedge.graceServed + 1;
    }

    // ---- write-ahead records ----

    /** Record an effect before it is applied; a key already taken is an error. */
    method RecordIntent(intent: string, stream: string, key: string, draft: Draft, at: string) returns (stored: bool)
      modifies this`intents
      ensures stored == Store.RecordIntent(old(Tables()), intent, stream, key, draft, at).Some?
      ensures Tables() ==
        if stored then Store.RecordIntent(old(Tables()), intent, stream, key, draft, at).value else old(Tables())
    {
      if intent in intents { return false; }
      intents := intents[intent := Intent(stream, key, draft, at, |intents|, None)];
      return true;
    }

    /** Write-ahead records of one stream and key whose call never chained an envelope, oldest first. */
    method OpenIntents(stream: string, key: string) returns (todo: seq<string>)
      ensures ListsOpen(Tables(), stream, key, todo) && OldestFirst(intents, todo)
    {
      var rest := set i | i in intents && intents[i].resolvedAt.None? && intents[i].stream == stream && intents[i].key == key;
      todo := [];
      while rest != {}
        invariant OldestFirst(intents, todo)
        invariant forall i :: i in todo || i in rest <==> IsOpen(Tables(), i, stream, key)
        invariant forall i :: i in todo ==> i !in rest
        invariant forall j, k :: 0 <= j < k < |todo| ==> todo[j] != todo[k]
        decreases |rest|
      {
        var i :| i in rest;
        ghost var before := todo;
        todo := PlaceByAge(intents, todo, i);
        InsertedHolds(before, i, todo);
        rest := rest - {i};
      }
    }

    // ---- parked requests ----

    /** Park this request, unless an unanswered one for the same call is held: then that one. */
    method ParkUnique(row: Parked, fields: Members, now: string) returns (held: Option<Parked>)
      modifies this`parked
      ensures (Tables(), held) == Store.ParkUnique(old(Tables()), row, fields, now)
      ensures held.Some? ==> OldestSuch(old(parked), held.value, r => Waits(r, fields, now)) && parked == old(parked)
      ensures held.None? ==>
        && (forall r :: r in old(parked) ==> !Waits(r, fields, now))
        && (forall r :: r in parked <==> r == row || (r in old(parked) && r.hash != row.hash))
    {
      held := FindOutstanding(ByAge(parked), fields, now);
      OutstandingIsOldest(parked, fields, now);
      if held.None? { parked := InsertParked(parked, row); }
    }

    /** A decided, unconsumed request describing exactly this call, oldest first. */
    method DecidedFor(fields: Members) returns (r: Option<Parked>)
      ensures r == Store.DecidedFor(Tables(), fields)
      ensures if r.Some? then OldestSuch(parked, r.value, row => Answers(row, fields)) else forall row :: row in parked ==> !Answers(row, fields)
    {
      DecidedIsOldest(parked, fields);
      var rows := ByAge(parked);
      for i := 0 to |rows|
        invariant FirstDecided(rows, fields) == FirstDecided(rows[i..], fields)
      {
        if Decided(rows[i]) && Matches(rows[i], fields) { return Some(rows[i]); }
        assert rows[i..][1..] == rows[i + 1..];
      }
      return None;
    }

    method RecordDecision(hash: string, decision: Decision)
      modifies this`parked
      ensures Tables() == Store.RecordDecision(old(Tables()), hash, decision)
      ensures Reparked(old(parked), parked, hash)
      ensures forall i :: 0 <= i < |parked| && parked[i].hash == hash ==>
                parked[i].decision == Some(decision) && parked[i].consumedAt == old(parked)[i].consumedAt
    {
      var rows := parked;
      parked := seq(|rows|, i requires 0 <= i < |rows| => Answered(rows[i], hash, decision));
    }

    method Consume(hash: string, at: string)
      modifies this`parked
      ensures Tables() == Store.Consume(old(Tables()), hash, at)
      ensures Reparked(old(parked), parked, hash)
      ensures forall i :: 0 <= i < |parked| && parked[i].hash == hash ==>
                parked[i].decision == old(parked)[i].decision && parked[i].consumedAt == Some(at)
    {
      var rows := parked;
      parked := seq(|rows|, i requires 0 <= i < |rows| => Used(rows[i], hash, at));
    }

    // ---- gate replay ----

    method GateSeen(hash: string) returns (r: bool)
      ensures r <==> hash in Tables().seen
    {
      r := hash in seen;
    }

    /** Take exclusive right to spend a decision: true only for the caller that won it. */
    method ClaimGateUse(hash: string, at: string) returns (first: bool)
      modifies this`seen
      ensures (Tables(), first) == Store.ClaimGateUse(old(Tables()), hash, at)
      ensures first <==> hash !in old(seen)
      ensures hash in seen && (first ==> seen[hash] == at)
      ensures forall h :: h in old(seen) ==> h in seen && seen[h] == old(seen)[h]
      ensures forall h :: h in seen && h != hash ==> h in old(seen)
    {
      first := hash !in seen;
      if first { seen := seen[hash := at]; }
    }
  }
}
