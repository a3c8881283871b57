/** The gateway's local database: its tables as values, and each store method as one transaction on
    them. `GatewayStore` below performs the same transactions on fields it updates in place.
 */
module Store {
  import opened Prelude
  import opened Chain
  import opened Gate

  /** What an aggregate record says of its window. */
  datatype Summary = Summary(from: string, to: string, total: nat, byAction: map<string, nat>, samples: seq<string>)

  /** What an emitter signs before a position is known. `content` holds the members a gate binds; an aggregate
      record carries a summary instead of an outcome. */
  datatype Draft = Draft(key: string, outcome: string, content: Gate.Envelope, summary: Option<Summary>)

  /** A chained envelope. */
  datatype Record = Record(stream: string, seqno: nat, prev: Option<string>, draft: Draft)

  /** Which effect an append accounts for: the write-ahead record it closes, or the catalog seed it
      puts in force, or neither. The first is the append's `resolve_intent` argument; the rest is
      bookkeeping of this model. */
  datatype Origin = Plain | Closing(intent: string) | Seeding(caller: nat)

  datatype Row = Row(id: string, record: Record, createdAt: string,
                     pushedAt: Option<string>, pushError: Option<string>, origin: Origin)

  /** A write-ahead record; `rowid` is its insertion number. */
  datatype Intent = Intent(stream: string, key: string, draft: Draft, createdAt: string, rowid: nat,
                           resolvedAt: Option<string>)

  datatype Parked = Parked(hash: string, request: Members, createdAt: string,
                           decision: Option<Decision>, consumedAt: Option<string>)

  datatype Wedge = Wedge(envelopeId: string, seqno: nat, reason: string, detail: string,
                         firstRefusedAt: string, graceServed: nat)

  datatype Db = Db(envelopes: seq<Row>, intents: map<string, Intent>, parked: seq<Parked>,
                   seen: map<string, string>, wedges: map<string, Wedge>)

  const EMPTY: Db := Db([], map[], [], map[], map[])

  /** How records are read, signed and hashed. */
  datatype Kit = Kit(view: View<Record>, hash: Members -> string)

  /** A record's members are read as written, and what an emitter signs verifies. */
  ghost predicate Faithful(kit: Kit) {
    && PositionRules(kit.view)
    && forall r: Record ::
         && kit.view.seqno(r) == Integer(r.seqno)
         && kit.view.stream(r) == r.stream
         && kit.view.prev(r) == r.prev
         && kit.view.signature(r) == Genuine
  }

  // ---- the local chain ----

  /** The records of one stream, in the order they were stored. */
  function Select(rows: seq<Row>, stream: string): seq<Record> {
    if rows == [] then []
    else
      var last := rows[|rows| - 1];
      Select(rows[..|rows| - 1], stream) + (if last.record.stream == stream then [last.record] else [])
  }

  /** `ORDER BY seq DESC LIMIT 1` over one stream. */
  function Latest(rows: seq<Row>, stream: string): (r: Option<Row>)
    ensures r.Some? ==> r.value in rows && r.value.record.stream == stream
    ensures r.Some? ==> forall i :: 0 <= i < |rows| && rows[i].record.stream == stream ==>
                                      rows[i].record.seqno <= r.value.record.seqno
    ensures r.None? ==> forall i :: 0 <= i < |rows| ==> rows[i].record.stream != stream
  {
    if rows == [] then None
    else
      var last, before := rows[|rows| - 1], Latest(rows[..|rows| - 1], stream);
      if last.record.stream != stream then before
      else if before.Some? && last.record.seqno < before.value.record.seqno then before
      else Some(last)
  }

  /** The record an append would store, unless the structural check refuses it. */
  function Build(kit: Kit, db: Db, stream: string, draft: Draft): Option<Record> {
    var head := Latest(db.envelopes, stream);
    var record := match head
      case None => Record(stream, 0, None, draft)
      case Some(row) => Record(stream, row.record.seqno + 1, Some(row.id), draft);
    if kit.view.shape(record).None? then Some(record) else None
  }

  /** `UPDATE intents SET resolved_at`: it does not test that the record is still open. */
  function Resolve(intents: map<string, Intent>, intent: string, at: string): map<string, Intent> {
    if intent in intents then intents[intent := intents[intent].(resolvedAt := Some(at))] else intents
  }

  function CloseOrigin(db: Db, origin: Origin, at: string): map<string, Intent> {
    match origin
    case Closing(intent) => Resolve(db.intents, intent, at)
    case _ => db.intents
  }

  /** Take the stream's next position, build, store, and close the write-ahead record: one
      transaction, or nothing at all. */
  function AppendNext(kit: Kit, db: Db, stream: string, draft: Draft, at: string, origin: Origin): Option<Db> {
    var built := Build(kit, db, stream, draft);
    if built.None? then None
    else
      Some(db.(envelopes := db.envelopes + [Row(kit.view.id(built.value), built.value, at, None, None, origin)],
               intents := CloseOrigin(db, origin, at)))
  }

  // ---- write-ahead records ----

  /** Fails when the key is taken. */
  function RecordIntent(db: Db, intent: string, stream: string, key: string, draft: Draft, at: string): Option<Db> {
    if intent in db.intents then None
    else Some(db.(intents := db.intents[intent := Intent(stream, key, draft, at, |db.intents|, None)]))
  }

  predicate IsOpen(db: Db, intent: string, stream: string, key: string) {
    && intent in db.intents
    && db.intents[intent].resolvedAt.None?
    && db.intents[intent].stream == stream
    && db.intents[intent].key == key
  }

  /** `todo` lists the open write-ahead records of one stream and key, each once. */
  predicate ListsOpen(db: Db, stream: string, key: string, todo: seq<string>) {
    && (forall i :: 0 <= i < |todo| ==> IsOpen(db, todo[i], stream, key))
    && (forall i, j :: 0 <= i < j < |todo| ==> todo[i] != todo[j])
    && (forall x :: x in db.intents && IsOpen(db, x, stream, key) ==> x in todo)
  }

  // ---- parked requests ----

  predicate Decided(row: Parked) {
    row.decision.Some? && row.consumedAt.None?
  }

  predicate Unanswered(row: Parked) {
    row.decision.None? && row.consumedAt.None?
  }

  /** Nobody can answer a request past its `not-after`. */
  predicate Answerable(row: Parked, now: string) {
    Get(row.request, "not-after").Text? && !LexLt(Get(row.request, "not-after").s, now)
  }

  predicate Matches(row: Parked, fields: Members) {
    BoundEqual(row.request, fields)
  }

  function InsertByAge(row: Parked, sorted: seq<Parked>): (r: seq<Parked>)
    ensures multiset(r) == multiset{row} + multiset(sorted)
  {
    if sorted == [] || LexLt(row.createdAt, sorted[0].createdAt) then
      assert [row] + sorted == [row] + sorted;
      [row] + sorted
    else
      assert sorted == [sorted[0]] + sorted[1..];
      [sorted[0]] + InsertByAge(row, sorted[1..])
  }

  /** `ORDER BY created_at`, ties in insertion order. */
  function ByAge(rows: seq<Parked>): (r: seq<Parked>)
    ensures multiset(r) == multiset(rows)
  {
    if rows == [] then []
    else
      assert rows == rows[..|rows| - 1] + [rows[|rows| - 1]];
      InsertByAge(rows[|rows| - 1], ByAge(rows[..|rows| - 1]))
  }

  /** No row is older than one before it. */
  ghost predicate Ascending(rows: seq<Parked>) {
    forall i, j :: 0 <= i < j < |rows| ==> !LexLt(rows[j].createdAt, rows[i].createdAt)
  }

  /** The rows of one age, in their order. */
  function OfAge(rows: seq<Parked>, at: string): seq<Parked> {
    if rows == [] then []
    else OfAge(rows[..|rows| - 1], at) + if rows[|rows| - 1].createdAt == at then [rows[|rows| - 1]] else []
  }

  lemma {:induction false} OfAgeJoins(a: seq<Parked>, b: seq<Parked>, at: string)
    ensures OfAge(a + b, at) == OfAge(a, at) + OfAge(b, at)
  {
    if b == [] {
      assert a + b == a;
    } else {
      assert (a + b)[..|a + b| - 1] == a + b[..|b| - 1];
      OfAgeJoins(a, b[..|b| - 1], at);
    }
  }

  lemma NoneOfAge(rows: seq<Parked>, at: string)
    requires forall i :: 0 <= i < |rows| ==> rows[i].createdAt != at
    ensures OfAge(rows, at) == []
  {
  }

  /** A row older than the oldest is older than all. */
  lemma OlderThanAll(row: Parked, sorted: seq<Parked>, k: nat)
    requires Ascending(sorted) && k < |sorted| && LexLt(row.createdAt, sorted[0].createdAt)
    ensures LexLt(row.createdAt, sorted[k].createdAt) && sorted[k].createdAt != row.createdAt
    ensures !LexLt(sorted[k].createdAt, row.createdAt)
  {
    assert k > 0 ==> !LexLt(sorted[k].createdAt, sorted[0].createdAt);
    LexTotal(sorted[0].createdAt, sorted[k].createdAt);
    if LexLt(sorted[0].createdAt, sorted[k].createdAt) { LexTransitive(row.createdAt, sorted[0].createdAt, sorted[k].createdAt); }
    LexTotal(row.createdAt, sorted[k].createdAt);
  }

  lemma FrontAscends(row: Parked, sorted: seq<Parked>)
    requires Ascending(sorted) && sorted != [] && LexLt(row.createdAt, sorted[0].createdAt)
    ensures Ascending([row] + sorted)
    ensures forall at :: OfAge([row] + sorted, at) == OfAge(sorted, at) + OfAge([row], at)
  {
    forall k | 0 <= k < |sorted|
      ensures !LexLt(sorted[k].createdAt, row.createdAt) && sorted[k].createdAt != row.createdAt
    {
      OlderThanAll(row, sorted, k);
    }
    forall at ensures OfAge([row] + sorted, at) == OfAge(sorted, at) + OfAge([row], at) {
      OfAgeJoins([row], sorted, at);
      if at == row.createdAt { NoneOfAge(sorted, at); } else { NoneOfAge([row], at); }
    }
  }

  lemma BehindAscends(row: Parked, sorted: seq<Parked>, after: seq<Parked>)
    requires Ascending(sorted) && sorted != [] && !LexLt(row.createdAt, sorted[0].createdAt)
    requires Ascending(after) && multiset(after) == multiset{row} + multiset(sorted[1..])
    ensures Ascending([sorted[0]] + after)
  {
    var r := [sorted[0]] + after;
    forall j | 0 < j < |r| ensures !LexLt(r[j].createdAt, sorted[0].createdAt) {
      assert r[j] == after[j - 1] && r[j] in multiset(after);
      if r[j] != row {
        assert r[j] in multiset(sorted[1..]);
        var k :| 0 <= k < |sorted[1..]| && sorted[1..][k] == r[j];
        assert sorted[k + 1] == r[j];
      }
    }
    forall i, j | 0 <= i < j < |r| ensures !LexLt(r[j].createdAt, r[i].createdAt) {
      if i > 0 { assert r[i] == after[i - 1] && r[j] == after[j - 1]; }
    }
  }

  /** A row goes in before the younger, */
  lemma {:induction false} InsertAscends(row: Parked, sorted: seq<Parked>)
    requires Ascending(sorted)
    ensures Ascending(InsertByAge(row, sorted))
  {
    if sorted != [] && LexLt(row.createdAt, sorted[0].createdAt) {
      FrontAscends(row, sorted);
    } else if sorted != [] {
      assert Ascending(sorted[1..]) by { assert forall i :: 0 <= i < |sorted[1..]| ==> sorted[1..][i] == sorted[i + 1]; }
      InsertAscends(row, sorted[1..]);
      BehindAscends(row, sorted, InsertByAge(row, sorted[1..]));
    }
  }

  lemma TiesBehind(first: Parked, rest: seq<Parked>, after: seq<Parked>, row: seq<Parked>, at: string)
    requires OfAge(after, at) == OfAge(rest, at) + OfAge(row, at)
    ensures OfAge([first] + after, at) == OfAge([first] + rest, at) + OfAge(row, at)
  {
    OfAgeJoins([first], after, at);
    OfAgeJoins([first], rest, at);
  }

  /** and after those as old. */
  lemma {:induction false} InsertKeepsTies(row: Parked, sorted: seq<Parked>, at: string)
    requires Ascending(sorted)
    ensures OfAge(InsertByAge(row, sorted), at) == OfAge(sorted, at) + OfAge([row], at)
  {
    if sorted == [] {
      assert InsertByAge(row, sorted) == [row];
    } else if LexLt(row.createdAt, sorted[0].createdAt) {
      FrontAscends(row, sorted);
    } else {
      var rest := sorted[1..];
      assert Ascending(rest) by { assert forall i :: 0 <= i < |rest| ==> rest[i] == sorted[i + 1]; }
      InsertKeepsTies(row, rest, at);
      TiesBehind(sorted[0], rest, InsertByAge(row, rest), [row], at);
      assert InsertByAge(row, sorted) == [sorted[0]] + InsertByAge(row, rest);
      assert sorted == [sorted[0]] + rest;
    }
  }

  /** The rows come oldest first, and those of one age as they were stored. */
  lemma {:induction false} ByAgeAscends(rows: seq<Parked>)
    ensures Ascending(ByAge(rows)) && forall at :: OfAge(ByAge(rows), at) == OfAge(rows, at)
  {
    if rows != [] {
      var before, last := rows[..|rows| - 1], rows[|rows| - 1];
      ByAgeAscends(before);
      InsertAscends(last, ByAge(before));
      forall at ensures OfAge(ByAge(rows), at) == OfAge(rows, at) {
        InsertKeepsTies(last, ByAge(before), at);
        OfAgeJoins(before, [last], at);
        assert rows == before + [last];
      }
    }
  }

  /** The oldest undecided, unconsumed row for this call that is still answerable. */
  function OutstandingRow(rows: seq<Parked>, fields: Members, now: string): (r: Option<Parked>)
    ensures r.Some? ==> r.value in rows && Unanswered(r.value) && Answerable(r.value, now) && Matches(r.value, fields)
    ensures r.Some? ==> exists i :: 0 <= i < |rows| && rows[i] == r.value && NoneOutstanding(rows, i, fields, now)
    ensures r.None? ==> forall row :: row in rows ==> !(Unanswered(row) && Answerable(row, now) && Matches(row, fields))
  {
    if rows == [] then None
    else if Unanswered(rows[0]) && Answerable(rows[0], now) && Matches(rows[0], fields) then
      assert NoneOutstanding(rows, 0, fields, now);
      Some(rows[0])
    else
      var r := OutstandingRow(rows[1..], fields, now);
      assert r.Some? ==> exists i :: 0 <= i < |rows| && rows[i] == r.value && NoneOutstanding(rows, i, fields, now) by {
        if r.Some? {
          var i :| 0 <= i < |rows[1..]| && rows[1..][i] == r.value && NoneOutstanding(rows[1..], i, fields, now);
          assert forall j :: 0 < j < i + 1 ==> rows[j] == rows[1..][j - 1];
          assert rows[i + 1] == r.value && NoneOutstanding(rows, i + 1, fields, now);
        }
      }
      r
  }

  /** None of the first `n` rows still asks about this call. */
  predicate NoneOutstanding(rows: seq<Parked>, n: nat, fields: Members, now: string)
    requires n <= |rows|
  {
    forall j :: 0 <= j < n ==> !(Unanswered(rows[j]) && Answerable(rows[j], now) && Matches(rows[j], fields))
  }

  /** `INSERT OR REPLACE` on the request hash. */
  function InsertParked(parked: seq<Parked>, row: Parked): seq<Parked> {
    Without(parked, row.hash) + [row]
  }

  function Without(parked: seq<Parked>, hash: string): (r: seq<Parked>)
    ensures forall row :: row in r <==> row in parked && row.hash != hash
    ensures (forall row :: row in parked ==> row.hash != hash) ==> r == parked
  {
    if parked == [] then []
    else if parked[0].hash == hash then Without(parked[1..], hash)
    else [parked[0]] + Without(parked[1..], hash)
  }

  /** Park, unless an unanswered request for the same call is held. */
  function ParkUnique(db: Db, row: Parked, fields: Members, now: string): (Db, Option<Parked>) {
    var held := OutstandingRow(ByAge(db.parked), fields, now);
    if held.Some? then (db, held) else (db.(parked := InsertParked(db.parked, row)), None)
  }

  function FirstDecided(rows: seq<Parked>, fields: Members): (r: Option<Parked>)
    ensures r.Some? ==> r.value in rows && Decided(r.value) && Matches(r.value, fields)
    ensures r.Some? ==> exists i :: 0 <= i < |rows| && rows[i] == r.value && NoneDecided(rows, i, fields)
    ensures r.None? ==> forall row :: row in rows ==> !(Decided(row) && Matches(row, fields))
  {
    if rows == [] then None
    else if Decided(rows[0]) && Matches(rows[0], fields) then
      assert NoneDecided(rows, 0, fields);
      Some(rows[0])
    else
      var r := FirstDecided(rows[1..], fields);
      assert r.Some? ==> exists i :: 0 <= i < |rows| && rows[i] == r.value && NoneDecided(rows, i, fields) by {
        if r.Some? {
          var i :| 0 <= i < |rows[1..]| && rows[1..][i] == r.value && NoneDecided(rows[1..], i, fields);
          assert forall j :: 0 < j < i + 1 ==> rows[j] == rows[1..][j - 1];
          assert rows[i + 1] == r.value && NoneDecided(rows, i + 1, fields);
        }
      }
      r
  }

  /** None of the first `n` rows answers this call. */
  predicate NoneDecided(rows: seq<Parked>, n: nat, fields: Members)
    requires n <= |rows|
  {
    forall j :: 0 <= j < n ==> !(Decided(rows[j]) && Matches(rows[j], fields))
  }

  function DecidedFor(db: Db, fields: Members): (r: Option<Parked>)
    ensures r.Some? ==> r.value in db.parked && Decided(r.value) && Matches(r.value, fields)
  {
    var r := FirstDecided(ByAge(db.parked), fields);
    assert r.Some? ==> r.value in multiset(ByAge(db.parked));
    r
  }

  function Answered(row: Parked, hash: string, decision: Decision): Parked {
    if row.hash == hash then row.(decision := Some(decision)) else row
  }

  /** `record_gate_decision`: transport, not authority. */
  function RecordDecision(db: Db, hash: string, decision: Decision): Db {
    db.(parked := seq(|db.parked|, i requires 0 <= i < |db.parked| => Answered(db.parked[i], hash, decision)))
  }

  function Used(row: Parked, hash: string, at: string): Parked {
    if row.hash == hash then row.(consumedAt := Some(at)) else row
  }

  function Consume(db: Db, hash: string, at: string): Db {
    db.(parked := seq(|db.parked|, i requires 0 <= i < |db.parked| => Used(db.parked[i], hash, at)))
  }

  // ---- gate replay ----

  /** A compare-and-set on the primary key: exactly one caller wins. */
  function ClaimGateUse(db: Db, hash: string, at: string): (Db, bool) {
    if hash in db.seen then (db, false) else (db.(seen := db.seen[hash := at]), true)
  }

  // ---- pushing ----

  function Pushed(row: Row, id: string, at: string, error: Option<string>): Row {
    if row.id == id then row.(pushedAt := Some(at), pushError := error) else row
  }

  /** Close the push of one envelope: accepted when `error` is absent, refused otherwise. */
  function MarkPushed(db: Db, id: string, at: string, error: Option<string>): Db {
    db.(envelopes := seq(|db.envelopes|, i requires 0 <= i < |db.envelopes| => Pushed(db.envelopes[i], id, at, error)))
  }

  function Troubled(row: Row, id: string, detail: string): Row {
    if row.id == id then row.(pushError := Some(detail)) else row
  }

  function MarkPushError(db: Db, id: string, detail: string): Db {
    db.(envelopes := seq(|db.envelopes|, i requires 0 <= i < |db.envelopes| => Troubled(db.envelopes[i], id, detail)))
  }

  /** `INSERT OR IGNORE`: the first refusal is the one that counts. */
  function RecordWedge(db: Db, stream: string, wedge: Wedge): Db {
    if stream in db.wedges then db else db.(wedges := db.wedges[stream := wedge])
  }

  function ClearWedge(db: Db, stream: string): Db {
    db.(wedges := db.wedges - {stream})
  }

  function NoteGraceUse(db: Db, stream: string): Db {
    if stream in db.wedges
    then db.(wedges := db.wedges[stream := db.wedges[stream].(graceServed := db.wedges[stream].graceServed + 1)])
    else db
  }

  predicate RowBefore(a: Row, b: Row) {
    LexLt(a.record.stream, b.record.stream)
    || (a.record.stream == b.record.stream && a.record.seqno < b.record.seqno)
  }

  /** `unpushed`: the first rows not yet consumed, ordered by stream and position. */
  predicate IsBatch(db: Db, batch: seq<Row>) {
    && (forall k :: 0 <= k < |batch| ==> batch[k] in db.envelopes && batch[k].pushedAt.None?)
    && (forall j, k :: 0 <= j < k < |batch| ==> RowBefore(batch[j], batch[k]))
    && (forall row, k :: row in db.envelopes && row.pushedAt.None? && 0 <= k < |batch| && RowBefore(row, batch[k]) ==>
          row in batch[..k])
  }
}
