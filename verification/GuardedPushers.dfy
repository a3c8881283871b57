/** Pushing as it would be if each transaction made its own test: any number of pushers, with batches of any age,
    keep the store consistent. Every test reads the tables and the row in hand and nothing else. */
module GuardedPushers {
  import opened Prelude
  import opened Store
  import opened Push
  import opened Pushers
  import opened AnyPushers
  import opened Transactions
  import opened Marking
  import opened Settling

  /** The row may be marked as the kernel answered, or is left alone. */
  predicate MayHear(w: World, p: nat, reply: Reply)
    requires p in w.pushers && w.pushers[p].spot.Offering? && w.pushers[p].batch != []
  {
    (reply.answer.Refused? && w.pushers[p].spot.standing) || Markable(w.db, w.pushers[p].batch[0], reply.answer)
  }

  /** To clear, the wedge sits before the accepted row; to record, the refused row is still the last consumed. */
  predicate MaySettle(db: Db, pusher: Pusher)
    requires pusher.batch != []
  {
    var row := pusher.batch[0];
    match pusher.spot
    case Clearing => row.record.stream in db.wedges ==> db.wedges[row.record.stream].seqno < row.record.seqno
    case Wedging(_) => IsLast(db.envelopes, row)
    case _ => true
  }

  /** A pusher that may not mark its row gives its cycle up. */
  function HearGuarded(w: World, p: nat, reply: Reply): World {
    if p in w.pushers && w.pushers[p].spot.Offering? && w.pushers[p].batch != [] && !MayHear(w, p, reply)
    then End(w, p)
    else DoHear(w, p, reply)
  }

  /** A pusher that may not clear or record goes on to its next row. */
  function SettleGuarded(w: World, p: nat): World {
    if p in w.pushers && w.pushers[p].batch != [] && !MaySettle(w.db, w.pushers[p])
    then At(w, p, AfterSettling(w.pushers[p]))
    else DoSettle(w, p)
  }

  function Guarded(w: World, t: Step): World {
    match t
    case Hear(p, reply) => HearGuarded(w, p, reply)
    case Settle(p) => SettleGuarded(w, p)
    case _ => Apply(w, t)
  }

  function GuardedRun(steps: seq<Step>): World {
    if steps == [] then INITIAL else Guarded(GuardedRun(steps[..|steps| - 1]), steps[|steps| - 1])
  }

  /** No pusher dies between its two transactions. */
  ghost predicate DiesWhole(w: World, t: Step) {
    t.Crash? ==> !MidwayIn(w, t.pusher)
  }

  ghost predicate NoneDiesMidway(steps: seq<Step>) {
    forall k :: 0 <= k < |steps| ==> DiesWhole(GuardedRun(steps[..k]), steps[k])
  }

  // ---- what every guarded step keeps, crashes included ----

  lemma SkippingIsLeaving(w: World, p: nat)
    requires AnyPushers.Inv(w) && p in w.pushers && w.pushers[p].batch != [] && !MaySettle(w.db, w.pushers[p])
    ensures Leaves(w, SettleGuarded(w, p), p)
  {
    assert PusherInLine(w.db.envelopes, w.pushers[p]);
    OnwardKeepsLine(w.db.envelopes, w.pushers[p], AfterSettling(w.pushers[p]).held);
  }

  /** A row marked under the test was not yet consumed. */
  lemma HearingIsFirm(w: World, p: nat, reply: Reply)
    requires Firm(w) && p in w.pushers && w.pushers[p].spot.Offering? && w.pushers[p].batch != [] && MayHear(w, p, reply)
    ensures Firm(DoHear(w, p, reply)) && Unrewritten(w.db.envelopes, DoHear(w, p, reply).db.envelopes)
  {
    var i := OfferedRow(w, p);
    var n := DoHear(w, p, reply);
    OneId(w.db, w.pushers[p].batch[0], i, reply);
    AnyPushers.HearKeepsInv(w, p, reply);
    if reply.answer.Unreachable? || reply.answer.NotJudged? {
      TroublingIsOneRow(w.db, i, reply.answer.detail);
      UnconsumedKeepsShape(w.db.envelopes, n.db.envelopes, i);
      FirmStays(w, n, p);
    } else if MarksRow(w.pushers[p], reply.answer) {
      JudgedIsMark(w, p, reply, i);
      assert FollowsRefusal(w.db.envelopes, w.pushers[p].batch[0]) <==> FollowsRefusal(w.db.envelopes, w.db.envelopes[i]);
      MarkingIsFirm(w, n, p, i);
    } else {
      FirmStays(w, n, p);
    }
  }

  lemma SettlingIsFirm(w: World, p: nat)
    requires Firm(w) && MidwayIn(w, p)
    ensures Firm(DoSettle(w, p))
  {
    SettleSettles(w, p);
    var stream := w.pushers[p].batch[0].record.stream;
    if w.pushers[p].spot.Clearing? {
      SettledIsFirm(w, DoSettle(w, p), p);
    } else {
      var k := HandIsHead(w, p);
      if stream !in w.db.wedges { RecordedIsFirm(w, DoSettle(w, p), p, stream, k); } else { SettledIsFirm(w, DoSettle(w, p), p); }
    }
  }

  /** Steps that mark no row and settle nothing. */
  predicate Plainly(t: Step) {
    !t.Hear? && !t.Settle?
  }

  lemma LookMovesOne(w: World, p: nat)
    requires AnyPushers.Inv(w)
    ensures OnlyMoved(w, DoLook(w, p), p) && DoLook(w, p).db == w.db && (MidwayIn(w, p) ==> DoLook(w, p) == w)
    ensures !MidwayIn(w, p) ==> !MidwayIn(DoLook(w, p), p)
  {
  }

  /** The row stored, the call counted. */
  lemma StoreIsFirm(w: World, row: Row)
    requires Firm(w) && Chainable(w.db.envelopes, row)
    ensures Firm(w.(db := w.db.(envelopes := w.db.envelopes + [row])))
  {
    var n := w.(db := w.db.(envelopes := w.db.envelopes + [row]));
    AnyPushers.StoreKeepsInv(w, row);
    if 0 in w.pushers { HandStays(w.db.envelopes, n.db.envelopes, w.pushers[0]); }
    FirmStays(w, n, 0);
  }

  /** Wedges are the same but for the calls counted on them. */
  ghost predicate Counts(w: World, n: World) {
    && n.pushers == w.pushers && n.db.envelopes == w.db.envelopes && n.db.wedges.Keys == w.db.wedges.Keys
    && forall stream :: stream in w.db.wedges ==> SameRefusal(w.db.wedges[stream], n.db.wedges[stream])
  }

  lemma GraceCounts(w: World, stream: string)
    ensures Counts(w, w.(db := NoteGraceUse(w.db, stream)))
  {
  }

  lemma CountingIsFirm(w: World, n: World)
    requires Firm(w) && Counts(w, n) && AnyPushers.Inv(n)
    ensures Firm(n)
  {
    FirmStays(w, n, 0);
  }

  lemma OutsideIsFirm(w: World, t: Step)
    requires Firm(w) && (t.Store? || t.Grace?)
    ensures Firm(Apply(w, t)) && Unrewritten(w.db.envelopes, Apply(w, t).db.envelopes)
  {
    if t.Store? {
      if Chainable(w.db.envelopes, t.row) { StoreIsFirm(w, t.row); }
    } else {
      AnyPushers.StepKeepsInv(w, t);
      GraceCounts(w, t.stream);
      CountingIsFirm(w, Apply(w, t));
    }
  }

  lemma PlainIsFirm(w: World, t: Step)
    requires Firm(w) && Plainly(t)
    ensures Firm(Apply(w, t)) && Unrewritten(w.db.envelopes, Apply(w, t).db.envelopes)
  {
    AnyPushers.StepKeepsInv(w, t);
    match t
    case Store(_) => OutsideIsFirm(w, t);
    case Grace(_) => OutsideIsFirm(w, t);
    case Read(p, _) => FirmStays(w, Apply(w, t), p);
    case Look(p) =>
      LookMovesOne(w, p);
      if !MidwayIn(w, p) { FirmStays(w, Apply(w, t), p); }
    case Crash(p) => FirmStays(w, Apply(w, t), p);
  }

  lemma HearGuardedIsFirm(w: World, p: nat, reply: Reply)
    requires Firm(w) && p in w.pushers && w.pushers[p].spot.Offering?
    ensures Firm(HearGuarded(w, p, reply)) && Unrewritten(w.db.envelopes, HearGuarded(w, p, reply).db.envelopes)
  {
    assert PusherInLine(w.db.envelopes, w.pushers[p]);
    if MayHear(w, p, reply) { HearingIsFirm(w, p, reply); } else { FirmStays(w, End(w, p), p); }
  }

  lemma SettleGuardedIsFirm(w: World, p: nat)
    requires Firm(w) && MidwayIn(w, p)
    ensures Firm(SettleGuarded(w, p)) && Unrewritten(w.db.envelopes, SettleGuarded(w, p).db.envelopes)
  {
    assert PusherInLine(w.db.envelopes, w.pushers[p]);
    if MaySettle(w.db, w.pushers[p]) {
      SettlingIsFirm(w, p);
    } else {
      SkippingIsLeaving(w, p);
      FirmStays(w, SettleGuarded(w, p), p);
    }
  }

  lemma StepIsFirm(w: World, t: Step)
    requires Firm(w)
    ensures Firm(Guarded(w, t)) && Unrewritten(w.db.envelopes, Guarded(w, t).db.envelopes)
  {
    if Plainly(t) { PlainIsFirm(w, t); }
    else if t.Hear? && t.pusher in w.pushers && w.pushers[t.pusher].spot.Offering? { HearGuardedIsFirm(w, t.pusher, t.reply); }
    else if t.Settle? && MidwayIn(w, t.pusher) { SettleGuardedIsFirm(w, t.pusher); }
    else { NothingDone(w, t); }
  }

  lemma NothingDone(w: World, t: Step)
    requires (t.Hear? && !(t.pusher in w.pushers && w.pushers[t.pusher].spot.Offering?)) || (t.Settle? && !MidwayIn(w, t.pusher))
    ensures Guarded(w, t) == w
  {
    if t.Settle? && t.pusher in w.pushers { assert w.pushers[t.pusher := w.pushers[t.pusher]] == w.pushers; }
  }

  /** With any number of pushers and crashes anywhere, no two refused rows are ever adjacent, every wedge sits on a
      row refused with its reason, */
  lemma {:induction false} GuardedRunIsFirm(steps: seq<Step>)
    ensures Firm(GuardedRun(steps))
  {
    if steps != [] {
      GuardedRunIsFirm(steps[..|steps| - 1]);
      StepIsFirm(GuardedRun(steps[..|steps| - 1]), steps[|steps| - 1]);
    }
  }

  /** and a row once consumed reads forever as it did. */
  lemma {:induction false} GuardedRunRewritesNothing(steps: seq<Step>, n: nat)
    requires n <= |steps|
    ensures Unrewritten(GuardedRun(steps[..n]).db.envelopes, GuardedRun(steps).db.envelopes)
    decreases |steps| - n
  {
    if n < |steps| {
      GuardedRunIsFirm(steps[..n]);
      StepIsFirm(GuardedRun(steps[..n]), steps[n]);
      assert steps[..n + 1][..n] == steps[..n];
      GuardedRunRewritesNothing(steps, n + 1);
    } else {
      assert steps[..n] == steps;
    }
  }

  // ---- what every guarded step keeps while nobody dies midway ----

  /** A wedge on the last consumed row is no earlier than any row its stream has consumed. */
  lemma LastIsPast(rows: seq<Row>, pusher: Pusher, wedge: Wedge)
    requires Ordered(rows) && HeadConsumed(rows, pusher)
    ensures OnLast(rows, pusher.batch[0].record.stream, wedge) ==> wedge.seqno >= pusher.batch[0].record.seqno
  {
    var row := pusher.batch[0];
    var i: nat :| i < |rows| && rows[i].id == row.id && rows[i].record == row.record && Consumed(rows[i]);
    if OnLast(rows, row.record.stream, wedge) {
      var j: nat :| LastConsumed(rows, j) && rows[j].record.stream == row.record.stream && WedgedAt(wedge, rows[j]);
      assert SameStream(rows[i], rows[j]) && SameStream(rows[j], rows[i]);
    }
  }

  lemma ClearsBefore(w: World, p: nat)
    requires Consistent(w) && MidwayIn(w, p) && w.pushers[p].batch != [] && w.pushers[p].spot.Clearing?
    requires MaySettle(w.db, w.pushers[p])
    ensures Settleable(w, p)
  {
    assert PusherInLine(w.db.envelopes, w.pushers[p]);
    var stream := w.pushers[p].batch[0].record.stream;
    if stream in w.db.wedges { LastIsPast(w.db.envelopes, w.pushers[p], w.db.wedges[stream]); }
  }

  lemma SettleGuardedKeeps(w: World, p: nat)
    requires Consistent(w) && MidwayIn(w, p)
    ensures Consistent(SettleGuarded(w, p))
  {
    assert PusherInLine(w.db.envelopes, w.pushers[p]);
    if MaySettle(w.db, w.pushers[p]) {
      if w.pushers[p].spot.Clearing? { ClearsBefore(w, p); }
      SettleKeepsExactly(w, p);
    } else {
      SkippingIsLeaving(w, p);
      SkippedIsSpared(w, p);
      LeavingKeepsExactly(w, SettleGuarded(w, p), p);
    }
  }

  lemma SkippedIsSpared(w: World, p: nat)
    requires Consistent(w) && MidwayIn(w, p) && w.pushers[p].batch != [] && !MaySettle(w.db, w.pushers[p])
    ensures Spared(w, p)
  {
    var row := w.pushers[p].batch[0];
    if w.pushers[p].spot.Clearing? && row.record.stream in w.db.wedges {
      assert WedgeAttended(w, row.record.stream);
    }
  }

  lemma HearGuardedKeeps(w: World, p: nat, reply: Reply)
    requires Consistent(w) && p in w.pushers && w.pushers[p].spot.Offering?
    ensures Consistent(HearGuarded(w, p, reply))
  {
    HearKeepsExactly(w, p, reply);
    if !MayHear(w, p, reply) { JoiningKeeps(w, End(w, p), p); }
  }

  lemma StoreAttends(w: World, row: Row)
    requires Consistent(w) && Chainable(w.db.envelopes, row)
    ensures Attended(w.(db := w.db.(envelopes := w.db.envelopes + [row])))
  {
    var n := w.(db := w.db.(envelopes := w.db.envelopes + [row]));
    var rows, after := w.db.envelopes, n.db.envelopes;
    forall j: nat ensures LastConsumed(after, j) <==> LastConsumed(rows, j) { StoredSameLast(rows, row, j); }
    forall stream | stream in n.db.wedges ensures WedgeAttended(n, stream) {
      assert WedgeAttended(w, stream);
      if OnLast(rows, stream, w.db.wedges[stream]) {
        var j: nat :| LastConsumed(rows, j) && rows[j].record.stream == stream && WedgedAt(w.db.wedges[stream], rows[j]);
        assert LastConsumed(after, j);
      } else {
        assert SomeoneClears(n, stream, w.db.wedges[stream].seqno);
      }
    }
    forall j: nat ensures RowAttended(n, j) {
      assert RowAttended(w, j);
      if LastConsumed(rows, j) && SomeoneRecords(w, rows[j]) { assert SomeoneRecords(n, after[j]); }
    }
  }

  lemma StoredSameLast(rows: seq<Row>, row: Row, j: nat)
    requires row.pushedAt.None?
    ensures LastConsumed(rows + [row], j) <==> LastConsumed(rows, j)
  {
    var after := rows + [row];
    if LastConsumed(after, j) {
      forall k | j < k < |rows| && SameStream(rows[j], rows[k]) ensures !Consumed(rows[k]) {
        assert SameStream(after[j], after[k]);
      }
    }
  }

  lemma CountingAttends(w: World, n: World)
    requires Attended(w) && Counts(w, n)
    ensures Attended(n)
  {
    var rows := w.db.envelopes;
    forall s | s in n.db.wedges ensures WedgeAttended(n, s) {
      assert WedgeAttended(w, s);
      if OnLast(rows, s, w.db.wedges[s]) {
        var j: nat :| LastConsumed(rows, j) && rows[j].record.stream == s && WedgedAt(w.db.wedges[s], rows[j]);
        assert WedgedAt(n.db.wedges[s], rows[j]);
      } else {
        assert SomeoneClears(n, s, w.db.wedges[s].seqno);
      }
    }
    forall j: nat ensures RowAttended(n, j) {
      assert RowAttended(w, j);
      if LastConsumed(rows, j) && SomeoneRecords(w, rows[j]) { assert SomeoneRecords(n, rows[j]); }
    }
  }

  lemma PlainKeeps(w: World, t: Step)
    requires Consistent(w) && Plainly(t) && DiesWhole(w, t)
    ensures Consistent(Apply(w, t))
  {
    PlainIsFirm(w, t);
    match t
    case Store(row) => if Chainable(w.db.envelopes, row) { StoreAttends(w, row); }
    case Grace(stream) => GraceCounts(w, stream); CountingAttends(w, Apply(w, t));
    case Read(p, _) => if Apply(w, t) != w { JoiningKeeps(w, Apply(w, t), p); }
    case Look(p) =>
      LookMovesOne(w, p);
      if !MidwayIn(w, p) { JoiningKeeps(w, Apply(w, t), p); }
    case Crash(p) => JoiningKeeps(w, Apply(w, t), p);
  }

  lemma StepKeeps(w: World, t: Step)
    requires Consistent(w) && DiesWhole(w, t)
    ensures Consistent(Guarded(w, t))
  {
    if Plainly(t) { PlainKeeps(w, t); }
    else if t.Hear? && t.pusher in w.pushers && w.pushers[t.pusher].spot.Offering? { HearGuardedKeeps(w, t.pusher, t.reply); }
    else if t.Settle? && MidwayIn(w, t.pusher) { SettleGuardedKeeps(w, t.pusher); }
    else { NothingDone(w, t); }
  }

  /** While no pusher dies between its two transactions, any number of them keep the store consistent, up to what
      those between their two transactions are still to do. */
  lemma {:induction false} GuardedRunIsConsistent(steps: seq<Step>)
    requires NoneDiesMidway(steps)
    ensures Consistent(GuardedRun(steps))
  {
    if steps != [] {
      var before := steps[..|steps| - 1];
      forall k | 0 <= k < |before| ensures DiesWhole(GuardedRun(before[..k]), before[k]) {
        assert before[..k] == steps[..k] && before[k] == steps[k];
      }
      GuardedRunIsConsistent(before);
      assert DiesWhole(GuardedRun(steps[..|steps| - 1]), steps[|steps| - 1]);
      StepKeeps(GuardedRun(before), steps[|steps| - 1]);
    }
  }

  /** Whenever nobody is midway, the store is consistent outright: consumed rows are a prefix of their stream, a wedge
      sits exactly on the last consumed row, and no two refused rows are adjacent. */
  lemma GuardedRunKeepsInv(steps: seq<Step>)
    requires NoneDiesMidway(steps) && NobodyMidway(GuardedRun(steps))
    ensures Push.Inv(GuardedRun(steps).db)
  {
    GuardedRunIsConsistent(steps);
    SettledExactly(GuardedRun(steps));
  }
}
