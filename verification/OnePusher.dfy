/** What holds while pushers take turns: one at a time, none dying between its two transactions, with
    envelopes chained and calls served between any two transactions. */
module OnePusher {
  import opened Prelude
  import opened Store
  import opened Push
  import opened Pushers
  import AnyPushers

  /** A pusher starts when none is at work, and dies only outside an acceptance or a refusal. */
  predicate TakesTurns(w: World, t: Step) {
    && (t.Read? ==> w.pushers == map[])
    && (t.Crash? && t.pusher in w.pushers ==> !AnyPushers.Midway(w.pushers[t.pusher]))
  }

  ghost predicate Orderly(steps: seq<Step>) {
    forall k :: 0 <= k < |steps| ==> TakesTurns(Run(steps[..k]), steps[k])
  }

  /** The cycle a pusher has under way, once what it is in the middle of is done. */
  function CycleOf(db: Db, pusher: Pusher): Cycle {
    Cycle(Settled(db, pusher), AfterSettling(pusher).held, false)
  }

  ghost predicate AtWork(db: Db, pusher: Pusher) {
    && Push.Inv(CycleOf(db, pusher).db) && Lined(CycleOf(db, pusher), AfterSettling(pusher).batch)
    && (!pusher.spot.Choosing? ==> pusher.batch != [])
    && (pusher.spot.Offering? ==>
          var stream := pusher.batch[0].record.stream;
          stream !in pusher.held && pusher.spot.standing == (stream in db.wedges))
  }

  ghost predicate Inv(w: World) {
    && (forall p, q :: p in w.pushers && q in w.pushers ==> p == q)
    && (forall p :: p in w.pushers ==> AtWork(w.db, w.pushers[p]))
    && (w.pushers == map[] ==> Push.Inv(w.db))
  }

  lemma LinedPast(c: Cycle, batch: seq<Row>)
    requires Push.Inv(c.db) && Lined(c, batch) && batch != [] && !c.stopped && batch[0].record.stream in c.wedged
    ensures Lined(c, batch[1..])
  {
    PushOneKeepsLined(c, batch, Reply(Accepted, "", ""));
  }

  lemma LookKeepsInv(w: World, p: nat)
    requires Inv(w)
    ensures Inv(DoLook(w, p))
  {
    if p in w.pushers && w.pushers[p].spot.Choosing? && w.pushers[p].batch != [] {
      var pusher := w.pushers[p];
      assert AtWork(w.db, pusher);
      if pusher.batch[0].record.stream in pusher.held { LinedPast(CycleOf(w.db, pusher), pusher.batch); }
    }
  }

  /** The pusher's step `w` to `n` has done, or is in the middle of, this one row of its cycle. */
  ghost predicate OneRow(w: World, n: World, p: nat, c: Cycle)
    requires p in w.pushers && w.pushers[p].batch != []
  {
    && c.db.envelopes == n.db.envelopes
    && (c.stopped <==> p !in n.pushers) && n.pushers - {p} == w.pushers - {p}
    && (c.stopped ==> n.db == c.db)
    && (!c.stopped ==> CycleOf(n.db, n.pushers[p]) == c && AfterSettling(n.pushers[p]).batch == w.pushers[p].batch[1..]
                       && !n.pushers[p].spot.Offering? && (n.pushers[p].batch != [] || n.pushers[p].spot.Choosing?))
  }

  lemma RefusedIsPushOne(w: World, p: nat, reply: Reply)
    requires p in w.pushers && w.pushers[p].spot.Offering? && AtWork(w.db, w.pushers[p]) && reply.answer.Refused?
    ensures OneRow(w, DoHear(w, p, reply), p, PushOne(CycleOf(w.db, w.pushers[p]), w.pushers[p].batch[0], reply))
  {
  }

  lemma AcceptedIsPushOne(w: World, p: nat, reply: Reply)
    requires p in w.pushers && w.pushers[p].spot.Offering? && AtWork(w.db, w.pushers[p]) && reply.answer.Accepted?
    ensures OneRow(w, DoHear(w, p, reply), p, PushOne(CycleOf(w.db, w.pushers[p]), w.pushers[p].batch[0], reply))
  {
  }

  lemma UnjudgedIsPushOne(w: World, p: nat, reply: Reply)
    requires p in w.pushers && w.pushers[p].spot.Offering? && AtWork(w.db, w.pushers[p])
    requires reply.answer.Unreachable? || reply.answer.NotJudged?
    ensures OneRow(w, DoHear(w, p, reply), p, PushOne(CycleOf(w.db, w.pushers[p]), w.pushers[p].batch[0], reply))
  {
  }

  /** An answer heard and, in time, settled is one row of the cycle. */
  lemma HearIsPushOne(w: World, p: nat, reply: Reply)
    requires p in w.pushers && w.pushers[p].spot.Offering? && AtWork(w.db, w.pushers[p])
    ensures OneRow(w, DoHear(w, p, reply), p, PushOne(CycleOf(w.db, w.pushers[p]), w.pushers[p].batch[0], reply))
  {
    if reply.answer.Refused? { RefusedIsPushOne(w, p, reply); }
    else if reply.answer.Accepted? { AcceptedIsPushOne(w, p, reply); }
    else { UnjudgedIsPushOne(w, p, reply); }
  }

  lemma HearKeepsInv(w: World, p: nat, reply: Reply)
    requires Inv(w)
    ensures Inv(DoHear(w, p, reply))
  {
    if p in w.pushers && w.pushers[p].spot.Offering? && w.pushers[p].batch != [] {
      var pusher, n := w.pushers[p], DoHear(w, p, reply);
      var c := CycleOf(w.db, pusher);
      HearIsPushOne(w, p, reply);
      PushOneKeepsInv(c, pusher.batch, reply);
      if !PushOne(c, pusher.batch[0], reply).stopped { PushOneKeepsLined(c, pusher.batch, reply); }
    }
  }

  lemma SettleKeepsInv(w: World, p: nat)
    requires Inv(w)
    ensures Inv(DoSettle(w, p))
  {
    if p in w.pushers {
      var pusher := w.pushers[p];
      assert AtWork(w.db, pusher);
      assert CycleOf(Settled(w.db, pusher), AfterSettling(pusher)) == CycleOf(w.db, pusher);
    }
  }

  /** A row chained behind a batch leaves it lined up. */
  lemma LinedBeforeAppend(c: Cycle, batch: seq<Row>, row: Row)
    requires Lined(c, batch)
    ensures Lined(c.(db := c.db.(envelopes := c.db.envelopes + [row])), batch)
  {
    var n := c.(db := c.db.(envelopes := c.db.envelopes + [row]));
    forall k | 0 <= k < |batch| ensures InTurn(n, batch, k) {
      assert InTurn(c, batch, k);
      if batch[k].record.stream !in c.wedged {
        var i: nat :| StandsAt(c.db.envelopes, batch, k, i);
        assert StandsAt(n.db.envelopes, batch, k, i);
      }
    }
  }

  lemma StoreKeepsWork(db: Db, pusher: Pusher, row: Row)
    requires AtWork(db, pusher) && Chainable(db.envelopes, row)
    ensures AtWork(db.(envelopes := db.envelopes + [row]), pusher)
  {
    var c := CycleOf(db, pusher);
    StoringKeepsInv(c.db, row);
    LinedBeforeAppend(c, AfterSettling(pusher).batch, row);
    assert CycleOf(db.(envelopes := db.envelopes + [row]), pusher).db == c.db.(envelopes := c.db.envelopes + [row]);
  }

  /** A call served while a pusher is between two transactions: counted on the wedge, or lost with it. */
  lemma GraceThenSettle(db: Db, pusher: Pusher, stream: string)
    ensures var n, c := Settled(NoteGraceUse(db, stream), pusher), Settled(db, pusher);
      n == c || n == NoteGraceUse(c, stream)
  {
    var n, c := Settled(NoteGraceUse(db, stream), pusher), Settled(db, pusher);
    if stream in db.wedges && pusher.batch != [] {
      var own := pusher.batch[0].record.stream;
      if pusher.spot.Clearing? {
        if own == stream { assert n.wedges == c.wedges; } else { assert n.wedges == NoteGraceUse(c, stream).wedges; }
      } else if pusher.spot.Wedging? {
        assert n.wedges == NoteGraceUse(c, stream).wedges;
      }
    }
  }

  lemma GraceKeepsWork(db: Db, pusher: Pusher, stream: string)
    requires AtWork(db, pusher)
    ensures AtWork(NoteGraceUse(db, stream), pusher)
  {
    var n, c := CycleOf(NoteGraceUse(db, stream), pusher), CycleOf(db, pusher);
    GraceThenSettle(db, pusher, stream);
    GraceKeepsInv(c.db, stream);
    SameTableSameLine(c, n, AfterSettling(pusher).batch);
  }

  lemma SameTableSameLine(c: Cycle, n: Cycle, batch: seq<Row>)
    requires Lined(c, batch) && n.db.envelopes == c.db.envelopes && n.wedged == c.wedged
    ensures Lined(n, batch)
  {
    forall k | 0 <= k < |batch| ensures InTurn(n, batch, k) { assert InTurn(c, batch, k); }
  }

  lemma OutsideKeepsInv(w: World, t: Step)
    requires Inv(w) && (t.Store? || t.Grace?)
    ensures Inv(Apply(w, t))
  {
    var n := Apply(w, t);
    if t.Store? {
      if Chainable(w.db.envelopes, t.row) {
        forall p | p in w.pushers ensures AtWork(n.db, w.pushers[p]) { StoreKeepsWork(w.db, w.pushers[p], t.row); }
        if w.pushers == map[] { StoringKeepsInv(w.db, t.row); }
      }
    } else {
      forall p | p in w.pushers ensures AtWork(n.db, w.pushers[p]) { GraceKeepsWork(w.db, w.pushers[p], t.stream); }
      if w.pushers == map[] { GraceKeepsInv(w.db, t.stream); }
    }
  }

  lemma ReadKeepsInv(w: World, p: nat, batch: seq<Row>)
    requires Inv(w) && w.pushers == map[] && IsBatch(w.db, batch)
    ensures Inv(At(w, p, Pusher(batch, {}, Choosing)))
  {
    BatchIsLined(w.db, batch);
    assert AtWork(w.db, Pusher(batch, {}, Choosing));
  }

  lemma CrashKeepsInv(w: World, p: nat)
    requires Inv(w) && (p in w.pushers ==> !AnyPushers.Midway(w.pushers[p]))
    ensures Inv(End(w, p))
  {
    if p in w.pushers { assert AtWork(w.db, w.pushers[p]); }
  }

  lemma StepKeepsInv(w: World, t: Step)
    requires Inv(w) && TakesTurns(w, t)
    ensures Inv(Apply(w, t))
  {
    match t
    case Store(_) => OutsideKeepsInv(w, t);
    case Grace(_) => OutsideKeepsInv(w, t);
    case Read(p, batch) => if p !in w.pushers && IsBatch(w.db, batch) { ReadKeepsInv(w, p, batch); }
    case Look(p) => LookKeepsInv(w, p);
    case Hear(p, reply) => HearKeepsInv(w, p, reply);
    case Settle(p) => SettleKeepsInv(w, p);
    case Crash(p) => CrashKeepsInv(w, p);
  }

  lemma LastTakesTurns(steps: seq<Step>)
    requires Orderly(steps) && steps != []
    ensures Orderly(steps[..|steps| - 1]) && TakesTurns(Run(steps[..|steps| - 1]), steps[|steps| - 1])
  {
    OrderlyBefore(steps, |steps| - 1);
  }

  lemma {:induction false} RunKeepsInv(steps: seq<Step>)
    requires Orderly(steps)
    ensures Inv(Run(steps))
  {
    if steps != [] {
      LastTakesTurns(steps);
      RunKeepsInv(steps[..|steps| - 1]);
      StepKeepsInv(Run(steps[..|steps| - 1]), steps[|steps| - 1]);
    }
  }

  lemma OrderlyBefore(steps: seq<Step>, n: nat)
    requires Orderly(steps) && n <= |steps|
    ensures Orderly(steps[..n])
  {
    forall k | 0 <= k < n ensures TakesTurns(Run(steps[..n][..k]), steps[..n][k]) {
      assert steps[..n][..k] == steps[..k] && steps[..n][k] == steps[k];
    }
  }

  /** In every run in which pushers take turns, whenever none is between its two transactions: consumed rows
      are a prefix of their stream, a wedge sits exactly on the last consumed row, and no two refused rows are
      adjacent. */
  lemma TurnsKeepInv(steps: seq<Step>)
    requires Orderly(steps) && AnyPushers.NobodyMidway(Run(steps))
    ensures Push.Inv(Run(steps).db)
  {
    RunKeepsInv(steps);
    var w := Run(steps);
    if w.pushers != map[] {
      var p :| p in w.pushers;
      assert AtWork(w.db, w.pushers[p]) && Settled(w.db, w.pushers[p]) == w.db;
    }
  }

  /** A recorded refusal keeps its row as it is. */
  lemma StepKeepsRefusals(w: World, t: Step, row: Row)
    requires Inv(w) && StillRefused(row, w.db)
    ensures StillRefused(row, Apply(w, t).db)
  {
    if t.Hear? && t.pusher in w.pushers && w.pushers[t.pusher].spot.Offering? && w.pushers[t.pusher].batch != [] {
      var pusher := w.pushers[t.pusher];
      HearIsPushOne(w, t.pusher, t.reply);
      PushOneKeepsRefusals(CycleOf(w.db, pusher), pusher.batch, t.reply, row);
    }
  }

  /** While pushers take turns, a recorded refusal reason is never erased. */
  lemma {:induction false} TurnsKeepRefusals(steps: seq<Step>, n: nat, row: Row)
    requires Orderly(steps) && n <= |steps| && StillRefused(row, Run(steps[..n]).db)
    ensures StillRefused(row, Run(steps).db)
    decreases |steps| - n
  {
    if n < |steps| {
      OrderlyBefore(steps, n);
      RunKeepsInv(steps[..n]);
      StepKeepsRefusals(Run(steps[..n]), steps[n], row);
      assert steps[..n + 1][..n] == steps[..n];
      TurnsKeepRefusals(steps, n + 1, row);
    } else {
      assert steps[..n] == steps;
    }
  }
}
