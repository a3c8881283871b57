/** The enforcer as code: one governed call from its first look at the gate to its record, and the
    recovery of what an earlier process left open. Between any two of its transactions other threads and
    processes take any steps they like, and the process may die.
 */
module Enforcer {
  import opened Prelude
  import opened Gate
  import opened GateRules
  import opened Store
  import opened Protocol
  import opened Frames
  import opened Database
  import opened Deployment
  import Outcomes

  /** One call as the session submits it. */
  datatype Call = Call(caller: nat, session: nat, fields: Members, gated: bool, folds: bool, approvers: seq<Approver>,
                       request: Members, intent: string)

  /** What surrounds one transaction: the clock it reads, whether its write goes through, and the steps
      others take after it. */
  datatype Gap = Gap(now: string, ok: bool, others: seq<Step>)

  datatype Answer =
    | Applied                                // the downstream's result, returned unchanged
    | Reraised                               // the downstream's exception
    | Downstream                             // a refusal raised by the downstream
    | Unrecorded                             // applied, but its record could not be chained
    | Awaiting(held: Option<Parked>)         // parked, or already parked
    | Denied
    | Blocked(code: string)
    | Unstored                               // the write-ahead record could not be stored
    | Stopped                                // the process died under the call

  /** The answers of a call that got past the gate. */
  predicate OneAnswer(answer: Answer) {
    Reached(answer) || answer.Unstored? || answer.Stopped?
  }

  /** The call got through to the downstream. */
  predicate Reached(answer: Answer) {
    answer.Applied? || answer.Reraised? || answer.Downstream? || answer.Unrecorded?
  }

  /** Steps of others, or the end of this thread. */
  predicate Foreign(t: Step, caller: nat) {
    Actor(t) != Some(caller) || t.Crash?
  }

  predicate AllForeign(steps: seq<Step>, caller: nat) {
    forall k :: 0 <= k < |steps| ==> Foreign(steps[k], caller)
  }

  predicate Surrounded(gaps: seq<Gap>, n: nat, caller: nat) {
    |gaps| == n && forall k :: 0 <= k < |gaps| ==> AllForeign(gaps[k].others, caller)
  }

  /** The forwards made by one caller. */
  function ForwardsOf(forwards: seq<Forwarded>, caller: nat): seq<Forwarded> {
    if forwards == [] then []
    else
      var last := forwards[|forwards| - 1];
      ForwardsOf(forwards[..|forwards| - 1], caller) + if last.caller == caller then [last] else []
  }

  lemma ForwardsOfMore(forwards: seq<Forwarded>, f: Forwarded, caller: nat)
    ensures ForwardsOf(forwards + [f], caller) == ForwardsOf(forwards, caller) + if f.caller == caller then [f] else []
  {
    assert (forwards + [f])[..|forwards|] == forwards;
  }

  /** A thread stands as it stood, or is gone, and has forwarded what it had. */
  ghost predicate Undisturbed(s: State, n: State, caller: nat) {
    && (caller in n.threads ==> caller in s.threads && n.threads[caller] == s.threads[caller])
    && ForwardsOf(n.history.forwards, caller) == ForwardsOf(s.history.forwards, caller)
  }

  lemma ForeignUndisturbed(kit: Kit, s: State, t: Step, caller: nat)
    requires Foreign(t, caller)
    ensures Undisturbed(s, Apply(kit, s, t), caller)
  {
    if Actor(t) != Some(caller) && caller in Apply(kit, s, t).threads { OthersStand(kit, s, t, caller); }
    ForwardsOnlyGrow(kit, s, t);
    if t.Forward? { OneMoreIsNotOurs(s.history.forwards, Apply(kit, s, t).history.forwards, t.caller, caller); }
  }

  lemma OneMoreIsNotOurs(was: seq<Forwarded>, now: seq<Forwarded>, c: nat, caller: nat)
    requires c != caller
    requires now == was || (|now| == |was| + 1 && now[..|was|] == was && now[|was|].caller == c)
    ensures ForwardsOf(now, caller) == ForwardsOf(was, caller)
  {
    if now != was {
      assert now == was + [now[|was|]];
      ForwardsOfMore(was, now[|was|], caller);
    }
  }

  function LastDraft(rows: seq<Row>): Option<Draft> {
    if rows == [] then None else Some(rows[|rows| - 1].record.draft)
  }

  /** What one call may have forwarded: one call, on an approval of its own members when it is gated. */
  ghost predicate ActedOnce(was: seq<Forwarded>, now: seq<Forwarded>, c: Call, outcome: Outcome) {
    && |now| == |was| + 1 && was <= now
    && var made := now[|was|];
       && made.caller == c.caller && made.outcome == outcome
       && (if c.gated then made.auth.Some? && NineAgree(made.auth.value.request, c.fields) else made.auth.None?)
       && made.intent == if c.folds && made.auth.None? then None else Some(c.intent)
  }

  /** The structural check refuses nothing. */
  ghost predicate NothingRefused(kit: Kit) {
    forall r: Record :: kit.view.shape(r).None?
  }

  /** No request held answers this call. */
  predicate NoneAnswers(rows: seq<Parked>, fields: Members) {
    forall r :: r in rows ==> !Answers(r, fields)
  }

  /** The chain ends in the record of the call's own forward. */
  ghost predicate Recorded(forwards: seq<Forwarded>, rows: seq<Row>, c: Call, key: string, now: string) {
    && forwards != [] && LastDraft(rows).Some?
    && var draft := LastDraft(rows).value;
       && draft.key == key && draft.outcome == "applied" && draft.summary.None?
       && draft.content.performed == c.fields && draft.content.emittedAt == Text(now)
       && draft.content.authorization
            == (match forwards[|forwards| - 1].auth case Some(g) => Some(Authorization(Some(g.request), Some(g.decision))) case None => None)
  }

  lemma EffectIsRecorded(forwards: seq<Forwarded>, rows: seq<Row>, c: Call, key: string, now: string)
    requires forwards != [] && LastDraft(rows) == Some(EffectDraft(key, c.fields, "applied", forwards[|forwards| - 1].auth, now))
    ensures Recorded(forwards, rows, c, key, now)
  {
  }

  /** The row accounts for a record left open: as attempted, for what was written ahead, stamped when it was chained. */
  predicate RecoveredAt(written: map<string, Intent>, row: Row, stream: string, now: string) {
    && row.origin.Closing? && row.origin.intent in written && row.record.stream == stream
    && var draft := written[row.origin.intent].draft;
       && row.record.draft.outcome == "attempted" && row.record.draft.key == draft.key
       && row.record.draft.content.performed == draft.content.performed
       && row.record.draft.content.authorization == draft.content.authorization
       && row.record.draft.content.emittedAt == Text(now)
  }

  predicate Recovered(written: map<string, Intent>, row: Row, stream: string, writes: seq<(string, bool)>) {
    exists k :: 0 <= k < |writes| && RecoveredAt(written, row, stream, writes[k].0)
  }

  /** The records are those written, but for having been closed since. */
  predicate OnlyClosed(written: map<string, Intent>, now: map<string, Intent>) {
    now.Keys == written.Keys && forall i :: i in written ==> now[i] == written[i].(resolvedAt := now[i].resolvedAt)
  }

  /** Rows were only added, one for each record recovered. */
  ghost predicate AllRecovered(was: seq<Row>, rows: seq<Row>, written: map<string, Intent>, stream: string, writes: seq<(string, bool)>) {
    && |was| <= |rows| && rows[..|was|] == was
    && forall k :: |was| <= k < |rows| ==> Recovered(written, rows[k], stream, writes)
  }

  lemma OneMoreRecovered(was: seq<Row>, before: seq<Row>, after: seq<Row>, written: map<string, Intent>, now: map<string, Intent>,
                         stream: string, writes: seq<(string, bool)>, k: nat)
    requires AllRecovered(was, before, written, stream, writes) && OnlyClosed(written, now) && k < |writes|
    requires |before| <= |after| <= |before| + 1 && after[..|before|] == before
    requires |after| > |before| ==> RecoveredAt(now, after[|before|], stream, writes[k].0)
    ensures AllRecovered(was, after, written, stream, writes)
  {
    assert after[..|was|] == after[..|before|][..|was|];
    forall j | |was| <= j < |after| ensures Recovered(written, after[j], stream, writes) {
      if j < |before| {
        assert after[j] == after[..|before|][j];
      } else {
        assert RecoveredAt(written, after[j], stream, writes[k].0);
      }
    }
  }

  lemma ClosedFurther(a: map<string, Intent>, b: map<string, Intent>, c: map<string, Intent>)
    requires OnlyClosed(a, b) && OnlyClosed(b, c)
    ensures OnlyClosed(a, c)
  {
  }

  /** No more records are open than there are. */
  lemma {:induction false} ListedOnce(db: Db, stream: string, key: string, todo: seq<string>)
    requires ListsOpen(db, stream, key, todo)
    ensures |todo| <= |db.intents|
  {
    var ids := set x | x in todo;
    SetOfDistinct(todo);
    assert ids <= db.intents.Keys;
    Cardinal(ids, db.intents.Keys);
  }

  lemma {:induction false} SetOfDistinct(s: seq<string>)
    requires forall j, k :: 0 <= j < k < |s| ==> s[j] != s[k]
    ensures |set x | x in s| == |s|
  {
    if s != [] {
      var last := |s| - 1;
      SetOfDistinct(s[..last]);
      assert (set x | x in s) == (set x | x in s[..last]) + {s[last]};
    }
  }

  lemma {:induction false} Cardinal(a: set<string>, b: set<string>)
    requires a <= b
    ensures |a| <= |b|
    decreases |a|
  {
    if a != {} {
      var x :| x in a;
      Cardinal(a - {x}, b - {x});
    }
  }

  /** Closing the first of the records still to do leaves the others open, and only them. */
  lemma OneLessOpen(intents: map<string, Intent>, db: Db, stream: string, key: string, left: seq<string>, id: string,
                    rest: seq<string>, at: string)
    requires ListsOpen(db.(intents := intents), stream, key, left + [id] + rest)
    ensures db.intents == intents ==> ListsOpen(db, stream, key, left + [id] + rest)
    ensures db.intents == Resolve(intents, id, at) ==> ListsOpen(db, stream, key, left + rest)
  {
    var was, all := db.(intents := intents), left + [id] + rest;
    if db.intents == Resolve(intents, id, at) {
      var now := left + rest;
      assert all[|left|] == id;
      forall i | 0 <= i < |now| ensures IsOpen(db, now[i], stream, key) && now[i] != id {
        assert now[i] == all[if i < |left| then i else i + 1];
      }
      forall i, j | 0 <= i < j < |now| ensures now[i] != now[j] {
        assert now[i] == all[if i < |left| then i else i + 1] && now[j] == all[if j < |left| then j else j + 1];
      }
      forall x | x in db.intents && IsOpen(db, x, stream, key) ensures x in now {
        assert IsOpen(was, x, stream, key);
        var i :| 0 <= i < |all| && all[i] == x;
        assert x == now[if i < |left| then i else i - 1];
      }
    } else if db.intents == intents {
      assert db == was;
    }
  }

  /** Parking leaves every forward as it was. */
  lemma ParkIsStep(kit: Kit, s: State, caller: nat, request: Members, now: string)
    ensures Apply(kit, s, Step.Park(caller, request, now)) == DoPark(kit, s, caller, request, now)
    ensures DoPark(kit, s, caller, request, now).history == s.history
  {
  }

  lemma WriteAheadIsStep(kit: Kit, s: State, caller: nat, intent: string, now: string, ok: bool)
    ensures Apply(kit, s, Step.WriteAhead(caller, intent, now, ok)) == DoWriteAhead(s, caller, intent, now, ok)
    ensures DoWriteAhead(s, caller, intent, now, ok).history.forwards == s.history.forwards
  {
  }

  class Enforcer {
    const d: Deployment

    constructor (d: Deployment)
      ensures this.d == d
    {
      this.d := d;
    }

    /** What one caller has forwarded so far. */
    ghost function Forwards(caller: nat): seq<Forwarded>
      reads d
    {
      ForwardsOf(d.history.forwards, caller)
    }

    /** Other threads take their steps. The thread is alive afterwards, where it stood, or gone. */
    method Others(caller: nat, steps: seq<Step>) returns (alive: bool)
      requires d.Valid() && AllForeign(steps, caller)
      modifies d, d.store
      ensures d.Valid() && Undisturbed(old(d.World()), d.World(), caller) && alive == (caller in d.threads)
    {
      for k := 0 to |steps|
        invariant d.Valid() && Undisturbed(old(d.World()), d.World(), caller)
      {
        ForeignUndisturbed(d.store.kit, d.World(), steps[k], caller);
        d.Take(steps[k]);
      }
      alive := caller in d.threads;
    }

    /** A transaction has been made: it is a step of the run, and then others take theirs. */
    method After(ghost before: State, ghost t: Step, caller: nat, others: seq<Step>) returns (alive: bool)
      requires d.store.Valid() && before == Run(d.store.kit, d.trace) && d.World() == Apply(d.store.kit, before, t)
      requires AllForeign(others, caller)
      modifies d, d.store
      ensures d.Valid() && Undisturbed(old(d.World()), d.World(), caller) && alive == (caller in d.threads)
    {
      d.Note(before, t);
      alive := Others(caller, others);
    }

    /** The answer the row holds is a good approval of its request, not spent yet unless it is reusable. */
    predicate Passes(row: Parked, approvers: seq<Approver>, now: string, seen: map<string, string>)
      requires row.decision.Some?
      reads d.store
    {
      Approves(d.store.kit.hash(row.request), row.request, row.decision.value, approvers, Text(now),
               if row.hash in seen then {row.hash} else {})
    }

    /** The answer is a reasoned denial by someone who may decide. */
    predicate IsDenial(row: Parked, approvers: seq<Approver>)
      requires row.decision.Some?
      reads d.store
    {
      && SignedFor(d.store.kit.hash(row.request), row.request, row.decision.value, approvers)
      && Get(row.decision.value.members, "decision") == Text("deny") && GivesReason(row.decision.value)
    }

    /** The thread is alive at this point of its call, or dead, and has forwarded nothing more. */
    twostate predicate Moved(caller: nat, alive: bool, pc: Pc)
      reads d, d.store
    {
      && d.Valid() && Forwards(caller) == old(Forwards(caller)) && alive == (caller in d.threads)
      && (alive ==> caller in old(d.threads) && d.threads[caller] == old(d.threads)[caller].(pc := pc))
    }

    /** The thread's call is over, with nothing more forwarded. */
    twostate predicate Over(caller: nat)
      reads d, d.store
    {
      d.Valid() && Forwards(caller) == old(Forwards(caller)) && caller !in d.threads
    }

    // ---- each transaction with what surrounds it ----

    method Locating(caller: nat, gap: Gap) returns (row: Option<Parked>, alive: bool)
      requires d.Valid() && AllForeign(gap.others, caller) && caller in d.threads && d.threads[caller].pc.Asking?
      modifies d, d.store
      ensures Moved(caller, alive, if row.Some? then Found(row.value) else Parking)
      ensures row.Some? ==> Decided(row.value) && Matches(row.value, old(d.threads)[caller].fields)
      ensures row.None? <==> NoneAnswers(old(d.store.parked), old(d.threads)[caller].fields)
    {
      ghost var before := d.World();
      row := d.Locate(caller);
      alive := After(before, Step.Locate(caller), caller, gap.others);
    }

    method ParkingIt(caller: nat, request: Members, gap: Gap) returns (held: Option<Parked>)
      requires d.Valid() && AllForeign(gap.others, caller) && caller in d.threads && d.threads[caller].pc.Parking?
      requires BoundEqual(request, d.threads[caller].fields)
      modifies d, d.store
      ensures Over(caller)
      ensures var fields, now := old(d.threads)[caller].fields, old(d.clock);
        if held.Some? then OldestSuch(old(d.store.parked), held.value, r => Waits(r, fields, now))
        else forall r :: r in old(d.store.parked) ==> !Waits(r, fields, now)
    {
      ghost var before := d.World();
      var now := d.clock;
      LexTotal(now, now);
      held := d.Park(caller, request, now);
      ParkIsStep(d.store.kit, before, caller, request, now);
      var _ := After(before, Step.Park(caller, request, now), caller, gap.others);
    }

    method Checking(caller: nat, row: Parked, gap: Gap) returns (answer: Result<Option<Approval>, string>, alive: bool)
      requires d.Valid() && AllForeign(gap.others, caller) && caller in d.threads && d.threads[caller].pc == Found(row)
      requires row.decision.Some?
      modifies d, d.store
      ensures Moved(caller, alive, if answer.Ok? then Passed(row, gap.now) else Pc.Refused(row, answer.error == "gate-denied"))
      ensures answer.Ok? <==> Passes(row, old(d.threads)[caller].approvers, gap.now, old(d.store.seen))
      ensures answer == Err("gate-denied") <==> IsDenial(row, old(d.threads)[caller].approvers)
    {
      ghost var before := d.World();
      answer := d.Check(caller, gap.now);
      alive := After(before, Step.Check(caller, gap.now), caller, gap.others);
    }

    method Claiming(caller: nat, row: Parked, gap: Gap) returns (first: bool, alive: bool)
      requires d.Valid() && AllForeign(gap.others, caller) && caller in d.threads
      requires d.threads[caller].pc.Passed? && d.threads[caller].pc.row == row && row.decision.Some?
      modifies d, d.store
      ensures Moved(caller, alive, if first then Won(row) else Beaten(row))
    {
      ghost var before := d.World();
      first := d.Claim(caller, gap.now);
      alive := After(before, Step.Claim(caller, gap.now), caller, gap.others);
    }

    method SpendingIt(caller: nat, row: Parked, gap: Gap) returns (alive: bool)
      requires d.Valid() && AllForeign(gap.others, caller) && caller in d.threads && row.decision.Some?
      requires var pc := d.threads[caller].pc; pc == Won(row) || pc == Beaten(row) || (pc.Refused? && pc.row == row)
      modifies d, d.store
      ensures var pc := old(d.threads)[caller].pc;
        if pc.Won? then Moved(caller, alive, Ready(Some(GrantOf(row))))
        else if pc.Refused? && pc.denied then Moved(caller, alive, Denying(GrantOf(row)))
        else Over(caller)
    {
      ghost var before := d.World();
      d.Spend(caller, gap.now);
      alive := After(before, Step.Spend(caller, gap.now), caller, gap.others);
    }

    method DenyingIt(caller: nat, gap: Gap)
      requires d.Valid() && AllForeign(gap.others, caller) && caller in d.threads && d.threads[caller].pc.Denying?
      modifies d, d.store
      ensures Over(caller)
    {
      ghost var before := d.World();
      d.Deny(caller, gap.now, gap.ok);
      var _ := After(before, Step.Deny(caller, gap.now, gap.ok), caller, gap.others);
    }

    // ---- the gate ----

    /** A decision that does not authorize is used up; a denial is recorded with it. */
    method Refuse(caller: nat, row: Parked, code: string, gaps: seq<Gap>) returns (answer: Option<Answer>)
      requires d.Valid() && Surrounded(gaps, 2, caller) && row.decision.Some?
      requires caller in d.threads && d.threads[caller].pc == Pc.Refused(row, code == "gate-denied")
      modifies d, d.store
      ensures answer.Some? && !Reached(answer.value) && Over(caller)
      ensures if code == "gate-denied" then answer == Some(Denied) || answer == Some(Stopped) else answer == Some(Blocked(code))
    {
      var alive := SpendingIt(caller, row, gaps[0]);
      if code != "gate-denied" { return Some(Blocked(code)); }
      if !alive { return Some(Stopped); }
      DenyingIt(caller, gaps[1]);
      return Some(Denied);
    }

    /** Claim a decision that passed, and mark it used: won or not. */
    method ClaimIt(caller: nat, row: Parked, gaps: seq<Gap>) returns (answer: Option<Answer>)
      requires d.Valid() && Surrounded(gaps, 2, caller) && row.decision.Some?
      requires caller in d.threads && d.threads[caller].pc.Passed? && d.threads[caller].pc.row == row
      modifies d, d.store
      ensures answer.None? ==> Moved(caller, true, Ready(Some(GrantOf(row))))
      ensures answer.Some? ==> !Reached(answer.value) && Over(caller)
      ensures answer.Some? ==> answer.value == Blocked("gate-authorization-replayed") || answer.value == Stopped
    {
      var first, alive := Claiming(caller, row, gaps[0]);
      if !alive { return Some(Stopped); }
      alive := SpendingIt(caller, row, gaps[1]);
      if !first { return Some(Blocked("gate-authorization-replayed")); }
      if !alive { return Some(Stopped); }
      return None;
    }

    /** Check the decision found, claim it, and mark it used. No answer means the call may go ahead, on
        an approval of exactly this call. */
    method Consume(caller: nat, row: Parked, gaps: seq<Gap>) returns (answer: Option<Answer>)
      requires d.Valid() && Surrounded(gaps, 3, caller)
      requires caller in d.threads && d.threads[caller].pc == Found(row) && row.decision.Some?
      modifies d, d.store
      ensures answer.None? ==> Moved(caller, true, Ready(Some(GrantOf(row))))
      ensures answer.Some? ==> !Reached(answer.value) && Over(caller)
      ensures answer.Some? ==> answer.value.Denied? || answer.value.Blocked? || answer.value.Stopped?
      ensures answer.None? ==> Passes(row, old(d.threads)[caller].approvers, gaps[0].now, old(d.store.seen))
      ensures answer.Some? && answer.value.Denied? ==> IsDenial(row, old(d.threads)[caller].approvers)
    {
      var check, alive := Checking(caller, row, gaps[0]);
      if !alive { return Some(Stopped); }
      if check.Err? {
        answer := Refuse(caller, row, check.error, gaps[1..]);
      } else {
        answer := ClaimIt(caller, row, gaps[1..]);
      }
    }

    /** Park, or proceed on an approval already signed for exactly this call. */
    method Gate(caller: nat, request: Members, gaps: seq<Gap>) returns (answer: Option<Answer>)
      requires d.Valid() && Surrounded(gaps, 4, caller) && caller in d.threads && d.threads[caller].pc.Asking?
      requires BoundEqual(request, d.threads[caller].fields)
      modifies d, d.store
      ensures answer.None? ==> caller in d.threads && d.threads[caller].pc.Ready? && Moved(caller, true, d.threads[caller].pc)
      ensures answer.None? ==> var auth := d.threads[caller].pc.auth;
        auth.Some? && NineAgree(auth.value.request, old(d.threads)[caller].fields)
      ensures answer.Some? ==> !Reached(answer.value) && Over(caller)
      ensures if NoneAnswers(old(d.store.parked), old(d.threads)[caller].fields)
              then answer.Some? && (answer.value.Awaiting? || answer.value.Stopped?)
              else answer.Some? ==> answer.value.Denied? || answer.value.Blocked? || answer.value.Stopped?
    {
      var row, alive := Locating(caller, gaps[0]);
      if !alive { return Some(Stopped); }
      if row.Some? {
        BoundIsNine(row.value.request, d.threads[caller].fields);
        answer := Consume(caller, row.value, gaps[1..]);
        return;
      }
      var held := ParkingIt(caller, request, gaps[1]);
      return Some(Awaiting(held));
    }

    // ---- the effect ----

    method Beginning(c: Call, gap: Gap) returns (alive: bool)
      requires d.Valid() && AllForeign(gap.others, c.caller)
      requires c.session in d.sessions && d.sessions[c.session].phase.Serving? && Fresh(d.World(), c.caller)
      modifies d, d.store
      ensures d.Valid() && Forwards(c.caller) == old(Forwards(c.caller)) && alive == (c.caller in d.threads)
      ensures alive ==>
        d.threads[c.caller] ==
        Thread(c.session, old(d.sessions)[c.session].stream, old(d.sessions)[c.session].key, c.fields, c.folds, c.approvers,
               if c.gated then Asking else Ready(None))
    {
      ghost var before := d.World();
      var t := Step.Begin(c.caller, c.session, c.fields, c.gated, c.folds, c.approvers);
      d.Begin(t);
      alive := After(before, t, c.caller, gap.others);
    }

    method WritingAhead(caller: nat, intent: string, gap: Gap) returns (stored: bool, alive: bool)
      requires d.Valid() && AllForeign(gap.others, caller) && caller in d.threads && d.threads[caller].pc.Ready?
      requires !Folded(d.threads[caller])
      modifies d, d.store
      ensures if stored then Moved(caller, alive, Ahead(old(d.threads)[caller].pc.auth, intent)) else Over(caller)
      ensures stored ==> gap.ok
    {
      ghost var before := d.World();
      stored := d.WriteAhead(caller, intent, gap.now, gap.ok);
      WriteAheadIsStep(d.store.kit, before, caller, intent, gap.now, gap.ok);
      alive := After(before, Step.WriteAhead(caller, intent, gap.now, gap.ok), caller, gap.others);
    }

    method ForwardingIt(caller: nat, outcome: Outcome, gap: Gap) returns (alive: bool)
      requires d.Valid() && AllForeign(gap.others, caller) && caller in d.threads
      requires d.threads[caller].pc.Ahead? || Folded(d.threads[caller])
      modifies d, d.store
      ensures d.Valid() && alive == (caller in d.threads) && (outcome.Refusing? ==> !alive)
      ensures var pc := old(d.threads)[caller].pc;
        var intent := if pc.Ahead? then Some(pc.intent) else None;
        && Forwards(caller) == old(Forwards(caller)) + [Forwarded(caller, pc.auth, intent, outcome)]
        && (alive ==> d.threads[caller] == old(d.threads)[caller].(pc := Ran(pc.auth, intent, outcome.Raised?)))
    {
      ghost var before := d.World();
      d.Forward(caller, outcome);
      ForwardsOfMore(before.history.forwards, d.history.forwards[|before.history.forwards|], caller);
      alive := After(before, Step.Forward(caller, outcome), caller, gap.others);
    }

    method Recording(caller: nat, gap: Gap) returns (stored: bool)
      requires d.Valid() && caller in d.threads && d.threads[caller].pc.Ran?
      modifies d, d.store
      ensures Over(caller)
      ensures gap.ok && NothingRefused(d.store.kit) ==> stored
      ensures var thread := old(d.threads)[caller];
        var outcome := if thread.pc.failed then "failed" else "applied";
        stored && thread.pc.ahead.Some? ==>
          LastDraft(d.store.envelopes) == Some(EffectDraft(thread.key, thread.fields, outcome, thread.pc.auth, gap.now))
    {
      ghost var before := d.World();
      stored := d.Record(caller, gap.now, gap.ok);
      d.Note(before, Step.Record(caller, gap.now, gap.ok));
    }

    /** Act and record: the write-ahead record, the forward, and the envelope that closes it. */
    method Perform(caller: nat, intent: string, gaps: seq<Gap>, outcome: Outcome) returns (answer: Answer)
      requires d.Valid() && Surrounded(gaps, 3, caller) && caller in d.threads && d.threads[caller].pc.Ready?
      modifies d, d.store
      ensures d.Valid() && OneAnswer(answer)
      ensures var thread := old(d.threads)[caller];
        var ahead := if Folded(thread) then None else Some(intent);
        && (Reached(answer) ==> Forwards(caller) == old(Forwards(caller)) + [Forwarded(caller, thread.pc.auth, ahead, outcome)])
        && (answer.Unstored? ==> Forwards(caller) == old(Forwards(caller)))
        && (answer.Stopped? ==> || Forwards(caller) == old(Forwards(caller))
                                || Forwards(caller) == old(Forwards(caller)) + [Forwarded(caller, thread.pc.auth, ahead, outcome)])
        && (answer.Applied? || answer.Unrecorded? ==> outcome.Returned?) && (answer.Reraised? ==> outcome.Raised?)
        && (answer.Downstream? ==> outcome.Refusing?) && (!Folded(thread) && !gaps[0].ok ==> answer.Unstored?)
        && (answer.Unrecorded? ==> !(gaps[2].ok && NothingRefused(d.store.kit))) && (Folded(thread) ==> !answer.Unrecorded? && !answer.Unstored?)
        && (answer.Applied? && !Folded(thread) ==>
              LastDraft(d.store.envelopes) == Some(EffectDraft(thread.key, thread.fields, "applied", thread.pc.auth, gaps[2].now)))
    {
      var thread := d.threads[caller];
      var folded, alive := Folded(thread), true;
      if !folded {
        var stored;
        stored, alive := WritingAhead(caller, intent, gaps[0]);
        if !stored { return Unstored; }
        if !alive { return Stopped; }
      }
      alive := ForwardingIt(caller, outcome, gaps[1]);
      if outcome.Refusing? { return Downstream; }
      if !alive { return Stopped; }
      var recorded := Recording(caller, gaps[2]);
      if outcome.Raised? { return Reraised; }
      if folded { return Applied; }
      return if recorded then Applied else Unrecorded;
    }

    /** Past the gate: act for this call, which is ungated or goes ahead on an approval of its own members. */
    method ActFor(c: Call, gaps: seq<Gap>, outcome: Outcome) returns (answer: Answer)
      requires d.Valid() && Surrounded(gaps, 3, c.caller) && c.caller in d.threads && d.threads[c.caller].pc.Ready?
      requires var thread := d.threads[c.caller];
        && thread.fields == c.fields && thread.folds == c.folds
        && (if c.gated then thread.pc.auth.Some? && NineAgree(thread.pc.auth.value.request, c.fields) else thread.pc.auth.None?)
      modifies d, d.store
      ensures d.Valid() && OneAnswer(answer)
      ensures Reached(answer) ==> ActedOnce(old(Forwards(c.caller)), Forwards(c.caller), c, outcome)
      ensures answer.Unstored? ==> Forwards(c.caller) == old(Forwards(c.caller))
      ensures answer.Stopped? ==>
        Forwards(c.caller) == old(Forwards(c.caller)) || ActedOnce(old(Forwards(c.caller)), Forwards(c.caller), c, outcome)
      ensures answer.Applied? || answer.Unrecorded? ==> outcome.Returned?
      ensures (answer.Reraised? ==> outcome.Raised?) && (answer.Downstream? ==> outcome.Refusing?)
      ensures answer.Applied? && (c.gated || !c.folds) ==>
        Recorded(Forwards(c.caller), d.store.envelopes, c, old(d.threads)[c.caller].key, gaps[2].now)
    {
      ghost var was, thread := Forwards(c.caller), d.threads[c.caller];
      answer := Perform(c.caller, c.intent, gaps, outcome);
      ghost var made := Forwarded(c.caller, thread.pc.auth, if Folded(thread) then None else Some(c.intent), outcome);
      assert ActedOnce(was, was + [made], c, outcome);
      if answer.Applied? && (c.gated || !c.folds) {
        EffectIsRecorded(Forwards(c.caller), d.store.envelopes, c, thread.key, gaps[2].now);
      }
    }

    /** Govern one call. It reaches the downstream once or not at all; when gated, on an approval of the
        members this very call has; and an answer of success means that its record is chained. */
    method Submit(c: Call, gaps: seq<Gap>, outcome: Outcome) returns (answer: Answer)
      requires d.Valid() && Surrounded(gaps, 8, c.caller) && BoundEqual(c.request, c.fields)
      requires c.session in d.sessions && d.sessions[c.session].phase.Serving? && Fresh(d.World(), c.caller)
      modifies d, d.store
      ensures d.Valid()
      ensures Reached(answer) ==> ActedOnce(old(Forwards(c.caller)), Forwards(c.caller), c, outcome)
      ensures !Reached(answer) && !answer.Stopped? ==> Forwards(c.caller) == old(Forwards(c.caller))
      ensures answer.Applied? || answer.Unrecorded? ==> outcome.Returned?
      ensures (answer.Reraised? ==> outcome.Raised?) && (answer.Downstream? ==> outcome.Refusing?)
      ensures answer.Awaiting? || answer.Denied? || answer.Blocked? ==> c.gated
      ensures answer.Stopped? ==>
        Forwards(c.caller) == old(Forwards(c.caller)) || ActedOnce(old(Forwards(c.caller)), Forwards(c.caller), c, outcome)
      ensures answer.Applied? && (c.gated || !c.folds) ==>
        Recorded(Forwards(c.caller), d.store.envelopes, c, old(d.sessions)[c.session].key, gaps[7].now)
    {
      var alive := Beginning(c, gaps[0]);
      if !alive { return Stopped; }
      if c.gated {
        var refusal := Gate(c.caller, c.request, gaps[1..5]);
        if refusal.Some? { return refusal.value; }
      }
      answer := ActFor(c, gaps[5..], outcome);
    }

    // ---- recovery ----

    /** What is open for this session: the records left aside so far, and those still to do. */
    ghost predicate OpenAre(id: nat, session: Session, left: seq<string>)
      reads d, d.store
    {
      && id in d.sessions && d.sessions[id].phase.Recovering?
      && d.sessions[id].stream == session.stream && d.sessions[id].key == session.key
      && ListsOpen(d.store.Tables(), session.stream, session.key, left + d.sessions[id].phase.todo)
    }

    method ReadingOpen(id: nat) returns (todo: seq<string>)
      requires d.Valid() && id in d.sessions && d.sessions[id].phase.Opening?
      modifies d, d.store
      ensures d.Valid() && OpenAre(id, old(d.sessions)[id], []) && d.sessions[id].phase.todo == todo
      ensures |todo| <= old(|d.store.intents|) && d.store.envelopes == old(d.store.envelopes)
      ensures d.store.intents == old(d.store.intents)
    {
      ghost var before := d.World();
      todo := d.ReadOpen(id);
      d.Note(before, Step.ReadOpen(id, todo));
      ListedOnce(d.store.Tables(), d.sessions[id].stream, d.sessions[id].key, todo);
      assert [] + todo == todo;
    }

    /** Chain one record left open, as a step of the run. */
    method RecoveringStep(id: nat, now: string, ok: bool) returns (stored: bool)
      requires d.Valid() && id in d.sessions && d.sessions[id].phase.Recovering? && d.sessions[id].phase.todo != []
      modifies d, d.store
      ensures d.Valid()
      ensures d.sessions ==
        old(d.sessions)[id := old(d.sessions)[id].(phase := Recovering(old(d.sessions)[id].phase.todo[1..]))]
      ensures d.store.intents ==
        if stored then Resolve(old(d.store.intents), old(d.sessions)[id].phase.todo[0], now) else old(d.store.intents)
      ensures |d.store.envelopes| == old(|d.store.envelopes|) + if stored then 1 else 0
      ensures d.store.envelopes[..old(|d.store.envelopes|)] == old(d.store.envelopes)
      ensures stored ==>
        && RecoveredAt(old(d.store.intents), d.store.envelopes[old(|d.store.envelopes|)], old(d.sessions)[id].stream, now)
        && d.store.envelopes[old(|d.store.envelopes|)].origin == Closing(old(d.sessions)[id].phase.todo[0])
    {
      ghost var before := d.World();
      if d.sessions[id].phase.todo[0] in d.store.intents {
        Outcomes.WrittenAsAttempted(d.store.kit, d.trace, d.sessions[id].phase.todo[0]);
      }
      stored := d.Recover(id, now, ok);
      d.Note(before, Step.Recover(id, now, ok));
    }

    method RecoveringOne(id: nat, ghost session: Session, ghost left: seq<string>, now: string, ok: bool)
      returns (stored: bool, ghost still: seq<string>)
      requires d.Valid() && OpenAre(id, session, left) && d.sessions[id].phase.todo != []
      modifies d, d.store
      ensures d.Valid() && OpenAre(id, session, still)
      ensures d.sessions[id].phase.todo == old(d.sessions)[id].phase.todo[1..]
      ensures |d.store.envelopes| == old(|d.store.envelopes|) + if stored then 1 else 0
      ensures d.store.envelopes[..old(|d.store.envelopes|)] == old(d.store.envelopes)
      ensures OnlyClosed(old(d.store.intents), d.store.intents)
      ensures stored ==> RecoveredAt(old(d.store.intents), d.store.envelopes[old(|d.store.envelopes|)], session.stream, now)
    {
      ghost var intents, todo := d.store.intents, d.sessions[id].phase.todo;
      assert left + todo == left + [todo[0]] + todo[1..];
      stored := RecoveringStep(id, now, ok);
      OneLessOpen(intents, d.store.Tables(), session.stream, session.key, left, todo[0], todo[1..], now);
      still := if stored then left else left + [todo[0]];
    }

    /** The next record, beside what was recovered before it. */
    method RecoveringNext(id: nat, ghost session: Session, ghost left: seq<string>, writes: seq<(string, bool)>, k: nat,
                          ghost was: seq<Row>, ghost written: map<string, Intent>)
      returns (stored: bool, ghost still: seq<string>)
      requires d.Valid() && OpenAre(id, session, left) && d.sessions[id].phase.todo != [] && k < |writes|
      requires AllRecovered(was, d.store.envelopes, written, session.stream, writes) && OnlyClosed(written, d.store.intents)
      modifies d, d.store
      ensures d.Valid() && OpenAre(id, session, still)
      ensures d.sessions[id].phase.todo == old(d.sessions)[id].phase.todo[1..]
      ensures |d.store.envelopes| == old(|d.store.envelopes|) + if stored then 1 else 0
      ensures AllRecovered(was, d.store.envelopes, written, session.stream, writes) && OnlyClosed(written, d.store.intents)
    {
      ghost var chained, open := d.store.envelopes, d.store.intents;
      stored, still := RecoveringOne(id, session, left, writes[k].0, writes[k].1);
      OneMoreRecovered(was, chained, d.store.envelopes, written, open, session.stream, writes, k);
      ClosedFurther(written, open, d.store.intents);
    }

    /** The loop over the records read as open, oldest first; one that cannot be chained does not hold up the rest. */
    method RecoverAll(id: nat, ghost session: Session, todo: seq<string>, writes: seq<(string, bool)>)
      returns (recovered: nat, ghost left: seq<string>)
      requires d.Valid() && OpenAre(id, session, []) && d.sessions[id].phase.todo == todo && |writes| >= |todo|
      modifies d, d.store
      ensures d.Valid() && OpenAre(id, session, left) && d.sessions[id].phase.todo == []
      ensures |d.store.envelopes| == old(|d.store.envelopes|) + recovered
      ensures AllRecovered(old(d.store.envelopes), d.store.envelopes, old(d.store.intents), session.stream, writes)
    {
      recovered, left := 0, [];
      ghost var was, written := d.store.envelopes, d.store.intents;
      for k := 0 to |todo|
        invariant d.Valid() && |d.store.envelopes| == |was| + recovered
        invariant OpenAre(id, session, left) && d.sessions[id].phase.todo == todo[k..]
        invariant OnlyClosed(written, d.store.intents) && AllRecovered(was, d.store.envelopes, written, session.stream, writes)
      {
        var stored;
        stored, left := RecoveringNext(id, session, left, writes, k, was, written);
        if stored { recovered := recovered + 1; }
      }
    }

    /** At session open, chain every write-ahead record of this stream and key that was left open, oldest
        first, as attempted. What is open afterwards is exactly what could not be chained. */
    method RecoverIntents(id: nat, writes: seq<(string, bool)>) returns (recovered: nat, ghost left: seq<string>)
      requires d.Valid() && id in d.sessions && d.sessions[id].phase.Opening?
      requires |writes| >= |d.store.intents|
      modifies d, d.store
      ensures d.Valid() && OpenAre(id, old(d.sessions)[id], left) && d.sessions[id].phase.todo == []
      ensures |d.store.envelopes| == old(|d.store.envelopes|) + recovered
      ensures AllRecovered(old(d.store.envelopes), d.store.envelopes, old(d.store.intents), old(d.sessions)[id].stream, writes)
    {
      ghost var session := d.sessions[id];
      var todo := ReadingOpen(id);
      recovered, left := RecoverAll(id, session, todo, writes);
    }
  }
}
