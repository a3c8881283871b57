/** A running deployment as an object: the shared database, the threads and sessions of every process,
    and the steps that have been taken. Each method performs one transaction of one thread on the
    database in place, and is one step of the protocol.
 */
module Deployment {
  import opened Prelude
  import opened Gate
  import opened GateRules
  import opened Store
  import opened Database
  import opened Protocol

  lemma RunExtends(kit: Kit, steps: seq<Step>, t: Step)
    ensures Run(kit, steps + [t]) == Apply(kit, Run(kit, steps), t)
  {
    assert (steps + [t])[..|steps|] == steps;
  }

  class Deployment {
    const store: GatewayStore
    var threads: map<nat, Thread>
    var sessions: map<nat, Session>
    var clock: string
    var history: History
    ghost var trace: seq<Step>

    ghost function World(): State
      reads this, store
    {
      State(store.Tables(), threads, sessions, clock, history)
    }

    /** The world is what the steps taken so far lead to. */
    ghost predicate Valid()
      reads this, store
    {
      store.Valid() && World() == Run(store.kit, trace)
    }

    constructor (kit: Kit)
      ensures Valid() && fresh(store) && store.kit == kit && trace == []
    {
      store := new GatewayStore(kit);
      threads, sessions, clock, history, trace := map[], map[], "", INITIAL.history, [];
    }

    /** Take note of the step just performed. */
    ghost method Note(before: State, t: Step)
      requires store.Valid() && before == Run(store.kit, trace) && World() == Apply(store.kit, before, t)
      modifies this`trace
      ensures Valid() && trace == old(trace) + [t]
    {
      RunExtends(store.kit, trace, t);
      trace := trace + [t];
    }

    method MoveTo(caller: nat, pc: Pc)
      requires caller in threads
      modifies this`threads
      ensures threads == old(threads)[caller := old(threads)[caller].(pc := pc)]
    {
      threads := threads[caller := threads[caller].(pc := pc)];
    }

    method Finish(caller: nat)
      modifies this`threads
      ensures threads == old(threads) - {caller}
    {
      threads := threads - {caller};
    }

    // ---- the gate ----

    /** Look for an answer to this call. */
    method Locate(caller: nat) returns (row: Option<Parked>)
      requires caller in threads && threads[caller].pc.Asking?
      modifies this`threads
      ensures World() == DoLocate(old(World()), caller)
      ensures row.Some? ==> Decided(row.value) && Matches(row.value, old(threads)[caller].fields)
      ensures var fields := old(threads)[caller].fields;
        if row.Some? then OldestSuch(store.parked, row.value, r => Answers(r, fields)) else forall r :: r in store.parked ==> !Answers(r, fields)
      ensures threads == old(threads)[caller := old(threads)[caller].(pc := if row.Some? then Found(row.value) else Parking)]
    {
      row := store.DecidedFor(threads[caller].fields);
      MoveTo(caller, if row.Some? then Found(row.value) else Parking);
    }

    /** Park the call and end it. The row held for it, if one is. */
    method Park(caller: nat, request: Members, now: string) returns (held: Option<Parked>)
      requires caller in threads && threads[caller].pc.Parking?
      requires LexLe(now, clock) && BoundEqual(request, threads[caller].fields)
      modifies this`threads, store`parked
      ensures World() == DoPark(store.kit, old(World()), caller, request, now)
      ensures threads == old(threads) - {caller}
      ensures var fields := old(threads)[caller].fields;
        if held.Some? then OldestSuch(old(store.parked), held.value, r => Waits(r, fields, now)) && store.parked == old(store.parked)
        else
          && (forall r :: r in old(store.parked) ==> !Waits(r, fields, now))
          && (forall r :: r in store.parked <==>
                r == Parked(store.kit.hash(request), request, now, None, None)
                || (r in old(store.parked) && r.hash != store.kit.hash(request)))
    {
      var row := Parked(store.kit.hash(request), request, now, None, None);
      held := store.ParkUnique(row, threads[caller].fields, now);
      Finish(caller);
    }

    /** Check the decision found, against the replay table as it stands. */
    method Check(caller: nat, now: string) returns (answer: Result<Option<Approval>, string>)
      requires caller in threads && threads[caller].pc.Found? && threads[caller].pc.row.decision.Some?
      modifies this`threads
      ensures World() == DoCheck(store.kit, old(World()), caller, now)
      ensures var thread := old(threads)[caller];
        var request, decision, hash := thread.pc.row.request, thread.pc.row.decision.value, store.kit.hash(thread.pc.row.request);
        && (answer.Ok? <==> Approves(hash, request, decision, thread.approvers, Text(now),
                                     if thread.pc.row.hash in store.seen then {thread.pc.row.hash} else {}))
        && (answer == Err("gate-denied") <==>
              SignedFor(hash, request, decision, thread.approvers) && Get(decision.members, "decision") == Text("deny")
              && GivesReason(decision))
      ensures var row := old(threads)[caller].pc.row;
        threads == old(threads)[caller := old(threads)[caller].(pc :=
          if answer.Ok? then Passed(row, now) else Pc.Refused(row, answer.error == "gate-denied"))]
    {
      var row := threads[caller].pc.row;
      var spent := store.GateSeen(row.hash);
      GrantPassesExactly(store.kit, GrantOf(row), threads[caller].approvers, if spent then {row.hash} else {}, now);
      GrantDeniedExactly(store.kit, GrantOf(row), threads[caller].approvers, if spent then {row.hash} else {}, now);
      answer := CheckGrant(store.kit, GrantOf(row), threads[caller].approvers, if spent then {row.hash} else {}, now);
      MoveTo(caller, if answer.Ok? then Passed(row, now) else Pc.Refused(row, answer.error == "gate-denied"));
    }

    /** Claim the decision that passed: one caller wins. */
    method Claim(caller: nat, now: string) returns (first: bool)
      requires caller in threads
      requires threads[caller].pc.SeedPassed? || (threads[caller].pc.Passed? && threads[caller].pc.row.decision.Some?)
      modifies this`threads, this`history, store`seen
      ensures World() == DoClaim(store.kit, old(World()), caller, now)
      ensures old(threads)[caller].pc.Passed? ==>
                caller in threads && threads[caller] == old(threads)[caller].(pc :=
                  if first then Won(old(threads)[caller].pc.row) else Beaten(old(threads)[caller].pc.row))
      ensures old(threads)[caller].pc.SeedPassed? && first ==>
                caller in threads && threads[caller] == old(threads)[caller].(pc := SeedWon(old(threads)[caller].pc.grant))
    {
      var thread := threads[caller];
      var pc := thread.pc;
      var g, at := if pc.Passed? then GrantOf(pc.row) else pc.grant, pc.at;
      var hash := store.kit.hash(g.request);
      first := store.ClaimGateUse(hash, now);
      if first {
        MoveTo(caller, if pc.Passed? then Won(pc.row) else SeedWon(pc.grant));
        history := history.(claims := history.claims[hash := Holding(caller, g, thread.approvers, at)]);
      } else if pc.Passed? {
        MoveTo(caller, Beaten(pc.row));
      } else {
        Finish(caller);
      }
    }

    /** Mark the row used: won, beaten or refused alike. */
    method Spend(caller: nat, now: string)
      requires caller in threads
      requires var pc := threads[caller].pc; pc.Beaten? || pc.Refused? || (pc.Won? && pc.row.decision.Some?)
      modifies this`threads, store`parked
      ensures World() == DoSpend(old(World()), caller, now)
      ensures var hash := old(threads)[caller].pc.row.hash;
        && Reparked(old(store.parked), store.parked, hash)
        && forall i :: 0 <= i < |store.parked| && store.parked[i].hash == hash ==>
             store.parked[i].consumedAt == Some(now) && store.parked[i].decision == old(store.parked)[i].decision
      ensures var pc := old(threads)[caller].pc;
        if pc.Won? then caller in threads && threads[caller] == old(threads)[caller].(pc := Ready(Some(GrantOf(pc.row))))
        else if pc.Refused? && pc.denied && pc.row.decision.Some? then
          caller in threads && threads[caller] == old(threads)[caller].(pc := Denying(GrantOf(pc.row)))
        else caller !in threads
    {
      var pc := threads[caller].pc;
      store.Consume(pc.row.hash, now);
      if pc.Won? {
        MoveTo(caller, Ready(Some(GrantOf(pc.row))));
      } else if pc.Refused? && pc.denied && pc.row.decision.Some? {
        MoveTo(caller, Denying(GrantOf(pc.row)));
      } else {
        Finish(caller);
      }
    }

    // ---- the chain ----

    /** The chain has one row more, on this stream, with this outcome, performed by these members under this
        authorization. */
    predicate OneMore(was: seq<Row>, stream: string, outcome: string, performed: Members, auth: Option<Authorization>, origin: Origin)
      reads store
    {
      && |store.envelopes| == |was| + 1 && store.envelopes[..|was|] == was
      && var row := store.envelopes[|was|];
         && row.record.stream == stream && row.origin == origin && row.pushedAt.None? && row.record.draft.outcome == outcome
         && row.record.draft.content.performed == performed && row.record.draft.content.authorization == auth
    }

    /** Append a record if the write is going to succeed. */
    method Chain(stream: string, draft: Draft, now: string, origin: Origin, ok: bool) returns (stored: bool)
      requires store.Valid()
      modifies store`envelopes, store`intents
      ensures store.Valid()
      ensures stored == Chained(store.kit, old(store.Tables()), stream, draft, now, origin, ok).Some?
      ensures store.Tables() == OrElse(Chained(store.kit, old(store.Tables()), stream, draft, now, origin, ok), old(store.Tables()))
      ensures if stored then OneMore(old(store.envelopes), stream, draft.outcome, draft.content.performed, draft.content.authorization, origin)
                             && store.envelopes[old(|store.envelopes|)].record.draft == draft
              else store.envelopes == old(store.envelopes) && store.intents == old(store.intents)
      ensures origin.Plain? || origin.Seeding? ==> store.intents == old(store.intents)
    {
      stored := false;
      if ok { stored := store.AppendNext(stream, draft, now, origin); }
    }

    /** Chain the denial; the call ends whether or not it could be written. */
    method Deny(caller: nat, now: string, ok: bool)
      requires store.Valid() && caller in threads && threads[caller].pc.Denying?
      modifies this`threads, store`envelopes, store`intents
      ensures store.Valid() && World() == DoDeny(store.kit, old(World()), caller, now, ok)
      ensures threads == old(threads) - {caller} && store.intents == old(store.intents)
      ensures var thread := old(threads)[caller];
        store.envelopes == old(store.envelopes)
        || (ok && OneMore(old(store.envelopes), thread.stream, "denied", thread.fields, Some(AsAuthorization(thread.pc.grant)), Plain))
    {
      var thread := threads[caller];
      var _ := Chain(thread.stream, EffectDraft(thread.key, thread.fields, "denied", Some(thread.pc.grant), now), now, Plain, ok);
      Finish(caller);
    }

    /** Record the effect before it is applied; a call whose record cannot be stored ends here. */
    method WriteAhead(caller: nat, intent: string, now: string, ok: bool) returns (stored: bool)
      requires caller in threads && threads[caller].pc.Ready? && !Folded(threads[caller])
      modifies this`threads, this`history, store`intents
      ensures World() == DoWriteAhead(old(World()), caller, intent, now, ok)
      ensures if stored then caller in threads && threads[caller] == old(threads)[caller].(pc := Ahead(old(threads)[caller].pc.auth, intent))
              else caller !in threads
      ensures stored ==> ok
      ensures if stored then
          var thread := old(threads)[caller];
          && intent !in old(store.intents) && intent in store.intents
          && store.intents == old(store.intents)[intent := store.intents[intent]]
          && var written := store.intents[intent];
             && written.stream == thread.stream && written.key == thread.key && written.resolvedAt.None?
             && written.draft.key == thread.key && written.draft.outcome == "attempted"
             && written.draft.content.performed == thread.fields && written.draft.content.emittedAt == Text(now)
             && written.draft.content.authorization
                  == (match thread.pc.auth case Some(g) => Some(AsAuthorization(g)) case None => None)
        else store.intents == old(store.intents)
    {
      var thread := threads[caller];
      stored := false;
      if ok {
        stored := store.RecordIntent(intent, thread.stream, thread.key,
                                     EffectDraft(thread.key, thread.fields, "attempted", thread.pc.auth, now), now);
      }
      if stored {
        MoveTo(caller, Ahead(thread.pc.auth, intent));
        history := history.(owners := history.owners[intent := caller]);
      } else {
        Finish(caller);
      }
    }

    /** The effect itself: the call is forwarded and comes back, raises, or is refused downstream. */
    method Forward(caller: nat, outcome: Outcome)
      requires caller in threads && (threads[caller].pc.Ahead? || Folded(threads[caller]))
      modifies this`threads, this`history
      ensures World() == DoForward(old(World()), caller, outcome)
      ensures history.forwards == old(history).forwards +
        [Forwarded(caller, old(threads)[caller].pc.auth,
                   if old(threads)[caller].pc.Ahead? then Some(old(threads)[caller].pc.intent) else None, outcome)]
      ensures outcome.Refusing? <==> caller !in threads
      ensures caller in threads ==> threads[caller] == old(threads)[caller].(pc :=
                Ran(old(threads)[caller].pc.auth, history.forwards[|history.forwards| - 1].intent, outcome.Raised?))
    {
      var pc := threads[caller].pc;
      var intent := if pc.Ahead? then Some(pc.intent) else None;
      history := history.(forwards := history.forwards + [Forwarded(caller, pc.auth, intent, outcome)]);
      if outcome.Refusing? {
        Finish(caller);
      } else {
        MoveTo(caller, Ran(pc.auth, intent, outcome.Raised?));
      }
    }

    /** Chain what happened and close its write-ahead record; a folded read that returned is only counted. */
    method Record(caller: nat, now: string, ok: bool) returns (stored: bool)
      requires store.Valid() && caller in threads && threads[caller].pc.Ran?
      modifies this`threads, store`envelopes, store`intents
      ensures store.Valid() && World() == DoRecord(store.kit, old(World()), caller, now, ok)
      ensures ok && (forall r: Store.Record :: store.kit.view.shape(r).None?) ==> stored
      ensures caller !in threads
      ensures var thread := old(threads)[caller];
        stored && (thread.pc.ahead.Some? || thread.pc.failed) ==>
          && OneMore(old(store.envelopes), thread.stream, if thread.pc.failed then "failed" else "applied", thread.fields,
                     match thread.pc.auth case Some(g) => Some(AsAuthorization(g)) case None => None,
                     match thread.pc.ahead case Some(i) => Closing(i) case None => Plain)
          && store.envelopes[|store.envelopes| - 1].record.draft ==
               EffectDraft(thread.key, thread.fields, if thread.pc.failed then "failed" else "applied", thread.pc.auth, now)
    {
      var thread := threads[caller];
      var pc := thread.pc;
      stored := true;
      if pc.ahead.Some? || pc.failed {
        var draft := EffectDraft(thread.key, thread.fields, if pc.failed then "failed" else "applied", pc.auth, now);
        stored := Chain(thread.stream, draft, now, if pc.ahead.Some? then Closing(pc.ahead.value) else Plain, ok);
      }
      Finish(caller);
    }

    /** Chain one write-ahead record left open, as attempted. */
    method Recover(id: nat, now: string, ok: bool) returns (stored: bool)
      requires store.Valid() && id in sessions && sessions[id].phase.Recovering? && sessions[id].phase.todo != []
      modifies this`sessions, store`envelopes, store`intents
      ensures store.Valid() && World() == DoRecover(store.kit, old(World()), id, now, ok)
      ensures sessions == old(sessions)[id := old(sessions)[id].(phase := Recovering(old(sessions)[id].phase.todo[1..]))]
      ensures store.intents ==
        if stored then Resolve(old(store.intents), old(sessions)[id].phase.todo[0], now) else old(store.intents)
      ensures |store.envelopes| == old(|store.envelopes|) + if stored then 1 else 0
      ensures if stored then
          var intent := old(sessions)[id].phase.todo[0];
          && intent in old(store.intents)
          && var written := old(store.intents)[intent].draft;
             && OneMore(old(store.envelopes), old(sessions)[id].stream, written.outcome, written.content.performed,
                        written.content.authorization, Closing(intent))
             && store.envelopes[old(|store.envelopes|)].record.draft.content.emittedAt == Text(now)
             && store.envelopes[old(|store.envelopes|)].record.draft.key == written.key
        else store.envelopes == old(store.envelopes)
    {
      var session := sessions[id];
      var intent := session.phase.todo[0];
      sessions := sessions[id := session.(phase := Recovering(session.phase.todo[1..]))];
      stored := false;
      if intent in store.intents {
        stored := Chain(session.stream, Restamped(store.intents[intent].draft, now), now, Closing(intent), ok);
      }
    }

    // ---- sessions ----

    /** Read the stream's open write-ahead records, oldest first. */
    method ReadOpen(id: nat) returns (todo: seq<string>)
      requires id in sessions && sessions[id].phase.Opening?
      modifies this`sessions
      ensures World() == Apply(store.kit, old(World()), Step.ReadOpen(id, todo))
      ensures ListsOpen(store.Tables(), sessions[id].stream, sessions[id].key, todo)
      ensures sessions == old(sessions)[id := old(sessions)[id].(phase := Recovering(todo))]
    {
      var session := sessions[id];
      todo := store.OpenIntents(session.stream, session.key);
      sessions := sessions[id := session.(phase := Recovering(todo))];
    }

    /** A session ends, in order or by a crash, and its threads with it. */
    method Leave(id: nat)
      modifies this`sessions, this`threads
      ensures World() == DoLeave(old(World()), id)
    {
      sessions := sessions - {id};
      threads := map c | c in threads && threads[c].session != id :: threads[c];
    }

    method Begin(t: Step)
      requires t.Begin? && t.session in sessions && sessions[t.session].phase.Serving?
      requires t.caller !in history.callers && t.caller !in history.seeders
      modifies this`threads, this`history
      ensures World() == DoBegin(old(World()), t)
      ensures t.caller in threads && threads[t.caller] ==
        Thread(t.session, sessions[t.session].stream, sessions[t.session].key, t.fields, t.folds, t.approvers,
               if t.gated then Asking else Ready(None))
    {
      var session := sessions[t.session];
      threads := threads[t.caller := Thread(t.session, session.stream, session.key, t.fields, t.folds, t.approvers,
                                            if t.gated then Asking else Ready(None))];
      history := history.(callers := history.callers + {t.caller},
                          calls := history.calls[t.caller := Asked(t.fields, t.gated, t.folds, t.approvers)]);
    }

    /** Check the decision on a catalog seed. */
    method Seed(t: Step)
      requires t.Seed? && t.session in sessions && t.caller !in history.callers && t.caller !in history.seeders
      modifies this`threads, this`history
      ensures World() == DoSeed(store.kit, old(World()), t)
      ensures var hash := store.kit.hash(t.grant.request);
        t.caller in history.seeders <==>
          Approves(hash, t.grant.request, t.grant.decision, t.approvers, Text(t.now), if hash in store.seen then {hash} else {})
      ensures t.caller !in history.seeders ==> threads == old(threads) && history == old(history)
      ensures t.caller in history.seeders ==>
        && t.caller in threads && threads[t.caller].pc == SeedPassed(t.grant, t.now) && threads[t.caller].approvers == t.approvers
        && threads == old(threads)[t.caller := threads[t.caller]] && history.claims == old(history).claims
    {
      var session, hash := sessions[t.session], store.kit.hash(t.grant.request);
      var spent := store.GateSeen(hash);
      GrantPassesExactly(store.kit, t.grant, t.approvers, if spent then {hash} else {}, t.now);
      var answer := CheckGrant(store.kit, t.grant, t.approvers, if spent then {hash} else {}, t.now);
      if answer.Ok? {
        threads := threads[t.caller := Thread(t.session, session.stream, session.key, map[], false, t.approvers,
                                              SeedPassed(t.grant, t.now))];
        history := history.(seeders := history.seeders + {t.caller});
      }
    }

    /** Chain a seed whose claim is won. */
    method SeedRecord(caller: nat, performed: Members, now: string, ok: bool)
      requires store.Valid() && caller in threads && threads[caller].pc.SeedWon?
      modifies this`threads, store`envelopes, store`intents
      ensures store.Valid() && World() == DoSeedRecord(store.kit, old(World()), caller, performed, now, ok)
      ensures threads == old(threads) - {caller} && store.intents == old(store.intents)
      ensures var thread := old(threads)[caller];
        store.envelopes == old(store.envelopes)
        || (ok && OneMore(old(store.envelopes), thread.stream, "applied", performed, Some(AsAuthorization(thread.pc.grant)), Seeding(caller)))
    {
      var thread := threads[caller];
      var draft := EffectDraft(thread.key, performed, "applied", Some(thread.pc.grant), now);
      var _ := Chain(thread.stream, draft, now, Seeding(caller), ok);
      Finish(caller);
    }

    // ---- any step of any thread ----

    /** Steps of the world and of sessions. */
    method TakeOutside(t: Step)
      requires store.Valid() && (t.Tick? || t.Decide? || t.Open? || t.ReadOpen? || t.Recover? || t.Serve? || t.Leave? || t.Other?)
      modifies this`threads, this`sessions, this`clock, store
      ensures store.Valid() && World() == Apply(store.kit, old(World()), t)
    {
      match t {
        case Tick(now) => if LexLe(clock, now) { clock := now; }
        case Decide(hash, decision) => store.RecordDecision(hash, decision);
        case Open(id, stream, key) => if id !in sessions { sessions := sessions[id := Session(stream, key, Opening)]; }
        case ReadOpen(id, todo) =>
          if id in sessions && sessions[id].phase.Opening?
             && ListsOpen(Db(store.envelopes, store.intents, store.parked, store.seen, store.wedges),
                          sessions[id].stream, sessions[id].key, todo) {
            sessions := sessions[id := sessions[id].(phase := Recovering(todo))];
          }
        case Recover(id, now, ok) =>
          if id in sessions && sessions[id].phase.Recovering? && sessions[id].phase.todo != [] { var _ := Recover(id, now, ok); }
        case Serve(id) =>
          if id in sessions && sessions[id].phase == Recovering([]) { sessions := sessions[id := sessions[id].(phase := Serving)]; }
        case Leave(id) => Leave(id);
        case Other(stream, draft, now, ok) =>
          if draft.content.authorization.None? { var _ := Chain(stream, draft, now, Plain, ok); }
      }
    }

    /** Steps by which a thread comes and goes. */
    method TakeStart(t: Step)
      requires t.Begin? || t.Seed? || t.Crash?
      modifies this`threads, this`history
      ensures World() == Apply(store.kit, old(World()), t)
    {
      var isNew := t.caller !in history.callers && t.caller !in history.seeders;
      match t {
        case Begin(_, id, _, _, _, _) => if isNew && id in sessions && sessions[id].phase.Serving? { Begin(t); }
        case Seed(_, id, _, _, _) => if isNew && id in sessions { Seed(t); }
        case Crash(c) => Finish(c);
      }
    }

    /** Steps by which a thread finds its answer. */
    method TakeAsking(t: Step)
      requires t.Locate? || t.Park? || t.Check?
      modifies this`threads, store`parked
      ensures World() == Apply(store.kit, old(World()), t)
    {
      var c := t.caller;
      if c in threads {
        var pc := threads[c].pc;
        match t {
          case Locate(_) => if pc.Asking? { var _ := Locate(c); }
          case Park(_, request, now) =>
            if pc.Parking? && LexLe(now, clock) && BoundEqual(request, threads[c].fields) { var _ := Park(c, request, now); }
          case Check(_, now) => if pc.Found? && pc.row.decision.Some? { var _ := Check(c, now); }
        }
      }
    }

    /** Steps by which a thread claims, marks used, and acts. */
    method TakeSpending(t: Step)
      requires t.Claim? || t.Spend? || t.WriteAhead? || t.Forward?
      modifies this`threads, this`history, store`seen, store`parked, store`intents
      ensures World() == Apply(store.kit, old(World()), t)
    {
      var c := t.caller;
      if c in threads {
        var pc := threads[c].pc;
        match t {
          case Claim(_, now) => if pc.SeedPassed? || (pc.Passed? && pc.row.decision.Some?) { var _ := Claim(c, now); }
          case Spend(_, now) => if pc.Beaten? || pc.Refused? || (pc.Won? && pc.row.decision.Some?) { Spend(c, now); }
          case WriteAhead(_, intent, now, ok) => if pc.Ready? && !Folded(threads[c]) { var _ := WriteAhead(c, intent, now, ok); }
          case Forward(_, outcome) => if pc.Ahead? || Folded(threads[c]) { Forward(c, outcome); }
        }
      }
    }

    /** Steps by which a thread records its call's outcome. */
    method TakeRecord(t: Step)
      requires store.Valid() && t.Record?
      modifies this`threads, store`envelopes, store`intents
      ensures store.Valid() && World() == Apply(store.kit, old(World()), t)
    {
      if t.caller in threads && threads[t.caller].pc.Ran? { var _ := Record(t.caller, t.now, t.ok); }
    }

    /** Steps by which a thread records a decision: a denial, or a seed put in force. */
    method TakeDecided(t: Step)
      requires store.Valid() && (t.Deny? || t.SeedRecord?)
      modifies this`threads, store`envelopes, store`intents
      ensures store.Valid() && World() == Apply(store.kit, old(World()), t)
    {
      var c := t.caller;
      if c in threads {
        match t {
          case Deny(_, now, ok) => if threads[c].pc.Denying? { Deny(c, now, ok); }
          case SeedRecord(_, performed, now, ok) => if threads[c].pc.SeedWon? { SeedRecord(c, performed, now, ok); }
        }
      }
    }

    /** One step of an arbitrary scheduler. */
    method Take(t: Step)
      requires Valid()
      modifies this, store
      ensures Valid() && trace == old(trace) + [t] && World() == Apply(store.kit, old(World()), t)
    {
      match t {
        case Begin(_, _, _, _, _, _) => TakeStart(t);
        case Seed(_, _, _, _, _) => TakeStart(t);
        case Crash(_) => TakeStart(t);
        case Locate(_) => TakeAsking(t);
        case Park(_, _, _) => TakeAsking(t);
        case Check(_, _) => TakeAsking(t);
        case Claim(_, _) => TakeSpending(t);
        case Spend(_, _) => TakeSpending(t);
        case Forward(_, _) => TakeSpending(t);
        case Deny(_, _, _) => TakeDecided(t);
        case WriteAhead(_, _, _, _) => TakeSpending(t);
        case Record(_, _, _) => TakeRecord(t);
        case SeedRecord(_, _, _, _) => TakeDecided(t);
        case _ => TakeOutside(t);
      }
      Note(old(World()), t);
    }
  }
}
