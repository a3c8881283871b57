/** The enforcement protocol as a state machine over one shared database.

    Threads belong to sessions and sessions to processes; the database is all they share. A step is
    one store transaction of one thread, one forwarded call, one crash, or the world acting (a clock
    tick, a human's decision arriving). Steps of different threads interleave freely. A step that is
    not enabled leaves the state as it is, so a run is any sequence of steps.
 */
module Protocol {
  import opened Prelude
  import opened Gate
  import opened Store

  /** An authorization: a request and the decision that came back for it. */
  datatype Grant = Grant(request: Members, decision: Decision)

  function AsAuthorization(g: Grant): Authorization {
    Authorization(Some(g.request), Some(g.decision))
  }

  function GrantOf(row: Parked): Grant
    requires row.decision.Some?
  {
    Grant(row.request, row.decision.value)
  }

  /** Where a thread stands between two transactions. */
  datatype Pc =
    | Asking                                                  // about to look for a decided request
    | Parking                                                 // none found; about to park
    | Found(row: Parked)                                      // about to check the decision found
    | Refused(row: Parked, denied: bool)                      // the check failed; about to mark it used
    | Denying(grant: Grant)                                   // about to chain the denial
    | Passed(row: Parked, at: string)                         // the check passed; about to claim
    | Beaten(row: Parked)                                     // another caller holds the claim
    | Won(row: Parked)                                        // the claim is held; about to mark it used
    | Ready(auth: Option<Grant>)                              // nothing stands between here and the effect
    | Ahead(auth: Option<Grant>, intent: string)              // the write-ahead record is stored
    | Ran(auth: Option<Grant>, ahead: Option<string>, failed: bool)  // the call was forwarded and came back
    | SeedPassed(grant: Grant, at: string)                    // a catalog seed's decision passed the check
    | SeedWon(grant: Grant)                                   // and its claim is held

  /** A thread: the call it makes (`fields` are its nine identity members) and where it stands.
      `folds` holds for class `read`, whose unauthorized effects are folded into a window. */
  datatype Thread = Thread(session: nat, stream: string, key: string, fields: Members, folds: bool,
                           approvers: seq<Approver>, pc: Pc)

  datatype Phase = Opening | Recovering(todo: seq<string>) | Serving

  datatype Session = Session(stream: string, key: string, phase: Phase)

  /** Who won a claim, on what, and under which check. */
  datatype Holding = Holding(caller: nat, grant: Grant, approvers: seq<Approver>, at: string)

  /** A forwarded call: whose, on what, with which write-ahead record, and how it came back. */
  datatype Forwarded = Forwarded(caller: nat, auth: Option<Grant>, intent: Option<string>, outcome: Outcome)

  /** A call as it was submitted: its nine members, whether policy gates it, whether it is of class `read`, and
      who may approve it. */
  datatype Asked = Asked(fields: Members, gated: bool, folds: bool, approvers: seq<Approver>)

  /** What happened, kept for stating properties; no step reads it except to keep callers distinct. */
  datatype History = History(callers: set<nat>, seeders: set<nat>, claims: map<string, Holding>,
                             forwards: seq<Forwarded>, owners: map<string, nat>, calls: map<nat, Asked>)

  datatype State = State(db: Db, threads: map<nat, Thread>, sessions: map<nat, Session>, clock: string,
                         history: History)

  const INITIAL: State := State(EMPTY, map[], map[], "", History({}, {}, map[], [], map[], map[]))

  /** How a forwarded call came back. */
  datatype Outcome = Returned | Raised | Refusing

  datatype Step =
    | Tick(now: string)
    | Decide(hash: string, decision: Decision)
    | Open(session: nat, stream: string, key: string)
    | ReadOpen(session: nat, todo: seq<string>)
    | Recover(session: nat, now: string, ok: bool)
    | Serve(session: nat)
    | Leave(session: nat)
    | Begin(caller: nat, session: nat, fields: Members, gated: bool, folds: bool, approvers: seq<Approver>)
    | Locate(caller: nat)
    | Park(caller: nat, request: Members, now: string)
    | Check(caller: nat, now: string)
    | Claim(caller: nat, now: string)
    | Spend(caller: nat, now: string)
    | Deny(caller: nat, now: string, ok: bool)
    | WriteAhead(caller: nat, intent: string, now: string, ok: bool)
    | Forward(caller: nat, outcome: Outcome)
    | Record(caller: nat, now: string, ok: bool)
    | Seed(caller: nat, session: nat, grant: Grant, approvers: seq<Approver>, now: string)
    | SeedRecord(caller: nat, performed: Members, now: string, ok: bool)
    | Other(stream: string, draft: Draft, now: string, ok: bool)
    | Crash(caller: nat)

  // ---- pieces of steps ----

  function At(s: State, caller: nat, pc: Pc): State
    requires caller in s.threads
  {
    s.(threads := s.threads[caller := s.threads[caller].(pc := pc)])
  }

  function End(s: State, caller: nat): State {
    s.(threads := s.threads - {caller})
  }

  /** The record of an effect: the call's own members, and the authorization it went ahead on. */
  function EffectDraft(key: string, fields: Members, outcome: string, auth: Option<Grant>, now: string): Draft {
    Draft(key, outcome, Gate.Envelope(fields, Text(now),
                                      match auth case None => None case Some(g) => Some(AsAuthorization(g))), None)
  }

  /** Recovery restamps a write-ahead record and emits it as it stands. */
  function Restamped(draft: Draft, now: string): Draft {
    draft.(content := draft.content.(emittedAt := Text(now)))
  }

  /** Append if the step says the write succeeds and the structural check agrees. */
  function Chained(kit: Kit, db: Db, stream: string, draft: Draft, now: string, origin: Origin, ok: bool): Option<Db> {
    if ok then AppendNext(kit, db, stream, draft, now, origin) else None
  }

  function OrElse(o: Option<Db>, db: Db): Db {
    match o case Some(d) => d case None => db
  }

  /** The local check of a parked decision: over a probe built from the request itself. */
  function CheckGrant(kit: Kit, g: Grant, approvers: seq<Approver>, seen: set<string>, now: string)
    : Result<Option<Approval>, string>
  {
    VerifyLocal(kit.hash, Gate.Envelope(g.request, Text(now), Some(AsAuthorization(g))), true, approvers, seen, Some(now))
  }

  /** `_seen_hashes`: the one hash asked about, when it was used. */
  function SeenOf(db: Db, hash: string): set<string> {
    if hash in db.seen then {hash} else {}
  }

  predicate Fresh(s: State, caller: nat) {
    caller !in s.history.callers && caller !in s.history.seeders
  }

  // ---- one function per step ----

  function DoRecover(kit: Kit, s: State, id: nat, now: string, ok: bool): State {
    if id in s.sessions && s.sessions[id].phase.Recovering? && s.sessions[id].phase.todo != [] then
      var session := s.sessions[id];
      var intent := session.phase.todo[0];
      var next := s.sessions[id := session.(phase := Recovering(session.phase.todo[1..]))];
      if intent in s.db.intents then
        var chained := Chained(kit, s.db, session.stream, Restamped(s.db.intents[intent].draft, now), now, Closing(intent), ok);
        s.(sessions := next, db := OrElse(chained, s.db))
      else s.(sessions := next)
    else s
  }

  function DoBegin(s: State, t: Step): State
    requires t.Begin?
  {
    if t.session in s.sessions && s.sessions[t.session].phase.Serving? && Fresh(s, t.caller) then
      var session := s.sessions[t.session];
      var pc := if t.gated then Asking else Ready(None);
      s.(threads := s.threads[t.caller := Thread(t.session, session.stream, session.key, t.fields, t.folds, t.approvers, pc)],
         history := s.history.(callers := s.history.callers + {t.caller},
                               calls := s.history.calls[t.caller := Asked(t.fields, t.gated, t.folds, t.approvers)]))
    else s
  }

  function DoLocate(s: State, caller: nat): State {
    if caller in s.threads && s.threads[caller].pc.Asking? then
      match DecidedFor(s.db, s.threads[caller].fields)
      case Some(row) => At(s, caller, Found(row))
      case None => At(s, caller, Parking)
    else s
  }

  /** Park and stop: a parked call is a terminal answer to its caller. */
  function DoPark(kit: Kit, s: State, caller: nat, request: Members, now: string): State {
    if caller in s.threads && s.threads[caller].pc.Parking? && LexLe(now, s.clock)
       && BoundEqual(request, s.threads[caller].fields) then
      var row := Parked(kit.hash(request), request, now, None, None);
      End(s.(db := ParkUnique(s.db, row, s.threads[caller].fields, now).0), caller)
    else s
  }

  function DoCheck(kit: Kit, s: State, caller: nat, now: string): State {
    if caller in s.threads && s.threads[caller].pc.Found? && s.threads[caller].pc.row.decision.Some? then
      var row := s.threads[caller].pc.row;
      match CheckGrant(kit, GrantOf(row), s.threads[caller].approvers, SeenOf(s.db, row.hash), now)
      case Ok(_) => At(s, caller, Passed(row, now))
      case Err(code) => At(s, caller, Refused(row, code == "gate-denied"))
    else s
  }

  function DoClaim(kit: Kit, s: State, caller: nat, now: string): State {
    if caller !in s.threads then s
    else
      var thread := s.threads[caller];
      if thread.pc.Passed? && thread.pc.row.decision.Some? then
        Claiming(kit, s, caller, GrantOf(thread.pc.row), thread.pc.at, now, Won(thread.pc.row), Some(Beaten(thread.pc.row)))
      else if thread.pc.SeedPassed? then
        Claiming(kit, s, caller, thread.pc.grant, thread.pc.at, now, SeedWon(thread.pc.grant), None)
      else s
  }

  function Claiming(kit: Kit, s: State, caller: nat, g: Grant, at: string, now: string, won: Pc, beaten: Option<Pc>): State
    requires caller in s.threads
  {
    var (db, first) := ClaimGateUse(s.db, kit.hash(g.request), now);
    if first then
      At(s, caller, won).(db := db, history := s.history.(claims :=
        s.history.claims[kit.hash(g.request) := Holding(caller, g, s.threads[caller].approvers, at)]))
    else if beaten.Some? then At(s, caller, beaten.value)
    else End(s, caller)
  }

  function DoSpend(s: State, caller: nat, now: string): State {
    if caller !in s.threads then s
    else
      match s.threads[caller].pc
      case Won(row) =>
        if row.decision.Some? then At(s, caller, Ready(Some(GrantOf(row)))).(db := Consume(s.db, row.hash, now)) else s
      case Beaten(row) => End(s, caller).(db := Consume(s.db, row.hash, now))
      case Refused(row, denied) =>
        var used := s.(db := Consume(s.db, row.hash, now));
        if denied && row.decision.Some? then At(used, caller, Denying(GrantOf(row))) else End(used, caller)
      case _ => s
  }

  function DoDeny(kit: Kit, s: State, caller: nat, now: string, ok: bool): State {
    if caller in s.threads && s.threads[caller].pc.Denying? then
      var thread := s.threads[caller];
      var draft := EffectDraft(thread.key, thread.fields, "denied", Some(thread.pc.grant), now);
      End(s, caller).(db := OrElse(Chained(kit, s.db, thread.stream, draft, now, Plain, ok), s.db))
    else s
  }

  /** A read with no authorization is folded: it has no envelope of its own to write ahead of. */
  predicate Folded(thread: Thread) {
    thread.pc == Ready(None) && thread.folds
  }

  function DoWriteAhead(s: State, caller: nat, intent: string, now: string, ok: bool): State {
    if caller in s.threads && s.threads[caller].pc.Ready? && !Folded(s.threads[caller]) then
      var thread := s.threads[caller];
      var draft := EffectDraft(thread.key, thread.fields, "attempted", thread.pc.auth, now);
      var stored := if ok then RecordIntent(s.db, intent, thread.stream, thread.key, draft, now) else None;
      if stored.Some? then
        At(s, caller, Ahead(thread.pc.auth, intent)).(db := stored.value,
          history := s.history.(owners := s.history.owners[intent := caller]))
      else End(s, caller)
    else s
  }

  function DoForward(s: State, caller: nat, outcome: Outcome): State {
    if caller !in s.threads then s
    else
      var thread := s.threads[caller];
      if Folded(thread) then Forwarding(s, caller, None, None, outcome)
      else if thread.pc.Ahead? then Forwarding(s, caller, thread.pc.auth, Some(thread.pc.intent), outcome)
      else s
  }

  function Forwarding(s: State, caller: nat, auth: Option<Grant>, intent: Option<string>, outcome: Outcome): State
    requires caller in s.threads
  {
    var after := s.(history := s.history.(forwards := s.history.forwards + [Forwarded(caller, auth, intent, outcome)]));
    if outcome.Refusing? then End(after, caller) else At(after, caller, Ran(auth, intent, outcome.Raised?))
  }

  /** Chain the effect and close its write-ahead record; a folded read that returned is only counted. */
  function DoRecord(kit: Kit, s: State, caller: nat, now: string, ok: bool): State {
    if caller in s.threads && s.threads[caller].pc.Ran? then
      var thread := s.threads[caller];
      var pc := thread.pc;
      var draft := EffectDraft(thread.key, thread.fields, if pc.failed then "failed" else "applied", pc.auth, now);
      var origin := match pc.ahead case Some(i) => Closing(i) case None => Plain;
      if pc.ahead.None? && !pc.failed then End(s, caller)
      else End(s, caller).(db := OrElse(Chained(kit, s.db, thread.stream, draft, now, origin, ok), s.db))
    else s
  }

  function DoSeed(kit: Kit, s: State, t: Step): State
    requires t.Seed?
  {
    if t.session in s.sessions && Fresh(s, t.caller)
       && CheckGrant(kit, t.grant, t.approvers, SeenOf(s.db, kit.hash(t.grant.request)), t.now).Ok? then
      var session := s.sessions[t.session];
      s.(threads := s.threads[t.caller := Thread(t.session, session.stream, session.key, map[], false, t.approvers,
                                                 SeedPassed(t.grant, t.now))],
         history := s.history.(seeders := s.history.seeders + {t.caller}))
    else s
  }

  /** The seed's envelope: emitted by the session that applies it, so `performed` is that session's. */
  function DoSeedRecord(kit: Kit, s: State, caller: nat, performed: Members, now: string, ok: bool): State {
    if caller in s.threads && s.threads[caller].pc.SeedWon? then
      var thread := s.threads[caller];
      var draft := EffectDraft(thread.key, performed, "applied", Some(thread.pc.grant), now);
      End(s, caller).(db := OrElse(Chained(kit, s.db, thread.stream, draft, now, Seeding(caller), ok), s.db))
    else s
  }

  /** Any other envelope any process emits: a refusal, an aggregate, a session record. None of them
      carries an authorization. */
  function DoOther(kit: Kit, s: State, stream: string, draft: Draft, now: string, ok: bool): State {
    if draft.content.authorization.None?
    then s.(db := OrElse(Chained(kit, s.db, stream, draft, now, Plain, ok), s.db))
    else s
  }

  /** A session that ends, in order or by a crash, takes its threads with it. */
  function DoLeave(s: State, session: nat): State {
    s.(sessions := s.sessions - {session},
       threads := map c | c in s.threads && s.threads[c].session != session :: s.threads[c])
  }

  function Apply(kit: Kit, s: State, t: Step): State {
    match t
    case Tick(now) => if LexLe(s.clock, now) then s.(clock := now) else s
    case Decide(hash, decision) => s.(db := RecordDecision(s.db, hash, decision))
    case Open(id, stream, key) =>
      if id in s.sessions then s else s.(sessions := s.sessions[id := Session(stream, key, Opening)])
    case ReadOpen(id, todo) =>
      if id in s.sessions && s.sessions[id].phase.Opening? && ListsOpen(s.db, s.sessions[id].stream, s.sessions[id].key, todo)
      then s.(sessions := s.sessions[id := s.sessions[id].(phase := Recovering(todo))])
      else s
    case Recover(id, now, ok) => DoRecover(kit, s, id, now, ok)
    case Serve(id) =>
      if id in s.sessions && s.sessions[id].phase == Recovering([])
      then s.(sessions := s.sessions[id := s.sessions[id].(phase := Serving)])
      else s
    case Leave(id) => DoLeave(s, id)
    case Begin(_, _, _, _, _, _) => DoBegin(s, t)
    case Locate(c) => DoLocate(s, c)
    case Park(c, request, now) => DoPark(kit, s, c, request, now)
    case Check(c, now) => DoCheck(kit, s, c, now)
    case Claim(c, now) => DoClaim(kit, s, c, now)
    case Spend(c, now) => DoSpend(s, c, now)
    case Deny(c, now, ok) => DoDeny(kit, s, c, now, ok)
    case WriteAhead(c, intent, now, ok) => DoWriteAhead(s, c, intent, now, ok)
    case Forward(c, outcome) => DoForward(s, c, outcome)
    case Record(c, now, ok) => DoRecord(kit, s, c, now, ok)
    case Seed(_, _, _, _, _) => DoSeed(kit, s, t)
    case SeedRecord(c, performed, now, ok) => DoSeedRecord(kit, s, c, performed, now, ok)
    case Other(stream, draft, now, ok) => DoOther(kit, s, stream, draft, now, ok)
    case Crash(c) => End(s, c)
  }

  /** A run: the steps of an arbitrary scheduler, one after the other. */
  function Run(kit: Kit, steps: seq<Step>): State {
    if steps == [] then INITIAL else Apply(kit, Run(kit, steps[..|steps| - 1]), steps[|steps| - 1])
  }
}
