/** What steps of the enforcement protocol leave alone. */
module Frames {
  import opened Prelude
  import opened Store
  import opened Protocol
  import opened Streams

  /** The caller whose thread a step moves. */
  function Actor(t: Step): Option<nat> {
    match t
    case Begin(c, _, _, _, _, _) => Some(c)
    case Locate(c) => Some(c)
    case Park(c, _, _) => Some(c)
    case Check(c, _) => Some(c)
    case Claim(c, _) => Some(c)
    case Spend(c, _) => Some(c)
    case Deny(c, _, _) => Some(c)
    case WriteAhead(c, _, _, _) => Some(c)
    case Forward(c, _) => Some(c)
    case Record(c, _, _) => Some(c)
    case Seed(c, _, _, _, _) => Some(c)
    case SeedRecord(c, _, _, _) => Some(c)
    case Crash(c) => Some(c)
    case _ => None
  }

  /** A thread of the next state that stands as it stood. */
  ghost predicate Stood(s: State, n: State, c: nat) {
    c in n.threads ==> c in s.threads && n.threads[c] == s.threads[c]
  }

  lemma StandAtGate(kit: Kit, s: State, t: Step, c: nat)
    requires AtGate(t) && t.caller != c
    ensures Stood(s, Apply(kit, s, t), c)
  {
  }

  lemma StandBeside(kit: Kit, s: State, t: Step, c: nat)
    requires !AtGate(t) && Actor(t) != Some(c)
    ensures Stood(s, Apply(kit, s, t), c)
  {
  }

  /** Only the acting thread moves; others stand as they were or leave with their session. */
  lemma OthersStand(kit: Kit, s: State, t: Step, c: nat)
    requires c in Apply(kit, s, t).threads && Actor(t) != Some(c)
    ensures c in s.threads && Apply(kit, s, t).threads[c] == s.threads[c]
  {
    if AtGate(t) { StandAtGate(kit, s, t, c); } else { StandBeside(kit, s, t, c); }
    assert Stood(s, Apply(kit, s, t), c);
  }

  /** The moves a step may make with the acting thread: the control flow of one call. */
  predicate Follows(kit: Kit, s: State, thread: Thread, t: Step, pc: Pc) {
    match t
    case Locate(_) =>
      && thread.pc.Asking?
      && (pc == Parking || (pc.Found? && Decided(pc.row) && Matches(pc.row, thread.fields)))
    case Check(_, now) =>
      && thread.pc.Found? && thread.pc.row.decision.Some?
      && var row := thread.pc.row;
         var answer := CheckGrant(kit, GrantOf(row), thread.approvers, SeenOf(s.db, row.hash), now);
         pc == (match answer case Ok(_) => Passed(row, now) case Err(code) => Refused(row, code == "gate-denied"))
    case Claim(_, _) =>
      if thread.pc.Passed? then thread.pc.row.decision.Some? && (pc == Won(thread.pc.row) || pc == Beaten(thread.pc.row))
      else thread.pc.SeedPassed? && pc == SeedWon(thread.pc.grant)
    case Spend(_, _) =>
      if thread.pc.Won? then thread.pc.row.decision.Some? && pc == Ready(Some(GrantOf(thread.pc.row)))
      else thread.pc.Refused? && thread.pc.denied && thread.pc.row.decision.Some? && pc == Denying(GrantOf(thread.pc.row))
    case WriteAhead(_, intent, _, _) =>
      thread.pc.Ready? && !Folded(thread) && intent !in s.db.intents && pc == Ahead(thread.pc.auth, intent)
    case Forward(_, outcome) =>
      if thread.pc.Ahead? then pc == Ran(thread.pc.auth, Some(thread.pc.intent), outcome.Raised?)
      else Folded(thread) && pc == Ran(None, None, outcome.Raised?)
    case _ => false
  }

  ghost predicate Moved(kit: Kit, s: State, n: State, t: Step, c: nat)
    requires c in s.threads && c in n.threads
  {
    || n.threads[c] == s.threads[c]
    || (n.threads[c] == s.threads[c].(pc := n.threads[c].pc) && Follows(kit, s, s.threads[c], t, n.threads[c].pc))
  }

  lemma LocateMoves(kit: Kit, s: State, c: nat)
    requires c in s.threads
    ensures Moved(kit, s, DoLocate(s, c), Locate(c), c)
  {
  }

  lemma CheckMoves(kit: Kit, s: State, c: nat, now: string)
    requires c in s.threads
    ensures Moved(kit, s, DoCheck(kit, s, c, now), Check(c, now), c)
  {
  }

  lemma ClaimMoves(kit: Kit, s: State, c: nat, now: string)
    requires c in s.threads && c in DoClaim(kit, s, c, now).threads
    ensures Moved(kit, s, DoClaim(kit, s, c, now), Step.Claim(c, now), c)
  {
  }

  lemma SpendMoves(kit: Kit, s: State, c: nat, now: string)
    requires c in s.threads && c in DoSpend(s, c, now).threads
    ensures Moved(kit, s, DoSpend(s, c, now), Spend(c, now), c)
  {
  }

  lemma ForwardMoves(kit: Kit, s: State, c: nat, outcome: Outcome)
    requires c in s.threads && c in DoForward(s, c, outcome).threads
    ensures Moved(kit, s, DoForward(s, c, outcome), Forward(c, outcome), c)
  {
  }

  predicate Starts(t: Step) {
    t.Begin? || t.Seed?
  }

  /** A thread's first position. */
  predicate First(pc: Pc) {
    pc == Asking || pc == Ready(None) || pc.SeedPassed?
  }

  /** A thread a step has just begun. */
  ghost predicate Born(s: State, n: State, t: Step) {
    && Starts(t) && Fresh(s, t.caller) && t.session in s.sessions && t.caller in n.threads
    && var thread := n.threads[t.caller];
       && First(thread.pc) && (t.Begin? <==> !thread.pc.SeedPassed?)
       && thread.session == t.session
       && thread.stream == s.sessions[t.session].stream && thread.key == s.sessions[t.session].key
       && (t.Begin? ==> s.sessions[t.session].phase.Serving?)
  }

  lemma NewThread(kit: Kit, s: State, t: Step)
    requires Starts(t) && Apply(kit, s, t) != s
    ensures Born(s, Apply(kit, s, t), t)
  {
  }

  /** A thread that lives through a step stands where it stood or one move further. */
  lemma MovesFollow(kit: Kit, s: State, t: Step, c: nat)
    requires c in s.threads && c in Apply(kit, s, t).threads && !(Starts(t) && Actor(t) == Some(c))
    ensures Moved(kit, s, Apply(kit, s, t), t, c)
  {
    if Actor(t) != Some(c) {
      OthersStand(kit, s, t, c);
    } else if t.Locate? {
      LocateMoves(kit, s, c);
    } else if t.Check? {
      CheckMoves(kit, s, c, t.now);
    } else if t.Claim? {
      ClaimMoves(kit, s, c, t.now);
    } else if t.Spend? {
      SpendMoves(kit, s, c, t.now);
    } else if t.Forward? {
      ForwardMoves(kit, s, c, t.outcome);
    }
  }

  /** How thread `c` of the next state came to be there. */
  ghost predicate Lives(kit: Kit, s: State, n: State, t: Step, c: nat)
    requires c in n.threads
  {
    || (c in s.threads && Moved(kit, s, n, t, c))
    || (Born(s, n, t) && t.caller == c)
  }

  lemma StepLives(kit: Kit, s: State, t: Step, c: nat)
    requires c in Apply(kit, s, t).threads
    ensures Lives(kit, s, Apply(kit, s, t), t, c)
  {
    if Starts(t) && Actor(t) == Some(c) {
      if Apply(kit, s, t) != s { NewThread(kit, s, t); }
    } else if c in s.threads {
      MovesFollow(kit, s, t, c);
    } else {
      OthersStand(kit, s, t, c);
    }
  }

  /** Nothing is written, or a thread about to act writes its record ahead. */
  ghost predicate Wrote(s: State, n: State, c: nat, i: string, now: string) {
    || (n.db == s.db && n.history == s.history)
    || (&& i !in s.db.intents && c in s.threads && s.threads[c].pc.Ready? && c in n.threads
        && var thread := s.threads[c];
           && n.threads[c] == thread.(pc := Ahead(thread.pc.auth, i))
           && n.history == s.history.(owners := s.history.owners[i := c])
           && n.db == s.db.(intents := s.db.intents[i :=
                Intent(thread.stream, thread.key, EffectDraft(thread.key, thread.fields, "attempted", thread.pc.auth, now),
                       now, |s.db.intents|, None)]))
  }

  lemma WritingGrows(s: State, c: nat, i: string, now: string, ok: bool)
    ensures Wrote(s, DoWriteAhead(s, c, i, now, ok), c, i, now)
  {
  }

  /** A write-ahead record is written once, by the thread about to act, and never changes but for
      being closed. */
  lemma IntentsOnlyGrow(kit: Kit, s: State, t: Step, i: string)
    requires i in Apply(kit, s, t).db.intents
    ensures i in s.db.intents ==>
      Apply(kit, s, t).db.intents[i] == s.db.intents[i].(resolvedAt := Apply(kit, s, t).db.intents[i].resolvedAt)
    ensures i !in s.db.intents ==>
      && t.WriteAhead? && t.intent == i
      && t.caller in s.threads && s.threads[t.caller].pc.Ready?
      && var thread := s.threads[t.caller];
         Apply(kit, s, t).db.intents[i]
           == Intent(thread.stream, thread.key, EffectDraft(thread.key, thread.fields, "attempted", thread.pc.auth, t.now),
                     t.now, |s.db.intents|, None)
  {
    if t.WriteAhead? { WritingGrows(s, t.caller, t.intent, t.now, t.ok); } else { StepsAppend(kit, s, t); }
  }

  lemma GateOwnsNothing(kit: Kit, s: State, t: Step)
    requires AtGate(t)
    ensures Apply(kit, s, t).history.owners == s.history.owners
  {
  }

  lemma AppendsOwnNothing(kit: Kit, s: State, t: Step)
    requires Appends(t)
    ensures Apply(kit, s, t).history.owners == s.history.owners
  {
  }

  lemma OthersOwnNothing(kit: Kit, s: State, t: Step)
    requires !t.WriteAhead?
    ensures Apply(kit, s, t).history.owners == s.history.owners
  {
    if AtGate(t) { GateOwnsNothing(kit, s, t); } else if Appends(t) { AppendsOwnNothing(kit, s, t); }
  }

  /** Ownership of a write-ahead record is settled when it is written. */
  lemma OwnersOnlyGrow(kit: Kit, s: State, t: Step)
    ensures var n := Apply(kit, s, t);
      if t.WriteAhead? && n.db.intents != s.db.intents
      then t.intent !in s.db.intents && n.history == s.history.(owners := s.history.owners[t.intent := t.caller])
           && n.db.intents.Keys == s.db.intents.Keys + {t.intent} && n.db.envelopes == s.db.envelopes
           && t.caller in s.threads && t.caller in n.threads && s.threads[t.caller].pc.Ready?
           && n.threads[t.caller] == s.threads[t.caller].(pc := Ahead(s.threads[t.caller].pc.auth, t.intent))
      else n.history.owners == s.history.owners
  {
    if t.WriteAhead? { WritingGrows(s, t.caller, t.intent, t.now, t.ok); } else { OthersOwnNothing(kit, s, t); }
  }

  ghost predicate AddsCallers(s: State, n: State) {
    s.history.callers <= n.history.callers && s.history.seeders <= n.history.seeders
  }

  lemma GateOnlyAdds(kit: Kit, s: State, t: Step)
    requires AtGate(t)
    ensures AddsCallers(s, Apply(kit, s, t))
  {
  }

  lemma OthersAddNobody(kit: Kit, s: State, t: Step)
    requires !AtGate(t)
    ensures AddsCallers(s, Apply(kit, s, t))
  {
  }

  /** The caller sets only grow, by the thread begun. */
  lemma CallersOnlyGrow(kit: Kit, s: State, t: Step)
    ensures s.history.callers <= Apply(kit, s, t).history.callers
    ensures s.history.seeders <= Apply(kit, s, t).history.seeders
  {
    if AtGate(t) { GateOnlyAdds(kit, s, t); } else { OthersAddNobody(kit, s, t); }
  }

  /** Sessions open, advance through their phases, and leave. */
  lemma SessionsAdvance(kit: Kit, s: State, t: Step, id: nat)
    requires id in Apply(kit, s, t).sessions
    ensures var session := Apply(kit, s, t).sessions[id];
      if id !in s.sessions then t.Open? && t.session == id && session == Session(t.stream, t.key, Opening)
      else
        && session.stream == s.sessions[id].stream && session.key == s.sessions[id].key
        && (s.sessions[id].phase.Serving? ==> session.phase.Serving?)
        && (session.phase.Recovering? ==>
              || session.phase == s.sessions[id].phase
              || (t.ReadOpen? && ListsOpen(s.db, session.stream, session.key, session.phase.todo))
              || (t.Recover? && t.session == id && s.sessions[id].phase.Recovering? && s.sessions[id].phase.todo != []
                  && session.phase.todo == s.sessions[id].phase.todo[1..]))
  {
  }

  lemma ClaimingKeepsClaims(kit: Kit, s: State, c: nat, now: string, h: string)
    requires h in s.history.claims && h in s.db.seen
    ensures var n := DoClaim(kit, s, c, now); h in n.history.claims && n.history.claims[h] == s.history.claims[h]
  {
  }

  lemma GateKeepsClaims(kit: Kit, s: State, t: Step)
    requires AtGate(t) && !t.Claim?
    ensures Apply(kit, s, t).history.claims == s.history.claims
  {
  }

  lemma OthersKeepClaims(kit: Kit, s: State, t: Step)
    requires !AtGate(t)
    ensures Apply(kit, s, t).history.claims == s.history.claims
  {
  }

  /** Claims are only added, on hashes not yet seen. */
  lemma ClaimsOnlyGrow(kit: Kit, s: State, t: Step, h: string)
    requires s.db.seen.Keys == s.history.claims.Keys && h in s.history.claims
    ensures h in Apply(kit, s, t).history.claims && Apply(kit, s, t).history.claims[h] == s.history.claims[h]
  {
    if t.Claim? { ClaimingKeepsClaims(kit, s, t.caller, t.now, h); }
    else if AtGate(t) { GateKeepsClaims(kit, s, t); }
    else { OthersKeepClaims(kit, s, t); }
  }

  lemma ForwardGrows(s: State, c: nat, outcome: Outcome)
    ensures var n := DoForward(s, c, outcome);
      || n.history == s.history
      || (c in s.threads
          && var pc := s.threads[c].pc;
             && (if Folded(s.threads[c]) then pc == Ready(None) else pc.Ahead?)
             && n.history == s.history.(forwards := s.history.forwards
                  + [Forwarded(c, if pc.Ahead? then pc.auth else None, if pc.Ahead? then Some(pc.intent) else None, outcome)]))
  {
  }

  lemma OthersForwardNothing(kit: Kit, s: State, t: Step)
    requires !t.Forward?
    ensures Apply(kit, s, t).history.forwards == s.history.forwards
  {
  }

  /** The only forward a step adds is its own thread's. */
  lemma ForwardsOnlyGrow(kit: Kit, s: State, t: Step)
    ensures var n := Apply(kit, s, t);
      || n.history.forwards == s.history.forwards
      || (t.Forward? && t.caller in s.threads && n.history.owners == s.history.owners
          && if Folded(s.threads[t.caller])
             then n.history.forwards == s.history.forwards + [Forwarded(t.caller, None, None, t.outcome)]
             else s.threads[t.caller].pc.Ahead?
                  && n.history.forwards == s.history.forwards
                       + [Forwarded(t.caller, s.threads[t.caller].pc.auth, Some(s.threads[t.caller].pc.intent), t.outcome)])
  {
    if t.Forward? { ForwardGrows(s, t.caller, t.outcome); } else { OthersForwardNothing(kit, s, t); }
  }
}
