/** At-most-once application, over every interleaving of every run. */
module AtMostOnce {
  import opened Prelude
  import opened Gate
  import opened Store
  import opened Protocol

  /** The grant a thread goes ahead on, once its claim is won. */
  function Holds(pc: Pc): Option<Grant> {
    match pc
    case Won(row) => if row.decision.Some? then Some(GrantOf(row)) else None
    case SeedWon(g) => Some(g)
    case Ready(auth) => auth
    case Ahead(auth, _) => auth
    case Ran(auth, _, _) => auth
    case _ => None
  }

  /** The grant whose check a thread has passed and not yet claimed. */
  function Checked(pc: Pc): Option<(Grant, string)> {
    match pc
    case Passed(row, at) => if row.decision.Some? then Some((GrantOf(row), at)) else None
    case SeedPassed(g, at) => Some((g, at))
    case _ => None
  }

  predicate OfSeed(pc: Pc) {
    pc.SeedPassed? || pc.SeedWon?
  }

  /** This caller holds the claim on this grant's request. */
  predicate Owns(kit: Kit, s: State, caller: nat, g: Grant) {
    var h := kit.hash(g.request);
    h in s.history.claims && s.history.claims[h].caller == caller && s.history.claims[h].grant == g
  }

  ghost predicate CallersKnown(s: State) {
    && s.history.callers !! s.history.seeders
    && forall c :: c in s.threads ==> c in (if OfSeed(s.threads[c].pc) then s.history.seeders else s.history.callers)
  }

  ghost predicate ClaimsRecorded(kit: Kit, s: State) {
    && s.db.seen.Keys == s.history.claims.Keys
    && forall h :: h in s.history.claims ==>
         var claim := s.history.claims[h];
         && kit.hash(claim.grant.request) == h
         && (claim.caller in s.history.callers || claim.caller in s.history.seeders)
         && CheckGrant(kit, claim.grant, claim.approvers, {}, claim.at).Ok?
  }

  ghost predicate ThreadsEarned(kit: Kit, s: State) {
    && (forall c :: c in s.threads && Holds(s.threads[c].pc).Some? ==>
          Owns(kit, s, c, Holds(s.threads[c].pc).value))
    && (forall c :: c in s.threads && Checked(s.threads[c].pc).Some? ==>
          var (g, at) := Checked(s.threads[c].pc).value;
          CheckGrant(kit, g, s.threads[c].approvers, {}, at).Ok?)
  }

  ghost predicate ForwardsEarned(kit: Kit, s: State) {
    && (forall k :: 0 <= k < |s.history.forwards| ==>
          && s.history.forwards[k].caller in s.history.callers
          && (s.history.forwards[k].auth.Some? ==>
                Owns(kit, s, s.history.forwards[k].caller, s.history.forwards[k].auth.value)))
    && (forall j, k :: 0 <= j < k < |s.history.forwards| ==>
          s.history.forwards[j].caller != s.history.forwards[k].caller)
    && (forall c, k :: c in s.threads && !s.threads[c].pc.Ran? && 0 <= k < |s.history.forwards| ==>
          s.history.forwards[k].caller != c)
  }

  ghost predicate Inv(kit: Kit, s: State) {
    CallersKnown(s) && ClaimsRecorded(kit, s) && ThreadsEarned(kit, s) && ForwardsEarned(kit, s)
  }

  /** A check that passes with a replay set passes without one. */
  lemma CheckWithoutReplay(kit: Kit, g: Grant, approvers: seq<Approver>, seen: set<string>, now: string)
    requires CheckGrant(kit, g, approvers, seen, now).Ok?
    ensures CheckGrant(kit, g, approvers, {}, now).Ok?
  {
  }

  /** Nothing the invariant speaks of has moved, except that threads may have ended. */
  ghost predicate Quiet(s: State, n: State) {
    && n.db.seen == s.db.seen
    && n.history == s.history.(owners := n.history.owners)
    && forall c :: c in n.threads ==> c in s.threads && n.threads[c] == s.threads[c]
  }

  lemma QuietKeepsInv(kit: Kit, s: State, n: State)
    requires Inv(kit, s) && Quiet(s, n)
    ensures Inv(kit, n)
  {
    forall c | c in n.threads && Holds(n.threads[c].pc).Some?
      ensures Owns(kit, n, c, Holds(n.threads[c].pc).value)
    {
      assert Owns(kit, s, c, Holds(s.threads[c].pc).value);
    }
    forall k | 0 <= k < |n.history.forwards| && n.history.forwards[k].auth.Some?
      ensures Owns(kit, n, n.history.forwards[k].caller, n.history.forwards[k].auth.value)
    {
      assert Owns(kit, s, s.history.forwards[k].caller, s.history.forwards[k].auth.value);
    }
  }

  /** One thread moves on without claiming or forwarding: what it holds it held, what it has checked
      it has checked. */
  ghost predicate Advances(kit: Kit, s: State, n: State, caller: nat) {
    && n.db.seen == s.db.seen
    && n.history == s.history.(owners := n.history.owners)
    && caller in s.threads && caller in n.threads
    && n.threads == s.threads[caller := s.threads[caller].(pc := n.threads[caller].pc)]
    && var was, pc := s.threads[caller].pc, n.threads[caller].pc;
       && OfSeed(pc) == OfSeed(was) && !was.Ran? && !pc.Ran?
       && (Holds(pc).None? || Holds(pc) == Holds(was))
       && (Checked(pc).Some? ==>
             CheckGrant(kit, Checked(pc).value.0, s.threads[caller].approvers, {}, Checked(pc).value.1).Ok?)
  }

  lemma AdvanceKeepsInv(kit: Kit, s: State, n: State, caller: nat)
    requires Inv(kit, s) && Advances(kit, s, n, caller)
    ensures Inv(kit, n)
  {
    forall c | c in n.threads && Holds(n.threads[c].pc).Some?
      ensures Owns(kit, n, c, Holds(n.threads[c].pc).value)
    {
      assert Owns(kit, s, c, Holds(s.threads[c].pc).value);
    }
    forall k | 0 <= k < |n.history.forwards| && n.history.forwards[k].auth.Some?
      ensures Owns(kit, n, n.history.forwards[k].caller, n.history.forwards[k].auth.value)
    {
      assert Owns(kit, s, s.history.forwards[k].caller, s.history.forwards[k].auth.value);
    }
  }

  lemma LocatedMoves(kit: Kit, s: State, caller: nat, pc: Pc)
    requires caller in s.threads && s.threads[caller].pc.Asking? && (pc.Found? || pc.Parking?)
    ensures Advances(kit, s, At(s, caller, pc), caller)
  {
  }

  lemma LocateMoves(kit: Kit, s: State, caller: nat)
    ensures var n := DoLocate(s, caller); n == s || Advances(kit, s, n, caller)
  {
    if caller in s.threads && s.threads[caller].pc.Asking? {
      var r := DecidedFor(s.db, s.threads[caller].fields);
      LocatedMoves(kit, s, caller, if r.Some? then Found(r.value) else Parking);
    }
  }

  lemma CheckMoves(kit: Kit, s: State, caller: nat, now: string)
    ensures var n := DoCheck(kit, s, caller, now); n == s || Advances(kit, s, n, caller)
  {
    if caller in s.threads && s.threads[caller].pc.Found? && s.threads[caller].pc.row.decision.Some? {
      var row := s.threads[caller].pc.row;
      if CheckGrant(kit, GrantOf(row), s.threads[caller].approvers, SeenOf(s.db, row.hash), now).Ok? {
        CheckWithoutReplay(kit, GrantOf(row), s.threads[caller].approvers, SeenOf(s.db, row.hash), now);
      }
    }
  }

  /** A call goes on after marking its row used: with its claim won, or to record a denial. */
  predicate GoesOn(pc: Pc) {
    (pc.Won? || (pc.Refused? && pc.denied)) && pc.row.decision.Some?
  }

  lemma SpendGoesOn(kit: Kit, s: State, caller: nat, now: string)
    requires caller in s.threads && GoesOn(s.threads[caller].pc)
    ensures Advances(kit, s, DoSpend(s, caller, now), caller)
  {
  }

  lemma SpendEnds(s: State, caller: nat, now: string)
    requires caller in s.threads ==> !GoesOn(s.threads[caller].pc)
    ensures Quiet(s, DoSpend(s, caller, now))
  {
  }

  lemma SpendMoves(kit: Kit, s: State, caller: nat, now: string)
    ensures var n := DoSpend(s, caller, now); Quiet(s, n) || Advances(kit, s, n, caller)
  {
    if caller in s.threads && GoesOn(s.threads[caller].pc) {
      SpendGoesOn(kit, s, caller, now);
    } else {
      SpendEnds(s, caller, now);
    }
  }

  lemma WriteAheadMoves(kit: Kit, s: State, caller: nat, intent: string, now: string, ok: bool)
    ensures var n := DoWriteAhead(s, caller, intent, now, ok); Quiet(s, n) || Advances(kit, s, n, caller)
  {
  }

  lemma MovingSteps(kit: Kit, s: State, t: Step)
    requires t.Locate? || t.Check? || t.Spend? || t.WriteAhead?
    ensures var n := Apply(kit, s, t); Quiet(s, n) || Advances(kit, s, n, t.caller)
  {
    match t
    case Locate(c) => LocateMoves(kit, s, c);
    case Check(c, now) => CheckMoves(kit, s, c, now);
    case Spend(c, now) => SpendMoves(kit, s, c, now);
    case WriteAhead(c, i, now, ok) => WriteAheadMoves(kit, s, c, i, now, ok);
  }

  predicate Still(t: Step) {
    t.Tick? || t.Decide? || t.Open? || t.ReadOpen? || t.Recover? || t.Serve? || t.Leave? || t.Park? || t.Deny?
    || t.Record? || t.SeedRecord? || t.Other? || t.Crash?
  }

  lemma StillAfterwards(kit: Kit, s: State, t: Step)
    requires t.Deny? || t.Record? || t.SeedRecord?
    ensures Quiet(s, Apply(kit, s, t))
  {
  }

  lemma StillChaining(kit: Kit, s: State, t: Step)
    requires t.Recover? || t.Other?
    ensures Quiet(s, Apply(kit, s, t))
  {
  }

  lemma StillOutside(kit: Kit, s: State, t: Step)
    requires t.Tick? || t.Decide? || t.Open? || t.ReadOpen? || t.Serve? || t.Leave? || t.Park? || t.Crash?
    ensures Quiet(s, Apply(kit, s, t))
  {
  }

  lemma StillSteps(kit: Kit, s: State, t: Step)
    requires Still(t)
    ensures Quiet(s, Apply(kit, s, t))
  {
    if t.Recover? || t.Other? { StillChaining(kit, s, t); }
    else if t.Deny? || t.Record? || t.SeedRecord? { StillAfterwards(kit, s, t); }
    else { StillOutside(kit, s, t); }
  }

  /** A thread joins: it is new, holds nothing, and what it has checked it has checked. */
  ghost predicate Joins(kit: Kit, s: State, n: State, caller: nat) {
    && n.db == s.db && Fresh(s, caller) && caller in n.threads
    && n.threads == s.threads[caller := n.threads[caller]]
    && n.history.claims == s.history.claims && n.history.forwards == s.history.forwards
    && var thread := n.threads[caller];
       && n.history.callers == (if OfSeed(thread.pc) then s.history.callers else s.history.callers + {caller})
       && n.history.seeders == (if OfSeed(thread.pc) then s.history.seeders + {caller} else s.history.seeders)
       && Holds(thread.pc).None?
       && (Checked(thread.pc).Some? ==>
             CheckGrant(kit, Checked(thread.pc).value.0, thread.approvers, {}, Checked(thread.pc).value.1).Ok?)
  }

  lemma JoiningKeepsInv(kit: Kit, s: State, n: State, caller: nat)
    requires Inv(kit, s) && Joins(kit, s, n, caller)
    ensures Inv(kit, n)
  {
    forall c | c in n.threads && Holds(n.threads[c].pc).Some?
      ensures Owns(kit, n, c, Holds(n.threads[c].pc).value)
    {
      assert Owns(kit, s, c, Holds(s.threads[c].pc).value);
    }
    forall k | 0 <= k < |n.history.forwards| && n.history.forwards[k].auth.Some?
      ensures Owns(kit, n, n.history.forwards[k].caller, n.history.forwards[k].auth.value)
    {
      assert Owns(kit, s, s.history.forwards[k].caller, s.history.forwards[k].auth.value);
    }
  }

  lemma BeginJoins(kit: Kit, s: State, t: Step)
    requires t.Begin? && DoBegin(s, t) != s
    ensures Joins(kit, s, DoBegin(s, t), t.caller)
  {
  }

  lemma SeedJoins(kit: Kit, s: State, t: Step)
    requires t.Seed? && DoSeed(kit, s, t) != s
    ensures Joins(kit, s, DoSeed(kit, s, t), t.caller)
  {
    CheckWithoutReplay(kit, t.grant, t.approvers, SeenOf(s.db, kit.hash(t.grant.request)), t.now);
  }

  lemma BeginKeepsInv(kit: Kit, s: State, t: Step)
    requires Inv(kit, s) && (t.Begin? || t.Seed?)
    ensures Inv(kit, Apply(kit, s, t))
  {
    var n := Apply(kit, s, t);
    if n != s {
      if t.Begin? { BeginJoins(kit, s, t); } else { SeedJoins(kit, s, t); }
      JoiningKeepsInv(kit, s, n, t.caller);
    }
  }

  /** Winning a claim: the request hash was unclaimed, so nobody else's claim is disturbed. */
  ghost predicate Wins(kit: Kit, s: State, n: State, caller: nat, g: Grant, at: string) {
    var h := kit.hash(g.request);
    && caller in s.threads && caller in n.threads && h !in s.db.seen
    && Checked(s.threads[caller].pc) == Some((g, at))
    && n.threads == s.threads[caller := s.threads[caller].(pc := n.threads[caller].pc)]
    && n.db.seen.Keys == s.db.seen.Keys + {h}
    && n.history == s.history.(claims := s.history.claims[h := Holding(caller, g, s.threads[caller].approvers, at)])
    && var pc := n.threads[caller].pc;
       Holds(pc) == Some(g) && Checked(pc).None? && OfSeed(pc) == OfSeed(s.threads[caller].pc) && !pc.Ran?
  }

  lemma WinningKeepsBooks(kit: Kit, s: State, n: State, caller: nat, g: Grant, at: string)
    requires Inv(kit, s) && Wins(kit, s, n, caller, g, at)
    ensures CallersKnown(n) && ClaimsRecorded(kit, n)
  {
  }

  lemma WinningKeepsThreads(kit: Kit, s: State, n: State, caller: nat, g: Grant, at: string)
    requires Inv(kit, s) && Wins(kit, s, n, caller, g, at)
    ensures ThreadsEarned(kit, n)
  {
    assert Owns(kit, n, caller, g);
    forall c | c in n.threads && Holds(n.threads[c].pc).Some?
      ensures Owns(kit, n, c, Holds(n.threads[c].pc).value)
    {
      if c != caller { assert Owns(kit, s, c, Holds(s.threads[c].pc).value); }
    }
  }

  lemma WinningKeepsForwards(kit: Kit, s: State, n: State, caller: nat, g: Grant, at: string)
    requires Inv(kit, s) && Wins(kit, s, n, caller, g, at)
    ensures ForwardsEarned(kit, n)
  {
    forall k | 0 <= k < |n.history.forwards| && n.history.forwards[k].auth.Some?
      ensures Owns(kit, n, n.history.forwards[k].caller, n.history.forwards[k].auth.value)
    {
      assert Owns(kit, s, s.history.forwards[k].caller, s.history.forwards[k].auth.value);
    }
  }

  lemma ClaimWins(kit: Kit, s: State, caller: nat, now: string)
    requires caller in s.threads && Checked(s.threads[caller].pc).Some?
    requires kit.hash(Checked(s.threads[caller].pc).value.0.request) !in s.db.seen
    ensures var (g, at) := Checked(s.threads[caller].pc).value; Wins(kit, s, DoClaim(kit, s, caller, now), caller, g, at)
  {
  }

  lemma ClaimLoses(kit: Kit, s: State, caller: nat, now: string)
    requires caller in s.threads && Checked(s.threads[caller].pc).Some? ==>
      kit.hash(Checked(s.threads[caller].pc).value.0.request) in s.db.seen
    ensures var n := DoClaim(kit, s, caller, now); Quiet(s, n) || Advances(kit, s, n, caller)
  {
  }

  lemma ClaimKeepsInv(kit: Kit, s: State, caller: nat, now: string)
    requires Inv(kit, s)
    ensures Inv(kit, DoClaim(kit, s, caller, now))
  {
    var n := DoClaim(kit, s, caller, now);
    if caller in s.threads && Checked(s.threads[caller].pc).Some?
       && kit.hash(Checked(s.threads[caller].pc).value.0.request) !in s.db.seen {
      var (g, at) := Checked(s.threads[caller].pc).value;
      ClaimWins(kit, s, caller, now);
      WinningKeepsBooks(kit, s, n, caller, g, at);
      WinningKeepsThreads(kit, s, n, caller, g, at);
      WinningKeepsForwards(kit, s, n, caller, g, at);
    } else {
      ClaimLoses(kit, s, caller, now);
      if Quiet(s, n) { QuietKeepsInv(kit, s, n); } else { AdvanceKeepsInv(kit, s, n, caller); }
    }
  }

  /** A call is forwarded: its caller stands past the forward, or is gone. */
  ghost predicate Forwards(s: State, n: State, f: Forwarded) {
    && f.caller in s.threads
    && n.db == s.db && n.history == s.history.(forwards := s.history.forwards + [f])
    && (forall c :: c in n.threads ==>
          c in s.threads && (if c == f.caller then n.threads[c].pc.Ran? && Holds(n.threads[c].pc) == f.auth
                             else n.threads[c] == s.threads[c]))
  }

  lemma ForwardingForwards(s: State, caller: nat, auth: Option<Grant>, intent: Option<string>, outcome: Outcome)
    requires caller in s.threads
    ensures Forwards(s, Forwarding(s, caller, auth, intent, outcome), Forwarded(caller, auth, intent, outcome))
  {
  }

  lemma ForwardsKeepThreads(kit: Kit, s: State, n: State, f: Forwarded)
    requires ThreadsEarned(kit, s) && Forwards(s, n, f) && f.auth == Holds(s.threads[f.caller].pc)
    ensures ThreadsEarned(kit, n)
  {
    forall c | c in n.threads && Holds(n.threads[c].pc).Some? ensures Owns(kit, n, c, Holds(n.threads[c].pc).value) {
      assert Owns(kit, s, c, Holds(s.threads[c].pc).value);
    }
  }

  lemma ForwardsKeepForwards(kit: Kit, s: State, n: State, f: Forwarded)
    requires CallersKnown(s) && ForwardsEarned(kit, s) && Forwards(s, n, f)
    requires !OfSeed(s.threads[f.caller].pc) && !s.threads[f.caller].pc.Ran?
    requires f.auth.Some? ==> Owns(kit, s, f.caller, f.auth.value)
    ensures ForwardsEarned(kit, n)
  {
    forall c, d | Owns(kit, s, c, d) ensures Owns(kit, n, c, d) {}
    forall k | 0 <= k < |n.history.forwards|
      ensures n.history.forwards[k].auth.Some? ==> Owns(kit, n, n.history.forwards[k].caller, n.history.forwards[k].auth.value)
    {
      if k < |s.history.forwards| { assert n.history.forwards[k] == s.history.forwards[k]; }
    }
  }

  lemma ForwardsKeepBooks(kit: Kit, s: State, n: State, f: Forwarded)
    requires CallersKnown(s) && ClaimsRecorded(kit, s) && Forwards(s, n, f) && !OfSeed(s.threads[f.caller].pc)
    ensures CallersKnown(n) && ClaimsRecorded(kit, n)
  {
  }

  lemma ForwardingKeepsInv(kit: Kit, s: State, caller: nat, auth: Option<Grant>, intent: Option<string>, outcome: Outcome)
    requires Inv(kit, s) && caller in s.threads && !s.threads[caller].pc.Ran? && !OfSeed(s.threads[caller].pc)
    requires auth == Holds(s.threads[caller].pc)
    ensures Inv(kit, Forwarding(s, caller, auth, intent, outcome))
  {
    var n, f := Forwarding(s, caller, auth, intent, outcome), Forwarded(caller, auth, intent, outcome);
    assert auth.Some? ==> Owns(kit, s, caller, auth.value);
    ForwardingForwards(s, caller, auth, intent, outcome);
    ForwardsKeepThreads(kit, s, n, f);
    ForwardsKeepForwards(kit, s, n, f);
    ForwardsKeepBooks(kit, s, n, f);
  }

  lemma ForwardKeepsInv(kit: Kit, s: State, caller: nat, outcome: Outcome)
    requires Inv(kit, s)
    ensures Inv(kit, DoForward(s, caller, outcome))
  {
    if caller in s.threads && Folded(s.threads[caller]) {
      ForwardingKeepsInv(kit, s, caller, None, None, outcome);
    } else if caller in s.threads && s.threads[caller].pc.Ahead? {
      ForwardingKeepsInv(kit, s, caller, s.threads[caller].pc.auth, Some(s.threads[caller].pc.intent), outcome);
    }
  }

  lemma StepKeepsInv(kit: Kit, s: State, t: Step)
    requires Inv(kit, s)
    ensures Inv(kit, Apply(kit, s, t))
  {
    var n := Apply(kit, s, t);
    if Still(t) {
      StillSteps(kit, s, t);
      QuietKeepsInv(kit, s, n);
    } else if t.Locate? || t.Check? || t.Spend? || t.WriteAhead? {
      MovingSteps(kit, s, t);
      if Quiet(s, n) { QuietKeepsInv(kit, s, n); } else { AdvanceKeepsInv(kit, s, n, t.caller); }
    } else if t.Claim? {
      ClaimKeepsInv(kit, s, t.caller, t.now);
    } else if t.Forward? {
      ForwardKeepsInv(kit, s, t.caller, t.outcome);
    } else {
      BeginKeepsInv(kit, s, t);
    }
  }

  lemma {:induction false} RunKeepsInv(kit: Kit, steps: seq<Step>)
    ensures Inv(kit, Run(kit, steps))
  {
    if steps != [] {
      RunKeepsInv(kit, steps[..|steps| - 1]);
      StepKeepsInv(kit, Run(kit, steps[..|steps| - 1]), steps[|steps| - 1]);
    }
  }

  /** Two forwarded calls went ahead on approvals of one request hash. */
  predicate SameApproval(kit: Kit, f: Forwarded, g: Forwarded) {
    f.auth.Some? && g.auth.Some? && kit.hash(f.auth.value.request) == kit.hash(g.auth.value.request)
  }

  /** At most once: no request hash leads to two forwarded calls, whatever the interleaving. */
  lemma ApprovalForwardsAtMostOnce(kit: Kit, steps: seq<Step>, j: nat, k: nat)
    requires j < |Run(kit, steps).history.forwards| && k < |Run(kit, steps).history.forwards|
    requires SameApproval(kit, Run(kit, steps).history.forwards[j], Run(kit, steps).history.forwards[k])
    ensures j == k
  {
    RunKeepsInv(kit, steps);
    var s := Run(kit, steps);
    assert Owns(kit, s, s.history.forwards[j].caller, s.history.forwards[j].auth.value);
    assert Owns(kit, s, s.history.forwards[k].caller, s.history.forwards[k].auth.value);
  }

  /** Every gated forward was made by the thread that had won the claim, on a decision that passed
      the gate check. */
  lemma ForwardIsEarned(kit: Kit, steps: seq<Step>, k: nat)
    requires k < |Run(kit, steps).history.forwards| && Run(kit, steps).history.forwards[k].auth.Some?
    ensures var h := Run(kit, steps).history;
      var g := h.forwards[k].auth.value;
      && kit.hash(g.request) in h.claims
      && var claim := h.claims[kit.hash(g.request)];
         claim.caller == h.forwards[k].caller && claim.grant == g
         && CheckGrant(kit, g, claim.approvers, {}, claim.at).Ok?
  {
    RunKeepsInv(kit, steps);
    var s := Run(kit, steps);
    assert Owns(kit, s, s.history.forwards[k].caller, s.history.forwards[k].auth.value);
  }
}
