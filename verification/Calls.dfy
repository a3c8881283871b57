/** From the call's side: what policy asked of it is what it went ahead on. */
module Calls {
  import opened Prelude
  import opened Gate
  import opened GateRules
  import opened Store
  import opened Protocol
  import opened Frames
  import opened AtMostOnce
  import Accounts
  import Streams
  import Seating
  import Recorded

  /** A thread at this position has done what its call asks: an authorization exactly when gated, and a write-ahead
      record unless it is a read without one. */
  predicate Fits(asked: Asked, pc: Pc) {
    match pc
    case Ready(auth) => auth.Some? <==> asked.gated
    case Ahead(auth, _) => (auth.Some? <==> asked.gated) && !(asked.folds && auth.None?)
    case Ran(auth, ahead, _) => (auth.Some? <==> asked.gated) && (ahead.None? <==> asked.folds && auth.None?)
    case _ => asked.gated
  }

  ghost predicate ThreadFits(s: State, c: nat)
    requires c in s.threads
  {
    var thread := s.threads[c];
    !OfSeed(thread.pc) ==>
      && c in s.history.calls
      && var asked := s.history.calls[c];
         thread.fields == asked.fields && thread.folds == asked.folds && thread.approvers == asked.approvers && Fits(asked, thread.pc)
  }

  /** A forward is as its call asked: authorized for the call's own members exactly when gated, and written ahead
      unless it is a read without an authorization. */
  predicate ForwardFits(asked: Asked, f: Forwarded) {
    && (f.auth.Some? <==> asked.gated)
    && (f.intent.None? <==> asked.folds && !asked.gated)
    && (f.auth.Some? ==> NineAgree(f.auth.value.request, asked.fields))
  }

  ghost predicate Inv(s: State) {
    && s.history.calls.Keys == s.history.callers
    && (forall c :: c in s.threads ==> ThreadFits(s, c))
    && (forall h :: h in s.history.claims ==> ClaimFits(s, h))
    && (forall k :: 0 <= k < |s.history.forwards| ==> ForwardKept(s, k))
  }

  /** A call's claim was checked under that call's approvers. */
  predicate ClaimFits(s: State, h: string)
    requires h in s.history.claims
  {
    var claim := s.history.claims[h];
    claim.caller in s.history.calls ==> claim.approvers == s.history.calls[claim.caller].approvers
  }

  predicate ForwardKept(s: State, k: nat)
    requires k < |s.history.forwards|
  {
    var f := s.history.forwards[k];
    f.caller in s.history.calls && ForwardFits(s.history.calls[f.caller], f)
  }

  // ---- calls are settled when they begin ----

  lemma CallsOnlyGrow(kit: Kit, s: State, t: Step)
    requires s.history.calls.Keys == s.history.callers
    ensures var n := Apply(kit, s, t);
      n.history.calls.Keys == n.history.callers && forall c :: c in s.history.calls ==> c in n.history.calls && n.history.calls[c] == s.history.calls[c]
  {
    if t.Begin? && t.session in s.sessions && s.sessions[t.session].phase.Serving? && Fresh(s, t.caller) {
      assert t.caller !in s.history.calls;
    }
  }

  lemma MoveFits(kit: Kit, s: State, thread: Thread, t: Step, pc: Pc, asked: Asked)
    requires Follows(kit, s, thread, t, pc) && Fits(asked, thread.pc) && thread.folds == asked.folds
    requires !OfSeed(thread.pc)
    ensures Fits(asked, pc) && !OfSeed(pc)
  {
  }

  lemma SeedsStaySeeds(kit: Kit, s: State, thread: Thread, t: Step, pc: Pc)
    requires Follows(kit, s, thread, t, pc) && OfSeed(thread.pc)
    ensures OfSeed(pc)
  {
  }

  lemma BegunFits(s: State, t: Step)
    requires t.Begin? && DoBegin(s, t) != s
    ensures t.caller in DoBegin(s, t).threads && ThreadFits(DoBegin(s, t), t.caller)
  {
  }

  lemma ThreadStaysFit(kit: Kit, s: State, t: Step, c: nat)
    requires Inv(s) && c in Apply(kit, s, t).threads
    ensures ThreadFits(Apply(kit, s, t), c)
  {
    var n := Apply(kit, s, t);
    CallsOnlyGrow(kit, s, t);
    StepLives(kit, s, t, c);
    if c in s.threads && Moved(kit, s, n, t, c) {
      assert ThreadFits(s, c);
      if n.threads[c] != s.threads[c] {
        if OfSeed(s.threads[c].pc) { SeedsStaySeeds(kit, s, s.threads[c], t, n.threads[c].pc); }
        else { MoveFits(kit, s, s.threads[c], t, n.threads[c].pc, s.history.calls[c]); }
      }
    } else if t.Begin? {
      BegunFits(s, t);
    }
  }

  /** The only claim a step adds is its own thread's, under that thread's approvers. */
  lemma ClaimsChange(kit: Kit, s: State, t: Step, h: string)
    requires h in Apply(kit, s, t).history.claims
    ensures var n := Apply(kit, s, t);
      || (h in s.history.claims && n.history.claims[h] == s.history.claims[h])
      || (t.Claim? && t.caller in s.threads && n.history.calls == s.history.calls && n.history.claims[h].caller == t.caller
          && n.history.claims[h].approvers == s.threads[t.caller].approvers
          && (OfSeed(s.threads[t.caller].pc) || s.threads[t.caller].pc.Passed?))
  {
    if t.Claim? { ClaimChanges(kit, s, t.caller, t.now, h); }
    else if Streams.AtGate(t) { GateKeepsClaims(kit, s, t); }
    else { OthersKeepClaims(kit, s, t); }
  }

  lemma ClaimChanges(kit: Kit, s: State, c: nat, now: string, h: string)
    requires h in DoClaim(kit, s, c, now).history.claims
    ensures var n := DoClaim(kit, s, c, now);
      || (h in s.history.claims && n.history.claims[h] == s.history.claims[h])
      || (c in s.threads && n.history.calls == s.history.calls && n.history.claims[h].caller == c
          && n.history.claims[h].approvers == s.threads[c].approvers
          && (OfSeed(s.threads[c].pc) || s.threads[c].pc.Passed?))
  {
  }

  lemma ClaimStaysFit(kit: Kit, s: State, t: Step, h: string)
    requires Inv(s) && CallersKnown(s) && ClaimsRecorded(kit, s) && h in Apply(kit, s, t).history.claims
    ensures ClaimFits(Apply(kit, s, t), h)
  {
    CallsOnlyGrow(kit, s, t);
    ClaimsChange(kit, s, t, h);
    if h in s.history.claims && Apply(kit, s, t).history.claims[h] == s.history.claims[h] {
      assert ClaimFits(s, h);
      OldCallerStays(kit, s, t, s.history.claims[h].caller);
    } else {
      assert ThreadFits(s, t.caller);
    }
  }

  /** A caller that won a claim is not begun again. */
  lemma OldCallerStays(kit: Kit, s: State, t: Step, c: nat)
    requires s.history.calls.Keys == s.history.callers && (c in s.history.callers || c in s.history.seeders)
    ensures c in Apply(kit, s, t).history.calls ==> c in s.history.calls
  {
  }

  lemma ForwardStaysFit(kit: Kit, s: State, t: Step, k: nat)
    requires Inv(s) && Recorded.Inv(s) && k < |Apply(kit, s, t).history.forwards|
    ensures ForwardKept(Apply(kit, s, t), k)
  {
    CallsOnlyGrow(kit, s, t);
    ForwardsOnlyGrow(kit, s, t);
    if k < |s.history.forwards| {
      assert ForwardKept(s, k);
    } else {
      assert ThreadFits(s, t.caller) && Recorded.ThreadBound(s.threads[t.caller]);
      var thread := s.threads[t.caller];
      if thread.pc.Ahead? && thread.pc.auth.Some? { BoundIsNine(thread.pc.auth.value.request, thread.fields); }
    }
  }

  lemma StepKeepsInv(kit: Kit, s: State, t: Step)
    requires Inv(s) && AtMostOnce.Inv(kit, s) && Recorded.Inv(s)
    ensures Inv(Apply(kit, s, t))
  {
    var n := Apply(kit, s, t);
    CallsOnlyGrow(kit, s, t);
    forall c | c in n.threads ensures ThreadFits(n, c) { ThreadStaysFit(kit, s, t, c); }
    forall h | h in n.history.claims ensures ClaimFits(n, h) { ClaimStaysFit(kit, s, t, h); }
    forall k | 0 <= k < |n.history.forwards| ensures ForwardKept(n, k) { ForwardStaysFit(kit, s, t, k); }
  }

  lemma {:induction false} RunKeepsInv(kit: Kit, steps: seq<Step>)
    ensures Inv(Run(kit, steps))
  {
    if steps != [] {
      RunKeepsInv(kit, steps[..|steps| - 1]);
      AtMostOnce.RunKeepsInv(kit, steps[..|steps| - 1]);
      Recorded.RunKeepsInv(kit, steps[..|steps| - 1]);
      StepKeepsInv(kit, Run(kit, steps[..|steps| - 1]), steps[|steps| - 1]);
    }
  }

  /** Every forward is as its call asked, in every run: with an authorization of the call's own nine members exactly
      when the call is gated, and with a write-ahead record exactly when it is not an ungated read. */
  lemma EveryForwardFits(kit: Kit, steps: seq<Step>, k: nat)
    requires k < |Run(kit, steps).history.forwards|
    ensures var h := Run(kit, steps).history;
      h.forwards[k].caller in h.calls && ForwardFits(h.calls[h.forwards[k].caller], h.forwards[k])
  {
    RunKeepsInv(kit, steps);
    assert ForwardKept(Run(kit, steps), k);
  }

  /** Every forward of a gated call went ahead on an authorization of the call's own members whose request hash that
      very call had claimed, on a decision that passed the gate check under the approvers policy names for the call. */
  lemma GatedForwardIsEarned(kit: Kit, steps: seq<Step>, k: nat)
    requires k < |Run(kit, steps).history.forwards|
    requires var h := Run(kit, steps).history; h.forwards[k].caller in h.calls ==> h.calls[h.forwards[k].caller].gated
    ensures var h := Run(kit, steps).history;
      var f := h.forwards[k];
      && f.caller in h.calls && f.auth.Some? && NineAgree(f.auth.value.request, h.calls[f.caller].fields)
      && kit.hash(f.auth.value.request) in h.claims
      && var claim := h.claims[kit.hash(f.auth.value.request)];
         && claim.caller == f.caller && claim.grant == f.auth.value
         && claim.approvers == h.calls[f.caller].approvers
         && CheckGrant(kit, f.auth.value, h.calls[f.caller].approvers, {}, claim.at).Ok?
         && Approves(kit.hash(f.auth.value.request), f.auth.value.request, f.auth.value.decision, h.calls[f.caller].approvers,
                     Text(claim.at), {})
  {
    EveryForwardFits(kit, steps, k);
    ForwardIsEarned(kit, steps, k);
    RunKeepsInv(kit, steps);
    var s := Run(kit, steps);
    var g := s.history.forwards[k].auth.value;
    assert ClaimFits(s, kit.hash(g.request));
    GrantPassesExactly(kit, g, s.history.claims[kit.hash(g.request)].approvers, {}, s.history.claims[kit.hash(g.request)].at);
  }

  /** With no overlapping sessions of one stream and key, every forward of a call that is gated, or not of class
      `read`, has its own write-ahead record: open with no envelope, or closed by exactly one. */
  lemma UnfoldedForwardIsAccounted(kit: Kit, steps: seq<Step>, k: nat)
    requires Seating.Orderly(kit, steps) && k < |Run(kit, steps).history.forwards|
    requires var h := Run(kit, steps).history;
      h.forwards[k].caller in h.calls ==> h.calls[h.forwards[k].caller].gated || !h.calls[h.forwards[k].caller].folds
    ensures var s := Run(kit, steps);
      var f := s.history.forwards[k];
      && f.intent.Some?
      && var i := f.intent.value;
         && i in s.db.intents && i in s.history.owners && s.history.owners[i] == f.caller
         && if Seating.Unresolved(s, i) then Seating.NeverClosed(s, i) else Seating.ClosedOnce(s, i)
  {
    EveryForwardFits(kit, steps, k);
    Accounts.ForwardedIsAccounted(kit, steps, k);
  }
}
