/** What closing a write-ahead record does, and that what is about to close one is pledged to. */
module Closings {
  import opened Prelude
  import opened Gate
  import opened Store
  import opened Protocol
  import opened Streams
  import opened Frames
  import AtMostOnce
  import opened Citations
  import opened Seating

  /** The write-ahead record a step closes, if its append goes through. */
  function ClosedBy(kit: Kit, s: State, t: Step): Option<string> {
    match Attempt(s, t)
    case Some(a) => if a.origin.Closing? && Append(kit, s.db, a).Some? then Some(a.origin.intent) else None
    case None => None
  }

  lemma OnlyClosingResolves(kit: Kit, s: State, t: Step, i: string)
    requires i in s.db.intents
    ensures i in Apply(kit, s, t).db.intents
    ensures Unresolved(Apply(kit, s, t), i) <==> Unresolved(s, i) && ClosedBy(kit, s, t) != Some(i)
  {
    StepsAppend(kit, s, t);
    if t.WriteAhead? {
      IntentsStayKnown(kit, s, t);
      WritingResolvesNothing(kit, s, t, i);
    }
  }

  lemma WritingResolvesNothing(kit: Kit, s: State, t: Step, i: string)
    requires t.WriteAhead? && i in s.db.intents
    ensures i in Apply(kit, s, t).db.intents && Apply(kit, s, t).db.intents[i] == s.db.intents[i]
  {
  }

  /** Who closes: the recovering session whose next entry it is, or the thread that wrote it. */
  lemma CloserIsPledged(kit: Kit, s: State, t: Step)
    requires ClosedBy(kit, s, t).Some?
    ensures var i := ClosedBy(kit, s, t).value;
      || (t.Recover? && t.session in s.sessions && s.sessions[t.session].phase.Recovering?
          && s.sessions[t.session].phase.todo != [] && s.sessions[t.session].phase.todo[0] == i
          && Apply(kit, s, t).sessions[t.session].phase == Recovering(s.sessions[t.session].phase.todo[1..]))
      || (t.Record? && t.caller in s.threads && OpenOf(s.threads[t.caller].pc) == Some(i)
          && t.caller !in Apply(kit, s, t).threads)
  {
  }

  /** A session still recovering lists no call's write-ahead record. */
  lemma RecoveringHoldsNoCall(kit: Kit, s: State, id: nat, c: nat)
    requires Seats(s) && Provenance(kit, s) && Pledges(s)
    requires id in s.sessions && s.sessions[id].phase.Recovering?
    requires c in s.threads && OpenOf(s.threads[c].pc).Some?
    ensures OpenOf(s.threads[c].pc).value !in s.sessions[id].phase.todo
  {
    var todo, i := s.sessions[id].phase.todo, OpenOf(s.threads[c].pc).value;
    assert Seated(s, c) && ThreadAccounts(s, c);
    var session, own := s.sessions[id], s.sessions[s.threads[c].session];
    assert !SameSeat(session, own);
    forall k | 0 <= k < |todo| ensures todo[k] != i {
      assert IsOpen(s.db, todo[k], session.stream, session.key);
    }
  }

  /** Two recovering sessions never share a write-ahead record. */
  lemma RecoveriesAreDisjoint(s: State, a: nat, b: nat, i: string)
    requires Seats(s) && Pledges(s)
    requires a in s.sessions && s.sessions[a].phase.Recovering? && i in s.sessions[a].phase.todo
    requires b in s.sessions && s.sessions[b].phase.Recovering? && i in s.sessions[b].phase.todo
    ensures a == b
  {
    var j :| 0 <= j < |s.sessions[a].phase.todo| && s.sessions[a].phase.todo[j] == i;
    var k :| 0 <= k < |s.sessions[b].phase.todo| && s.sessions[b].phase.todo[k] == i;
    assert IsOpen(s.db, s.sessions[a].phase.todo[j], s.sessions[a].stream, s.sessions[a].key);
    assert IsOpen(s.db, s.sessions[b].phase.todo[k], s.sessions[b].stream, s.sessions[b].key);
    assert SameSeat(s.sessions[a], s.sessions[b]);
  }

  lemma MoveKeepsOpen(kit: Kit, s: State, thread: Thread, t: Step, pc: Pc)
    requires Follows(kit, s, thread, t, pc)
    ensures OpenOf(pc) == OpenOf(thread.pc) || (t.WriteAhead? && pc == Ahead(thread.pc.auth, t.intent))
  {
  }

  /** A thread that survives a step still finds its record open. */
  lemma ThreadStaysPledged(kit: Kit, s: State, t: Step, c: nat)
    requires OwnersInv(s) && Provenance(kit, s) && Seats(s) && Pledges(s)
    requires c in Apply(kit, s, t).threads && OpenOf(Apply(kit, s, t).threads[c].pc).Some?
    ensures Unresolved(Apply(kit, s, t), OpenOf(Apply(kit, s, t).threads[c].pc).value)
  {
    var n := Apply(kit, s, t);
    var i := OpenOf(n.threads[c].pc).value;
    StepLives(kit, s, t, c);
    if i in s.db.intents {
      OpenBefore(kit, s, n, t, c);
      OnlyClosingResolves(kit, s, t, i);
      if ClosedBy(kit, s, t) == Some(i) {
        CloserIsPledged(kit, s, t);
        if t.Recover? { RecoveringHoldsNoCall(kit, s, t.session, c); }
      }
    } else {
      WrittenIsOpen(kit, s, t, c);
    }
  }

  lemma OpenBefore(kit: Kit, s: State, n: State, t: Step, c: nat)
    requires OwnersInv(s) && Pledges(s) && c in n.threads && Lives(kit, s, n, t, c)
    requires OpenOf(n.threads[c].pc).Some? && OpenOf(n.threads[c].pc).value in s.db.intents
    ensures c in s.threads && OpenOf(s.threads[c].pc) == OpenOf(n.threads[c].pc) && Unresolved(s, OpenOf(n.threads[c].pc).value)
  {
    if c in s.threads && n.threads[c] != s.threads[c] && Moved(kit, s, n, t, c) {
      MoveKeepsOpen(kit, s, s.threads[c], t, n.threads[c].pc);
    }
  }

  lemma WrittenIsOpen(kit: Kit, s: State, t: Step, c: nat)
    requires Provenance(kit, s) && c in Apply(kit, s, t).threads && OpenOf(Apply(kit, s, t).threads[c].pc).Some?
    requires OpenOf(Apply(kit, s, t).threads[c].pc).value !in s.db.intents
    ensures Unresolved(Apply(kit, s, t), OpenOf(Apply(kit, s, t).threads[c].pc).value)
  {
    var n := Apply(kit, s, t);
    ThreadsStayAccounted(kit, s, t, c);
    IntentsOnlyGrow(kit, s, t, OpenOf(n.threads[c].pc).value);
  }

  /** What a recovering session still lists, it still finds open. */
  lemma SessionStaysPledged(kit: Kit, s: State, t: Step, id: nat)
    requires OwnersInv(s) && Provenance(kit, s) && Seats(s) && Pledges(s)
    requires id in Apply(kit, s, t).sessions && Apply(kit, s, t).sessions[id].phase.Recovering?
    ensures var n := Apply(kit, s, t);
      var todo := n.sessions[id].phase.todo;
      && (forall k :: 0 <= k < |todo| ==> IsOpen(n.db, todo[k], n.sessions[id].stream, n.sessions[id].key))
      && (forall j, k :: 0 <= j < k < |todo| ==> todo[j] != todo[k])
  {
    var n := Apply(kit, s, t);
    var session := n.sessions[id];
    var todo := session.phase.todo;
    SessionsAdvance(kit, s, t, id);
    forall k | 0 <= k < |todo| ensures IsOpen(n.db, todo[k], session.stream, session.key) {
      assert IsOpen(s.db, todo[k], session.stream, session.key) by { ListedBefore(kit, s, t, id, todo[k]); }
      IntentsStayKnown(kit, s, t);
      IntentsOnlyGrow(kit, s, t, todo[k]);
      OnlyClosingResolves(kit, s, t, todo[k]);
      if ClosedBy(kit, s, t) == Some(todo[k]) { ListedIsNotClosed(kit, s, t, id, k); }
    }
  }

  /** An entry of a recovering session's list was open before the step. */
  lemma ListedBefore(kit: Kit, s: State, t: Step, id: nat, i: string)
    requires Pledges(s)
    requires id in Apply(kit, s, t).sessions && Apply(kit, s, t).sessions[id].phase.Recovering?
    requires i in Apply(kit, s, t).sessions[id].phase.todo
    ensures id in s.sessions
    ensures IsOpen(s.db, i, s.sessions[id].stream, s.sessions[id].key)
  {
    SessionsAdvance(kit, s, t, id);
  }

  lemma ListedIsNotClosed(kit: Kit, s: State, t: Step, id: nat, k: nat)
    requires OwnersInv(s) && Provenance(kit, s) && Seats(s) && Pledges(s)
    requires id in Apply(kit, s, t).sessions && Apply(kit, s, t).sessions[id].phase.Recovering?
    requires k < |Apply(kit, s, t).sessions[id].phase.todo|
    ensures ClosedBy(kit, s, t) != Some(Apply(kit, s, t).sessions[id].phase.todo[k])
  {
    var i := Apply(kit, s, t).sessions[id].phase.todo[k];
    if ClosedBy(kit, s, t).Some? {
      SessionsAdvance(kit, s, t, id);
      CloserIsPledged(kit, s, t);
      if t.Record? {
        RecoveringHoldsNoCall(kit, s, id, t.caller);
      } else if id != t.session && i == s.sessions[t.session].phase.todo[0] {
        RecoveriesAreDisjoint(s, id, t.session, i);
      }
    }
  }

  lemma StepKeepsPledges(kit: Kit, s: State, t: Step)
    requires OwnersInv(s) && Provenance(kit, s) && Seats(s) && Pledges(s)
    ensures Pledges(Apply(kit, s, t))
  {
    var n := Apply(kit, s, t);
    forall c | c in n.threads && OpenOf(n.threads[c].pc).Some? ensures Unresolved(n, OpenOf(n.threads[c].pc).value) {
      ThreadStaysPledged(kit, s, t, c);
    }
    forall id | id in n.sessions && n.sessions[id].phase.Recovering?
      ensures var todo := n.sessions[id].phase.todo;
        && (forall k :: 0 <= k < |todo| ==> IsOpen(n.db, todo[k], n.sessions[id].stream, n.sessions[id].key))
        && (forall j, k :: 0 <= j < k < |todo| ==> todo[j] != todo[k])
    {
      SessionStaysPledged(kit, s, t, id);
    }
  }
}
