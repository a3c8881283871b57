/** Sessions that do not overlap: one seat, one session, and what a seated session and its threads have pledged
    to close. */
module Seating {
  import opened Prelude
  import opened Gate
  import opened Store
  import opened Protocol
  import opened Streams
  import opened Frames
  import AtMostOnce
  import opened Citations

  /** No other live session serves this stream and key when one opens. */
  predicate NoOverlap(s: State, t: Step) {
    t.Open? ==>
      forall id :: id in s.sessions ==> s.sessions[id].stream != t.stream || s.sessions[id].key != t.key
  }

  predicate Orderly(kit: Kit, steps: seq<Step>) {
    steps != [] ==>
      Orderly(kit, steps[..|steps| - 1]) && NoOverlap(Run(kit, steps[..|steps| - 1]), steps[|steps| - 1])
  }

  predicate SameSeat(a: Session, b: Session) {
    a.stream == b.stream && a.key == b.key
  }

  /** At most one live session per stream and key. */
  ghost predicate OneSeat(s: State) {
    forall a, b :: a in s.sessions && b in s.sessions && SameSeat(s.sessions[a], s.sessions[b]) ==> a == b
  }

  /** A thread belongs to a live session; a call's session has finished recovering. */
  predicate Seated(s: State, c: nat)
    requires c in s.threads
  {
    var thread := s.threads[c];
    && thread.session in s.sessions
    && s.sessions[thread.session].stream == thread.stream
    && s.sessions[thread.session].key == thread.key
    && (!AtMostOnce.OfSeed(thread.pc) ==> s.sessions[thread.session].phase.Serving?)
  }

  ghost predicate Seats(s: State) {
    OneSeat(s) && forall c :: c in s.threads ==> Seated(s, c)
  }

  predicate Unresolved(s: State, i: string) {
    i in s.db.intents && s.db.intents[i].resolvedAt.None?
  }

  /** Whoever is about to close a write-ahead record finds it open. */
  ghost predicate Pledges(s: State) {
    && (forall c :: c in s.threads && OpenOf(s.threads[c].pc).Some? ==> Unresolved(s, OpenOf(s.threads[c].pc).value))
    && (forall id :: id in s.sessions && s.sessions[id].phase.Recovering? ==>
          var todo := s.sessions[id].phase.todo;
          && (forall k :: 0 <= k < |todo| ==> IsOpen(s.db, todo[k], s.sessions[id].stream, s.sessions[id].key))
          && (forall j, k :: 0 <= j < k < |todo| ==> todo[j] != todo[k]))
  }

  predicate Closes(row: Row, i: string) {
    row.origin == Closing(i)
  }

  /** A write-ahead record is closed exactly when some envelope accounts for it. */
  ghost predicate Posted(s: State) {
    && (forall k :: 0 <= k < |s.db.envelopes| && s.db.envelopes[k].origin.Closing? ==>
          var i := s.db.envelopes[k].origin.intent; i in s.db.intents && s.db.intents[i].resolvedAt.Some?)
    && (forall i :: i in s.db.intents && s.db.intents[i].resolvedAt.Some? ==>
          exists k :: 0 <= k < |s.db.envelopes| && Closes(s.db.envelopes[k], i))
  }

  /** And by no more than one. */
  ghost predicate Ledger(s: State) {
    && Posted(s)
    && (forall j, k :: 0 <= j < k < |s.db.envelopes| && s.db.envelopes[j].origin.Closing? ==>
          s.db.envelopes[j].origin != s.db.envelopes[k].origin)
  }

  lemma OneSeatIsKept(kit: Kit, s: State, t: Step)
    requires OneSeat(s) && NoOverlap(s, t)
    ensures OneSeat(Apply(kit, s, t))
  {
    var n := Apply(kit, s, t);
    forall a, b | a in n.sessions && b in n.sessions && SameSeat(n.sessions[a], n.sessions[b]) ensures a == b {
      SessionsAdvance(kit, s, t, a);
      SessionsAdvance(kit, s, t, b);
      assert a in s.sessions && b in s.sessions ==> SameSeat(s.sessions[a], s.sessions[b]);
    }
  }

  /** A thread's session outlives it. */
  lemma SessionsOutlive(kit: Kit, s: State, t: Step, c: nat)
    requires c in Apply(kit, s, t).threads
    requires c in s.threads ==> s.threads[c].session in s.sessions
    ensures Apply(kit, s, t).threads[c].session in Apply(kit, s, t).sessions
  {
    if Starts(t) {
      if Apply(kit, s, t) != s && t.caller == c { NewThread(kit, s, t); }
    } else if t.Leave? {
      OthersStand(kit, s, t, c);
    } else {
      if Actor(t) != Some(c) { OthersStand(kit, s, t, c); } else { MovesFollow(kit, s, t, c); }
      SessionsStay(kit, s, t);
    }
  }

  lemma SessionsStay(kit: Kit, s: State, t: Step)
    requires !t.Leave?
    ensures s.sessions.Keys <= Apply(kit, s, t).sessions.Keys
  {
  }

  lemma MoveKeepsKind(kit: Kit, s: State, thread: Thread, t: Step, pc: Pc)
    requires Follows(kit, s, thread, t, pc)
    ensures AtMostOnce.OfSeed(pc) == AtMostOnce.OfSeed(thread.pc)
  {
  }

  lemma ThreadStaysSeated(kit: Kit, s: State, t: Step, c: nat)
    requires Seats(s) && c in Apply(kit, s, t).threads
    ensures Seated(Apply(kit, s, t), c)
  {
    var n := Apply(kit, s, t);
    if c in s.threads { assert Seated(s, c); }
    SessionsOutlive(kit, s, t, c);
    StepLives(kit, s, t, c);
    SessionsAdvance(kit, s, t, n.threads[c].session);
    StaysSeated(kit, s, n, t, c);
  }

  lemma StaysSeated(kit: Kit, s: State, n: State, t: Step, c: nat)
    requires c in n.threads && Lives(kit, s, n, t, c)
    requires c in s.threads ==> Seated(s, c)
    requires n.threads[c].session in n.sessions
    requires n.threads[c].session in s.sessions ==>
      var was, now := s.sessions[n.threads[c].session], n.sessions[n.threads[c].session];
      now.stream == was.stream && now.key == was.key && (was.phase.Serving? ==> now.phase.Serving?)
    ensures Seated(n, c)
  {
    if c in s.threads && Moved(kit, s, n, t, c) && n.threads[c] != s.threads[c] {
      MoveKeepsKind(kit, s, s.threads[c], t, n.threads[c].pc);
    }
  }

  lemma StepKeepsSeats(kit: Kit, s: State, t: Step)
    requires Seats(s) && NoOverlap(s, t)
    ensures Seats(Apply(kit, s, t))
  {
    OneSeatIsKept(kit, s, t);
    forall c | c in Apply(kit, s, t).threads ensures Seated(Apply(kit, s, t), c) { ThreadStaysSeated(kit, s, t, c); }
  }

  /** Exactly one envelope closes this write-ahead record. */
  ghost predicate ClosedOnce(s: State, i: string) {
    exists k :: 0 <= k < |s.db.envelopes| && Closes(s.db.envelopes[k], i)
      && forall j :: 0 <= j < |s.db.envelopes| && Closes(s.db.envelopes[j], i) ==> j == k
  }

  /** No envelope closes it. */
  ghost predicate NeverClosed(s: State, i: string) {
    forall k :: 0 <= k < |s.db.envelopes| ==> !Closes(s.db.envelopes[k], i)
  }
}
