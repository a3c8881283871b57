/** A push cycle as code: it reads a batch and offers it row by row, while between any two of its transactions
    others take any steps they like, other pushers among them, and the process may die. */
module PushCycle {
  import opened Prelude
  import opened Store
  import opened Push
  import opened Pushers
  import opened PushDeployment
  import OnePusher
  import AnyPushers

  /** What surrounds the cycle: the kernel's answer to each row if it is offered, and the steps others take after
      each of the cycle's transactions. */
  datatype Surroundings = Surroundings(kernel: nat -> Reply, others: nat -> seq<Step>)

  ghost predicate Foreigners(s: Surroundings, p: nat) {
    forall n :: AllForeign(s.others(n), p)
  }

  /** Nothing else goes on but chaining and calls. */
  ghost predicate Quiet(s: Surroundings) {
    forall n :: AllOutside(s.others(n))
  }

  /** The streams held once a row is answered. */
  function HeldAfter(held: set<string>, stream: string, answer: Answer): set<string> {
    if answer.Refused? then held + {stream} else held
  }

  function HeldPast(held: set<string>, row: Row, answer: Answer): set<string> {
    if row.record.stream in held then held else HeldAfter(held, row.record.stream, answer)
  }

  /** A held row is passed over; another is on offer. */
  predicate LookedAt(was: Pusher, now: Pusher) {
    && was.batch != []
    && if was.batch[0].record.stream in was.held then now == Onward(was, was.held)
       else now.spot.Offering? && now == was.(spot := now.spot)
  }

  /** The pusher is where it stood, or is gone. */
  ghost predicate Undisturbed(w: World, n: World, p: nat) {
    p in n.pushers ==> p in w.pushers && n.pushers[p] == w.pushers[p]
  }

  class Pushes {
    const d: Pushing

    constructor (d: Pushing)
      ensures this.d == d
    {
      this.d := d;
    }

    /** What the cycle keeps: its run, its count of acceptances, and good order while nobody else pushes. */
    twostate predicate Kept(p: nat, heard: nat, quiet: bool)
      reads d, d.store
    {
      && d.Valid() && old(d.trace) <= d.trace && AcceptedBy(d.trace, p) == AcceptedBy(old(d.trace), p) + heard
      && (quiet && OnePusher.Orderly(old(d.trace)) ==> OnePusher.Orderly(d.trace))
    }

    method Others(p: nat, steps: seq<Step>) returns (alive: bool)
      requires d.Valid() && AllForeign(steps, p)
      modifies d, d.store
      ensures Kept(p, 0, AllOutside(steps)) && Undisturbed(old(d.World()), d.World(), p) && alive == (p in d.pushers)
      ensures AllOutside(steps) ==> d.pushers == old(d.pushers)
    {
      for k := 0 to |steps|
        invariant Kept(p, 0, AllOutside(steps)) && Undisturbed(old(d.World()), d.World(), p)
        invariant AllOutside(steps) ==> d.pushers == old(d.pushers)
      {
        ghost var before := d.World();
        if p in Apply(before, steps[k]).pushers { ForeignStands(before, steps[k], p); }
        if Outside(steps[k]) { OutsideStands(before, steps[k]); }
        assert Heard(steps[k], p) == 0;
        d.Take(steps[k]);
      }
      alive := p in d.pushers;
    }

    /** A transaction has been made: it is a step of the run, and then others take theirs. */
    method After(ghost before: World, ghost t: Step, p: nat, others: seq<Step>) returns (alive: bool)
      requires d.store.Valid() && before == Run(d.trace) && d.World() == Apply(before, t)
      requires AllForeign(others, p) && OnePusher.TakesTurns(before, t)
      modifies d, d.store
      ensures Kept(p, Heard(t, p), AllOutside(others)) && Undisturbed(old(d.World()), d.World(), p) && alive == (p in d.pushers)
      ensures AllOutside(others) ==> d.pushers == old(d.pushers)
    {
      d.Note(before, t);
      alive := Others(p, others);
    }

    method Reading(p: nat, limit: nat, others: seq<Step>) returns (rows: seq<Row>, alive: bool)
      requires d.Valid() && AllForeign(others, p) && p !in d.pushers
      modifies d, d.store
      ensures d.Valid() && old(d.trace) <= d.trace && AcceptedBy(d.trace, p) == AcceptedBy(old(d.trace), p)
      ensures alive == (p in d.pushers) && |rows| <= limit
      ensures AllOutside(others) && old(d.pushers) == map[] ==>
        d.pushers - {p} == map[] && (OnePusher.Orderly(old(d.trace)) ==> OnePusher.Orderly(d.trace))
      ensures alive ==> d.pushers[p] == Pusher(rows, {}, Choosing)
    {
      ghost var before := d.World();
      rows := d.Read(p, limit);
      d.Note(before, Step.Read(p, rows));
      alive := Others(p, others);
    }

    method Looking(p: nat, others: seq<Step>) returns (alive: bool)
      requires d.Valid() && AllForeign(others, p) && p in d.pushers && d.pushers[p].spot.Choosing?
      modifies d, d.store
      ensures Kept(p, 0, AllOutside(others)) && alive == (p in d.pushers)
      ensures AllOutside(others) ==> d.pushers - {p} == old(d.pushers) - {p}
      ensures var was := old(d.pushers)[p];
        && (was.batch == [] ==> !alive)
        && (alive ==> LookedAt(was, d.pushers[p]))
    {
      ghost var before := d.World();
      d.Look(p);
      alive := After(before, Step.Look(p), p, others);
    }

    method Hearing(p: nat, reply: Reply, others: seq<Step>) returns (alive: bool)
      requires d.Valid() && AllForeign(others, p) && p in d.pushers && d.pushers[p].spot.Offering? && d.pushers[p].batch != []
      modifies d, d.store
      ensures Kept(p, if reply.answer.Accepted? then 1 else 0, AllOutside(others)) && alive == (p in d.pushers)
      ensures AllOutside(others) ==> d.pushers - {p} == old(d.pushers) - {p}
      ensures var was := old(d.pushers)[p];
        && (reply.answer.Unreachable? || reply.answer.NotJudged? ==> !alive)
        && (alive ==> AfterSettling(d.pushers[p]) == Onward(was, HeldAfter(was.held, was.batch[0].record.stream, reply.answer)))
    {
      ghost var before := d.World();
      d.Hear(p, reply);
      alive := After(before, Step.Hear(p, reply), p, others);
    }

    method Settling(p: nat, others: seq<Step>) returns (alive: bool)
      requires d.Valid() && AllForeign(others, p) && p in d.pushers
      modifies d, d.store
      ensures Kept(p, 0, AllOutside(others)) && alive == (p in d.pushers)
      ensures AllOutside(others) ==> d.pushers - {p} == old(d.pushers) - {p}
      ensures alive ==> d.pushers[p] == AfterSettling(old(d.pushers)[p])
    {
      ghost var before := d.World();
      d.Settle(p);
      alive := After(before, Step.Settle(p), p, others);
    }

    /** One row: passed over, or offered, answered and settled. Whether the cycle goes on, and whether the row
        was accepted. */
    method PushRow(p: nat, ghost rest: seq<Row>, row: Row, held: set<string>, reply: Reply, s: Surroundings, n: nat)
      returns (alive: bool, accepted: bool)
      requires d.Valid() && Foreigners(s, p) && p in d.pushers && rest != [] && row == rest[0]
      requires d.pushers[p] == Pusher(rest, held, Choosing)
      modifies d, d.store
      ensures Kept(p, if accepted then 1 else 0, Quiet(s)) && alive == (p in d.pushers)
      ensures Quiet(s) ==> d.pushers - {p} == old(d.pushers) - {p}
      ensures accepted ==> row.record.stream !in held && reply.answer.Accepted?
      ensures row.record.stream !in held && (reply.answer.Unreachable? || reply.answer.NotJudged?) ==> !alive
      ensures alive ==> d.pushers[p] == Pusher(rest[1..], HeldPast(held, row, reply.answer), Choosing)
    {
      accepted := false;
      alive := Looking(p, s.others(n));
      if !alive || row.record.stream in held { return; }
      alive := Hearing(p, reply, s.others(n + 1));
      accepted := reply.answer.Accepted?;
      if !alive { return; }
      alive := Settling(p, s.others(n + 2));
    }

    /** The loop over a batch. */
    method PushRows(p: nat, rows: seq<Row>, s: Surroundings) returns (alive: bool, accepted: nat)
      requires d.Valid() && Foreigners(s, p) && p in d.pushers && d.pushers[p] == Pusher(rows, {}, Choosing)
      modifies d, d.store
      ensures Kept(p, accepted, Quiet(s)) && alive == (p in d.pushers) && accepted <= |rows|
      ensures Quiet(s) ==> d.pushers - {p} == old(d.pushers) - {p}
      ensures alive ==> d.pushers[p].batch == [] && d.pushers[p].spot.Choosing?
    {
      var held: set<string> := {};
      alive, accepted := true, 0;
      for k := 0 to |rows|
        invariant Kept(p, accepted, Quiet(s)) && accepted <= k && alive == (p in d.pushers)
        invariant alive ==> d.pushers[p] == Pusher(rows[k..], held, Choosing)
        invariant Quiet(s) ==> d.pushers - {p} == old(d.pushers) - {p}
      {
        var was;
        alive, was := PushRow(p, rows[k..], rows[k], held, s.kernel(k), s, 3 * k + 1);
        if was { accepted := accepted + 1; }
        if !alive { return; }
        held := HeldPast(held, rows[k], s.kernel(k).answer);
      }
    }

    method Cycle(p: nat, limit: nat, s: Surroundings) returns (accepted: nat)
      requires d.Valid() && Foreigners(s, p) && p !in d.pushers
      modifies d, d.store
      ensures d.Valid() && p !in d.pushers && accepted <= limit
      ensures old(d.trace) <= d.trace && AcceptedBy(d.trace, p) == AcceptedBy(old(d.trace), p) + accepted
      ensures Quiet(s) && old(d.pushers) == map[] ==>
        d.pushers - {p} == map[] && (OnePusher.Orderly(old(d.trace)) ==> OnePusher.Orderly(d.trace))
    {
      var rows, alive := Reading(p, limit, s.others(0));
      accepted := 0;
      if alive {
        alive, accepted := PushRows(p, rows, s);
        if alive { alive := Looking(p, s.others(3 * |rows| + 1)); }
      }
    }

    /** Offer chained envelopes to the kernel in order; how many it accepted. A refusal holds its stream for the
        rest of the cycle, a wedged stream is probed with its first row, and an answer that judges nothing ends
        the cycle. Whatever others do meanwhile, the cycle goes on with the run of the machine; while nobody else
        pushes it leaves the store consistent. */
    method PushPending(p: nat, limit: nat, s: Surroundings) returns (accepted: nat)
      requires d.Valid() && Foreigners(s, p) && p !in d.pushers
      modifies d, d.store
      ensures d.Valid() && p !in d.pushers && accepted <= limit
      ensures old(d.trace) <= d.trace && AcceptedBy(d.trace, p) == AcceptedBy(old(d.trace), p) + accepted
      ensures Quiet(s) && old(d.pushers) == map[] && OnePusher.Orderly(old(d.trace)) ==>
        OnePusher.Orderly(d.trace) && Push.Inv(d.store.Tables())
    {
      accepted := Cycle(p, limit, s);
      if OnePusher.Orderly(d.trace) && d.pushers - {p} == map[] { FinishedInOrder(d.trace, p); }
    }
  }

  lemma FinishedInOrder(trace: seq<Step>, p: nat)
    requires OnePusher.Orderly(trace) && Run(trace).pushers - {p} == map[] && p !in Run(trace).pushers
    ensures Push.Inv(Run(trace).db)
  {
    assert Run(trace).pushers - {p} == Run(trace).pushers;
    OnePusher.TurnsKeepInv(trace);
  }
}
