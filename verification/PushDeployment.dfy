/** Pushing as an object: the shared database and every pusher at work on it. Each method is one transaction
    of one pusher, performed in place, and is one step of a run. */
module PushDeployment {
  import opened Prelude
  import opened Store
  import opened Database
  import opened Push
  import opened Pushers
  import OnePusher

  /** Steps of others, or the end of this pusher. */
  predicate Foreign(t: Step, p: nat) {
    match t
    case Read(q, _) => q != p
    case Look(q) => q != p
    case Hear(q, _) => q != p
    case Settle(q) => q != p
    case _ => true
  }

  /** Envelopes chained and calls served: what goes on beside a pusher that is alone. */
  predicate Outside(t: Step) {
    t.Store? || t.Grace?
  }

  predicate AllForeign(steps: seq<Step>, p: nat) {
    forall k :: 0 <= k < |steps| ==> Foreign(steps[k], p)
  }

  predicate AllOutside(steps: seq<Step>) {
    forall k :: 0 <= k < |steps| ==> Outside(steps[k])
  }

  function Heard(t: Step, p: nat): nat {
    if t.Hear? && t.pusher == p && t.reply.answer.Accepted? then 1 else 0
  }

  /** How many acceptances one pusher has heard. */
  function AcceptedBy(steps: seq<Step>, p: nat): nat {
    if steps == [] then 0
    else AcceptedBy(steps[..|steps| - 1], p) + Heard(steps[|steps| - 1], p)
  }

  lemma NoteOne(steps: seq<Step>, t: Step, p: nat)
    ensures Run(steps + [t]) == Apply(Run(steps), t)
    ensures AcceptedBy(steps + [t], p) == AcceptedBy(steps, p) + Heard(t, p)
    ensures OnePusher.Orderly(steps) && OnePusher.TakesTurns(Run(steps), t) ==> OnePusher.Orderly(steps + [t])
  {
    var more := steps + [t];
    assert more[..|steps|] == steps;
    RunExtends(INITIAL, steps, t);
    if OnePusher.Orderly(steps) && OnePusher.TakesTurns(Run(steps), t) {
      forall k | 0 <= k < |more| ensures OnePusher.TakesTurns(Run(more[..k]), more[k]) {
        if k < |steps| {
          assert more[..k] == steps[..k] && more[k] == steps[k];
          assert OnePusher.TakesTurns(Run(steps[..k]), steps[k]);
        }
      }
    }
  }

  lemma ForeignStands(w: World, t: Step, p: nat)
    requires Foreign(t, p) && p in Apply(w, t).pushers
    ensures p in w.pushers && Apply(w, t).pushers[p] == w.pushers[p]
  {
  }

  lemma OutsideStands(w: World, t: Step)
    requires Outside(t)
    ensures Apply(w, t).pushers == w.pushers && OnePusher.TakesTurns(w, t)
  {
  }

  class Pushing {
    const store: GatewayStore
    var pushers: map<nat, Pusher>
    ghost var trace: seq<Step>

    ghost function World(): World
      reads this, store
    {
      Pushers.World(store.Tables(), pushers)
    }

    /** The world is what the steps taken so far lead to. */
    ghost predicate Valid()
      reads this, store
    {
      store.Valid() && World() == Run(trace)
    }

    constructor (kit: Kit)
      ensures Valid() && fresh(store) && store.kit == kit && trace == [] && pushers == map[]
    {
      store := new GatewayStore(kit);
      pushers, trace := map[], [];
    }

    ghost method Note(before: World, t: Step)
      requires store.Valid() && before == Run(trace) && World() == Apply(before, t)
      modifies this`trace
      ensures Valid() && trace == old(trace) + [t]
      ensures forall p :: AcceptedBy(trace, p) == AcceptedBy(old(trace), p) + Heard(t, p)
      ensures OnePusher.Orderly(old(trace)) && OnePusher.TakesTurns(before, t) ==> OnePusher.Orderly(trace)
    {
      forall p ensures AcceptedBy(trace + [t], p) == AcceptedBy(trace, p) + Heard(t, p) {
        NoteOne(trace, t, p);
      }
      NoteOne(trace, t, 0);
      trace := trace + [t];
    }

    // ---- one transaction of one pusher ----

    /** Read the first rows not yet consumed. */
    method Read(p: nat, limit: nat) returns (batch: seq<Row>)
      requires store.Valid() && p !in pushers
      modifies this`pushers
      ensures World() == Apply(old(World()), Step.Read(p, batch)) && IsBatch(store.Tables(), batch) && |batch| <= limit
      ensures pushers == old(pushers)[p := Pusher(batch, {}, Choosing)]
    {
      batch := store.Unpushed(limit);
      pushers := pushers[p := Pusher(batch, {}, Choosing)];
    }

    /** Take up the next row; whether its stream is wedged is looked up before it is offered. */
    method Look(p: nat)
      requires p in pushers && pushers[p].spot.Choosing?
      modifies this`pushers
      ensures World() == DoLook(old(World()), p)
    {
      var pusher := pushers[p];
      if pusher.batch == [] {
        pushers := pushers - {p};
      } else if pusher.batch[0].record.stream in pusher.held {
        pushers := pushers[p := Onward(pusher, pusher.held)];
      } else {
        pushers := pushers[p := pusher.(spot := Offering(pusher.batch[0].record.stream in store.wedges))];
      }
    }

    /** Take the kernel's answer, and make the first transaction it calls for. */
    method Hear(p: nat, reply: Reply)
      requires store.Valid() && p in pushers && pushers[p].spot.Offering? && pushers[p].batch != []
      modifies this`pushers, store`envelopes
      ensures store.Valid() && World() == DoHear(old(World()), p, reply)
    {
      var pusher, row := pushers[p], pushers[p].batch[0];
      match reply.answer {
        case Unreachable(detail) =>
          store.MarkPushError(row.id, detail);
          pushers := pushers - {p};
        case NotJudged(detail) =>
          store.MarkPushError(row.id, detail);
          pushers := pushers - {p};
        case Accepted =>
          store.MarkPushed(row.id, reply.at, None);
          pushers := pushers[p := pusher.(spot := Clearing)];
        case Refused(reason, detail) =>
          if pusher.spot.standing {
            pushers := pushers[p := Onward(pusher, pusher.held + {row.record.stream})];
          } else {
            store.MarkPushed(row.id, reply.at, Some(reason + ": " + detail));
            pushers := pushers[p := pusher.(spot := Wedging(WedgeFor(row, reason, detail, reply.later)))];
          }
      }
    }

    /** The second transaction of an acceptance or a refusal. */
    method Settle(p: nat)
      requires p in pushers
      modifies this`pushers, store`wedges
      ensures World() == DoSettle(old(World()), p)
    {
      var pusher := pushers[p];
      if pusher.batch != [] {
        match pusher.spot {
          case Clearing => store.ClearWedge(pusher.batch[0].record.stream);
          case Wedging(wedge) => store.RecordWedge(pusher.batch[0].record.stream, wedge);
          case _ =>
        }
      }
      pushers := pushers[p := AfterSettling(pusher)];
    }

    // ---- any step of anyone ----

    method Perform(t: Step)
      requires store.Valid()
      modifies this`pushers, store
      ensures store.Valid() && World() == Apply(old(World()), t)
    {
      match t {
        case Store(row) =>
          if Chainable(store.envelopes, row) { store.envelopes := store.envelopes + [row]; }
        case Grace(stream) => var _ := store.NoteGraceUse(stream);
        case Read(p, batch) =>
          if p !in pushers && IsBatch(Db(store.envelopes, store.intents, store.parked, store.seen, store.wedges), batch) {
            pushers := pushers[p := Pusher(batch, {}, Choosing)];
          }
        case Look(p) => if p in pushers && pushers[p].spot.Choosing? { Look(p); }
        case Hear(p, reply) => if p in pushers && pushers[p].spot.Offering? && pushers[p].batch != [] { Hear(p, reply); }
        case Settle(p) => if p in pushers { Settle(p); }
        case Crash(p) => pushers := pushers - {p};
      }
    }

    method Take(t: Step)
      requires Valid()
      modifies this, store
      ensures Valid() && trace == old(trace) + [t] && World() == Apply(old(World()), t)
      ensures forall p :: AcceptedBy(trace, p) == AcceptedBy(old(trace), p) + Heard(t, p)
      ensures OnePusher.Orderly(old(trace)) && OnePusher.TakesTurns(old(World()), t) ==> OnePusher.Orderly(trace)
    {
      ghost var before := World();
      Perform(t);
      Note(before, t);
    }
  }
}
