/** Any number of pushers over one database, one transaction at a time.

    A session that opens, the push thread of every process and a process that stops all run push cycles,
    and nothing makes them take turns. A step is one transaction of one pusher, an envelope chained, a
    call served under grace, or the end of a pusher; steps interleave freely. A step that is not enabled
    leaves the world as it is, so a run is any sequence of steps.
 */
module Pushers {
  import opened Prelude
  import opened Store
  import opened Push

  /** Where a pusher stands between two transactions. */
  datatype Spot =
    | Choosing                    // about to look at the next row of its batch
    | Offering(standing: bool)    // the row is with the kernel; whether its stream was wedged when looked up
    | Clearing                    // accepted and marked; about to clear the wedge
    | Wedging(wedge: Wedge)       // refused and marked; about to record the wedge

  /** The rows still to offer, as they were when the batch was read, and the streams held since a refusal. */
  datatype Pusher = Pusher(batch: seq<Row>, held: set<string>, spot: Spot)

  datatype World = World(db: Db, pushers: map<nat, Pusher>)

  const INITIAL: World := World(EMPTY, map[])

  datatype Step =
    | Store(row: Row)
    | Grace(stream: string)
    | Read(pusher: nat, batch: seq<Row>)
    | Look(pusher: nat)
    | Hear(pusher: nat, reply: Reply)
    | Settle(pusher: nat)
    | Crash(pusher: nat)

  function At(w: World, p: nat, pusher: Pusher): World {
    w.(pushers := w.pushers[p := pusher])
  }

  function End(w: World, p: nat): World {
    w.(pushers := w.pushers - {p})
  }

  /** Past the first row. */
  function Onward(pusher: Pusher, held: set<string>): Pusher
    requires pusher.batch != []
  {
    Pusher(pusher.batch[1..], held, Choosing)
  }

  /** Take up the next row: pass over a held stream, or look the wedge up and offer the row. */
  function DoLook(w: World, p: nat): World {
    if p in w.pushers && w.pushers[p].spot.Choosing? then
      var pusher := w.pushers[p];
      if pusher.batch == [] then End(w, p)
      else if pusher.batch[0].record.stream in pusher.held then At(w, p, Onward(pusher, pusher.held))
      else At(w, p, pusher.(spot := Offering(pusher.batch[0].record.stream in w.db.wedges)))
    else w
  }

  /** The kernel's answer, and the transaction that follows it. */
  function DoHear(w: World, p: nat, reply: Reply): World {
    if p in w.pushers && w.pushers[p].spot.Offering? && w.pushers[p].batch != [] then
      var pusher, row := w.pushers[p], w.pushers[p].batch[0];
      match reply.answer
      case Unreachable(detail) => End(w, p).(db := MarkPushError(w.db, row.id, detail))
      case NotJudged(detail) => End(w, p).(db := MarkPushError(w.db, row.id, detail))
      case Accepted => At(w, p, pusher.(spot := Clearing)).(db := MarkPushed(w.db, row.id, reply.at, None))
      case Refused(reason, detail) =>
        if pusher.spot.standing then At(w, p, Onward(pusher, pusher.held + {row.record.stream}))
        else At(w, p, pusher.(spot := Wedging(WedgeFor(row, reason, detail, reply.later)))).(
               db := MarkPushed(w.db, row.id, reply.at, Some(reason + ": " + detail)))
    else w
  }

  /** The second transaction of an acceptance or a refusal. */
  function Settled(db: Db, pusher: Pusher): Db {
    if pusher.batch == [] then db
    else
      match pusher.spot
      case Clearing => ClearWedge(db, pusher.batch[0].record.stream)
      case Wedging(wedge) => RecordWedge(db, pusher.batch[0].record.stream, wedge)
      case _ => db
  }

  function AfterSettling(pusher: Pusher): Pusher {
    if pusher.batch == [] then pusher
    else
      match pusher.spot
      case Clearing => Onward(pusher, pusher.held)
      case Wedging(_) => Onward(pusher, pusher.held + {pusher.batch[0].record.stream})
      case _ => pusher
  }

  function DoSettle(w: World, p: nat): World {
    if p in w.pushers then At(w, p, AfterSettling(w.pushers[p])).(db := Settled(w.db, w.pushers[p])) else w
  }

  function Apply(w: World, t: Step): World {
    match t
    case Store(row) => if Chainable(w.db.envelopes, row) then w.(db := w.db.(envelopes := w.db.envelopes + [row])) else w
    case Grace(stream) => w.(db := NoteGraceUse(w.db, stream))
    case Read(p, batch) => if p !in w.pushers && IsBatch(w.db, batch) then At(w, p, Pusher(batch, {}, Choosing)) else w
    case Look(p) => DoLook(w, p)
    case Hear(p, reply) => DoHear(w, p, reply)
    case Settle(p) => DoSettle(w, p)
    case Crash(p) => End(w, p)
  }

  /** A run from this world on. */
  function RunFrom(w: World, steps: seq<Step>): World {
    if steps == [] then w else Apply(RunFrom(w, steps[..|steps| - 1]), steps[|steps| - 1])
  }

  function Run(steps: seq<Step>): World {
    RunFrom(INITIAL, steps)
  }

  lemma RunExtends(w: World, steps: seq<Step>, t: Step)
    ensures RunFrom(w, steps + [t]) == Apply(RunFrom(w, steps), t)
  {
    assert (steps + [t])[..|steps|] == steps;
  }
}
