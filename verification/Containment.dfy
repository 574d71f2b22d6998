/** From a committed track projection to an alert: concurrent handlers of track updates over the
    containment table and the alert table, with any repository call allowed to fail. */
module Containment {
  import opened Options
  import opened GeofenceStates

  type AlertId = string
  type Point = (real, real)

  datatype AlertState = Active | Acknowledged | Resolved

  datatype Alert = Alert(on: Pair, state: AlertState)

  datatype Reply = Fine | Refused | Lost

  /** The handler of one TrackUpdated event, up to the alerts its breaches raise. */
  datatype Job =
    | Locating(track: TrackId, at: int, point: Point)
    | Reconciling(track: TrackId, at: int, point: Point, containing: set<GeofenceId>)
    | Publishing(track: TrackId, queue: seq<Transition>)
    | Looking(on: Pair, queue: seq<Transition>)
    | Raising(on: Pair, queue: seq<Transition>)
    | Ended(ok: bool)

  /** History: containment changes as they commit, and what became of every breach. A breach is
      decided when its handler finds or creates the alert, and dropped when a call fails. */
  datatype Kind = Entered | Left | Decided | Raised | Dropped | Cleared

  datatype Fact = Fact(on: Pair, kind: Kind)

  datatype World = World(
    seen: map<TrackId, int>,
    latest: map<TrackId, Option<Point>>,
    states: States,
    alerts: map<AlertId, Alert>,
    jobs: seq<Job>,
    log: seq<Fact>)

  datatype Step =
    | Appear(track: TrackId, at: int)
    | Project(track: TrackId, at: int, point: Option<Point>)
    | Locate(i: nat, containing: set<GeofenceId>, reply: Reply)
    | Reconcile(i: nat, after: States, found: seq<Transition>, reply: Reply)
    | Publish(i: nat)
    | Look(i: nat, reply: Reply)
    | Raise(i: nat, id: AlertId, reply: Reply)
    | Acknowledge(id: AlertId)
    | Resolve(id: AlertId)

  /** The unresolved alerts of a pair. */
  function Standing(alerts: map<AlertId, Alert>, p: Pair): set<AlertId>
  {
    set id | id in alerts && alerts[id].on == p && !alerts[id].state.Resolved?
  }

  predicate Eligible(w: World, track: TrackId, at: int)
  {
    track in w.seen && at >= w.seen[track]
  }

  predicate Works(w: World, i: nat)
  {
    i < |w.jobs|
  }

  ghost predicate Enabled(w: World, scope: TrackId -> string, step: Step)
  {
    match step
    case Appear(track, _) => track !in w.seen
    case Project(track, at, _) => track in w.seen && (at > w.seen[track] || (at == w.seen[track] && track !in w.latest))
    case Locate(i, _, _) => Works(w, i) && w.jobs[i].Locating?
    case Reconcile(i, after, found, _) =>
      && Works(w, i) && w.jobs[i].Reconciling?
      && var job := w.jobs[i];
      && Changes(found, w.states, after, job.track)
      && (Eligible(w, job.track, job.at) ==> Reconciled(w.states, after, job.track, job.containing, scope(job.track)))
      && (!Eligible(w, job.track, job.at) ==> after == w.states)
    case Publish(i) => Works(w, i) && w.jobs[i].Publishing?
    case Look(i, _) => Works(w, i) && w.jobs[i].Looking?
    case Raise(i, id, reply) => Works(w, i) && w.jobs[i].Raising? && (!reply.Refused? ==> id !in w.alerts)
    case Acknowledge(id) => id in w.alerts && w.alerts[id].state.Active?
    case Resolve(id) => id in w.alerts && !w.alerts[id].state.Resolved?
  }

  function FactOf(track: TrackId, x: Transition): Fact
  {
    Fact(Pair(x.geofence, track), if x.inside then Entered else Left)
  }

  function Facts(track: TrackId, found: seq<Transition>): seq<Fact>
  {
    if found == [] then [] else Facts(track, found[..|found| - 1]) + [FactOf(track, found[|found| - 1])]
  }

  /** A reply lost after the commit takes every breach of the batch with it. */
  function DropFacts(track: TrackId, found: seq<Transition>): seq<Fact>
  {
    if found == [] then []
    else
      DropFacts(track, found[..|found| - 1]) +
      (if found[|found| - 1].inside then [Fact(Pair(found[|found| - 1].geofence, track), Dropped)] else [])
  }

  function DoReconcile(w: World, i: nat, after: States, found: seq<Transition>, reply: Reply): World
    requires Works(w, i) && w.jobs[i].Reconciling?
  {
    var track := w.jobs[i].track;
    if reply.Refused? then w.(jobs := w.jobs[i := Ended(false)])
    else if reply.Lost? then
      w.(states := after, jobs := w.jobs[i := Ended(false)],
         log := w.log + Facts(track, found) + DropFacts(track, found))
    else
      w.(states := after, jobs := w.jobs[i := Publishing(track, found)], log := w.log + Facts(track, found))
  }

  /** Exits are only published; a breach is handled before the next transition is published. */
  function DoPublish(w: World, i: nat): World
    requires Works(w, i) && w.jobs[i].Publishing?
  {
    var Publishing(track, queue) := w.jobs[i];
    w.(jobs := w.jobs[i :=
      if queue == [] then Ended(true)
      else if queue[0].inside then Looking(Pair(queue[0].geofence, track), queue[1..])
      else Publishing(track, queue[1..])])
  }

  function DoLook(w: World, i: nat, reply: Reply): World
    requires Works(w, i) && w.jobs[i].Looking?
  {
    var Looking(p, queue) := w.jobs[i];
    if !reply.Fine? then
      w.(jobs := w.jobs[i := Publishing(p.track, queue)], log := w.log + [Fact(p, Dropped)])
    else if Standing(w.alerts, p) != {} then
      w.(jobs := w.jobs[i := Publishing(p.track, queue)], log := w.log + [Fact(p, Decided)])
    else w.(jobs := w.jobs[i := Raising(p, queue)])
  }

  /** The partial unique index refuses a second unresolved alert, which is as good as having found it. */
  function DoRaise(w: World, i: nat, id: AlertId, reply: Reply): World
    requires Works(w, i) && w.jobs[i].Raising?
  {
    var Raising(p, queue) := w.jobs[i];
    var next := w.(jobs := w.jobs[i := Publishing(p.track, queue)]);
    if reply.Refused? then next.(log := w.log + [Fact(p, Dropped)])
    else if Standing(w.alerts, p) != {} then
      next.(log := w.log + [if reply.Fine? then Fact(p, Decided) else Fact(p, Dropped)])
    else next.(alerts := w.alerts[id := Alert(p, Active)], log := w.log + [Fact(p, Decided), Fact(p, Raised)])
  }

  ghost function Next(w: World, scope: TrackId -> string, step: Step): World
    requires Enabled(w, scope, step)
  {
    match step
    case Appear(track, at) => w.(seen := w.seen[track := at])
    case Project(track, at, point) =>
      w.(seen := w.seen[track := at], latest := w.latest[track := point],
         jobs := if point.Some? then w.jobs + [Locating(track, at, point.value)] else w.jobs)
    case Locate(i, containing, reply) =>
      var job := w.jobs[i];
      w.(jobs := w.jobs[i := if !reply.Fine? then Ended(false)
                             else Reconciling(job.track, job.at, job.point, Scoped(containing, scope(job.track)))])
    case Reconcile(i, after, found, reply) => DoReconcile(w, i, after, found, reply)
    case Publish(i) => DoPublish(w, i)
    case Look(i, reply) => DoLook(w, i, reply)
    case Raise(i, id, reply) => DoRaise(w, i, id, reply)
    case Acknowledge(id) => w.(alerts := w.alerts[id := w.alerts[id].(state := Acknowledged)])
    case Resolve(id) =>
      w.(alerts := w.alerts[id := w.alerts[id].(state := Resolved)], log := w.log + [Fact(w.alerts[id].on, Cleared)])
  }

  ghost predicate Run(w: World, scope: TrackId -> string, steps: seq<Step>, end: World)
    decreases |steps|
  {
    if steps == [] then w == end
    else Enabled(w, scope, steps[0]) && Run(Next(w, scope, steps[0]), scope, steps[1..], end)
  }

  const EMPTY: World := World(map[], map[], map[], map[], [], [])
}
