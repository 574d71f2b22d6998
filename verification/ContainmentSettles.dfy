/** Where the containment table ends up while the geofences stand still. A track is always inside exactly
    the geofences of its scope that contain the position of its last update reconciled in time, that is,
    while it was still the newest. Hence, once every handler has ended without an error, the table shows
    the last known position if and only if that update was not overtaken by a newer one before its
    reconcile ran, or the position shown instead lies in the same geofences. */
module ContainmentSettles {
  import opened Options
  import opened GeofenceStates
  import opened Containment

  type Fences = Point -> set<GeofenceId>

  /** Lookups answer with the geofences that contain the point. */
  predicate Honest(w: World, fences: Fences, step: Step)
  {
    step.Locate? && Works(w, step.i) && w.jobs[step.i].Locating? ==> step.containing == fences(w.jobs[step.i].point)
  }

  ghost predicate HonestRun(w: World, scope: TrackId -> string, fences: Fences, steps: seq<Step>, end: World)
    decreases |steps|
  {
    if steps == [] then w == end
    else
      && Enabled(w, scope, steps[0]) && Honest(w, fences, steps[0])
      && HonestRun(Next(w, scope, steps[0]), scope, fences, steps[1..], end)
  }

  // ---- what a run remembers of its positions ----

  datatype Fix = Fix(at: int, point: Point)

  /** Per track: its newest update with a position, the update of its last eligible reconcile, and
      whether the newest one's reconcile found it overtaken. */
  datatype History = History(newest: map<TrackId, Fix>, timely: map<TrackId, Fix>, overtaken: set<TrackId>)

  const NOTHING: History := History(map[], map[], {})

  /** The reconcile decides: it compares the time of its update with the watermark of the track. */
  function Remember(h: History, w: World, step: Step): History
  {
    match step
    case Project(track, at, Some(point)) =>
      h.(newest := h.newest[track := Fix(at, point)], overtaken := h.overtaken - {track})
    case Reconcile(i, _, _, reply) =>
      if !Works(w, i) || !w.jobs[i].Reconciling? || reply.Refused? then h
      else
        var Reconciling(track, at, point, _) := w.jobs[i];
        if Eligible(w, track, at) then h.(timely := h.timely[track := Fix(at, point)])
        else if track in h.newest && h.newest[track].at == at then h.(overtaken := h.overtaken + {track})
        else h
    case _ => h
  }

  ghost function Recall(h: History, w: World, scope: TrackId -> string, steps: seq<Step>): History
    decreases |steps|
  {
    if steps == [] || !Enabled(w, scope, steps[0]) then h
    else Recall(Remember(h, w, steps[0]), Next(w, scope, steps[0]), scope, steps[1..])
  }

  /** What a whole run leaves in memory. */
  ghost function Memory(scope: TrackId -> string, steps: seq<Step>): History
  {
    Recall(NOTHING, EMPTY, scope, steps)
  }

  /** The geofences of the scope that contain a position; none without one. */
  function Around(fixes: map<TrackId, Fix>, fences: Fences, track: TrackId, prefix: string): set<GeofenceId>
  {
    if track in fixes then Scoped(fences(fixes[track].point), prefix) else {}
  }

  // ---- the invariant ----

  predicate Evaluating(job: Job)
  {
    job.Locating? || job.Reconciling?
  }

  ghost predicate JobFits(h: History, scope: TrackId -> string, fences: Fences, job: Job)
  {
    Evaluating(job) ==>
      && job.track in h.newest && job.at <= h.newest[job.track].at
      && (job.at == h.newest[job.track].at ==> job.point == h.newest[job.track].point)
      && (job.Reconciling? ==> job.containing == Scoped(fences(job.point), scope(job.track)))
  }

  predicate Failed(w: World, i: int)
  {
    0 <= i < |w.jobs| && w.jobs[i].Ended? && !w.jobs[i].ok
  }

  /** A job that will still evaluate the newest position of the track. */
  predicate Current(w: World, h: History, i: int, track: TrackId)
  {
    && 0 <= i < |w.jobs| && Evaluating(w.jobs[i])
    && w.jobs[i].track == track && track in h.newest && w.jobs[i].at == h.newest[track].at
  }

  /** The newest position was reconciled, in time or too late, or it still will be, or a call failed. */
  ghost predicate Settles(w: World, h: History, track: TrackId)
  {
    track in h.newest ==>
      || (track in h.timely && h.timely[track] == h.newest[track])
      || track in h.overtaken
      || (exists i :: Current(w, h, i, track))
      || (exists i :: Failed(w, i))
  }

  ghost predicate TrackFits(w: World, h: History, scope: TrackId -> string, fences: Fences, track: TrackId)
  {
    && InsideOf(w.states, track, scope(track)) == Around(h.timely, fences, track, scope(track))
    && (track in h.newest ==> track in w.latest && track in w.seen && h.newest[track].at <= w.seen[track])
    && (track in h.timely || track in h.overtaken ==> track in h.newest)
    && (track in h.overtaken ==> h.newest[track].at < w.seen[track])
    && (track in w.latest && w.latest[track].Some? ==>
          track in h.newest && h.newest[track] == Fix(w.seen[track], w.latest[track].value))
    && Settles(w, h, track)
  }

  ghost predicate SettlingOk(w: World, h: History, scope: TrackId -> string, fences: Fences)
  {
    && w.latest.Keys <= w.seen.Keys
    && (forall i | 0 <= i < |w.jobs| :: JobFits(h, scope, fences, w.jobs[i]))
    && (forall track {:trigger TrackFits(w, h, scope, fences, track)} :: TrackFits(w, h, scope, fences, track))
  }

  /** Job i is the only one that changes, and stays current or fails if it was evaluating. */
  ghost predicate MovesOn(w: World, n: World, i: nat)
  {
    && i < |w.jobs| == |n.jobs| && (forall j | 0 <= j < |w.jobs| && j != i :: n.jobs[j] == w.jobs[j])
    && !(w.jobs[i].Ended? && !w.jobs[i].ok)
    && (Evaluating(w.jobs[i]) ==>
         || Failed(n, i)
         || (Evaluating(n.jobs[i]) && n.jobs[i].track == w.jobs[i].track && n.jobs[i].at == w.jobs[i].at))
  }

  lemma StillSettles(w: World, n: World, h: History, i: nat, track: TrackId)
    requires Settles(w, h, track) && MovesOn(w, n, i)
    ensures Settles(n, h, track)
  {
    if j :| Failed(w, j) {
      assert Failed(n, j);
    } else if j :| Current(w, h, j, track) {
      assert Current(n, h, j, track) || Failed(n, j);
    }
  }

  /** Steps that leave updates and containment alone and move one job on, past its evaluation or not. */
  lemma JobMoves(w: World, n: World, h: History, scope: TrackId -> string, fences: Fences, i: nat)
    requires SettlingOk(w, h, scope, fences) && MovesOn(w, n, i)
    requires n.seen == w.seen && n.latest == w.latest && n.states == w.states
    requires JobFits(h, scope, fences, n.jobs[i])
    ensures SettlingOk(n, h, scope, fences)
  {
    forall track ensures TrackFits(n, h, scope, fences, track) {
      assert TrackFits(w, h, scope, fences, track);
      StillSettles(w, n, h, i, track);
    }
  }

  lemma OtherTracksStay(before: States, after: States, found: seq<Transition>, track: TrackId, other: TrackId,
                        prefix: string)
    requires Changes(found, before, after, track) && other != track
    ensures InsideOf(after, other, prefix) == InsideOf(before, other, prefix)
  {
    forall g ensures g in InsideOf(after, other, prefix) <==> g in InsideOf(before, other, prefix) {
      var p := Pair(g, other);
      assert IsInside(after, p) && InScope(prefix, g) <==> g in InsideOf(after, other, prefix);
      assert IsInside(before, p) && InScope(prefix, g) <==> g in InsideOf(before, other, prefix);
    }
  }

  /** An eligible reconcile is that of the newest position; it leaves exactly what contains it. */
  lemma EligibleIsNewest(w: World, h: History, scope: TrackId -> string, fences: Fences, step: Step)
    requires SettlingOk(w, h, scope, fences) && Enabled(w, scope, step) && step.Reconcile?
    requires Eligible(w, w.jobs[step.i].track, w.jobs[step.i].at)
    ensures var job := w.jobs[step.i];
      && h.newest[job.track] == Fix(job.at, job.point)
      && InsideOf(step.after, job.track, scope(job.track)) == Scoped(fences(job.point), scope(job.track))
  {
    var job := w.jobs[step.i];
    assert JobFits(h, scope, fences, job) && TrackFits(w, h, scope, fences, job.track);
    TransitionsAreTheDifference(step.found, w.states, step.after, job.track, job.containing, scope(job.track));
  }

  /** The track of a committed reconcile. */
  lemma OwnReconcileFits(w: World, h: History, scope: TrackId -> string, fences: Fences, step: Step)
    requires SettlingOk(w, h, scope, fences) && Enabled(w, scope, step) && step.Reconcile? && !step.reply.Refused?
    ensures TrackFits(Next(w, scope, step), Remember(h, w, step), scope, fences, w.jobs[step.i].track)
  {
    var n, k, i, job := Next(w, scope, step), Remember(h, w, step), step.i, w.jobs[step.i];
    var track := job.track;
    assert JobFits(h, scope, fences, job) && TrackFits(w, h, scope, fences, track);
    if Eligible(w, track, job.at) {
      EligibleIsNewest(w, h, scope, fences, step);
    } else if h.newest[track].at != job.at {
      if j :| Failed(w, j) {
        assert Failed(n, j);
      } else if j :| Current(w, h, j, track) {
        assert Current(n, k, j, track);
      }
    }
  }

  lemma OtherReconcileFits(w: World, h: History, scope: TrackId -> string, fences: Fences, step: Step, track: TrackId)
    requires SettlingOk(w, h, scope, fences) && Enabled(w, scope, step) && step.Reconcile? && !step.reply.Refused?
    requires track != w.jobs[step.i].track
    ensures TrackFits(Next(w, scope, step), Remember(h, w, step), scope, fences, track)
  {
    var n, k := Next(w, scope, step), Remember(h, w, step);
    assert TrackFits(w, h, scope, fences, track);
    OtherTracksStay(w.states, step.after, step.found, w.jobs[step.i].track, track, scope(track));
    if j :| Failed(w, j) {
      assert Failed(n, j);
    } else if j :| Current(w, h, j, track) {
      assert Current(n, k, j, track);
    }
  }

  lemma ReconcileKeepsSettling(w: World, h: History, scope: TrackId -> string, fences: Fences, step: Step)
    requires SettlingOk(w, h, scope, fences) && Enabled(w, scope, step) && step.Reconcile?
    ensures SettlingOk(Next(w, scope, step), Remember(h, w, step), scope, fences)
  {
    var n, k := Next(w, scope, step), Remember(h, w, step);
    if step.reply.Refused? {
      assert Failed(n, step.i);
      JobMoves(w, n, h, scope, fences, step.i);
    } else {
      ReconcileKeepsJobs(w, h, scope, fences, step);
      forall track ensures TrackFits(n, k, scope, fences, track) {
        if track == w.jobs[step.i].track {
          OwnReconcileFits(w, h, scope, fences, step);
        } else {
          OtherReconcileFits(w, h, scope, fences, step, track);
        }
      }
    }
  }

  lemma ReconcileKeepsJobs(w: World, h: History, scope: TrackId -> string, fences: Fences, step: Step)
    requires SettlingOk(w, h, scope, fences) && Enabled(w, scope, step) && step.Reconcile? && !step.reply.Refused?
    ensures var n := Next(w, scope, step);
      && n.latest == w.latest && n.seen == w.seen
      && forall j | 0 <= j < |n.jobs| :: JobFits(Remember(h, w, step), scope, fences, n.jobs[j])
  {
    var n := Next(w, scope, step);
    forall j | 0 <= j < |n.jobs| ensures JobFits(Remember(h, w, step), scope, fences, n.jobs[j]) {
      assert JobFits(h, scope, fences, w.jobs[j]);
    }
  }

  lemma ProjectFits(w: World, h: History, scope: TrackId -> string, fences: Fences, step: Step, track: TrackId)
    requires SettlingOk(w, h, scope, fences) && Enabled(w, scope, step) && (step.Appear? || step.Project?)
    ensures TrackFits(Next(w, scope, step), Remember(h, w, step), scope, fences, track)
  {
    var n, k := Next(w, scope, step), Remember(h, w, step);
    assert TrackFits(w, h, scope, fences, track);
    if step.Project? && step.point.Some? && step.track == track {
      assert Current(n, k, |w.jobs|, track);
    } else if j :| Failed(w, j) {
      assert Failed(n, j);
    } else if j :| Current(w, h, j, track) {
      assert Current(n, k, j, track);
    }
  }

  lemma ProjectKeepsSettling(w: World, h: History, scope: TrackId -> string, fences: Fences, step: Step)
    requires SettlingOk(w, h, scope, fences) && Enabled(w, scope, step) && (step.Appear? || step.Project?)
    ensures SettlingOk(Next(w, scope, step), Remember(h, w, step), scope, fences)
  {
    var n, k := Next(w, scope, step), Remember(h, w, step);
    forall j | 0 <= j < |n.jobs| ensures JobFits(k, scope, fences, n.jobs[j]) {
      if j < |w.jobs| {
        assert JobFits(h, scope, fences, w.jobs[j]);
        assert Evaluating(w.jobs[j]) ==> TrackFits(w, h, scope, fences, w.jobs[j].track);
      }
    }
    forall track ensures TrackFits(n, k, scope, fences, track) {
      ProjectFits(w, h, scope, fences, step, track);
    }
  }

  lemma StepKeepsSettling(w: World, h: History, scope: TrackId -> string, fences: Fences, step: Step)
    requires SettlingOk(w, h, scope, fences) && Enabled(w, scope, step) && Honest(w, fences, step)
    ensures SettlingOk(Next(w, scope, step), Remember(h, w, step), scope, fences)
  {
    match step
    case Appear(_, _) => ProjectKeepsSettling(w, h, scope, fences, step);
    case Project(_, _, _) => ProjectKeepsSettling(w, h, scope, fences, step);
    case Reconcile(_, _, _, _) => ReconcileKeepsSettling(w, h, scope, fences, step);
    case Locate(_, _, _) => LocateKeepsSettling(w, h, scope, fences, step);
    case Publish(i) => PublishKeepsSettling(w, h, scope, fences, i);
    case Look(i, reply) => LookKeepsSettling(w, h, scope, fences, i, reply);
    case Raise(i, id, reply) => RaiseKeepsSettling(w, h, scope, fences, i, id, reply);
    case _ => AlertsOnly(w, Next(w, scope, step), h, scope, fences);
  }

  lemma PublishKeepsSettling(w: World, h: History, scope: TrackId -> string, fences: Fences, i: nat)
    requires SettlingOk(w, h, scope, fences) && Works(w, i) && w.jobs[i].Publishing?
    ensures SettlingOk(DoPublish(w, i), h, scope, fences)
  {
    JobMoves(w, DoPublish(w, i), h, scope, fences, i);
  }

  lemma LookKeepsSettling(w: World, h: History, scope: TrackId -> string, fences: Fences, i: nat, reply: Reply)
    requires SettlingOk(w, h, scope, fences) && Works(w, i) && w.jobs[i].Looking?
    ensures SettlingOk(DoLook(w, i, reply), h, scope, fences)
  {
    JobMoves(w, DoLook(w, i, reply), h, scope, fences, i);
  }

  lemma RaiseKeepsSettling(w: World, h: History, scope: TrackId -> string, fences: Fences, i: nat, id: AlertId,
                           reply: Reply)
    requires SettlingOk(w, h, scope, fences) && Works(w, i) && w.jobs[i].Raising?
    ensures SettlingOk(DoRaise(w, i, id, reply), h, scope, fences)
  {
    JobMoves(w, DoRaise(w, i, id, reply), h, scope, fences, i);
  }

  lemma LocateKeepsSettling(w: World, h: History, scope: TrackId -> string, fences: Fences, step: Step)
    requires SettlingOk(w, h, scope, fences) && Enabled(w, scope, step) && Honest(w, fences, step) && step.Locate?
    ensures SettlingOk(Next(w, scope, step), h, scope, fences)
  {
    assert JobFits(h, scope, fences, w.jobs[step.i]);
    JobMoves(w, Next(w, scope, step), h, scope, fences, step.i);
  }

  lemma AlertsOnly(w: World, n: World, h: History, scope: TrackId -> string, fences: Fences)
    requires SettlingOk(w, h, scope, fences)
    requires n.seen == w.seen && n.latest == w.latest && n.states == w.states && n.jobs == w.jobs
    ensures SettlingOk(n, h, scope, fences)
  {
    forall track ensures TrackFits(n, h, scope, fences, track) {
      assert TrackFits(w, h, scope, fences, track);
      if j :| Failed(w, j) {
        assert Failed(n, j);
      } else if j :| Current(w, h, j, track) {
        assert Current(n, h, j, track);
      }
    }
  }

  lemma {:induction false} HonestRunKeepsSettling(w: World, h: History, scope: TrackId -> string, fences: Fences,
                                                  steps: seq<Step>, end: World)
    requires SettlingOk(w, h, scope, fences) && HonestRun(w, scope, fences, steps, end)
    ensures SettlingOk(end, Recall(h, w, scope, steps), scope, fences)
    decreases |steps|
  {
    if steps != [] {
      StepKeepsSettling(w, h, scope, fences, steps[0]);
      HonestRunKeepsSettling(Next(w, scope, steps[0]), Remember(h, w, steps[0]), scope, fences, steps[1..], end);
    }
  }

  lemma {:induction false} ReachableFits(scope: TrackId -> string, fences: Fences, steps: seq<Step>, w: World,
                                         track: TrackId)
    requires HonestRun(EMPTY, scope, fences, steps, w)
    ensures TrackFits(w, Memory(scope, steps), scope, fences, track)
  {
    HonestRunKeepsSettling(EMPTY, NOTHING, scope, fences, steps, w);
    assert SettlingOk(w, Memory(scope, steps), scope, fences);
  }

  // ---- the results ----

  /** At every moment, whatever fails, a track is inside exactly what contains the position of its last
      update reconciled in time. */
  lemma {:induction false} InsideOfTheLastTimely(scope: TrackId -> string, fences: Fences, steps: seq<Step>, w: World,
                                                 track: TrackId)
    requires HonestRun(EMPTY, scope, fences, steps, w)
    ensures InsideOf(w.states, track, scope(track))
      == Around(Memory(scope, steps).timely, fences, track, scope(track))
  {
    ReachableFits(scope, fences, steps, w, track);
  }

  /** Two positions of a track lie in the same geofences of its scope; without one, in none. */
  ghost predicate Alike(a: map<TrackId, Fix>, b: map<TrackId, Fix>, fences: Fences, track: TrackId, prefix: string)
  {
    forall g | InScope(prefix, g) ::
      (track in a && g in fences(a[track].point)) <==> (track in b && g in fences(b[track].point))
  }

  predicate Quiet(w: World)
  {
    forall i | 0 <= i < |w.jobs| :: w.jobs[i] == Ended(true)
  }

  /** Once all is quiet, containment shows the last known position if and only if its update was not
      overtaken, or the last position reconciled in time lies in the same geofences. */
  lemma {:induction false} CaughtUpExactlyWhen(scope: TrackId -> string, fences: Fences, steps: seq<Step>, w: World,
                                               track: TrackId)
    requires HonestRun(EMPTY, scope, fences, steps, w) && Quiet(w)
    ensures var h, prefix := Memory(scope, steps), scope(track);
      InsideOf(w.states, track, prefix) == Around(h.newest, fences, track, prefix) <==>
      track !in h.overtaken || Alike(h.timely, h.newest, fences, track, prefix)
  {
    ReachableFits(scope, fences, steps, w, track);
    var h := Memory(scope, steps);
    assert forall i :: !Failed(w, i) && !Current(w, h, i, track);
    assert Settles(w, h, track);
    AlikeAround(h.timely, h.newest, fences, track, scope(track));
  }

  lemma AlikeAround(a: map<TrackId, Fix>, b: map<TrackId, Fix>, fences: Fences, track: TrackId, prefix: string)
    ensures Alike(a, b, fences, track, prefix) <==> Around(a, fences, track, prefix) == Around(b, fences, track, prefix)
  {
    forall g | InScope(prefix, g)
      ensures g in Around(a, fences, track, prefix) <==> track in a && g in fences(a[track].point)
      ensures g in Around(b, fences, track, prefix) <==> track in b && g in fences(b[track].point)
    {
    }
  }

  /** The update that overtakes carries no position: one that does is never overtaken in the end. */
  lemma {:induction false} ContainmentCatchesUp(scope: TrackId -> string, fences: Fences, steps: seq<Step>, w: World,
                                                track: TrackId)
    requires HonestRun(EMPTY, scope, fences, steps, w) && Quiet(w)
    requires track in w.latest && w.latest[track].Some?
    ensures InsideOf(w.states, track, scope(track)) == Scoped(fences(w.latest[track].value), scope(track))
  {
    ReachableFits(scope, fences, steps, w, track);
    CaughtUpExactlyWhen(scope, fences, steps, w, track);
  }

  // ---- the update that leaves containment behind ----

  const HERE: Point := (1.0, 1.0)

  function OneFence(p: Point): set<GeofenceId>
  {
    if p == HERE then {"zone"} else {}
  }

  /** A track reports a position inside a geofence and then an update without one. If the second is
      projected before the first is reconciled, the reconcile is no longer eligible: no call fails,
      every handler ends, and the track's last known position is in a geofence it is not inside of. */
  lemma EntryCanBeMissed() returns (steps: seq<Step>, w: World)
    ensures HonestRun(EMPTY, _ => "", OneFence, steps, w) && Quiet(w)
    ensures [Appear("t", 0), Project("t", 1, Some(HERE)), Project("t", 2, None)] <= steps
    ensures InsideOf(w.states, "t", "") == {} && OneFence(HERE) == {"zone"}
    ensures w.log == []
  {
    var scope := (_: TrackId) => "";
    var w1 := EMPTY.(seen := map["t" := 0]);
    var w2 := World(map["t" := 1], map["t" := Some(HERE)], map[], map[], [Locating("t", 1, HERE)], []);
    var w3 := w2.(seen := map["t" := 2], latest := map["t" := None]);
    var w4 := w3.(jobs := [Reconciling("t", 1, HERE, Scoped({"zone"}, ""))]);
    var w5 := w3.(jobs := [Publishing("t", [])]);
    w := w3.(jobs := [Ended(true)]);
    assert Next(EMPTY, scope, Appear("t", 0)) == w1;
    assert Next(w1, scope, Project("t", 1, Some(HERE))) == w2;
    assert Next(w2, scope, Project("t", 2, None)) == w3;
    assert Next(w3, scope, Locate(0, {"zone"}, Fine)) == w4;
    assert Next(w4, scope, Reconcile(0, map[], [], Fine)) == w5;
    assert Next(w5, scope, Publish(0)) == w;
    var s5: seq<Step> := [Publish(0)];
    var s4 := [Reconcile(0, map[], [], Fine)] + s5;
    var s3 := [Locate(0, {"zone"}, Fine)] + s4;
    var s2 := [Project("t", 2, None)] + s3;
    var s1 := [Project("t", 1, Some(HERE))] + s2;
    steps := [Appear("t", 0)] + s1;
    assert HonestRun(w5, scope, OneFence, s5, w);
    assert HonestRun(w4, scope, OneFence, s4, w);
    assert HonestRun(w3, scope, OneFence, s3, w);
    assert HonestRun(w2, scope, OneFence, s2, w);
    assert HonestRun(w1, scope, OneFence, s1, w);
    assert HonestRun(EMPTY, scope, OneFence, steps, w);
  }
}
