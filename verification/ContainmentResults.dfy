/** What holds of every geofence and track in every reachable world. */
module ContainmentResults {
  import opened GeofenceStates
  import opened Sequences
  import opened Containment

  // ---- reading the history of one pair ----

  /** What the history of a pair amounts to: counts, whether the last containment change was a breach,
      whether a breach was decided since the alert was last resolved, and whether every breach was
      found outside and every exit inside. */
  datatype Tally = Tally(entered: nat, left: nat, decided: nat, raised: nat, dropped: nat,
                         inside: bool, stands: bool, regular: bool)

  const NOTHING: Tally := Tally(0, 0, 0, 0, 0, false, false, true)

  function After(t: Tally, k: Kind): Tally
  {
    match k
    case Entered => t.(entered := t.entered + 1, inside := true, regular := t.regular && !t.inside)
    case Left => t.(left := t.left + 1, inside := false, regular := t.regular && t.inside)
    case Decided => t.(decided := t.decided + 1, stands := true)
    case Raised => t.(raised := t.raised + 1)
    case Dropped => t.(dropped := t.dropped + 1)
    case Cleared => t.(stands := false)
  }

  function Fold(t: Tally, log: seq<Fact>, p: Pair): Tally
  {
    if log == [] then t
    else
      var last := log[|log| - 1];
      var rest := Fold(t, log[..|log| - 1], p);
      if last.on == p then After(rest, last.kind) else rest
  }

  function TallyOf(log: seq<Fact>, p: Pair): Tally
  {
    Fold(NOTHING, log, p)
  }

  lemma {:induction false} FoldConcat(t: Tally, a: seq<Fact>, b: seq<Fact>, p: Pair)
    ensures Fold(t, a + b, p) == Fold(Fold(t, a, p), b, p)
    decreases |b|
  {
    if b == [] {
      assert a + b == a;
    } else {
      FoldConcat(t, a, b[..|b| - 1], p);
      assert (a + b)[..|a + b| - 1] == a + b[..|b| - 1];
    }
  }

  lemma {:induction false} FoldOne(t: Tally, log: seq<Fact>, f: Fact, p: Pair)
    ensures Fold(t, log + [f], p) == if f.on == p then After(Fold(t, log, p), f.kind) else Fold(t, log, p)
  {
    assert (log + [f])[..|log|] == log;
  }

  // ---- an independent reading of the containment events ----

  /** The containment events of a pair in commit order, breaches as true. */
  function Events(log: seq<Fact>, p: Pair): seq<bool>
  {
    if log == [] then []
    else
      var last := log[|log| - 1];
      Events(log[..|log| - 1], p) +
      if last.on == p && (last.kind.Entered? || last.kind.Left?) then [last.kind.Entered?] else []
  }

  lemma {:induction false} RegularMeansAlternating(log: seq<Fact>, p: Pair)
    requires TallyOf(log, p).regular
    ensures forall i | 0 <= i < |Events(log, p)| :: Events(log, p)[i] == (i % 2 == 0)
    ensures TallyOf(log, p).inside <==> |Events(log, p)| % 2 == 1
    ensures |Events(log, p)| == TallyOf(log, p).entered + TallyOf(log, p).left
    ensures TallyOf(log, p).entered == TallyOf(log, p).left + if TallyOf(log, p).inside then 1 else 0
  {
    if log != [] {
      RegularMeansAlternating(log[..|log| - 1], p);
    }
  }

  // ---- what a reconcile writes about one pair ----

  predicate Breached(found: seq<Transition>, track: TrackId, p: Pair)
  {
    p.track == track && Transition(p.geofence, true) in found
  }

  predicate Exited(found: seq<Transition>, track: TrackId, p: Pair)
  {
    p.track == track && Transition(p.geofence, false) in found
  }

  ghost predicate Distinct(found: seq<Transition>)
  {
    forall i, j | 0 <= i < j < |found| :: found[i].geofence != found[j].geofence
  }

  function Queued(track: TrackId, queue: seq<Transition>, p: Pair): nat
  {
    if queue == [] then 0
    else
      var last := queue[|queue| - 1];
      Queued(track, queue[..|queue| - 1], p) + if last.inside && Pair(last.geofence, track) == p then 1 else 0
  }

  lemma FactsLast(t: Tally, track: TrackId, found: seq<Transition>, p: Pair)
    requires found != []
    ensures var rest, last := found[..|found| - 1], found[|found| - 1];
      var here := Pair(last.geofence, track) == p;
      && Fold(t, Facts(track, found), p) ==
           (if here then After(Fold(t, Facts(track, rest), p), if last.inside then Entered else Left)
            else Fold(t, Facts(track, rest), p))
      && Fold(t, DropFacts(track, found), p) ==
           (if here && last.inside then After(Fold(t, DropFacts(track, rest), p), Dropped)
            else Fold(t, DropFacts(track, rest), p))
  {
    var rest, last := found[..|found| - 1], found[|found| - 1];
    FoldOne(t, Facts(track, rest), FactOf(track, last), p);
    if last.inside {
      FoldOne(t, DropFacts(track, rest), Fact(Pair(last.geofence, track), Dropped), p);
    } else {
      assert DropFacts(track, rest) + [] == DropFacts(track, rest);
    }
  }

  lemma {:induction false} NoFacts(t: Tally, track: TrackId, found: seq<Transition>, p: Pair)
    requires p.track != track || forall x | x in found :: x.geofence != p.geofence
    ensures Fold(t, Facts(track, found), p) == t && Fold(t, DropFacts(track, found), p) == t
    ensures Queued(track, found, p) == 0
  {
    if found != [] {
      NoFacts(t, track, found[..|found| - 1], p);
      FactsLast(t, track, found, p);
    }
  }

  lemma {:induction false} FactsOfPair(t: Tally, track: TrackId, found: seq<Transition>, p: Pair)
    requires Distinct(found)
    ensures Fold(t, Facts(track, found), p) ==
      if Breached(found, track, p) then After(t, Entered) else if Exited(found, track, p) then After(t, Left) else t
    ensures Fold(t, DropFacts(track, found), p) == if Breached(found, track, p) then After(t, Dropped) else t
    ensures Queued(track, found, p) == if Breached(found, track, p) then 1 else 0
  {
    if found != [] {
      var rest, last := found[..|found| - 1], found[|found| - 1];
      assert forall x :: x in found <==> x in rest || x == last;
      FactsLast(t, track, found, p);
      if Pair(last.geofence, track) == p {
        NoFacts(t, track, rest, p);
      } else {
        FactsOfPair(t, track, rest, p);
      }
    }
  }

  // ---- breaches on their way ----

  /** How many breaches of the pair a job still has to hand on. */
  function Held(job: Job, p: Pair): nat
  {
    match job
    case Publishing(track, queue) => Queued(track, queue, p)
    case Looking(on, queue) => Queued(on.track, queue, p) + if on == p then 1 else 0
    case Raising(on, queue) => Queued(on.track, queue, p) + if on == p then 1 else 0
    case _ => 0
  }

  lemma {:induction false} QueuedHead(track: TrackId, queue: seq<Transition>, p: Pair)
    requires queue != []
    ensures Queued(track, queue, p) == Queued(track, queue[1..], p)
      + if queue[0].inside && Pair(queue[0].geofence, track) == p then 1 else 0
  {
    if |queue| > 1 {
      var rest := queue[..|queue| - 1];
      QueuedHead(track, rest, p);
      assert queue[1..][..|queue| - 2] == rest[1..];
    }
  }

  function OnItsWay(jobs: seq<Job>, p: Pair): nat
  {
    Sum(jobs, job => Held(job, p))
  }

  lemma JobChanges(jobs: seq<Job>, i: nat, job: Job, p: Pair)
    requires i < |jobs|
    ensures OnItsWay(jobs[i := job], p) + Held(jobs[i], p) == OnItsWay(jobs, p) + Held(job, p)
  {
    SumUpdate(jobs, i, job, (j: Job) => Held(j, p));
  }

  // ---- the invariant, pair by pair ----

  function AlertsOn(alerts: map<AlertId, Alert>, p: Pair): set<AlertId>
  {
    set id | id in alerts && alerts[id].on == p
  }

  predicate Agrees(states: States, alerts: map<AlertId, Alert>, t: Tally, waiting: nat, p: Pair)
  {
    && t.regular && (t.inside <==> IsInside(states, p))
    && |Standing(alerts, p)| == (if t.stands then 1 else 0)
    && |AlertsOn(alerts, p)| == t.raised <= t.decided
    && t.entered == t.decided + t.dropped + waiting
  }

  predicate PairOk(w: World, p: Pair)
  {
    Agrees(w.states, w.alerts, TallyOf(w.log, p), OnItsWay(w.jobs, p), p)
  }

  lemma {:induction false} ReconcileTally(log: seq<Fact>, track: TrackId, found: seq<Transition>, p: Pair)
    requires Distinct(found)
    ensures var t, entered := TallyOf(log, p), TallyOf(log + Facts(track, found), p);
      && entered == (if Breached(found, track, p) then After(t, Entered)
                     else if Exited(found, track, p) then After(t, Left) else t)
      && TallyOf(log + Facts(track, found) + DropFacts(track, found), p)
           == (if Breached(found, track, p) then After(entered, Dropped) else entered)
  {
    FactsOfPair(TallyOf(log, p), track, found, p);
    FoldConcat(NOTHING, log, Facts(track, found), p);
    FoldConcat(NOTHING, log + Facts(track, found), DropFacts(track, found), p);
    FactsOfPair(TallyOf(log + Facts(track, found), p), track, found, p);
  }

  lemma ChangesOfPair(found: seq<Transition>, before: States, after: States, track: TrackId, p: Pair)
    requires Changes(found, before, after, track)
    ensures Distinct(found)
    ensures Breached(found, track, p) <==> !IsInside(before, p) && IsInside(after, p)
    ensures Exited(found, track, p) <==> IsInside(before, p) && !IsInside(after, p)
  {
    assert IsInside(before, p) != IsInside(after, p) ==> Transition(p.geofence, IsInside(after, p)) in found;
  }

  /** A committed reconcile, seen from one pair: its tally, the table and what is on its way move together. */
  lemma ReconciledAgrees(before: States, after: States, alerts: map<AlertId, Alert>, t: Tally, waiting: nat,
                         track: TrackId,
                         found: seq<Transition>, lost: bool, p: Pair)
    requires Agrees(before, alerts, t, waiting, p) && Changes(found, before, after, track)
    ensures var entered := if Breached(found, track, p) then After(t, Entered)
                           else if Exited(found, track, p) then After(t, Left) else t;
      if lost
      then Agrees(after, alerts, if Breached(found, track, p) then After(entered, Dropped) else entered, waiting, p)
      else Agrees(after, alerts, entered, if Breached(found, track, p) then waiting + 1 else waiting, p)
  {
    ChangesOfPair(found, before, after, track, p);
  }

  lemma ReconcileKeepsPair(w: World, i: nat, after: States, found: seq<Transition>, reply: Reply, p: Pair)
    requires PairOk(w, p) && Works(w, i) && w.jobs[i].Reconciling? && Changes(found, w.states, after, w.jobs[i].track)
    ensures PairOk(DoReconcile(w, i, after, found, reply), p)
  {
    var track := w.jobs[i].track;
    ReconcileQueues(w, i, after, found, reply, p);
    if !reply.Refused? {
      assert Distinct(found);
      ReconcileTally(w.log, track, found, p);
      ReconciledAgrees(w.states, after, w.alerts, TallyOf(w.log, p), OnItsWay(w.jobs, p), track, found, reply.Lost?, p);
    }
  }

  /** A breach found is on its way when the reply arrives. */
  lemma ReconcileQueues(w: World, i: nat, after: States, found: seq<Transition>, reply: Reply, p: Pair)
    requires Works(w, i) && w.jobs[i].Reconciling? && Changes(found, w.states, after, w.jobs[i].track)
    ensures OnItsWay(DoReconcile(w, i, after, found, reply).jobs, p)
      == OnItsWay(w.jobs, p) + if reply.Fine? && Breached(found, w.jobs[i].track, p) then 1 else 0
  {
    var track := w.jobs[i].track;
    assert Distinct(found);
    FactsOfPair(NOTHING, track, found, p);
    JobChanges(w.jobs, i, if reply.Fine? then Publishing(track, found) else Ended(false), p);
  }

  lemma PublishKeepsPair(w: World, i: nat, p: Pair)
    requires PairOk(w, p) && Works(w, i) && w.jobs[i].Publishing?
    ensures PairOk(DoPublish(w, i), p)
  {
    JobChanges(w.jobs, i, DoPublish(w, i).jobs[i], p);
    if w.jobs[i].queue != [] {
      QueuedHead(w.jobs[i].track, w.jobs[i].queue, p);
    }
  }

  lemma LookTally(log: seq<Fact>, on: Pair, p: Pair)
    ensures TallyOf(log + [Fact(on, Dropped)], p)
      == if on == p then After(TallyOf(log, p), Dropped) else TallyOf(log, p)
    ensures TallyOf(log + [Fact(on, Decided)], p)
      == if on == p then After(TallyOf(log, p), Decided) else TallyOf(log, p)
  {
    FoldOne(NOTHING, log, Fact(on, Dropped), p);
    FoldOne(NOTHING, log, Fact(on, Decided), p);
  }

  lemma LookKeepsPair(w: World, i: nat, reply: Reply, p: Pair)
    requires PairOk(w, p) && Works(w, i) && w.jobs[i].Looking?
    ensures PairOk(DoLook(w, i, reply), p)
  {
    var n, on := DoLook(w, i, reply), w.jobs[i].on;
    LookQueues(w, i, reply, p);
    LookTally(w.log, on, p);
    if !n.jobs[i].Raising? {
      HandedOnAgrees(w.states, w.alerts, TallyOf(w.log, p), OnItsWay(w.jobs, p), on, reply.Fine?, p);
    }
  }

  /** The breach in hand is no longer on its way once the lookup has decided about it. */
  lemma LookQueues(w: World, i: nat, reply: Reply, p: Pair)
    requires Works(w, i) && w.jobs[i].Looking?
    ensures var n, on := DoLook(w, i, reply), w.jobs[i].on;
      && OnItsWay(n.jobs, p) + (if on == p && !n.jobs[i].Raising? then 1 else 0) == OnItsWay(w.jobs, p)
      && (on == p ==> OnItsWay(w.jobs, p) > 0)
  {
    JobChanges(w.jobs, i, DoLook(w, i, reply).jobs[i], p);
    JobChanges(w.jobs, i, Ended(true), p);
  }

  lemma RaiseQueues(w: World, i: nat, id: AlertId, reply: Reply, p: Pair)
    requires Works(w, i) && w.jobs[i].Raising?
    ensures var n, on := DoRaise(w, i, id, reply), w.jobs[i].on;
      OnItsWay(n.jobs, p) + (if on == p then 1 else 0) == OnItsWay(w.jobs, p)
  {
    JobChanges(w.jobs, i, Publishing(w.jobs[i].on.track, w.jobs[i].queue), p);
  }

  /** A breach leaves the batch without an alert being raised: one stands already, or a call failed. */
  lemma HandedOnAgrees(states: States, alerts: map<AlertId, Alert>, t: Tally, waiting: nat, on: Pair, decided: bool,
                       p: Pair)
    requires Agrees(states, alerts, t, waiting, p) && (on == p ==> waiting > 0)
    requires decided ==> Standing(alerts, on) != {}
    ensures Agrees(states, alerts, if on == p then After(t, if decided then Decided else Dropped) else t,
                   if on == p then waiting - 1 else waiting, p)
  {
  }

  lemma InsertedAlert(alerts: map<AlertId, Alert>, id: AlertId, on: Pair, p: Pair)
    requires id !in alerts
    ensures var n := alerts[id := Alert(on, Active)];
      && Standing(n, p) == Standing(alerts, p) + (if on == p then {id} else {})
      && AlertsOn(n, p) == AlertsOn(alerts, p) + (if on == p then {id} else {})
      && id !in Standing(alerts, p) && id !in AlertsOn(alerts, p)
  {
  }

  lemma RaiseTally(log: seq<Fact>, on: Pair, p: Pair)
    ensures TallyOf(log + [Fact(on, Decided), Fact(on, Raised)], p)
      == if on == p then After(After(TallyOf(log, p), Decided), Raised) else TallyOf(log, p)
  {
    FoldOne(NOTHING, log, Fact(on, Decided), p);
    FoldOne(NOTHING, log + [Fact(on, Decided)], Fact(on, Raised), p);
    assert log + [Fact(on, Decided), Fact(on, Raised)] == log + [Fact(on, Decided)] + [Fact(on, Raised)];
  }

  /** A raised alert, pair by pair: what changes for its own pair, and nothing for any other. */
  lemma RaisedAgrees(states: States, alerts: map<AlertId, Alert>, t: Tally, waiting: nat, id: AlertId, on: Pair,
                     p: Pair)
    requires Agrees(states, alerts, t, waiting, p) && id !in alerts && Standing(alerts, on) == {}
    requires on == p ==> waiting > 0
    ensures Agrees(states, alerts[id := Alert(on, Active)],
                   if on == p then After(After(t, Decided), Raised) else t,
                   if on == p then waiting - 1 else waiting, p)
  {
    InsertedAlert(alerts, id, on, p);
  }

  lemma RaiseKeepsPair(w: World, i: nat, id: AlertId, reply: Reply, p: Pair)
    requires PairOk(w, p) && Works(w, i) && w.jobs[i].Raising? && (!reply.Refused? ==> id !in w.alerts)
    ensures PairOk(DoRaise(w, i, id, reply), p)
  {
    var on := w.jobs[i].on;
    RaiseQueues(w, i, id, reply, p);
    if reply.Refused? || Standing(w.alerts, on) != {} {
      LookTally(w.log, on, p);
      HandedOnAgrees(w.states, w.alerts, TallyOf(w.log, p), OnItsWay(w.jobs, p), on, !reply.Refused? && reply.Fine?, p);
    } else {
      RaiseTally(w.log, on, p);
      RaisedAgrees(w.states, w.alerts, TallyOf(w.log, p), OnItsWay(w.jobs, p), id, on, p);
    }
  }

  /** Acknowledging changes nothing a pair counts; resolving clears the one alert that stood. */
  lemma AcknowledgedAgrees(states: States, alerts: map<AlertId, Alert>, t: Tally, waiting: nat, id: AlertId, p: Pair)
    requires Agrees(states, alerts, t, waiting, p) && id in alerts && alerts[id].state.Active?
    ensures Agrees(states, alerts[id := alerts[id].(state := Acknowledged)], t, waiting, p)
  {
    var after := alerts[id := alerts[id].(state := Acknowledged)];
    assert AlertsOn(after, p) == AlertsOn(alerts, p) && Standing(after, p) == Standing(alerts, p);
  }

  lemma ResolvedAgrees(states: States, alerts: map<AlertId, Alert>, t: Tally, waiting: nat, id: AlertId, p: Pair)
    requires Agrees(states, alerts, t, waiting, p) && id in alerts && !alerts[id].state.Resolved?
    ensures Agrees(states, alerts[id := alerts[id].(state := Resolved)],
                   if alerts[id].on == p then After(t, Cleared) else t, waiting, p)
  {
    var after := alerts[id := alerts[id].(state := Resolved)];
    assert AlertsOn(after, p) == AlertsOn(alerts, p);
    assert Standing(after, p) == Standing(alerts, p) - {id};
    assert alerts[id].on == p <==> id in Standing(alerts, p);
  }

  lemma AlertChangeKeepsPair(w: World, scope: TrackId -> string, step: Step, p: Pair)
    requires PairOk(w, p) && Enabled(w, scope, step) && (step.Acknowledge? || step.Resolve?)
    ensures PairOk(Next(w, scope, step), p)
  {
    var t, waiting := TallyOf(w.log, p), OnItsWay(w.jobs, p);
    if step.Acknowledge? {
      AcknowledgedAgrees(w.states, w.alerts, t, waiting, step.id, p);
    } else {
      ResolvedAgrees(w.states, w.alerts, t, waiting, step.id, p);
      FoldOne(NOTHING, w.log, Fact(w.alerts[step.id].on, Cleared), p);
    }
  }

  lemma StartKeepsPair(w: World, scope: TrackId -> string, step: Step, p: Pair)
    requires PairOk(w, p) && Enabled(w, scope, step) && (step.Appear? || step.Project? || step.Locate?)
    ensures PairOk(Next(w, scope, step), p)
  {
    var n := Next(w, scope, step);
    match step
    case Appear(_, _) =>
    case Project(track, at, point) =>
      if point.Some? {
        SumAppend(w.jobs, Locating(track, at, point.value), (j: Job) => Held(j, p));
      }
    case Locate(i, _, _) => JobChanges(w.jobs, i, n.jobs[i], p);
  }

  lemma StepKeepsPair(w: World, scope: TrackId -> string, step: Step, p: Pair)
    requires PairOk(w, p) && Enabled(w, scope, step)
    ensures PairOk(Next(w, scope, step), p)
  {
    match step
    case Reconcile(i, after, found, reply) => ReconcileKeepsPair(w, i, after, found, reply, p);
    case Publish(i) => PublishKeepsPair(w, i, p);
    case Look(i, reply) => LookKeepsPair(w, i, reply, p);
    case Raise(i, id, reply) => RaiseKeepsPair(w, i, id, reply, p);
    case Acknowledge(_) => AlertChangeKeepsPair(w, scope, step, p);
    case Resolve(_) => AlertChangeKeepsPair(w, scope, step, p);
    case _ => StartKeepsPair(w, scope, step, p);
  }

  lemma {:induction false} RunKeepsPair(w: World, scope: TrackId -> string, steps: seq<Step>, end: World, p: Pair)
    requires PairOk(w, p) && Run(w, scope, steps, end)
    ensures PairOk(end, p)
    decreases |steps|
  {
    if steps != [] {
      StepKeepsPair(w, scope, steps[0], p);
      RunKeepsPair(Next(w, scope, steps[0]), scope, steps[1..], end, p);
    }
  }

  lemma {:induction false} ReachablePair(scope: TrackId -> string, steps: seq<Step>, w: World, p: Pair)
    requires Run(EMPTY, scope, steps, w)
    ensures PairOk(w, p)
  {
    assert AlertsOn(EMPTY.alerts, p) == {} && Standing(EMPTY.alerts, p) == {};
    RunKeepsPair(EMPTY, scope, steps, w, p);
  }

  // ---- results ----

  /** The containment events of a geofence and a track alternate, beginning with a breach, and
      breaches exceed exits by one exactly while the track is inside. */
  lemma {:induction false} BreachesAndExitsAlternate(scope: TrackId -> string, steps: seq<Step>, w: World, p: Pair)
    requires Run(EMPTY, scope, steps, w)
    ensures forall i | 0 <= i < |Events(w.log, p)| :: Events(w.log, p)[i] == (i % 2 == 0)
    ensures |Events(w.log, p)| % 2 == 1 <==> IsInside(w.states, p)
    ensures TallyOf(w.log, p).entered == TallyOf(w.log, p).left + if IsInside(w.states, p) then 1 else 0
  {
    ReachablePair(scope, steps, w, p);
    RegularMeansAlternating(w.log, p);
  }

  /** At most one alert of a pair is unresolved, and one is exactly when a breach was decided since the
      last resolution. No more alerts are raised than tracks went in. */
  lemma {:induction false} OneStandingAlert(scope: TrackId -> string, steps: seq<Step>, w: World, p: Pair)
    requires Run(EMPTY, scope, steps, w)
    ensures |Standing(w.alerts, p)| <= 1
    ensures |Standing(w.alerts, p)| == 1 <==> TallyOf(w.log, p).stands
    ensures |AlertsOn(w.alerts, p)| <= TallyOf(w.log, p).entered
  {
    ReachablePair(scope, steps, w, p);
  }

  /** Every breach is decided, dropped by a failed call, or still on its way. */
  lemma {:induction false} BreachesAreConserved(scope: TrackId -> string, steps: seq<Step>, w: World, p: Pair)
    requires Run(EMPTY, scope, steps, w)
    ensures var t := TallyOf(w.log, p); t.entered == t.decided + t.dropped + OnItsWay(w.jobs, p)
  {
    ReachablePair(scope, steps, w, p);
  }

  // ---- when no call fails ----

  /** The replies of a step, all fine. */
  predicate Succeeds(step: Step)
  {
    match step
    case Locate(_, _, reply) => reply.Fine?
    case Reconcile(_, _, _, reply) => reply.Fine?
    case Look(_, reply) => reply.Fine?
    case Raise(_, _, reply) => reply.Fine?
    case _ => true
  }

  lemma {:induction false} FactsDropNothing(t: Tally, track: TrackId, found: seq<Transition>, p: Pair)
    ensures Fold(t, Facts(track, found), p).dropped == t.dropped
  {
    if found != [] {
      FactsLast(t, track, found, p);
      FactsDropNothing(t, track, found[..|found| - 1], p);
    }
  }

  lemma StepDropsNothing(w: World, scope: TrackId -> string, step: Step, p: Pair)
    requires Enabled(w, scope, step) && Succeeds(step)
    ensures TallyOf(Next(w, scope, step).log, p).dropped == TallyOf(w.log, p).dropped
  {
    match step
    case Reconcile(i, _, found, _) =>
      FoldConcat(NOTHING, w.log, Facts(w.jobs[i].track, found), p);
      FactsDropNothing(TallyOf(w.log, p), w.jobs[i].track, found, p);
    case Look(i, _) => LookTally(w.log, w.jobs[i].on, p);
    case Raise(i, _, _) =>
      LookTally(w.log, w.jobs[i].on, p);
      RaiseTally(w.log, w.jobs[i].on, p);
    case Resolve(id) => FoldOne(NOTHING, w.log, Fact(w.alerts[id].on, Cleared), p);
    case _ =>
  }

  lemma {:induction false} RunDropsNothing(w: World, scope: TrackId -> string, steps: seq<Step>, end: World, p: Pair)
    requires Run(w, scope, steps, end) && forall step | step in steps :: Succeeds(step)
    ensures TallyOf(end.log, p).dropped == TallyOf(w.log, p).dropped
    decreases |steps|
  {
    if steps != [] {
      StepDropsNothing(w, scope, steps[0], p);
      RunDropsNothing(Next(w, scope, steps[0]), scope, steps[1..], end, p);
    }
  }

  lemma NothingOnItsWay(jobs: seq<Job>, p: Pair)
    requires forall job | job in jobs :: job.Ended?
    ensures OnItsWay(jobs, p) == 0
  {
    assert forall i | 0 <= i < |jobs| :: jobs[i] in jobs;
    SumZero(jobs, (job: Job) => Held(job, p));
  }

  /** Without a failing call no breach is lost: each is decided or still on its way, and once every
      handler has ended as many were decided as tracks went in. */
  lemma {:induction false} EveryBreachIsDecided(scope: TrackId -> string, steps: seq<Step>, w: World, p: Pair)
    requires Run(EMPTY, scope, steps, w) && forall step | step in steps :: Succeeds(step)
    ensures var t := TallyOf(w.log, p); t.entered == t.decided + OnItsWay(w.jobs, p)
    ensures (forall job | job in w.jobs :: job.Ended?) ==> TallyOf(w.log, p).entered == TallyOf(w.log, p).decided
  {
    BreachesAreConserved(scope, steps, w, p);
    RunDropsNothing(EMPTY, scope, steps, w, p);
    if forall job | job in w.jobs :: job.Ended? {
      NothingOnItsWay(w.jobs, p);
    }
  }

  // ---- the life of one alert ----

  predicate Advances(before: AlertState, after: AlertState)
  {
    || after == before
    || (before.Active? && after.Acknowledged?)
    || (!before.Resolved? && after.Resolved?)
  }

  /** Alerts begin active and are never removed; each is acknowledged or resolved exactly by the call that says
      so, is never acknowledged once resolved, and stays resolved. */
  lemma AlertsOnlyAdvance(w: World, scope: TrackId -> string, step: Step)
    requires Enabled(w, scope, step)
    ensures var n := Next(w, scope, step);
      && (forall id | id in w.alerts ::
            && id in n.alerts && n.alerts[id].on == w.alerts[id].on
            && Advances(w.alerts[id].state, n.alerts[id].state)
            && (n.alerts[id] != w.alerts[id] ==> step in {Acknowledge(id), Resolve(id)}))
      && (forall id | id in n.alerts && id !in w.alerts :: n.alerts[id].state.Active? && step.Raise? && step.id == id)
      && (step.Acknowledge? ==> n.alerts[step.id].state.Acknowledged?)
      && (step.Resolve? ==> n.alerts[step.id].state.Resolved?)
  {
  }
}
