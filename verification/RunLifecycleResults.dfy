/** What the run lifecycle promises over every interleaving of operator calls and runners. */
module RunLifecycleResults {
  import opened Options
  import opened RunLifecycle

  // ---- the invariant ----

  function EndedRuns(log: seq<Event>): set<RunId>
  {
    set e | e in log && e.Ended? :: e.id
  }

  /** Nothing is published about a run after its end. */
  ghost predicate LogOk(log: seq<Event>)
  {
    forall i, j | 0 <= i < j < |log| && log[i].Ended? :: log[j].id != log[i].id
  }

  predicate Alive(w: World, id: RunId)
  {
    id in w.rows && !Terminal(w.rows[id])
  }

  predicate Over(w: World, id: RunId)
  {
    id in w.rows && Terminal(w.rows[id])
  }

  /** What whoever holds the guard knows while finalizing with a status. */
  predicate FinalizingOk(w: World, id: RunId, status: Status, at: Finalizing)
  {
    match at
    case Look => true
    case Repair => Over(w, id)
    case SkipEvents => Alive(w, id)
    case Write => Alive(w, id)
    case Announce => Over(w, id) && w.rows[id] == status && id !in EndedRuns(w.log)
  }

  /** The run has no engine any more, or a stopped one. */
  predicate Quieted(w: World, id: RunId)
  {
    id in w.engines ==> id in w.stopped
  }

  predicate Fresh(w: World, id: RunId)
  {
    id in w.rows && w.rows[id] == Running && id !in w.runners
  }

  /** A run being set up has no runner yet; the run a restart replaces is over. */
  predicate StartOk(w: World, at: StartAt, held: Option<RunId>)
  {
    && (held.Some? ==> Over(w, held.value) && Quieted(w, held.value))
    && match at
       case CheckOpen => true
       case Create => true
       case Publish(id) => Fresh(w, id)
       case SetUp(id) => Fresh(w, id)
       case Register(id) => Fresh(w, id)
       case WaitToAbort(id) => Fresh(w, id)
       case Abort(id, step) => FinalizingOk(w, id, Failed, step) && id in w.rows && id !in w.runners
  }

  predicate CallOk(w: World)
  {
    match w.call
    case Starting(at, held) => StartOk(w, at, held)
    case Controlling(_, id, AwaitGuard) => true
    case Controlling(_, id, Check) => true
    case Controlling(_, id, _) => Alive(w, id)
    case Stopping(id, StopEngine) => Alive(w, id)
    case Stopping(id, Halt) => Alive(w, id)
    case Stopping(id, Finalize(at)) =>
      && FinalizingOk(w, id, Stopped, at) && id in w.rows && id in w.stopped
      && !at.Repair? && (at.Look? ==> Alive(w, id))
    case Restarting(id, RestartHalt) => id in w.rows
    case Restarting(id, RestartFinalize(at)) => FinalizingOk(w, id, Stopped, at) && id in w.rows && Quieted(w, id)
    case _ => true
  }

  predicate RunnerOk(w: World, id: RunId)
    requires id in w.runners
  {
    && id in w.rows
    && match w.runners[id]
       case Queueing(status) => Terminal(status)
       case Closing(status, at) => Terminal(status) && FinalizingOk(w, id, status, at) && id !in HeldByCall(w.call)
       case _ => true
  }

  predicate ClosingOk(w: World)
  {
    && (w.closed ==>
          && !(w.call.Starting? && !w.call.at.CheckOpen?)
          && !(w.call.Restarting? && !w.call.restart.RestartOpen?))
    && (w.call.StoppingEngines? || w.call.AwaitingRunners? ==> w.closed)
    && (w.shut ==> w.closed && AllGone(w))
    && (w.closed ==> w.engines <= w.stopped + if w.call.StoppingEngines? then w.call.left else {})
  }

  /** The end that was published is the status that was stored. */
  ghost predicate EndsTrue(rows: map<RunId, Status>, log: seq<Event>)
  {
    forall e | e in log && e.Ended? :: e.id in rows && rows[e.id] == e.status && Terminal(e.status)
  }

  ghost predicate Inv(w: World)
  {
    && LogOk(w.log)
    && EndsTrue(w.rows, w.log)
    && CallOk(w)
    && (forall id {:trigger RunnerOk(w, id)} | id in w.runners :: RunnerOk(w, id))
    && (forall id | id in w.engines :: id in w.runners && !w.runners[id].Gone?)
    && ClosingOk(w)
  }

  lemma OneMoreEvent(log: seq<Event>, e: Event)
    ensures EndedRuns(log + [e]) == EndedRuns(log) + if e.Ended? then {e.id} else {}
    ensures LogOk(log) && e.id !in EndedRuns(log) ==> LogOk(log + [e])
  {
    var n := log + [e];
    assert forall x :: x in n <==> x in log || x == e;
    assert forall i | 0 <= i < |log| && log[i].Ended? :: log[i] in log && log[i].id in EndedRuns(log);
  }

  // ---- one finalization step, whoever takes it ----

  /** What a finalization step leaves alone, and that it moves a run only from alive to ended. */
  ghost predicate FinalizesOne(w: World, n: World, id: RunId)
  {
    && n.engines == w.engines && n.stopped == w.stopped && n.paused == w.paused && n.runners == w.runners
    && n.closed == w.closed && n.shut == w.shut && n.call == w.call
    && n.rows.Keys == w.rows.Keys && (forall r | r in w.rows && r != id :: n.rows[r] == w.rows[r])
    && (id in w.rows && Terminal(w.rows[id]) ==> n.rows[id] == w.rows[id])
    && EndedRuns(n.log) <= EndedRuns(w.log) + {id} && EndedRuns(w.log) <= EndedRuns(n.log)
  }

  lemma FinalizeStep(w: World, id: RunId, status: Status, at: Finalizing, who: Closer, reply: Reply)
    requires Inv(w) && FinalizingOk(w, id, status, at) && Terminal(status) && id in w.rows
    ensures var (n, progress) := FinalizeNext(w, id, status, at, who, reply);
      && FinalizesOne(w, n, id) && LogOk(n.log) && EndsTrue(n.rows, n.log)
      && (progress.More? ==> FinalizingOk(n, id, status, progress.next))
      && (progress.Finished? && progress.ok ==> Over(n, id))
  {
    if at.Announce? {
      OneMoreEvent(w.log, Ended(id, status));
    }
    assert forall e | e in w.log && e.Ended? :: e.id in EndedRuns(w.log);
  }

  /** Facts about other runs survive a finalization. */
  lemma OthersUntouched(w: World, n: World, id: RunId, other: RunId, status: Status, at: Finalizing)
    requires FinalizesOne(w, n, id) && other != id
    ensures FinalizingOk(w, other, status, at) ==> FinalizingOk(n, other, status, at)
    ensures Alive(w, other) ==> Alive(n, other)
  {
  }

  /** A finalization by the call: the runner of that run cannot be finalizing too. */
  lemma CallFinalizes(w: World, id: RunId, status: Status, at: Finalizing, who: Closer, reply: Reply, c: Call)
    requires Inv(w) && FinalizingOk(w, id, status, at) && Terminal(status) && id in w.rows
    requires id in HeldByCall(w.call) && HeldByCall(c) <= HeldByCall(w.call) && ClosingOk(w.(call := c))
    requires CallOk(FinalizeNext(w, id, status, at, who, reply).0.(call := c))
    ensures Inv(FinalizeNext(w, id, status, at, who, reply).0.(call := c))
  {
    var n := FinalizeNext(w, id, status, at, who, reply).0.(call := c);
    FinalizeStep(w, id, status, at, who, reply);
    forall r | r in n.runners ensures RunnerOk(n, r) {
      assert RunnerOk(w, r);
      if r != id && w.runners[r].Closing? {
        OthersUntouched(w, n.(call := w.call), id, r, w.runners[r].status, w.runners[r].at);
      }
    }
  }

  // ---- every step keeps the invariant ----

  /** Steps of the call that change neither rows, log, engines nor runners. */
  lemma CallMoves(w: World, n: World)
    requires Inv(w) && n.rows == w.rows && n.log == w.log && n.engines == w.engines && n.runners == w.runners
    requires n.shut == w.shut && ClosingOk(n) && CallOk(n)
    requires forall id | id in HeldByCall(n.call) :: id in HeldByCall(w.call) || Free(w, id)
    ensures Inv(n)
  {
    forall id | id in n.runners ensures RunnerOk(n, id) {
      assert RunnerOk(w, id);
    }
  }

  /** The call writes a live run's status, which no runner is finalizing. */
  lemma CallWrites(w: World, n: World, id: RunId, status: Status)
    requires Inv(w) && Alive(w, id) && id in HeldByCall(w.call) && !Terminal(status)
    requires n == w.(rows := w.rows[id := status], call := n.call)
    requires HeldByCall(n.call) <= HeldByCall(w.call) && CallOk(n) && ClosingOk(n)
    ensures Inv(n)
  {
    forall r | r in n.runners ensures RunnerOk(n, r) {
      assert RunnerOk(w, r);
    }
  }

  /** The call publishes an event, which is not an end, about a live run. */
  lemma CallTells(w: World, n: World, e: Event)
    requires Inv(w) && Alive(w, e.id) && !e.Ended?
    requires n == w.(log := w.log + [e], call := n.call)
    requires HeldByCall(n.call) <= HeldByCall(w.call) && ClosingOk(n)
    requires CallOk(w.(call := n.call))
    ensures Inv(n)
  {
    OneMoreEvent(w.log, e);
    assert CallOk(n);
    forall r | r in n.runners ensures RunnerOk(n, r) {
      assert RunnerOk(w, r);
    }
  }

  lemma ControlKeepsInv(w: World, reply: Reply)
    requires Inv(w) && w.call.Controlling? && CallEnabled(w)
    ensures Inv(ControlNext(w, reply))
  {
    var n := ControlNext(w, reply);
    var Controlling(control, id, step) := w.call;
    if step.WriteStatus? && !reply.Refused? && !control.SetSpeed? {
      CallWrites(w, n, id, if control.Pause? then Paused else Running);
    } else if step.Tell? {
      CallTells(w, n, Updated(id, w.rows[id]));
    } else {
      ControlMoves(w, reply);
      ControlHolds(w, reply);
      ControlKnows(w, reply);
      CallMoves(w, n);
    }
  }

  /** The remaining steps of a control only move the call on. */
  lemma ControlMoves(w: World, reply: Reply)
    requires w.call.Controlling? && !w.call.step.Tell?
    requires w.call.step.WriteStatus? ==> reply.Refused? || w.call.control.SetSpeed?
    ensures var n := ControlNext(w, reply);
      && n.rows == w.rows && n.log == w.log && n.engines == w.engines && n.runners == w.runners
      && n.shut == w.shut && n.closed == w.closed
  {
  }

  lemma ControlHolds(w: World, reply: Reply)
    requires w.call.Controlling? && CallEnabled(w)
    ensures var c := ControlNext(w, reply).call;
      && (c.Nothing? || c.Controlling?)
      && forall id | id in HeldByCall(c) :: id in HeldByCall(w.call) || Free(w, id)
  {
    match w.call.step
    case AwaitGuard =>
    case _ => assert HeldByCall(w.call) == {w.call.id};
  }

  /** Past its check, a control knows its run to be alive. */
  lemma ControlKnows(w: World, reply: Reply)
    requires CallOk(w) && w.call.Controlling? && !w.call.step.Tell?
    requires w.call.step.WriteStatus? ==> reply.Refused? || w.call.control.SetSpeed?
    ensures CallOk(ControlNext(w, reply))
  {
  }

  lemma StopKeepsInv(w: World, reply: Reply)
    requires Inv(w) && w.call.Stopping? && CallEnabled(w)
    ensures Inv(StopNext(w, reply))
  {
    var n := StopNext(w, reply);
    var Stopping(id, step) := w.call;
    if step.Finalize? {
      FinalizeStep(w, id, Stopped, step.at, ByCall, reply);
      CallFinalizes(w, id, Stopped, step.at, ByCall, reply, n.call);
    } else {
      CallMoves(w, n);
    }
  }

  lemma RestartKeepsInv(w: World, reply: Reply)
    requires Inv(w) && w.call.Restarting? && CallEnabled(w)
    ensures Inv(RestartNext(w, reply))
  {
    var n := RestartNext(w, reply);
    var Restarting(id, step) := w.call;
    if step.RestartFinalize? {
      FinalizeStep(w, id, Stopped, step.at, ByCall, reply);
      CallFinalizes(w, id, Stopped, step.at, ByCall, reply, n.call);
    } else {
      CallMoves(w, n);
    }
  }

  lemma CreateKeepsInv(w: World, n: World, id: RunId)
    requires Inv(w) && id !in w.rows && n == w.(rows := w.rows[id := Running], call := n.call)
    requires HeldByCall(n.call) <= HeldByCall(w.call) && ClosingOk(n)
    requires w.call.Starting? && (n.call == Nothing || n.call == Starting(Publish(id), w.call.held))
    ensures Inv(n)
  {
    forall r | r in n.runners ensures r in w.rows && RunnerOk(n, r) {
      assert RunnerOk(w, r);
    }
  }

  lemma RegisterKeepsInv(w: World, reply: Reply, unused: RunId)
    requires Inv(w) && w.call.Starting? && w.call.at.Register?
    ensures Inv(StartNext(w, reply, unused))
  {
    var n := StartNext(w, reply, unused);
    forall r | r in n.runners ensures RunnerOk(n, r) {
      if r in w.runners {
        assert RunnerOk(w, r);
      }
    }
  }

  lemma AbortKeepsInv(w: World, reply: Reply, unused: RunId)
    requires Inv(w) && w.call.Starting? && w.call.at.Abort?
    ensures Inv(StartNext(w, reply, unused))
  {
    var n := StartNext(w, reply, unused);
    var Starting(Abort(id, step), held) := w.call;
    FinalizeStep(w, id, Failed, step, ByCall, reply);
    CallFinalizes(w, id, Failed, step, ByCall, reply, n.call);
  }

  lemma StartKeepsInv(w: World, reply: Reply, unused: RunId)
    requires Inv(w) && w.call.Starting? && CallEnabled(w)
    ensures Inv(StartNext(w, reply, unused))
  {
    var n := StartNext(w, reply, unused);
    match w.call.at
    case Create =>
      if reply.Refused? || unused in w.rows {
        CallMoves(w, n);
      } else {
        CreateKeepsInv(w, n, unused);
      }
    case Publish(id) => CallTells(w, n, Started(id));
    case Register(_) => RegisterKeepsInv(w, reply, unused);
    case Abort(_, _) => AbortKeepsInv(w, reply, unused);
    case _ => CallMoves(w, n);
  }

  lemma CloseKeepsInv(w: World, next: RunId)
    requires Inv(w) && Closes(w.call) && CallEnabled(w)
    ensures Inv(CloseNext(w, next))
  {
    var n := CloseNext(w, next);
    forall r | r in n.runners ensures RunnerOk(n, r) {
      assert RunnerOk(w, r);
    }
  }

  /** The finalization of a runner, seen by the call: it can only concern another run. */
  lemma RunnerFinalizes(w: World, id: RunId, reply: Reply, failed: bool)
    requires Inv(w) && id in w.runners && w.runners[id].Closing?
    ensures Inv(RunnerNext(w, id, reply, failed))
  {
    var Closing(status, at) := w.runners[id];
    assert RunnerOk(w, id);
    var (m, progress) := FinalizeNext(w, id, status, at, ByRunner, reply);
    FinalizeStep(w, id, status, at, ByRunner, reply);
    var n := RunnerNext(w, id, reply, failed);
    CallSurvives(w, m, id);
    forall r | r in n.runners ensures RunnerOk(n, r) {
      assert RunnerOk(w, r);
      if r != id && w.runners[r].Closing? {
        OthersUntouched(w, m, id, r, w.runners[r].status, w.runners[r].at);
      }
    }
  }

  lemma CallSurvives(w: World, m: World, id: RunId)
    requires CallOk(w) && FinalizesOne(w, m, id) && id in w.runners && id !in HeldByCall(w.call)
    ensures CallOk(m)
  {
  }

  /** A runner moves on, taking the guard only when it is free, and deregisters as it goes. */
  lemma RunnerMoves(w: World, n: World, id: RunId, r: Runner)
    requires Inv(w) && id in w.runners && !w.runners[id].Gone?
    requires n == w.(runners := w.runners[id := r], engines := if r.Gone? then w.engines - {id} else w.engines,
                     past := n.past)
    requires match r case Queueing(status) => Terminal(status)
                     case Closing(status, at) => Terminal(status) && at.Look? && id !in HeldByCall(w.call)
                     case _ => true
    ensures Inv(n)
  {
    forall o | o in n.runners ensures RunnerOk(n, o) {
      assert RunnerOk(w, o);
    }
  }

  lemma RunnerKeepsInv(w: World, id: RunId, reply: Reply, failed: bool)
    requires Inv(w) && Enabled(w, Runs(id, reply, failed))
    ensures Inv(RunnerNext(w, id, reply, failed))
  {
    if w.runners[id].Closing? {
      RunnerFinalizes(w, id, reply, failed);
    } else {
      var n := RunnerNext(w, id, reply, failed);
      assert RunnerOk(w, id);
      RunnerMoves(w, n, id, n.runners[id]);
    }
  }

  lemma StepKeepsInv(w: World, step: Step)
    requires Inv(w) && Enabled(w, step)
    ensures Inv(Next(w, step))
  {
    match step
    case Enter(call) => CallMoves(w, Next(w, step));
    case GiveUpClosing => CallMoves(w, Next(w, step));
    case Runs(id, reply, failed) => RunnerKeepsInv(w, id, reply, failed);
    case Continue(reply, unused) =>
      match w.call
      case Starting(_, _) => StartKeepsInv(w, reply, unused);
      case Controlling(_, _, _) => ControlKeepsInv(w, reply);
      case Stopping(_, _) => StopKeepsInv(w, reply);
      case Restarting(_, _) => RestartKeepsInv(w, reply);
      case _ => CloseKeepsInv(w, unused);
  }

  lemma {:induction false} RunKeepsInv(w: World, steps: seq<Step>, end: World)
    requires Inv(w) && Run(w, steps, end)
    ensures Inv(end)
    decreases |steps|
  {
    if steps != [] {
      StepKeepsInv(w, steps[0]);
      RunKeepsInv(Next(w, steps[0]), steps[1..], end);
    }
  }

  lemma OpenedOk(rows: map<RunId, Status>)
    ensures Inv(Opened(rows))
  {
  }

  // ---- results ----

  /** What one step does to a run that is over, and to the log. */
  ghost predicate OverStays(w: World, n: World)
  {
    && (forall id | Over(w, id) :: Over(n, id) && n.rows[id] == w.rows[id])
    && w.log <= n.log
  }

  lemma FinalizeKeepsOver(w: World, id: RunId, status: Status, at: Finalizing, who: Closer, reply: Reply)
    requires FinalizingOk(w, id, status, at)
    ensures OverStays(w, FinalizeNext(w, id, status, at, who, reply).0)
  {
  }

  lemma StepKeepsOver(w: World, step: Step)
    requires Inv(w) && Enabled(w, step)
    ensures OverStays(w, Next(w, step))
  {
    if step.Runs? && w.runners[step.id].Closing? {
      assert RunnerOk(w, step.id);
      FinalizeKeepsOver(w, step.id, w.runners[step.id].status, w.runners[step.id].at, ByRunner, step.reply);
    } else if step.Continue? {
      CallKeepsOver(w, step.reply, step.unused);
    }
  }

  lemma StartKeepsOver(w: World, reply: Reply, unused: RunId)
    requires Inv(w) && w.call.Starting?
    ensures OverStays(w, StartNext(w, reply, unused))
  {
    if w.call.at.Abort? {
      FinalizeKeepsOver(w, w.call.at.id, Failed, w.call.at.at, ByCall, reply);
    }
  }

  lemma StopKeepsOver(w: World, reply: Reply)
    requires CallOk(w) && w.call.Stopping?
    ensures OverStays(w, StopNext(w, reply))
  {
    if w.call.stop.Finalize? {
      FinalizeKeepsOver(w, w.call.id, Stopped, w.call.stop.at, ByCall, reply);
    }
  }

  lemma RestartKeepsOver(w: World, reply: Reply)
    requires CallOk(w) && w.call.Restarting?
    ensures OverStays(w, RestartNext(w, reply))
  {
    if w.call.restart.RestartFinalize? {
      FinalizeKeepsOver(w, w.call.id, Stopped, w.call.restart.at, ByCall, reply);
    }
  }

  lemma ControlKeepsOver(w: World, reply: Reply)
    requires CallOk(w) && w.call.Controlling?
    ensures OverStays(w, ControlNext(w, reply))
  {
  }

  lemma CallKeepsOver(w: World, reply: Reply, unused: RunId)
    requires Inv(w) && CallEnabled(w)
    ensures OverStays(w, CallNext(w, reply, unused))
  {
    match w.call
    case Starting(_, _) => StartKeepsOver(w, reply, unused);
    case Controlling(_, _, _) => ControlKeepsOver(w, reply);
    case Stopping(_, _) => StopKeepsOver(w, reply);
    case Restarting(_, _) => RestartKeepsOver(w, reply);
    case _ =>
  }

  lemma {:induction false} RunKeepsOver(w: World, steps: seq<Step>, end: World)
    requires Inv(w) && Run(w, steps, end)
    ensures OverStays(w, end)
    decreases |steps|
  {
    if steps != [] {
      StepKeepsInv(w, steps[0]);
      StepKeepsOver(w, steps[0]);
      RunKeepsOver(Next(w, steps[0]), steps[1..], end);
    }
  }

  /** A terminal status is absorbing, whatever operators and runners do afterwards. */
  lemma {:induction false} TerminalIsAbsorbing(found: map<RunId, Status>, before: seq<Step>, w: World,
                                               after: seq<Step>, end: World, id: RunId)
    requires Run(Opened(found), before, w) && Run(w, after, end)
    requires id in w.rows && Terminal(w.rows[id])
    ensures id in end.rows && end.rows[id] == w.rows[id]
  {
    OpenedOk(found);
    RunKeepsInv(Opened(found), before, w);
    RunKeepsOver(w, after, end);
    assert Over(w, id);
  }

  /** Each run publishes at most one end, nothing about it follows, and the end published is the status
      stored. */
  lemma {:induction false} NothingFollowsTheEnd(found: map<RunId, Status>, steps: seq<Step>, w: World, i: nat, j: nat)
    requires Run(Opened(found), steps, w) && i < |w.log| && j < |w.log| && w.log[i].Ended? && w.log[j].id == w.log[i].id
    ensures j <= i
    ensures w.log[j].Ended? ==> i == j
    ensures w.log[i].id in w.rows && w.rows[w.log[i].id] == w.log[i].status
  {
    OpenedOk(found);
    RunKeepsInv(Opened(found), steps, w);
  }

  /** A restart only starts the new run once the run it replaces is over and its engine, if it still has one,
      has been stopped. */
  lemma {:induction false} RestartLeavesNoGhost(found: map<RunId, Status>, steps: seq<Step>, w: World, replaced: RunId)
    requires Run(Opened(found), steps, w) && w.call.Starting? && w.call.held == Some(replaced)
    ensures replaced in w.rows && Terminal(w.rows[replaced])
    ensures replaced in w.engines ==> replaced in w.stopped
  {
    OpenedOk(found);
    RunKeepsInv(Opened(found), steps, w);
  }

  /** Two threads never write the status of one run at the same time. */
  lemma {:induction false} OneWriterPerRun(found: map<RunId, Status>, steps: seq<Step>, w: World, id: RunId)
    requires Run(Opened(found), steps, w)
    ensures !(id in HeldByCall(w.call) && HeldByRunner(w, id))
  {
    OpenedOk(found);
    RunKeepsInv(Opened(found), steps, w);
    if id in w.runners {
      assert RunnerOk(w, id);
    }
  }

  // ---- after Close ----

  ghost predicate NoneStarted(w: World, n: World)
  {
    && n.rows.Keys == w.rows.Keys && n.runners.Keys == w.runners.Keys && n.engines <= w.engines
    && w.log <= n.log && forall e | e in n.log[|w.log|..] :: !e.Started?
  }

  /** A step that adds at most one event, not a start, and touches no set of runs but to shrink it. */
  lemma NoStart(w: World, n: World, news: seq<Event>)
    requires n.rows.Keys == w.rows.Keys && n.runners.Keys == w.runners.Keys && n.engines <= w.engines
    requires n.log == w.log + news && forall e | e in news :: !e.Started?
    ensures NoneStarted(w, n)
  {
    assert n.log[|w.log|..] == news;
  }

  lemma FinalizeStartsNothing(w: World, id: RunId, status: Status, at: Finalizing, who: Closer, reply: Reply)
    requires FinalizingOk(w, id, status, at)
    ensures NoneStarted(w, FinalizeNext(w, id, status, at, who, reply).0)
  {
    NoStart(w, FinalizeNext(w, id, status, at, who, reply).0, if at.Announce? then [Ended(id, status)] else []);
  }

  lemma ClosedStep(w: World, step: Step)
    requires Inv(w) && w.closed && Enabled(w, step)
    ensures Next(w, step).closed && (w.shut ==> Next(w, step).shut)
    ensures NoneStarted(w, Next(w, step))
  {
    match step
    case Continue(reply, unused) =>
      if w.call.Controlling? {
        ClosedControl(w, reply);
      } else if w.call.Stopping? {
        ClosedStop(w, reply);
      } else {
        NoStart(w, CallNext(w, reply, unused), []);
      }
    case Runs(id, reply, failed) => ClosedRunner(w, id, reply, failed);
    case _ => NoStart(w, Next(w, step), []);
  }

  lemma ClosedControl(w: World, reply: Reply)
    requires CallOk(w) && w.closed && w.call.Controlling?
    ensures var n := ControlNext(w, reply); n.closed && n.shut == w.shut && NoneStarted(w, n)
  {
    var n := ControlNext(w, reply);
    NoStart(w, n, if w.call.step.Tell? then [Updated(w.call.id, w.rows[w.call.id])] else []);
  }

  lemma ClosedStop(w: World, reply: Reply)
    requires CallOk(w) && w.closed && w.call.Stopping?
    ensures var n := StopNext(w, reply); n.closed && n.shut == w.shut && NoneStarted(w, n)
  {
    if w.call.stop.Finalize? {
      FinalizeStartsNothing(w, w.call.id, Stopped, w.call.stop.at, ByCall, reply);
      FinalizeStaysClosed(w, w.call.id, Stopped, w.call.stop.at, ByCall, reply);
    } else {
      StopMoves(w, reply);
      NoStart(w, StopNext(w, reply), []);
    }
  }

  lemma FinalizeStaysClosed(w: World, id: RunId, status: Status, at: Finalizing, who: Closer, reply: Reply)
    ensures var n := FinalizeNext(w, id, status, at, who, reply).0; n.closed == w.closed && n.shut == w.shut
  {
  }

  lemma StopMoves(w: World, reply: Reply)
    requires w.call.Stopping? && !w.call.stop.Finalize?
    ensures var n := StopNext(w, reply);
      && n.rows == w.rows && n.runners == w.runners && n.engines == w.engines && n.log == w.log
      && n.closed == w.closed && n.shut == w.shut
  {
  }

  lemma ClosedRunner(w: World, id: RunId, reply: Reply, failed: bool)
    requires Inv(w) && w.closed && Enabled(w, Runs(id, reply, failed))
    ensures var n := RunnerNext(w, id, reply, failed);
      n.closed && n.shut == w.shut && NoneStarted(w, n)
  {
    assert RunnerOk(w, id);
    if w.runners[id].Closing? {
      FinalizeStartsNothing(w, id, w.runners[id].status, w.runners[id].at, ByRunner, reply);
    } else {
      NoStart(w, RunnerNext(w, id, reply, failed), []);
    }
  }

  lemma {:induction false} ClosedRun(w: World, steps: seq<Step>, end: World)
    requires Inv(w) && w.closed && Run(w, steps, end)
    ensures Inv(end) && end.closed && (w.shut ==> end.shut) && NoneStarted(w, end)
    decreases |steps|
  {
    if steps != [] {
      var n := Next(w, steps[0]);
      StepKeepsInv(w, steps[0]);
      ClosedStep(w, steps[0]);
      ClosedRun(n, steps[1..], end);
      assert end.log[|w.log|..] == n.log[|w.log|..] + end.log[|n.log|..];
    }
  }

  /** Once Close has marked the service, no run is created, registered or announced any more. Every engine
      that is still registered has been stopped once Close has come to waiting for the runners; once it has
      returned nil no engine is registered, then or ever after. */
  lemma {:induction false} NothingStartsAfterClose(found: map<RunId, Status>, before: seq<Step>, w: World,
                                                   after: seq<Step>, end: World)
    requires Run(Opened(found), before, w) && w.closed && Run(w, after, end)
    ensures NoneStarted(w, end)
    ensures !end.call.StoppingEngines? ==> end.engines <= end.stopped
    ensures w.shut ==> end.engines == {}
  {
    OpenedOk(found);
    RunKeepsInv(Opened(found), before, w);
    ClosedRun(w, after, end);
    if w.shut {
      forall id ensures id !in end.engines {
        assert AllGone(end);
      }
    }
  }
}
