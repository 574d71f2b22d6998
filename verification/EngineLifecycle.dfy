/** The life of every scheduled event: pending, then running, then one final status; and what is
    left behind by every way out of the run loop. */
module EngineLifecycle {
  import opened Actions
  import opened EngineState
  import opened EngineMachine
  import opened EngineShape

  /** Actions that have an event but have not been marked running. */
  function Unstarted(m: Machine): set<nat>
    requires m.e.nextStatic <= |m.e.timeline|
  {
    Numbers(Remaining(m.e)) + if m.runner.Popped? then {m.runner.action.seqNo} else {}
  }

  predicate Swept(r: Runner)
  {
    r.Settling? || r.Exited?
  }

  predicate Ended(r: Runner)
  {
    r.Sweeping? || Swept(r)
  }

  /** The action in hand, between being marked running and being marked with its outcome. */
  predicate InHand(r: Runner)
  {
    r.Started? || r.Acting? || r.Returned?
  }

  predicate MayBeRunning(m: Machine, n: nat)
  {
    || (InHand(m.runner) && m.runner.action.seqNo == n)
    || m.runner.Leaving? || m.runner.Sweeping?
  }

  ghost predicate Tidy(m: Machine)
  {
    && m.e.nextStatic <= |m.e.timeline|
    && (m.e.finished <==> Ended(m.runner))
    && (Swept(m.runner) ==> forall n | n in m.e.eventStates :: !Open(m.e.eventStates[n].status))
    && (!Swept(m.runner) ==> forall n | n in m.e.eventStates ::
          && (m.e.eventStates[n].status == Pending <==> n in Unstarted(m))
          && (m.e.eventStates[n].status == Running ==> MayBeRunning(m, n)))
    && (m.runner.Popped? || InHand(m.runner) ==> m.runner.action.seqNo in m.e.eventStates)
    && (InHand(m.runner) ==> m.e.eventStates[m.runner.action.seqNo].status == Running)
  }

  ghost predicate Ready(m: Machine)
  {
    Formed(m) && Tidy(m)
  }

  // ---- preservation ----

  /** Two states that agree on everything Tidy speaks about. */
  predicate SameEvents(m: Machine, n: Machine)
  {
    && n.e.timeline == m.e.timeline && n.e.nextStatic == m.e.nextStatic && n.e.pending == m.e.pending
    && n.e.eventStates == m.e.eventStates && n.e.finished == m.e.finished
  }

  lemma SameTidy(m: Machine, n: Machine)
    requires Tidy(m) && SameEvents(m, n) && n.runner == m.runner
    ensures Tidy(n)
  {
    assert Remaining(n.e) == Remaining(m.e);
  }

  lemma PopKeepsTidy(m: Machine)
    requires Ready(m) && m.runner.Due?
    ensures Tidy(DoPop(m))
  {
    var n := DoPop(m);
    if n.runner.Popped? {
      PopTakesOne(m.e, m.runner.action.seqNo);
      assert Unstarted(n) == Unstarted(m);
    }
  }

  lemma PeekKeepsTidy(m: Machine)
    requires Tidy(m) && m.runner.Idle?
    ensures Tidy(DoPeek(m))
  {
    var n := DoPeek(m);
    assert Remaining(n.e) == Remaining(m.e);
    if n.runner.Exited? {
      assert Unstarted(m) == {};
    } else {
      assert Unstarted(n) == Unstarted(m);
    }
  }

  /** The sections in which the runner changes the status of an event. */
  predicate Marks(step: RunnerStep)
  {
    step.Begin? || step.RecordError? || step.Finish? || step.Sweep?
  }

  lemma BeginKeepsTidy(m: Machine)
    requires Tidy(m) && m.runner.Popped? && m.runner.action.seqNo !in Numbers(Remaining(m.e))
    ensures Tidy(DoBegin(m))
  {
    assert Remaining(DoBegin(m).e) == Remaining(m.e);
  }

  lemma OutcomeKeepsTidy(m: Machine, step: RunnerStep)
    requires Tidy(m) && RunnerEnabled(m, step) && (step.RecordError? || step.Finish?)
    ensures Tidy(RunnerNext(m, step))
  {
    assert Remaining(RunnerNext(m, step).e) == Remaining(m.e);
  }

  lemma SweepKeepsTidy(m: Machine)
    requires Tidy(m) && m.runner.Sweeping?
    ensures Tidy(RunnerNext(m, Sweep))
  {
    assert Remaining(RunnerNext(m, Sweep).e) == Remaining(m.e);
  }

  lemma MarkKeepsTidy(m: Machine, step: RunnerStep)
    requires Tidy(m) && RunnerEnabled(m, step) && Marks(step)
    requires step.Begin? ==> m.runner.action.seqNo !in Numbers(Remaining(m.e))
    ensures Tidy(RunnerNext(m, step))
  {
    if step.Begin? {
      BeginKeepsTidy(m);
    } else if step.Sweep? {
      SweepKeepsTidy(m);
    } else {
      OutcomeKeepsTidy(m, step);
    }
  }

  /** The remaining sections change no event. */
  lemma UnmarkedFrame(m: Machine, step: RunnerStep)
    requires RunnerEnabled(m, step) && !Marks(step) && !step.Peek? && !step.Pop?
    ensures var n := RunnerNext(m, step);
      && n.e.timeline == m.e.timeline && n.e.nextStatic == m.e.nextStatic && n.e.pending == m.e.pending
      && n.e.eventStates == m.e.eventStates && n.e.finished == (m.e.finished || step.MarkEnd?)
  {
    match step
    case Return(result) => ReturnUnmarked(m, result);
    case _ =>
  }

  lemma ReturnUnmarked(m: Machine, result: Result)
    requires m.runner.Acting?
    ensures SameEvents(m, DoReturn(m, result))
  {
  }

  lemma PassKeepsTidy(m: Machine, step: RunnerStep)
    requires Tidy(m) && RunnerEnabled(m, step) && !Marks(step) && !step.Peek? && !step.Pop?
    ensures Tidy(RunnerNext(m, step))
  {
    UnmarkedFrame(m, step);
    PassedTidy(m, RunnerNext(m, step), step.MarkEnd?);
  }

  /** The runner moves on without marking an event. */
  lemma PassedTidy(m: Machine, n: Machine, ending: bool)
    requires Tidy(m) && SameEvents(m, n.(e := n.e.(finished := m.e.finished)))
    requires n.e.finished == (m.e.finished || ending)
    requires ending <==> Ended(n.runner) && !Ended(m.runner)
    requires Ended(m.runner) ==> Ended(n.runner)
    requires Swept(n.runner) <==> Swept(m.runner)
    requires InHand(n.runner) ==> InHand(m.runner) && n.runner.action == m.runner.action
    requires n.runner.Popped? <==> m.runner.Popped?
    requires n.runner.Popped? ==> n.runner.action == m.runner.action
    requires forall k | MayBeRunning(m, k) :: MayBeRunning(n, k)
    ensures Tidy(n)
  {
    assert Remaining(n.e) == Remaining(m.e);
    assert Unstarted(n) == Unstarted(m);
  }

  lemma CommitKeepsTidy(m: Machine, i: nat)
    requires Ready(m) && InjectionEnabled(m, Commit(i))
    ensures Tidy(DoCommit(m, i))
  {
    var actions := m.injectors[i].actions;
    assert Unused(m.e, InFlight(m.injectors[i]));
    var n := DoCommit(m, i);
    if AcceptsNow(m.e) {
      CommitKeepsShape(m.e, actions);
    } else {
      assert Remaining(n.e) == Remaining(m.e);
    }
  }

  lemma PersistKeepsTidy(m: Machine, i: nat, ok: bool)
    requires Ready(m) && InjectionEnabled(m, Persist(i, ok))
    ensures Tidy(DoPersist(m, i, ok))
  {
    assert Unused(m.e, InFlight(m.injectors[i]));
    assert Remaining(DoPersist(m, i, ok).e) == Remaining(m.e);
  }

  lemma InjectionKeepsTidy(m: Machine, step: InjectionStep)
    requires Ready(m) && InjectionEnabled(m, step)
    ensures Tidy(InjectionNext(m, step))
  {
    match step
    case Inject(command, inner, batch) => SameTidy(m, DoInject(m, command, inner, batch));
    case Admit(i) => SameTidy(m, DoAdmit(m, i));
    case Persist(i, ok) => PersistKeepsTidy(m, i, ok);
    case Commit(i) => CommitKeepsTidy(m, i);
    case GiveUp(i) => SameTidy(m, DoGiveUp(m, i));
  }

  /** The action the runner holds between pop and start is no longer among the remaining ones. */
  ghost predicate PoppedOnce(m: Machine)
  {
    m.e.nextStatic <= |m.e.timeline|
    && (m.runner.Popped? ==> m.runner.action.seqNo !in Numbers(Remaining(m.e)))
  }

  lemma RunnerKeepsTidy(m: Machine, step: RunnerStep)
    requires Ready(m) && PoppedOnce(m) && RunnerEnabled(m, step)
    ensures Tidy(RunnerNext(m, step))
  {
    if step.Peek? {
      PeekKeepsTidy(m);
    } else if step.Pop? {
      PopKeepsTidy(m);
    } else if Marks(step) {
      MarkKeepsTidy(m, step);
    } else {
      PassKeepsTidy(m, step);
    }
  }

  lemma RunnerKeepsPoppedOnce(m: Machine, step: RunnerStep)
    requires Ready(m) && PoppedOnce(m) && RunnerEnabled(m, step)
    ensures PoppedOnce(RunnerNext(m, step))
  {
    if step.Pop? {
      if DoPop(m).runner.Popped? {
        PopTakesOne(m.e, m.runner.action.seqNo);
      }
    } else {
      RunnerFrame(m, step);
    }
  }

  lemma CommitKeepsPoppedOnce(m: Machine, i: nat)
    requires Ready(m) && PoppedOnce(m) && InjectionEnabled(m, Commit(i))
    ensures PoppedOnce(DoCommit(m, i))
  {
    assert Unused(m.e, InFlight(m.injectors[i]));
    CommitKeepsShape(m.e, m.injectors[i].actions);
  }

  lemma InjectionKeepsPoppedOnce(m: Machine, step: InjectionStep)
    requires Ready(m) && PoppedOnce(m) && InjectionEnabled(m, step)
    ensures PoppedOnce(InjectionNext(m, step))
  {
    if step.Commit? {
      CommitKeepsPoppedOnce(m, step.i);
    } else {
      assert Remaining(InjectionNext(m, step).e) == Remaining(m.e);
    }
  }

  // ---- what every reachable state satisfies ----

  ghost predicate Orderly(m: Machine)
  {
    Ready(m) && PoppedOnce(m)
  }

  lemma StepKeepsOrderly(m: Machine, step: Step)
    requires Orderly(m) && Enabled(m, step)
    ensures Orderly(Next(m, step))
  {
    match step
    case World(w) => WorldKeepsOrderly(m, w);
    case Advance(r) => RunnerKeepsOrderly(m, r);
    case Injecting(x) => InjectionKeepsOrderly(m, x);
  }

  lemma WorldKeepsOrderly(m: Machine, step: WorldStep)
    requires Orderly(m)
    ensures Orderly(WorldNext(m, step))
  {
    WorldKeepsFormed(m, step);
    SameTidy(m, WorldNext(m, step));
    assert Remaining(WorldNext(m, step).e) == Remaining(m.e);
  }

  lemma RunnerKeepsOrderly(m: Machine, step: RunnerStep)
    requires Orderly(m) && RunnerEnabled(m, step)
    ensures Orderly(RunnerNext(m, step))
  {
    RunnerKeepsFormed(m, step);
    RunnerKeepsTidy(m, step);
    RunnerKeepsPoppedOnce(m, step);
  }

  lemma InjectionKeepsOrderly(m: Machine, step: InjectionStep)
    requires Orderly(m) && InjectionEnabled(m, step)
    ensures Orderly(InjectionNext(m, step))
  {
    InjectionKeepsFormed(m, step);
    InjectionKeepsTidy(m, step);
    InjectionKeepsPoppedOnce(m, step);
  }

  lemma InitiallyTidy(m: Machine)
    requires Initial(m)
    ensures Tidy(m)
  {
    assert Remaining(m.e) == m.e.timeline;
  }

  lemma InitiallyOrderly(m: Machine)
    requires Initial(m)
    ensures Orderly(m)
  {
    InitiallyFormed(m);
    InitiallyTidy(m);
  }

  lemma {:induction false} RunKeepsOrderly(m: Machine, steps: seq<Step>, end: Machine)
    requires Orderly(m) && Run(m, steps, end)
    ensures Orderly(end)
    decreases |steps|
  {
    if steps != [] {
      StepKeepsOrderly(m, steps[0]);
      RunKeepsOrderly(Next(m, steps[0]), steps[1..], end);
    }
  }

  /** However the run loop returns, it has set finished and left no event pending or running. */
  lemma ExitLeavesNothingOpen(start: Machine, steps: seq<Step>, m: Machine)
    requires Reaches(start, steps, m) && m.runner.Exited?
    ensures m.e.finished
    ensures forall n | n in m.e.eventStates :: m.e.eventStates[n].status in {Completed, Failed, Skipped}
  {
    InitiallyOrderly(start);
    RunKeepsOrderly(start, steps, m);
    forall n | n in m.e.eventStates ensures m.e.eventStates[n].status in {Completed, Failed, Skipped} {
      assert !Open(m.e.eventStates[n].status);
    }
  }

  // ---- the path of one event ----

  predicate Move(from: Status, to: Status)
  {
    || from == to
    || (from == Pending && (to == Running || to == Skipped))
    || (from == Running && !Open(to))
  }

  /** Every event of m is still there in n, at the same time and under the same name. */
  ghost predicate EventsMove(m: map<nat, Event>, n: map<nat, Event>)
  {
    forall k | k in m :: k in n && n[k].atMs == m[k].atMs && n[k].name == m[k].name
      && Move(m[k].status, n[k].status)
  }

  /** Events that appear do so pending or already skipped. */
  ghost predicate EventsAppear(m: map<nat, Event>, n: map<nat, Event>)
  {
    forall k | k in n && k !in m :: n[k].status == Pending || n[k].status == Skipped
  }

  lemma UnmarkedKeepsEvents(m: Machine, step: RunnerStep)
    requires RunnerEnabled(m, step) && !Marks(step)
    ensures RunnerNext(m, step).e.eventStates == m.e.eventStates
  {
    if !step.Peek? && !step.Pop? {
      UnmarkedFrame(m, step);
    }
  }

  lemma RunnerMovesEvents(m: Machine, step: RunnerStep)
    requires Tidy(m) && RunnerEnabled(m, step)
    ensures EventsMove(m.e.eventStates, RunnerNext(m, step).e.eventStates)
    ensures EventsAppear(m.e.eventStates, RunnerNext(m, step).e.eventStates)
  {
    if !Marks(step) {
      UnmarkedKeepsEvents(m, step);
    }
  }

  /** A batch is recorded under new numbers. */
  lemma {:induction false} RecordingAppears(e: State, actions: seq<Action>, status: Status)
    requires Unused(e, actions) && (status == Pending || status == Skipped)
    ensures EventsMove(e.eventStates, Recorded(e.eventStates, actions, status))
    ensures EventsAppear(e.eventStates, Recorded(e.eventStates, actions, status))
  {
  }

  lemma InjectionMovesEvents(m: Machine, step: InjectionStep)
    requires Flight(m) && InjectionEnabled(m, step)
    ensures EventsMove(m.e.eventStates, InjectionNext(m, step).e.eventStates)
    ensures EventsAppear(m.e.eventStates, InjectionNext(m, step).e.eventStates)
  {
    if step.Persist? || step.Commit? {
      var actions := InFlight(m.injectors[step.i]);
      assert Unused(m.e, actions);
      RecordingAppears(m.e, actions, Skipped);
      RecordingAppears(m.e, actions, Pending);
    }
  }

  lemma StepMovesEvents(m: Machine, step: Step)
    requires Orderly(m) && Enabled(m, step)
    ensures EventsMove(m.e.eventStates, Next(m, step).e.eventStates)
    ensures EventsAppear(m.e.eventStates, Next(m, step).e.eventStates)
  {
    match step
    case World(_) => assert Next(m, step).e.eventStates == m.e.eventStates;
    case Advance(r) => RunnerMovesEvents(m, r);
    case Injecting(x) => InjectionMovesEvents(m, x);
  }

  /** Over any run an event keeps its place and name, and a final status is never left again. */
  lemma {:induction false} FinalStatusIsKept(m: Machine, steps: seq<Step>, end: Machine, k: nat)
    requires Orderly(m) && Run(m, steps, end) && k in m.e.eventStates
    ensures k in end.e.eventStates
    ensures end.e.eventStates[k].atMs == m.e.eventStates[k].atMs
    ensures end.e.eventStates[k].name == m.e.eventStates[k].name
    ensures !Open(m.e.eventStates[k].status) ==> end.e.eventStates[k] == m.e.eventStates[k]
    ensures m.e.eventStates[k].status == Running ==> end.e.eventStates[k].status != Pending
    decreases |steps|
  {
    if steps != [] {
      StepMovesEvents(m, steps[0]);
      StepKeepsOrderly(m, steps[0]);
      FinalStatusIsKept(Next(m, steps[0]), steps[1..], end, k);
    }
  }

  // ---- no action starts twice ----

  ghost predicate StartedOnce(m: Machine)
  {
    && DistinctNumbers(m.executed)
    && (forall a | a in m.executed :: a.seqNo in m.e.eventStates && m.e.eventStates[a.seqNo].status != Pending)
  }

  lemma BeginKeepsStartedOnce(m: Machine)
    requires Orderly(m) && StartedOnce(m) && m.runner.Popped?
    ensures StartedOnce(DoBegin(m))
  {
    var a := m.runner.action;
    assert m.e.eventStates[a.seqNo].status == Pending;
    DistinctConcat(m.executed, [a]);
  }

  lemma StepKeepsStartedOnce(m: Machine, step: Step)
    requires Orderly(m) && StartedOnce(m) && Enabled(m, step)
    ensures StartedOnce(Next(m, step))
  {
    StepMovesEvents(m, step);
    if step == Advance(Begin) {
      BeginKeepsStartedOnce(m);
    } else {
      assert Next(m, step).executed == m.executed;
    }
  }

  lemma {:induction false} RunKeepsStartedOnce(m: Machine, steps: seq<Step>, end: Machine)
    requires Orderly(m) && StartedOnce(m) && Run(m, steps, end)
    ensures StartedOnce(end)
    decreases |steps|
  {
    if steps != [] {
      StepKeepsOrderly(m, steps[0]);
      StepKeepsStartedOnce(m, steps[0]);
      RunKeepsStartedOnce(Next(m, steps[0]), steps[1..], end);
    }
  }

  lemma NoActionStartsTwice(start: Machine, steps: seq<Step>, m: Machine)
    requires Reaches(start, steps, m)
    ensures DistinctNumbers(m.executed)
  {
    InitiallyOrderly(start);
    RunKeepsStartedOnce(start, steps, m);
  }

  // ---- after a stop ----

  /** How many more actions a stopped run can still start. */
  function StartsLeft(m: Machine): nat
  {
    if m.runner.Due? || m.runner.Popped? then 1 else 0
  }

  lemma StoppedRunnerStarts(m: Machine, step: RunnerStep)
    requires m.e.stopped && RunnerEnabled(m, step)
    ensures RunnerNext(m, step).e.stopped
    ensures |RunnerNext(m, step).executed| + StartsLeft(RunnerNext(m, step)) <= |m.executed| + StartsLeft(m)
  {
  }

  lemma StoppedInjectionStarts(m: Machine, step: InjectionStep)
    requires m.e.stopped && InjectionEnabled(m, step)
    ensures InjectionNext(m, step).e.stopped
    ensures |InjectionNext(m, step).executed| == |m.executed| && InjectionNext(m, step).runner == m.runner
  {
  }

  lemma StoppedStepStarts(m: Machine, step: Step)
    requires m.e.stopped && Enabled(m, step)
    ensures Next(m, step).e.stopped
    ensures |Next(m, step).executed| + StartsLeft(Next(m, step)) <= |m.executed| + StartsLeft(m)
  {
    match step
    case World(_) =>
    case Advance(r) => StoppedRunnerStarts(m, r);
    case Injecting(x) => StoppedInjectionStarts(m, x);
  }

  /** Once stopped, a run starts at most the one action it had already waited for. */
  lemma {:induction false} AtMostOneStartAfterStop(m: Machine, steps: seq<Step>, end: Machine)
    requires m.e.stopped && Run(m, steps, end)
    ensures |end.executed| + StartsLeft(end) <= |m.executed| + StartsLeft(m)
    ensures |end.executed| <= |m.executed| + 1
    decreases |steps|
  {
    if steps != [] {
      StoppedStepStarts(m, steps[0]);
      AtMostOneStartAfterStop(Next(m, steps[0]), steps[1..], end);
    }
  }

  // ---- counting ----

  /** eventsRun is the number of started actions, less the one still in hand. */
  predicate Counted(m: Machine)
  {
    match m.runner
    case Started(_) => |m.executed| == m.e.eventsRun + 1
    case Acting(_) => |m.executed| == m.e.eventsRun + 1
    case Returned(_, _) => |m.executed| == m.e.eventsRun + 1
    case Failing(_, _) => |m.executed| == m.e.eventsRun + 1
    case Finishing(_, _) => |m.executed| == m.e.eventsRun + 1
    case Leaving => m.e.eventsRun <= |m.executed| <= m.e.eventsRun + 1
    case Sweeping => m.e.eventsRun <= |m.executed| <= m.e.eventsRun + 1
    case Settling => m.e.eventsRun <= |m.executed| <= m.e.eventsRun + 1
    case Exited => m.e.eventsRun <= |m.executed| <= m.e.eventsRun + 1
    case _ => |m.executed| == m.e.eventsRun
  }

  lemma RunnerKeepsCounted(m: Machine, step: RunnerStep)
    requires Counted(m) && RunnerEnabled(m, step)
    ensures Counted(RunnerNext(m, step))
  {
    match step
    case Peek =>
    case Pop =>
    case Return(result) => ReturnKeepsCounted(m, result);
    case _ =>
  }

  lemma ReturnKeepsCounted(m: Machine, result: Result)
    requires Counted(m) && m.runner.Acting?
    ensures Counted(DoReturn(m, result))
  {
  }

  lemma InjectionKeepsCounted(m: Machine, step: InjectionStep)
    requires Counted(m) && InjectionEnabled(m, step)
    ensures Counted(InjectionNext(m, step))
  {
  }

  lemma StepKeepsCounted(m: Machine, step: Step)
    requires Counted(m) && Enabled(m, step)
    ensures Counted(Next(m, step))
  {
    match step
    case World(_) =>
    case Advance(r) => RunnerKeepsCounted(m, r);
    case Injecting(x) => InjectionKeepsCounted(m, x);
  }

  lemma {:induction false} EventsRunCountsStarts(m: Machine, steps: seq<Step>, end: Machine)
    requires Counted(m) && Run(m, steps, end)
    ensures Counted(end)
    decreases |steps|
  {
    if steps != [] {
      StepKeepsCounted(m, steps[0]);
      EventsRunCountsStarts(Next(m, steps[0]), steps[1..], end);
    }
  }
}
