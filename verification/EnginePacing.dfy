/** No action starts before its time: what the runner has waited for, the clock has reached, and nothing but
    a stop takes the clock back before the action starts. */
module EnginePacing {
  import opened Actions
  import opened EngineState
  import opened EngineMachine
  import opened EngineShape
  import opened EngineLifecycle
  import opened EngineOrder
  import opened EngineClock

  /** The clock has reached the action the runner is about to take or to start. */
  predicate Reached(m: Machine)
  {
    (m.runner.Due? || m.runner.Popped?) && !m.e.stopped ==>
      VirtualTimeMs(CurrentVirtual(m.e, m.now)) >= m.runner.action.atMs
  }

  lemma LaterReadsMore(less: real, more: real)
    requires less <= more
    ensures VirtualTimeMs(less) <= VirtualTimeMs(more)
  {
  }

  lemma WorldKeepsReached(m: Machine, step: WorldStep)
    requires Clocked(m.e, m.now) && (m.e.finished ==> !m.runner.Due? && !m.runner.Popped?)
    requires Reached(m) && WorldEnabled(step)
    ensures Reached(WorldNext(m, step))
  {
    match step
    case Tick(elapsed) =>
      TickMovesForward(m.e, m.now, m.now + elapsed);
      LaterReadsMore(CurrentVirtual(m.e, m.now), CurrentVirtual(m.e, m.now + elapsed));
    case PauseRun => PauseAndResumeKeepReading(m.e, m.now);
    case ResumeRun => PauseAndResumeKeepReading(m.e, m.now);
    case ChangeSpeed(speed) => SetSpeedKeepsReading(m.e, speed, m.now);
    case _ =>
  }

  /** What is popped is what was waited for. */
  lemma PoppedWasAwaited(m: Machine)
    requires Shape(m.e) && Selected(m) && m.runner.Due? && DoPop(m).runner.Popped?
    ensures DoPop(m).runner.action == m.runner.action
  {
    PoppedAction(m);
    PopTakesOne(m.e, m.runner.action.seqNo);
    if !Committed(m) {
      SameNumberSameAction(Remaining(m.e), DoPop(m).runner.action, m.runner.action);
    }
  }

  lemma RunnerKeepsReached(m: Machine, step: RunnerStep)
    requires Shape(m.e) && Selected(m) && Reached(m) && RunnerEnabled(m, step)
    ensures Reached(RunnerNext(m, step))
  {
    if step.Pop? {
      if DoPop(m).runner.Popped? {
        PoppedWasAwaited(m);
      }
    } else {
      OnlyWaitDoneMakesDue(m, step);
    }
  }

  lemma OnlyWaitDoneMakesDue(m: Machine, step: RunnerStep)
    requires RunnerEnabled(m, step) && !step.Pop?
    ensures RunnerNext(m, step).runner.Due? || RunnerNext(m, step).runner.Popped? ==>
      step.WaitDone? && RunnerNext(m, step).e == m.e && RunnerNext(m, step).now == m.now
      && RunnerNext(m, step).runner.action == m.runner.action
  {
  }

  lemma InjectionKeepsReached(m: Machine, step: InjectionStep)
    requires Reached(m) && InjectionEnabled(m, step)
    ensures Reached(InjectionNext(m, step))
  {
    InjectionLeavesClock(m, step);
  }

  lemma InjectionLeavesClock(m: Machine, step: InjectionStep)
    requires InjectionEnabled(m, step)
    ensures var n := InjectionNext(m, step);
      && SameClock(m.e, n.e) && n.e.paused == m.e.paused && n.e.stopped == m.e.stopped
      && n.now == m.now && n.runner == m.runner
  {
  }

  ghost predicate Paced(m: Machine)
  {
    Orderly(m) && Clocked(m.e, m.now) && Sequenced(m) && Reached(m)
  }

  lemma StepKeepsReached(m: Machine, step: Step)
    requires Paced(m) && Enabled(m, step)
    ensures Reached(Next(m, step))
  {
    match step
    case World(w) => WorldKeepsReached(m, w);
    case Advance(r) =>
      if m.runner.Due? || m.runner.Waiting? {
        RunnerKeepsReached(m, r);
      } else {
        OnlyWaitDoneMakesDue(m, r);
      }
    case Injecting(x) => InjectionKeepsReached(m, x);
  }

  lemma {:induction false} RunKeepsPaced(m: Machine, steps: seq<Step>, end: Machine)
    requires Paced(m) && Run(m, steps, end)
    ensures Paced(end)
    decreases |steps|
  {
    if steps != [] {
      StepKeepsReached(m, steps[0]);
      StepKeepsSequenced(m, steps[0]);
      StepKeepsClocked(m, steps[0]);
      StepKeepsOrderly(m, steps[0]);
      RunKeepsPaced(Next(m, steps[0]), steps[1..], end);
    }
  }

  /** However a run is paused, resumed, sped up or slowed down: unless it has been stopped meanwhile, an action
      only starts when the clock has reached its time, and it sets the clock to that time. */
  lemma {:induction false} NothingStartsEarly(start: Machine, steps: seq<Step>, m: Machine)
    requires Reaches(start, steps, m) && m.runner.Popped? && !m.e.stopped
    ensures VirtualTimeMs(CurrentVirtual(m.e, m.now)) >= m.runner.action.atMs
    ensures var n := Next(m, Advance(Begin));
      && n.executed == m.executed + [m.runner.action]
      && VirtualTimeMs(CurrentVirtual(n.e, n.now)) == m.runner.action.atMs
  {
    ReachablePaced(start, steps, m);
    StartedReading(m.e, m.runner.action, m.now);
  }

  lemma {:induction false} ReachablePaced(start: Machine, steps: seq<Step>, m: Machine)
    requires Reaches(start, steps, m)
    ensures Reached(m) && (m.runner.Popped? ==> 0 <= m.runner.action.atMs <= MAX_INT64)
  {
    InitiallyOrderly(start);
    InitiallySequenced(start);
    RunKeepsPaced(start, steps, m);
  }

  lemma StartedReading(e: State, a: Action, now: real)
    requires 0 <= a.atMs <= MAX_INT64 && !e.stopped
    ensures VirtualTimeMs(CurrentVirtual(StartAction(e, a, now), now)) == a.atMs
  {
    if !e.paused {
      StartSetsReading(e, a, now);
    }
  }
}
