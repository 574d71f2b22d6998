/** The pausable, speed-scaled virtual clock. */
module EngineClock {
  import opened Actions
  import opened EngineState
  import opened EngineMachine
  import opened EngineShape
  import opened EngineLifecycle

  predicate Clocked(e: State, now: real)
  {
    && e.speed > 0.0 && e.lastResume <= now
    && 0 <= e.lastActionAt <= MAX_INT64
    && e.lastActionAt as real <= e.virtualBaseMs <= MAX_VIRTUAL
  }

  lemma ProgressIsForward(since: real, speed: real)
    requires since >= 0.0 && speed > 0.0
    ensures Progress(since, speed) >= 0.0 && (Progress(since, speed) == 0.0 <==> since == 0.0)
  {
  }

  lemma ProgressGrows(since: real, longer: real, speed: real)
    requires since <= longer && speed > 0.0
    ensures Progress(since, speed) <= Progress(longer, speed)
  {
    assert Progress(longer - since, speed) >= 0.0;
  }

  lemma ProgressScales(since: real, slow: real, fast: real)
    requires since >= 0.0 && slow < fast
    ensures Progress(since, slow) <= Progress(since, fast)
    ensures since > 0.0 ==> Progress(since, slow) < Progress(since, fast)
  {
    assert Progress(since, fast - slow) >= 0.0;
    assert since > 0.0 ==> Progress(since, fast - slow) > 0.0;
  }

  /** The clock never reads less than its base, and the base never less than the last action's time. */
  lemma ReadingBounds(e: State, now: real)
    requires Clocked(e, now)
    ensures e.virtualBaseMs <= CurrentVirtual(e, now) <= MAX_VIRTUAL
    ensures e.lastActionAt <= VirtualTimeMs(CurrentVirtual(e, now)) <= MAX_INT64
  {
    ProgressIsForward(now - e.lastResume, e.speed);
  }

  /** Time passing never moves the clock back, and does not move it at all while paused or stopped. */
  lemma TickMovesForward(e: State, now: real, later: real)
    requires Clocked(e, now) && now <= later
    ensures CurrentVirtual(e, now) <= CurrentVirtual(e, later)
    ensures e.paused || e.stopped ==> CurrentVirtual(e, later) == CurrentVirtual(e, now)
  {
    ProgressGrows(now - e.lastResume, later - e.lastResume, e.speed);
  }

  lemma PauseAndResumeKeepReading(e: State, now: real)
    requires Clocked(e, now)
    ensures CurrentVirtual(Pause(e, now), now) == CurrentVirtual(e, now)
    ensures CurrentVirtual(Resume(e, now), now) == CurrentVirtual(e, now)
    ensures Clocked(Pause(e, now), now) && Clocked(Resume(e, now), now)
  {
    ReadingBounds(e, now);
    assert now - now == 0.0;
    NoProgress(e.speed);
  }

  predicate Saturated(e: State, speed: real, now: real)
  {
    e.virtualBaseMs + Progress(now - e.lastResume, speed) >= MAX_VIRTUAL
  }

  /** SetSpeed does not rebase a finished engine, so it keeps the reading exactly when the engine is
      unfinished or its clock stands still, or when the change could not show. */
  lemma SetSpeedKeepsReading(e: State, speed: real, now: real)
    requires Clocked(e, now)
    ensures CurrentVirtual(SetSpeed(e, speed, now), now) == CurrentVirtual(e, now) <==>
      || speed <= 0.0 || e.paused || e.stopped || !e.finished
      || speed == e.speed || now == e.lastResume
      || (Saturated(e, speed, now) && Saturated(e, e.speed, now))
    ensures Clocked(SetSpeed(e, speed, now), now)
  {
    ReadingBounds(e, now);
    NoProgress(speed);
    NoProgress(e.speed);
    if speed > 0.0 && !e.paused && !e.stopped {
      if e.finished {
        FinishedReadings(e, speed, now);
      } else {
        assert now - now == 0.0;
      }
    }
  }

  lemma NoProgress(speed: real)
    ensures Progress(0.0, speed) == 0.0
  {
  }

  /** Two speeds give a running, finished engine the same reading only where no time has passed or the
      reading is at its bound. */
  lemma FinishedReadings(e: State, speed: real, now: real)
    requires Clocked(e, now) && speed > 0.0 && !e.paused && !e.stopped && e.finished
    ensures CurrentVirtual(e.(speed := speed), now) == CurrentVirtual(e, now) <==>
      || speed == e.speed || now == e.lastResume
      || (Saturated(e, speed, now) && Saturated(e, e.speed, now))
  {
    var elapsed := now - e.lastResume;
    ProgressIsForward(elapsed, speed);
    ProgressIsForward(elapsed, e.speed);
    NoProgress(speed);
    NoProgress(e.speed);
    if speed < e.speed {
      ProgressScales(elapsed, speed, e.speed);
    } else if e.speed < speed {
      ProgressScales(elapsed, e.speed, speed);
    }
  }

  /** Stop freezes the clock at its base instead of its reading, so time since the last rebase is
      lost unless there was none. */
  lemma StopKeepsReading(e: State, now: real)
    requires Clocked(e, now)
    ensures CurrentVirtual(Stop(e), now) == CurrentVirtual(e, now) <==>
      e.paused || e.stopped || now == e.lastResume || e.virtualBaseMs == MAX_VIRTUAL
    ensures CurrentVirtual(Stop(e), now) <= CurrentVirtual(e, now)
    ensures Clocked(Stop(e), now)
  {
    ProgressIsForward(now - e.lastResume, e.speed);
  }

  /** Starting an action sets the clock to that action's own time. */
  lemma StartSetsReading(e: State, a: Action, now: real)
    requires 0 <= a.atMs <= MAX_INT64 && !e.paused && !e.stopped
    ensures VirtualTimeMs(CurrentVirtual(StartAction(e, a, now), now)) == a.atMs
  {
    assert now - now == 0.0;
    NoProgress(e.speed);
  }

  /** However far ahead an action is, an engine that runs on gets to it: it is due once the wall time that
      its remaining virtual time takes at the present speed is over, and not before. */
  lemma DueAfterTheWait(e: State, a: Action, now: real, later: real)
    requires Clocked(e, now) && now <= later && !e.paused && !e.stopped && a.atMs <= MAX_INT64
    requires CurrentVirtual(e, now) < MAX_VIRTUAL && a.atMs as real > CurrentVirtual(e, now)
    ensures VirtualTimeMs(CurrentVirtual(e, later)) >= a.atMs <==>
      Progress(later - now, e.speed) >= a.atMs as real - CurrentVirtual(e, now)
  {
    var covered, sofar := Progress(later - now, e.speed), Progress(now - e.lastResume, e.speed);
    ProgressIsForward(later - now, e.speed);
    ProgressIsForward(now - e.lastResume, e.speed);
    ReadingShows(e, now, sofar);
    ProgressAdds(e.lastResume, now, later, e.speed);
    ReadingShows(e, later, sofar + covered);
    GoesOn(e.virtualBaseMs + sofar, covered, CurrentVirtual(e, now), CurrentVirtual(e, later));
    ReachesWhole(CurrentVirtual(e, later), a.atMs);
  }

  lemma GoesOn(value: real, covered: real, reading: real, next: real)
    requires value >= 0.0 && covered >= 0.0 && reading < MAX_VIRTUAL
    requires Shows(reading, value) && Shows(next, value + covered)
    ensures reading == value && Shows(next, reading + covered) && 0.0 <= next <= MAX_VIRTUAL
  {
  }

  lemma ProgressAdds(from: real, now: real, later: real, speed: real)
    ensures Progress(later - from, speed) == Progress(now - from, speed) + Progress(later - now, speed)
  {
  }

  lemma ReachesWhole(value: real, ms: int)
    requires 0.0 <= value <= MAX_VIRTUAL && ms <= MAX_INT64
    ensures VirtualTimeMs(value) >= ms <==> value >= ms as real || ms <= 0
  {
  }

  // ---- over whole runs ----

  predicate HeldBack(m: Machine, n: Machine)
  {
    && n.e.paused && |n.executed| + StartsLeft(n) <= |m.executed| + StartsLeft(m)
    && m.executed <= n.executed && (n.executed == m.executed ==> n.e.virtualBaseMs == m.e.virtualBaseMs)
  }

  lemma PausedRunner(m: Machine, step: RunnerStep)
    requires m.e.paused && RunnerEnabled(m, step)
    ensures HeldBack(m, RunnerNext(m, step))
  {
  }

  lemma PausedStep(m: Machine, step: Step)
    requires m.e.paused && Enabled(m, step) && step != World(ResumeRun)
    ensures HeldBack(m, Next(m, step))
  {
    match step
    case World(_) =>
    case Advance(r) => PausedRunner(m, r);
    case Injecting(x) =>
      var n := InjectionNext(m, x);
      assert n.runner == m.runner && n.executed == m.executed && n.e.paused;
      assert n.e.virtualBaseMs == m.e.virtualBaseMs;
  }

  lemma {:induction false} PausedRun(m: Machine, steps: seq<Step>, end: Machine)
    requires m.e.paused && Run(m, steps, end) && World(ResumeRun) !in steps
    ensures HeldBack(m, end)
    decreases |steps|
  {
    if steps != [] {
      PausedStep(m, steps[0]);
      PausedRun(Next(m, steps[0]), steps[1..], end);
    }
  }

  /** From a pause until the next resume at most the one action starts that had already been waited for, and
      until it does the clock stands where it was, whatever else happens. */
  lemma {:induction false} PauseHolds(m: Machine, steps: seq<Step>, end: Machine)
    requires !m.e.stopped && !m.e.finished && !m.e.paused
    requires Run(Next(m, World(PauseRun)), steps, end) && World(ResumeRun) !in steps
    ensures end.e.paused && |end.executed| <= |m.executed| + 1
    ensures end.executed == m.executed ==> CurrentVirtual(end.e, end.now) == CurrentVirtual(m.e, m.now)
  {
    PausedRun(Next(m, World(PauseRun)), steps, end);
  }


  lemma WorldKeepsClocked(m: Machine, step: WorldStep)
    requires Clocked(m.e, m.now) && WorldEnabled(step)
    ensures Clocked(WorldNext(m, step).e, WorldNext(m, step).now)
  {
    match step
    case PauseRun => PauseAndResumeKeepReading(m.e, m.now);
    case ResumeRun => PauseAndResumeKeepReading(m.e, m.now);
    case ChangeSpeed(speed) => SetSpeedKeepsReading(m.e, speed, m.now);
    case _ =>
  }

  /** Only the start of an action touches the clock. */
  predicate SameClock(e: State, f: State)
  {
    && f.speed == e.speed && f.lastResume == e.lastResume
    && f.virtualBaseMs == e.virtualBaseMs && f.lastActionAt == e.lastActionAt
  }

  lemma RunnerLeavesClock(m: Machine, step: RunnerStep)
    requires RunnerEnabled(m, step) && !step.Begin?
    ensures SameClock(m.e, RunnerNext(m, step).e) && RunnerNext(m, step).now == m.now
  {
    match step
    case Return(result) => ReturnLeavesClock(m, result);
    case Settle => SettleLeavesClock(m);
    case _ =>
  }

  lemma ReturnLeavesClock(m: Machine, result: Result)
    requires m.runner.Acting?
    ensures SameClock(m.e, DoReturn(m, result).e) && DoReturn(m, result).now == m.now
  {
  }

  lemma SettleLeavesClock(m: Machine)
    ensures SameClock(m.e, DoSettle(m).e) && DoSettle(m).now == m.now
  {
  }

  lemma RunnerKeepsClocked(m: Machine, step: RunnerStep)
    requires Clocked(m.e, m.now) && RunnerEnabled(m, step)
    requires m.runner.Popped? ==> 0 <= m.runner.action.atMs <= MAX_INT64
    ensures Clocked(RunnerNext(m, step).e, RunnerNext(m, step).now)
  {
    if !step.Begin? {
      RunnerLeavesClock(m, step);
    }
  }

  lemma InjectionKeepsClocked(m: Machine, step: InjectionStep)
    requires Clocked(m.e, m.now) && InjectionEnabled(m, step)
    ensures Clocked(InjectionNext(m, step).e, InjectionNext(m, step).now)
  {
  }

  lemma StepKeepsClocked(m: Machine, step: Step)
    requires Formed(m) && Clocked(m.e, m.now) && Enabled(m, step)
    ensures Clocked(Next(m, step).e, Next(m, step).now)
  {
    match step
    case World(w) => WorldKeepsClocked(m, w);
    case Advance(r) => RunnerKeepsClocked(m, r);
    case Injecting(x) => InjectionKeepsClocked(m, x);
  }

  lemma {:induction false} RunKeepsClocked(m: Machine, steps: seq<Step>, end: Machine)
    requires Formed(m) && Clocked(m.e, m.now) && Run(m, steps, end)
    ensures Clocked(end.e, end.now)
    decreases |steps|
  {
    if steps != [] {
      StepKeepsFormed(m, steps[0]);
      StepKeepsClocked(m, steps[0]);
      RunKeepsClocked(Next(m, steps[0]), steps[1..], end);
    }
  }

  /** In every reachable state playback speed is positive and virtual time is at least the time of
      the action executed last. */
  lemma VirtualTimeNeverBelowLastAction(start: Machine, steps: seq<Step>, m: Machine)
    requires Reaches(start, steps, m)
    ensures m.e.speed > 0.0
    ensures m.e.lastActionAt <= VirtualTimeMs(CurrentVirtual(m.e, m.now))
  {
    InitiallyFormed(start);
    RunKeepsClocked(start, steps, m);
    ReadingBounds(m.e, m.now);
  }
}
