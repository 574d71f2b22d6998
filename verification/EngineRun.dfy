/** The run loop as code, over an engine object that operators and command injections change between any
    two of its sections. Whatever they do, the object only reaches machines of the transition system. */
module EngineRun {
  import opened Actions
  import opened EngineState
  import opened EngineMachine
  import EngineLifecycle
  import E = Engine

  /** What others do before a section of the runner, and how its persistence call or action comes back. */
  datatype Turn = Turn(others: seq<Step>, ok: bool, result: Result)

  lemma {:induction false} RunAppend(m: Machine, steps: seq<Step>, mid: Machine, step: Step)
    requires Run(m, steps, mid) && Enabled(mid, step)
    ensures Run(m, steps + [step], Next(mid, step))
    decreases |steps|
  {
    if steps == [] {
      assert steps + [step] == [step] && [step][1..] == [];
    } else {
      assert (steps + [step])[1..] == steps[1..] + [step];
      RunAppend(Next(m, steps[0]), steps[1..], mid, step);
    }
  }

  /** A machine from which a run may start. */
  type FreshMachine = m: Machine | Initial(m) ghost witness
    Machine(State(false, false, 1.0, 0.0, 0.0, [], 0, [], false, 0, 0, {}, 0, 0, map[]),
            0.0, false, Idle, [], [], {}, {}, {})

  class ScenarioRun {
    const engine: E.Engine
    const schedule: nat -> Turn
    var turns: nat
    var now: real
    var cancelled: bool
    var runner: Runner
    var injectors: seq<Injector>
    var executed: seq<Action>
    var late: set<nat>
    var tracked: set<string>
    var settled: set<(string, Release)>
    ghost const start: FreshMachine
    ghost var trace: seq<Step>

    function View(): Machine
      reads this, engine
    {
      Machine(engine.View(), now, cancelled, runner, injectors, executed, late, tracked, settled)
    }

    ghost predicate Valid()
      reads this, engine
    {
      EngineMachine.Run(start, trace, View())
    }

    /** The start of run, after lastResume has been set. */
    constructor (engine: E.Engine, now: real, schedule: nat -> Turn)
      requires Built(engine.View()) && engine.lastResume == now
      ensures Valid() && runner == Idle && this.engine == engine && this.schedule == schedule
    {
      this.engine, this.schedule := engine, schedule;
      turns, this.now, cancelled, runner, injectors := 0, now, false, Idle, [];
      executed, late, tracked, settled := [], {}, {}, {};
      start := Machine(engine.View(), now, false, Idle, [], [], {}, {}, {});
      trace := [];
    }

    ghost method Did(before: Machine, step: Step)
      requires EngineMachine.Run(start, trace, before) && Enabled(before, step) && View() == Next(before, step)
      modifies this`trace
      ensures Valid()
    {
      RunAppend(start, trace, before, step);
      trace := trace + [step];
    }

    // ---- others ----

    method Operate(step: WorldStep)
      requires WorldEnabled(step)
      modifies this`now, this`cancelled, engine
      ensures View() == WorldNext(old(View()), step)
    {
      match step
      case Tick(elapsed) => now := now + elapsed;
      case Cancel => cancelled := true;
      case PauseRun => engine.Pause(now);
      case ResumeRun => engine.Resume(now);
      case ChangeSpeed(speed) => engine.SetSpeed(speed, now);
      case StopRun => engine.Stop();
    }

    method Untrack(command: string, how: Release)
      modifies this`settled, engine
      ensures View() == Settled(old(View()), command, how)
    {
      if command in engine.pendingCommands {
        settled := settled + {(command, how)};
      }
      engine.UntrackCommand(command);
    }

    /** One section of simulateCommand and of the admission it asks for. */
    method Inject(step: InjectionStep)
      requires InjectionEnabled(View(), step)
      modifies this`injectors, this`late, this`tracked, this`settled, engine
      ensures View() == InjectionNext(old(View()), step)
    {
      match step
      case Inject(command, inner, batch) =>
        if command != "" {
          tracked := tracked + {command};
        }
        engine.TrackCommand(command);
        injectors := injectors + [Tracked(command, inner, batch)];
      case Admit(i) => AdmitOne(i);
      case Persist(i, ok) =>
        var j := injectors[i];
        if ok {
          injectors := injectors[i := Persisted(j.command, j.inner, j.actions)];
        } else {
          engine.DropBatch(j.actions);
          injectors := injectors[i := Declined(j.command, j.inner)];
        }
      case Commit(i) => CommitOne(i);
      case GiveUp(i) =>
        var j := injectors[i];
        Untrack(j.command, ByFail);
        injectors := injectors[i := Closed(j.command, j.inner)];
    }

    method AdmitOne(i: nat)
      requires i < |injectors| && injectors[i].Tracked?
      modifies this`injectors, engine
      ensures View() == DoAdmit(old(View()), i)
    {
      var j := injectors[i];
      var admission := engine.Reserve(j.batch, j.inner, now);
      match admission
      case Nothing => injectors := injectors[i := Closed(j.command, j.inner)];
      case Refused(_) => injectors := injectors[i := Declined(j.command, j.inner)];
      case Reserved(actions) => injectors := injectors[i := Held(j.command, j.inner, actions)];
    }

    method CommitOne(i: nat)
      requires i < |injectors| && injectors[i].Persisted?
      modifies this`injectors, this`late, engine
      ensures View() == DoCommit(old(View()), i)
    {
      var j := injectors[i];
      var behind := LateNumbers(View(), j.actions);
      var accepted := engine.CommitBatch(j.actions);
      if accepted {
        late := late + behind;
        injectors := injectors[i := Closed(j.command, j.inner)];
      } else {
        injectors := injectors[i := Declined(j.command, j.inner)];
      }
    }

    method Other(step: Step)
      requires Valid() && Enabled(View(), step) && !step.Advance?
      modifies this, engine
      ensures Valid() && runner == old(runner)
    {
      ghost var before := View();
      match step {
        case World(w) => Operate(w);
        case Injecting(x) => Inject(x);
      }
      Did(before, step);
    }

    /** Everything others do before the next section of the runner. */
    method Yield() returns (turn: Turn)
      requires Valid()
      modifies this, engine
      ensures Valid() && runner == old(runner)
    {
      turn := schedule(turns);
      turns := turns + 1;
      for k := 0 to |turn.others|
        invariant Valid() && runner == old(runner)
      {
        var step := turn.others[k];
        if !step.Advance? && Enabled(View(), step) {
          Other(step);
        }
      }
    }

    // ---- the runner ----

    method Peek()
      requires Valid() && runner == Idle
      modifies this, engine
      ensures Valid() && (runner == Exited || runner.Waiting?)
    {
      var _ := Yield();
      ghost var before := View();
      var next := engine.PeekNext();
      runner := if next.None? then Exited else Waiting(next.value);
      Did(before, Advance(RunnerStep.Peek));
    }

    /** waitUntil: paces until the action is due, or the run is stopped or cancelled. Gives back how many
        more looks are left; the wait goes on when there are none. */
    method WaitUntil(looks: nat) returns (left: nat)
      requires Valid() && runner.Waiting?
      modifies this, engine
      ensures Valid() && left <= looks
      ensures runner == old(runner) || runner == Due(old(runner).action) || runner == Leaving
      ensures runner.Due? ==> WaitOver(View(), old(runner).action)
      ensures runner == Leaving ==> engine.stopped || cancelled
      ensures runner.Waiting? ==> left == 0
    {
      left := looks;
      while left > 0
        invariant Valid() && runner == old(runner) && left <= looks
      {
        left := left - 1;
        var _ := Yield();
        ghost var before := View();
        if engine.stopped {
          runner := Leaving;
          Did(before, Advance(WaitAborted));
          return;
        }
        if !engine.paused && VirtualTimeMs(CurrentVirtual(engine.View(), now)) >= runner.action.atMs {
          runner := Due(runner.action);
          Did(before, Advance(WaitDone));
          return;
        }
        if cancelled {
          runner := Leaving;
          Did(before, Advance(WaitAborted));
          return;
        }
      }
    }

    method Pop()
      requires Valid() && runner.Due?
      modifies this, engine
      ensures Valid() && (runner == Idle || runner.Popped?)
    {
      var _ := Yield();
      ghost var before := View();
      var popped := engine.PopNext(runner.action.seqNo);
      runner := if popped.None? then Idle else Popped(popped.value);
      Did(before, Advance(RunnerStep.Pop));
    }

    /** Marks the action running and persists that. */
    method Begin()
      requires Valid() && runner.Popped?
      modifies this, engine
      ensures Valid() && (runner == Leaving || runner.Acting?)
    {
      var _ := Yield();
      ghost var before := View();
      var a := runner.action;
      engine.StartAction(a, now);
      executed := executed + [a];
      runner := Started(a);
      Did(before, Advance(RunnerStep.Begin));
      PersistedStart();
    }

    method PersistedStart()
      requires Valid() && runner.Started?
      modifies this, engine
      ensures Valid() && (runner == Leaving || runner.Acting?)
    {
      var turn := Yield();
      ghost var before := View();
      runner := if turn.ok then Acting(runner.action) else Leaving;
      Did(before, Advance(PersistStart(turn.ok)));
    }

    /** The action runs until every injection made from inside it has come to its end. */
    method Act(looks: nat) returns (left: nat)
      requires Valid() && runner.Acting?
      modifies this, engine
      ensures Valid() && left <= looks && (runner == old(runner) || runner.Returned?)
      ensures runner.Acting? ==> left == 0
    {
      left := looks;
      while left > 0
        invariant Valid() && runner == old(runner) && left <= looks
      {
        left := left - 1;
        var turn := Yield();
        if forall i | 0 <= i < |injectors| :: !OpenInner(injectors[i]) {
          Return(turn.result);
          return;
        }
      }
    }

    /** The action's own effect on the tracked commands, as it returns. */
    method Return(result: Result)
      requires Valid() && RunnerEnabled(View(), RunnerStep.Return(result))
      modifies this, engine
      ensures Valid() && runner == Returned(old(runner).action, result)
    {
      ghost var before := View();
      Affect(runner.action.effect, result);
      runner := Returned(runner.action, result);
      Did(before, Advance(RunnerStep.Return(result)));
    }

    method Affect(effect: Effect, result: Result)
      modifies this`settled, engine
      ensures View() == Effects(old(View()), effect, result)
    {
      match effect {
        case Plain =>
        case Outcome(command) => Untrack(command, ByOutcome);
        case Acknowledge(command) =>
          if !result.Succeeded? {
            Untrack(command, ByRefusedAcknowledge);
          }
      }
    }

    /** Records a failure, where there is one, and persists it. */
    method Outcome()
      requires Valid() && runner.Returned?
      modifies this, engine
      ensures Valid() && (runner == Leaving || runner.Finishing? || (runner.Returned? && runner.result.Succeeded?))
    {
      if runner.result.Succeeded? {
        return;
      }
      var turn := Yield();
      ghost var before := View();
      engine.RecordFailure(runner.action);
      runner := Failing(runner.action, runner.result);
      Did(before, Advance(RecordError));
      turn := Yield();
      before := View();
      runner := if turn.ok then Finishing(runner.action, runner.result) else Leaving;
      Did(before, Advance(PersistError(turn.ok)));
    }

    /** Counts the action, persists outcome and cursor, and decides whether to go on. */
    method Finish()
      requires Valid() && (runner.Finishing? || (runner.Returned? && runner.result.Succeeded?))
      modifies this, engine
      ensures Valid() && (runner == Idle || runner == Leaving)
    {
      var _ := Yield();
      ghost var before := View();
      engine.FinishAction(runner.action);
      runner := Finished(runner.action, runner.result);
      Did(before, Advance(RunnerStep.Finish));
      PersistedFinish();
    }

    method PersistedFinish()
      requires Valid() && runner.Finished?
      modifies this, engine
      ensures Valid() && (runner == Idle || runner == Leaving)
    {
      var turn := Yield();
      ghost var before := View();
      runner := if turn.ok && !runner.result.FailedFatal? then Idle else Leaving;
      Did(before, Advance(PersistFinish(turn.ok)));
    }

    /** markFinished, skipPending and failPendingCommands, on every way out but a drained timeline. */
    method Leave()
      requires Valid() && runner == Leaving
      modifies this, engine
      ensures Valid() && runner == Exited && engine.pendingCommands == {}
      ensures engine.finished && forall n | n in engine.eventStates :: !Open(engine.eventStates[n].status)
    {
      MarkEnded();
      SweepEvents();
      SettleCommands();
      EngineLifecycle.ExitLeavesNothingOpen(start, trace, View());
    }

    method MarkEnded()
      requires Valid() && runner == Leaving
      modifies this, engine
      ensures Valid() && runner == Sweeping
    {
      var _ := Yield();
      ghost var before := View();
      engine.MarkFinished();
      runner := Sweeping;
      Did(before, Advance(MarkEnd));
    }

    method SweepEvents()
      requires Valid() && runner == Sweeping
      modifies this, engine
      ensures Valid() && runner == Settling
    {
      var _ := Yield();
      ghost var before := View();
      engine.SkipPending();
      runner := Settling;
      Did(before, Advance(Sweep));
    }

    method SettleCommands()
      requires Valid() && runner == Settling
      modifies this, engine
      ensures Valid() && runner == Exited && engine.pendingCommands == {}
    {
      var _ := Yield();
      ghost var before := View();
      FailAll();
      Did(before, Advance(Settle));
    }

    /** failPendingCommands: every tracked command is taken and failed. */
    method FailAll()
      requires runner == Settling
      modifies this`settled, this`runner, engine
      ensures View() == DoSettle(old(View()))
    {
      settled := settled + set c | c in engine.pendingCommands :: (c, ByFail);
      var _ := engine.TakeCommands();
      runner := Exited;
    }

    /** One round of the loop, from the selection of an action to its outcome. */
    method Round(looks: nat) returns (left: nat)
      requires Valid() && runner == Idle
      modifies this, engine
      ensures Valid() && left <= looks
      ensures left > 0 ==> runner in {Idle, Leaving, Exited}
    {
      left := looks;
      Peek();
      if runner == Exited || left == 0 {
        return;
      }
      left := WaitUntil(left);
      if !runner.Due? {
        left := if runner == Leaving then left else 0;
        return;
      }
      Pop();
      if runner == Idle {
        return;
      }
      Begin();
      if runner == Leaving {
        return;
      }
      left := Act(left);
      if !runner.Returned? {
        left := 0;
        return;
      }
      Outcome();
      if runner != Leaving {
        Finish();
      }
    }

    /** run. When it returns, nothing is left pending or running and the engine is finished; it may also
        still be at work when the looks it was given are used up. */
    method Run(looks: nat) returns (exited: bool)
      requires Valid() && runner == Idle
      modifies this, engine
      ensures Valid() && (exited ==> runner == Exited)
      ensures exited ==> engine.finished && forall n | n in engine.eventStates :: !Open(engine.eventStates[n].status)
    {
      var left := looks;
      while left > 0 && runner == Idle
        invariant Valid() && (left > 0 ==> runner in {Idle, Leaving, Exited})
        decreases left
      {
        var before := left;
        left := Round(left);
        if left == before {
          left := left - 1;
        }
      }
      if runner == Leaving {
        Leave();
      }
      exited := runner == Exited;
      if exited {
        EngineLifecycle.ExitLeavesNothingOpen(start, trace, View());
      }
    }
  }
}
