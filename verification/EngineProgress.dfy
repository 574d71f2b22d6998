/** How a run goes on and how it ends: a plain failure of an action does not stop it, and nothing but a
    stop, a cancellation, a failing persistence call or a fatal failure ends it before everything that was
    scheduled has been executed. */
module EngineProgress {
  import opened Actions
  import opened EngineState
  import opened EngineMachine
  import opened EngineShape
  import opened EngineLifecycle
  import opened EngineOrder
  import opened EngineDue

  // ---- nothing is lost ----

  /** The action is still to come, or has been taken. */
  predicate Kept(m: Machine, a: Action)
  {
    m.e.nextStatic <= |m.e.timeline| && (a in Remaining(m.e) || a in Taken(m))
  }

  lemma PopKeepsAll(m: Machine, a: Action)
    requires Formed(m) && Kept(m, a) && m.runner.Due?
    ensures Kept(DoPop(m), a)
  {
    var n := DoPop(m);
    if n.runner.Popped? {
      PopTakesOne(m.e, m.runner.action.seqNo);
      assert Taken(n) == Taken(m) + [n.runner.action];
    } else {
      assert Remaining(n.e) == Remaining(m.e) && Taken(n) == Taken(m);
    }
  }

  lemma StepKeepsAll(m: Machine, step: Step, a: Action)
    requires Formed(m) && Kept(m, a) && Enabled(m, step)
    ensures Kept(Next(m, step), a)
  {
    match step
    case World(w) => WorldKeepsAll(m, w, a);
    case Advance(r) =>
      if r.Pop? {
        PopKeepsAll(m, a);
      } else {
        RunnerFrame(m, r);
        TakesNothing(m, r);
        assert Remaining(RunnerNext(m, r).e) == Remaining(m.e);
      }
    case Injecting(x) => InjectionKeepsAll(m, x, a);
  }

  lemma WorldKeepsAll(m: Machine, step: WorldStep, a: Action)
    requires Kept(m, a)
    ensures Kept(WorldNext(m, step), a)
  {
    assert Remaining(WorldNext(m, step).e) == Remaining(m.e) && Taken(WorldNext(m, step)) == Taken(m);
  }

  lemma InjectionKeepsAll(m: Machine, step: InjectionStep, a: Action)
    requires Formed(m) && Kept(m, a) && InjectionEnabled(m, step)
    ensures Kept(InjectionNext(m, step), a)
  {
    if step.Commit? && AcceptsNow(m.e) {
      assert Unused(m.e, InFlight(m.injectors[step.i]));
      CommitKeepsShape(m.e, m.injectors[step.i].actions);
      CommitTakes(m, step.i);
    } else {
      var n := InjectionNext(m, step);
      assert Remaining(n.e) == Remaining(m.e) && Taken(n) == Taken(m);
    }
  }

  // ---- runs that nothing ends early ----

  /** The steps that end a run before its time. */
  predicate Disturbs(step: Step)
  {
    || step == World(StopRun) || step == World(Cancel)
    || (step.Advance? && match step.advance
                         case PersistStart(ok) => !ok
                         case PersistError(ok) => !ok
                         case PersistFinish(ok) => !ok
                         case Return(result) => result.FailedFatal?
                         case _ => false)
  }

  /** Nothing has ended the run early, and it has not been left while anything remained. */
  predicate Undisturbed(m: Machine)
  {
    && !m.e.stopped && !m.cancelled
    && !m.runner.Leaving? && !m.runner.Sweeping? && !m.runner.Settling?
    && (m.runner.Returned? || m.runner.Failing? || m.runner.Finishing? || m.runner.Finished? ==>
          !m.runner.result.FailedFatal?)
    && m.e.nextStatic <= |m.e.timeline|
    && (m.runner.Exited? ==> Remaining(m.e) == [] && m.e.finished)
  }

  lemma RunnerKeepsUndisturbed(m: Machine, step: RunnerStep)
    requires Formed(m) && Undisturbed(m) && RunnerEnabled(m, step) && !Disturbs(Advance(step))
    ensures Undisturbed(RunnerNext(m, step))
  {
    match step
    case Peek =>
      if DoPeek(m).runner.Exited? {
        assert Remaining(DoPeek(m).e) == [];
      }
    case Return(result) => ReturnKeepsUndisturbed(m, result);
    case _ =>
  }

  lemma ReturnKeepsUndisturbed(m: Machine, result: Result)
    requires Undisturbed(m) && m.runner.Acting? && !result.FailedFatal?
    ensures Undisturbed(DoReturn(m, result))
  {
    ReturnFrame(m, result);
  }

  lemma InjectionKeepsUndisturbed(m: Machine, step: InjectionStep)
    requires Undisturbed(m) && InjectionEnabled(m, step)
    ensures Undisturbed(InjectionNext(m, step))
  {
    var n := InjectionNext(m, step);
    assert n.runner == m.runner && n.e.finished == m.e.finished && n.e.stopped == m.e.stopped;
    if m.runner.Exited? {
      assert Remaining(n.e) == Remaining(m.e);
    }
  }

  lemma WorldKeepsUndisturbed(m: Machine, step: WorldStep)
    requires Undisturbed(m) && !Disturbs(World(step))
    ensures Undisturbed(WorldNext(m, step))
  {
    assert Remaining(WorldNext(m, step).e) == Remaining(m.e);
  }

  lemma StepKeepsUndisturbed(m: Machine, step: Step)
    requires Formed(m) && Undisturbed(m) && Enabled(m, step) && !Disturbs(step)
    ensures Undisturbed(Next(m, step))
  {
    match step
    case World(w) => WorldKeepsUndisturbed(m, w);
    case Advance(r) => RunnerKeepsUndisturbed(m, r);
    case Injecting(x) => InjectionKeepsUndisturbed(m, x);
  }

  lemma {:induction false} RunKeepsUndisturbed(m: Machine, steps: seq<Step>, end: Machine)
    requires Formed(m) && Undisturbed(m) && Run(m, steps, end) && forall step | step in steps :: !Disturbs(step)
    ensures Formed(end) && Undisturbed(end)
    ensures forall a | Kept(m, a) :: Kept(end, a)
    decreases |steps|
  {
    if steps != [] {
      StepKeepsFormed(m, steps[0]);
      StepKeepsUndisturbed(m, steps[0]);
      RunKeepsUndisturbed(Next(m, steps[0]), steps[1..], end);
      forall a | Kept(m, a) ensures Kept(end, a) {
        StepKeepsAll(m, steps[0], a);
      }
    }
  }

  /** A run in which nobody stops or cancels, every persistence call succeeds and no action fails fatally is
      never left early, however many of its actions fail. When it has returned it has executed everything
      that was ever scheduled, the timeline and what was committed meanwhile. */
  lemma {:induction false} PlainFailuresDoNotEndARun(start: Machine, before: seq<Step>, m: Machine,
                                                     after: seq<Step>, end: Machine)
    requires Reaches(start, before, m) && Run(m, after, end)
    requires forall step | step in before + after :: !Disturbs(step)
    ensures !end.runner.Leaving? && !end.runner.Sweeping? && !end.runner.Settling?
    ensures end.runner.Exited? ==>
      && (forall a | a in start.e.timeline :: a in end.executed)
      && (forall a | a in m.e.pending :: a in end.executed)
  {
    InitiallyFormed(start);
    assert Remaining(start.e) == start.e.timeline;
    assert forall step | step in before :: step in before + after;
    RunKeepsUndisturbed(start, before, m);
    assert forall step | step in after :: step in before + after;
    RunKeepsUndisturbed(m, after, end);
    if end.runner.Exited? {
      forall a | a in start.e.timeline || a in m.e.pending ensures a in end.executed {
        assert a in start.e.timeline ==> Kept(start, a);
        assert Kept(m, a) && Kept(end, a);
      }
    }
  }

  // ---- failures that do end a run ----

  /** The runner has decided to leave, or will once it has persisted a fatal failure. */
  predicate Doomed(r: Runner)
  {
    || r.Leaving? || r.Sweeping? || r.Settling? || r.Exited?
    || ((r.Returned? || r.Failing? || r.Finishing? || r.Finished?) && r.result.FailedFatal?)
  }

  lemma DoomedStep(m: Machine, step: Step)
    requires Doomed(m.runner) && Enabled(m, step)
    ensures Doomed(Next(m, step).runner) && Next(m, step).executed == m.executed
  {
    if step.Injecting? {
      assert InjectionNext(m, step.injection).runner == m.runner;
    }
  }

  /** After a fatal failure, a failed persistence call, or a wait that was broken off, no action starts. */
  lemma {:induction false} NothingStartsOnceDoomed(m: Machine, steps: seq<Step>, end: Machine)
    requires Doomed(m.runner) && Run(m, steps, end)
    ensures Doomed(end.runner) && end.executed == m.executed
    decreases |steps|
  {
    if steps != [] {
      DoomedStep(m, steps[0]);
      NothingStartsOnceDoomed(Next(m, steps[0]), steps[1..], end);
    }
  }

  /** What dooms a run: the failures that disturb it, and a wait that ends because of a stop or the end of
      the context; an empty queue lets it exit. */
  lemma WhatDooms(m: Machine, step: RunnerStep)
    requires RunnerEnabled(m, step) && !Doomed(m.runner)
    ensures Doomed(RunnerNext(m, step).runner) <==>
      || Disturbs(Advance(step)) || step.WaitAborted?
      || (step.Peek? && m.e.nextStatic >= |m.e.timeline| && m.e.pending == [])
    ensures step.WaitAborted? ==> m.e.stopped || m.cancelled
  {
  }

  // ---- how an action ended ----

  function FinalOf(result: Result): Status
  {
    if result.Succeeded? then Completed else Status.Failed
  }

  /** The action has returned with this result: its event says so, at the latest once it has been counted. */
  ghost predicate EndedAs(m: Machine, a: Action, result: Result, started: seq<Action>)
  {
    && a.seqNo in m.e.eventStates && started <= m.executed
    && (m.executed == started ==> !m.runner.Started? && !m.runner.Acting?)
    && if m.runner.Returned? && m.executed == started
       then m.runner == Returned(a, result) && m.e.eventStates[a.seqNo].status == Running
       else m.e.eventStates[a.seqNo].status == FinalOf(result)
  }

  lemma InjectionKeepsEvents(m: Machine, step: InjectionStep, k: nat)
    requires Flight(m) && InjectionEnabled(m, step) && k in m.e.eventStates
    ensures var n := InjectionNext(m, step);
      && k in n.e.eventStates && n.e.eventStates[k] == m.e.eventStates[k]
      && n.runner == m.runner && n.executed == m.executed
  {
    if step.Persist? || step.Commit? {
      assert Unused(m.e, InFlight(m.injectors[step.i]));
    }
  }

  lemma RunnerKeepsEnding(m: Machine, step: RunnerStep, a: Action, result: Result, started: seq<Action>)
    requires Tidy(m) && EndedAs(m, a, result, started) && RunnerEnabled(m, step)
    ensures EndedAs(RunnerNext(m, step), a, result, started)
  {
    RunnerMovesEvents(m, step);
  }

  lemma StepKeepsEnding(m: Machine, step: Step, a: Action, result: Result, started: seq<Action>)
    requires Orderly(m) && EndedAs(m, a, result, started) && Enabled(m, step)
    ensures EndedAs(Next(m, step), a, result, started)
  {
    match step
    case World(_) =>
    case Advance(r) => RunnerKeepsEnding(m, r, a, result, started);
    case Injecting(x) => InjectionKeepsEvents(m, x, a.seqNo);
  }

  lemma {:induction false} RunKeepsEnding(m: Machine, steps: seq<Step>, end: Machine,
                                          a: Action, result: Result, started: seq<Action>)
    requires Orderly(m) && EndedAs(m, a, result, started) && Run(m, steps, end)
    ensures EndedAs(end, a, result, started)
    decreases |steps|
  {
    if steps != [] {
      StepKeepsOrderly(m, steps[0]);
      StepKeepsEnding(m, steps[0], a, result, started);
      RunKeepsEnding(Next(m, steps[0]), steps[1..], end, a, result, started);
    }
  }

  lemma ReturnIsNotMarked(m: Machine, result: Result)
    requires Tidy(m) && m.runner.Acting? && RunnerEnabled(m, Return(result))
    ensures EndedAs(DoReturn(m, result), m.runner.action, result, m.executed)
  {
    ReturnUnmarked(m, result);
  }

  /** Once an action has returned, its event tells how, for good: completed if it returned without an error,
      failed if with one, and running only as long as the runner has not got to marking it. */
  lemma {:induction false} OutcomeIsRecorded(start: Machine, before: seq<Step>, m: Machine, result: Result,
                                             after: seq<Step>, end: Machine)
    requires Reaches(start, before, m) && m.runner.Acting?
    requires Enabled(m, Advance(Return(result))) && Run(Next(m, Advance(Return(result))), after, end)
    ensures var a := m.runner.action;
      && a.seqNo in end.e.eventStates
      && end.e.eventStates[a.seqNo].status
         == if end.runner == Returned(a, result) && end.executed == m.executed then Running
            else if result.Succeeded? then Completed else Status.Failed
  {
    InitiallyOrderly(start);
    RunKeepsOrderly(start, before, m);
    ReturnIsNotMarked(m, result);
    StepKeepsOrderly(m, Advance(Return(result)));
    RunKeepsEnding(Next(m, Advance(Return(result))), after, end, m.runner.action, result, m.executed);
  }
}
