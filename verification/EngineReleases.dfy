/** Which action releases which command: an outcome always, an acknowledgement exactly when it is refused. */
module EngineReleases {
  import opened Actions
  import opened EngineState
  import opened EngineMachine
  import opened EngineShape
  import opened EngineLifecycle

  /** What a returning action takes out of the set of commands that still wait. */
  lemma ReturnReleases(m: Machine, result: Result)
    requires m.runner.Acting?
    ensures DoReturn(m, result).e.pendingCommands == m.e.pendingCommands -
      match m.runner.action.effect
      case Plain => {}
      case Outcome(c) => {c}
      case Acknowledge(c) => if result.Succeeded? then {} else {c}
  {
  }

  /** The action returned with an error, which its event says or is about to say. */
  ghost predicate Refused(m: Machine, a: Action)
  {
    && a in m.executed && a.seqNo in m.e.eventStates
    && (m.e.eventStates[a.seqNo].status == Status.Failed
        || (m.runner.Returned? && m.runner.action == a && !m.runner.result.Succeeded?))
  }

  ghost predicate RefusalsKnown(m: Machine)
  {
    && (m.runner.Started? || m.runner.Acting? || m.runner.Returned? ==> m.runner.action in m.executed)
    && (forall c | (c, ByRefusedAcknowledge) in m.settled ::
          exists a :: Refused(m, a) && a.effect == Acknowledge(c))
  }

  lemma RefusalStays(m: Machine, n: Machine, a: Action)
    requires Refused(m, a) && a in n.executed && EventsMove(m.e.eventStates, n.e.eventStates)
    requires n.runner == m.runner || !m.runner.Returned?
      || (m.runner.action.seqNo in n.e.eventStates && !m.runner.result.Succeeded?
          && n.e.eventStates[m.runner.action.seqNo].status == Status.Failed)
      || m.runner.result.Succeeded?
    ensures Refused(n, a)
  {
    assert Move(m.e.eventStates[a.seqNo].status, n.e.eventStates[a.seqNo].status);
  }

  lemma RefusalsStay(m: Machine, n: Machine)
    requires RefusalsKnown(m)
    requires forall a | Refused(m, a) :: Refused(n, a)
    requires forall c | (c, ByRefusedAcknowledge) in n.settled && (c, ByRefusedAcknowledge) !in m.settled ::
      exists a :: Refused(n, a) && a.effect == Acknowledge(c)
    requires n.runner.Started? || n.runner.Acting? || n.runner.Returned? ==> n.runner.action in n.executed
    ensures RefusalsKnown(n)
  {
    forall c | (c, ByRefusedAcknowledge) in n.settled ensures exists a :: Refused(n, a) && a.effect == Acknowledge(c) {
      if (c, ByRefusedAcknowledge) in m.settled {
        var a :| Refused(m, a) && a.effect == Acknowledge(c);
        assert Refused(n, a);
      }
    }
  }

  lemma ReturnKeepsRefusals(m: Machine, result: Result)
    requires Tidy(m) && RefusalsKnown(m) && m.runner.Acting?
    ensures RefusalsKnown(DoReturn(m, result))
  {
    var n, a := DoReturn(m, result), m.runner.action;
    ReturnUnmarked(m, result);
    if a.effect.Acknowledge? && !result.Succeeded? {
      assert Refused(n, a);
    }
    RefusalsStay(m, n);
  }

  /** Besides the return of an action only its start and the recording of its failure matter here. */
  lemma PassKeepsRefusals(m: Machine, step: RunnerStep)
    requires Tidy(m) && RefusalsKnown(m) && RunnerEnabled(m, step) && !step.Return? && !step.Settle?
    ensures RefusalsKnown(RunnerNext(m, step))
  {
    var n := RunnerNext(m, step);
    RunnerMovesEvents(m, step);
    PassSettlesNothing(m, step);
    forall a | Refused(m, a) ensures Refused(n, a) {
      RefusalStays(m, n, a);
    }
    RefusalsStay(m, n);
  }

  lemma PassSettlesNothing(m: Machine, step: RunnerStep)
    requires RunnerEnabled(m, step) && !step.Return? && !step.Settle?
    ensures var n := RunnerNext(m, step);
      && n.settled == m.settled && m.executed <= n.executed
      && (n.runner.Started? ==> n.runner.action in n.executed)
      && (n.runner.Acting? ==> m.runner.Started? && n.runner.action == m.runner.action)
      && !n.runner.Returned?
      && (m.runner.Returned? && !m.runner.result.Succeeded? ==>
            step.RecordError? && (m.runner.action.seqNo in n.e.eventStates ==>
              n.e.eventStates[m.runner.action.seqNo].status == Status.Failed))
  {
  }

  lemma SettleKeepsRefusals(m: Machine)
    requires RefusalsKnown(m) && m.runner.Settling?
    ensures RefusalsKnown(DoSettle(m))
  {
    RefusalsStay(m, DoSettle(m));
  }

  lemma InjectionKeepsRefusals(m: Machine, step: InjectionStep)
    requires Flight(m) && RefusalsKnown(m) && InjectionEnabled(m, step)
    ensures RefusalsKnown(InjectionNext(m, step))
  {
    var n := InjectionNext(m, step);
    InjectionMovesEvents(m, step);
    InjectionSettles(m, step);
    forall a | Refused(m, a) ensures Refused(n, a) {
      RefusalStays(m, n, a);
    }
    RefusalsStay(m, n);
  }

  lemma InjectionSettles(m: Machine, step: InjectionStep)
    requires InjectionEnabled(m, step)
    ensures var n := InjectionNext(m, step);
      && n.runner == m.runner && n.executed == m.executed
      && forall c :: (c, ByRefusedAcknowledge) in n.settled <==> (c, ByRefusedAcknowledge) in m.settled
  {
  }

  lemma StepKeepsRefusals(m: Machine, step: Step)
    requires Orderly(m) && RefusalsKnown(m) && Enabled(m, step)
    ensures RefusalsKnown(Next(m, step))
  {
    match step
    case World(w) => RefusalsStay(m, WorldNext(m, w));
    case Advance(r) =>
      if r.Return? {
        ReturnKeepsRefusals(m, r.result);
      } else if r.Settle? {
        SettleKeepsRefusals(m);
      } else {
        PassKeepsRefusals(m, r);
      }
    case Injecting(x) => InjectionKeepsRefusals(m, x);
  }

  lemma {:induction false} RunKeepsRefusals(m: Machine, steps: seq<Step>, end: Machine)
    requires Orderly(m) && RefusalsKnown(m) && Run(m, steps, end)
    ensures RefusalsKnown(end)
    decreases |steps|
  {
    if steps != [] {
      StepKeepsOrderly(m, steps[0]);
      StepKeepsRefusals(m, steps[0]);
      RunKeepsRefusals(Next(m, steps[0]), steps[1..], end);
    }
  }

  /** A command is released by its acknowledgement only if that was executed and returned with an error: its
      event is failed, unless the runner is just about to say so. */
  lemma OnlyRefusalsRelease(start: Machine, steps: seq<Step>, m: Machine, c: string)
    requires Reaches(start, steps, m) && (c, ByRefusedAcknowledge) in m.settled
    ensures exists a :: Refused(m, a) && a.effect == Acknowledge(c)
  {
    InitiallyOrderly(start);
    RunKeepsRefusals(start, steps, m);
  }
}
