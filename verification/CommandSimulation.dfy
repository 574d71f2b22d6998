/** How a scenario simulates its assets' answers to commands: the check made when the scenario is
    loaded, the batch that is scheduled, and that in every run a command completes after it has been
    acknowledged. */
module CommandSimulation {
  import opened Actions
  import opened EngineState
  import opened Options
  import opened EngineMachine
  import opened EngineShape
  import opened EngineOrder

  const DEFAULT_ACK_DELAY_MS: int := 3000
  const DEFAULT_COMPLETE_DELAY_MS: int := 5000

  const COMPLETE := "command.complete"

  /** The two delays are whole milliseconds, zero when the scenario leaves them out. */
  datatype Simulation = Simulation(behavior: string, acknowledgeAfterMs: int, completeAfterMs: int)

  predicate Normal(s: Simulation)
  {
    s.behavior == "" || s.behavior == "normal"
  }

  function OrDefault(ms: int, default: int): int
  {
    if ms == 0 then default else ms
  }

  predicate Validates(s: Simulation)
  {
    && s.behavior in {"", "normal", "reject", "fail", "timeout"}
    && s.acknowledgeAfterMs >= 0 && s.completeAfterMs >= 0
    && (Normal(s) ==>
          OrDefault(s.acknowledgeAfterMs, DEFAULT_ACK_DELAY_MS)
          <= OrDefault(s.completeAfterMs, DEFAULT_COMPLETE_DELAY_MS))
  }

  function Delay(ms: int, default: int): int
  {
    if ms > 0 then ms else default
  }

  /** What simulateCommand schedules for one command. */
  function Batch(simulation: Option<Simulation>, command: string): seq<DynamicAction>
  {
    var behavior := if simulation.Some? && simulation.value.behavior != "" then simulation.value.behavior else "normal";
    var ack := if simulation.Some? then Delay(simulation.value.acknowledgeAfterMs, DEFAULT_ACK_DELAY_MS)
               else DEFAULT_ACK_DELAY_MS;
    var complete := if simulation.Some? then Delay(simulation.value.completeAfterMs, DEFAULT_COMPLETE_DELAY_MS)
                    else DEFAULT_COMPLETE_DELAY_MS;
    if behavior == "reject" then [DynamicAction(ack, "command.reject", Outcome(command))]
    else if behavior == "fail" then [DynamicAction(ack, "command.fail", Outcome(command))]
    else if behavior == "timeout" then [DynamicAction(complete, "command.timeout", Outcome(command))]
    else [DynamicAction(ack, "command.acknowledge", Acknowledge(command)),
          DynamicAction(complete, COMPLETE, Outcome(command))]
  }

  /** A validated simulation always schedules a batch the engine accepts the shape of, and its
      acknowledgement is never due after its completion. */
  lemma ValidBatch(simulation: Option<Simulation>, command: string)
    requires simulation.Some? ==> Validates(simulation.value)
    ensures var batch := Batch(simulation, command);
      && CommandBatch(command, batch)
      && (forall i | 0 <= i < |batch| :: batch[i].delayMs > 0)
      && (|batch| == 2 <==> simulation.None? || Normal(simulation.value))
      && (|batch| == 2 ==> batch[0].delayMs <= batch[1].delayMs)
  {
  }

  /** What the asset answers under each behaviour, and when: a delay that is not given is three seconds up to
      the first answer and five up to the end. */
  lemma AnswersByBehavior(s: Simulation, command: string)
    ensures Batch(None, command) == [DynamicAction(3000, "command.acknowledge", Acknowledge(command)),
                                     DynamicAction(5000, "command.complete", Outcome(command))]
    ensures var batch := Batch(Some(s), command);
      var ack := if s.acknowledgeAfterMs > 0 then s.acknowledgeAfterMs else 3000;
      var end := if s.completeAfterMs > 0 then s.completeAfterMs else 5000;
      && (s.behavior == "reject" ==> batch == [DynamicAction(ack, "command.reject", Outcome(command))])
      && (s.behavior == "fail" ==> batch == [DynamicAction(ack, "command.fail", Outcome(command))])
      && (s.behavior == "timeout" ==> batch == [DynamicAction(end, "command.timeout", Outcome(command))])
      && (s.behavior == "" || s.behavior == "normal" ==>
            batch == [DynamicAction(ack, "command.acknowledge", Acknowledge(command)),
                      DynamicAction(end, "command.complete", Outcome(command))])
  {
  }

  /** The check when a scenario is loaded refuses a known behaviour with proper delays exactly when it would
      complete a command before acknowledging it. */
  lemma RefusedExactlyWhenOutOfOrder(s: Simulation, command: string)
    requires s.behavior in {"", "normal", "reject", "fail", "timeout"}
    requires s.acknowledgeAfterMs >= 0 && s.completeAfterMs >= 0
    ensures var batch := Batch(Some(s), command);
      !Validates(s) <==> |batch| == 2 && batch[1].delayMs < batch[0].delayMs
  {
  }

  /** A command completes, as opposed to being rejected, failed or timed out. */
  predicate Completes(y: Action)
  {
    y.effect.Outcome? && y.name == COMPLETE
  }

  /** The acknowledgement stamped together with a completion: the same command, the number before. */
  predicate Acknowledges(x: Action, y: Action)
  {
    && y.effect.Outcome? && x.effect == Acknowledge(y.effect.command)
    && x.seqNo + 1 == y.seqNo && x.atMs <= y.atMs
  }

  /** What a validated scenario schedules for a command. */
  ghost predicate Scheduled(command: string, batch: seq<DynamicAction>)
  {
    exists s: Option<Simulation> :: (s.Some? ==> Validates(s.value)) && batch == Batch(s, command)
  }

  /** Every completion of the list has its acknowledgement in it. */
  ghost predicate Paired(actions: seq<Action>)
  {
    forall y | y in actions && Completes(y) :: exists x :: x in actions && Acknowledges(x, y)
  }

  /** Stamped together, the acknowledgement precedes the completion in execution order. */
  lemma StampedInOrder(base: int, after: nat, command: string, batch: seq<DynamicAction>)
    requires Scheduled(command, batch)
    ensures Paired(Stamp(base, after, batch))
    ensures |batch| == 2 ==> Before(Stamp(base, after, batch)[0], Stamp(base, after, batch)[1])
  {
    var s: Option<Simulation> :| (s.Some? ==> Validates(s.value)) && batch == Batch(s, command);
    ValidBatch(s, command);
    var actions := Stamp(base, after, batch);
    forall y | y in actions && Completes(y) ensures exists x :: x in actions && Acknowledges(x, y) {
      assert y == actions[1] && Acknowledges(actions[0], y);
      assert actions[0] in actions;
    }
  }

  // ---- in every run ----

  /** Commands are only ever simulated as a validated scenario says. */
  ghost predicate Simulated(step: Step)
  {
    step.Injecting? && step.injection.Inject? ==> Scheduled(step.injection.command, step.injection.batch)
  }

  ghost predicate Carries(j: Injector)
  {
    && (j.Tracked? ==> Scheduled(j.command, j.batch))
    && Paired(InFlight(j))
  }

  /** A queued completion has its acknowledgement queued as well, or taken. */
  ghost predicate QueuePaired(m: Machine)
  {
    forall y | y in m.e.pending && Completes(y) ::
      exists x :: (x in m.e.pending || x in Taken(m)) && Acknowledges(x, y)
  }

  /** A completion among those taken comes after its acknowledgement. */
  ghost predicate Acknowledged(taken: seq<Action>, j: nat)
    requires j < |taken|
  {
    exists i :: 0 <= i < j && Acknowledges(taken[i], taken[j])
  }

  ghost predicate TakenPaired(taken: seq<Action>)
  {
    forall j | 0 <= j < |taken| && Completes(taken[j]) :: Acknowledged(taken, j)
  }

  ghost predicate Answered(m: Machine)
  {
    && (forall a | a in m.e.timeline :: a.effect == Plain)
    && (forall i | 0 <= i < |m.injectors| :: Carries(m.injectors[i]))
    && QueuePaired(m) && TakenPaired(Taken(m))
  }

  lemma TakenGrows(m: Machine, r: RunnerStep)
    requires RunnerEnabled(m, r) && !r.Pop?
    ensures Taken(RunnerNext(m, r)) == Taken(m)
  {
  }

  /** Sections that take nothing, queue nothing and reserve nothing. */
  lemma SameActions(m: Machine, n: Machine)
    requires Answered(m) && Taken(n) == Taken(m)
    requires n.e.timeline == m.e.timeline && n.e.pending == m.e.pending
    requires forall i | 0 <= i < |n.injectors| :: Carries(n.injectors[i])
    ensures Answered(n)
  {
    forall y | y in n.e.pending && Completes(y)
      ensures exists x :: (x in n.e.pending || x in Taken(n)) && Acknowledges(x, y)
    {
      assert y in m.e.pending;
    }
  }

  lemma TakenPairedSnoc(taken: seq<Action>, a: Action)
    requires TakenPaired(taken)
    requires Completes(a) ==> exists x :: x in taken && Acknowledges(x, a)
    ensures TakenPaired(taken + [a])
  {
    var next := taken + [a];
    forall j | 0 <= j < |next| && Completes(next[j]) ensures Acknowledged(next, j) {
      if j < |taken| {
        assert Acknowledged(taken, j);
        var i :| 0 <= i < j && Acknowledges(taken[i], taken[j]);
        assert Acknowledges(next[i], next[j]);
      } else {
        var x :| x in taken && Acknowledges(x, a);
        var i :| 0 <= i < |taken| && taken[i] == x;
        assert Acknowledges(next[i], next[j]);
      }
    }
  }

  /** The head of the queue is a completion only when its acknowledgement has been taken before. */
  lemma HeadWasAcknowledged(m: Machine)
    requires Shape(m.e) && QueuePaired(m) && m.e.pending != [] && Completes(m.e.pending[0])
    ensures exists x :: x in Taken(m) && Acknowledges(x, m.e.pending[0])
  {
    var y := m.e.pending[0];
    var x :| (x in m.e.pending || x in Taken(m)) && Acknowledges(x, y);
    if x in m.e.pending {
      HeadIsFirst(m.e.pending, x);
      assert false;
    }
  }

  lemma HeadIsFirst(s: seq<Action>, x: Action)
    requires Ordered(s) && x in s
    ensures x == s[0] || Before(s[0], x)
  {
    OrderedHeadFirst(s);
    assert s == [s[0]] + s[1..];
  }

  lemma PopKeepsQueuePaired(m: Machine)
    requires QueuePaired(m) && m.runner.Due? && DoPop(m).runner.Popped?
    ensures QueuePaired(DoPop(m))
  {
    var n := DoPop(m);
    var a := n.runner.action;
    assert Taken(n) == Taken(m) + [a];
    forall y | y in n.e.pending && Completes(y)
      ensures exists x :: (x in n.e.pending || x in Taken(n)) && Acknowledges(x, y)
    {
      assert y in m.e.pending;
      var x :| (x in m.e.pending || x in Taken(m)) && Acknowledges(x, y);
      assert x in n.e.pending || x in Taken(n);
    }
  }

  lemma PopKeepsAnswered(m: Machine)
    requires Shape(m.e) && Answered(m) && m.runner.Due?
    ensures Answered(DoPop(m))
  {
    var n := DoPop(m);
    if n.runner.Popped? {
      var a := n.runner.action;
      PopKeepsQueuePaired(m);
      if Completes(a) {
        HeadWasAcknowledged(m);
      }
      TakenPairedSnoc(Taken(m), a);
      assert Taken(n) == Taken(m) + [a];
    } else {
      SameActions(m, n);
    }
  }

  lemma CommitKeepsQueuePaired(m: Machine, i: nat)
    requires QueuePaired(m) && InjectionEnabled(m, Commit(i)) && AcceptsNow(m.e) && Paired(m.injectors[i].actions)
    ensures QueuePaired(DoCommit(m, i))
  {
    var n, actions := DoCommit(m, i), m.injectors[i].actions;
    assert forall a :: a in n.e.pending <==> a in m.e.pending || a in actions by {
      assert forall a :: a in m.e.pending + actions <==> a in m.e.pending || a in actions;
    }
    assert Taken(n) == Taken(m);
    forall y | y in n.e.pending && Completes(y)
      ensures exists x :: (x in n.e.pending || x in Taken(n)) && Acknowledges(x, y)
    {
      if y in actions {
        var x :| x in actions && Acknowledges(x, y);
        assert x in n.e.pending;
      } else {
        var x :| (x in m.e.pending || x in Taken(m)) && Acknowledges(x, y);
        assert x in n.e.pending || x in Taken(n);
      }
    }
  }

  lemma CommitKeepsAnswered(m: Machine, i: nat)
    requires Answered(m) && InjectionEnabled(m, Commit(i))
    ensures Answered(DoCommit(m, i))
  {
    var n := DoCommit(m, i);
    assert Carries(m.injectors[i]) && InFlight(m.injectors[i]) == m.injectors[i].actions;
    CommitTakesNothing(m, i);
    forall k | 0 <= k < |n.injectors| ensures Carries(n.injectors[k]) {
      assert Carries(m.injectors[k]);
    }
    if AcceptsNow(m.e) {
      CommitKeepsQueuePaired(m, i);
    } else {
      SameActions(m, n);
    }
  }

  lemma CommitTakesNothing(m: Machine, i: nat)
    requires InjectionEnabled(m, Commit(i))
    ensures var n := DoCommit(m, i);
      && Taken(n) == Taken(m) && n.e.timeline == m.e.timeline && (!AcceptsNow(m.e) ==> n.e.pending == m.e.pending)
      && |n.injectors| == |m.injectors| && InFlight(n.injectors[i]) == [] && !n.injectors[i].Tracked?
      && forall k | 0 <= k < |m.injectors| && k != i :: n.injectors[k] == m.injectors[k]
  {
  }

  lemma AdmitCarries(m: Machine, i: nat)
    requires InjectionEnabled(m, Admit(i)) && Carries(m.injectors[i])
    ensures Carries(DoAdmit(m, i).injectors[i])
  {
    var j := m.injectors[i];
    StampedInOrder(Anchor(m.e, j.inner, m.now), m.e.nextSeq, j.command, j.batch);
  }

  /** The one injection a section changes still carries what it should. */
  lemma ChangedCarries(m: Machine, step: InjectionStep)
    requires Answered(m) && InjectionEnabled(m, step) && Simulated(Injecting(step)) && !step.Commit?
    ensures forall k | 0 <= k < |InjectionNext(m, step).injectors| :: Carries(InjectionNext(m, step).injectors[k])
  {
    var n := InjectionNext(m, step);
    if step.Admit? {
      AdmitCarries(m, step.i);
    }
    forall k | 0 <= k < |n.injectors| ensures Carries(n.injectors[k]) {
      if k < |m.injectors| {
        assert Carries(m.injectors[k]);
      }
    }
  }

  lemma InjectionTakesNothing(m: Machine, step: InjectionStep)
    requires InjectionEnabled(m, step) && !step.Commit?
    ensures var n := InjectionNext(m, step);
      n.runner == m.runner && n.executed == m.executed && n.e.timeline == m.e.timeline && n.e.pending == m.e.pending
  {
  }

  lemma InjectionKeepsAnswered(m: Machine, step: InjectionStep)
    requires Answered(m) && InjectionEnabled(m, step) && Simulated(Injecting(step))
    ensures Answered(InjectionNext(m, step))
  {
    if step.Commit? {
      CommitKeepsAnswered(m, step.i);
    } else {
      ChangedCarries(m, step);
      InjectionTakesNothing(m, step);
      SameActions(m, InjectionNext(m, step));
    }
  }

  lemma StepKeepsAnswered(m: Machine, step: Step)
    requires Formed(m) && Answered(m) && Enabled(m, step) && Simulated(step)
    ensures Answered(Next(m, step))
  {
    match step
    case World(w) => SameActions(m, WorldNext(m, w));
    case Advance(r) =>
      if r.Pop? {
        PopKeepsAnswered(m);
      } else {
        RunnerFrame(m, r);
        TakenGrows(m, r);
        SameActions(m, RunnerNext(m, r));
      }
    case Injecting(x) => InjectionKeepsAnswered(m, x);
  }

  lemma {:induction false} RunKeepsAnswered(m: Machine, steps: seq<Step>, end: Machine)
    requires Formed(m) && Answered(m) && Run(m, steps, end) && forall step | step in steps :: Simulated(step)
    ensures Answered(end)
    decreases |steps|
  {
    if steps != [] {
      StepKeepsFormed(m, steps[0]);
      StepKeepsAnswered(m, steps[0]);
      RunKeepsAnswered(Next(m, steps[0]), steps[1..], end);
    }
  }

  /** In every run of a validated scenario, whatever interleaves, a completion is only ever taken after
      the acknowledgement it was scheduled with. */
  lemma AcknowledgePrecedesComplete(start: Machine, steps: seq<Step>, m: Machine, j: nat)
    requires Reaches(start, steps, m) && forall step | step in steps :: Simulated(step)
    requires j < |Taken(m)| && Completes(Taken(m)[j])
    ensures exists i :: 0 <= i < j && Acknowledges(Taken(m)[i], Taken(m)[j])
  {
    InitiallyFormed(start);
    RunKeepsAnswered(start, steps, m);
    assert Acknowledged(Taken(m), j);
  }
}
