/** Every simulated command gets an outcome: it leaves the tracked set through an executed outcome
    action, a refused acknowledgement or a Fail call, whatever interleaves with the shutdown. */
module EngineCommands {
  import opened Actions
  import opened EngineState
  import opened EngineMachine
  import opened EngineShape
  import opened EngineLifecycle

  /** Some action of the list will release the command when it runs. */
  ghost predicate Promised(actions: seq<Action>, command: string)
  {
    exists a :: a in actions && a.effect == Outcome(command)
  }

  ghost predicate Injected(m: Machine, command: string)
  {
    exists i :: 0 <= i < |m.injectors| && !m.injectors[i].Closed? && m.injectors[i].command == command
  }

  predicate InHandOutcome(r: Runner, command: string)
  {
    (r.Popped? || r.Started? || r.Acting?) && r.action.effect == Outcome(command)
  }

  predicate Abandoning(r: Runner)
  {
    r.Leaving? || r.Sweeping? || r.Settling?
  }

  /** An injection carries a batch that ends in an outcome for its own command. */
  ghost predicate Carries(j: Injector)
  {
    && (j.Tracked? ==> CommandBatch(j.command, j.batch))
    && (j.Held? || j.Persisted? ==> Promised(j.actions, j.command))
  }

  /** Who is still responsible for a tracked command. */
  ghost predicate Owed(m: Machine, command: string)
    requires m.e.nextStatic <= |m.e.timeline|
  {
    || Abandoning(m.runner)
    || Injected(m, command)
    || (!m.runner.Exited? && (Promised(Remaining(m.e), command) || InHandOutcome(m.runner, command)))
  }

  ghost predicate Covered(m: Machine)
  {
    && m.e.nextStatic <= |m.e.timeline|
    && (forall i | 0 <= i < |m.injectors| :: Carries(m.injectors[i]))
    && (forall c | c in m.e.pendingCommands :: Owed(m, c))
  }

  // ---- preservation ----

  lemma WorldKeepsCovered(m: Machine, step: WorldStep)
    requires Covered(m)
    ensures Covered(WorldNext(m, step))
  {
    var n := WorldNext(m, step);
    assert Remaining(n.e) == Remaining(m.e);
    forall c | c in n.e.pendingCommands ensures Owed(n, c) {
      assert Owed(m, c);
    }
  }

  lemma PopKeepsCovered(m: Machine)
    requires Formed(m) && Covered(m) && m.runner.Due?
    ensures Covered(DoPop(m))
  {
    var n := DoPop(m);
    if n.runner.Popped? {
      PopTakesOne(m.e, m.runner.action.seqNo);
    }
    forall c | c in n.e.pendingCommands ensures Owed(n, c) {
      assert Owed(m, c);
    }
  }

  lemma PeekKeepsCovered(m: Machine)
    requires Covered(m) && m.runner.Idle?
    ensures Covered(DoPeek(m))
  {
    var n := DoPeek(m);
    assert Remaining(n.e) == Remaining(m.e);
    forall c | c in n.e.pendingCommands ensures Owed(n, c) {
      assert Owed(m, c);
      assert n.runner.Exited? ==> Remaining(m.e) == [];
    }
  }

  lemma ReturnKeepsCovered(m: Machine, result: Result)
    requires Covered(m) && m.runner.Acting?
    ensures Covered(DoReturn(m, result))
  {
    var n := DoReturn(m, result);
    assert Remaining(n.e) == Remaining(m.e);
    forall c | c in n.e.pendingCommands ensures Owed(n, c) {
      assert Owed(m, c);
    }
  }

  lemma RunnerKeepsCovered(m: Machine, step: RunnerStep)
    requires Formed(m) && Covered(m) && RunnerEnabled(m, step)
    ensures Covered(RunnerNext(m, step))
  {
    if step.Pop? {
      PopKeepsCovered(m);
    } else if step.Peek? {
      PeekKeepsCovered(m);
    } else if step.Return? {
      ReturnKeepsCovered(m, step.result);
    } else {
      RunnerFrame(m, step);
      var n := RunnerNext(m, step);
      assert Remaining(n.e) == Remaining(m.e);
      forall c | c in n.e.pendingCommands ensures Owed(n, c) {
        assert Owed(m, c);
      }
    }
  }

  /** Replacing injection i, everything owed otherwise stays owed. */
  lemma ReplaceKeepsCovered(m: Machine, i: nat, n: Machine, j: Injector)
    requires Covered(m) && i < |m.injectors| && n.injectors == m.injectors[i := j] && Carries(j)
    requires j.command == m.injectors[i].command && n.runner == m.runner
    requires n.e.nextStatic <= |n.e.timeline|
    requires n.e.pendingCommands <= m.e.pendingCommands
    requires forall a | a in Remaining(m.e) :: a in Remaining(n.e)
    requires j.Closed? ==>
      j.command !in n.e.pendingCommands || (Promised(Remaining(n.e), j.command) && !m.runner.Exited?)
    ensures Covered(n)
  {
    forall c | c in n.e.pendingCommands ensures Owed(n, c) {
      assert Owed(m, c);
      if Injected(m, c) {
        var k :| 0 <= k < |m.injectors| && !m.injectors[k].Closed? && m.injectors[k].command == c;
        if k != i {
          assert n.injectors[k] == m.injectors[k];
        } else {
          assert n.injectors[i] == j;
        }
      }
    }
  }

  lemma StampCarries(base: int, after: nat, batch: seq<DynamicAction>, command: string)
    requires CommandBatch(command, batch)
    ensures Promised(Stamp(base, after, batch), command)
  {
    var stamped := Stamp(base, after, batch);
    assert stamped[|batch| - 1] in stamped;
  }

  lemma AdmitKeepsCovered(m: Machine, i: nat)
    requires Covered(m) && InjectionEnabled(m, Admit(i))
    ensures Covered(DoAdmit(m, i))
  {
    var j, n := m.injectors[i], DoAdmit(m, i);
    assert Carries(j);
    assert Remaining(n.e) == Remaining(m.e);
    if n.injectors[i].Held? {
      StampCarries(Anchor(m.e, j.inner, m.now), m.e.nextSeq, j.batch, j.command);
    }
    ReplaceKeepsCovered(m, i, n, n.injectors[i]);
  }

  lemma CommitKeepsCovered(m: Machine, i: nat)
    requires Formed(m) && Covered(m) && (m.e.finished <==> Ended(m.runner)) && InjectionEnabled(m, Commit(i))
    ensures Covered(DoCommit(m, i))
  {
    var j, n := m.injectors[i], DoCommit(m, i);
    assert Carries(j) && Unused(m.e, InFlight(j));
    CommitKeepsShape(m.e, j.actions);
    if !AcceptsNow(m.e) {
      assert Remaining(n.e) == Remaining(m.e);
    }
    ReplaceKeepsCovered(m, i, n, n.injectors[i]);
  }

  lemma InjectKeepsCovered(m: Machine, step: InjectionStep)
    requires Covered(m) && step.Inject? && InjectionEnabled(m, step)
    ensures Covered(InjectionNext(m, step))
  {
    var n := InjectionNext(m, step);
    var last := |m.injectors|;
    assert forall k | 0 <= k < last :: n.injectors[k] == m.injectors[k];
    assert n.injectors[last].command == step.command && !n.injectors[last].Closed?;
    assert Remaining(n.e) == Remaining(m.e);
    forall c | c in n.e.pendingCommands ensures Owed(n, c) {
      if c in m.e.pendingCommands {
        assert Owed(m, c);
        if Injected(m, c) {
          var k :| 0 <= k < last && !m.injectors[k].Closed? && m.injectors[k].command == c;
          assert !n.injectors[k].Closed? && n.injectors[k].command == c;
        }
      }
    }
  }

  lemma PersistKeepsCovered(m: Machine, i: nat, ok: bool)
    requires Covered(m) && InjectionEnabled(m, Persist(i, ok))
    ensures Covered(DoPersist(m, i, ok))
  {
    var n := DoPersist(m, i, ok);
    assert Carries(m.injectors[i]);
    assert Remaining(n.e) == Remaining(m.e);
    ReplaceKeepsCovered(m, i, n, n.injectors[i]);
  }

  lemma GiveUpKeepsCovered(m: Machine, i: nat)
    requires Covered(m) && InjectionEnabled(m, GiveUp(i))
    ensures Covered(DoGiveUp(m, i))
  {
    var n := DoGiveUp(m, i);
    assert Remaining(n.e) == Remaining(m.e);
    ReplaceKeepsCovered(m, i, n, n.injectors[i]);
  }

  lemma StepKeepsCovered(m: Machine, step: Step)
    requires Formed(m) && Covered(m) && (m.e.finished <==> Ended(m.runner)) && Enabled(m, step)
    ensures Covered(Next(m, step))
  {
    match step
    case World(w) => WorldKeepsCovered(m, w);
    case Advance(r) => RunnerKeepsCovered(m, r);
    case Injecting(x) =>
      match x {
        case Inject(_, _, _) => InjectKeepsCovered(m, x);
        case Admit(i) => AdmitKeepsCovered(m, i);
        case Persist(i, ok) => PersistKeepsCovered(m, i, ok);
        case Commit(i) => CommitKeepsCovered(m, i);
        case GiveUp(i) => GiveUpKeepsCovered(m, i);
      }
  }

  // ---- accounting ----

  ghost predicate IsSettled(m: Machine, command: string)
  {
    exists how :: (command, how) in m.settled
  }

  /** Every command ever tracked is tracked now or has been settled, for a reason that happened. */
  ghost predicate Accounted(m: Machine)
  {
    && (forall c | c in m.tracked :: c in m.e.pendingCommands || IsSettled(m, c))
    && (forall c | (c, ByOutcome) in m.settled :: exists a :: a in m.executed && a.effect == Outcome(c))
    && (forall c | (c, ByRefusedAcknowledge) in m.settled ::
          exists a :: a in m.executed && a.effect == Acknowledge(c))
    && (m.runner.Acting? ==> m.runner.action in m.executed)
    && (m.runner.Started? ==> m.runner.action in m.executed)
  }

  lemma SettledKeepsAccounts(m: Machine, command: string, how: Release)
    requires Accounted(m)
    requires how == ByOutcome ==> exists a :: a in m.executed && a.effect == Outcome(command)
    requires how == ByRefusedAcknowledge ==> exists a :: a in m.executed && a.effect == Acknowledge(command)
    ensures Accounted(Settled(m, command, how))
  {
    var n := Settled(m, command, how);
    forall c | c in n.tracked ensures c in n.e.pendingCommands || IsSettled(n, c) {
      assert c in m.e.pendingCommands || IsSettled(m, c);
      if IsSettled(m, c) {
        var h :| (c, h) in m.settled;
        assert (c, h) in n.settled;
      } else if c == command {
        assert (c, how) in n.settled;
      }
    }
  }

  lemma ReturnKeepsAccounts(m: Machine, result: Result)
    requires Accounted(m) && m.runner.Acting?
    ensures Accounted(DoReturn(m, result))
  {
    match m.runner.action.effect
    case Plain =>
    case Outcome(command) => SettledKeepsAccounts(m, command, ByOutcome);
    case Acknowledge(command) =>
      if !result.Succeeded? {
        SettledKeepsAccounts(m, command, ByRefusedAcknowledge);
      }
  }

  lemma SettleKeepsAccounts(m: Machine)
    requires Accounted(m)
    ensures Accounted(DoSettle(m))
  {
    var n := DoSettle(m);
    forall c | c in n.tracked ensures IsSettled(n, c) {
      if c in m.e.pendingCommands {
        assert (c, ByFail) in n.settled;
      } else {
        var h :| (c, h) in m.settled;
        assert (c, h) in n.settled;
      }
    }
  }

  lemma RunnerKeepsAccounts(m: Machine, step: RunnerStep)
    requires Accounted(m) && RunnerEnabled(m, step)
    ensures Accounted(RunnerNext(m, step))
  {
    if step.Return? {
      ReturnKeepsAccounts(m, step.result);
    } else if step.Settle? {
      SettleKeepsAccounts(m);
    } else {
      var n := RunnerNext(m, step);
      assert n.tracked == m.tracked && n.settled == m.settled && n.e.pendingCommands == m.e.pendingCommands;
      assert forall a | a in m.executed :: a in n.executed;
      forall c | c in n.tracked ensures c in n.e.pendingCommands || IsSettled(n, c) {
        assert IsSettled(m, c) ==> IsSettled(n, c);
      }
    }
  }

  lemma InjectionKeepsAccounts(m: Machine, step: InjectionStep)
    requires Accounted(m) && InjectionEnabled(m, step)
    ensures Accounted(InjectionNext(m, step))
  {
    if step.GiveUp? {
      SettledKeepsAccounts(m, m.injectors[step.i].command, ByFail);
    }
    var n := InjectionNext(m, step);
    forall c | c in n.tracked ensures c in n.e.pendingCommands || IsSettled(n, c) {
      assert !step.GiveUp? && IsSettled(m, c) ==> IsSettled(n, c);
      assert step.GiveUp? && IsSettled(Settled(m, m.injectors[step.i].command, ByFail), c) ==> IsSettled(n, c);
    }
  }

  lemma StepKeepsAccounts(m: Machine, step: Step)
    requires Accounted(m) && Enabled(m, step)
    ensures Accounted(Next(m, step))
  {
    match step
    case World(w) =>
      assert forall c | IsSettled(m, c) :: IsSettled(WorldNext(m, w), c);
    case Advance(r) => RunnerKeepsAccounts(m, r);
    case Injecting(x) => InjectionKeepsAccounts(m, x);
  }

  // ---- the result ----

  lemma {:induction false} RunKeepsCovered(m: Machine, steps: seq<Step>, end: Machine)
    requires Orderly(m) && Covered(m) && Run(m, steps, end)
    ensures Covered(end)
    decreases |steps|
  {
    if steps != [] {
      StepKeepsOrderly(m, steps[0]);
      StepKeepsCovered(m, steps[0]);
      RunKeepsCovered(Next(m, steps[0]), steps[1..], end);
    }
  }

  lemma {:induction false} RunKeepsAccounts(m: Machine, steps: seq<Step>, end: Machine)
    requires Accounted(m) && Run(m, steps, end)
    ensures Accounted(end)
    decreases |steps|
  {
    if steps != [] {
      StepKeepsAccounts(m, steps[0]);
      RunKeepsAccounts(Next(m, steps[0]), steps[1..], end);
    }
  }

  lemma ReachableCovered(start: Machine, steps: seq<Step>, m: Machine)
    requires Reaches(start, steps, m)
    ensures Covered(m)
  {
    InitiallyOrderly(start);
    RunKeepsCovered(start, steps, m);
  }

  /** When the runner has returned and no injection is in flight, no command is still waiting. */
  lemma NoCommandStillWaits(start: Machine, steps: seq<Step>, m: Machine)
    requires Reaches(start, steps, m) && m.runner.Exited?
    requires forall i | 0 <= i < |m.injectors| :: m.injectors[i].Closed?
    ensures m.e.pendingCommands == {}
  {
    assert Covered(m) by {
      ReachableCovered(start, steps, m);
    }
    forall c ensures c !in m.e.pendingCommands {
      assert !Injected(m, c);
      assert c in m.e.pendingCommands ==> Owed(m, c);
    }
  }

  /** A tracked command that no longer waits was released by an outcome action that ran, by an
      acknowledgement that ran and was refused, or by a Fail call. */
  lemma ReleasedForAReason(start: Machine, steps: seq<Step>, m: Machine, c: string)
    requires Reaches(start, steps, m) && c in m.tracked && c !in m.e.pendingCommands
    ensures || (c, ByFail) in m.settled
      || ((c, ByOutcome) in m.settled && exists a :: a in m.executed && a.effect == Outcome(c))
      || ((c, ByRefusedAcknowledge) in m.settled && exists a :: a in m.executed && a.effect == Acknowledge(c))
  {
    RunKeepsAccounts(start, steps, m);
    var how :| (c, how) in m.settled;
    assert how == ByFail || how == ByOutcome || how == ByRefusedAcknowledge;
  }
}
