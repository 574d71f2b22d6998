/** What the reservation of a batch promises: at which virtual instant each of its actions is due, and
    that the action executed under that number is the one promised. */
module EngineDue {
  import opened Actions
  import opened EngineState
  import opened EngineMachine
  import opened EngineShape
  import opened EngineLifecycle
  import opened EngineOrder

  /** The clock's whole milliseconds, rounded down. */
  lemma VirtualTimeTruncates(value: real)
    ensures 0.0 <= value < MAX_VIRTUAL ==>
      VirtualTimeMs(value) as real <= value < VirtualTimeMs(value) as real + 1.0
    ensures value < 0.0 ==> VirtualTimeMs(value) == 0
    ensures value >= MAX_VIRTUAL ==> VirtualTimeMs(value) == MAX_INT64
  {
  }

  // ---- the action an inner request comes from ----

  /** The clock's last action is the one executed last, and while a request from inside it is open it is
      still acting. */
  ghost predicate Following(m: Machine)
  {
    && (m.executed == [] ==> m.e.lastActionAt == 0)
    && (m.executed != [] ==> m.e.lastActionAt == m.executed[|m.executed| - 1].atMs)
    && (m.runner.Started? || m.runner.Acting? ==>
          m.executed != [] && m.executed[|m.executed| - 1] == m.runner.action)
    && (forall i | 0 <= i < |m.injectors| && OpenInner(m.injectors[i]) :: m.runner.Acting?)
  }

  lemma RunnerKeepsFollowing(m: Machine, step: RunnerStep)
    requires Following(m) && RunnerEnabled(m, step)
    ensures Following(RunnerNext(m, step))
  {
    if !step.Pop? {
      RunnerFrame(m, step);
    }
    if !step.Begin? {
      StartsNothing(m, step);
    }
  }

  lemma StartsNothing(m: Machine, step: RunnerStep)
    requires RunnerEnabled(m, step) && !step.Begin?
    ensures RunnerNext(m, step).executed == m.executed
    ensures RunnerNext(m, step).runner.Started? ==> m.runner.Started?
    ensures RunnerNext(m, step).runner.Acting? ==>
      m.runner.Started? && RunnerNext(m, step).runner.action == m.runner.action
    ensures m.runner.Acting? ==> step.Return?
  {
  }

  lemma InjectionKeepsFollowing(m: Machine, step: InjectionStep)
    requires Following(m) && InjectionEnabled(m, step)
    ensures Following(InjectionNext(m, step))
  {
    var n := InjectionNext(m, step);
    assert n.e.lastActionAt == m.e.lastActionAt && n.executed == m.executed && n.runner == m.runner;
  }

  lemma StepKeepsFollowing(m: Machine, step: Step)
    requires Following(m) && Enabled(m, step)
    ensures Following(Next(m, step))
  {
    match step
    case World(_) =>
    case Advance(r) => RunnerKeepsFollowing(m, r);
    case Injecting(x) => InjectionKeepsFollowing(m, x);
  }

  lemma {:induction false} RunKeepsFollowing(m: Machine, steps: seq<Step>, end: Machine)
    requires Following(m) && Run(m, steps, end)
    ensures Following(end)
    decreases |steps|
  {
    if steps != [] {
      StepKeepsFollowing(m, steps[0]);
      RunKeepsFollowing(Next(m, steps[0]), steps[1..], end);
    }
  }

  // ---- what is promised ----

  /** Whatever is queued, reserved or taken under the number of an action is that action. */
  ghost predicate Owns(m: Machine, a: Action)
  {
    && m.e.nextStatic <= |m.e.timeline| && a.seqNo <= m.e.nextSeq
    && (forall x | x in Remaining(m.e) && x.seqNo == a.seqNo :: x == a)
    && (forall x | x in Taken(m) && x.seqNo == a.seqNo :: x == a)
    && (forall i, x | 0 <= i < |m.injectors| && x in InFlight(m.injectors[i]) && x.seqNo == a.seqNo :: x == a)
  }

  lemma SameOwner(m: Machine, n: Machine, a: Action)
    requires Owns(m, a) && n.e.nextSeq == m.e.nextSeq && n.injectors == m.injectors && Taken(n) == Taken(m)
    requires n.e.timeline == m.e.timeline && n.e.nextStatic == m.e.nextStatic && n.e.pending == m.e.pending
    ensures Owns(n, a)
  {
    assert Remaining(n.e) == Remaining(m.e);
  }

  lemma PopKeepsOwner(m: Machine, a: Action)
    requires Formed(m) && Owns(m, a) && m.runner.Due?
    ensures Owns(DoPop(m), a)
  {
    var n := DoPop(m);
    if n.runner.Popped? {
      PopTakesOne(m.e, m.runner.action.seqNo);
      assert Taken(n) == Taken(m) + [n.runner.action];
    } else {
      SameOwner(m, n, a);
    }
  }

  lemma TakesNothing(m: Machine, step: RunnerStep)
    requires RunnerEnabled(m, step) && !step.Pop?
    ensures Taken(RunnerNext(m, step)) == Taken(m)
  {
  }

  lemma RunnerKeepsOwner(m: Machine, step: RunnerStep, a: Action)
    requires Formed(m) && Owns(m, a) && RunnerEnabled(m, step)
    ensures Owns(RunnerNext(m, step), a)
  {
    if step.Pop? {
      PopKeepsOwner(m, a);
    } else {
      RunnerFrame(m, step);
      TakesNothing(m, step);
      SameOwner(m, RunnerNext(m, step), a);
    }
  }

  lemma AdmitKeepsOwner(m: Machine, i: nat, a: Action)
    requires Formed(m) && Owns(m, a) && InjectionEnabled(m, Admit(i))
    ensures Owns(DoAdmit(m, i), a)
  {
    var n := DoAdmit(m, i);
    AdmittedIsUnused(m, i);
    assert Remaining(n.e) == Remaining(m.e) && Taken(n) == Taken(m);
  }

  lemma CommitKeepsOwner(m: Machine, i: nat, a: Action)
    requires Formed(m) && Owns(m, a) && InjectionEnabled(m, Commit(i))
    ensures Owns(DoCommit(m, i), a)
  {
    var n := DoCommit(m, i);
    assert Unused(m.e, InFlight(m.injectors[i]));
    if AcceptsNow(m.e) {
      CommitKeepsShape(m.e, m.injectors[i].actions);
    } else {
      assert Remaining(n.e) == Remaining(m.e);
    }
    CommitTakes(m, i);
  }

  lemma CommitTakes(m: Machine, i: nat)
    requires InjectionEnabled(m, Commit(i))
    ensures var n := DoCommit(m, i);
      && Taken(n) == Taken(m) && n.e.nextSeq == m.e.nextSeq
      && n.e.timeline == m.e.timeline && n.e.nextStatic == m.e.nextStatic
      && (!AcceptsNow(m.e) ==> n.e.pending == m.e.pending)
      && |n.injectors| == |m.injectors| && InFlight(n.injectors[i]) == []
      && forall k | 0 <= k < |m.injectors| && k != i :: n.injectors[k] == m.injectors[k]
  {
  }

  lemma InjectionKeepsOwner(m: Machine, step: InjectionStep, a: Action)
    requires Formed(m) && Owns(m, a) && InjectionEnabled(m, step)
    ensures Owns(InjectionNext(m, step), a)
  {
    match step
    case Admit(i) => AdmitKeepsOwner(m, i, a);
    case Commit(i) => CommitKeepsOwner(m, i, a);
    case _ => QuietKeepsOwner(m, step, a);
  }

  lemma QuietKeepsOwner(m: Machine, step: InjectionStep, a: Action)
    requires Owns(m, a) && InjectionEnabled(m, step) && !step.Admit? && !step.Commit?
    ensures Owns(InjectionNext(m, step), a)
  {
    var n := InjectionNext(m, step);
    assert Remaining(n.e) == Remaining(m.e) && Taken(n) == Taken(m);
  }

  lemma StepKeepsOwner(m: Machine, step: Step, a: Action)
    requires Formed(m) && Owns(m, a) && Enabled(m, step)
    ensures Owns(Next(m, step), a)
  {
    match step
    case World(w) => SameOwner(m, WorldNext(m, w), a);
    case Advance(r) => RunnerKeepsOwner(m, r, a);
    case Injecting(x) => InjectionKeepsOwner(m, x, a);
  }

  lemma {:induction false} RunKeepsOwner(m: Machine, steps: seq<Step>, end: Machine, a: Action)
    requires Formed(m) && Owns(m, a) && Run(m, steps, end)
    ensures Owns(end, a)
    decreases |steps|
  {
    if steps != [] {
      StepKeepsFormed(m, steps[0]);
      StepKeepsOwner(m, steps[0], a);
      RunKeepsOwner(Next(m, steps[0]), steps[1..], end, a);
    }
  }

  // ---- results ----

  predicate Accepted(m: Machine, i: nat)
  {
    InjectionEnabled(m, Admit(i)) && DoAdmit(m, i).injectors[i].Held?
  }

  /** A request from outside is anchored to the reading of the clock when it is reserved, one from inside an
      action to that action's own time, which is that of the action executed last. */
  lemma DueWhenReserved(start: Machine, steps: seq<Step>, m: Machine, i: nat)
    requires Reaches(start, steps, m) && Accepted(m, i)
    ensures var j, actions := m.injectors[i], DoAdmit(m, i).injectors[i].actions;
      && (j.inner ==> m.executed != [] && m.runner == Acting(m.executed[|m.executed| - 1]))
      && |actions| == |j.batch|
      && forall k | 0 <= k < |j.batch| ::
           && actions[k].seqNo == m.e.nextSeq + 1 + k
           && actions[k].name == j.batch[k].name && actions[k].effect == j.batch[k].effect
           && actions[k].atMs == j.batch[k].delayMs
              + if j.inner then m.executed[|m.executed| - 1].atMs else VirtualTimeMs(CurrentVirtual(m.e, m.now))
  {
    RunKeepsFollowing(start, steps, m);
  }

  lemma {:induction false} ReachableOrderly(start: Machine, steps: seq<Step>, m: Machine)
    requires Reaches(start, steps, m)
    ensures Orderly(m) && StartedOnce(m)
  {
    InitiallyOrderly(start);
    RunKeepsOrderly(start, steps, m);
    RunKeepsStartedOnce(start, steps, m);
  }

  /** No number beyond the counter is in use. */
  ghost predicate NumbersKnown(m: Machine)
  {
    && m.e.nextStatic <= |m.e.timeline|
    && (forall x | x in Remaining(m.e) :: x.seqNo <= m.e.nextSeq)
    && (forall x | x in Taken(m) :: x.seqNo <= m.e.nextSeq)
    && (forall i, x | 0 <= i < |m.injectors| && x in InFlight(m.injectors[i]) :: x.seqNo <= m.e.nextSeq)
  }

  lemma OrderlyNumbersKnown(m: Machine)
    requires Orderly(m) && StartedOnce(m)
    ensures NumbersKnown(m)
  {
    forall x | x in Remaining(m.e) ensures x.seqNo <= m.e.nextSeq {
      assert x.seqNo in Numbers(Remaining(m.e));
    }
    TakenIsKnown(m);
    forall i, x | 0 <= i < |m.injectors| && x in InFlight(m.injectors[i]) ensures x.seqNo <= m.e.nextSeq {
      assert Unused(m.e, InFlight(m.injectors[i]));
    }
  }

  lemma TakenIsKnown(m: Machine)
    requires Orderly(m) && StartedOnce(m)
    ensures forall x | x in Taken(m) :: x.seqNo in m.e.eventStates
  {
  }

  lemma NewIsOwned(m: Machine, n: Machine, i: nat, actions: seq<Action>, k: nat)
    requires NumbersKnown(m) && i < |m.injectors| && k < |actions| && DistinctNumbers(actions)
    requires n.e.nextStatic <= |n.e.timeline| && Remaining(n.e) == Remaining(m.e) && Taken(n) == Taken(m)
    requires |n.injectors| == |m.injectors| && InFlight(n.injectors[i]) == actions
    requires forall p | 0 <= p < |m.injectors| && p != i :: n.injectors[p] == m.injectors[p]
    requires m.e.nextSeq < actions[k].seqNo <= n.e.nextSeq
    ensures Owns(n, actions[k])
  {
  }

  lemma AdmitReserves(m: Machine, i: nat)
    requires Accepted(m, i)
    ensures var n := DoAdmit(m, i);
      && n.e.timeline == m.e.timeline && n.e.nextStatic == m.e.nextStatic && n.e.pending == m.e.pending
      && Taken(n) == Taken(m) && |n.injectors| == |m.injectors|
      && InFlight(n.injectors[i]) == n.injectors[i].actions
      && n.e.nextSeq == m.e.nextSeq + |n.injectors[i].actions|
      && forall p | 0 <= p < |m.injectors| && p != i :: n.injectors[p] == m.injectors[p]
  {
  }

  lemma PromisedIsOwned(start: Machine, steps: seq<Step>, m: Machine, i: nat, k: nat)
    requires Reaches(start, steps, m) && Accepted(m, i) && k < |DoAdmit(m, i).injectors[i].actions|
    ensures Owns(DoAdmit(m, i), DoAdmit(m, i).injectors[i].actions[k])
  {
    var n := DoAdmit(m, i);
    ReachableOrderly(start, steps, m);
    DueWhenReserved(start, steps, m, i);
    OrderlyNumbersKnown(m);
    AdmitReserves(m, i);
    NewIsOwned(m, n, i, n.injectors[i].actions, k);
  }

  /** Whatever happens between its reservation and the end, an action of an accepted request is executed, if
      at all, as it was promised: with its name and effect, and due its delay after the clock reading at the
      reservation, or after the action that requested it. */
  lemma {:induction false} ExecutedAsPromised(start: Machine, before: seq<Step>, m: Machine, i: nat,
                                              after: seq<Step>, end: Machine, a: Action, k: nat)
    requires Reaches(start, before, m) && Accepted(m, i) && k < |m.injectors[i].batch|
    requires Run(DoAdmit(m, i), after, end) && a in end.executed && a.seqNo == m.e.nextSeq + 1 + k
    ensures var j := m.injectors[i];
      && a.name == j.batch[k].name && a.effect == j.batch[k].effect
      && (!j.inner ==> a.atMs == VirtualTimeMs(CurrentVirtual(m.e, m.now)) + j.batch[k].delayMs)
      && (j.inner ==> m.executed != [] && a.atMs == m.executed[|m.executed| - 1].atMs + j.batch[k].delayMs)
  {
    ReachableOrderly(start, before, m);
    DueWhenReserved(start, before, m, i);
    PromisedIsOwned(start, before, m, i, k);
    AdmitKeepsFormed(m, i);
    RunKeepsOwner(DoAdmit(m, i), after, end, DoAdmit(m, i).injectors[i].actions[k]);
  }

  // ---- events describe their actions ----

  ghost predicate Described(m: Machine)
  {
    && m.e.nextStatic <= |m.e.timeline|
    && forall a | a in Remaining(m.e) || a in Taken(m) :: Describes(m.e.eventStates, a)
  }

  lemma DescribedStays(m: Machine, n: Machine)
    requires Described(m) && EventsMove(m.e.eventStates, n.e.eventStates) && n.e.nextStatic <= |n.e.timeline|
    requires forall a | a in Remaining(n.e) || a in Taken(n) :: a in Remaining(m.e) || a in Taken(m)
    ensures Described(n)
  {
    forall a | a in Remaining(n.e) || a in Taken(n) ensures Describes(n.e.eventStates, a) {
      assert Describes(m.e.eventStates, a);
    }
  }

  lemma RunnerKeepsDescribed(m: Machine, step: RunnerStep)
    requires Orderly(m) && Described(m) && RunnerEnabled(m, step)
    ensures Described(RunnerNext(m, step))
  {
    var n := RunnerNext(m, step);
    RunnerMovesEvents(m, step);
    if step.Pop? {
      if n.runner.Popped? {
        PopTakesOne(m.e, m.runner.action.seqNo);
        assert Taken(n) == Taken(m) + [n.runner.action];
      }
    } else {
      RunnerFrame(m, step);
      TakesNothing(m, step);
      assert Remaining(n.e) == Remaining(m.e);
    }
    DescribedStays(m, n);
  }

  lemma CommitKeepsDescribed(m: Machine, i: nat)
    requires Orderly(m) && Described(m) && InjectionEnabled(m, Commit(i)) && AcceptsNow(m.e)
    ensures Described(DoCommit(m, i))
  {
    var n, actions := DoCommit(m, i), m.injectors[i].actions;
    assert Unused(m.e, InFlight(m.injectors[i]));
    CommitKeepsShape(m.e, actions);
    RecordingAppears(m.e, actions, Pending);
    RecordedEach(m.e.eventStates, actions, Pending);
    assert Taken(n) == Taken(m);
    forall a | a in Remaining(n.e) || a in Taken(n) ensures Describes(n.e.eventStates, a) {
      if a !in actions {
        assert Describes(m.e.eventStates, a);
      }
    }
  }

  lemma InjectionKeepsDescribed(m: Machine, step: InjectionStep)
    requires Orderly(m) && Described(m) && InjectionEnabled(m, step)
    ensures Described(InjectionNext(m, step))
  {
    if step.Commit? && AcceptsNow(m.e) {
      CommitKeepsDescribed(m, step.i);
    } else {
      var n := InjectionNext(m, step);
      InjectionMovesEvents(m, step);
      assert Remaining(n.e) == Remaining(m.e) && Taken(n) == Taken(m);
      DescribedStays(m, n);
    }
  }

  lemma WorldKeepsDescribed(m: Machine, step: WorldStep)
    requires Described(m)
    ensures Described(WorldNext(m, step))
  {
    var n := WorldNext(m, step);
    assert n.e.timeline == m.e.timeline && n.e.nextStatic == m.e.nextStatic && n.e.pending == m.e.pending;
    assert Remaining(n.e) == Remaining(m.e) && Taken(n) == Taken(m);
    assert n.e.eventStates == m.e.eventStates;
    DescribedStays(m, n);
  }

  lemma StepKeepsDescribed(m: Machine, step: Step)
    requires Orderly(m) && Described(m) && Enabled(m, step)
    ensures Described(Next(m, step))
  {
    match step
    case World(w) => WorldKeepsDescribed(m, w);
    case Advance(r) => RunnerKeepsDescribed(m, r);
    case Injecting(x) => InjectionKeepsDescribed(m, x);
  }

  lemma {:induction false} RunKeepsDescribed(m: Machine, steps: seq<Step>, end: Machine)
    requires Orderly(m) && Described(m) && Run(m, steps, end)
    ensures Described(end)
    decreases |steps|
  {
    if steps != [] {
      StepKeepsOrderly(m, steps[0]);
      StepKeepsDescribed(m, steps[0]);
      RunKeepsDescribed(Next(m, steps[0]), steps[1..], end);
    }
  }

  /** In every reachable state each action that is queued or has been taken has an event at its time and
      under its name. */
  lemma EventsDescribeActions(start: Machine, steps: seq<Step>, m: Machine)
    requires Reaches(start, steps, m)
    ensures m.e.nextStatic <= |m.e.timeline|
    ensures forall a | a in m.e.timeline[m.e.nextStatic..] || a in m.e.pending || a in m.executed ::
      a.seqNo in m.e.eventStates
      && m.e.eventStates[a.seqNo].atMs == a.atMs && m.e.eventStates[a.seqNo].name == a.name
  {
    InitiallyOrderly(start);
    assert Remaining(start.e) == start.e.timeline;
    RunKeepsDescribed(start, steps, m);
    forall a | a in m.e.timeline[m.e.nextStatic..] || a in m.e.pending || a in m.executed
      ensures Describes(m.e.eventStates, a)
    {
      assert a in Remaining(m.e) || a in Taken(m);
    }
  }
}
