/** Two-phase admission: a batch is reserved under the lock, persisted outside it, and committed or
    skipped under the lock again. The reservation counter never drifts, capacity is never exceeded,
    and a batch joins the queue wholly or not at all. */
module EngineAdmission {
  import opened Sequences
  import opened Actions
  import opened EngineState
  import opened EngineMachine
  import opened EngineShape
  import opened EngineLifecycle

  const HELD_ACTIONS: Injector -> nat := (j: Injector) => |InFlight(j)|

  // ---- the decision ----

  predicate SomeNegative(batch: seq<DynamicAction>)
  {
    exists k :: 0 <= k < |batch| && batch[k].delayMs < 0
  }

  predicate TooLate(base: int, request: DynamicAction)
  {
    request.delayMs > 0 && base + request.delayMs > MAX_INT64
  }

  predicate SomeTooLate(base: int, batch: seq<DynamicAction>)
  {
    exists k :: 0 <= k < |batch| && TooLate(base, batch[k])
  }

  /** Which requests are refused, in which order the reasons are looked at, and what an accepted one gets: the
      next numbers in turn, each action due its delay after the clock reading, or, for a request from inside
      an action, after the time of the last action. A time that is too large costs the numbers up to it. */
  predicate Decided(e: State, batch: seq<DynamicAction>, inner: bool, now: real, f: State, admission: Admission)
  {
    var base := if inner then e.lastActionAt else VirtualTimeMs(CurrentVirtual(e, now));
    && f == e.(reserved := f.reserved, nextSeq := f.nextSeq)
    && f.reserved == e.reserved + (if admission.Reserved? then |batch| else 0)
    && (admission.Nothing? <==> batch == [])
    && (admission == Refused(NotAccepting) <==> batch != [] && (e.stopped || e.finished))
    && (admission == Refused(NegativeDelay) <==>
          batch != [] && !e.stopped && !e.finished && SomeNegative(batch))
    && (admission == Refused(CapacityExhausted) <==>
          && batch != [] && !e.stopped && !e.finished && !SomeNegative(batch)
          && |e.eventStates| + e.reserved + |batch| > 20000)
    && (admission == Refused(TimeTooLarge) <==>
          && batch != [] && !e.stopped && !e.finished && !SomeNegative(batch)
          && |e.eventStates| + e.reserved + |batch| <= 20000 && SomeTooLate(base, batch))
    && (admission.Refused? && admission.reason != TimeTooLarge ==> f.nextSeq == e.nextSeq)
    && (admission == Refused(TimeTooLarge) ==>
          && e.nextSeq < f.nextSeq <= e.nextSeq + |batch| && TooLate(base, batch[f.nextSeq - e.nextSeq - 1])
          && forall k | 0 <= k < f.nextSeq - e.nextSeq - 1 :: !TooLate(base, batch[k]))
    && (admission.Reserved? ==>
          && f.nextSeq == e.nextSeq + |batch| && |admission.actions| == |batch|
          && forall k | 0 <= k < |batch| ::
               admission.actions[k]
               == Action(base + batch[k].delayMs, e.nextSeq + 1 + k, batch[k].name, batch[k].effect))
  }

  lemma ReserveDecides(e: State, batch: seq<DynamicAction>, inner: bool, now: real)
    ensures var (f, admission) := Reserve(e, batch, inner, now); Decided(e, batch, inner, now, f, admission)
  {
  }

  // ---- capacity ----

  /** The counter is exactly what is in flight, and events plus reservations stay within capacity. */
  ghost predicate WithinCapacity(m: Machine)
  {
    && m.e.reserved == Sum(m.injectors, HELD_ACTIONS)
    && |m.e.eventStates| + m.e.reserved <= MAX_SCHEDULED_ACTIONS
  }

  lemma {:induction false} RecordedSize(events: map<nat, Event>, actions: seq<Action>, status: Status)
    requires DistinctNumbers(actions) && Numbers(actions) !! events.Keys
    ensures |Recorded(events, actions, status)| == |events| + |actions|
    decreases |actions|
  {
    if actions != [] {
      NumbersTail(actions);
      var a := actions[0];
      var more := events[a.seqNo := Event(a.atMs, a.name, status)];
      assert more.Keys == events.Keys + {a.seqNo};
      assert |more| == |events| + 1;
      RecordedSize(more, actions[1..], status);
    }
  }

  lemma ReplaceInjector(m: Machine, i: nat, j: Injector)
    requires WithinCapacity(m) && i < |m.injectors|
    ensures Sum(m.injectors[i := j], HELD_ACTIONS) + |InFlight(m.injectors[i])| == m.e.reserved + |InFlight(j)|
    ensures |InFlight(m.injectors[i])| <= m.e.reserved
  {
    SumUpdate(m.injectors, i, j, HELD_ACTIONS);
    SumAtLeast(m.injectors, i, HELD_ACTIONS);
  }

  lemma AdmitKeepsCapacity(m: Machine, i: nat)
    requires WithinCapacity(m) && InjectionEnabled(m, Admit(i))
    ensures WithinCapacity(DoAdmit(m, i))
  {
    ReplaceInjector(m, i, DoAdmit(m, i).injectors[i]);
  }

  /** A reservation that ends as that many new events leaves the total unchanged. */
  lemma ReleaseKeepsCapacity(m: Machine, i: nat, n: Machine, j: Injector)
    requires WithinCapacity(m) && i < |m.injectors| && InFlight(j) == []
    requires n.injectors == m.injectors[i := j]
    requires n.e.reserved == m.e.reserved - |InFlight(m.injectors[i])|
    requires |n.e.eventStates| == |m.e.eventStates| + |InFlight(m.injectors[i])|
    ensures WithinCapacity(n)
  {
    ReplaceInjector(m, i, j);
  }

  lemma DropSizes(e: State, actions: seq<Action>)
    requires Unused(e, actions)
    ensures DropBatch(e, actions).reserved == e.reserved - |actions|
    ensures |DropBatch(e, actions).eventStates| == |e.eventStates| + |actions|
  {
    RecordedSize(e.eventStates, actions, Skipped);
  }

  lemma CommitSizes(e: State, actions: seq<Action>)
    requires Unused(e, actions)
    ensures CommitBatch(e, actions).reserved == e.reserved - |actions|
    ensures |CommitBatch(e, actions).eventStates| == |e.eventStates| + |actions|
  {
    RecordedSize(e.eventStates, actions, if AcceptsNow(e) then Pending else Skipped);
  }

  lemma EndingKeepsCapacity(m: Machine, i: nat, n: Machine)
    requires WithinCapacity(m) && i < |m.injectors| && |n.injectors| == |m.injectors|
    requires n.injectors == m.injectors[i := n.injectors[i]]
    requires n.injectors[i].Declined? || n.injectors[i].Closed?
    requires n.e == DropBatch(m.e, InFlight(m.injectors[i])) || n.e == CommitBatch(m.e, InFlight(m.injectors[i]))
    requires Unused(m.e, InFlight(m.injectors[i]))
    ensures WithinCapacity(n)
  {
    var actions := InFlight(m.injectors[i]);
    if n.e == DropBatch(m.e, actions) {
      DropSizes(m.e, actions);
    } else {
      CommitSizes(m.e, actions);
    }
    ReleaseKeepsCapacity(m, i, n, n.injectors[i]);
  }

  lemma PersistKeepsCapacity(m: Machine, i: nat, ok: bool)
    requires Flight(m) && WithinCapacity(m) && InjectionEnabled(m, Persist(i, ok))
    ensures WithinCapacity(DoPersist(m, i, ok))
  {
    if ok {
      ReplaceInjector(m, i, DoPersist(m, i, ok).injectors[i]);
    } else {
      EndingKeepsCapacity(m, i, DoPersist(m, i, ok));
    }
  }

  lemma CommitKeepsCapacity(m: Machine, i: nat)
    requires Flight(m) && WithinCapacity(m) && InjectionEnabled(m, Commit(i))
    ensures WithinCapacity(DoCommit(m, i))
  {
    EndingKeepsCapacity(m, i, DoCommit(m, i));
  }

  lemma InjectionKeepsCapacity(m: Machine, step: InjectionStep)
    requires Flight(m) && WithinCapacity(m) && InjectionEnabled(m, step)
    ensures WithinCapacity(InjectionNext(m, step))
  {
    match step
    case Inject(command, inner, batch) =>
      SumAppend(m.injectors, Tracked(command, inner, batch), HELD_ACTIONS);
    case Admit(i) => AdmitKeepsCapacity(m, i);
    case Persist(i, ok) => PersistKeepsCapacity(m, i, ok);
    case Commit(i) => CommitKeepsCapacity(m, i);
    case GiveUp(i) => ReplaceInjector(m, i, DoGiveUp(m, i).injectors[i]);
  }

  lemma RunnerKeepsCapacity(m: Machine, step: RunnerStep)
    requires WithinCapacity(m) && RunnerEnabled(m, step)
    ensures WithinCapacity(RunnerNext(m, step))
  {
    if !step.Pop? {
      RunnerFrame(m, step);
    }
    var n := RunnerNext(m, step);
    assert n.e.eventStates.Keys == m.e.eventStates.Keys;
    assert |n.e.eventStates| == |n.e.eventStates.Keys| && |m.e.eventStates| == |m.e.eventStates.Keys|;
  }

  lemma WorldKeepsCapacity(m: Machine, step: WorldStep)
    requires WithinCapacity(m)
    ensures WithinCapacity(WorldNext(m, step))
  {
    var n := WorldNext(m, step);
    assert n.injectors == m.injectors && n.e.reserved == m.e.reserved && n.e.eventStates == m.e.eventStates;
  }

  lemma StepKeepsCapacity(m: Machine, step: Step)
    requires Flight(m) && WithinCapacity(m) && Enabled(m, step)
    ensures WithinCapacity(Next(m, step))
  {
    match step
    case World(w) => WorldKeepsCapacity(m, w);
    case Advance(r) => RunnerKeepsCapacity(m, r);
    case Injecting(x) => InjectionKeepsCapacity(m, x);
  }

  lemma {:induction false} RunKeepsCapacity(m: Machine, steps: seq<Step>, end: Machine)
    requires Orderly(m) && WithinCapacity(m) && Run(m, steps, end)
    ensures WithinCapacity(end)
    decreases |steps|
  {
    if steps != [] {
      StepKeepsOrderly(m, steps[0]);
      StepKeepsCapacity(m, steps[0]);
      RunKeepsCapacity(Next(m, steps[0]), steps[1..], end);
    }
  }

  /** In every reachable state the reservation counter equals the total size of the batches being
      persisted, and the run never owns more than its 20000 actions. */
  lemma ReservationsAreExact(start: Machine, steps: seq<Step>, m: Machine)
    requires Reaches(start, steps, m)
    ensures m.e.reserved == Sum(m.injectors, HELD_ACTIONS)
    ensures |m.e.eventStates| + m.e.reserved <= 20000
  {
    InitiallyOrderly(start);
    RunKeepsCapacity(start, steps, m);
  }

  // ---- all or nothing ----

  /** Before it commits, no action of a batch is queued or visible; the commit then makes all of
      them pending, or all of them skipped and none queued. */
  lemma CommitIsAllOrNothing(m: Machine, i: nat)
    requires Orderly(m) && InjectionEnabled(m, Commit(i))
    ensures var batch, n := m.injectors[i].actions, DoCommit(m, i);
      && (forall a | a in batch :: a !in m.e.pending && a.seqNo !in m.e.eventStates)
      && (AcceptsNow(m.e) ==>
            && (forall a :: a in n.e.pending <==> a in m.e.pending || a in batch)
            && (forall a | a in batch :: a.seqNo in n.e.eventStates && n.e.eventStates[a.seqNo].status == Pending))
      && (!AcceptsNow(m.e) ==>
            && n.e.pending == m.e.pending
            && (forall a | a in batch :: a.seqNo in n.e.eventStates && n.e.eventStates[a.seqNo].status == Skipped)
            && n.injectors[i].Declined?)
  {
    var batch, n := m.injectors[i].actions, DoCommit(m, i);
    assert Unused(m.e, InFlight(m.injectors[i]));
    QueuedHaveEvents(m.e);
    assert forall a | a in batch :: a.seqNo in Numbers(batch);
  }

  lemma QueuedHaveEvents(e: State)
    requires Shape(e)
    ensures forall a | a in e.pending :: a.seqNo in e.eventStates
  {
    forall a | a in e.pending ensures a.seqNo in Numbers(Remaining(e)) {
      assert a in Remaining(e);
    }
  }

  lemma RunnerNeverEnqueues(m: Machine, step: RunnerStep)
    requires RunnerEnabled(m, step)
    ensures forall a | a in RunnerNext(m, step).e.pending :: a in m.e.pending
  {
    if !step.Pop? {
      RunnerFrame(m, step);
    }
  }

  lemma InjectionEnqueues(m: Machine, step: InjectionStep)
    requires InjectionEnabled(m, step)
    ensures forall a | a in InjectionNext(m, step).e.pending && a !in m.e.pending ::
      step.Commit? && AcceptsNow(m.e) && a in m.injectors[step.i].actions
  {
  }

  /** Nothing but an accepted commit puts an action in the queue. */
  lemma OnlyCommitsEnqueue(m: Machine, step: Step)
    requires Enabled(m, step)
    ensures forall a | a in Next(m, step).e.pending && a !in m.e.pending ::
      && step.Injecting? && step.injection.Commit? && AcceptsNow(m.e)
      && a in m.injectors[step.injection.i].actions
  {
    match step
    case World(_) =>
    case Advance(r) => RunnerNeverEnqueues(m, r);
    case Injecting(x) => InjectionEnqueues(m, x);
  }

  lemma ClosedStaysClosed(m: Machine, step: Step)
    requires !AcceptsNow(m.e) && Enabled(m, step)
    ensures !AcceptsNow(Next(m, step).e)
  {
    match step
    case World(_) =>
    case Advance(r) => RunnerStaysClosed(m, r);
    case Injecting(x) => InjectionStaysClosed(m, x);
  }

  lemma RunnerStaysClosed(m: Machine, step: RunnerStep)
    requires !AcceptsNow(m.e) && RunnerEnabled(m, step)
    ensures !AcceptsNow(RunnerNext(m, step).e)
  {
    match step
    case Return(result) => ReturnStaysClosed(m, result);
    case _ =>
  }

  lemma ReturnStaysClosed(m: Machine, result: Result)
    requires !AcceptsNow(m.e) && m.runner.Acting?
    ensures !AcceptsNow(DoReturn(m, result).e)
  {
  }

  lemma InjectionStaysClosed(m: Machine, step: InjectionStep)
    requires !AcceptsNow(m.e) && InjectionEnabled(m, step)
    ensures !AcceptsNow(InjectionNext(m, step).e)
  {
  }

  /** Once the run is stopped or finished its queue can only shrink, whatever is still in flight. */
  lemma {:induction false} NothingEntersAfterTheEnd(m: Machine, steps: seq<Step>, end: Machine)
    requires !AcceptsNow(m.e) && Run(m, steps, end)
    ensures !AcceptsNow(end.e)
    ensures forall a | a in end.e.pending :: a in m.e.pending
    decreases |steps|
  {
    if steps != [] {
      var n := Next(m, steps[0]);
      ClosedStaysClosed(m, steps[0]);
      NothingEntersAfterTheEnd(n, steps[1..], end);
      OnlyCommitsEnqueue(m, steps[0]);
    }
  }
}
