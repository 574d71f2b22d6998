/** What every section keeps about the queues: both are ordered, action numbers are never reused, and
    a reservation in flight owns numbers nobody else has. */
module EngineShape {
  import opened Actions
  import opened EngineState
  import opened EngineMachine

  ghost predicate Shape(e: State)
  {
    && e.nextStatic <= |e.timeline|
    && Ordered(e.timeline) && Ordered(e.pending)
    && DistinctNumbers(Remaining(e))
    && Numbers(Remaining(e)) <= e.eventStates.Keys
    && (forall n | n in e.eventStates :: n <= e.nextSeq)
    && (forall a | a in Remaining(e) :: 0 <= a.atMs <= MAX_INT64)
  }

  /** A list of actions that owns its numbers: none is an event yet, none is beyond the counter. */
  ghost predicate Unused(e: State, actions: seq<Action>)
  {
    && DistinctNumbers(actions)
    && Numbers(actions) !! e.eventStates.Keys
    && (forall a | a in actions :: a.seqNo <= e.nextSeq && 0 <= a.atMs <= MAX_INT64)
  }

  ghost predicate Flight(m: Machine)
  {
    && (forall i | 0 <= i < |m.injectors| :: Unused(m.e, InFlight(m.injectors[i])))
    && (forall i, j | 0 <= i < j < |m.injectors| ::
          Numbers(InFlight(m.injectors[i])) !! Numbers(InFlight(m.injectors[j])))
  }

  /** Sections that leave the queues alone keep their shape. */
  lemma SameQueues(e: State, f: State)
    requires Shape(e)
    requires f.timeline == e.timeline && f.nextStatic == e.nextStatic && f.pending == e.pending
    requires f.eventStates.Keys == e.eventStates.Keys && f.nextSeq >= e.nextSeq
    ensures Shape(f)
  {
    assert Remaining(f) == Remaining(e);
  }

  lemma SameFlight(m: Machine, n: Machine)
    requires Flight(m)
    requires n.injectors == m.injectors
    requires n.e.eventStates.Keys == m.e.eventStates.Keys && n.e.nextSeq >= m.e.nextSeq
    ensures Flight(n)
  {
    forall i | 0 <= i < |n.injectors| ensures Unused(n.e, InFlight(n.injectors[i])) {
      assert Unused(m.e, InFlight(m.injectors[i]));
    }
  }

  /** `less` is `more` without one action, whose number no other action has. */
  ghost predicate TakenFrom(more: seq<Action>, less: seq<Action>, a: Action)
  {
    && DistinctNumbers(less)
    && Numbers(more) == Numbers(less) + {a.seqNo} && a.seqNo !in Numbers(less)
    && (forall x :: x in more <==> x in less || x == a)
  }

  /** popNext removes one action from the remaining ones, and nothing else. */
  lemma PopTakesOne(e: State, seqNo: nat)
    requires Shape(e) && PopNext(e, seqNo).1.Some?
    ensures var (f, popped) := PopNext(e, seqNo);
      && Shape(f) && popped.value.seqNo == seqNo && seqNo in e.eventStates
      && TakenFrom(Remaining(e), Remaining(f), popped.value)
  {
    var (f, popped) := PopNext(e, seqNo);
    if e.nextStatic < |e.timeline| && e.timeline[e.nextStatic].seqNo == seqNo {
      PopStaticHead(e);
    } else {
      PopQueueHead(e.timeline[e.nextStatic..], e.pending);
    }
    TakingKeepsShape(e, f, popped.value);
  }

  lemma TakingKeepsShape(e: State, f: State, a: Action)
    requires Shape(e) && f.nextStatic <= |f.timeline| && TakenFrom(Remaining(e), Remaining(f), a)
    requires Ordered(f.timeline) && Ordered(f.pending)
    requires f.eventStates == e.eventStates && f.nextSeq == e.nextSeq
    ensures Shape(f) && a.seqNo in e.eventStates
  {
  }

  lemma PopStaticHead(e: State)
    requires e.nextStatic < |e.timeline| && DistinctNumbers(Remaining(e))
    ensures TakenFrom(Remaining(e), Remaining(e.(nextStatic := e.nextStatic + 1)), e.timeline[e.nextStatic])
  {
    var a := e.timeline[e.nextStatic];
    var less := Remaining(e.(nextStatic := e.nextStatic + 1));
    assert Remaining(e) == [a] + less;
    NumbersTail(Remaining(e));
    assert Remaining(e)[1..] == less;
    forall x ensures x in Remaining(e) <==> x in less || x == a {
      assert x in [a] + less <==> x in [a] || x in less;
    }
  }

  lemma PopQueueHead(rest: seq<Action>, queue: seq<Action>)
    requires |queue| > 0 && DistinctNumbers(rest + queue)
    ensures TakenFrom(rest + queue, rest + queue[1..], queue[0])
  {
    var whole, less := rest + queue, rest + queue[1..];
    var k := |rest|;
    assert forall i | 0 <= i < |less| :: less[i] == whole[if i < k then i else i + 1];
    NumbersConcat(rest, queue);
    NumbersConcat(rest, queue[1..]);
    NumbersConcat([queue[0]], queue[1..]);
    assert queue == [queue[0]] + queue[1..];
    forall a | a in less ensures a.seqNo != queue[0].seqNo {
      var i :| 0 <= i < |less| && less[i] == a;
      assert whole[k] == queue[0];
    }
  }

  lemma CommitKeepsShape(e: State, actions: seq<Action>)
    requires Shape(e) && Unused(e, actions)
    ensures Shape(CommitBatch(e, actions))
    ensures AcceptsNow(e) ==>
      forall a :: a in Remaining(CommitBatch(e, actions)) <==> a in Remaining(e) || a in actions
    ensures AcceptsNow(e) ==>
      Numbers(Remaining(CommitBatch(e, actions))) == Numbers(Remaining(e)) + Numbers(actions)
  {
    if AcceptsNow(e) {
      CommitQueues(e, actions);
      RecordedBelow(e, CommitBatch(e, actions), actions);
    } else {
      DropKeepsShape(e, actions);
    }
  }

  /** The batch joins the queue, which stays ordered and without two actions of one number. */
  lemma CommitQueues(e: State, actions: seq<Action>)
    requires Shape(e) && Unused(e, actions) && AcceptsNow(e)
    ensures var f := CommitBatch(e, actions);
      && Ordered(f.pending) && DistinctNumbers(Remaining(f))
      && Numbers(Remaining(f)) == Numbers(Remaining(e)) + Numbers(actions)
      && forall a :: a in Remaining(f) <==> a in Remaining(e) || a in actions
  {
    MergeQueue(e.timeline[e.nextStatic..], e.pending, actions);
  }

  lemma {:induction false} MergeQueue(rest: seq<Action>, queue: seq<Action>, actions: seq<Action>)
    requires DistinctNumbers(rest + queue) && DistinctNumbers(actions) && Numbers(rest + queue) !! Numbers(actions)
    ensures var merged := StableSort(queue + actions);
      && Ordered(merged) && DistinctNumbers(rest + merged)
      && Numbers(rest + merged) == Numbers(rest + queue) + Numbers(actions)
      && forall a :: a in rest + merged <==> a in rest + queue || a in actions
  {
    var merged := StableSort(queue + actions);
    DistinctSplit(rest, queue);
    NumbersConcat(rest, queue);
    DistinctConcat(queue, actions);
    StableSortOrders(queue + actions);
    NumbersConcat(queue, actions);
    NumbersConcat(rest, merged);
    DistinctConcat(rest, merged);
    forall a ensures a in rest + merged <==> a in rest + queue || a in actions {
      assert a in merged <==> a in queue + actions;
    }
  }

  /** Each action of a batch is recorded under its own number, with its time and name. */
  lemma {:induction false} RecordedEach(events: map<nat, Event>, actions: seq<Action>, status: Status)
    requires DistinctNumbers(actions)
    ensures forall a | a in actions ::
      a.seqNo in Numbers(actions) && Recorded(events, actions, status)[a.seqNo] == Event(a.atMs, a.name, status)
    decreases |actions|
  {
    if actions != [] {
      var head := actions[0];
      NumbersTail(actions);
      var more := events[head.seqNo := Event(head.atMs, head.name, status)];
      RecordedEach(more, actions[1..], status);
      assert Recorded(more, actions[1..], status)[head.seqNo] == more[head.seqNo];
      assert forall a | a in actions :: a == head || a in actions[1..];
    }
  }

  /** New events have numbers that were handed out. */
  lemma RecordedBelow(e: State, f: State, actions: seq<Action>)
    requires (forall n | n in e.eventStates :: n <= e.nextSeq) && Unused(e, actions)
    requires f.eventStates.Keys == e.eventStates.Keys + Numbers(actions) && f.nextSeq == e.nextSeq
    ensures forall n | n in f.eventStates :: n <= f.nextSeq
  {
    forall n | n in f.eventStates ensures n <= f.nextSeq {
      if n in Numbers(actions) {
        var a :| a in actions && a.seqNo == n;
      }
    }
  }

  lemma DropKeepsShape(e: State, actions: seq<Action>)
    requires Shape(e) && Unused(e, actions)
    ensures Shape(DropBatch(e, actions))
  {
    var f := DropBatch(e, actions);
    assert Remaining(f) == Remaining(e);
    RecordedBelow(e, f, actions);
  }

  lemma DistinctSplit(s: seq<Action>, t: seq<Action>)
    requires DistinctNumbers(s + t)
    ensures DistinctNumbers(s) && DistinctNumbers(t) && Numbers(s) !! Numbers(t)
  {
    var whole := s + t;
    assert forall i | 0 <= i < |s| :: s[i] == whole[i];
    assert forall i | 0 <= i < |t| :: t[i] == whole[|s| + i];
    forall a, b | a in s && b in t ensures a.seqNo != b.seqNo {
      var i :| 0 <= i < |s| && s[i] == a;
      var j :| 0 <= j < |t| && t[j] == b;
      assert whole[i].seqNo != whole[|s| + j].seqNo;
    }
  }

  /** The numbers and times a successful reservation hands out. */
  lemma ReservationUnused(e: State, batch: seq<DynamicAction>, inner: bool, now: real)
    requires Shape(e) && 0 <= e.lastActionAt <= MAX_INT64
    requires Reserve(e, batch, inner, now).1.Reserved?
    ensures var (f, admission) := Reserve(e, batch, inner, now);
      && Unused(f, admission.actions)
      && |admission.actions| == |batch|
      && (forall k | 0 <= k < |batch| ::
            && admission.actions[k].seqNo == e.nextSeq + 1 + k
            && admission.actions[k].atMs == Anchor(e, inner, now) + batch[k].delayMs
            && admission.actions[k].effect == batch[k].effect
            && batch[k].delayMs >= 0)
      && f.nextSeq == e.nextSeq + |batch|
  {
    var (f, admission) := Reserve(e, batch, inner, now);
    var base := Anchor(e, inner, now);
    assert 0 <= base <= MAX_INT64;
    forall a | a in admission.actions ensures 0 <= a.atMs <= MAX_INT64 && e.nextSeq < a.seqNo <= f.nextSeq {
      var k :| 0 <= k < |batch| && admission.actions[k] == a;
      assert !Overflows(base, batch[k].delayMs);
    }
  }

  // ---- every step keeps the shape ----

  ghost predicate Formed(m: Machine)
  {
    Shape(m.e) && Flight(m) && 0 <= m.e.lastActionAt <= MAX_INT64
    && (m.runner.Popped? ==> 0 <= m.runner.action.atMs <= MAX_INT64)
  }

  /** Once a reservation ends, its numbers become events and every other reservation is untouched. */
  lemma ReleaseKeepsFlight(m: Machine, i: nat, n: Machine, j: Injector)
    requires Flight(m) && i < |m.injectors| && (j.Declined? || j.Closed?)
    requires n.injectors == m.injectors[i := j] && n.e.nextSeq == m.e.nextSeq
    requires n.e.eventStates.Keys == m.e.eventStates.Keys + Numbers(InFlight(m.injectors[i]))
    ensures Flight(n)
  {
    forall k | 0 <= k < |n.injectors| ensures Unused(n.e, InFlight(n.injectors[k])) {
      assert Unused(m.e, InFlight(m.injectors[k]));
      if k != i {
        var lo, hi := if k < i then k else i, if k < i then i else k;
        assert Numbers(InFlight(m.injectors[lo])) !! Numbers(InFlight(m.injectors[hi]));
      }
    }
  }

  /** A reservation added beyond the counter collides with none of the others. */
  lemma ReserveKeepsFlight(m: Machine, i: nat, n: Machine, j: Injector)
    requires Flight(m) && i < |m.injectors| && m.injectors[i].Tracked?
    requires n.injectors == m.injectors[i := j] && n.e.nextSeq >= m.e.nextSeq
    requires n.e.eventStates == m.e.eventStates && Unused(n.e, InFlight(j))
    requires forall a | a in InFlight(j) :: a.seqNo > m.e.nextSeq
    ensures Flight(n)
  {
    forall k | 0 <= k < |n.injectors| && k != i
      ensures Unused(n.e, InFlight(n.injectors[k])) && Numbers(InFlight(n.injectors[k])) !! Numbers(InFlight(j))
    {
      assert Unused(m.e, InFlight(m.injectors[k]));
    }
  }

  lemma ExtendKeepsFlight(m: Machine, n: Machine, j: Injector)
    requires Flight(m) && j.Tracked?
    requires n.injectors == m.injectors + [j] && n.e.nextSeq == m.e.nextSeq
    requires n.e.eventStates == m.e.eventStates
    ensures Flight(n)
  {
    assert forall k | 0 <= k < |m.injectors| :: n.injectors[k] == m.injectors[k];
    forall k | 0 <= k < |n.injectors| ensures Unused(n.e, InFlight(n.injectors[k])) {
      assert k < |m.injectors| ==> Unused(m.e, InFlight(m.injectors[k]));
    }
  }

  lemma AdmitKeepsFormed(m: Machine, i: nat)
    requires Formed(m) && InjectionEnabled(m, Admit(i))
    ensures Formed(DoAdmit(m, i))
  {
    var n := DoAdmit(m, i);
    SameQueues(m.e, n.e);
    AdmittedIsUnused(m, i);
    ReserveKeepsFlight(m, i, n, n.injectors[i]);
  }

  lemma AdmittedIsUnused(m: Machine, i: nat)
    requires Formed(m) && InjectionEnabled(m, Admit(i))
    ensures var n := DoAdmit(m, i);
      Unused(n.e, InFlight(n.injectors[i])) && forall a | a in InFlight(n.injectors[i]) :: a.seqNo > m.e.nextSeq
  {
    var j := m.injectors[i];
    var (_, admission) := Reserve(m.e, j.batch, j.inner, m.now);
    if admission.Reserved? {
      ReservationUnused(m.e, j.batch, j.inner, m.now);
      forall a | a in admission.actions ensures a.seqNo > m.e.nextSeq {
        var k :| 0 <= k < |admission.actions| && admission.actions[k] == a;
      }
    }
  }

  lemma PersistKeepsFormed(m: Machine, i: nat, ok: bool)
    requires Formed(m) && InjectionEnabled(m, Persist(i, ok))
    ensures Formed(DoPersist(m, i, ok))
  {
    var n := DoPersist(m, i, ok);
    assert Unused(m.e, InFlight(m.injectors[i]));
    if ok {
      SameQueues(m.e, n.e);
      assert forall k | 0 <= k < |n.injectors| :: InFlight(n.injectors[k]) == InFlight(m.injectors[k]);
      forall k | 0 <= k < |n.injectors| ensures Unused(n.e, InFlight(n.injectors[k])) {
        assert Unused(m.e, InFlight(m.injectors[k]));
      }
    } else {
      DropKeepsShape(m.e, m.injectors[i].actions);
      ReleaseKeepsFlight(m, i, n, n.injectors[i]);
    }
  }

  lemma CommitKeepsFormed(m: Machine, i: nat)
    requires Formed(m) && InjectionEnabled(m, Commit(i))
    ensures Formed(DoCommit(m, i))
  {
    var n := DoCommit(m, i);
    assert Unused(m.e, InFlight(m.injectors[i]));
    CommitKeepsShape(m.e, m.injectors[i].actions);
    ReleaseKeepsFlight(m, i, n, n.injectors[i]);
  }

  lemma GiveUpKeepsFormed(m: Machine, i: nat)
    requires Formed(m) && InjectionEnabled(m, GiveUp(i))
    ensures Formed(DoGiveUp(m, i))
  {
    var n := DoGiveUp(m, i);
    SameQueues(m.e, n.e);
    assert Numbers(InFlight(m.injectors[i])) == {};
    ReleaseKeepsFlight(m, i, n, n.injectors[i]);
  }

  lemma PopKeepsFormed(m: Machine)
    requires Formed(m) && m.runner.Due?
    ensures Formed(DoPop(m))
  {
    var seqNo := m.runner.action.seqNo;
    var n := DoPop(m);
    if n.runner.Popped? {
      PopTakesOne(m.e, seqNo);
      assert n.runner.action in Remaining(m.e);
    } else {
      SameQueues(m.e, n.e);
    }
    SameFlight(m, n);
  }

  lemma WorldKeepsFormed(m: Machine, step: WorldStep)
    requires Formed(m)
    ensures Formed(WorldNext(m, step))
  {
    SameQueues(m.e, WorldNext(m, step).e);
    SameFlight(m, WorldNext(m, step));
  }

  /** The queues and the reservations are left alone. */
  predicate Framed(m: Machine, n: Machine)
  {
    && n.e.timeline == m.e.timeline && n.e.nextStatic == m.e.nextStatic && n.e.pending == m.e.pending
    && n.e.eventStates.Keys == m.e.eventStates.Keys && n.e.nextSeq == m.e.nextSeq
    && n.e.reserved == m.e.reserved && n.injectors == m.injectors && n.late == m.late
    && n.tracked == m.tracked && n.now == m.now
  }

  lemma PeekFrame(m: Machine)
    ensures Framed(m, DoPeek(m)) && DoPeek(m).e.lastActionAt == m.e.lastActionAt
  {
  }

  lemma BeginFrame(m: Machine)
    requires m.runner.Popped?
    ensures Framed(m, DoBegin(m)) && DoBegin(m).e.lastActionAt == m.runner.action.atMs
  {
  }

  lemma ReturnFrame(m: Machine, result: Result)
    requires m.runner.Acting?
    ensures Framed(m, DoReturn(m, result)) && DoReturn(m, result).e.lastActionAt == m.e.lastActionAt
  {
  }

  /** The runner's steps other than pop leave the queues and the reservations alone, and only the start of
      an action changes the time of the last one. */
  lemma RunnerFrame(m: Machine, step: RunnerStep)
    requires RunnerEnabled(m, step) && !step.Pop?
    ensures Framed(m, RunnerNext(m, step))
    ensures RunnerNext(m, step).e.lastActionAt == if step.Begin? then m.runner.action.atMs else m.e.lastActionAt
  {
    match step
    case Peek => PeekFrame(m);
    case Begin => BeginFrame(m);
    case Return(result) => ReturnFrame(m, result);
    case _ =>
  }

  lemma RunnerKeepsFormed(m: Machine, step: RunnerStep)
    requires Formed(m) && RunnerEnabled(m, step)
    ensures Formed(RunnerNext(m, step))
  {
    if step.Pop? {
      PopKeepsFormed(m);
    } else {
      RunnerFrame(m, step);
      var n := RunnerNext(m, step);
      SameQueues(m.e, n.e);
      SameFlight(m, n);
    }
  }

  lemma InjectionKeepsFormed(m: Machine, step: InjectionStep)
    requires Formed(m) && InjectionEnabled(m, step)
    ensures Formed(InjectionNext(m, step))
  {
    match step
    case Inject(command, inner, batch) =>
      var n := DoInject(m, command, inner, batch);
      SameQueues(m.e, n.e);
      ExtendKeepsFlight(m, n, Tracked(command, inner, batch));
    case Admit(i) => AdmitKeepsFormed(m, i);
    case Persist(i, ok) => PersistKeepsFormed(m, i, ok);
    case Commit(i) => CommitKeepsFormed(m, i);
    case GiveUp(i) => GiveUpKeepsFormed(m, i);
  }

  lemma StepKeepsFormed(m: Machine, step: Step)
    requires Formed(m) && Enabled(m, step)
    ensures Formed(Next(m, step))
  {
    match step
    case World(w) => WorldKeepsFormed(m, w);
    case Advance(r) => RunnerKeepsFormed(m, r);
    case Injecting(x) => InjectionKeepsFormed(m, x);
  }

  lemma InitiallyFormed(m: Machine)
    requires Initial(m)
    ensures Formed(m)
  {
    assert Remaining(m.e) == m.e.timeline;
    forall n | n in m.e.eventStates ensures n <= m.e.nextSeq {
      var a :| a in m.e.timeline && a.seqNo == n;
    }
  }
}
