/** Pacing independence. In a closed run every dynamic batch is issued from inside an action, so it is
    anchored at that action's own virtual time. Whatever the operators and the clock do, the executed
    actions are then a prefix of one reference trace, which always takes the least remaining action. */
module EngineClosedRun {
  import opened Actions
  import opened EngineState
  import opened EngineMachine
  import opened EngineShape
  import opened EngineLifecycle
  import opened EngineAdmission
  import opened EngineOrder

  datatype Request = Request(command: string, batch: seq<DynamicAction>)

  /** What the last action of a history asks for while it runs, in order. */
  type Script = seq<Action> -> seq<Request>

  // ---- the reference executor: no clock, no queues, no threads ----

  datatype Reference = Reference(remaining: set<Action>, nextSeq: nat, events: nat)

  ghost predicate IsLeast(s: set<Action>, a: Action)
  {
    a in s && forall b | b in s :: b == a || Before(a, b)
  }

  function Elements(s: seq<Action>): set<Action>
  {
    set a | a in s
  }

  predicate Fits(r: Reference, at: int, batch: seq<DynamicAction>)
  {
    && (forall i | 0 <= i < |batch| :: batch[i].delayMs >= 0)
    && r.events + |batch| <= MAX_SCHEDULED_ACTIONS
    && FirstOverflow(at, batch) == |batch|
  }

  function Serve(r: Reference, at: int, batch: seq<DynamicAction>): Reference
  {
    if (exists i | 0 <= i < |batch| :: batch[i].delayMs < 0) || r.events + |batch| > MAX_SCHEDULED_ACTIONS then r
    else if FirstOverflow(at, batch) < |batch| then r.(nextSeq := r.nextSeq + FirstOverflow(at, batch) + 1)
    else Reference(r.remaining + Elements(Stamp(at, r.nextSeq, batch)), r.nextSeq + |batch|, r.events + |batch|)
  }

  function ServeAll(r: Reference, at: int, requests: seq<Request>): Reference
  {
    if requests == [] then r
    else
      var last := |requests| - 1;
      Serve(ServeAll(r, at, requests[..last]), at, requests[last].batch)
  }

  function Requests(script: Script, trace: seq<Action>): seq<Request>
  {
    if trace == [] then [] else script(trace)
  }

  /** The reference state after a trace, with only the first `done` requests of its last action served. */
  function Partial(script: Script, start: Reference, trace: seq<Action>, done: nat): Reference
    requires done <= |Requests(script, trace)|
    decreases |trace|, 0
  {
    if trace == [] then start
    else
      var a := trace[|trace| - 1];
      var before := Reached(script, start, trace[..|trace| - 1]);
      ServeAll(before.(remaining := before.remaining - {a}), a.atMs, script(trace)[..done])
  }

  function Reached(script: Script, start: Reference, trace: seq<Action>): Reference
    decreases |trace|, 1
  {
    Partial(script, start, trace, |Requests(script, trace)|)
  }

  /** The trace takes the least remaining action every time. */
  ghost predicate Follows(script: Script, start: Reference, trace: seq<Action>)
    decreases |trace|
  {
    trace == [] ||
    var shorter := trace[..|trace| - 1];
    Follows(script, start, shorter)
    && IsLeast(Reached(script, start, shorter).remaining, trace[|trace| - 1])
  }

  lemma LeastUnique(s: set<Action>, a: Action, b: Action)
    requires IsLeast(s, a) && IsLeast(s, b)
    ensures a == b
  {
  }

  lemma {:induction false} FollowsPrefix(script: Script, start: Reference, trace: seq<Action>, k: nat)
    requires Follows(script, start, trace) && k <= |trace|
    ensures Follows(script, start, trace[..k])
    decreases |trace|
  {
    if k < |trace| {
      FollowsPrefix(script, start, trace[..|trace| - 1], k);
      assert trace[..|trace| - 1][..k] == trace[..k];
    } else {
      assert trace[..k] == trace;
    }
  }

  /** There is only one reference trace: of two, the shorter is a prefix of the longer. */
  lemma {:induction false} OneReferenceTrace(script: Script, start: Reference, s: seq<Action>, t: seq<Action>)
    requires Follows(script, start, s) && Follows(script, start, t) && |s| <= |t|
    ensures s <= t
    decreases |s|
  {
    if s != [] {
      var k := |s| - 1;
      FollowsPrefix(script, start, t, k + 1);
      FollowsPrefix(script, start, t, k);
      OneReferenceTrace(script, start, s[..k], t[..k]);
      assert s[..k] == t[..k] && t[..k + 1][..k] == t[..k];
      LeastUnique(Reached(script, start, s[..k]).remaining, s[k], t[..k + 1][k]);
      assert s == s[..k] + [s[k]];
    }
  }

  // ---- closed runs ----

  function Latest(m: Machine): Injector
  {
    if m.injectors == [] then Closed("", true) else m.injectors[|m.injectors| - 1]
  }

  /** Steps a closed run may take, when the current action has issued `issued` requests so far. */
  ghost predicate ClosedStep(script: Script, m: Machine, issued: nat, step: Step)
  {
    match step
    case World(_) => true
    case Advance(r) => r.Return? ==> issued == |Requests(script, m.executed)|
    case Injecting(Inject(command, inner, batch)) =>
      && inner && Latest(m).Closed?
      && issued < |Requests(script, m.executed)|
      && Requests(script, m.executed)[issued] == Request(command, batch)
    case Injecting(Persist(_, ok)) => ok
    case Injecting(_) => true
  }

  function Issued(issued: nat, step: Step): nat
  {
    if step == Advance(Begin) then 0
    else if step.Injecting? && step.injection.Inject? then issued + 1
    else issued
  }

  ghost predicate ClosedRun(script: Script, m: Machine, issued: nat, steps: seq<Step>, end: Machine, issuedEnd: nat)
    decreases |steps|
  {
    if steps == [] then m == end && issued == issuedEnd
    else
      && Enabled(m, steps[0]) && ClosedStep(script, m, issued, steps[0])
      && ClosedRun(script, Next(m, steps[0]), Issued(issued, steps[0]), steps[1..], end, issuedEnd)
  }

  ghost function StartReference(m: Machine): Reference
  {
    Reference(Elements(m.e.timeline), m.e.nextSeq, |m.e.eventStates|)
  }

  // ---- the simulation ----

  /** The run may still start an action. A stop leaves at most the one that was already due. */
  predicate Alive(m: Machine)
  {
    !Left(m.runner) && (!m.e.stopped || m.runner.Due? || m.runner.Popped?)
  }

  predicate Unserved(j: Injector)
  {
    j.Tracked? || j.Held? || j.Persisted?
  }

  function Served(m: Machine, issued: nat): int
  {
    if Unserved(Latest(m)) then issued - 1 else issued
  }

  /** One injection at a time, all from inside the running action. */
  ghost predicate Solo(script: Script, m: Machine, issued: nat)
  {
    && (forall i | 0 <= i < |m.injectors| - 1 :: m.injectors[i].Closed?)
    && Latest(m).inner && (!Latest(m).Closed? ==> m.runner.Acting?)
    && 0 <= Served(m, issued) && issued <= |Requests(script, m.executed)|
    && (!m.runner.Started? && !m.runner.Acting? && !Left(m.runner) ==> issued == |Requests(script, m.executed)|)
    && (m.executed != [] ==> m.e.lastActionAt == m.executed[|m.executed| - 1].atMs)
    && (m.runner.Started? || m.runner.Acting? ==>
          m.executed != [] && m.executed[|m.executed| - 1] == m.runner.action)
  }

  /** The reservation in hand, seen from the reference state it will be applied to. */
  ghost predicate Pending(script: Script, m: Machine, issued: nat, r: Reference)
    requires Unserved(Latest(m)) ==> 0 < issued <= |Requests(script, m.executed)|
  {
    var j := Latest(m);
    if j.Tracked? then
      && j.batch == Requests(script, m.executed)[issued - 1].batch && j.batch != []
      && m.e.nextSeq == r.nextSeq && m.e.reserved == 0
    else if j.Held? || j.Persisted? then
      var batch := Requests(script, m.executed)[issued - 1].batch;
      && j.actions == Stamp(m.e.lastActionAt, r.nextSeq, batch) && Fits(r, m.e.lastActionAt, batch)
      && m.e.nextSeq == r.nextSeq + |batch| && m.e.reserved == |batch|
    else m.e.nextSeq == r.nextSeq && m.e.reserved == 0
  }

  function Yet(m: Machine): set<Action>
    requires m.e.nextStatic <= |m.e.timeline|
  {
    Elements(Remaining(m.e)) + if m.runner.Popped? then {m.runner.action} else {}
  }

  ghost predicate Mirrors(script: Script, start: Reference, m: Machine, issued: nat)
    requires m.e.nextStatic <= |m.e.timeline| && Solo(script, m, issued)
  {
    var r := Partial(script, start, m.executed, Served(m, issued));
    && Yet(m) == r.remaining && |m.e.eventStates| == r.events
    && Pending(script, m, issued, r)
    && (m.runner.Popped? ==> IsLeast(r.remaining, m.runner.action))
  }

  ghost predicate Simulates(script: Script, start: Reference, m: Machine, issued: nat)
  {
    && m.e.nextStatic <= |m.e.timeline| && Solo(script, m, issued) && m.late == {}
    && Follows(script, start, m.executed)
    && (Alive(m) ==> Mirrors(script, start, m, issued))
  }

  // ---- preservation, step by step ----

  /** Steps that change neither queue, log, reservation nor the runner's hold on an action. */
  lemma CarriedSimulation(script: Script, start: Reference, m: Machine, n: Machine, issued: nat)
    requires Simulates(script, start, m, issued) && Solo(script, n, issued)
    requires n.injectors == m.injectors && n.executed == m.executed && n.late == m.late
    requires n.e.timeline == m.e.timeline && n.e.nextStatic == m.e.nextStatic && n.e.pending == m.e.pending
    requires n.e.eventStates.Keys == m.e.eventStates.Keys
    requires n.e.nextSeq == m.e.nextSeq && n.e.reserved == m.e.reserved && n.e.lastActionAt == m.e.lastActionAt
    requires Alive(n) ==> Alive(m)
    requires m.runner.Popped? <==> n.runner.Popped?
    requires n.runner.Popped? ==> n.runner == m.runner
    ensures Simulates(script, start, n, issued)
  {
    assert Remaining(n.e) == Remaining(m.e);
    assert |n.e.eventStates| == |n.e.eventStates.Keys| && |m.e.eventStates| == |m.e.eventStates.Keys|;
    assert Latest(n) == Latest(m);
  }

  lemma WorldSimulates(script: Script, start: Reference, m: Machine, issued: nat, step: WorldStep)
    requires Simulates(script, start, m, issued)
    ensures Simulates(script, start, WorldNext(m, step), issued)
  {
    var n := WorldNext(m, step);
    WorldFrame(m, step);
    assert Latest(n) == Latest(m);
    CarriedSimulation(script, start, m, n, issued);
  }

  /** The world touches the clock and the flags, nothing else. */
  lemma WorldFrame(m: Machine, step: WorldStep)
    ensures var n := WorldNext(m, step);
      && n.runner == m.runner && n.injectors == m.injectors && n.executed == m.executed && n.late == m.late
      && n.e.timeline == m.e.timeline && n.e.nextStatic == m.e.nextStatic && n.e.pending == m.e.pending
      && n.e.eventStates == m.e.eventStates && n.e.nextSeq == m.e.nextSeq && n.e.reserved == m.e.reserved
      && n.e.lastActionAt == m.e.lastActionAt && (m.e.stopped ==> n.e.stopped)
  {
  }

  lemma PassSimulates(script: Script, start: Reference, m: Machine, issued: nat, step: RunnerStep)
    requires Simulates(script, start, m, issued) && RunnerEnabled(m, step)
    requires ClosedStep(script, m, issued, Advance(step)) && !step.Pop? && !step.Begin?
    ensures Simulates(script, start, RunnerNext(m, step), issued)
  {
    RunnerFrame(m, step);
    PassSolo(script, m, issued, step);
    PassStarts(m, step);
    CarriedSimulation(script, start, m, RunnerNext(m, step), issued);
  }

  lemma PassStarts(m: Machine, step: RunnerStep)
    requires RunnerEnabled(m, step) && !step.Pop? && !step.Begin?
    ensures var n := RunnerNext(m, step);
      && n.executed == m.executed && n.e.stopped == m.e.stopped && (Alive(n) ==> Alive(m))
      && !m.runner.Popped? && !n.runner.Popped?
  {
    match step
    case Return(result) => ReturnStarts(m, result);
    case _ =>
  }

  lemma ReturnStarts(m: Machine, result: Result)
    requires m.runner.Acting?
    ensures DoReturn(m, result).executed == m.executed && DoReturn(m, result).e.stopped == m.e.stopped
  {
  }

  lemma PassSolo(script: Script, m: Machine, issued: nat, step: RunnerStep)
    requires Solo(script, m, issued) && RunnerEnabled(m, step)
    requires ClosedStep(script, m, issued, Advance(step)) && !step.Pop? && !step.Begin?
    ensures Solo(script, RunnerNext(m, step), issued)
  {
    RunnerFrame(m, step);
    assert Latest(RunnerNext(m, step)) == Latest(m);
    if step.Return? && m.injectors != [] {
      assert !OpenInner(m.injectors[|m.injectors| - 1]);
    }
  }

  /** The popped action is the least of all that remain. */
  lemma PopIsLeast(m: Machine)
    requires Shape(m.e) && Sequenced(m) && m.late == {} && m.runner.Due? && DoPop(m).runner.Popped?
    ensures IsLeast(Elements(Remaining(m.e)), DoPop(m).runner.action)
    ensures Elements(Remaining(m.e)) == Elements(Remaining(DoPop(m).e)) + {DoPop(m).runner.action}
  {
    var n := DoPop(m);
    var p := n.runner.action;
    PopTakesOne(m.e, m.runner.action.seqNo);
    PoppedAction(m);
    FloorIs(m);
    if Committed(m) {
      assert forall a | a in Remaining(m.e) :: a == p || Before(p, a);
    }
  }

  lemma PopMirrors(script: Script, start: Reference, m: Machine, issued: nat)
    requires Shape(m.e) && Sequenced(m) && Simulates(script, start, m, issued)
    requires m.runner.Due? && DoPop(m).runner.Popped? && Solo(script, DoPop(m), issued)
    ensures DoPop(m).e.nextStatic <= |m.e.timeline|
    ensures Mirrors(script, start, DoPop(m), issued)
  {
    var n := DoPop(m);
    assert Latest(n) == Latest(m);
    PopIsLeast(m);
    PopFrame(m);
    assert Yet(n) == Yet(m);
  }

  lemma PopFrame(m: Machine)
    requires m.runner.Due?
    ensures var n := DoPop(m);
      && n.executed == m.executed && n.injectors == m.injectors && n.e.eventStates == m.e.eventStates
      && n.e.nextSeq == m.e.nextSeq && n.e.reserved == m.e.reserved && n.e.lastActionAt == m.e.lastActionAt
      && n.e.timeline == m.e.timeline && (m.e.nextStatic <= |m.e.timeline| ==> n.e.nextStatic <= |m.e.timeline|)
  {
  }

  lemma PopSolo(script: Script, m: Machine, issued: nat)
    requires Solo(script, m, issued) && m.runner.Due?
    ensures Solo(script, DoPop(m), issued)
  {
    assert Latest(DoPop(m)) == Latest(m);
  }

  lemma PopSimulates(script: Script, start: Reference, m: Machine, issued: nat)
    requires Shape(m.e) && Sequenced(m) && Simulates(script, start, m, issued) && m.runner.Due?
    ensures Simulates(script, start, DoPop(m), issued)
  {
    var n := DoPop(m);
    PopSolo(script, m, issued);
    if n.runner.Popped? {
      PopMirrors(script, start, m, issued);
    } else {
      CarriedSimulation(script, start, m, n, issued);
    }
  }

  lemma BeginSimulates(script: Script, start: Reference, m: Machine, issued: nat)
    requires Shape(m.e) && PoppedOnce(m) && Simulates(script, start, m, issued) && m.runner.Popped?
    ensures Simulates(script, start, DoBegin(m), 0)
  {
    var n, a := DoBegin(m), m.runner.action;
    assert n.executed[..|n.executed| - 1] == m.executed;
    assert Latest(n) == Latest(m);
    assert Served(m, issued) == |Requests(script, m.executed)|;
    assert Remaining(n.e) == Remaining(m.e);
    assert n.e.eventStates.Keys == m.e.eventStates.Keys;
    assert |n.e.eventStates| == |n.e.eventStates.Keys| && |m.e.eventStates| == |m.e.eventStates.Keys|;
    assert a !in Elements(Remaining(m.e)) by {
      assert a.seqNo !in Numbers(Remaining(m.e));
    }
    assert script(n.executed)[..0] == [];
  }

  lemma InjectSimulates(script: Script, start: Reference, m: Machine, issued: nat, x: InjectionStep)
    requires Simulates(script, start, m, issued) && x.Inject? && InjectionEnabled(m, x)
    requires ClosedStep(script, m, issued, Injecting(x))
    ensures Simulates(script, start, InjectionNext(m, x), issued + 1)
  {
    var n := InjectionNext(m, x);
    assert Latest(n) == Tracked(x.command, x.inner, x.batch);
    forall i | 0 <= i < |n.injectors| - 1 ensures n.injectors[i].Closed? {
      assert n.injectors[i] == m.injectors[i];
      if i == |m.injectors| - 1 {
        assert m.injectors[i] == Latest(m);
      }
    }
    assert Remaining(n.e) == Remaining(m.e);
  }

  /** Any injection that is still open is the latest one. */
  lemma OpenIsLatest(script: Script, m: Machine, issued: nat, i: nat)
    requires Solo(script, m, issued) && i < |m.injectors| && !m.injectors[i].Closed?
    ensures i == |m.injectors| - 1 && m.injectors[i] == Latest(m) && m.runner.Acting?
  {
  }

  /** The prefix of requests served grows by the one just decided. */
  lemma ServeOneMore(script: Script, start: Reference, trace: seq<Action>, k: nat)
    requires trace != [] && 0 < k <= |script(trace)|
    ensures Partial(script, start, trace, k)
      == Serve(Partial(script, start, trace, k - 1), trace[|trace| - 1].atMs, script(trace)[k - 1].batch)
  {
    assert script(trace)[..k][..k - 1] == script(trace)[..k - 1];
  }

  lemma SoloReplace(script: Script, m: Machine, n: Machine, issued: nat, j: Injector)
    requires Solo(script, m, issued) && m.injectors != [] && !Latest(m).Closed?
    requires n.injectors == m.injectors[|m.injectors| - 1 := j] && j.inner
    requires n.runner == m.runner && n.executed == m.executed && n.e.lastActionAt == m.e.lastActionAt
    requires Unserved(j) ==> Unserved(Latest(m))
    ensures Solo(script, n, issued) && Latest(n) == j
  {
    assert Latest(n) == j;
  }

  lemma AdmitSolo(script: Script, m: Machine, issued: nat, i: nat)
    requires Solo(script, m, issued) && InjectionEnabled(m, Admit(i))
    ensures i == |m.injectors| - 1 && m.injectors[i] == Latest(m) && m.runner.Acting?
    ensures Solo(script, DoAdmit(m, i), issued) && Latest(DoAdmit(m, i)) == DoAdmit(m, i).injectors[i]
  {
    OpenIsLatest(script, m, issued, i);
    var n := DoAdmit(m, i);
    SoloReplace(script, m, n, issued, n.injectors[i]);
  }

  lemma AdmitFrame(m: Machine, i: nat)
    requires InjectionEnabled(m, Admit(i))
    ensures var n := DoAdmit(m, i);
      && n.late == m.late && n.executed == m.executed && n.runner == m.runner
      && n.e.nextStatic == m.e.nextStatic && n.e.timeline == m.e.timeline
      && n.e.stopped == m.e.stopped
  {
  }

  lemma AdmitSimulates(script: Script, start: Reference, m: Machine, issued: nat, i: nat)
    requires Simulates(script, start, m, issued) && InjectionEnabled(m, Admit(i))
    requires m.e.finished <==> Ended(m.runner)
    ensures Simulates(script, start, DoAdmit(m, i), issued)
  {
    AdmitSolo(script, m, issued, i);
    AdmitFrame(m, i);
    if Alive(m) {
      ServeOneMore(script, start, m.executed, issued);
      AdmitMirrors(script, start, m, issued, i);
    }
  }

  lemma AdmitMirrors(script: Script, start: Reference, m: Machine, issued: nat, i: nat)
    requires Simulates(script, start, m, issued) && InjectionEnabled(m, Admit(i)) && Alive(m)
    requires m.e.finished <==> Ended(m.runner)
    requires i == |m.injectors| - 1 && m.runner.Acting?
    requires Solo(script, DoAdmit(m, i), issued) && Latest(DoAdmit(m, i)) == DoAdmit(m, i).injectors[i]
    requires m.executed != [] && issued > 0 && Partial(script, start, m.executed, issued)
      == Serve(Partial(script, start, m.executed, issued - 1), m.e.lastActionAt, script(m.executed)[issued - 1].batch)
    ensures Mirrors(script, start, DoAdmit(m, i), issued)
  {
    var n, j := DoAdmit(m, i), m.injectors[i];
    assert j == Latest(m);
    var r := Partial(script, start, m.executed, issued - 1);
    assert Pending(script, m, issued, r);
    assert AcceptsNow(m.e) && Anchor(m.e, j.inner, m.now) == m.e.lastActionAt;
    ReserveServes(m.e, j.batch, m.now, r);
    assert Remaining(n.e) == Remaining(m.e);
  }

  /** A reservation decides as the reference does: it hands out the same actions, or takes the same numbers. */
  lemma ReserveServes(e: State, batch: seq<DynamicAction>, now: real, r: Reference)
    requires |e.eventStates| == r.events && e.nextSeq == r.nextSeq && e.reserved == 0 && AcceptsNow(e) && batch != []
    ensures var (f, admission) := Reserve(e, batch, true, now);
      var served := Serve(r, e.lastActionAt, batch);
      && f.timeline == e.timeline && f.nextStatic == e.nextStatic && f.pending == e.pending
      && f.eventStates == e.eventStates && f.lastActionAt == e.lastActionAt
      && (admission.Reserved? <==> Fits(r, e.lastActionAt, batch)) && !admission.Nothing?
      && (admission.Reserved? ==>
            && admission.actions == Stamp(e.lastActionAt, r.nextSeq, batch)
            && f.nextSeq == r.nextSeq + |batch| && f.reserved == |batch|)
      && (!admission.Reserved? ==> served == r.(nextSeq := f.nextSeq) && f.reserved == 0)
  {
  }

  lemma PersistSimulates(script: Script, start: Reference, m: Machine, issued: nat, i: nat)
    requires Simulates(script, start, m, issued) && InjectionEnabled(m, Persist(i, true))
    ensures Simulates(script, start, DoPersist(m, i, true), issued)
  {
    OpenIsLatest(script, m, issued, i);
    var n := DoPersist(m, i, true);
    SoloReplace(script, m, n, issued, n.injectors[i]);
    assert Remaining(n.e) == Remaining(m.e);
  }

  lemma GiveUpSimulates(script: Script, start: Reference, m: Machine, issued: nat, i: nat)
    requires Simulates(script, start, m, issued) && InjectionEnabled(m, GiveUp(i))
    ensures Simulates(script, start, DoGiveUp(m, i), issued)
  {
    OpenIsLatest(script, m, issued, i);
    var n := DoGiveUp(m, i);
    SoloReplace(script, m, n, issued, n.injectors[i]);
    assert Remaining(n.e) == Remaining(m.e);
  }

  lemma StampBeyond(base: int, after: nat, batch: seq<DynamicAction>, f: Action)
    requires forall i | 0 <= i < |batch| :: batch[i].delayMs >= 0
    requires f.atMs == base && f.seqNo <= after + |batch| && f.seqNo !in Numbers(Stamp(base, after, batch))
    ensures forall a | a in Stamp(base, after, batch) :: Before(f, a)
  {
    var actions := Stamp(base, after, batch);
    assert f.seqNo > after ==> actions[f.seqNo - after - 1].seqNo in Numbers(actions);
    forall a | a in actions ensures Before(f, a) {
      var k :| 0 <= k < |actions| && actions[k] == a;
    }
  }

  /** A batch issued from inside the running action is never late. */
  lemma InnerIsPunctual(script: Script, start: Reference, m: Machine, issued: nat, i: nat)
    requires Formed(m) && Sequenced(m) && Simulates(script, start, m, issued) && Alive(m)
    requires i == |m.injectors| - 1 && m.injectors[i] == Latest(m) && m.runner.Acting? && m.injectors[i].Persisted?
    ensures LateNumbers(m, m.injectors[i].actions) == {}
  {
    var actions := m.injectors[i].actions;
    var r := Partial(script, start, m.executed, issued - 1);
    assert Pending(script, m, issued, r);
    var f := m.executed[|m.executed| - 1];
    assert f.seqNo in m.e.eventStates by {
      assert f in Taken(m) && f.seqNo in Numbers(Taken(m));
    }
    assert f.seqNo !in Numbers(actions) by {
      assert Unused(m.e, InFlight(m.injectors[i]));
    }
    StampBeyond(m.e.lastActionAt, r.nextSeq, Requests(script, m.executed)[issued - 1].batch, f);
  }

  lemma CommitFrame(m: Machine, i: nat)
    requires InjectionEnabled(m, Commit(i))
    ensures var n := DoCommit(m, i);
      && n.executed == m.executed && n.runner == m.runner && n.e.stopped == m.e.stopped
      && n.e.nextStatic == m.e.nextStatic && n.e.timeline == m.e.timeline
      && (AcceptsNow(m.e) ==> n.injectors[i].Closed?)
      && (!AcceptsNow(m.e) || LateNumbers(m, m.injectors[i].actions) == {} ==> n.late == m.late)
  {
  }

  lemma CommitSimulates(script: Script, start: Reference, m: Machine, issued: nat, i: nat)
    requires Formed(m) && Sequenced(m) && Simulates(script, start, m, issued) && InjectionEnabled(m, Commit(i))
    requires m.e.finished <==> Ended(m.runner)
    ensures Simulates(script, start, DoCommit(m, i), issued)
  {
    CommitSolo(script, m, issued, i);
    CommitFrame(m, i);
    if Alive(m) {
      InnerIsPunctual(script, start, m, issued, i);
      CommitIsMirrored(script, start, m, issued, i);
    }
    CommittedSimulates(script, start, m, DoCommit(m, i), issued);
  }

  lemma CommitIsMirrored(script: Script, start: Reference, m: Machine, issued: nat, i: nat)
    requires Formed(m) && Simulates(script, start, m, issued) && InjectionEnabled(m, Commit(i)) && Alive(m)
    requires m.e.finished <==> Ended(m.runner)
    requires i == |m.injectors| - 1 && m.injectors[i] == Latest(m) && m.runner.Acting?
    requires Solo(script, DoCommit(m, i), issued) && Latest(DoCommit(m, i)) == DoCommit(m, i).injectors[i]
    ensures DoCommit(m, i).e.nextStatic <= |DoCommit(m, i).e.timeline|
    ensures Mirrors(script, start, DoCommit(m, i), issued)
  {
    CommitFrame(m, i);
    ReservationInHand(script, start, m, issued);
    ServeOneMore(script, start, m.executed, issued);
    CommitFacts(m, i);
    var r, batch := Partial(script, start, m.executed, issued - 1), script(m.executed)[issued - 1].batch;
    ServedWhole(r, m.e.lastActionAt, batch);
    CommitMirrors(script, start, m, DoCommit(m, i), issued, r, batch);
  }

  lemma CommittedSimulates(script: Script, start: Reference, m: Machine, n: Machine, issued: nat)
    requires Simulates(script, start, m, issued) && Solo(script, n, issued)
    requires n.executed == m.executed && n.runner == m.runner && n.e.stopped == m.e.stopped
    requires n.e.nextStatic == m.e.nextStatic && n.e.timeline == m.e.timeline && n.late == m.late
    requires Alive(m) ==> n.e.nextStatic <= |n.e.timeline| && Mirrors(script, start, n, issued)
    ensures Simulates(script, start, n, issued)
  {
  }

  lemma CommitElements(e: State, actions: seq<Action>)
    requires Shape(e) && Unused(e, actions) && AcceptsNow(e)
    ensures Elements(Remaining(CommitBatch(e, actions))) == Elements(Remaining(e)) + Elements(actions)
  {
    CommitKeepsShape(e, actions);
  }

  /** What an accepted commit of the reservation in hand does to the sets the reference speaks of. */
  lemma CommitFacts(m: Machine, i: nat)
    requires Formed(m) && InjectionEnabled(m, Commit(i)) && AcceptsNow(m.e)
    ensures var n, actions := DoCommit(m, i), m.injectors[i].actions;
      && n.e.nextStatic <= |n.e.timeline|
      && Elements(Remaining(n.e)) == Elements(Remaining(m.e)) + Elements(actions)
      && |n.e.eventStates| == |m.e.eventStates| + |actions|
      && n.e.reserved == m.e.reserved - |actions| && n.e.nextSeq == m.e.nextSeq
  {
    assert Unused(m.e, m.injectors[i].actions) by {
      assert Unused(m.e, InFlight(m.injectors[i]));
    }
    CommitElements(m.e, m.injectors[i].actions);
    CommitSizes(m.e, m.injectors[i].actions);
  }

  /** The reservation in hand is what the reference is about to serve. */
  lemma {:induction false} ReservationInHand(script: Script, start: Reference, m: Machine, issued: nat)
    requires Simulates(script, start, m, issued) && Alive(m) && Latest(m).Persisted?
    ensures m.executed != [] && 0 < issued <= |script(m.executed)| && m.runner.Acting?
    ensures Reserving(m, Partial(script, start, m.executed, issued - 1), script(m.executed)[issued - 1].batch)
  {
    assert Pending(script, m, issued, Partial(script, start, m.executed, issued - 1));
  }

  predicate Reserving(m: Machine, r: Reference, batch: seq<DynamicAction>)
  {
    && m.e.nextStatic <= |m.e.timeline| && Latest(m).Persisted? && Fits(r, m.e.lastActionAt, batch)
    && Yet(m) == r.remaining && |m.e.eventStates| == r.events
    && Latest(m).actions == Stamp(m.e.lastActionAt, r.nextSeq, batch)
    && m.e.nextSeq == r.nextSeq + |batch| && m.e.reserved == |batch|
  }

  lemma {:induction false} CommitMirrors(script: Script, start: Reference, m: Machine, n: Machine, issued: nat,
                                         r: Reference, batch: seq<DynamicAction>)
    requires Reserving(m, r, batch) && !m.runner.Popped? && n.runner == m.runner
    requires Latest(n).Closed? && Solo(script, n, issued)
    requires n.e.nextStatic <= |n.e.timeline|
    requires Partial(script, start, n.executed, issued) ==
      Reference(r.remaining + Elements(Latest(m).actions), r.nextSeq + |batch|, r.events + |batch|)
    requires Elements(Remaining(n.e)) == Elements(Remaining(m.e)) + Elements(Latest(m).actions)
    requires |n.e.eventStates| == |m.e.eventStates| + |batch|
    requires n.e.reserved == m.e.reserved - |batch| && n.e.nextSeq == m.e.nextSeq
    ensures Mirrors(script, start, n, issued)
  {
    assert Served(n, issued) == issued;
    assert Yet(n) == Elements(Remaining(n.e)) && Yet(m) == Elements(Remaining(m.e));
  }

  /** The reference serves a batch that fits whole. */
  lemma ServedWhole(r: Reference, at: int, batch: seq<DynamicAction>)
    requires Fits(r, at, batch)
    ensures Serve(r, at, batch)
      == Reference(r.remaining + Elements(Stamp(at, r.nextSeq, batch)), r.nextSeq + |batch|, r.events + |batch|)
  {
  }

  lemma CommitSolo(script: Script, m: Machine, issued: nat, i: nat)
    requires Solo(script, m, issued) && InjectionEnabled(m, Commit(i))
    ensures i == |m.injectors| - 1 && m.injectors[i] == Latest(m) && m.runner.Acting?
    ensures Solo(script, DoCommit(m, i), issued) && Latest(DoCommit(m, i)) == DoCommit(m, i).injectors[i]
  {
    OpenIsLatest(script, m, issued, i);
    var n := DoCommit(m, i);
    SoloReplace(script, m, n, issued, n.injectors[i]);
  }

  lemma InjectionSimulates(script: Script, start: Reference, m: Machine, issued: nat, x: InjectionStep)
    requires Formed(m) && Sequenced(m) && Simulates(script, start, m, issued) && InjectionEnabled(m, x)
    requires (m.e.finished <==> Ended(m.runner)) && ClosedStep(script, m, issued, Injecting(x))
    ensures Simulates(script, start, InjectionNext(m, x), Issued(issued, Injecting(x)))
  {
    match x
    case Inject(_, _, _) => InjectSimulates(script, start, m, issued, x);
    case Admit(i) => AdmitSimulates(script, start, m, issued, i);
    case Persist(i, _) => PersistSimulates(script, start, m, issued, i);
    case Commit(i) => CommitSimulates(script, start, m, issued, i);
    case GiveUp(i) => GiveUpSimulates(script, start, m, issued, i);
  }

  lemma RunnerSimulates(script: Script, start: Reference, m: Machine, issued: nat, r: RunnerStep)
    requires Orderly(m) && Sequenced(m) && Simulates(script, start, m, issued) && RunnerEnabled(m, r)
    requires ClosedStep(script, m, issued, Advance(r))
    ensures Simulates(script, start, RunnerNext(m, r), Issued(issued, Advance(r)))
  {
    if r.Pop? {
      PopSimulates(script, start, m, issued);
    } else if r.Begin? {
      BeginSimulates(script, start, m, issued);
    } else {
      PassSimulates(script, start, m, issued, r);
    }
  }

  lemma StepSimulates(script: Script, start: Reference, m: Machine, issued: nat, step: Step)
    requires Orderly(m) && Sequenced(m) && Simulates(script, start, m, issued) && Enabled(m, step)
    requires ClosedStep(script, m, issued, step)
    ensures Simulates(script, start, Next(m, step), Issued(issued, step))
  {
    match step
    case World(w) => WorldSimulates(script, start, m, issued, w);
    case Advance(r) => RunnerSimulates(script, start, m, issued, r);
    case Injecting(x) => InjectionSimulates(script, start, m, issued, x);
  }

  lemma {:induction false} ClosedRunSimulates(script: Script, start: Reference, m: Machine, issued: nat,
                                              steps: seq<Step>, end: Machine, issuedEnd: nat)
    requires Orderly(m) && Sequenced(m) && Simulates(script, start, m, issued)
    requires ClosedRun(script, m, issued, steps, end, issuedEnd)
    ensures Orderly(end) && Sequenced(end) && Simulates(script, start, end, issuedEnd)
    decreases |steps|
  {
    if steps != [] {
      StepKeepsOrderly(m, steps[0]);
      StepKeepsSequenced(m, steps[0]);
      StepSimulates(script, start, m, issued, steps[0]);
      ClosedRunSimulates(script, start, Next(m, steps[0]), Issued(issued, steps[0]), steps[1..], end, issuedEnd);
    }
  }

  // ---- the results ----

  lemma InitiallySimulates(script: Script, m: Machine)
    requires Initial(m)
    ensures Simulates(script, StartReference(m), m, 0)
  {
    assert Remaining(m.e) == m.e.timeline;
  }

  lemma {:induction false} ClosedRunInvariant(script: Script, start: Machine, steps: seq<Step>, m: Machine, issued: nat)
    requires Initial(start) && ClosedRun(script, start, 0, steps, m, issued)
    ensures Orderly(m) && Sequenced(m) && Simulates(script, StartReference(start), m, issued)
  {
    InitiallyOrderly(start);
    InitiallySequenced(start);
    InitiallySimulates(script, start);
    ClosedRunSimulates(script, StartReference(start), start, 0, steps, m, issued);
  }

  /** Whatever is paused, resumed, sped up or stopped, and however the clock ticks, a closed run
      executes a prefix of the reference trace, in strictly increasing (AtMs, Seq) order. */
  lemma {:induction false} ClosedRunFollowsReference(script: Script, start: Machine, steps: seq<Step>,
                                                     m: Machine, issued: nat)
    requires Initial(start) && ClosedRun(script, start, 0, steps, m, issued)
    ensures Follows(script, StartReference(start), m.executed)
    ensures Ordered(m.executed)
  {
    ClosedRunInvariant(script, start, steps, m, issued);
  }

  /** A closed run that exits because nothing is left, without having been stopped, has executed the
      whole reference trace. */
  lemma {:induction false} DrainedRunIsComplete(script: Script, start: Machine, steps: seq<Step>,
                                                m: Machine, issued: nat)
    requires Initial(start) && ClosedRun(script, start, 0, steps, m, issued)
    requires m.runner.Idle? && !m.e.stopped && DoPeek(m).runner.Exited?
    ensures Reached(script, StartReference(start), m.executed).remaining == {}
  {
    assert Simulates(script, StartReference(start), m, issued) by {
      ClosedRunInvariant(script, start, steps, m, issued);
    }
    NothingRemains(script, StartReference(start), m, issued);
  }

  lemma PeekExits(m: Machine)
    requires m.runner.Idle? && m.e.nextStatic <= |m.e.timeline| && DoPeek(m).runner.Exited?
    ensures Remaining(m.e) == []
  {
  }

  lemma {:induction false} NothingRemains(script: Script, start: Reference, m: Machine, issued: nat)
    requires Simulates(script, start, m, issued) && m.runner.Idle? && !m.e.stopped && DoPeek(m).runner.Exited?
    ensures Reached(script, start, m.executed).remaining == {}
  {
    PeekExits(m);
    assert Yet(m) == {};
  }

  lemma SameReference(a: Machine, b: Machine)
    requires Initial(a) && Initial(b) && a.e.timeline == b.e.timeline
    ensures StartReference(a) == StartReference(b)
  {
  }

  /** Two closed runs of one timeline and one script, paced in any two ways: the shorter log is a
      prefix of the longer, and two runs that both drained executed exactly the same actions. */
  lemma {:induction false} PacingIndependence(script: Script,
                                              start1: Machine, steps1: seq<Step>, m1: Machine, issued1: nat,
                                              start2: Machine, steps2: seq<Step>, m2: Machine, issued2: nat)
    requires Initial(start1) && Initial(start2) && start1.e.timeline == start2.e.timeline
    requires ClosedRun(script, start1, 0, steps1, m1, issued1) && ClosedRun(script, start2, 0, steps2, m2, issued2)
    requires |m1.executed| <= |m2.executed|
    ensures m1.executed <= m2.executed
    ensures m1.runner.Idle? && !m1.e.stopped && DoPeek(m1).runner.Exited? ==> m1.executed == m2.executed
  {
    var r := StartReference(start1);
    SameReference(start1, start2);
    assert Follows(script, r, m1.executed) by {
      ClosedRunFollowsReference(script, start1, steps1, m1, issued1);
    }
    assert Follows(script, r, m2.executed) by {
      ClosedRunFollowsReference(script, start2, steps2, m2, issued2);
    }
    OneReferenceTrace(script, r, m1.executed, m2.executed);
    if |m1.executed| < |m2.executed| {
      LongerTraceTakesMore(script, r, m1.executed, m2.executed);
    }
    if m1.runner.Idle? && !m1.e.stopped && DoPeek(m1).runner.Exited? {
      DrainedRunIsComplete(script, start1, steps1, m1, issued1);
    }
  }

  lemma {:induction false} LongerTraceTakesMore(script: Script, start: Reference, s: seq<Action>, t: seq<Action>)
    requires Follows(script, start, t) && s <= t && |s| < |t|
    ensures t[|s|] in Reached(script, start, s).remaining
  {
    FollowsPrefix(script, start, t, |s| + 1);
    var longer := t[..|s| + 1];
    assert longer[..|longer| - 1] == s;
  }
}
