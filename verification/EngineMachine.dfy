/** One scenario run as a transition system: the runner goroutine, any number of concurrent command
    injections and the operator's controls, interleaved at every section that runs under the engine
    mutex and at every persistence call. Every way a repository call can fail is a step of its own. */
module EngineMachine {
  import opened Actions
  import opened EngineState
  import opened Options

  datatype Result = Succeeded | FailedPlain | FailedFatal

  datatype Runner =
    | Idle                                      // about to select the head
    | Waiting(action: Action)                   // selected, pacing
    | Due(action: Action)                       // pacing done, about to pop
    | Popped(action: Action)                    // popped, about to be marked running
    | Started(action: Action)                   // marked running, persisting that
    | Acting(action: Action)                    // the action itself is executing
    | Returned(action: Action, result: Result)
    | Failing(action: Action, result: Result)   // marked failed, persisting that
    | Finishing(action: Action, result: Result)
    | Finished(action: Action, result: Result)  // counted, persisting the outcome and the cursor
    | Leaving                                   // decided to return early
    | Sweeping                                  // finished is set, open events not yet skipped
    | Settling                                  // open events skipped, commands not yet failed
    | Exited

  /** One call of simulateCommand. `inner` is set when it runs inside a scenario action. */
  datatype Injector =
    | Tracked(command: string, inner: bool, batch: seq<DynamicAction>)
    | Held(command: string, inner: bool, actions: seq<Action>)
    | Persisted(command: string, inner: bool, actions: seq<Action>)
    | Declined(command: string, inner: bool)
    | Closed(command: string, inner: bool)

  datatype Release = ByOutcome | ByRefusedAcknowledge | ByFail

  datatype Machine = Machine(
    e: State,
    now: real,
    cancelled: bool,
    runner: Runner,
    injectors: seq<Injector>,
    executed: seq<Action>,                 // every action marked running, in that order
    late: set<nat>,                        // actions committed behind the point the runner had reached
    tracked: set<string>,                  // every command ever tracked
    settled: set<(string, Release)>)       // how commands left the tracked set

  /** What the world outside the run does: time passes, the context ends, operators act. */
  datatype WorldStep = Tick(elapsed: real) | Cancel | PauseRun | ResumeRun | ChangeSpeed(speed: real) | StopRun

  datatype RunnerStep =
    | Peek | WaitDone | WaitAborted | Pop | Begin
    | PersistStart(ok: bool) | Return(result: Result) | RecordError | PersistError(ok: bool)
    | Finish | PersistFinish(ok: bool) | MarkEnd | Sweep | Settle

  datatype InjectionStep =
    | Inject(command: string, inner: bool, batch: seq<DynamicAction>)
    | Admit(i: nat) | Persist(i: nat, ok: bool) | Commit(i: nat) | GiveUp(i: nat)

  datatype Step = World(world: WorldStep) | Advance(advance: RunnerStep) | Injecting(injection: InjectionStep)

  /** The actions that have not been popped. */
  function Remaining(e: State): seq<Action>
    requires e.nextStatic <= |e.timeline|
  {
    e.timeline[e.nextStatic..] + e.pending
  }

  /** The actions an injection has reserved but not yet committed or dropped. */
  function InFlight(j: Injector): seq<Action>
  {
    match j
    case Held(_, _, actions) => actions
    case Persisted(_, _, actions) => actions
    case _ => []
  }

  predicate OpenInner(j: Injector)
  {
    j.inner && !j.Closed?
  }

  /** What the simulated asset does with a command: one outcome, or an acknowledgement and then
      a completion. */
  predicate CommandBatch(command: string, batch: seq<DynamicAction>)
  {
    || (|batch| == 1 && batch[0].effect == Outcome(command))
    || (|batch| == 2 && batch[0].effect == Acknowledge(command) && batch[1].effect == Outcome(command))
  }

  predicate WaitOver(m: Machine, a: Action)
  {
    !m.e.stopped && !m.e.paused && VirtualTimeMs(CurrentVirtual(m.e, m.now)) >= a.atMs
  }

  predicate WorldEnabled(step: WorldStep)
  {
    step.Tick? ==> step.elapsed >= 0.0
  }

  predicate RunnerEnabled(m: Machine, step: RunnerStep)
  {
    match step
    case Peek => m.runner.Idle?
    case WaitDone => m.runner.Waiting? && WaitOver(m, m.runner.action)
    case WaitAborted => m.runner.Waiting? && (m.e.stopped || m.cancelled)
    case Pop => m.runner.Due?
    case Begin => m.runner.Popped?
    case PersistStart(_) => m.runner.Started?
    case Return(_) => m.runner.Acting? && forall i | 0 <= i < |m.injectors| :: !OpenInner(m.injectors[i])
    case RecordError => m.runner.Returned? && !m.runner.result.Succeeded?
    case PersistError(_) => m.runner.Failing?
    case Finish => m.runner.Finishing? || (m.runner.Returned? && m.runner.result.Succeeded?)
    case PersistFinish(_) => m.runner.Finished?
    case MarkEnd => m.runner.Leaving?
    case Sweep => m.runner.Sweeping?
    case Settle => m.runner.Settling?
  }

  predicate InjectionEnabled(m: Machine, step: InjectionStep)
  {
    match step
    case Inject(command, inner, batch) => CommandBatch(command, batch) && (inner ==> m.runner.Acting?)
    case Admit(i) => i < |m.injectors| && m.injectors[i].Tracked?
    case Persist(i, _) => i < |m.injectors| && m.injectors[i].Held?
    case Commit(i) => i < |m.injectors| && m.injectors[i].Persisted?
    case GiveUp(i) => i < |m.injectors| && m.injectors[i].Declined?
  }

  predicate Enabled(m: Machine, step: Step)
  {
    match step
    case World(w) => WorldEnabled(w)
    case Advance(r) => RunnerEnabled(m, r)
    case Injecting(x) => InjectionEnabled(m, x)
  }

  // ---- runner steps ----

  function DoPeek(m: Machine): Machine
  {
    var (e, next) := PeekNext(m.e);
    m.(e := e, runner := if next.None? then Exited else Waiting(next.value))
  }

  function DoPop(m: Machine): Machine
    requires m.runner.Due?
  {
    var (e, popped) := PopNext(m.e, m.runner.action.seqNo);
    m.(e := e, runner := if popped.None? then Idle else Popped(popped.value))
  }

  function DoBegin(m: Machine): Machine
    requires m.runner.Popped?
  {
    var a := m.runner.action;
    m.(e := StartAction(m.e, a, m.now), runner := Started(a), executed := m.executed + [a])
  }

  /** Takes a command out of the tracked set, remembering how it left. */
  function Settled(m: Machine, command: string, how: Release): Machine
  {
    m.(e := UntrackCommand(m.e, command),
       settled := if command in m.e.pendingCommands then m.settled + {(command, how)} else m.settled)
  }

  /** The last thing an action does before it returns. */
  function Effects(m: Machine, effect: Effect, result: Result): Machine
  {
    match effect
    case Plain => m
    case Outcome(command) => Settled(m, command, ByOutcome)
    case Acknowledge(command) =>
      if result.Succeeded? then m else Settled(m, command, ByRefusedAcknowledge)
  }

  function DoReturn(m: Machine, result: Result): Machine
    requires m.runner.Acting?
  {
    var a := m.runner.action;
    Effects(m, a.effect, result).(runner := Returned(a, result))
  }

  function DoSettle(m: Machine): Machine
  {
    m.(e := TakeCommands(m.e), runner := Exited,
       settled := m.settled + set c | c in m.e.pendingCommands :: (c, ByFail))
  }

  // ---- injection steps ----

  function DoInject(m: Machine, command: string, inner: bool, batch: seq<DynamicAction>): Machine
  {
    m.(e := TrackCommand(m.e, command),
       tracked := if command == "" then m.tracked else m.tracked + {command},
       injectors := m.injectors + [Tracked(command, inner, batch)])
  }

  function DoAdmit(m: Machine, i: nat): Machine
    requires i < |m.injectors| && m.injectors[i].Tracked?
  {
    var j := m.injectors[i];
    var (e, admission) := Reserve(m.e, j.batch, j.inner, m.now);
    m.(e := e, injectors := m.injectors[i :=
      match admission
      case Nothing => Closed(j.command, j.inner)
      case Refused(_) => Declined(j.command, j.inner)
      case Reserved(actions) => Held(j.command, j.inner, actions)])
  }

  function DoPersist(m: Machine, i: nat, ok: bool): Machine
    requires i < |m.injectors| && m.injectors[i].Held?
  {
    var j := m.injectors[i];
    if ok then m.(injectors := m.injectors[i := Persisted(j.command, j.inner, j.actions)])
    else m.(e := DropBatch(m.e, j.actions), injectors := m.injectors[i := Declined(j.command, j.inner)])
  }

  /** How far the runner has got: the action it took last, or the static action it is already
      committed to, since popNext takes the static head without looking at the queue again. */
  function Floor(m: Machine): Option<Action>
  {
    match m.runner
    case Popped(a) => Some(a)
    case Waiting(a) => if AwaitsStatic(m.e, a) then Some(a) else LastExecuted(m)
    case Due(a) => if AwaitsStatic(m.e, a) then Some(a) else LastExecuted(m)
    case _ => LastExecuted(m)
  }

  predicate AwaitsStatic(e: State, a: Action)
  {
    e.nextStatic < |e.timeline| && e.timeline[e.nextStatic] == a
  }

  function LastExecuted(m: Machine): Option<Action>
  {
    if m.executed == [] then None else Some(m.executed[|m.executed| - 1])
  }

  predicate Punctual(m: Machine, a: Action)
  {
    Floor(m).Some? ==> Before(Floor(m).value, a)
  }

  function LateNumbers(m: Machine, actions: seq<Action>): set<nat>
  {
    set a | a in actions && !Punctual(m, a) :: a.seqNo
  }

  function DoCommit(m: Machine, i: nat): Machine
    requires i < |m.injectors| && m.injectors[i].Persisted?
  {
    var j := m.injectors[i];
    m.(e := CommitBatch(m.e, j.actions),
       late := if AcceptsNow(m.e) then m.late + LateNumbers(m, j.actions) else m.late,
       injectors := m.injectors[i :=
         if AcceptsNow(m.e) then Closed(j.command, j.inner) else Declined(j.command, j.inner)])
  }

  function DoGiveUp(m: Machine, i: nat): Machine
    requires i < |m.injectors| && m.injectors[i].Declined?
  {
    var j := m.injectors[i];
    Settled(m, j.command, ByFail).(injectors := m.injectors[i := Closed(j.command, j.inner)])
  }

  function WorldNext(m: Machine, step: WorldStep): Machine
  {
    match step
    case Tick(elapsed) => m.(now := m.now + elapsed)
    case Cancel => m.(cancelled := true)
    case PauseRun => m.(e := Pause(m.e, m.now))
    case ResumeRun => m.(e := Resume(m.e, m.now))
    case ChangeSpeed(speed) => m.(e := SetSpeed(m.e, speed, m.now))
    case StopRun => m.(e := Stop(m.e))
  }

  function RunnerNext(m: Machine, step: RunnerStep): Machine
    requires RunnerEnabled(m, step)
  {
    match step
    case Peek => DoPeek(m)
    case WaitDone => m.(runner := Due(m.runner.action))
    case WaitAborted => m.(runner := Leaving)
    case Pop => DoPop(m)
    case Begin => DoBegin(m)
    case PersistStart(ok) => m.(runner := if ok then Acting(m.runner.action) else Leaving)
    case Return(result) => DoReturn(m, result)
    case RecordError => m.(e := RecordFailure(m.e, m.runner.action),
                           runner := Failing(m.runner.action, m.runner.result))
    case PersistError(ok) => m.(runner := if ok then Finishing(m.runner.action, m.runner.result) else Leaving)
    case Finish => m.(e := FinishAction(m.e, m.runner.action),
                      runner := Finished(m.runner.action, m.runner.result))
    case PersistFinish(ok) => m.(runner := if ok && !m.runner.result.FailedFatal? then Idle else Leaving)
    case MarkEnd => m.(e := MarkFinished(m.e), runner := Sweeping)
    case Sweep => m.(e := SkipPending(m.e), runner := Settling)
    case Settle => DoSettle(m)
  }

  function InjectionNext(m: Machine, step: InjectionStep): Machine
    requires InjectionEnabled(m, step)
  {
    match step
    case Inject(command, inner, batch) => DoInject(m, command, inner, batch)
    case Admit(i) => DoAdmit(m, i)
    case Persist(i, ok) => DoPersist(m, i, ok)
    case Commit(i) => DoCommit(m, i)
    case GiveUp(i) => DoGiveUp(m, i)
  }

  function Next(m: Machine, step: Step): Machine
    requires Enabled(m, step)
  {
    match step
    case World(w) => WorldNext(m, w)
    case Advance(r) => RunnerNext(m, r)
    case Injecting(x) => InjectionNext(m, x)
  }

  // ---- runs ----

  predicate Run(m: Machine, steps: seq<Step>, end: Machine)
    decreases |steps|
  {
    if steps == [] then m == end
    else Enabled(m, steps[0]) && Run(Next(m, steps[0]), steps[1..], end)
  }

  /** The action has an event, at its time and under its name. */
  predicate Describes(events: map<nat, Event>, a: Action)
  {
    a.seqNo in events && events[a.seqNo].atMs == a.atMs && events[a.seqNo].name == a.name
  }

  /** A timeline as build leaves it: ordered, numbered 1 to n, with one pending event an action. */
  ghost predicate Built(e: State)
  {
    && Ordered(e.timeline) && DistinctNumbers(e.timeline)
    && |e.timeline| <= MAX_SCHEDULED_ACTIONS
    && (forall a | a in e.timeline :: 0 <= a.atMs <= MAX_INT64 && 1 <= a.seqNo <= |e.timeline|)
    && (forall a | a in e.timeline :: a.effect == Plain)
    && e.eventStates.Keys == Numbers(e.timeline) && |e.eventStates| == |e.timeline|
    && (forall n | n in e.eventStates :: e.eventStates[n].status == Pending)
    && (forall a | a in e.timeline :: Describes(e.eventStates, a))
    && e.nextSeq == |e.timeline| && e.nextStatic == 0
    && e.pending == [] && e.reserved == 0 && e.pendingCommands == {}
    && !e.paused && !e.stopped && !e.finished
    && e.speed > 0.0 && e.virtualBaseMs == 0.0 && e.lastActionAt == 0 && e.eventsRun == 0
  }

  /** The machine at the start of run, after lastResume has been set. */
  ghost predicate Initial(m: Machine)
  {
    && Built(m.e) && m.e.lastResume == m.now
    && !m.cancelled && m.runner == Idle && m.injectors == [] && m.executed == []
    && m.late == {} && m.tracked == {} && m.settled == {}
  }

  /** Reachable states, for statements about every run from every timeline. */
  ghost predicate Reaches(start: Machine, steps: seq<Step>, m: Machine)
  {
    Initial(start) && Run(start, steps, m)
  }
}
