/** The supervision of scenario runs: one operator call at a time under the lifecycle mutex, any number
    of runner goroutines, one guard per run. Steps are repository calls, lock acquisitions and event
    publications; status writes are unconditional, so everything rests on the locks. */
module RunLifecycle {
  import opened Options

  type RunId = string

  datatype Status = Running | Paused | Completed | Stopped | Failed

  predicate Terminal(s: Status)
  {
    s.Completed? || s.Stopped? || s.Failed?
  }

  datatype Event = Started(id: RunId) | Updated(id: RunId, status: Status) | Ended(id: RunId, status: Status)

  datatype Reply = Fine | Refused | Lost

  /** finalizeRunLocked, call by call. */
  datatype Finalizing = Look | Repair | SkipEvents | Write | Announce

  datatype Progress = More(next: Finalizing) | Finished(ok: bool)

  datatype Runner =
    | Executing
    | Deciding(failed: bool)              // run has returned
    | Queueing(status: Status)            // waiting for the guard
    | Closing(status: Status, at: Finalizing)
    | Leaving                             // guard released, still registered
    | Gone

  datatype Control = Pause | Resume | SetSpeed

  datatype StartAt = CheckOpen | Create | Publish(id: RunId) | SetUp(id: RunId) | Register(id: RunId)
    | WaitToAbort(id: RunId) | Abort(id: RunId, at: Finalizing)

  datatype ControlAt = AwaitGuard | Check | FindEngine | WriteStatus | Act | Tell

  datatype StopAt = StopGuard | StopCheck | StopEngine | Halt | Finalize(at: Finalizing)

  datatype RestartAt = RestartOpen | RestartGuard | RestartCheck | RestartHalt | RestartFinalize(at: Finalizing)

  /** The operator call that holds the lifecycle mutex. `held` is the guard a restart keeps while it
      starts the new run. */
  datatype Call =
    | Nothing
    | Starting(at: StartAt, held: Option<RunId>)
    | Controlling(control: Control, id: RunId, step: ControlAt)
    | Stopping(id: RunId, stop: StopAt)
    | Restarting(id: RunId, restart: RestartAt)
    | MarkingClosed
    | StoppingEngines(left: set<RunId>)   // closed is set, these engines are not yet stopped
    | AwaitingRunners

  /** Who has written the final status of a run. */
  datatype Closer = ByCall | ByRunner

  /** What is remembered for the statements about runs: whether run returned with an error, which runners
      then found their engine stopped, and who closed a run. */
  datatype Past = Past(returned: map<RunId, bool>, halted: set<RunId>, closers: map<RunId, Closer>)

  datatype World = World(
    rows: map<RunId, Status>,
    engines: set<RunId>,
    stopped: set<RunId>,
    paused: set<RunId>,
    runners: map<RunId, Runner>,
    closed: bool,
    shut: bool,                    // Close has returned nil
    call: Call,
    log: seq<Event>,
    past: Past)                    // a history variable

  /** A service over the runs that earlier processes left in the database. */
  function Opened(rows: map<RunId, Status>): World
  {
    World(rows, {}, {}, {}, map[], false, false, Nothing, [], Past(map[], {}, map[]))
  }

  // ---- locks ----

  function HeldByCall(c: Call): set<RunId>
  {
    match c
    case Starting(at, held) =>
      (if held.Some? then {held.value} else {}) + (if at.Abort? then {at.id} else {})
    case Controlling(_, id, step) => if step.AwaitGuard? then {} else {id}
    case Stopping(id, stop) => if stop.StopGuard? then {} else {id}
    case Restarting(id, restart) => if restart.RestartOpen? || restart.RestartGuard? then {} else {id}
    case _ => {}
  }

  predicate HeldByRunner(w: World, id: RunId)
  {
    id in w.runners && w.runners[id].Closing?
  }

  predicate Free(w: World, id: RunId)
  {
    id !in HeldByCall(w.call) && !HeldByRunner(w, id)
  }

  // ---- finalization ----

  /** One call of finalizeRunLocked, on a run's status and the event log. */
  function FinalizeNext(w: World, id: RunId, status: Status, at: Finalizing, who: Closer, reply: Reply)
      : (World, Progress)
  {
    if at.Announce? then (w.(log := w.log + [Ended(id, status)]), Finished(true))
    else if reply.Refused? then (w, Finished(false))
    else
      match at
      case Look =>
        if reply.Lost? || id !in w.rows then (w, Finished(false))
        else (w, More(if Terminal(w.rows[id]) then Repair else SkipEvents))
      case Repair => (w, Finished(reply.Fine?))
      case SkipEvents => (w, if reply.Lost? then Finished(false) else More(Write))
      case Write =>
        if id !in w.rows then (w, Finished(false))
        else
          (w.(rows := w.rows[id := status], past := w.past.(closers := w.past.closers[id := who])),
           if reply.Lost? then Finished(false) else More(Announce))
  }

  // ---- operator calls ----

  function Done(w: World): World
  {
    w.(call := Nothing)
  }

  function StartNext(w: World, reply: Reply, unused: RunId): World
    requires w.call.Starting?
  {
    var Starting(at, held) := w.call;
    match at
    case CheckOpen => if w.closed then Done(w) else w.(call := Starting(Create, held))
    case Create =>
      if reply.Refused? || unused in w.rows then Done(w)
      else if reply.Lost? then Done(w.(rows := w.rows[unused := Running]))
      else w.(rows := w.rows[unused := Running], call := Starting(Publish(unused), held))
    case Publish(id) => w.(log := w.log + [Started(id)], call := Starting(SetUp(id), held))
    case SetUp(id) => w.(call := Starting(if reply.Fine? then Register(id) else WaitToAbort(id), held))
    case Register(id) =>
      Done(w.(engines := w.engines + {id}, runners := w.runners[id := Executing]))
    case WaitToAbort(id) => w.(call := Starting(Abort(id, Look), held))
    case Abort(id, step) =>
      var (n, progress) := FinalizeNext(w, id, Failed, step, ByCall, reply);
      if progress.Finished? then Done(n) else n.(call := Starting(Abort(id, progress.next), held))
  }

  function StatusWritten(rows: map<RunId, Status>, control: Control, id: RunId): map<RunId, Status>
  {
    match control
    case Pause => rows[id := Paused]
    case Resume => rows[id := Running]
    case SetSpeed => rows
  }

  function EngineTold(paused: set<RunId>, control: Control, id: RunId): set<RunId>
  {
    match control
    case Pause => paused + {id}
    case Resume => paused - {id}
    case SetSpeed => paused
  }

  function ControlNext(w: World, reply: Reply): World
    requires w.call.Controlling?
  {
    var Controlling(control, id, step) := w.call;
    match step
    case AwaitGuard => w.(call := Controlling(control, id, Check))
    case Check =>
      if !reply.Fine? || id !in w.rows || Terminal(w.rows[id]) then Done(w)
      else w.(call := Controlling(control, id, FindEngine))
    case FindEngine => if id in w.engines then w.(call := Controlling(control, id, WriteStatus)) else Done(w)
    case WriteStatus =>
      if reply.Refused? || id !in w.rows then Done(w)
      else
        w.(rows := StatusWritten(w.rows, control, id),
           call := if reply.Lost? then Nothing else Controlling(control, id, Act))
    case Act => w.(paused := EngineTold(w.paused, control, id), call := Controlling(control, id, Tell))
    case Tell => if id in w.rows then Done(w.(log := w.log + [Updated(id, w.rows[id])])) else Done(w)
  }

  function StopNext(w: World, reply: Reply): World
    requires w.call.Stopping?
  {
    var Stopping(id, step) := w.call;
    match step
    case StopGuard => w.(call := Stopping(id, StopCheck))
    case StopCheck =>
      if !reply.Fine? || id !in w.rows || Terminal(w.rows[id]) then Done(w) else w.(call := Stopping(id, StopEngine))
    case StopEngine => if id in w.engines then w.(call := Stopping(id, Halt)) else Done(w)
    case Halt => w.(stopped := w.stopped + {id}, call := Stopping(id, Finalize(Look)))
    case Finalize(at) =>
      var (n, progress) := FinalizeNext(w, id, Stopped, at, ByCall, reply);
      if progress.Finished? then Done(n) else n.(call := Stopping(id, Finalize(progress.next)))
  }

  /** A restart closes the run it replaces, whether or not it still has an engine, and then starts. */
  function RestartNext(w: World, reply: Reply): World
    requires w.call.Restarting?
  {
    var Restarting(id, step) := w.call;
    match step
    case RestartOpen => if w.closed then Done(w) else w.(call := Restarting(id, RestartGuard))
    case RestartGuard => w.(call := Restarting(id, RestartCheck))
    case RestartCheck =>
      if !reply.Fine? || id !in w.rows then Done(w)
      else if id in w.engines then w.(call := Restarting(id, RestartHalt))
      else if !Terminal(w.rows[id]) then w.(call := Restarting(id, RestartFinalize(Look)))
      else w.(call := Starting(CheckOpen, Some(id)))
    case RestartHalt => w.(stopped := w.stopped + {id}, call := Restarting(id, RestartFinalize(Look)))
    case RestartFinalize(at) =>
      var (n, progress) := FinalizeNext(w, id, Stopped, at, ByCall, reply);
      if progress.More? then n.(call := Restarting(id, RestartFinalize(progress.next)))
      else if progress.ok then n.(call := Starting(CheckOpen, Some(id)))
      else Done(n)
  }

  predicate AllGone(w: World)
  {
    forall id | id in w.runners :: w.runners[id].Gone?
  }

  predicate Closes(c: Call)
  {
    c.MarkingClosed? || c.StoppingEngines? || c.AwaitingRunners?
  }

  /** Close notes the engines as it sets the flag, then stops one after the other, `next` among them, while
      their runners go on. */
  function CloseNext(w: World, next: RunId): World
    requires Closes(w.call)
  {
    match w.call
    case MarkingClosed => w.(closed := true, call := StoppingEngines(w.engines))
    case StoppingEngines(left) =>
      if left == {} then w.(call := AwaitingRunners)
      else if next in left then w.(stopped := w.stopped + {next}, call := StoppingEngines(left - {next}))
      else w
    case _ => Done(w.(shut := true))
  }

  // ---- steps ----

  datatype Step =
    | Enter(call: Call)                          // takes the lifecycle mutex
    | Continue(reply: Reply, unused: RunId)
    | GiveUpClosing                              // the caller's context ended first
    | Runs(id: RunId, reply: Reply, failed: bool)

  predicate Entry(c: Call)
  {
    || c == Starting(CheckOpen, None)
    || (c.Controlling? && c.step.AwaitGuard?)
    || (c.Stopping? && c.stop.StopGuard?)
    || (c.Restarting? && c.restart.RestartOpen?)
    || c.MarkingClosed?
  }

  predicate CallEnabled(w: World)
  {
    match w.call
    case Nothing => false
    case Starting(WaitToAbort(id), _) => Free(w, id)
    case Controlling(_, id, AwaitGuard) => Free(w, id)
    case Stopping(id, StopGuard) => Free(w, id)
    case Restarting(id, RestartGuard) => Free(w, id)
    case AwaitingRunners => AllGone(w)
    case _ => true
  }

  predicate Enabled(w: World, step: Step)
  {
    match step
    case Enter(call) => w.call.Nothing? && Entry(call)
    case Continue(_, _) => CallEnabled(w)
    case GiveUpClosing => w.call.AwaitingRunners?
    case Runs(id, _, _) =>
      && id in w.runners && !w.runners[id].Gone?
      && (w.runners[id].Queueing? ==> Free(w, id))
  }

  function CallNext(w: World, reply: Reply, unused: RunId): World
    requires !w.call.Nothing?
  {
    match w.call
    case Starting(_, _) => StartNext(w, reply, unused)
    case Controlling(_, _, _) => ControlNext(w, reply)
    case Stopping(_, _) => StopNext(w, reply)
    case Restarting(_, _) => RestartNext(w, reply)
    case MarkingClosed => CloseNext(w, unused)
    case StoppingEngines(_) => CloseNext(w, unused)
    case AwaitingRunners => CloseNext(w, unused)
  }

  /** The goroutine of one run, from the execution of its timeline to its deregistration. */
  function RunnerNext(w: World, id: RunId, reply: Reply, failed: bool): World
    requires id in w.runners
  {
    match w.runners[id]
    case Executing =>
      w.(runners := w.runners[id := Deciding(failed)], past := w.past.(returned := w.past.returned[id := failed]))
    case Deciding(bad) =>
      w.(runners := w.runners[id := Queueing(if id in w.stopped then Stopped else if bad then Failed else Completed)],
         past := if id in w.stopped then w.past.(halted := w.past.halted + {id}) else w.past)
    case Queueing(status) => w.(runners := w.runners[id := Closing(status, Look)])
    case Closing(status, at) =>
      var (n, progress) := FinalizeNext(w, id, status, at, ByRunner, reply);
      n.(runners := w.runners[id := if progress.Finished? then Leaving else Closing(status, progress.next)])
    case Leaving => w.(engines := w.engines - {id}, runners := w.runners[id := Gone])
    case Gone => w
  }

  function Next(w: World, step: Step): World
    requires Enabled(w, step)
  {
    match step
    case Enter(call) => w.(call := call)
    case Continue(reply, unused) => CallNext(w, reply, unused)
    case GiveUpClosing => Done(w)
    case Runs(id, reply, failed) => RunnerNext(w, id, reply, failed)
  }

  predicate Run(w: World, steps: seq<Step>, end: World)
    decreases |steps|
  {
    if steps == [] then w == end
    else Enabled(w, steps[0]) && Run(Next(w, steps[0]), steps[1..], end)
  }
}
