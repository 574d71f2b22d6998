/** The scenario service as the object it is. Between any two statements of a call the runner goroutines
    move as a schedule says; whatever it says, the object only ever reaches worlds of the transition
    system, so that everything proved of those holds of the object. */
module RunSupervisor {
  import opened Options
  import opened RunLifecycle
  import opened RunLifecycleResults

  /** What runners do before a statement, how the statement comes back, and the identifier a new run
      would get. */
  datatype Turn = Turn(runners: seq<(RunId, Reply, bool)>, reply: Reply, unused: RunId)

  lemma {:induction false} RunAppend(w: World, steps: seq<Step>, mid: World, step: Step)
    requires Run(w, steps, mid) && Enabled(mid, step)
    ensures Run(w, steps + [step], Next(mid, step))
    decreases |steps|
  {
    if steps == [] {
      assert steps + [step] == [step];
      assert [step][1..] == [];
    } else {
      assert (steps + [step])[1..] == steps[1..] + [step];
      RunAppend(Next(w, steps[0]), steps[1..], mid, step);
    }
  }

  /** Everything reached keeps the invariant. */
  lemma {:induction false} Reached(found: map<RunId, Status>, steps: seq<Step>, w: World)
    requires Run(Opened(found), steps, w)
    ensures CallOk(w) && Inv(w)
  {
    OpenedOk(found);
    RunKeepsInv(Opened(found), steps, w);
  }

  /** Who finalizes a run while holding the lifecycle mutex. */
  datatype Finalizer = ByStop | ByRestart | ByAbort(held: Option<RunId>)

  function Standing(f: Finalizer, id: RunId, at: Finalizing): Call
  {
    match f
    case ByStop => Stopping(id, Finalize(at))
    case ByRestart => Restarting(id, RestartFinalize(at))
    case ByAbort(held) => Starting(Abort(id, at), held)
  }

  function StatusOf(f: Finalizer): Status
  {
    if f.ByAbort? then Failed else Stopped
  }

  /** Where the call stands after a successful finalization. */
  function Afterwards(f: Finalizer, id: RunId): Call
  {
    if f.ByRestart? then Starting(CheckOpen, Some(id)) else Nothing
  }

  lemma FinalizerStep(f: Finalizer, id: RunId, at: Finalizing, w: World, reply: Reply)
    requires w.call == Standing(f, id, at)
    ensures CallEnabled(w)
    ensures var (n, progress) := FinalizeNext(w, id, StatusOf(f), at, ByCall, reply);
      CallNext(w, reply, "") ==
        n.(call := if progress.More? then Standing(f, id, progress.next)
                   else if progress.ok then Afterwards(f, id) else Nothing)
  {
  }

  lemma FinalizerKnows(f: Finalizer, id: RunId, at: Finalizing, w: World)
    requires w.call == Standing(f, id, at) && CallOk(w)
    ensures FinalizingOk(w, id, StatusOf(f), at) && id in w.rows
  {
  }

  /** What runners leave alone while a call is between two of its statements: they only end runs, and
      never the one whose guard the call holds. */
  ghost predicate Kept(w: World, n: World)
  {
    && n.paused == w.paused && n.stopped == w.stopped && w.log <= n.log
    && forall id | id in w.rows ::
         id in n.rows && (n.rows[id] == w.rows[id] || (Terminal(n.rows[id]) && id !in HeldByCall(w.call)))
  }

  lemma RunnerKeeps(w: World, id: RunId, reply: Reply, failed: bool)
    requires Inv(w) && Enabled(w, Runs(id, reply, failed))
    ensures Kept(w, RunnerNext(w, id, reply, failed))
  {
    assert RunnerOk(w, id);
  }

  lemma KeptOn(w: World, m: World, n: World)
    requires Kept(w, m) && Kept(m, n) && HeldByCall(m.call) == HeldByCall(w.call)
    ensures Kept(w, n)
  {
    forall id | id in w.rows
      ensures id in n.rows && (n.rows[id] == w.rows[id] || (Terminal(n.rows[id]) && id !in HeldByCall(w.call)))
    {
      assert id in m.rows && id in n.rows;
    }
  }

  /** A run has been stored, announced and registered, and its runner is executing it. */
  predicate Begun(w: World, id: RunId)
  {
    && id in w.rows && w.rows[id] == Running && Started(id) in w.log
    && id in w.engines && id in w.runners && w.runners[id] == Executing
  }

  class Supervisor {
    var rows: map<RunId, Status>
    var engines: set<RunId>
    var stopped: set<RunId>
    var paused: set<RunId>
    var runners: map<RunId, Runner>
    var closed: bool
    var shut: bool
    var log: seq<Event>
    var past: Past
    var turns: nat
    var call: Call                 // which statement the call in progress has come to
    ghost var trace: seq<Step>
    const schedule: nat -> Turn
    ghost const found: map<RunId, Status>

    function View(): World
      reads this
    {
      World(rows, engines, stopped, paused, runners, closed, shut, call, log, past)
    }

    /** The object is in a world the transition system reaches. */
    ghost predicate Valid()
      reads this
    {
      Run(Opened(found), trace, View())
    }

    /** Every repository call of the operators succeeds. */
    ghost predicate Smooth()
    {
      forall k: nat {:trigger schedule(k)} :: schedule(k).reply.Fine?
    }

    constructor (rows: map<RunId, Status>, schedule: nat -> Turn)
      ensures Valid() && call.Nothing? && View() == Opened(rows) && this.schedule == schedule
    {
      this.rows, engines, stopped, paused, runners := rows, {}, {}, {}, map[];
      found := rows;
      closed, shut, log, turns, call, trace := false, false, [], 0, Nothing, [];
      past := Past(map[], {}, map[]);
      this.schedule := schedule;
    }

    /** What has just been done is one step of the transition system. */
    ghost method Did(before: World, step: Step)
      requires Run(Opened(found), trace, before) && Enabled(before, step) && View() == Next(before, step)
      modifies this`trace
      ensures Valid()
    {
      RunAppend(Opened(found), trace, before, step);
      trace := trace + [step];
    }

    // ---- the runner goroutine ----

    /** One statement of finalizeRunLocked. */
    method FinalizeStatement(id: RunId, status: Status, at: Finalizing, who: Closer, reply: Reply)
        returns (progress: Progress)
      modifies this`rows, this`log, this`past
      ensures (View(), progress) == FinalizeNext(old(View()), id, status, at, who, reply)
    {
      if at.Announce? {
        log := log + [Ended(id, status)];
        return Finished(true);
      }
      if reply.Refused? {
        return Finished(false);
      }
      match at {
        case Look =>
          if reply.Lost? || id !in rows {
            return Finished(false);
          }
          progress := More(if Terminal(rows[id]) then Repair else SkipEvents);
        case Repair => progress := Finished(reply.Fine?);
        case SkipEvents => progress := if reply.Lost? then Finished(false) else More(Write);
        case Write =>
          if id !in rows {
            return Finished(false);
          }
          rows := rows[id := status];
          past := past.(closers := past.closers[id := who]);
          progress := if reply.Lost? then Finished(false) else More(Announce);
      }
    }

    method RunnerMoves(id: RunId, reply: Reply, failed: bool)
      requires id in runners && !runners[id].Gone?
      modifies this`rows, this`log, this`past, this`engines, this`runners
      ensures View() == RunnerNext(old(View()), id, reply, failed)
    {
      match runners[id] {
        case Executing =>
          runners := runners[id := Deciding(failed)];
          past := past.(returned := past.returned[id := failed]);
        case Deciding(bad) =>
          var status := Completed;
          if id in stopped {
            status := Stopped;
            past := past.(halted := past.halted + {id});
          } else if bad {
            status := Failed;
          }
          runners := runners[id := Queueing(status)];
        case Queueing(status) => runners := runners[id := Closing(status, Look)];
        case Closing(status, at) =>
          var progress := FinalizeStatement(id, status, at, ByRunner, reply);
          runners := runners[id := if progress.Finished? then Leaving else Closing(status, progress.next)];
        case Leaving =>
          engines := engines - {id};
          runners := runners[id := Gone];
      }
    }

    method RunnerStatement(id: RunId, reply: Reply, failed: bool)
      requires Valid() && Enabled(View(), Runs(id, reply, failed))
      modifies this
      ensures Valid() && call == old(call) && closed == old(closed) && shut == old(shut)
      ensures View() == RunnerNext(old(View()), id, reply, failed)
      ensures Kept(old(View()), View())
    {
      ghost var before := View();
      Reached(found, trace, before);
      RunnerKeeps(before, id, reply, failed);
      RunnerMoves(id, reply, failed);
      Did(before, Runs(id, reply, failed));
    }

    /** Lets the runners move before the next statement of a call, as far as the locks allow. */
    method Yield() returns (turn: Turn)
      requires Valid()
      modifies this
      ensures Valid() && call == old(call) && closed == old(closed) && shut == old(shut)
      ensures Kept(old(View()), View()) && turn == schedule(old(turns))
    {
      turn := schedule(turns);
      turns := turns + 1;
      for k := 0 to |turn.runners|
        invariant Valid() && call == old(call) && closed == old(closed) && shut == old(shut)
        invariant Kept(old(View()), View())
      {
        var (id, reply, failed) := turn.runners[k];
        if Enabled(View(), Runs(id, reply, failed)) {
          ghost var before := View();
          RunnerStatement(id, reply, failed);
          KeptOn(old(View()), before, View());
        }
      }
    }

    /** How many statements a finalization still has in front of it. */
    function Left(id: RunId): nat
      reads this
    {
      if id in runners && runners[id].Closing? then
        match runners[id].at case Look => 5 case SkipEvents => 4 case Write => 3 case Announce => 2 case Repair => 1
      else 0
    }

    /** Waits until no runner holds the guard of a run: whoever has it finishes first. */
    method AwaitGuard(id: RunId)
      requires Valid()
      modifies this
      ensures Valid() && call == old(call) && closed == old(closed) && shut == old(shut)
      ensures !HeldByRunner(View(), id) && Kept(old(View()), View())
    {
      while id in runners && runners[id].Closing?
        invariant Valid() && call == old(call) && closed == old(closed) && shut == old(shut)
        invariant Kept(old(View()), View())
        decreases Left(id)
      {
        var turn := schedule(turns);
        turns := turns + 1;
        ghost var before := View();
        RunnerStatement(id, turn.reply, false);
        KeptOn(old(View()), before, View());
      }
    }

    // ---- operator calls ----

    method Enters(c: Call)
      requires Valid() && call.Nothing? && Entry(c)
      modifies this`call, this`trace
      ensures Valid() && call == c
    {
      ghost var before := View();
      call := c;
      Did(before, Enter(c));
    }

    /** Records that the call has taken one step and where it stands now. */
    method Stepped(ghost before: World, ghost reply: Reply, ghost unused: RunId, next: Call)
      requires Run(Opened(found), trace, before) && CallEnabled(before)
      requires View() == CallNext(before, reply, unused).(call := call) && next == CallNext(before, reply, unused).call
      modifies this`call, this`trace
      ensures Valid() && call == next
    {
      call := next;
      Did(before, Continue(reply, unused));
    }

    /** Pause, Resume and SetSpeed: guard, row, engine, status, engine again, event. On success the row, the
        engine and the event agree; a change of speed leaves the status and the pause as they were. When no
        call fails, only a run that is unknown or over, or has no engine, is refused. */
    method Command(control: Control, id: RunId) returns (ok: bool)
      requires Valid() && call.Nothing?
      modifies this
      ensures Valid() && call.Nothing? && closed == old(closed) && shut == old(shut)
      ensures ok ==> id in rows && log != [] && log[|log| - 1] == Updated(id, rows[id]) && !Terminal(rows[id])
      ensures ok && control.Pause? ==> rows[id] == Paused && paused == old(paused) + {id}
      ensures ok && control.Resume? ==> rows[id] == Running && paused == old(paused) - {id}
      ensures ok && control.SetSpeed? && id in old(rows) ==> rows[id] == old(rows)[id] && paused == old(paused)
      ensures Smooth() && !ok ==> id !in rows || Terminal(rows[id]) || id !in engines
    {
      GuardControl(control, id);
      ok := CheckControl(control, id);
      if ok {
        ok := FindControlled(control, id);
      }
      if ok {
        ok := WriteControl(control, id);
      }
      if ok {
        ActOn(control, id);
        TellStatus(control, id);
      }
    }

    method GuardControl(control: Control, id: RunId)
      requires Valid() && call.Nothing?
      modifies this
      ensures Valid() && call == Controlling(control, id, Check) && closed == old(closed) && shut == old(shut)
      ensures Kept(old(View()), View())
    {
      Enters(Controlling(control, id, ControlAt.AwaitGuard));
      AwaitGuard(id);
      Stepped(View(), Fine, "", Controlling(control, id, Check));
    }

    method CheckControl(control: Control, id: RunId) returns (ok: bool)
      requires Valid() && call == Controlling(control, id, Check)
      modifies this
      ensures Valid() && call == (if ok then Controlling(control, id, FindEngine) else Nothing)
      ensures closed == old(closed) && shut == old(shut)
      ensures Kept(old(View()), View()) && (ok ==> id in rows && !Terminal(rows[id]))
      ensures Smooth() && !ok ==> id !in rows || Terminal(rows[id])
    {
      var turn := Yield();
      ok := turn.reply.Fine? && id in rows && !Terminal(rows[id]);
      Stepped(View(), turn.reply, "", if ok then Controlling(control, id, FindEngine) else Nothing);
    }

    method FindControlled(control: Control, id: RunId) returns (ok: bool)
      requires Valid() && call == Controlling(control, id, FindEngine)
      modifies this
      ensures Valid() && call == (if ok then Controlling(control, id, WriteStatus) else Nothing)
      ensures closed == old(closed) && shut == old(shut)
      ensures Kept(old(View()), View()) && (!ok ==> id !in engines)
    {
      var turn := Yield();
      ok := id in engines;
      Stepped(View(), turn.reply, "", if ok then Controlling(control, id, WriteStatus) else Nothing);
    }

    method WriteControl(control: Control, id: RunId) returns (ok: bool)
      requires Valid() && call == Controlling(control, id, WriteStatus)
      modifies this
      ensures Valid() && call == (if ok then Controlling(control, id, Act) else Nothing)
      ensures closed == old(closed) && shut == old(shut) && paused == old(paused)
      ensures ok ==> id in rows
      ensures ok && control.Pause? ==> rows[id] == Paused
      ensures ok && control.Resume? ==> rows[id] == Running
      ensures ok && control.SetSpeed? && id in old(rows) ==> rows[id] == old(rows)[id]
      ensures Smooth() ==> ok
    {
      var turn := Yield();
      ghost var before := View();
      assert Alive(before, id) by {
        Reached(found, trace, before);
      }
      ok := !turn.reply.Refused? && id in rows;
      if ok {
        match control {
          case Pause => rows := rows[id := Paused];
          case Resume => rows := rows[id := Running];
          case SetSpeed =>
        }
        ok := !turn.reply.Lost?;
      }
      Stepped(before, turn.reply, "", if ok then Controlling(control, id, Act) else Nothing);
    }

    method ActOn(control: Control, id: RunId)
      requires Valid() && call == Controlling(control, id, Act)
      modifies this
      ensures Valid() && call == Controlling(control, id, Tell) && closed == old(closed) && shut == old(shut)
      ensures id in old(rows) ==> id in rows && rows[id] == old(rows)[id]
      ensures paused == match control case Pause => old(paused) + {id}
                                      case Resume => old(paused) - {id}
                                      case SetSpeed => old(paused)
    {
      var _ := Yield();
      ghost var before := View();
      match control {
        case Pause => paused := paused + {id};
        case Resume => paused := paused - {id};
        case SetSpeed =>
      }
      Stepped(before, Fine, "", Controlling(control, id, Tell));
    }

    method TellStatus(control: Control, id: RunId)
      requires Valid() && call == Controlling(control, id, Tell)
      modifies this
      ensures Valid() && call.Nothing? && closed == old(closed) && shut == old(shut) && paused == old(paused)
      ensures id in rows && log != [] && log[|log| - 1] == Updated(id, rows[id]) && !Terminal(rows[id])
      ensures id in old(rows) ==> rows[id] == old(rows)[id]
    {
      var _ := Yield();
      ghost var before := View();
      assert Alive(before, id) by {
        Reached(found, trace, before);
      }
      log := log + [Updated(id, rows[id])];
      Stepped(before, Fine, "", Nothing);
    }

    /** finalizeRunLocked by an operator call that holds the guard. Success means the run is over; a stop,
        which has found it alive, has then stored and published its own status. */
    method FinalizeRunLocked(id: RunId, f: Finalizer) returns (ok: bool)
      requires Valid() && call == Standing(f, id, Look)
      modifies this
      ensures Valid() && call == (if ok then Afterwards(f, id) else Nothing)
      ensures closed == old(closed) && shut == old(shut) && stopped == old(stopped)
      ensures ok ==> id in rows && Terminal(rows[id])
      ensures ok && f.ByStop? ==> rows[id] == Stopped && log != [] && log[|log| - 1] == Ended(id, Stopped)
      ensures Smooth() ==> ok
    {
      var step := Look;
      ok := false;
      var over := false;
      while !over
        invariant Valid() && closed == old(closed) && shut == old(shut) && stopped == old(stopped)
        invariant call == if over then (if ok then Afterwards(f, id) else Nothing) else Standing(f, id, step)
        invariant over && ok ==> id in rows && Terminal(rows[id])
        invariant over && ok && f.ByStop? ==>
          rows[id] == Stopped && log != [] && log[|log| - 1] == Ended(id, Stopped)
        invariant over && Smooth() ==> ok
        decreases if over then 0 else
          match step case Look => 5 case SkipEvents => 4 case Write => 3 case Announce => 2 case Repair => 1
      {
        var turn := Yield();
        var progress := FinalizeOnce(id, f, step, turn.reply);
        if progress.Finished? {
          over, ok := true, progress.ok;
        } else {
          step := progress.next;
        }
      }
    }

    method FinalizeOnce(id: RunId, f: Finalizer, at: Finalizing, reply: Reply) returns (progress: Progress)
      requires Valid() && call == Standing(f, id, at)
      modifies this
      ensures Valid() && closed == old(closed) && shut == old(shut) && stopped == old(stopped)
      ensures call == if progress.More? then Standing(f, id, progress.next)
                      else if progress.ok then Afterwards(f, id) else Nothing
      ensures progress == FinalizeNext(old(View()), id, StatusOf(f), at, ByCall, reply).1
      ensures progress.Finished? && progress.ok ==> id in rows && Terminal(rows[id])
      ensures progress.Finished? && progress.ok && at.Announce? ==>
        rows[id] == StatusOf(f) && log == old(log) + [Ended(id, StatusOf(f))]
      ensures f.ByStop? ==> !at.Repair?
      ensures reply.Fine? && progress.Finished? ==> progress.ok
    {
      ghost var before := View();
      Reached(found, trace, before);
      FinalizerKnows(f, id, at, before);
      FinalizeStep(before, id, StatusOf(f), at, ByCall, reply);
      FinalizerStep(f, id, at, before, reply);
      progress := FinalizeStatement(id, StatusOf(f), at, ByCall, reply);
      Stepped(before, reply, "", if progress.More? then Standing(f, id, progress.next)
                             else if progress.ok then Afterwards(f, id) else Nothing);
    }

    // ---- stop, restart, start, close ----

    method Stop(id: RunId) returns (ok: bool)
      requires Valid() && call.Nothing?
      modifies this
      ensures Valid() && call.Nothing? && closed == old(closed) && shut == old(shut)
      ensures ok ==>
        id in rows && rows[id] == Stopped && id in stopped && log != [] && log[|log| - 1] == Ended(id, Stopped)
      ensures Smooth() && !ok ==> id !in rows || Terminal(rows[id]) || id !in engines
    {
      GuardStop(id);
      ok := CheckStop(id);
      if ok {
        ok := FindStopped(id);
      }
      if ok {
        Halts(id);
        ok := FinalizeRunLocked(id, ByStop);
      }
    }

    method GuardStop(id: RunId)
      requires Valid() && call.Nothing?
      modifies this
      ensures Valid() && call == Stopping(id, StopCheck) && closed == old(closed) && shut == old(shut)
    {
      Enters(Stopping(id, StopGuard));
      AwaitGuard(id);
      Stepped(View(), Fine, "", Stopping(id, StopCheck));
    }

    method CheckStop(id: RunId) returns (ok: bool)
      requires Valid() && call == Stopping(id, StopCheck)
      modifies this
      ensures Valid() && call == (if ok then Stopping(id, StopEngine) else Nothing)
      ensures closed == old(closed) && shut == old(shut)
      ensures Smooth() && !ok ==> id !in rows || Terminal(rows[id])
    {
      var turn := Yield();
      ok := turn.reply.Fine? && id in rows && !Terminal(rows[id]);
      Stepped(View(), turn.reply, "", if ok then Stopping(id, StopEngine) else Nothing);
    }

    method FindStopped(id: RunId) returns (ok: bool)
      requires Valid() && call == Stopping(id, StopEngine)
      modifies this
      ensures Valid() && call == (if ok then Stopping(id, Halt) else Nothing)
      ensures closed == old(closed) && shut == old(shut) && (!ok ==> id !in engines)
    {
      var turn := Yield();
      ok := id in engines;
      Stepped(View(), turn.reply, "", if ok then Stopping(id, Halt) else Nothing);
    }

    method Halts(id: RunId)
      requires Valid() && call == Stopping(id, Halt)
      modifies this
      ensures Valid() && call == Stopping(id, Finalize(Look)) && closed == old(closed) && shut == old(shut)
      ensures id in stopped
    {
      var turn := Yield();
      ghost var before := View();
      stopped := stopped + {id};
      Stepped(before, turn.reply, "", Stopping(id, Finalize(Look)));
    }

    /** An identifier that the schedule hands out has been used. */
    ghost predicate IdentifierTaken()
      reads this`rows
    {
      exists k: nat :: schedule(k).unused in rows
    }

    method Start() returns (id: Option<RunId>)
      requires Valid() && call.Nothing?
      modifies this
      ensures Valid() && call.Nothing? && closed == old(closed) && shut == old(shut)
      ensures id.Some? ==> !closed && Begun(View(), id.value)
      ensures Smooth() && id.None? ==> closed || IdentifierTaken()
    {
      Enters(Starting(CheckOpen, None));
      id := StartLocked(None);
    }

    /** startLocked, possibly under the guard of the run that is being replaced. */
    method StartLocked(held: Option<RunId>) returns (id: Option<RunId>)
      requires Valid() && call == Starting(CheckOpen, held)
      modifies this
      ensures Valid() && call.Nothing? && closed == old(closed) && shut == old(shut)
      ensures id.Some? ==> !closed && Begun(View(), id.value)
      ensures id.Some? && held.Some? ==> held.value in rows && Terminal(rows[held.value])
      ensures Smooth() && id.None? ==> closed || IdentifierTaken()
    {
      var open := !closed;
      Stepped(View(), Fine, "", if open then Starting(Create, held) else Nothing);
      if !open {
        return None;
      }
      id := CreateRun(held);
      if id.Some? {
        var ready := PublishAndSetUp(id.value, held);
        if ready {
          Registers(id.value, held);
        } else {
          FailRun(id.value, held);
          id := None;
        }
      }
    }

    method CreateRun(held: Option<RunId>) returns (id: Option<RunId>)
      requires Valid() && call == Starting(Create, held)
      modifies this
      ensures Valid() && call == (if id.Some? then Starting(Publish(id.value), held) else Nothing)
      ensures closed == old(closed) && shut == old(shut)
      ensures Smooth() && id.None? ==> IdentifierTaken()
    {
      var turn := Yield();
      ghost var before := View();
      id := None;
      if !turn.reply.Refused? && turn.unused !in rows {
        rows := rows[turn.unused := Running];
        if turn.reply.Fine? {
          id := Some(turn.unused);
        }
      }
      Stepped(before, turn.reply, turn.unused, if id.Some? then Starting(Publish(id.value), held) else Nothing);
    }

    method PublishAndSetUp(id: RunId, held: Option<RunId>) returns (ready: bool)
      requires Valid() && call == Starting(Publish(id), held)
      modifies this
      ensures Valid() && call == Starting(if ready then Register(id) else WaitToAbort(id), held)
      ensures closed == old(closed) && shut == old(shut) && Started(id) in log && (Smooth() ==> ready)
    {
      ghost var before := View();
      log := log + [Started(id)];
      Stepped(before, Fine, "", Starting(SetUp(id), held));
      ready := SetsUp(id, held, |log| - 1);
    }

    method SetsUp(id: RunId, held: Option<RunId>, ghost k: nat) returns (ready: bool)
      requires Valid() && call == Starting(SetUp(id), held) && k < |log| && log[k] == Started(id)
      modifies this
      ensures Valid() && call == Starting(if ready then Register(id) else WaitToAbort(id), held)
      ensures closed == old(closed) && shut == old(shut) && Started(id) in log && (Smooth() ==> ready)
    {
      var turn := Yield();
      assert log[k] == Started(id);
      ready := turn.reply.Fine?;
      Stepped(View(), turn.reply, "", Starting(if ready then Register(id) else WaitToAbort(id), held));
    }

    method Registers(id: RunId, held: Option<RunId>)
      requires Valid() && call == Starting(Register(id), held) && Started(id) in log
      modifies this
      ensures Valid() && call.Nothing? && closed == old(closed) && shut == old(shut)
      ensures !closed && Begun(View(), id)
      ensures held.Some? ==> held.value in rows && Terminal(rows[held.value])
    {
      ghost var before := View();
      Reached(found, trace, before);
      engines := engines + {id};
      runners := runners[id := Executing];
      Stepped(before, Fine, "", Nothing);
    }

    method FailRun(id: RunId, held: Option<RunId>)
      requires Valid() && call == Starting(WaitToAbort(id), held)
      modifies this
      ensures Valid() && call.Nothing? && closed == old(closed) && shut == old(shut)
    {
      AwaitGuard(id);
      assert held != Some(id) by {
        Reached(found, trace, View());
      }
      Stepped(View(), Fine, "", Starting(Abort(id, Look), held));
      var _ := FinalizeRunLocked(id, ByAbort(held));
    }

    method Restart(id: RunId) returns (next: Option<RunId>)
      requires Valid() && call.Nothing?
      modifies this
      ensures Valid() && call.Nothing? && closed == old(closed) && shut == old(shut)
      ensures next.Some? ==> !closed && Begun(View(), next.value) && id in rows && Terminal(rows[id])
      ensures Smooth() && next.None? ==> closed || id !in rows || IdentifierTaken()
    {
      next := None;
      var open := GuardRestart(id);
      if !open {
        return;
      }
      var proceed := EndPrevious(id);
      if proceed {
        next := StartLocked(Some(id));
      }
    }

    method GuardRestart(id: RunId) returns (open: bool)
      requires Valid() && call.Nothing?
      modifies this
      ensures Valid() && call == (if open then Restarting(id, RestartCheck) else Nothing)
      ensures closed == old(closed) && shut == old(shut) && open == !closed
    {
      Enters(Restarting(id, RestartOpen));
      open := !closed;
      Stepped(View(), Fine, "", if open then Restarting(id, RestartGuard) else Nothing);
      if open {
        AwaitGuard(id);
        Stepped(View(), Fine, "", Restarting(id, RestartCheck));
      }
    }

    /** Ends the run that is being replaced, with or without an engine. */
    method EndPrevious(id: RunId) returns (proceed: bool)
      requires Valid() && call == Restarting(id, RestartCheck)
      modifies this
      ensures Valid() && call == (if proceed then Starting(CheckOpen, Some(id)) else Nothing)
      ensures closed == old(closed) && shut == old(shut) && (Smooth() && !proceed ==> id !in rows)
    {
      var active, over;
      proceed, active, over := CheckPrevious(id);
      if !proceed {
        return;
      }
      if active {
        HaltPrevious(id);
      }
      if active || !over {
        proceed := FinalizeRunLocked(id, ByRestart);
      }
    }

    method CheckPrevious(id: RunId) returns (found: bool, active: bool, over: bool)
      requires Valid() && call == Restarting(id, RestartCheck)
      modifies this
      ensures Valid() && closed == old(closed) && shut == old(shut)
      ensures call == if !found then Nothing
                      else if active then Restarting(id, RestartHalt)
                      else if !over then Restarting(id, RestartFinalize(Look))
                      else Starting(CheckOpen, Some(id))
      ensures Smooth() && !found ==> id !in rows
    {
      var turn := Yield();
      found := turn.reply.Fine? && id in rows;
      active := id in engines;
      over := found && Terminal(rows[id]);
      Stepped(View(), turn.reply, "", if !found then Nothing
                                         else if active then Restarting(id, RestartHalt)
                                         else if !over then Restarting(id, RestartFinalize(Look))
                                         else Starting(CheckOpen, Some(id)));
    }

    method HaltPrevious(id: RunId)
      requires Valid() && call == Restarting(id, RestartHalt)
      modifies this
      ensures Valid() && call == Restarting(id, RestartFinalize(Look)) && id in stopped
      ensures closed == old(closed) && shut == old(shut)
    {
      var turn := Yield();
      ghost var before := View();
      stopped := stopped + {id};
      Stepped(before, turn.reply, "", Restarting(id, RestartFinalize(Look)));
    }

    /** Close: nil only once every runner is gone, and then no engine is left. */
    method Close(patience: nat) returns (ok: bool)
      requires Valid() && call.Nothing?
      modifies this
      ensures Valid() && call.Nothing? && closed
      ensures ok ==> shut && engines == {}
    {
      MarkClosed();
      StopEngines();
      for waited := 0 to patience
        invariant Valid() && call.AwaitingRunners? && closed
      {
        var _ := Yield();
        if forall id | id in runners :: runners[id].Gone? {
          ghost var before := View();
          shut := true;
          Stepped(before, Fine, "", Nothing);
          NoEngines();
          return true;
        }
      }
      GivesUp(View());
      ok := false;
    }

    method MarkClosed()
      requires Valid() && call.Nothing?
      modifies this
      ensures Valid() && call.StoppingEngines? && closed
    {
      Enters(MarkingClosed);
      ghost var before := View();
      closed := true;
      Stepped(before, Fine, "", StoppingEngines(engines));
    }

    /** Stops the engines noted when the flag was set, in any order; their runners go on meanwhile. */
    method StopEngines()
      requires Valid() && call.StoppingEngines? && closed
      modifies this
      ensures Valid() && call.AwaitingRunners? && closed
    {
      while call.left != {}
        invariant Valid() && call.StoppingEngines? && closed
        decreases |call.left|
      {
        var next :| next in call.left;
        var _ := Yield();
        ghost var before := View();
        stopped := stopped + {next};
        Stepped(before, Fine, next, StoppingEngines(call.left - {next}));
      }
      Stepped(View(), Fine, "", AwaitingRunners);
    }

    method GivesUp(ghost before: World)
      requires Valid() && before == View() && call.AwaitingRunners?
      modifies this`call, this`trace
      ensures Valid() && call.Nothing?
    {
      call := Nothing;
      Did(before, GiveUpClosing);
    }

    lemma NoEngines()
      requires Valid() && shut
      ensures engines == {}
    {
      Reached(found, trace, View());
      forall id ensures id !in engines {
        assert AllGone(View());
      }
    }
  }
}
