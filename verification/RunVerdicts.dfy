/** How runs end: with the status that tells how run returned, or with the one of the operator call that
    closed them first. */
module RunVerdicts {
  import opened RunLifecycle
  import opened RunLifecycleResults

  /** The status that fits how run returned and whether its runner then found the engine stopped. */
  predicate Fits(past: Past, id: RunId, status: Status)
  {
    && id in past.returned
    && (status == Completed <==> !past.returned[id] && id !in past.halted)
    && (status == Failed <==> past.returned[id] && id !in past.halted)
    && (status == Stopped <==> id in past.halted)
  }

  predicate RunnerFits(w: World, id: RunId)
    requires id in w.runners
  {
    match w.runners[id]
    case Executing => id !in w.past.returned && id !in w.past.halted
    case Deciding(bad) => id in w.past.returned && w.past.returned[id] == bad && id !in w.past.halted
    case Queueing(status) => Fits(w.past, id, status)
    case Closing(status, _) => Fits(w.past, id, status)
    case _ => true
  }

  /** The runner has got to finalizing. */
  predicate Decided(r: Runner)
  {
    r.Closing? || r.Leaving? || r.Gone?
  }

  predicate CloserFits(w: World, id: RunId)
    requires id in w.past.closers
  {
    && Over(w, id)
    && match w.past.closers[id]
       case ByRunner => id in w.runners && Decided(w.runners[id]) && Fits(w.past, id, w.rows[id])
       case ByCall => w.rows[id] == Stopped || (w.rows[id] == Failed && id !in w.runners)
  }

  ghost predicate Verdicts(found: map<RunId, Status>, w: World)
  {
    && (forall id {:trigger RunnerFits(w, id)} | id in w.runners :: RunnerFits(w, id))
    && (forall id {:trigger CloserFits(w, id)} | id in w.past.closers :: CloserFits(w, id))
    && w.past.returned.Keys <= w.runners.Keys && w.past.halted <= w.runners.Keys && w.past.halted <= w.stopped
    && (forall id | Over(w, id) :: id in w.past.closers || (id in found && found[id] == w.rows[id]))
  }

  // ---- what a call does ----

  /** A step by which no run ends. */
  ghost predicate NothingEnds(w: World, n: World)
  {
    && n.past == w.past && w.stopped <= n.stopped
    && (forall id | Over(n, id) :: Over(w, id)) && (forall id | Over(w, id) :: Over(n, id) && n.rows[id] == w.rows[id])
    && (forall id | id in w.runners :: id in n.runners && n.runners[id] == w.runners[id])
    && (forall id | id in n.runners && id !in w.runners :: n.runners[id] == Executing && !Over(w, id))
  }

  /** A call that holds the guard of a live run writes its final status. */
  predicate CallEnds(w: World, n: World, id: RunId, status: Status)
  {
    && Alive(w, id) && (status == Stopped || (status == Failed && id !in w.runners))
    && n.rows == w.rows[id := status] && n.past == w.past.(closers := w.past.closers[id := ByCall])
    && n.runners == w.runners && n.stopped == w.stopped
  }

  lemma NothingEndsKeeps(found: map<RunId, Status>, w: World, n: World)
    requires Verdicts(found, w) && NothingEnds(w, n)
    ensures Verdicts(found, n)
  {
    forall id | id in n.runners ensures RunnerFits(n, id) {
      if id in w.runners {
        assert RunnerFits(w, id);
      }
    }
    forall id | id in n.past.closers ensures CloserFits(n, id) {
      assert CloserFits(w, id);
    }
  }

  lemma CallEndsKeeps(found: map<RunId, Status>, w: World, n: World, id: RunId, status: Status)
    requires Verdicts(found, w) && CallEnds(w, n, id, status)
    ensures Verdicts(found, n)
  {
    forall r | r in n.runners ensures RunnerFits(n, r) {
      assert RunnerFits(w, r);
    }
    forall r | r in n.past.closers ensures CloserFits(n, r) {
      if r != id {
        assert CloserFits(w, r);
      }
    }
  }

  lemma CallFinalizesFits(found: map<RunId, Status>, w: World, id: RunId, status: Status, at: Finalizing, reply: Reply,
                          c: Call)
    requires Verdicts(found, w) && FinalizingOk(w, id, status, at)
    requires status == Stopped || (status == Failed && id !in w.runners)
    ensures Verdicts(found, FinalizeNext(w, id, status, at, ByCall, reply).0.(call := c))
  {
    var n := FinalizeNext(w, id, status, at, ByCall, reply).0.(call := c);
    if at.Write? && !reply.Refused? {
      CallEndsKeeps(found, w, n, id, status);
    } else {
      NothingEndsKeeps(found, w, n);
    }
  }

  lemma StartFits(found: map<RunId, Status>, w: World, reply: Reply, unused: RunId)
    requires Inv(w) && Verdicts(found, w) && w.call.Starting?
    ensures Verdicts(found, StartNext(w, reply, unused))
  {
    var n := StartNext(w, reply, unused);
    if w.call.at.Abort? {
      CallFinalizesFits(found, w, w.call.at.id, Failed, w.call.at.at, reply, n.call);
    } else {
      StartEndsNothing(w, reply, unused);
      NothingEndsKeeps(found, w, n);
    }
  }

  lemma StartEndsNothing(w: World, reply: Reply, unused: RunId)
    requires CallOk(w) && w.call.Starting? && !w.call.at.Abort?
    ensures NothingEnds(w, StartNext(w, reply, unused))
  {
    if w.call.at.Create? {
      CreateEndsNothing(w, reply, unused);
    }
  }

  lemma CreateEndsNothing(w: World, reply: Reply, unused: RunId)
    requires w.call.Starting? && w.call.at.Create?
    ensures NothingEnds(w, StartNext(w, reply, unused))
  {
  }

  lemma ControlFits(found: map<RunId, Status>, w: World, reply: Reply)
    requires CallOk(w) && Verdicts(found, w) && w.call.Controlling?
    ensures Verdicts(found, ControlNext(w, reply))
  {
    ControlEndsNothing(w, reply);
    NothingEndsKeeps(found, w, ControlNext(w, reply));
  }

  lemma ControlEndsNothing(w: World, reply: Reply)
    requires CallOk(w) && w.call.Controlling?
    ensures NothingEnds(w, ControlNext(w, reply))
  {
    ControlWrites(w, reply);
  }

  lemma ControlWrites(w: World, reply: Reply)
    requires CallOk(w) && w.call.Controlling?
    ensures var n := ControlNext(w, reply);
      && n.past == w.past && n.stopped == w.stopped && n.runners == w.runners
      && (n.rows == w.rows
          || (Alive(w, w.call.id) && exists s :: !Terminal(s) && n.rows == w.rows[w.call.id := s]))
  {
    var n := ControlNext(w, reply);
    if w.call.step.WriteStatus? && n.rows != w.rows {
      var s := if w.call.control.Pause? then Paused else Running;
      assert !Terminal(s) && n.rows == w.rows[w.call.id := s];
    }
  }

  lemma StopFits(found: map<RunId, Status>, w: World, reply: Reply)
    requires CallOk(w) && Verdicts(found, w) && w.call.Stopping?
    ensures Verdicts(found, StopNext(w, reply))
  {
    var n := StopNext(w, reply);
    if w.call.stop.Finalize? {
      CallFinalizesFits(found, w, w.call.id, Stopped, w.call.stop.at, reply, n.call);
    } else {
      NothingEndsKeeps(found, w, n);
    }
  }

  lemma RestartFits(found: map<RunId, Status>, w: World, reply: Reply)
    requires CallOk(w) && Verdicts(found, w) && w.call.Restarting?
    ensures Verdicts(found, RestartNext(w, reply))
  {
    var n := RestartNext(w, reply);
    if w.call.restart.RestartFinalize? {
      CallFinalizesFits(found, w, w.call.id, Stopped, w.call.restart.at, reply, n.call);
    } else {
      RestartEndsNothing(w, reply);
      NothingEndsKeeps(found, w, n);
    }
  }

  lemma RestartEndsNothing(w: World, reply: Reply)
    requires w.call.Restarting? && !w.call.restart.RestartFinalize?
    ensures NothingEnds(w, RestartNext(w, reply))
  {
  }

  lemma CloseFits(found: map<RunId, Status>, w: World, next: RunId)
    requires Verdicts(found, w) && Closes(w.call)
    ensures Verdicts(found, CloseNext(w, next))
  {
    CloseEndsNothing(w, next);
    NothingEndsKeeps(found, w, CloseNext(w, next));
  }

  lemma CloseEndsNothing(w: World, next: RunId)
    requires Closes(w.call)
    ensures NothingEnds(w, CloseNext(w, next))
  {
  }

  lemma CallFits(found: map<RunId, Status>, w: World, reply: Reply, unused: RunId)
    requires Inv(w) && Verdicts(found, w) && CallEnabled(w)
    ensures Verdicts(found, CallNext(w, reply, unused))
  {
    match w.call
    case Starting(_, _) => StartFits(found, w, reply, unused);
    case Controlling(_, _, _) => ControlFits(found, w, reply);
    case Stopping(_, _) => StopFits(found, w, reply);
    case Restarting(_, _) => RestartFits(found, w, reply);
    case MarkingClosed => CloseFits(found, w, unused);
    case StoppingEngines(_) => CloseFits(found, w, unused);
    case AwaitingRunners => CloseFits(found, w, unused);
  }

  // ---- what a runner does ----

  /** A runner that moves on without writing. */
  lemma RunnerMovesFits(found: map<RunId, Status>, w: World, n: World, id: RunId, r: Runner, failed: bool)
    requires Verdicts(found, w) && id in w.runners && n.runners == w.runners[id := r]
    requires n.rows == w.rows && n.stopped == w.stopped && n.past.closers == w.past.closers
    requires n.past.returned == w.past.returned
             || (w.runners[id].Executing? && n.past.returned == w.past.returned[id := failed])
    requires n.past.halted == w.past.halted
             || (w.runners[id].Deciding? && id in w.stopped && n.past.halted == w.past.halted + {id})
    requires RunnerFits(n, id) && (Decided(w.runners[id]) ==> Decided(r))
    ensures Verdicts(found, n)
  {
    forall o | o in n.runners ensures RunnerFits(n, o) {
      assert RunnerFits(w, o);
    }
    forall o | o in n.past.closers ensures CloserFits(n, o) {
      assert CloserFits(w, o);
    }
  }

  lemma RunnerDecidesFits(found: map<RunId, Status>, w: World, id: RunId, reply: Reply, failed: bool)
    requires Verdicts(found, w) && id in w.runners && (w.runners[id].Executing? || w.runners[id].Deciding?)
    ensures Verdicts(found, RunnerNext(w, id, reply, failed))
  {
    var n := RunnerNext(w, id, reply, failed);
    assert RunnerFits(w, id);
    RunnerMovesFits(found, w, n, id, n.runners[id], failed);
  }

  lemma RunnerClosesFits(found: map<RunId, Status>, w: World, id: RunId, reply: Reply, failed: bool)
    requires Inv(w) && Verdicts(found, w) && id in w.runners && w.runners[id].Closing?
    ensures Verdicts(found, RunnerNext(w, id, reply, failed))
  {
    var Closing(status, at) := w.runners[id];
    var n := RunnerNext(w, id, reply, failed);
    assert RunnerOk(w, id) && RunnerFits(w, id);
    if at.Write? && !reply.Refused? {
      RunnerEndsKeeps(found, w, n, id, status);
    } else {
      RunnerMovesFits(found, w, n, id, n.runners[id], failed);
    }
  }

  /** A runner writes the final status of its run. */
  lemma RunnerEndsKeeps(found: map<RunId, Status>, w: World, n: World, id: RunId, status: Status)
    requires Verdicts(found, w) && Alive(w, id) && id in w.runners && Fits(w.past, id, status) && Terminal(status)
    requires n.rows == w.rows[id := status] && n.past == w.past.(closers := w.past.closers[id := ByRunner])
    requires n.stopped == w.stopped
    requires id in n.runners && n.runners == w.runners[id := n.runners[id]]
    requires n.runners[id].Closing? || n.runners[id].Leaving?
    requires RunnerFits(n, id)
    ensures Verdicts(found, n)
  {
    forall o | o in n.runners ensures RunnerFits(n, o) {
      assert RunnerFits(w, o);
    }
    forall o | o in n.past.closers ensures CloserFits(n, o) {
      if o != id {
        assert CloserFits(w, o);
      }
    }
  }

  lemma RunnerFitsOn(found: map<RunId, Status>, w: World, id: RunId, reply: Reply, failed: bool)
    requires Inv(w) && Verdicts(found, w) && Enabled(w, Runs(id, reply, failed))
    ensures Verdicts(found, RunnerNext(w, id, reply, failed))
  {
    if w.runners[id].Executing? || w.runners[id].Deciding? {
      RunnerDecidesFits(found, w, id, reply, failed);
    } else if w.runners[id].Closing? {
      RunnerClosesFits(found, w, id, reply, failed);
    } else {
      var n := RunnerNext(w, id, reply, failed);
      assert RunnerFits(w, id);
      RunnerMovesFits(found, w, n, id, n.runners[id], failed);
    }
  }

  // ---- every run ----

  lemma StepKeepsVerdicts(found: map<RunId, Status>, w: World, step: Step)
    requires Inv(w) && Verdicts(found, w) && Enabled(w, step)
    ensures Verdicts(found, Next(w, step))
  {
    match step
    case Enter(_) => NothingEndsKeeps(found, w, Next(w, step));
    case Continue(reply, unused) => CallFits(found, w, reply, unused);
    case GiveUpClosing => NothingEndsKeeps(found, w, Next(w, step));
    case Runs(id, reply, failed) => RunnerFitsOn(found, w, id, reply, failed);
  }

  lemma {:induction false} RunKeepsVerdicts(found: map<RunId, Status>, w: World, steps: seq<Step>, end: World)
    requires Inv(w) && Verdicts(found, w) && Run(w, steps, end)
    ensures Inv(end) && Verdicts(found, end)
    decreases |steps|
  {
    if steps != [] {
      StepKeepsInv(w, steps[0]);
      StepKeepsVerdicts(found, w, steps[0]);
      RunKeepsVerdicts(found, Next(w, steps[0]), steps[1..], end);
    }
  }

  /** Every run that has ended since the service was opened was closed by its own runner or by an operator
      call. Its runner closed it as completed if and only if run had returned without an error and the engine
      had not been stopped, as failed if and only if it had returned with one and the engine had not been
      stopped, and as stopped if and only if it had been. A call closed it as stopped, or as failed when it
      never got a runner. The status published is the one stored. */
  lemma {:induction false} RunsEndAsTheyReturned(found: map<RunId, Status>, steps: seq<Step>, w: World, id: RunId)
    requires Run(Opened(found), steps, w) && id in w.rows && Terminal(w.rows[id])
    ensures id in w.past.closers || (id in found && found[id] == w.rows[id])
    ensures id in w.past.closers && w.past.closers[id].ByRunner? ==>
      && id in w.past.returned && w.past.halted <= w.stopped
      && (w.rows[id] == Completed <==> !w.past.returned[id] && id !in w.past.halted)
      && (w.rows[id] == Failed <==> w.past.returned[id] && id !in w.past.halted)
      && (w.rows[id] == Stopped <==> id in w.past.halted)
    ensures id in w.past.closers && w.past.closers[id].ByCall? ==>
      w.rows[id] == Stopped || (w.rows[id] == Failed && id !in w.runners)
    ensures forall e | e in w.log && e.Ended? && e.id == id :: e.status == w.rows[id]
  {
    OpenedOk(found);
    RunKeepsVerdicts(found, Opened(found), steps, w);
    assert Over(w, id);
    if id in w.past.closers {
      assert CloserFits(w, id);
    }
  }
}
