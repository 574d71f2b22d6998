/** The engine as the object it is: fields updated in place, one method per section that runs under
    the mutex. Every method is proved against the function on values that specifies its section, so
    what is proved of runs of the transition system is about these methods. */
module Engine {
  import opened Actions
  import opened Options
  import A = EngineAdmission
  import S = EngineState

  /** What reserving a batch that fits the capacity comes to. */
  function Stamped(e: S.State, batch: seq<DynamicAction>, inner: bool, now: real): (S.State, S.Admission)
  {
    var base := S.Anchor(e, inner, now);
    var bad := S.FirstOverflow(base, batch);
    if bad < |batch| then (e.(nextSeq := e.nextSeq + bad + 1), S.Refused(S.TimeTooLarge))
    else
      (e.(reserved := e.reserved + |batch|, nextSeq := e.nextSeq + |batch|),
       S.Reserved(S.Stamp(base, e.nextSeq, batch)))
  }

  lemma RunningClockAdvances(e: S.State)
    requires !e.paused && !e.stopped
    ensures forall later ::
      S.Shows(S.CurrentVirtual(e, later), e.virtualBaseMs + (later - e.lastResume) * e.speed)
  {
    forall later
      ensures S.Shows(S.CurrentVirtual(e, later), e.virtualBaseMs + (later - e.lastResume) * e.speed)
    {
      S.RunningReading(e, later);
    }
  }

  class Engine {
    var paused: bool
    var stopped: bool
    var speed: real
    var virtualBaseMs: real
    var lastResume: real
    var timeline: seq<Action>
    var nextStatic: nat
    var pending: seq<Action>
    var finished: bool
    var reserved: int
    var nextSeq: nat
    var pendingCommands: set<string>
    var lastActionAt: int
    var eventsRun: nat
    var eventStates: map<nat, S.Event>

    function View(): S.State
      reads this
    {
      S.State(paused, stopped, speed, virtualBaseMs, lastResume, timeline, nextStatic, pending, finished,
              reserved, nextSeq, pendingCommands, lastActionAt, eventsRun, eventStates)
    }

    /** A new engine with its timeline already built: one pending event an action. */
    constructor (actions: seq<Action>, playback: real, now: real)
      ensures timeline == actions && nextStatic == 0 && nextSeq == |actions|
      ensures speed == if playback <= 0.0 then 1.0 else playback
      ensures eventStates == S.Recorded(map[], actions, S.Pending)
      ensures !paused && !stopped && !finished && pending == [] && reserved == 0 && pendingCommands == {}
      ensures virtualBaseMs == 0.0 && lastResume == now && lastActionAt == 0 && eventsRun == 0
    {
      paused, stopped, finished := false, false, false;
      speed := if playback <= 0.0 then 1.0 else playback;
      virtualBaseMs, lastResume := 0.0, now;
      timeline, nextStatic, pending, reserved := actions, 0, [], 0;
      nextSeq, pendingCommands, lastActionAt, eventsRun := |actions|, {}, 0, 0;
      eventStates := S.Recorded(map[], actions, S.Pending);
    }

    // ---- operator controls ----

    /** Virtual time stands still from here on. */
    method Pause(now: real)
      modifies this
      ensures View() == S.Pause(old(View()), now)
      ensures View() == old(View()).(paused := paused, virtualBaseMs := virtualBaseMs)
      ensures old(paused || stopped || finished) ==> View() == old(View())
      ensures !old(paused || stopped || finished) ==>
        paused && forall later :: S.CurrentVirtual(View(), later) == old(S.CurrentVirtual(View(), now))
    {
      if !paused && !stopped && !finished {
        virtualBaseMs := S.CurrentVirtual(View(), now);
        paused := true;
      }
    }

    /** Virtual time goes on from where it stood. */
    method Resume(now: real)
      modifies this
      ensures View() == S.Resume(old(View()), now)
      ensures View() == old(View()).(paused := paused, lastResume := lastResume)
      ensures !old(paused) || old(stopped || finished) ==> View() == old(View())
      ensures old(paused) && !old(stopped || finished) ==>
        && !paused
        && forall later ::
             S.Shows(S.CurrentVirtual(View(), later), old(S.CurrentVirtual(View(), now)) + (later - now) * speed)
    {
      if paused && !stopped && !finished {
        paused := false;
        lastResume := now;
        RunningClockAdvances(View());
      }
    }

    /** Virtual time goes on from the reading it has, at the new speed. */
    method SetSpeed(playback: real, now: real)
      modifies this
      ensures View() == S.SetSpeed(old(View()), playback, now)
      ensures View() == old(View()).(speed := speed, lastResume := lastResume, virtualBaseMs := virtualBaseMs)
      ensures speed == if playback > 0.0 then playback else old(speed)
      ensures playback > 0.0 && !old(paused || stopped || finished) ==>
        forall later ::
          S.Shows(S.CurrentVirtual(View(), later), old(S.CurrentVirtual(View(), now)) + (later - now) * playback)
      ensures playback <= 0.0 || old(paused || stopped || finished) ==>
        lastResume == old(lastResume) && virtualBaseMs == old(virtualBaseMs)
    {
      if playback <= 0.0 {
        return;
      }
      if !paused && !stopped && !finished {
        virtualBaseMs := S.CurrentVirtual(View(), now);
        lastResume := now;
      }
      speed := playback;
      if !paused && !stopped {
        RunningClockAdvances(View());
      }
    }

    method Stop()
      modifies this
      ensures View() == S.Stop(old(View()))
      ensures View() == old(View()).(stopped := true)
    {
      stopped := true;
    }

    // ---- the runner's sections ----

    method PeekNext() returns (next: Option<Action>)
      modifies this
      ensures (View(), next) == S.PeekNext(old(View()))
    {
      next := None;
      if nextStatic < |timeline| {
        next := Some(timeline[nextStatic]);
      }
      if |pending| > 0 {
        if next.None? || Before(pending[0], next.value) {
          next := Some(pending[0]);
        }
      }
      if next.None? {
        finished := true;
      }
    }

    method PopNext(seqNo: nat) returns (popped: Option<Action>)
      modifies this
      ensures (View(), popped) == S.PopNext(old(View()), seqNo)
    {
      if nextStatic < |timeline| && timeline[nextStatic].seqNo == seqNo {
        popped := Some(timeline[nextStatic]);
        nextStatic := nextStatic + 1;
        return;
      }
      if |pending| > 0 && pending[0].seqNo == seqNo {
        popped := Some(pending[0]);
        pending := pending[1..];
        return;
      }
      popped := None;
    }

    method StartAction(a: Action, now: real)
      modifies this
      ensures View() == S.StartAction(old(View()), a, now)
    {
      virtualBaseMs := a.atMs as real;
      lastResume := now;
      lastActionAt := a.atMs;
      if a.seqNo in eventStates {
        eventStates := eventStates[a.seqNo := eventStates[a.seqNo].(status := S.Running)];
      }
    }

    method RecordFailure(a: Action)
      modifies this
      ensures View() == S.RecordFailure(old(View()), a)
    {
      if a.seqNo in eventStates {
        eventStates := eventStates[a.seqNo := eventStates[a.seqNo].(status := S.Failed)];
      }
    }

    method FinishAction(a: Action)
      modifies this
      ensures View() == S.FinishAction(old(View()), a)
    {
      if a.seqNo in eventStates && eventStates[a.seqNo].status == S.Running {
        eventStates := eventStates[a.seqNo := eventStates[a.seqNo].(status := S.Completed)];
      }
      eventsRun := eventsRun + 1;
    }

    method MarkFinished()
      modifies this
      ensures View() == S.MarkFinished(old(View()))
    {
      finished := true;
    }

    /** Skips every open event, visiting the map in any order. */
    method SkipPending()
      modifies this
      ensures View() == S.SkipPending(old(View()))
    {
      ghost var before := eventStates;
      var todo := eventStates.Keys;
      while todo != {}
        invariant todo <= before.Keys == eventStates.Keys
        invariant forall n | n in before :: eventStates[n] == (if n in todo then before else S.SkipOpen(before))[n]
        invariant View() == old(View()).(eventStates := eventStates)
        decreases |todo|
      {
        var n :| n in todo;
        if S.Open(eventStates[n].status) {
          eventStates := eventStates[n := eventStates[n].(status := S.Skipped)];
        }
        todo := todo - {n};
      }
    }

    // ---- simulated commands ----

    method TrackCommand(command: string)
      modifies this
      ensures View() == S.TrackCommand(old(View()), command)
    {
      if command == "" {
        return;
      }
      pendingCommands := pendingCommands + {command};
    }

    method UntrackCommand(command: string)
      modifies this
      ensures View() == S.UntrackCommand(old(View()), command)
    {
      pendingCommands := pendingCommands - {command};
    }

    /** Takes all tracked commands, each of which the caller then fails once. */
    method TakeCommands() returns (taken: seq<string>)
      modifies this
      ensures View() == S.TakeCommands(old(View()))
      ensures forall c :: c in taken <==> c in old(pendingCommands)
      ensures forall i, j | 0 <= i < j < |taken| :: taken[i] != taken[j]
    {
      taken := [];
      var todo := pendingCommands;
      while todo != {}
        invariant forall c :: c in pendingCommands <==> c in todo || c in taken
        invariant forall c :: c in taken ==> c !in todo
        invariant forall i, j | 0 <= i < j < |taken| :: taken[i] != taken[j]
        invariant View() == old(View())
        decreases |todo|
      {
        var c :| c in todo;
        taken := taken + [c];
        todo := todo - {c};
      }
      pendingCommands := {};
    }

    // ---- two-phase admission ----

    /** The first section of scheduleAfterMany. Numbers are handed out one by one, so a request whose
        time overflows returns the reservation but not the numbers already taken. */
    method Reserve(batch: seq<DynamicAction>, inner: bool, now: real) returns (admission: S.Admission)
      modifies this
      ensures (View(), admission) == S.Reserve(old(View()), batch, inner, now)
      ensures A.Decided(old(View()), batch, inner, now, View(), admission)
    {
      A.ReserveDecides(View(), batch, inner, now);
      if |batch| == 0 {
        return S.Nothing;
      }
      if stopped || finished {
        return S.Refused(S.NotAccepting);
      }
      for i := 0 to |batch|
        invariant forall k | 0 <= k < i :: batch[k].delayMs >= 0
        invariant View() == old(View())
      {
        if batch[i].delayMs < 0 {
          return S.Refused(S.NegativeDelay);
        }
      }
      if |eventStates| + reserved + |batch| > MAX_SCHEDULED_ACTIONS {
        return S.Refused(S.CapacityExhausted);
      }
      admission := Stamp(batch, inner, now);
    }

    /** The tail of that section, once the batch is known to fit the capacity. */
    method Stamp(batch: seq<DynamicAction>, inner: bool, now: real) returns (admission: S.Admission)
      modifies this
      ensures (View(), admission) == Stamped(old(View()), batch, inner, now)
    {
      var base := S.VirtualTimeMs(S.CurrentVirtual(View(), now));
      if inner {
        base := lastActionAt;
      }
      reserved := reserved + |batch|;
      var stamped: seq<Action> := [];
      for i := 0 to |batch|
        invariant nextSeq == old(nextSeq) + i
        invariant forall k | 0 <= k < i :: !S.Overflows(base, batch[k].delayMs)
        invariant stamped == S.Stamp(base, old(nextSeq), batch)[..i]
        invariant View() == old(View()).(reserved := old(reserved) + |batch|, nextSeq := nextSeq)
      {
        nextSeq := nextSeq + 1;
        if batch[i].delayMs > 0 && base > MAX_INT64 - batch[i].delayMs {
          assert S.FirstOverflow(base, batch) == i;
          reserved := reserved - |batch|;
          return S.Refused(S.TimeTooLarge);
        }
        stamped := stamped + [Action(base + batch[i].delayMs, nextSeq, batch[i].name, batch[i].effect)];
      }
      assert stamped == S.Stamp(base, old(nextSeq), batch);
      admission := S.Reserved(stamped);
    }

    /** Persistence failed: the reservation is returned and every event of the batch is skipped. */
    method DropBatch(actions: seq<Action>)
      modifies this
      ensures View() == S.DropBatch(old(View()), actions)
    {
      reserved := reserved - |actions|;
      RecordAll(actions, S.Skipped);
    }

    method CommitBatch(actions: seq<Action>) returns (accepted: bool)
      modifies this
      ensures View() == S.CommitBatch(old(View()), actions)
      ensures accepted <==> S.AcceptsNow(old(View()))
    {
      accepted := !stopped && !finished;
      reserved := reserved - |actions|;
      if !accepted {
        RecordAll(actions, S.Skipped);
        return;
      }
      pending := StableSort(pending + actions);
      RecordAll(actions, S.Pending);
    }

    method RecordAll(actions: seq<Action>, status: S.Status)
      modifies this`eventStates
      ensures eventStates == S.Recorded(old(eventStates), actions, status)
    {
      for i := 0 to |actions|
        invariant S.Recorded(eventStates, actions[i..], status) == S.Recorded(old(eventStates), actions, status)
      {
        var a := actions[i];
        assert actions[i..][1..] == actions[i + 1..];
        eventStates := eventStates[a.seqNo := S.Event(a.atMs, a.name, status)];
      }
    }
  }
}
