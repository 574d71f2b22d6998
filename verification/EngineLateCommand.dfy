/** A run of the engine in which virtual time goes backwards: an operator's command arrives while the
    runner is already waiting for a later static action. */
module EngineLateCommand {
  import opened Actions
  import opened EngineState
  import opened Options
  import opened EngineMachine
  import opened CommandSimulation

  const SIGHTING: Action := Action(10000, 1, "observe.t", Plain)

  function Start(): Machine
  {
    Machine(
      State(false, false, 1.0, 0.0, 0.0, [SIGHTING], 0, [], false, 0, 1, {}, 0, 0,
            map[1 := Event(10000, "observe.t", Pending)]),
      0.0, false, Idle, [], [], {}, {}, {})
  }

  lemma StartIsInitial()
    ensures Initial(Start())
  {
    assert Numbers([SIGHTING]) == {1} by {
      assert SIGHTING in [SIGHTING];
    }
    assert forall a | a in [SIGHTING] :: a == SIGHTING;
  }

  /** Extends a run by one step. */
  lemma {:induction false} RunSnoc(m: Machine, steps: seq<Step>, mid: Machine, step: Step)
    requires Run(m, steps, mid) && Enabled(mid, step)
    ensures Run(m, steps + [step], Next(mid, step))
    decreases |steps|
  {
    if steps == [] {
      assert [step][1..] == [];
      assert Run(Next(m, step), [], Next(mid, step));
      assert steps + [step] == [step];
    } else {
      RunSnoc(Next(m, steps[0]), steps[1..], mid, step);
      assert (steps + [step])[1..] == steps[1..] + [step];
    }
  }

  lemma Extend(before: seq<Step>, m: Machine, step: Step) returns (steps: seq<Step>, n: Machine)
    requires Run(Start(), before, m) && Enabled(m, step)
    ensures n == Next(m, step) && Run(Start(), steps, n)
  {
    RunSnoc(Start(), before, m, step);
    steps, n := before + [step], Next(m, step);
  }

  const ACKNOWLEDGEMENT: Action := Action(3000, 2, "command.acknowledge", Acknowledge("c"))
  const COMPLETION: Action := Action(5000, 3, "command.complete", Outcome("c"))

  lemma AnswersReserved(e: State)
    requires e == Start().e.(pendingCommands := {"c"})
    ensures Reserve(e, Batch(None, "c"), false, 0.0)
      == (e.(reserved := 2, nextSeq := 3), Reserved([ACKNOWLEDGEMENT, COMPLETION]))
  {
    var batch := Batch(None, "c");
    assert CurrentVirtual(e, 0.0) == 0.0;
    assert Anchor(e, false, 0.0) == 0;
    assert FirstOverflow(0, batch) == 2;
    assert Stamp(0, 1, batch) == [ACKNOWLEDGEMENT, COMPLETION];
  }

  /** The runner waits for the sighting when the command is issued. */
  lemma CommandIsIssued() returns (steps: seq<Step>, m: Machine)
    ensures Run(Start(), steps, m)
    ensures m == Start().(runner := Waiting(SIGHTING), tracked := {"c"},
                          e := Start().e.(pendingCommands := {"c"}),
                          injectors := [Tracked("c", false, Batch(None, "c"))])
  {
    steps, m := Extend([], Start(), Advance(Peek));
    steps, m := Extend(steps, m, Injecting(Inject("c", false, Batch(None, "c"))));
  }

  /** The runner waits for the sighting; meanwhile a command is issued and reserves its answers. */
  lemma CommandIsReserved() returns (steps: seq<Step>, m: Machine)
    ensures Run(Start(), steps, m)
    ensures m == Start().(runner := Waiting(SIGHTING), tracked := {"c"},
                          e := Start().e.(pendingCommands := {"c"}, reserved := 2, nextSeq := 3),
                          injectors := [Held("c", false, [ACKNOWLEDGEMENT, COMPLETION])])
  {
    steps, m := CommandIsIssued();
    AnswersReserved(m.e);
    steps, m := Extend(steps, m, Injecting(Admit(0)));
  }

  /** The answers are committed, both due before the sighting. */
  lemma CommandArrivesLate() returns (steps: seq<Step>, m: Machine)
    ensures Run(Start(), steps, m)
    ensures m.runner == Waiting(SIGHTING) && m.e.pending == [ACKNOWLEDGEMENT, COMPLETION]
    ensures m.e.timeline == [SIGHTING] && m.e.nextStatic == 0 && m.executed == []
    ensures !m.e.paused && !m.e.stopped && m.e.virtualBaseMs == 0.0 && m.e.speed == 1.0
    ensures m.e.lastResume == 0.0 && m.now == 0.0 && m.injectors == [Closed("c", false)]
  {
    steps, m := CommandIsReserved();
    steps, m := Extend(steps, m, Injecting(Persist(0, true)));
    SortedAsCommitted();
    steps, m := Extend(steps, m, Injecting(Commit(0)));
  }

  lemma SortedAsCommitted()
    ensures StableSort([] + [ACKNOWLEDGEMENT, COMPLETION]) == [ACKNOWLEDGEMENT, COMPLETION]
  {
    var s := [ACKNOWLEDGEMENT, COMPLETION];
    assert [] + s == s;
    assert s[..1] == [ACKNOWLEDGEMENT] && s[..1][..0] == [];
    assert Insert([], ACKNOWLEDGEMENT) == [ACKNOWLEDGEMENT];
    assert [ACKNOWLEDGEMENT][1..] == [];
    assert Insert([ACKNOWLEDGEMENT], COMPLETION) == s;
  }

  /** The sighting, whose time has come, still runs first. */
  lemma SightingRunsFirst(before: seq<Step>, waiting: Machine) returns (steps: seq<Step>, m: Machine)
    requires Run(Start(), before, waiting)
    requires waiting.runner == Waiting(SIGHTING) && waiting.e.pending == [ACKNOWLEDGEMENT, COMPLETION]
    requires waiting.e.timeline == [SIGHTING] && waiting.e.nextStatic == 0 && waiting.executed == []
    requires !waiting.e.paused && !waiting.e.stopped && waiting.e.virtualBaseMs == 0.0 && waiting.e.speed == 1.0
    requires waiting.e.lastResume == 0.0 && waiting.now == 0.0 && waiting.injectors == [Closed("c", false)]
    ensures Run(Start(), steps, m)
    ensures m.runner == Started(SIGHTING) && m.e.pending == [ACKNOWLEDGEMENT, COMPLETION]
    ensures m.e.timeline == [SIGHTING] && m.e.nextStatic == 1 && m.executed == [SIGHTING]
    ensures !m.e.paused && !m.e.stopped && m.e.virtualBaseMs == 10000.0
    ensures m.e.lastResume == m.now && m.injectors == [Closed("c", false)] && m.e.lastActionAt == 10000
  {
    steps, m := before, waiting;
    steps, m := Extend(steps, m, World(Tick(10000.0)));
    assert VirtualTimeMs(CurrentVirtual(m.e, m.now)) == 10000;
    steps, m := Extend(steps, m, Advance(WaitDone));
    steps, m := Extend(steps, m, Advance(Pop));
    steps, m := Extend(steps, m, Advance(Begin));
  }

  /** The sighting completes. */
  lemma SightingReturns(before: seq<Step>, started: Machine) returns (steps: seq<Step>, m: Machine)
    requires Run(Start(), before, started)
    requires started.runner == Started(SIGHTING) && started.e.pending == [ACKNOWLEDGEMENT, COMPLETION]
    requires started.e.timeline == [SIGHTING] && started.e.nextStatic == 1 && started.executed == [SIGHTING]
    requires !started.e.paused && !started.e.stopped && started.e.virtualBaseMs == 10000.0
    requires started.e.lastResume == started.now && started.injectors == [Closed("c", false)]
    ensures Run(Start(), steps, m)
    ensures m == started.(runner := Returned(SIGHTING, Succeeded))
  {
    steps, m := Extend(before, started, Advance(PersistStart(true)));
    steps, m := Extend(steps, m, Advance(Return(Succeeded)));
  }

  /** The sighting is counted and the runner turns to the acknowledgement. */
  lemma ThenTheCommand(before: seq<Step>, returned: Machine) returns (steps: seq<Step>, m: Machine)
    requires Run(Start(), before, returned)
    requires returned.runner == Returned(SIGHTING, Succeeded) && returned.e.pending == [ACKNOWLEDGEMENT, COMPLETION]
    requires returned.e.timeline == [SIGHTING] && returned.e.nextStatic == 1 && returned.executed == [SIGHTING]
    requires !returned.e.paused && !returned.e.stopped && returned.e.virtualBaseMs == 10000.0
    requires returned.e.lastResume == returned.now
    ensures Run(Start(), steps, m)
    ensures m.runner == Waiting(ACKNOWLEDGEMENT) && m.e.pending == [ACKNOWLEDGEMENT, COMPLETION]
    ensures m.e.timeline == [SIGHTING] && m.e.nextStatic == 1 && m.executed == [SIGHTING]
    ensures !m.e.paused && !m.e.stopped && m.e.virtualBaseMs == 10000.0
    ensures m.e.lastResume == m.now
  {
    steps, m := Extend(before, returned, Advance(Finish));
    steps, m := Extend(steps, m, Advance(PersistFinish(true)));
    steps, m := Extend(steps, m, Advance(Peek));
  }

  /** The acknowledgement is due at once, and runs. */
  lemma AcknowledgementRuns(before: seq<Step>, waiting: Machine) returns (steps: seq<Step>, m: Machine)
    requires Run(Start(), before, waiting)
    requires waiting.runner == Waiting(ACKNOWLEDGEMENT) && waiting.e.pending == [ACKNOWLEDGEMENT, COMPLETION]
    requires waiting.e.timeline == [SIGHTING] && waiting.e.nextStatic == 1 && waiting.executed == [SIGHTING]
    requires !waiting.e.paused && !waiting.e.stopped && waiting.e.virtualBaseMs == 10000.0
    requires waiting.e.lastResume == waiting.now
    ensures Run(Start(), steps, m)
    ensures m.executed == [SIGHTING, ACKNOWLEDGEMENT]
    ensures m.e.lastActionAt == 3000 && m.e.virtualBaseMs == 3000.0
  {
    assert Progress(waiting.now - waiting.e.lastResume, waiting.e.speed) == 0.0;
    steps, m := Extend(before, waiting, Advance(WaitDone));
    steps, m := Extend(steps, m, Advance(Pop));
    steps, m := Extend(steps, m, Advance(Begin));
  }

  /** Order is not unconditional: this reachable state has executed an action of instant 10000 and
      then one of instant 3000, and its virtual clock has gone back with it. */
  lemma VirtualTimeCanGoBack() returns (steps: seq<Step>, m: Machine)
    ensures Reaches(Start(), steps, m)
    ensures m.executed == [SIGHTING, ACKNOWLEDGEMENT] && !Ordered(m.executed)
    ensures m.e.lastActionAt == 3000 && m.e.virtualBaseMs == 3000.0
  {
    StartIsInitial();
    steps, m := CommandArrivesLate();
    steps, m := SightingRunsFirst(steps, m);
    steps, m := SightingReturns(steps, m);
    steps, m := ThenTheCommand(steps, m);
    steps, m := AcknowledgementRuns(steps, m);
    assert !Before(m.executed[0], m.executed[1]);
  }
}
