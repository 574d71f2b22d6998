/** When actions run in virtual-time order. popNext takes the static head the runner waited for even
    if an earlier action was committed meanwhile, so order is not unconditional: a run is in strictly
    increasing order exactly when every action it executed was committed ahead of the point the
    runner had reached. */
module EngineOrder {
  import opened Actions
  import opened EngineState
  import opened Options
  import opened EngineMachine
  import opened EngineShape

  /** The actions popped so far. */
  function Taken(m: Machine): seq<Action>
  {
    if m.runner.Popped? then m.executed + [m.runner.action] else m.executed
  }

  ghost predicate Clean(actions: seq<Action>, late: set<nat>)
  {
    forall a | a in actions :: a.seqNo !in late
  }

  predicate Left(r: Runner)
  {
    r.Leaving? || r.Sweeping? || r.Settling? || r.Exited?
  }

  predicate After(floor: Option<Action>, a: Action)
  {
    floor.Some? ==> Before(floor.value, a)
  }

  predicate Pacing(r: Runner)
  {
    r.Waiting? || r.Due?
  }

  predicate Committed(m: Machine)
  {
    Pacing(m.runner) && AwaitsStatic(m.e, m.runner.action)
  }

  function LastTaken(m: Machine): Option<Action>
  {
    if Taken(m) == [] then None else Some(Taken(m)[|Taken(m)| - 1])
  }

  lemma FloorIs(m: Machine)
    ensures Floor(m) == if Committed(m) then Some(m.runner.action) else LastTaken(m)
  {
  }

  /** What the runner waits for is still first in its own queue, or the queue has overtaken it. */
  ghost predicate Selected(m: Machine)
  {
    Pacing(m.runner) && !Committed(m) ==>
      && m.runner.action in m.e.pending
      && (m.e.nextStatic < |m.e.timeline| ==> Before(m.runner.action, m.e.timeline[m.e.nextStatic]))
  }

  /** Lateness is only ever charged to dynamic actions, and only before they are taken. */
  ghost predicate Charged(m: Machine)
  {
    && m.e.nextStatic <= |m.e.timeline|
    && Clean(m.e.timeline[m.e.nextStatic..], m.late)
    && Numbers(Taken(m)) <= m.e.eventStates.Keys
    && m.late <= m.e.eventStates.Keys
  }

  /** Remaining actions that were punctual lie beyond the floor. */
  ghost predicate Ahead(m: Machine)
    requires m.e.nextStatic <= |m.e.timeline|
  {
    forall a | a in Remaining(m.e) && a.seqNo !in m.late ::
      After(Floor(m), a) || (Committed(m) && a == m.runner.action)
  }

  /** Remaining actions that were late lie behind one that was, or is about to be, taken. */
  ghost predicate Overtaken(m: Machine, a: Action)
  {
    (exists x :: x in Taken(m) && Before(a, x)) || (Committed(m) && Before(a, m.runner.action))
  }

  ghost predicate Behind(m: Machine)
    requires m.e.nextStatic <= |m.e.timeline|
  {
    forall a | a in Remaining(m.e) && a.seqNo in m.late :: Overtaken(m, a)
  }

  /** Order and punctuality agree on a list of actions. */
  ghost predicate Agree(actions: seq<Action>, late: set<nat>)
  {
    Ordered(actions) <==> Clean(actions, late)
  }

  ghost predicate Sequenced(m: Machine)
  {
    && Charged(m) && Agree(m.executed, m.late) && Agree(Taken(m), m.late)
    && (!Left(m.runner) ==>
          && Selected(m) && Behind(m)
          && (Clean(Taken(m), m.late) ==> Ahead(m))
          && (Clean(Taken(m), m.late) && Committed(m) ==> After(LastTaken(m), m.runner.action)))
  }

  // ---- lists ----

  lemma OrderedSnoc(s: seq<Action>, a: Action)
    requires Ordered(s) && (s != [] ==> Before(s[|s| - 1], a))
    ensures Ordered(s + [a])
  {
    forall i, j | 0 <= i < j < |s| + 1 ensures Before((s + [a])[i], (s + [a])[j]) {
      if j == |s| && i < |s| - 1 {
        assert Before(s[i], s[|s| - 1]);
      }
    }
  }

  lemma DisorderedSnoc(s: seq<Action>, a: Action)
    requires !Ordered(s) || exists x :: x in s && Before(a, x)
    ensures !Ordered(s + [a])
  {
    var t := s + [a];
    assert forall i | 0 <= i < |s| :: t[i] == s[i];
    if Ordered(s) {
      var x :| x in s && Before(a, x);
      var i :| 0 <= i < |s| && s[i] == x;
      assert !Before(t[i], t[|s|]);
    }
  }

  lemma CleanSnoc(s: seq<Action>, a: Action, late: set<nat>)
    ensures Clean(s + [a], late) <==> Clean(s, late) && a.seqNo !in late
  {
    assert forall x :: x in s + [a] <==> x in s || x == a;
  }

  lemma AgreeSnoc(s: seq<Action>, a: Action, late: set<nat>)
    requires Agree(s, late)
    requires Clean(s, late) && a.seqNo !in late ==> s != [] ==> Before(s[|s| - 1], a)
    requires a.seqNo in late ==> exists x :: x in s && Before(a, x)
    ensures Agree(s + [a], late)
  {
    CleanSnoc(s, a, late);
    if Clean(s, late) && a.seqNo !in late {
      OrderedSnoc(s, a);
    } else {
      DisorderedSnoc(s, a);
    }
  }

  // ---- the steps that matter ----

  /** What popNext hands to a runner that was waiting: the awaited static action, or the head of
      the queue, which then precedes everything that remains. */
  lemma PoppedAction(m: Machine)
    requires Shape(m.e) && Selected(m) && m.runner.Due? && DoPop(m).runner.Popped?
    ensures var p := DoPop(m).runner.action;
      && p in Remaining(m.e)
      && (Committed(m) ==> p == m.runner.action)
      && (!Committed(m) ==> forall x | x in Remaining(DoPop(m).e) :: Before(p, x))
  {
    var p, n := DoPop(m).runner.action, DoPop(m);
    PopTakesOne(m.e, m.runner.action.seqNo);
    if !Committed(m) {
      var rest := m.e.timeline[m.e.nextStatic..];
      DistinctSplit(rest, m.e.pending);
      assert m.runner.action.seqNo in Numbers(m.e.pending);
      if m.e.nextStatic < |m.e.timeline| {
        assert rest[0] in rest;
      }
      assert n.e.pending == m.e.pending[1..];
      SameNumberSameAction(m.e.pending, m.runner.action, p);
      forall x | x in Remaining(n.e) ensures Before(p, x) {
        if x in m.e.pending[1..] {
          assert Before(m.e.pending[0], x);
        } else {
          StaticHeadFirst(m.e, p, x);
        }
      }
    }
  }

  lemma SameNumberSameAction(s: seq<Action>, a: Action, b: Action)
    requires DistinctNumbers(s) && a in s && b in s && a.seqNo == b.seqNo
    ensures a == b
  {
  }

  lemma StaticHeadFirst(e: State, p: Action, x: Action)
    requires e.nextStatic <= |e.timeline| && Ordered(e.timeline) && x in e.timeline[e.nextStatic..]
    requires e.nextStatic < |e.timeline| ==> Before(p, e.timeline[e.nextStatic])
    ensures Before(p, x)
  {
    var i :| 0 <= i < |e.timeline| - e.nextStatic && e.timeline[e.nextStatic..][i] == x;
    if i > 0 {
      assert Before(e.timeline[e.nextStatic], e.timeline[e.nextStatic + i]);
    }
  }

  lemma PopAgrees(m: Machine)
    requires Shape(m.e) && Sequenced(m) && m.runner.Due? && DoPop(m).runner.Popped?
    ensures Agree(Taken(DoPop(m)), m.late)
  {
    var p := DoPop(m).runner.action;
    PoppedAction(m);
    FloorIs(m);
    if Committed(m) {
      assert p in m.e.timeline[m.e.nextStatic..];
    }
    if p.seqNo in m.late {
      assert Overtaken(m, p);
    }
    AgreeSnoc(m.executed, p, m.late);
  }

  lemma PopKeepsAhead(m: Machine)
    requires Shape(m.e) && Sequenced(m) && m.runner.Due? && DoPop(m).runner.Popped?
    requires Clean(Taken(m), m.late)
    ensures Ahead(DoPop(m))
  {
    var n := DoPop(m);
    PopTakesOne(m.e, m.runner.action.seqNo);
    PoppedAction(m);
    FloorIs(m);
    FloorIs(n);
  }

  lemma PopKeepsBehind(m: Machine)
    requires Shape(m.e) && Sequenced(m) && m.runner.Due?
    ensures Behind(DoPop(m))
  {
    var n := DoPop(m);
    if n.runner.Popped? {
      PopTakesOne(m.e, m.runner.action.seqNo);
      PoppedAction(m);
      var p := n.runner.action;
      assert p in Taken(n);
      forall a | a in Remaining(n.e) && a.seqNo in n.late ensures Overtaken(n, a) {
        assert Overtaken(m, a);
        if x :| x in Taken(m) && Before(a, x) {
          assert x in Taken(n);
        }
      }
    } else {
      assert Remaining(n.e) == Remaining(m.e);
      assert !Committed(m);
      forall a | a in Remaining(n.e) && a.seqNo in n.late ensures Overtaken(n, a) {
        assert Overtaken(m, a);
      }
    }
  }

  lemma PopKeepsCharged(m: Machine)
    requires Shape(m.e) && Sequenced(m) && m.runner.Due?
    ensures Charged(DoPop(m))
  {
    var n := DoPop(m);
    var rest := m.e.timeline[m.e.nextStatic..];
    if n.runner.Popped? {
      assert m.runner.action.seqNo in m.e.eventStates by {
        PopTakesOne(m.e, m.runner.action.seqNo);
      }
      NumbersConcat(m.executed, [n.runner.action]);
      assert n.e.nextStatic > m.e.nextStatic ==> n.e.timeline[n.e.nextStatic..] == rest[1..];
    }
  }

  lemma PopKeepsSequenced(m: Machine)
    requires Shape(m.e) && Sequenced(m) && m.runner.Due?
    ensures Sequenced(DoPop(m))
  {
    var n := DoPop(m);
    PopKeepsCharged(m);
    PopKeepsBehind(m);
    if n.runner.Popped? {
      PopAgrees(m);
      CleanSnoc(m.executed, n.runner.action, m.late);
      if Clean(Taken(n), n.late) {
        PopKeepsAhead(m);
      }
    } else {
      assert Remaining(n.e) == Remaining(m.e);
      assert !Committed(m);
      FloorIs(m);
      FloorIs(n);
    }
  }

  lemma PeekSelects(m: Machine)
    requires Shape(m.e) && m.runner.Idle? && DoPeek(m).runner.Waiting?
    ensures var n := DoPeek(m);
      && n.runner.action in Remaining(m.e) && Selected(n)
      && (Committed(n) ==> forall x | x in Remaining(m.e) :: x == n.runner.action || Before(n.runner.action, x))
      && (Committed(n) ==> n.runner.action in m.e.timeline[m.e.nextStatic..])
  {
    var n := DoPeek(m);
    var a := n.runner.action;
    var rest := m.e.timeline[m.e.nextStatic..];
    if Committed(n) {
      assert a == rest[0];
      forall x | x in Remaining(m.e) ensures x == a || Before(a, x) {
        if x in rest {
          var i :| 0 <= i < |rest| && rest[i] == x;
          assert i > 0 ==> Before(m.e.timeline[m.e.nextStatic], m.e.timeline[m.e.nextStatic + i]);
        } else {
          QueueBeyond(m.e, a, x);
        }
      }
    }
  }

  lemma QueueBeyond(e: State, a: Action, x: Action)
    requires Shape(e) && AwaitsStatic(e, a) && x in e.pending && !Before(e.pending[0], a)
    ensures Before(a, x)
  {
    var rest := e.timeline[e.nextStatic..];
    DistinctSplit(rest, e.pending);
    assert a == rest[0] && a.seqNo in Numbers(rest);
    assert e.pending[0].seqNo in Numbers(e.pending);
    assert Before(a, e.pending[0]);
  }

  lemma PeekKeepsSequenced(m: Machine)
    requires Shape(m.e) && Sequenced(m) && m.runner.Idle?
    ensures Sequenced(DoPeek(m))
  {
    PeekFrame(m);
    PeekTakesNothing(m);
    if DoPeek(m).runner.Waiting? {
      PeekSelects(m);
      PeekKeepsAhead(m);
      PeekKeepsBehind(m);
    }
  }

  lemma PeekTakesNothing(m: Machine)
    requires m.runner.Idle?
    ensures Taken(DoPeek(m)) == Taken(m) && DoPeek(m).executed == m.executed
    ensures !DoPeek(m).runner.Waiting? ==> Left(DoPeek(m).runner)
  {
  }

  lemma PeekKeepsBehind(m: Machine)
    requires m.e.nextStatic <= |m.e.timeline| && Behind(m) && m.runner.Idle?
    ensures DoPeek(m).e.nextStatic <= |m.e.timeline| && Behind(DoPeek(m))
  {
    var n := DoPeek(m);
    PeekFrame(m);
    PeekTakesNothing(m);
    assert Remaining(n.e) == Remaining(m.e);
    forall a | a in Remaining(n.e) && a.seqNo in n.late ensures Overtaken(n, a) {
      assert Overtaken(m, a);
    }
  }

  lemma PeekKeepsAhead(m: Machine)
    requires Shape(m.e) && Sequenced(m) && m.runner.Idle? && DoPeek(m).runner.Waiting?
    ensures var n := DoPeek(m);
      Clean(Taken(n), n.late) ==> Ahead(n) && (Committed(n) ==> After(LastTaken(n), n.runner.action))
  {
    var n := DoPeek(m);
    PeekSelects(m);
    assert Remaining(n.e) == Remaining(m.e);
    FloorIs(m);
    FloorIs(n);
    if Committed(n) {
      assert n.runner.action in Remaining(m.e);
    }
  }

  /** Steps that move no action and no floor. */
  lemma CarriedOver(m: Machine, n: Machine)
    requires Sequenced(m)
    requires Taken(n) == Taken(m) && (n.executed == m.executed || n.executed == Taken(m)) && n.late == m.late
    requires n.e.timeline == m.e.timeline && n.e.nextStatic == m.e.nextStatic && n.e.pending == m.e.pending
    requires n.e.eventStates.Keys == m.e.eventStates.Keys
    requires !Left(n.runner) ==> !Left(m.runner) && Selected(n)
    requires !Left(n.runner) ==> (Committed(n) <==> Committed(m))
    requires Committed(n) ==> n.runner.action == m.runner.action
    ensures Sequenced(n)
  {
    assert Remaining(n.e) == Remaining(m.e);
    FloorIs(m);
    FloorIs(n);
    if !Left(n.runner) {
      forall a | a in Remaining(n.e) && a.seqNo in n.late ensures Overtaken(n, a) {
        assert Overtaken(m, a);
      }
    }
  }

  /** No other section of the runner takes an action or chooses one to wait for. */
  lemma PassFrame(m: Machine, step: RunnerStep)
    requires RunnerEnabled(m, step) && !step.Peek? && !step.Pop?
    ensures var n := RunnerNext(m, step);
      && Taken(n) == Taken(m) && (n.executed == m.executed || n.executed == Taken(m))
      && (Left(m.runner) ==> Left(n.runner))
      && (Pacing(n.runner) ==> Pacing(m.runner) && n.runner.action == m.runner.action)
      && (Pacing(m.runner) ==> Pacing(n.runner) || Left(n.runner))
  {
    match step
    case Return(result) => ReturnTakesNothing(m, result);
    case _ =>
  }

  lemma ReturnTakesNothing(m: Machine, result: Result)
    requires m.runner.Acting?
    ensures DoReturn(m, result).executed == m.executed
  {
  }

  lemma PassKeepsSequenced(m: Machine, step: RunnerStep)
    requires Sequenced(m) && RunnerEnabled(m, step) && !step.Peek? && !step.Pop?
    ensures Sequenced(RunnerNext(m, step))
  {
    RunnerFrame(m, step);
    PassFrame(m, step);
    PassedSequenced(m, RunnerNext(m, step));
  }

  lemma PassedSequenced(m: Machine, n: Machine)
    requires Sequenced(m) && Framed(m, n)
    requires Taken(n) == Taken(m) && (n.executed == m.executed || n.executed == Taken(m))
    requires Left(m.runner) ==> Left(n.runner)
    requires Pacing(n.runner) ==> Pacing(m.runner) && n.runner.action == m.runner.action
    requires Pacing(m.runner) ==> Pacing(n.runner) || Left(n.runner)
    ensures Sequenced(n)
  {
    CarriedOver(m, n);
  }

  lemma WorldKeepsSequenced(m: Machine, step: WorldStep)
    requires Sequenced(m)
    ensures Sequenced(WorldNext(m, step))
  {
    CarriedOver(m, WorldNext(m, step));
  }

  // ---- injections ----

  lemma CommitCharges(m: Machine, i: nat)
    requires Formed(m) && Charged(m) && InjectionEnabled(m, Commit(i)) && AcceptsNow(m.e)
    ensures Charged(DoCommit(m, i))
    ensures forall a | a in Remaining(m.e) || a in Taken(m) :: a.seqNo in DoCommit(m, i).late <==> a.seqNo in m.late
    ensures forall a | a in m.injectors[i].actions :: a.seqNo in DoCommit(m, i).late <==> !Punctual(m, a)
  {
    var n, actions := DoCommit(m, i), m.injectors[i].actions;
    assert Unused(m.e, InFlight(m.injectors[i]));
    assert LateNumbers(m, actions) <= Numbers(actions);
    forall a | a in Remaining(m.e) || a in Taken(m) ensures a.seqNo !in LateNumbers(m, actions) {
      assert a.seqNo in Numbers(Remaining(m.e)) || a.seqNo in Numbers(Taken(m));
    }
    forall a | a in actions && a.seqNo in n.late ensures !Punctual(m, a) {
      assert a.seqNo in Numbers(actions);
      var b :| b in actions && !Punctual(m, b) && b.seqNo == a.seqNo;
      SameNumberSameAction(actions, a, b);
    }
    assert forall a | a in m.e.timeline[m.e.nextStatic..] :: a in Remaining(m.e);
  }

  /** An action that is not beyond the floor is behind it: their numbers differ. */
  lemma LateIsBehindFloor(m: Machine, a: Action)
    requires Shape(m.e) && Charged(m) && a.seqNo !in m.e.eventStates && !Punctual(m, a)
    ensures Floor(m).Some? && Before(a, Floor(m).value)
    ensures Overtaken(m, a)
  {
    FloorIs(m);
    var f := Floor(m).value;
    if Committed(m) {
      assert f == m.e.timeline[m.e.nextStatic..][0];
      assert f in Remaining(m.e) && f.seqNo in Numbers(Remaining(m.e));
    } else {
      assert f in Taken(m) && f.seqNo in Numbers(Taken(m));
    }
    assert Before(a, f);
  }

  lemma AgreeStill(actions: seq<Action>, late: set<nat>, later: set<nat>)
    requires Agree(actions, late)
    requires forall a | a in actions :: a.seqNo in later <==> a.seqNo in late
    ensures Agree(actions, later) && (Clean(actions, later) <==> Clean(actions, late))
  {
  }

  /** What an accepted commit means for order: the batch remains, nothing else moves, and exactly those of
      its actions that are not beyond the floor are late. */
  ghost predicate Adds(m: Machine, n: Machine, actions: seq<Action>)
  {
    && m.e.nextStatic <= |m.e.timeline|
    && n.e.nextStatic == m.e.nextStatic && n.e.timeline == m.e.timeline && n.runner == m.runner
    && n.executed == m.executed
    && (forall a :: a in Remaining(n.e) <==> a in Remaining(m.e) || a in actions)
    && (forall a | a in Remaining(m.e) :: a.seqNo in n.late <==> a.seqNo in m.late)
    && (forall a | a in actions :: a.seqNo in n.late <==> !Punctual(m, a))
    && (forall a | a in actions :: a.seqNo !in m.e.eventStates)
  }

  lemma CommitAdds(m: Machine, i: nat)
    requires Formed(m) && Charged(m) && InjectionEnabled(m, Commit(i)) && AcceptsNow(m.e)
    ensures Adds(m, DoCommit(m, i), m.injectors[i].actions)
  {
    assert Unused(m.e, InFlight(m.injectors[i]));
    CommitKeepsShape(m.e, m.injectors[i].actions);
    CommitCharges(m, i);
    assert forall a | a in m.injectors[i].actions :: a.seqNo in Numbers(m.injectors[i].actions);
  }

  lemma BehindStill(m: Machine, n: Machine, actions: seq<Action>)
    requires Shape(m.e) && Charged(m) && Behind(m) && Adds(m, n, actions)
    ensures Behind(n)
  {
    forall a | a in Remaining(n.e) && a.seqNo in n.late ensures Overtaken(n, a) {
      if a in actions {
        LateIsBehindFloor(m, a);
      }
      assert Overtaken(m, a);
    }
  }

  lemma AheadStill(m: Machine, n: Machine, actions: seq<Action>)
    requires Adds(m, n, actions) && Ahead(m)
    ensures Ahead(n)
  {
    FloorIs(m);
    FloorIs(n);
  }

  lemma CommitKeepsQueues(m: Machine, i: nat)
    requires Formed(m) && Sequenced(m) && !Left(m.runner) && InjectionEnabled(m, Commit(i)) && AcceptsNow(m.e)
    ensures var n := DoCommit(m, i);
      && n.e.nextStatic <= |n.e.timeline| && Behind(n) && (Clean(Taken(m), m.late) ==> Ahead(n))
  {
    var n, actions := DoCommit(m, i), m.injectors[i].actions;
    CommitAdds(m, i);
    BehindStill(m, n, actions);
    if Clean(Taken(m), m.late) {
      AheadStill(m, n, actions);
    }
  }

  lemma CommitKeepsSequenced(m: Machine, i: nat)
    requires Formed(m) && Sequenced(m) && InjectionEnabled(m, Commit(i))
    ensures Sequenced(DoCommit(m, i))
  {
    var n := DoCommit(m, i);
    assert Unused(m.e, InFlight(m.injectors[i]));
    if AcceptsNow(m.e) {
      CommitCharges(m, i);
      assert Taken(n) == Taken(m);
      assert forall a | a in m.executed :: a in Taken(m);
      AgreeStill(m.executed, m.late, n.late);
      AgreeStill(Taken(m), m.late, n.late);
      if !Left(m.runner) {
        CommitKeepsQueues(m, i);
        CommitKeepsSelected(m, i);
      }
    } else {
      KeysGrow(m, n);
    }
  }

  lemma CommitKeepsSelected(m: Machine, i: nat)
    requires Selected(m) && InjectionEnabled(m, Commit(i)) && AcceptsNow(m.e)
    ensures Selected(DoCommit(m, i))
    ensures Committed(DoCommit(m, i)) <==> Committed(m)
  {
  }

  /** New events for actions nobody will take change nothing about the order. */
  lemma KeysGrow(m: Machine, n: Machine)
    requires Sequenced(m) && n.runner == m.runner && n.executed == m.executed && n.late == m.late
    requires n.e.timeline == m.e.timeline && n.e.nextStatic == m.e.nextStatic && n.e.pending == m.e.pending
    requires m.e.eventStates.Keys <= n.e.eventStates.Keys
    ensures Sequenced(n)
  {
    assert Remaining(n.e) == Remaining(m.e);
    FloorIs(m);
    FloorIs(n);
    if !Left(n.runner) {
      forall a | a in Remaining(n.e) && a.seqNo in n.late ensures Overtaken(n, a) {
        assert Overtaken(m, a);
      }
    }
  }

  lemma RunnerKeepsSequenced(m: Machine, step: RunnerStep)
    requires Shape(m.e) && Sequenced(m) && RunnerEnabled(m, step)
    ensures Sequenced(RunnerNext(m, step))
  {
    if step.Peek? {
      PeekKeepsSequenced(m);
    } else if step.Pop? {
      PopKeepsSequenced(m);
    } else {
      PassKeepsSequenced(m, step);
    }
  }

  lemma QuietInjectionFrame(m: Machine, step: InjectionStep)
    requires InjectionEnabled(m, step) && !step.Commit?
    ensures var n := InjectionNext(m, step);
      && n.runner == m.runner && n.executed == m.executed && n.late == m.late
      && n.e.timeline == m.e.timeline && n.e.nextStatic == m.e.nextStatic && n.e.pending == m.e.pending
      && m.e.eventStates.Keys <= n.e.eventStates.Keys
  {
  }

  lemma InjectionKeepsSequenced(m: Machine, step: InjectionStep)
    requires Formed(m) && Sequenced(m) && InjectionEnabled(m, step)
    ensures Sequenced(InjectionNext(m, step))
  {
    if step.Commit? {
      CommitKeepsSequenced(m, step.i);
    } else {
      QuietInjectionFrame(m, step);
      KeysGrow(m, InjectionNext(m, step));
    }
  }

  lemma StepKeepsSequenced(m: Machine, step: Step)
    requires Formed(m) && Sequenced(m) && Enabled(m, step)
    ensures Sequenced(Next(m, step))
  {
    match step
    case World(w) => WorldKeepsSequenced(m, w);
    case Advance(r) => RunnerKeepsSequenced(m, r);
    case Injecting(x) => InjectionKeepsSequenced(m, x);
  }

  lemma InitiallySequenced(m: Machine)
    requires Initial(m)
    ensures Sequenced(m)
  {
  }

  lemma {:induction false} RunKeepsSequenced(m: Machine, steps: seq<Step>, end: Machine)
    requires Formed(m) && Sequenced(m) && Run(m, steps, end)
    ensures Sequenced(end)
    decreases |steps|
  {
    if steps != [] {
      StepKeepsFormed(m, steps[0]);
      StepKeepsSequenced(m, steps[0]);
      RunKeepsSequenced(Next(m, steps[0]), steps[1..], end);
    }
  }

  /** A run has executed its actions in strictly increasing (AtMs, Seq) order if and only if each of
      them was committed beyond the point the runner had reached at that moment. */
  lemma OrderedExactlyWhenPunctual(start: Machine, steps: seq<Step>, m: Machine)
    requires Reaches(start, steps, m)
    ensures Ordered(m.executed) <==> forall a | a in m.executed :: a.seqNo !in m.late
  {
    InitiallyFormed(start);
    InitiallySequenced(start);
    RunKeepsSequenced(start, steps, m);
  }
}
