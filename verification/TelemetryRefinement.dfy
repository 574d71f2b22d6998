/** Every handler of every interleaving is an execution of the ingest method: what the other handlers did
    meanwhile is a schedule under which the method makes the same calls. */
module TelemetryRefinement {
  import opened Telemetry
  import R = TelemetryResults
  import opened TelemetryService

  /** The statement a call sends, if it writes at all. */
  function Sent(h: Handler, reply: Reply): seq<Statement>
    requires !h.call.Ended?
  {
    if reply.Refused? then []
    else
      match h.call
      case Creating => [Inserting(h.sample.message)]
      case Ensuring(_, _) => [Statement.Ensuring(h.sample.asset)]
      case Loading(_, _) => []
      case Applying(_, _, seen) =>
        [Statement.Applying(h.sample, Update(h.sample, seen), seen.lastSeen, Announcement(h.sample, seen),
                            !reply.Fine?)]
  }

  lemma {:induction false} StepIsItsStatement(s: Store, h: Handler, reply: Reply)
    requires !h.call.Ended?
    ensures Step(s, h, reply).0 == PerformAll(s, Sent(h, reply))
  {
    var xs := Sent(h, reply);
    assert xs != [] ==> xs[..|xs| - 1] == [];
  }

  lemma {:induction false} PerformInTurn(s: Store, xs: seq<Statement>, ys: seq<Statement>)
    ensures PerformAll(s, xs + ys) == PerformAll(PerformAll(s, xs), ys)
    decreases |ys|
  {
    if ys == [] {
      assert xs + ys == xs;
    } else {
      PerformInTurn(s, xs, ys[..|ys| - 1]);
      assert (xs + ys)[..|xs + ys| - 1] == xs + ys[..|ys| - 1];
    }
  }

  function Scheduled(turns: seq<Turn>): Schedule
  {
    (k: nat) => if k < |turns| then turns[k] else Turn([], Fine)
  }

  lemma {:induction false} SamePrefix(s: Store, h: Handler, turns: seq<Turn>, more: seq<Turn>, n: nat)
    requires n <= |turns| && turns <= more
    ensures Played(s, h, Scheduled(turns), n) == Played(s, h, Scheduled(more), n)
  {
    if n > 0 {
      SamePrefix(s, h, turns, more, n - 1);
    }
  }

  /** From `start` on, these turns and then these statements lead one handler to where it is now. */
  ghost predicate Explains(start: R.World, i: nat, turns: seq<Turn>, tail: seq<Statement>, w: R.World)
  {
    && i < |start.handlers| && i < |w.handlers|
    && var (store, h) := Played(start.store, start.handlers[i], Scheduled(turns), |turns|);
    w.store == PerformAll(store, tail) && w.handlers[i] == h
  }

  lemma OwnMoveIsATurn(start: R.World, i: nat, turns: seq<Turn>, tail: seq<Statement>, w: R.World, reply: Reply)
    requires Explains(start, i, turns, tail, w) && R.Enabled(w, R.Move(i, reply))
    ensures Explains(start, i, turns + [Turn(tail, reply)], [], R.Next(w, R.Move(i, reply)))
  {
    SamePrefix(start.store, start.handlers[i], turns, turns + [Turn(tail, reply)], |turns|);
  }

  lemma {:induction false} RunExplained(start: R.World, i: nat, turns: seq<Turn>, tail: seq<Statement>, w: R.World,
                                        steps: seq<R.Turn>, end: R.World)
      returns (allTurns: seq<Turn>, rest: seq<Statement>)
    requires Explains(start, i, turns, tail, w) && R.Run(w, steps, end)
    ensures Explains(start, i, allTurns, rest, end)
    decreases |steps|
  {
    if steps == [] {
      return turns, tail;
    }
    var n := R.Next(w, steps[0]);
    if steps[0].Move? && steps[0].i == i {
      OwnMoveIsATurn(start, i, turns, tail, w, steps[0].reply);
      allTurns, rest := RunExplained(start, i, turns + [Turn(tail, steps[0].reply)], [], n, steps[1..], end);
    } else {
      var xs := if steps[0].Move? then Sent(w.handlers[steps[0].i], steps[0].reply) else [];
      if steps[0].Move? {
        StepIsItsStatement(w.store, w.handlers[steps[0].i], steps[0].reply);
      }
      PerformInTurn(Played(start.store, start.handlers[i], Scheduled(turns), |turns|).0, tail, xs);
      allTurns, rest := RunExplained(start, i, turns, tail + xs, n, steps[1..], end);
    }
  }

  /** Whatever happens in a world, each handler has behaved as the method does under some schedule. */
  lemma {:induction false} HandlersRunTheMethod(w: R.World, steps: seq<R.Turn>, end: R.World, i: nat)
    requires R.Run(w, steps, end) && i < |w.handlers|
    ensures exists turns: seq<Turn>, rest: seq<Statement> :: Explains(w, i, turns, rest, end)
  {
    assert Explains(w, i, [], [], w);
    var turns, rest := RunExplained(w, i, [], [], w, steps, end);
  }
}
