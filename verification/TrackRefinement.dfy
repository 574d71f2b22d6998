/** Every handler of every world is an execution of the handler method: what the other handlers did
    meanwhile is a schedule of statements under which the method makes the same calls. */
module TrackRefinement {
  import opened TrackStore
  import opened TrackHandler
  import opened TrackMachine
  import opened TrackService

  /** The statement a call sends, if it writes at all. */
  function Sent(s: Store, h: Handler, reply: Reply, id: TrackId): seq<Statement>
    requires Ready(s, h)
  {
    var u := s.observations[h.o];
    if reply.Refused? then []
    else
      match h.call
      case Insert => [Creating(id, u.hint, h.o, u.at)]
      case Link(t, _) => [Attaching(t, h.o)]
      case Try(t, looks) =>
        [Applying(t, h.o, u.at, u.position, looks[|looks| - 1].lastSeen, Derive(looks[|looks| - 1], u))]
      case Mark(_) => [Marking(h.o)]
      case _ => []
  }

  lemma {:induction false} PerformOne(s: Store, x: Statement)
    ensures PerformAll(s, [x]) == Perform(s, x)
  {
    assert [x][..0] == [];
  }

  /** A step changes the tables by the one statement it sends, or not at all. */
  lemma {:induction false} StepIsItsStatement(s: Store, h: Handler, reply: Reply, id: TrackId)
    requires Ready(s, h)
    ensures TrackHandler.Step(s, h, reply, id).0 == PerformAll(s, Sent(s, h, reply, id))
  {
    if Sent(s, h, reply, id) != [] {
      PerformOne(s, Sent(s, h, reply, id)[0]);
    }
  }

  lemma {:induction false} PerformInTurn(s: Store, xs: seq<Statement>, ys: seq<Statement>)
    ensures PerformAll(s, xs + ys) == PerformAll(PerformAll(s, xs), ys)
    decreases |ys|
  {
    if ys == [] {
      assert xs + ys == xs;
    } else {
      PerformInTurn(s, xs, ys[..|ys| - 1]);
      assert (xs + ys)[..|xs + ys| - 1] == xs + ys[..|ys| - 1];
    }
  }

  function Scheduled(turns: seq<Turn>): Schedule
  {
    (k: nat) => if k < |turns| then turns[k] else Turn([], Fine, "")
  }

  lemma {:induction false} SamePrefix(s: Store, h: Handler, turns: seq<Turn>, more: seq<Turn>, n: nat)
    requires n <= |turns| && turns <= more
    ensures Played(s, h, Scheduled(turns), n) == Played(s, h, Scheduled(more), n)
  {
    if n > 0 {
      SamePrefix(s, h, turns, more, n - 1);
    }
  }

  /** From `start` on, these turns and then these statements lead one handler to where it is now. */
  ghost predicate Explains(start: World, i: nat, turns: seq<Turn>, tail: seq<Statement>, w: World)
  {
    && i < |start.handlers| && i < |w.handlers|
    && var (store, h) := Played(start.store, start.handlers[i], Scheduled(turns), |turns|);
    w.store == PerformAll(store, tail) && w.handlers[i] == h
  }

  lemma {:induction false} OthersExtendTheTail(start: World, i: nat, turns: seq<Turn>, tail: seq<Statement>, w: World,
                                               xs: seq<Statement>, n: World)
    requires Explains(start, i, turns, tail, w) && i < |n.handlers|
    requires n.store == PerformAll(w.store, xs) && n.handlers[i] == w.handlers[i]
    ensures Explains(start, i, turns, tail + xs, n)
  {
    PerformInTurn(Played(start.store, start.handlers[i], Scheduled(turns), |turns|).0, tail, xs);
  }

  lemma OwnMoveIsATurn(start: World, i: nat, turns: seq<Turn>, tail: seq<Statement>, w: World,
                       reply: Reply, id: TrackId)
    requires Explains(start, i, turns, tail, w) && Ready(w.store, w.handlers[i])
    ensures Explains(start, i, turns + [Turn(tail, reply, id)], [], DoMove(w, i, reply, id))
  {
    var more := turns + [Turn(tail, reply, id)];
    SamePrefix(start.store, start.handlers[i], turns, more, |turns|);
  }

  lemma IngestIsAStatement(w: World, o: ObservationId, u: Observation, reply: Reply) returns (xs: seq<Statement>)
    ensures DoIngest(w, o, u, reply).store == PerformAll(w.store, xs)
  {
    if reply.Refused? || o in w.store.observations {
      xs := [];
    } else {
      xs := [Inserting(o, u)];
      PerformOne(w.store, xs[0]);
    }
  }

  lemma {:induction false} RunExplained(start: World, i: nat, turns: seq<Turn>, tail: seq<Statement>, w: World,
                                        steps: seq<TrackMachine.Step>, end: World)
      returns (allTurns: seq<Turn>, rest: seq<Statement>)
    requires Explains(start, i, turns, tail, w) && Run(w, steps, end)
    ensures Explains(start, i, allTurns, rest, end)
    decreases |steps|
  {
    if steps == [] {
      return turns, tail;
    }
    var n := Next(w, steps[0]);
    match steps[0]
    case Ingest(o, u, reply) =>
      var xs := IngestIsAStatement(w, o, u, reply);
      OthersExtendTheTail(start, i, turns, tail, w, xs, n);
      allTurns, rest := RunExplained(start, i, turns, tail + xs, n, steps[1..], end);
    case Move(j, reply, id) =>
      if j == i {
        OwnMoveIsATurn(start, i, turns, tail, w, reply, id);
        allTurns, rest := RunExplained(start, i, turns + [Turn(tail, reply, id)], [], n, steps[1..], end);
      } else {
        var xs := Sent(w.store, w.handlers[j], reply, id);
        StepIsItsStatement(w.store, w.handlers[j], reply, id);
        OthersExtendTheTail(start, i, turns, tail, w, xs, n);
        allTurns, rest := RunExplained(start, i, turns, tail + xs, n, steps[1..], end);
      }
  }

  /** Whatever happens in a world, each handler has behaved as the method does under some schedule. */
  lemma {:induction false} HandlersRunTheMethod(w: World, steps: seq<TrackMachine.Step>, end: World, i: nat)
    requires Run(w, steps, end) && i < |w.handlers|
    ensures exists turns: seq<Turn>, rest: seq<Statement> :: Explains(w, i, turns, rest, end)
  {
    assert Explains(w, i, [], [], w);
    var turns, rest := RunExplained(w, i, [], [], w, steps, end);
  }
}
