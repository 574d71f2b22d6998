/** What becomes of a transition that is asked for: it is committed and stamped with the time of its write, or
    declined because the table forbids it or another one came first. */
module CommandProgress {
  import opened Options
  import opened CommandLifecycle

  // ---- declined for a reason ----

  /** The state was committed at a place of the path, and the table forbids the move from it or the command
      has moved on since. */
  predicate PassedOver(path: seq<State>, k: int, found: State, to: State)
  {
    0 <= k < |path| && path[k] == found && (!CanTransition(found, to) || k + 1 < |path|)
  }

  ghost predicate Reasoned(s: Store, h: Handler)
  {
    match h.call
    case Writing(from, _, _) => h.id in s && from in s[h.id].path
    case Declined(to, Some(found)) => h.id in s && exists k :: PassedOver(s[h.id].path, k, found, to)
    case _ => true
  }

  lemma ReasonedStays(s: Store, n: Store, h: Handler)
    requires Reasoned(s, h) && (h.id in s ==> h.id in n && s[h.id].path <= n[h.id].path)
    ensures Reasoned(n, h)
  {
    match h.call
    case Declined(to, Some(found)) =>
      var k :| PassedOver(s[h.id].path, k, found, to);
      assert PassedOver(n[h.id].path, k, found, to);
    case _ =>
  }

  lemma ReadIsReasoned(s: Store, h: Handler, reply: Reply)
    requires h.call.Reading? && (h.id in s ==> PathOk(s[h.id]))
    ensures Reasoned(s, h.(call := AfterRead(s, h, reply)))
  {
    if h.id in s {
      var path := s[h.id].path;
      assert !CanTransition(path[|path| - 1], h.call.to) ==>
        PassedOver(path, |path| - 1, path[|path| - 1], h.call.to);
    }
  }

  lemma WriteIsReasoned(w: World, i: nat, reply: Reply, now: int)
    requires WorldOk(w) && i < |w.handlers| && w.handlers[i].call.Writing? && Reasoned(w.store, w.handlers[i])
    ensures Reasoned(DoWrite(w, i, reply, now).store, DoWrite(w, i, reply, now).handlers[i])
  {
    var h := w.handlers[i];
    var path := w.store[h.id].path;
    assert CommandOk(w.store[h.id]);
    var k :| 0 <= k < |path| && path[k] == h.call.from;
    if w.store[h.id].state != h.call.from {
      assert PassedOver(path, k, h.call.from, h.call.to);
    }
  }

  ghost predicate AllReasoned(w: World)
  {
    forall i {:trigger Reasoned(w.store, w.handlers[i])} | 0 <= i < |w.handlers| :: Reasoned(w.store, w.handlers[i])
  }

  /** Rows stay, and their paths only grow. */
  lemma PathsGrow(w: World, step: Step)
    requires WorldOk(w) && Enabled(w, step)
    ensures forall id | id in w.store :: id in Next(w, step).store && w.store[id].path <= Next(w, step).store[id].path
  {
  }

  lemma StepKeepsReasoned(w: World, step: Step)
    requires WorldOk(w) && AllReasoned(w) && Enabled(w, step)
    ensures AllReasoned(Next(w, step))
  {
    var n := Next(w, step);
    PathsGrow(w, step);
    forall j | 0 <= j < |n.handlers| ensures Reasoned(n.store, n.handlers[j]) {
      if j < |w.handlers| {
        assert Reasoned(w.store, w.handlers[j]);
        if step.Read? && step.i == j {
          assert w.handlers[j].id in w.store ==> CommandOk(w.store[w.handlers[j].id]);
          ReadIsReasoned(w.store, w.handlers[j], step.reply);
        } else if step.Write? && step.i == j {
          WriteIsReasoned(w, j, step.reply, step.now);
        } else {
          ReasonedStays(w.store, n.store, w.handlers[j]);
        }
      }
    }
  }

  lemma {:induction false} RunKeepsReasoned(w: World, steps: seq<Step>, end: World)
    requires WorldOk(w) && AllReasoned(w) && Run(w, steps, end)
    ensures WorldOk(end) && AllReasoned(end)
    decreases |steps|
  {
    if steps != [] {
      StepKeepsWorld(w, steps[0]);
      StepKeepsReasoned(w, steps[0]);
      RunKeepsReasoned(Next(w, steps[0]), steps[1..], end);
    }
  }

  predicate Smooth(step: Step)
  {
    match step
    case Read(_, reply) => reply.Fine?
    case Write(_, reply, _) => reply.Fine?
    case _ => true
  }

  /** A call on a known command, which has read it unless it is about to. */
  predicate Knows(w: World, i: nat, id: CommandId)
  {
    && i < |w.handlers| && w.handlers[i].id == id && id in w.store
    && (w.handlers[i].call.Declined? ==> w.handlers[i].call.found.Some?)
  }

  lemma SmoothStepKnows(w: World, step: Step, i: nat, id: CommandId)
    requires WorldOk(w) && Knows(w, i, id) && Enabled(w, step) && Smooth(step)
    ensures Knows(Next(w, step), i, id)
  {
    PathsGrow(w, step);
  }

  lemma {:induction false} SmoothRunKnows(w: World, steps: seq<Step>, end: World, i: nat, id: CommandId)
    requires WorldOk(w) && Knows(w, i, id) && Run(w, steps, end) && forall step | step in steps :: Smooth(step)
    ensures Knows(end, i, id)
    decreases |steps|
  {
    if steps != [] {
      StepKeepsWorld(w, steps[0]);
      SmoothStepKnows(w, steps[0], i, id);
      SmoothRunKnows(Next(w, steps[0]), steps[1..], end, i, id);
    }
  }

  /** When no repository call fails, a transition asked for on a known command ends committed, or declined
      because the table forbids it from the state that was read, or because the command has left that
      state since. */
  lemma {:induction false} DeclinedForAReason(before: seq<Step>, w: World, i: nat, after: seq<Step>, end: World)
    requires Run(EMPTY, before, w) && i < |w.handlers| && w.handlers[i].call.Reading? && w.handlers[i].id in w.store
    requires Run(w, after, end) && forall step | step in after :: Smooth(step)
    ensures i < |end.handlers| && end.handlers[i].id in end.store
    ensures end.handlers[i].call.Declined? ==>
      && end.handlers[i].call.found.Some?
      && exists k :: PassedOver(end.store[end.handlers[i].id].path, k, end.handlers[i].call.found.value,
                                end.handlers[i].call.to)
  {
    RunKeepsReasoned(EMPTY, before, w);
    RunKeepsReasoned(w, after, end);
    SmoothRunKnows(w, after, end, i, w.handlers[i].id);
    assert Reasoned(end.store, end.handlers[i]);
  }

  // ---- stamped with the time of the write ----

  /** A stamp that is set stays as it is. */
  predicate StampsStay(c: Command, n: Command)
  {
    && (c.acknowledgedAt.Some? ==> n.acknowledgedAt == c.acknowledgedAt)
    && (c.completedAt.Some? ==> n.completedAt == c.completedAt)
  }

  lemma {:induction false} RunKeepsStamps(w: World, steps: seq<Step>, end: World, id: CommandId)
    requires WorldOk(w) && id in w.store && Run(w, steps, end)
    ensures id in end.store && StampsStay(w.store[id], end.store[id])
    decreases |steps|
  {
    if steps != [] {
      StepKeepsWorld(w, steps[0]);
      StepKeepsStamps(w, steps[0], id);
      RunKeepsStamps(Next(w, steps[0]), steps[1..], end, id);
    }
  }

  lemma StepKeepsStamps(w: World, step: Step, id: CommandId)
    requires WorldOk(w) && id in w.store && Enabled(w, step)
    ensures id in Next(w, step).store && StampsStay(w.store[id], Next(w, step).store[id])
  {
  }

  /** The time a command was acknowledged, or completed, is that of the write that took it there, for good. */
  lemma {:induction false} StampedWhenReached(before: seq<Step>, w: World, i: nat, reply: Reply, now: int,
                                              after: seq<Step>, end: World)
    requires Run(EMPTY, before, w) && Enabled(w, Write(i, reply, now))
    requires Next(w, Write(i, reply, now)).handlers[i].call.Committed?
    requires Run(Next(w, Write(i, reply, now)), after, end)
    ensures var id, to := w.handlers[i].id, w.handlers[i].call.to;
      && id in end.store
      && (to == Acknowledged ==> end.store[id].acknowledgedAt == Some(now))
      && (to == Completed ==> end.store[id].completedAt == Some(now))
  {
    RunKeepsWorld(EMPTY, before, w);
    var n, h := Next(w, Write(i, reply, now)), w.handlers[i];
    StepKeepsWorld(w, Write(i, reply, now));
    WriteStamps(w, i, reply, now);
    RunKeepsStamps(n, after, end, h.id);
  }

  lemma WriteStamps(w: World, i: nat, reply: Reply, now: int)
    requires WorldOk(w) && Enabled(w, Write(i, reply, now)) && DoWrite(w, i, reply, now).handlers[i].call.Committed?
    ensures var n, id, to := DoWrite(w, i, reply, now), w.handlers[i].id, w.handlers[i].call.to;
      && id in n.store
      && (to == Acknowledged ==> n.store[id].acknowledgedAt == Some(now))
      && (to == Completed ==> n.store[id].completedAt == Some(now))
  {
    var c, to := w.store[w.handlers[i].id], w.handlers[i].call.to;
    assert HandlerOk(w.store, w.handlers[i]) && CommandOk(c);
    NotYetReached(c, to);
  }

  lemma NotYetReached(c: Command, to: State)
    requires PathOk(c) && CanTransition(c.state, to)
    ensures to !in c.path
  {
    forall k | 0 <= k < |c.path| ensures c.path[k] != to {
      TableClimbs(c.state, to);
      if k < |c.path| - 1 {
        RanksClimb(c, k, |c.path| - 1);
      }
    }
  }
}
