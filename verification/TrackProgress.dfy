/** What becomes of observations when nothing fails: no handler breaks, and what is projected is marked
    processed. */
module TrackProgress {
  import opened TrackStore
  import opened TrackHandler
  import opened TrackMachine
  import opened TrackSafety
  import opened TrackResults

  // ---- processed ----

  ghost predicate AllProcessed(s: Store)
  {
    forall t, c | t in s.tracks && c in s.tracks[t].commits :: c.observation in s.processed
  }

  lemma CallKeepsProcessed(s: Store, h: Handler, reply: Reply, id: TrackId)
    requires AllProcessed(s) && Ready(s, h)
    ensures AllProcessed(TrackHandler.Step(s, h, reply, id).0)
  {
    var n := TrackHandler.Step(s, h, reply, id).0;
    if h.call.Try? && !reply.Refused? {
      TryKeepsProcessed(s, h, reply);
    } else {
      OthersCommitNothing(s, h, reply, id);
      forall t, c | t in n.tracks && c in n.tracks[t].commits ensures c.observation in n.processed {
        assert t in s.tracks && c in s.tracks[t].commits;
      }
    }
  }

  lemma TryKeepsProcessed(s: Store, h: Handler, reply: Reply)
    requires AllProcessed(s) && h.call.Try? && h.call.looks != [] && h.o in s.observations
    ensures AllProcessed(DoTry(s, h, s.observations[h.o], reply).0)
  {
    var n := DoTry(s, h, s.observations[h.o], reply).0;
    forall t, c | t in n.tracks && c in n.tracks[t].commits ensures c.observation in n.processed {
      assert c.observation == h.o || c in s.tracks[t].commits;
    }
  }

  lemma OthersCommitNothing(s: Store, h: Handler, reply: Reply, id: TrackId)
    requires Ready(s, h) && (reply.Refused? || !h.call.Try?)
    ensures var n := TrackHandler.Step(s, h, reply, id).0;
      && s.processed <= n.processed
      && forall t | t in n.tracks :: n.tracks[t].commits == if t in s.tracks then s.tracks[t].commits else []
  {
  }

  /** What the retry of a stored observation goes by: an observation that has been projected is marked. */
  lemma {:induction false} ProjectedIsProcessed(steps: seq<Step>, w: World, t: TrackId, c: Commit)
    requires Run(EMPTY, steps, w) && t in w.store.tracks && c in w.store.tracks[t].commits
    ensures c.observation in w.store.processed
  {
    RunKeepsProcessed(EMPTY, steps, w);
  }

  lemma {:induction false} RunKeepsProcessed(w: World, steps: seq<Step>, end: World)
    requires AllProcessed(w.store) && Run(w, steps, end)
    ensures AllProcessed(end.store)
    decreases |steps|
  {
    if steps != [] {
      if steps[0].Move? {
        CallKeepsProcessed(w.store, w.handlers[steps[0].i], steps[0].reply, steps[0].id);
      }
      RunKeepsProcessed(Next(w, steps[0]), steps[1..], end);
    }
  }

  // ---- nothing breaks by itself ----

  /** Every call succeeds, and an insert finds its identifier unused. */
  predicate Smooth(w: World, step: Step)
  {
    match step
    case Ingest(_, _, reply) => reply.Fine?
    case Move(_, reply, id) => reply.Fine? && id !in w.store.tracks
  }

  predicate SmoothRun(w: World, steps: seq<Step>, end: World)
    decreases |steps|
  {
    if steps == [] then w == end
    else Enabled(w, steps[0]) && Smooth(w, steps[0]) && SmoothRun(Next(w, steps[0]), steps[1..], end)
  }

  /** What a handler looks for is there. */
  predicate Unbroken(s: Store, h: Handler)
  {
    match h.call
    case SeekWinner(refTaken) =>
      if refTaken then HintTaken(s, h.o) else FindByObservation(s, h.o).Some?
    case SeekRefWinner => HintTaken(s, h.o)
    case Mark(outcome) => !outcome.Broken? && (outcome.Ceded? ==> !h.retry) && h.o in s.attached
    case Ended(outcome) =>
      !outcome.Broken? && (outcome.Ceded? ==> !h.retry) && (outcome.Ceded? || h.o in s.processed)
    case _ => true
  }

  predicate HintTaken(s: Store, o: ObservationId)
  {
    o in s.observations && s.observations[o].hint != "" && FindByExternalRef(s, s.observations[o].hint).Some?
  }

  lemma UnbrokenStays(s: Store, n: Store, h: Handler)
    requires Grows(s, n) && Unbroken(s, h)
    ensures Unbroken(n, h)
  {
  }

  lemma FailedInsertFinds(s: Store, o: ObservationId, id: TrackId)
    requires StoreOk(s) && o in s.observations && id !in s.tracks
    ensures var how := Create(s, id, s.observations[o].hint, o, s.observations[o].at).1;
      && (how.RefTaken? ==> HintTaken(s, o))
      && (how.Rejected? ==> FindByObservation(s, o).Some?)
  {
  }

  lemma CallIsUnbroken(s: Store, h: Handler, id: TrackId)
    requires StoreOk(s) && HandlerOk(s, h) && Unbroken(s, h) && Ready(s, h) && id !in s.tracks
    ensures var (n, call) := TrackHandler.Step(s, h, Fine, id); Unbroken(n, h.(call := call))
  {
    if Looking(h.call) {
      LookIsUnbroken(s, h, id);
    } else {
      match h.call
      case Insert => FailedInsertFinds(s, h.o, id);
      case Link(_, _) => LinkIsUnbroken(s, h);
      case SeekOwner => OwnerIsUnbroken(s, h);
      case Try(_, _) => TryIsUnbroken(s, h);
      case Reload(_, _) => ReloadIsUnbroken(s, h);
      case Mark(_) =>
    }
  }

  lemma LookIsUnbroken(s: Store, h: Handler, id: TrackId)
    requires Unbroken(s, h) && Ready(s, h) && Looking(h.call)
    ensures var (n, call) := TrackHandler.Step(s, h, Fine, id); Unbroken(n, h.(call := call))
  {
  }

  lemma LinkIsUnbroken(s: Store, h: Handler)
    requires h.o in s.observations && h.call.Link?
    ensures var (n, call) := DoLink(s, h, s.observations[h.o], Fine); Unbroken(n, h.(call := call))
  {
  }

  lemma OwnerIsUnbroken(s: Store, h: Handler)
    requires StoreOk(s) && HandlerOk(s, h) && h.call.SeekOwner?
    ensures var found := FindByObservation(s, h.o);
      && found.Some?
      && Unbroken(s, h.(call := Head(s.observations[h.o], found.value, [Read(s.tracks[found.value])])))
  {
    OwnerOk(s, h);
  }

  lemma TryIsUnbroken(s: Store, h: Handler)
    requires HandlerOk(s, h) && h.call.Try?
    ensures var (n, call) := DoTry(s, h, s.observations[h.o], Fine); Unbroken(n, h.(call := call))
  {
  }

  lemma ReloadIsUnbroken(s: Store, h: Handler)
    requires HandlerOk(s, h) && h.call.Reload?
    ensures Unbroken(s, h.(call := DoReload(s, h, s.observations[h.o])))
  {
  }

  ghost predicate AllUnbroken(w: World)
  {
    forall i {:trigger Unbroken(w.store, w.handlers[i])} | 0 <= i < |w.handlers| :: Unbroken(w.store, w.handlers[i])
  }

  lemma SmoothStep(w: World, step: Step)
    requires WorldOk(w) && AllUnbroken(w) && Enabled(w, step) && Smooth(w, step)
    ensures AllUnbroken(Next(w, step))
  {
    var n := Next(w, step);
    StepKeepsWorld(w, step);
    if step.Move? {
      assert HandlerOk(w.store, w.handlers[step.i]) && Unbroken(w.store, w.handlers[step.i]);
      CallIsUnbroken(w.store, w.handlers[step.i], step.id);
    }
    forall j | 0 <= j < |n.handlers| ensures Unbroken(n.store, n.handlers[j]) {
      if j < |w.handlers| && (step.Ingest? || j != step.i) {
        UnbrokenStays(w.store, n.store, w.handlers[j]);
      }
    }
  }

  lemma {:induction false} SmoothRunBreaksNothing(w: World, steps: seq<Step>, end: World)
    requires WorldOk(w) && AllUnbroken(w) && SmoothRun(w, steps, end)
    ensures AllUnbroken(end) && Run(w, steps, end)
    decreases |steps|
  {
    if steps != [] {
      StepKeepsWorld(w, steps[0]);
      SmoothStep(w, steps[0]);
      SmoothRunBreaksNothing(Next(w, steps[0]), steps[1..], end);
    }
  }

  /** When no call fails, no handler ends in error, whatever races with it. Each one projects its observation,
      is passed over or gives up, and marks it processed; only a first delivery leaves it to another handler,
      which carries it on. */
  lemma {:induction false} NothingBreaksByItself(steps: seq<Step>, w: World, i: nat)
    requires SmoothRun(EMPTY, steps, w) && i < |w.handlers| && w.handlers[i].call.Ended?
    ensures var outcome := w.handlers[i].call.outcome;
      && !outcome.Broken?
      && (outcome.Ceded? ==> !w.handlers[i].retry)
      && (!outcome.Ceded? ==> w.handlers[i].o in w.store.processed)
      && (outcome.Ceded? ==>
            exists j :: 0 <= j < |w.handlers| && w.handlers[j].o == w.handlers[i].o && Carrying(w.handlers[j]))
  {
    EmptyIsOk();
    SmoothRunBreaksNothing(EMPTY, steps, w);
    assert Unbroken(w.store, w.handlers[i]);
    ReachableOk(steps, w);
    assert HandlerOk(w.store, w.handlers[i]);
    RunKeepsBacked(EMPTY, steps, w);
    if w.handlers[i].call.outcome.Ceded? {
      assert Carried(w, w.handlers[i].o);
      var j: int :| Behind(w, j, w.handlers[i].o) && Carrying(w.handlers[j]);
    }
  }

  // ---- every observation is taken care of ----

  ghost predicate Handled(w: World, o: ObservationId)
  {
    exists i :: Behind(w, i, o)
  }

  lemma StepKeepsHandled(w: World, step: Step)
    requires (forall o | o in w.store.observations :: Handled(w, o)) && Enabled(w, step) && Smooth(w, step)
    ensures forall o | o in Next(w, step).store.observations :: Handled(Next(w, step), o)
  {
    var n := Next(w, step);
    forall o | o in n.store.observations ensures Handled(n, o) {
      if o in w.store.observations {
        var i :| Behind(w, i, o);
        assert Behind(n, i, o);
      } else {
        assert Behind(n, |w.handlers|, o);
      }
    }
  }

  lemma {:induction false} SmoothRunHandlesAll(w: World, steps: seq<Step>, end: World)
    requires (forall o | o in w.store.observations :: Handled(w, o)) && SmoothRun(w, steps, end)
    ensures forall o | o in end.store.observations :: Handled(end, o)
    decreases |steps|
  {
    if steps != [] {
      StepKeepsHandled(w, steps[0]);
      SmoothRunHandlesAll(Next(w, steps[0]), steps[1..], end);
    }
  }

  /** When no call fails and all handlers have ended, every observation that was stored has been attached to a
      track and is marked processed. */
  lemma {:induction false} EveryObservationIsProcessed(steps: seq<Step>, w: World, o: ObservationId)
    requires SmoothRun(EMPTY, steps, w) && o in w.store.observations
    requires forall i | 0 <= i < |w.handlers| :: w.handlers[i].call.Ended?
    ensures o in w.store.processed && o in w.store.attached && w.store.attached[o] in w.store.tracks
  {
    EmptyIsOk();
    SmoothRunHandlesAll(EMPTY, steps, w);
    SmoothRunBreaksNothing(EMPTY, steps, w);
    var i: int :| Behind(w, i, o);
    NothingBreaksByItself(steps, w, i);
    if w.handlers[i].call.outcome.Ceded? {
      var j: int :| 0 <= j < |w.handlers| && w.handlers[j].o == o && Carrying(w.handlers[j]);
      NothingBreaksByItself(steps, w, j);
    }
    Ownership(steps, w, o);
  }

  /** A delivery stores what is new and starts its handler. One of an observation that is stored already
      changes nothing of it, and starts a retry exactly when it has not been processed yet. */
  lemma RedeliveryRetriesTheUnprocessed(w: World, o: ObservationId, u: Observation)
    ensures var n := Next(w, Ingest(o, u, Fine));
      && o in n.store.observations
      && n.store.observations[o] == (if o in w.store.observations then w.store.observations[o] else u)
      && (o !in w.store.observations ==>
            |n.handlers| == |w.handlers| + 1 && n.handlers[|w.handlers|].o == o && !n.handlers[|w.handlers|].retry)
      && (o in w.store.observations && o !in w.store.processed ==>
            |n.handlers| == |w.handlers| + 1 && n.handlers[|w.handlers|].o == o && n.handlers[|w.handlers|].retry)
      && (o in w.store.observations && o in w.store.processed ==> n == w)
  {
  }
}
