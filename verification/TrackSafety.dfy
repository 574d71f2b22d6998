/** Safety of the projection over every interleaving of handlers, with any call allowed to fail. */
module TrackSafety {
  import opened Options
  import opened TrackStore
  import opened TrackHandler
  import opened TrackRows
  import opened TrackMachine

  ghost predicate WorldOk(w: World)
  {
    && StoreOk(w.store)
    && forall i {:trigger HandlerOk(w.store, w.handlers[i])} | 0 <= i < |w.handlers| ::
         HandlerOk(w.store, w.handlers[i])
  }

  // ---- one call at a time ----

  lemma HeadOk(s: Store, h: Handler, t: TrackId, looks: seq<Seen>)
    requires StoreOk(s) && Target(s, h.o, t) && h.o in s.attached
    requires Climbing(s.tracks[t], looks) && |looks| <= ATTEMPTS + 1
    ensures HandlerOk(s, h.(call := Head(s.observations[h.o], t, looks)))
  {
    SeenIsBelow(s, t, looks[|looks| - 1]);
  }

  lemma LinkedOk(s: Store, h: Handler, t: TrackId)
    requires StoreOk(s) && Target(s, h.o, t)
    ensures HandlerOk(s, h.(call := Linked(s, t)))
  {
    assert RowFits(s, t);
    ReadIsGenuine(s.tracks[t]);
  }

  predicate Looking(call: Call)
  {
    call.SeekEvidence? || call.SeekReference? || call.SeekWinner? || call.SeekRefWinner?
  }

  lemma LookOk(s: Store, h: Handler, reply: Reply, id: TrackId)
    requires StoreOk(s) && Ready(s, h) && Looking(h.call)
    ensures TrackHandler.Step(s, h, reply, id).0 == s
    ensures HandlerOk(s, h.(call := TrackHandler.Step(s, h, reply, id).1))
  {
    var byEvidence := FindByObservation(s, h.o);
    var byRef := FindByExternalRef(s, s.observations[h.o].hint);
    if byEvidence.Some? {
      FoundIsTarget(s, h.o);
      LinkedOk(s, h, byEvidence.value);
    }
    if byRef.Some? {
      HintIsTarget(s, h.o);
      LinkedOk(s, h, byRef.value);
    }
  }

  lemma LinkOk(s: Store, h: Handler, reply: Reply)
    requires StoreOk(s) && HandlerOk(s, h) && h.call.Link?
    ensures var (n, call) := DoLink(s, h, s.observations[h.o], reply);
      StoreOk(n) && Grows(s, n) && HandlerOk(n, h.(call := call))
  {
    var t, seen := h.call.track, h.call.seen;
    var (n, attached) := Attach(s, t, h.o);
    AttachKeepsStore(s, t, h.o);
    TargetStays(s, n, h.o, t);
    if attached {
      assert Climbing(n.tracks[t], [seen]);
      HeadOk(n, h, t, [seen]);
    }
  }

  lemma OwnerOk(s: Store, h: Handler)
    requires StoreOk(s) && HandlerOk(s, h) && h.call.SeekOwner?
    ensures var found := FindByObservation(s, h.o);
      && found.Some? && found.value in s.tracks
      && HandlerOk(s, h.(call := Head(s.observations[h.o], found.value, [Read(s.tracks[found.value])])))
  {
    var found := FindByObservation(s, h.o);
    FoundIsTarget(s, h.o);
    assert RowFits(s, found.value);
    ReadIsGenuine(s.tracks[found.value]);
    HeadOk(s, h, found.value, [Read(s.tracks[found.value])]);
  }

  lemma TryOk(s: Store, h: Handler, reply: Reply)
    requires StoreOk(s) && HandlerOk(s, h) && h.call.Try?
    ensures var (n, call) := DoTry(s, h, s.observations[h.o], reply);
      StoreOk(n) && Grows(s, n) && HandlerOk(n, h.(call := call))
  {
    ApplyKeepsStore(s, h.call.track, h.o, h.call.looks[|h.call.looks| - 1]);
    TriedOk(s, h, reply);
  }

  lemma TriedOk(s: Store, h: Handler, reply: Reply)
    requires StoreOk(s) && HandlerOk(s, h) && h.call.Try? && Grows(s, DoTry(s, h, s.observations[h.o], reply).0)
    ensures var (n, call) := DoTry(s, h, s.observations[h.o], reply);
      HandlerOk(n, h.(call := call))
  {
    var u, t, seen := s.observations[h.o], h.call.track, h.call.looks[|h.call.looks| - 1];
    var (n, applied) := Apply(s, t, h.o, u.at, u.position, seen.lastSeen, Derive(seen, u));
    if applied {
      ProjectedOk(s, n, h.o, t, seen);
    } else {
      assert RowFits(s, t);
      assert Failed(s, h.o, t, h.call.looks);
    }
  }

  lemma ProjectedOk(s: Store, n: Store, o: ObservationId, t: TrackId, seen: Seen)
    requires Target(s, o, t) && o in s.attached && Grows(s, n)
    requires var u := s.observations[o];
      (n, true) == Apply(s, t, o, u.at, u.position, seen.lastSeen, Derive(seen, u))
    ensures t in n.tracks && n.tracks[t].commits != []
    ensures OutcomeOk(n, o, Projecting(t, Derive(seen, s.observations[o]), |n.tracks[t].commits| - 1))
    ensures o in n.attached && o in n.observations
  {
    TargetStays(s, n, o, t);
    ApplyCommits(s, t, o, s.observations[o], seen.lastSeen, Derive(seen, s.observations[o]));
  }

  lemma ApplyCommits(s: Store, t: TrackId, o: ObservationId, u: Observation, expected: int, derived: Option<Motion>)
    requires Apply(s, t, o, u.at, u.position, expected, derived).1
    ensures var n := Apply(s, t, o, u.at, u.position, expected, derived).0;
      t in n.tracks && n.tracks[t].commits != [] && CommittedAs(n, o, t, derived, |n.tracks[t].commits| - 1)
  {
  }

  lemma LastCommitOvertakes(row: Track, at: int)
    requires RowOk(row) && row.commits != [] && at <= row.lastSeen
    ensures Overtaken(row, at)
  {
    assert row.commits[|row.commits| - 1] in row.commits;
  }

  lemma ReloadOk(s: Store, h: Handler)
    requires StoreOk(s) && HandlerOk(s, h) && h.call.Reload?
    ensures HandlerOk(s, h.(call := DoReload(s, h, s.observations[h.o])))
  {
    var t, looks := h.call.track, h.call.looks;
    var latest := Read(s.tracks[t]);
    assert RowFits(s, t);
    ReadIsGenuine(s.tracks[t]);
    SeenIsBelow(s, t, looks[|looks| - 1]);
    if latest.lastSeen > looks[|looks| - 1].lastSeen {
      HeadOk(s, h, t, looks + [latest]);
    } else if s.observations[h.o].at <= latest.lastSeen {
      LastCommitOvertakes(s.tracks[t], s.observations[h.o].at);
    }
  }

  lemma InsertOk(s: Store, h: Handler, reply: Reply, id: TrackId)
    requires StoreOk(s) && Ready(s, h) && h.call.Insert?
    ensures var (n, call) := TrackHandler.Step(s, h, reply, id);
      StoreOk(n) && Grows(s, n) && HandlerOk(n, h.(call := call))
  {
    CreateKeepsStore(s, id, h.o);
  }

  lemma NothingGrows(s: Store)
    ensures Grows(s, s)
  {
  }

  lemma CallOk(s: Store, h: Handler, reply: Reply, id: TrackId)
    requires StoreOk(s) && HandlerOk(s, h) && Ready(s, h)
    ensures var (n, call) := TrackHandler.Step(s, h, reply, id);
      StoreOk(n) && Grows(s, n) && HandlerOk(n, h.(call := call))
  {
    NothingGrows(s);
    if Looking(h.call) {
      LookOk(s, h, reply, id);
    } else if reply.Refused? {
      RefusedOk(s, h, reply, id);
    } else {
      match h.call
      case Insert => InsertOk(s, h, reply, id);
      case Link(_, _) => LinkOk(s, h, reply);
      case SeekOwner => OwnerOk(s, h);
      case Try(_, _) => TryOk(s, h, reply);
      case Reload(_, _) => ReloadOk(s, h);
      case Mark(_) => MarkOk(s, h, reply, id);
    }
  }

  lemma RefusedOk(s: Store, h: Handler, reply: Reply, id: TrackId)
    requires HandlerOk(s, h) && Ready(s, h) && reply.Refused?
    ensures TrackHandler.Step(s, h, reply, id).0 == s
    ensures HandlerOk(s, h.(call := TrackHandler.Step(s, h, reply, id).1))
  {
  }

  lemma MarkOk(s: Store, h: Handler, reply: Reply, id: TrackId)
    requires StoreOk(s) && HandlerOk(s, h) && Ready(s, h) && h.call.Mark? && !reply.Refused?
    ensures var (n, call) := TrackHandler.Step(s, h, reply, id);
      StoreOk(n) && Grows(s, n) && HandlerOk(n, h.(call := call))
  {
    MarkKeepsStore(s, h.o);
    OutcomeStays(s, MarkProcessed(s, h.o), h.o, h.call.outcome);
  }

  // ---- every run ----

  lemma MoveKeepsWorld(w: World, i: nat, reply: Reply, id: TrackId)
    requires WorldOk(w) && i < |w.handlers| && Ready(w.store, w.handlers[i])
    ensures WorldOk(DoMove(w, i, reply, id)) && Grows(w.store, DoMove(w, i, reply, id).store)
  {
    var n := DoMove(w, i, reply, id);
    CallOk(w.store, w.handlers[i], reply, id);
    forall j | 0 <= j < |n.handlers| ensures HandlerOk(n.store, n.handlers[j]) {
      if j != i {
        HandlerStays(w.store, n.store, w.handlers[j]);
      }
    }
  }

  lemma IngestKeepsWorld(w: World, o: ObservationId, u: Observation, reply: Reply)
    requires WorldOk(w)
    ensures WorldOk(DoIngest(w, o, u, reply)) && Grows(w.store, DoIngest(w, o, u, reply).store)
  {
    var n := DoIngest(w, o, u, reply);
    InsertKeepsStore(w.store, o, u);
    NothingGrows(w.store);
    forall j | 0 <= j < |n.handlers| ensures HandlerOk(n.store, n.handlers[j]) {
      if j < |w.handlers| {
        HandlerStays(w.store, n.store, w.handlers[j]);
      }
    }
  }

  lemma StepKeepsWorld(w: World, step: Step)
    requires WorldOk(w) && Enabled(w, step)
    ensures WorldOk(Next(w, step)) && Grows(w.store, Next(w, step).store)
  {
    match step
    case Ingest(o, u, reply) => IngestKeepsWorld(w, o, u, reply);
    case Move(i, reply, id) => MoveKeepsWorld(w, i, reply, id);
  }

  lemma GrowsOn(s: Store, m: Store, n: Store)
    requires Grows(s, m) && Grows(m, n)
    ensures Grows(s, n)
  {
    forall t | t in s.tracks ensures t in n.tracks && RowGrows(s.tracks[t], n.tracks[t]) {
      assert RowGrows(s.tracks[t], m.tracks[t]) && RowGrows(m.tracks[t], n.tracks[t]);
    }
  }

  lemma {:induction false} RunKeepsWorld(w: World, steps: seq<Step>, end: World)
    requires WorldOk(w) && Run(w, steps, end)
    ensures WorldOk(end) && Grows(w.store, end.store)
    decreases |steps|
  {
    NothingGrows(w.store);
    if steps != [] {
      StepKeepsWorld(w, steps[0]);
      RunKeepsWorld(Next(w, steps[0]), steps[1..], end);
      GrowsOn(w.store, Next(w, steps[0]).store, end.store);
    }
  }

  lemma EmptyIsOk()
    ensures WorldOk(EMPTY)
  {
  }
}
