/** What holds of the tracks in every reachable world. */
module TrackResults {
  import opened Options
  import opened TrackStore
  import opened TrackHandler
  import opened TrackRows
  import opened TrackMachine
  import opened TrackSafety

  lemma {:induction false} ReachableOk(steps: seq<Step>, w: World)
    requires Run(EMPTY, steps, w)
    ensures StoreOk(w.store)
    ensures forall i {:trigger HandlerOk(w.store, w.handlers[i])} | 0 <= i < |w.handlers| ::
      HandlerOk(w.store, w.handlers[i])
  {
    EmptyIsOk();
    RunKeepsWorld(EMPTY, steps, w);
  }

  lemma {:induction false} ReachableRow(steps: seq<Step>, w: World, t: TrackId)
    requires Run(EMPTY, steps, w) && t in w.store.tracks
    ensures RowOk(w.store.tracks[t])
  {
    ReachableOk(steps, w);
    assert RowFits(w.store, t);
  }

  /** Per track, the watermark never falls and committed history only grows. */
  lemma {:induction false} WatermarkNeverFalls(steps: seq<Step>, w: World, more: seq<Step>, end: World, t: TrackId)
    requires Run(EMPTY, steps, w) && Run(w, more, end) && t in w.store.tracks
    ensures t in end.store.tracks && w.store.tracks[t].lastSeen <= end.store.tracks[t].lastSeen
    ensures w.store.tracks[t].commits <= end.store.tracks[t].commits
  {
    EmptyIsOk();
    RunKeepsWorld(EMPTY, steps, w);
    RunKeepsWorld(w, more, end);
    LastSeenGrows(w.store, end.store, t);
  }

  /** History timestamps are strictly increasing, and never beyond the watermark. */
  lemma {:induction false} HistoryIncreases(steps: seq<Step>, w: World, t: TrackId)
    requires Run(EMPTY, steps, w) && t in w.store.tracks
    ensures var history := w.store.tracks[t].history;
      && (forall i, j | 0 <= i < j < |history| :: history[i].at < history[j].at)
      && (forall h | h in history :: h.at <= w.store.tracks[t].lastSeen)
  {
    ReachableRow(steps, w, t);
    var row := w.store.tracks[t];
    assert row.commits[..|row.commits|] == row.commits;
    SamplesAreEarlier(row, |row.commits|);
  }

  /** An observation is projected at most once, on one track, however often its handler is retried. */
  lemma {:induction false} ProjectedAtMostOnce(steps: seq<Step>, w: World, t1: TrackId, k1: nat, t2: TrackId, k2: nat)
    requires Run(EMPTY, steps, w) && t1 in w.store.tracks && t2 in w.store.tracks
    requires k1 < |w.store.tracks[t1].commits| && k2 < |w.store.tracks[t2].commits|
    requires w.store.tracks[t1].commits[k1].observation == w.store.tracks[t2].commits[k2].observation
    ensures t1 == t2 && k1 == k2
  {
    ReachableOk(steps, w);
    var s := w.store;
    var c1, c2 := s.tracks[t1].commits[k1], s.tracks[t2].commits[k2];
    assert RowFits(s, t1) && RowFits(s, t2);
    assert CommitFits(s, t1, c1) && CommitFits(s, t2, c2);
    OneTarget(s, c1.observation, t1, t2);
    var row := s.tracks[t1];
    assert WatermarkAt(row, k1 + 1) == WatermarkAt(row, k2 + 1);
    if k1 < k2 {
      WatermarksRise(row, k1 + 1, k2 + 1);
    } else if k2 < k1 {
      WatermarksRise(row, k2 + 1, k1 + 1);
    }
  }

  /** A published speed and heading were computed from exactly the position and watermark in force
      just before the commit they announce. */
  lemma {:induction false} PublishedMotionIsExact(steps: seq<Step>, w: World, i: nat)
    requires Run(EMPTY, steps, w) && i < |w.handlers|
    requires w.handlers[i].call.Ended? && w.handlers[i].call.outcome.Projecting?
    ensures var Projecting(t, derived, version) := w.handlers[i].call.outcome;
      && t in w.store.tracks && version < |w.store.tracks[t].commits|
      && var c := w.store.tracks[t].commits[version];
      && c.observation == w.handlers[i].o && c.derived == derived
      && (derived.Some? ==>
            && PositionOf(StateAt(w.store.tracks[t], version)).Some? && c.position.Some?
            && derived.value == Motion(PositionOf(StateAt(w.store.tracks[t], version)).value, c.position.value,
                                       WatermarkAt(w.store.tracks[t], version), c.at))
  {
    ReachableOk(steps, w);
    var Projecting(t, derived, version) := w.handlers[i].call.outcome;
    assert HandlerOk(w.store, w.handlers[i]);
    ReachableRow(steps, w, t);
    assert CommitOk(w.store.tracks[t], version);
  }

  /** Replay agrees with the live picture, for every track and every instant. */
  lemma {:induction false} ReplayAgreesWithLive(steps: seq<Step>, w: World, t: TrackId, at: int)
    requires Run(EMPTY, steps, w) && t in w.store.tracks
    ensures var row := w.store.tracks[t];
      && Shows(TracksAt(row.history, at), LiveAt(row, |row.commits|, at))
      && (at >= row.lastSeen ==> Shows(TracksAt(row.history, at), row.state))
  {
    ReachableRow(steps, w, t);
    ReplayAgrees(w.store.tracks[t], at);
  }

  /** Every way of finding the track of an observation leads to the one that owns it; no observation
      starts two tracks, no hint names two, and only attached observations are processed. */
  lemma {:induction false} Ownership(steps: seq<Step>, w: World, o: ObservationId)
    requires Run(EMPTY, steps, w)
    ensures o in w.store.attached ==> FindByObservation(w.store, o) == Some(w.store.attached[o])
    ensures o in w.store.processed ==> o in w.store.attached && w.store.attached[o] in w.store.tracks
    ensures forall t, u | t in w.store.tracks && u in w.store.tracks
      && w.store.tracks[t].initial == w.store.tracks[u].initial :: t == u
    ensures forall t, u | t in w.store.tracks && u in w.store.tracks
      && w.store.tracks[t].ref == w.store.tracks[u].ref != "" :: t == u
    ensures o in w.store.attached ==>
      && o in w.store.observations && w.store.attached[o] in w.store.tracks
      && var hint, track := w.store.observations[o].hint, w.store.tracks[w.store.attached[o]];
      if hint == "" then track.initial == o else track.ref == hint
  {
    ReachableOk(steps, w);
    if o in w.store.attached {
      FoundIsTarget(w.store, o);
      OneTarget(w.store, o, FindByObservation(w.store, o).value, w.store.attached[o]);
    }
  }

  /** Giving up means having been overtaken three times: the four rows the handler read were real
      states of the track, each with a strictly later watermark than the one before. */
  lemma {:induction false} GaveUpWasOvertaken(steps: seq<Step>, w: World, i: nat)
    requires Run(EMPTY, steps, w) && i < |w.handlers|
    requires w.handlers[i].call.Ended? && w.handlers[i].call.outcome.GaveUp?
    ensures var GaveUp(t, looks) := w.handlers[i].call.outcome;
      && t in w.store.tracks && |looks| == 4
      && (forall k | 0 <= k < 4 :: Genuine(w.store.tracks[t], looks[k]))
      && looks[0].lastSeen < looks[1].lastSeen < looks[2].lastSeen < looks[3].lastSeen
      && looks[0].version < looks[1].version < looks[2].version < looks[3].version
      && looks[3].lastSeen <= w.store.tracks[t].lastSeen
  {
    ReachableOk(steps, w);
    assert HandlerOk(w.store, w.handlers[i]);
    var GaveUp(t, looks) := w.handlers[i].call.outcome;
    LookVersionsRise(w.store, t, looks[0], looks[1]);
    LookVersionsRise(w.store, t, looks[1], looks[2]);
    LookVersionsRise(w.store, t, looks[2], looks[3]);
    SeenIsBelow(w.store, t, looks[3]);
  }

  lemma LookVersionsRise(s: Store, t: TrackId, before: Seen, after: Seen)
    requires StoreOk(s) && t in s.tracks && Genuine(s.tracks[t], before) && Genuine(s.tracks[t], after)
    requires before.lastSeen < after.lastSeen
    ensures before.version < after.version
  {
    assert RowFits(s, t);
    if after.version < before.version {
      WatermarksRise(s.tracks[t], after.version, before.version);
    }
  }

  // ---- every row and link has a handler behind it ----

  predicate PastInsert(h: Handler)
  {
    !h.call.SeekEvidence? && !h.call.SeekReference? && !h.call.Insert?
  }

  /** The handler attached its observation itself, or found it attached and carried on. */
  predicate Carrying(h: Handler)
  {
    || h.call.Try? || h.call.Reload?
    || (h.call.Mark? && !h.call.outcome.Ceded?)
    || (h.call.Ended? && !h.call.outcome.Ceded?)
  }

  predicate Committed(h: Handler, t: TrackId)
  {
    || (h.call.Mark? && h.call.outcome.Projecting? && h.call.outcome.track == t)
    || (h.call.Ended? && h.call.outcome.Projecting? && h.call.outcome.track == t)
    || (h.call.Ended? && h.call.outcome.Broken?)
  }

  ghost predicate Behind(w: World, i: int, o: ObservationId)
  {
    0 <= i < |w.handlers| && w.handlers[i].o == o
  }

  ghost predicate Started(w: World, o: ObservationId)
  {
    exists i :: Behind(w, i, o) && PastInsert(w.handlers[i])
  }

  ghost predicate Carried(w: World, o: ObservationId)
  {
    exists i :: Behind(w, i, o) && Carrying(w.handlers[i])
  }

  ghost predicate CommittedBy(w: World, o: ObservationId, t: TrackId)
  {
    exists i :: Behind(w, i, o) && Committed(w.handlers[i], t)
  }

  ghost predicate Backed(w: World)
  {
    && (forall t | t in w.store.tracks :: Started(w, w.store.tracks[t].initial))
    && (forall o | o in w.store.attached :: Carried(w, o))
    && (forall t, c | t in w.store.tracks && c in w.store.tracks[t].commits :: CommittedBy(w, c.observation, t))
  }

  /** A handler never falls back behind a stage it has passed. */
  lemma StagesAreKept(s: Store, h: Handler, reply: Reply, id: TrackId)
    requires Ready(s, h)
    ensures var n := h.(call := TrackHandler.Step(s, h, reply, id).1);
      && (PastInsert(h) ==> PastInsert(n)) && (Carrying(h) ==> Carrying(n))
      && forall t :: Committed(h, t) ==> Committed(n, t)
  {
  }

  lemma WitnessesStay(w: World, i: nat, reply: Reply, id: TrackId)
    requires i < |w.handlers| && Ready(w.store, w.handlers[i])
    ensures var n := DoMove(w, i, reply, id);
      && (forall o :: Started(w, o) ==> Started(n, o)) && (forall o :: Carried(w, o) ==> Carried(n, o))
      && (forall o, t :: CommittedBy(w, o, t) ==> CommittedBy(n, o, t))
  {
    var n := DoMove(w, i, reply, id);
    StagesAreKept(w.store, w.handlers[i], reply, id);
    forall o | Started(w, o) ensures Started(n, o) {
      var j :| Behind(w, j, o) && PastInsert(w.handlers[j]);
      assert Behind(n, j, o);
    }
    forall o | Carried(w, o) ensures Carried(n, o) {
      var j :| Behind(w, j, o) && Carrying(w.handlers[j]);
      assert Behind(n, j, o);
    }
    forall o, t | CommittedBy(w, o, t) ensures CommittedBy(n, o, t) {
      var j :| Behind(w, j, o) && Committed(w.handlers[j], t);
      assert Behind(n, j, o);
    }
  }

  lemma WhatOneCallAdds(s: Store, h: Handler, reply: Reply, id: TrackId)
    requires Ready(s, h)
    ensures var (n, call) := TrackHandler.Step(s, h, reply, id);
      && (forall t | t in n.tracks && t !in s.tracks :: n.tracks[t].initial == h.o && PastInsert(h.(call := call)))
      && (forall t | t in n.tracks && t in s.tracks :: n.tracks[t].initial == s.tracks[t].initial)
      && (forall o | o in n.attached && o !in s.attached :: o == h.o && Carrying(h.(call := call)))
  {
    if !reply.Refused? {
      match h.call
      case Insert => InsertAdds(s, h, reply, id);
      case Link(_, _) => LinkAdds(s, h, reply, id);
      case Try(_, _) => TryAdds(s, h, reply, id);
      case _ =>
    }
  }

  lemma InsertAdds(s: Store, h: Handler, reply: Reply, id: TrackId)
    requires Ready(s, h) && h.call.Insert? && !reply.Refused?
    ensures var (n, call) := TrackHandler.Step(s, h, reply, id);
      && (forall t | t in n.tracks && t !in s.tracks :: n.tracks[t].initial == h.o && PastInsert(h.(call := call)))
      && (forall t | t in n.tracks && t in s.tracks :: n.tracks[t] == s.tracks[t])
      && n.attached == s.attached
  {
  }

  lemma LinkAdds(s: Store, h: Handler, reply: Reply, id: TrackId)
    requires Ready(s, h) && h.call.Link? && !reply.Refused?
    ensures var (n, call) := TrackHandler.Step(s, h, reply, id);
      && n.tracks == s.tracks
      && forall o | o in n.attached && o !in s.attached :: o == h.o && Carrying(h.(call := call))
  {
  }

  lemma TryAdds(s: Store, h: Handler, reply: Reply, id: TrackId)
    requires Ready(s, h) && h.call.Try? && !reply.Refused?
    ensures var n := TrackHandler.Step(s, h, reply, id).0;
      && n.attached == s.attached && n.tracks.Keys == s.tracks.Keys
      && forall t | t in n.tracks && t in s.tracks :: n.tracks[t].initial == s.tracks[t].initial
  {
  }

  lemma WhatOneCallCommits(s: Store, h: Handler, reply: Reply, id: TrackId, t: TrackId, c: Commit)
    requires Ready(s, h)
    requires t in TrackHandler.Step(s, h, reply, id).0.tracks
    requires c in TrackHandler.Step(s, h, reply, id).0.tracks[t].commits
    ensures (t in s.tracks && c in s.tracks[t].commits)
      || (c.observation == h.o && Committed(h.(call := TrackHandler.Step(s, h, reply, id).1), t))
  {
  }

  lemma MoveKeepsBacked(w: World, i: nat, reply: Reply, id: TrackId)
    requires Backed(w) && i < |w.handlers| && Ready(w.store, w.handlers[i])
    ensures Backed(DoMove(w, i, reply, id))
  {
    var n := DoMove(w, i, reply, id);
    WitnessesStay(w, i, reply, id);
    WhatOneCallAdds(w.store, w.handlers[i], reply, id);
    assert Behind(n, i, w.handlers[i].o);
    forall t, c | t in n.store.tracks && c in n.store.tracks[t].commits ensures CommittedBy(n, c.observation, t) {
      WhatOneCallCommits(w.store, w.handlers[i], reply, id, t, c);
    }
  }

  lemma IngestKeepsBacked(w: World, o: ObservationId, u: Observation, reply: Reply)
    requires Backed(w)
    ensures Backed(DoIngest(w, o, u, reply))
  {
    var n := DoIngest(w, o, u, reply);
    assert forall i, p :: Behind(w, i, p) ==> Behind(n, i, p) && n.handlers[i] == w.handlers[i];
  }

  lemma {:induction false} RunKeepsBacked(w: World, steps: seq<Step>, end: World)
    requires Backed(w) && Run(w, steps, end)
    ensures Backed(end)
    decreases |steps|
  {
    if steps != [] {
      match steps[0]
      case Ingest(o, u, reply) =>
        IngestKeepsBacked(w, o, u, reply);
        RunKeepsBacked(Next(w, steps[0]), steps[1..], end);
      case Move(i, reply, id) =>
        MoveKeepsBacked(w, i, reply, id);
        RunKeepsBacked(Next(w, steps[0]), steps[1..], end);
    }
  }

  // ---- the final watermark ----

  predicate Quiet(w: World)
  {
    forall i | 0 <= i < |w.handlers| :: w.handlers[i].call.Ended? && !w.handlers[i].call.outcome.Broken?
  }

  /** The handler projected its observation, or found that a later one had been projected. */
  predicate SettledOn(h: Handler, t: TrackId)
  {
    h.call.Ended? &&
    match h.call.outcome
    case Projecting(track, _, _) => track == t
    case Superseded(track) => track == t
    case _ => false
  }

  lemma SettledIsBelow(w: World, i: nat, t: TrackId)
    requires StoreOk(w.store) && i < |w.handlers| && HandlerOk(w.store, w.handlers[i]) && SettledOn(w.handlers[i], t)
    ensures t in w.store.tracks && w.handlers[i].o in w.store.observations
    ensures w.store.observations[w.handlers[i].o].at <= w.store.tracks[t].lastSeen
  {
    assert RowFits(w.store, t);
    if w.handlers[i].call.outcome.Projecting? {
      var row, k := w.store.tracks[t], w.handlers[i].call.outcome.version;
      assert CommitFits(w.store, t, row.commits[k]);
      if k + 1 < |row.commits| {
        WatermarksRise(row, k + 1, |row.commits|);
      }
    } else {
      OvertakenIsBelow(w.store.tracks[t], w.store.observations[w.handlers[i].o].at);
    }
  }

  lemma OvertakenIsBelow(row: Track, at: int)
    requires RowOk(row) && Overtaken(row, at)
    ensures at <= row.lastSeen
  {
    if at >= row.lastSeen {
      var c :| c in row.commits && c.at >= at;
      var k :| 0 <= k < |row.commits| && row.commits[k] == c;
      assert WatermarkAt(row, k + 1) == c.at;
      if k + 1 < |row.commits| {
        WatermarksRise(row, k + 1, |row.commits|);
      }
    }
  }

  lemma EndedIsAttached(s: Store, h: Handler)
    requires HandlerOk(s, h) && h.call.Ended? && !h.call.outcome.Broken?
    ensures h.o in s.attached
  {
  }

  lemma InitialIsAttached(w: World, t: TrackId)
    requires WorldOk(w) && Backed(w) && Quiet(w) && t in w.store.tracks
    ensures w.store.tracks[t].initial in w.store.attached
  {
    var o := w.store.tracks[t].initial;
    assert Started(w, o);
    var i: int :| Behind(w, i, o) && PastInsert(w.handlers[i]);
    EndedIsAttached(w.store, w.handlers[i]);
  }

  /** On a track nothing has been projected to, no handler of an observation from when the track was first
      seen can have ended by itself. */
  lemma NobodyEndsUnprojected(s: Store, h: Handler, t: TrackId)
    requires StoreOk(s) && HandlerOk(s, h) && t in s.tracks && Target(s, h.o, t)
    requires s.observations[h.o].at == s.tracks[t].firstSeen
    requires h.call.Ended? && !h.call.outcome.Broken? && !h.call.outcome.Ceded?
    ensures s.tracks[t].commits != []
  {
    OneTarget(s, h.o, t, h.call.outcome.track);
    assert RowFits(s, t);
    if h.call.outcome.GaveUp? {
      ClimbingNeedsCommits(s.tracks[t], h.call.outcome.looks);
    }
  }

  lemma ClimbingNeedsCommits(row: Track, looks: seq<Seen>)
    requires Climbing(row, looks) && |looks| > 1
    ensures row.commits != []
  {
    assert Genuine(row, looks[0]) && Genuine(row, looks[1]);
    assert looks[0].lastSeen < looks[1].lastSeen;
  }

  /** Once all handlers have ended, something has been projected to every track. */
  lemma NoTrackIsUntouched(w: World, t: TrackId)
    requires WorldOk(w) && Backed(w) && Quiet(w) && t in w.store.tracks
    ensures w.store.tracks[t].commits != []
  {
    var o := w.store.tracks[t].initial;
    InitialIsAttached(w, t);
    InitialIsTarget(w.store, o);
    assert RowFits(w.store, t);
    assert Carried(w, o);
    var j: int :| Behind(w, j, o) && Carrying(w.handlers[j]);
    assert HandlerOk(w.store, w.handlers[j]);
    NobodyEndsUnprojected(w.store, w.handlers[j], t);
  }

  lemma LastCommitIsSettled(w: World, t: TrackId) returns (i: nat)
    requires WorldOk(w) && Backed(w) && Quiet(w) && t in w.store.tracks && w.store.tracks[t].commits != []
    ensures i < |w.handlers| && w.handlers[i].call.Ended? && w.handlers[i].call.outcome.Projecting?
    ensures w.handlers[i].call.outcome.track == t && SettledOn(w.handlers[i], t)
    ensures w.handlers[i].o == w.store.tracks[t].commits[|w.store.tracks[t].commits| - 1].observation
    ensures w.handlers[i].o in w.store.observations
    ensures w.store.observations[w.handlers[i].o].at == w.store.tracks[t].lastSeen
  {
    var row := w.store.tracks[t];
    var c := row.commits[|row.commits| - 1];
    assert RowFits(w.store, t) && CommitFits(w.store, t, c);
    assert CommittedBy(w, c.observation, t);
    var j: int :| Behind(w, j, c.observation) && Committed(w.handlers[j], t);
    i := j;
  }

  ghost predicate GivenUp(w: World, o: ObservationId)
  {
    exists j :: Behind(w, j, o) && w.handlers[j].call.Ended? && w.handlers[j].call.outcome.GaveUp?
  }

  /** Whoever carried an attached observation on either settled on its track or gave it up. */
  lemma AttachedIsBelow(w: World, o: ObservationId)
    requires WorldOk(w) && Backed(w) && Quiet(w) && o in w.store.attached
    ensures o in w.store.observations && w.store.attached[o] in w.store.tracks
    ensures GivenUp(w, o) || w.store.observations[o].at <= w.store.tracks[w.store.attached[o]].lastSeen
  {
    assert Carried(w, o);
    var j: int :| Behind(w, j, o) && Carrying(w.handlers[j]);
    var i: nat := j;
    assert HandlerOk(w.store, w.handlers[i]);
    if !w.handlers[i].call.outcome.GaveUp? {
      OneTarget(w.store, o, w.handlers[i].call.outcome.track, w.store.attached[o]);
      SettledIsBelow(w, i, w.store.attached[o]);
    }
  }

  lemma AllAttachedBelow(w: World, t: TrackId)
    requires WorldOk(w) && Backed(w) && Quiet(w) && t in w.store.tracks
    ensures forall o | o in w.store.attached && w.store.attached[o] == t ::
      o in w.store.observations && (GivenUp(w, o) || w.store.observations[o].at <= w.store.tracks[t].lastSeen)
  {
    forall o | o in w.store.attached && w.store.attached[o] == t
      ensures o in w.store.observations
      ensures GivenUp(w, o) || w.store.observations[o].at <= w.store.tracks[t].lastSeen
    {
      AttachedIsBelow(w, o);
    }
  }

  /** Once every handler has ended without an error, each has its observation attached, and the watermark
      of a track is the greatest time among the observations attached to it, leaving out only those on
      which a handler gave up; the greatest is that of a handler that projected its observation. */
  lemma WatermarkIsMaximum(steps: seq<Step>, w: World, t: TrackId) returns (i: nat)
    requires Run(EMPTY, steps, w) && Quiet(w) && t in w.store.tracks
    ensures i < |w.handlers| && w.handlers[i].call.Ended? && w.handlers[i].call.outcome.Projecting?
    ensures w.handlers[i].call.outcome.track == t && w.handlers[i].o in w.store.observations
    ensures w.store.observations[w.handlers[i].o].at == w.store.tracks[t].lastSeen
    ensures forall j | 0 <= j < |w.handlers| && SettledOn(w.handlers[j], t) ::
      && w.handlers[j].o in w.store.observations
      && w.store.observations[w.handlers[j].o].at <= w.store.tracks[t].lastSeen
    ensures forall j | 0 <= j < |w.handlers| :: w.handlers[j].o in w.store.attached
    ensures forall o | o in w.store.attached && w.store.attached[o] == t ::
      o in w.store.observations && (GivenUp(w, o) || w.store.observations[o].at <= w.store.tracks[t].lastSeen)
  {
    ReachableOk(steps, w);
    RunKeepsBacked(EMPTY, steps, w);
    forall j | 0 <= j < |w.handlers| ensures w.handlers[j].o in w.store.attached {
      EndedIsAttached(w.store, w.handlers[j]);
    }
    AllAttachedBelow(w, t);
    NoTrackIsUntouched(w, t);
    i := LastCommitIsSettled(w, t);
    forall j | 0 <= j < |w.handlers| && SettledOn(w.handlers[j], t)
      ensures w.handlers[j].o in w.store.observations
      ensures w.store.observations[w.handlers[j].o].at <= w.store.tracks[t].lastSeen
    {
      SettledIsBelow(w, j, t);
    }
  }

  /** An observation is only passed over when the track has been seen later than it, or when something was
      projected at its time or later. */
  lemma {:induction false} SupersededWasOvertaken(steps: seq<Step>, w: World, i: nat)
    requires Run(EMPTY, steps, w) && i < |w.handlers|
    requires w.handlers[i].call.Ended? && w.handlers[i].call.outcome.Superseded?
    ensures var t, o := w.handlers[i].call.outcome.track, w.handlers[i].o;
      && t in w.store.tracks && o in w.store.observations && o in w.store.attached && w.store.attached[o] == t
      && var row, at := w.store.tracks[t], w.store.observations[o].at;
      at < row.lastSeen || exists c :: c in row.commits && c.at >= at
  {
    ReachableOk(steps, w);
    assert HandlerOk(w.store, w.handlers[i]);
    OneTarget(w.store, w.handlers[i].o, w.handlers[i].call.outcome.track, w.store.attached[w.handlers[i].o]);
  }

  /** Once every handler has ended without an error, every track has been projected to: it has a state, its
      newest projection is at its watermark, and a handler has announced it. */
  lemma {:induction false} EveryTrackIsProjected(steps: seq<Step>, w: World, t: TrackId) returns (i: nat)
    requires Run(EMPTY, steps, w) && Quiet(w) && t in w.store.tracks
    ensures var row := w.store.tracks[t];
      && row.state.Some? && row.commits != [] && row.commits[|row.commits| - 1].at == row.lastSeen
      && i < |w.handlers| && w.handlers[i].o == row.commits[|row.commits| - 1].observation
      && w.handlers[i].call.Ended? && w.handlers[i].call.outcome.Projecting?
      && w.handlers[i].call.outcome.track == t
  {
    ReachableOk(steps, w);
    RunKeepsBacked(EMPTY, steps, w);
    NoTrackIsUntouched(w, t);
    assert RowFits(w.store, t);
    i := LastCommitIsSettled(w, t);
  }

  /** Then an observation with a position that attains the watermark, and shares its time with no other of
      the track, is shown: its position is the live one and the newest of the history. */
  lemma {:induction false} LatestPositionIsLive(steps: seq<Step>, w: World, t: TrackId, o: ObservationId)
    requires Run(EMPTY, steps, w) && Quiet(w) && t in w.store.tracks
    requires o in w.store.attached && w.store.attached[o] == t && o in w.store.observations
    requires w.store.observations[o].at == w.store.tracks[t].lastSeen && w.store.observations[o].position.Some?
    requires forall p | p in w.store.attached && w.store.attached[p] == t && p != o && p in w.store.observations ::
      w.store.observations[p].at != w.store.observations[o].at
    ensures var row, u := w.store.tracks[t], w.store.observations[o];
      && row.state.Some? && row.state.value.position == u.position
      && row.history != [] && row.history[|row.history| - 1].at == u.at
      && Some(row.history[|row.history| - 1].position) == u.position
  {
    var i := EveryTrackIsProjected(steps, w, t);
    ReachableOk(steps, w);
    var row := w.store.tracks[t];
    var c := row.commits[|row.commits| - 1];
    assert RowFits(w.store, t) && CommitFits(w.store, t, c);
    OneTarget(w.store, c.observation, t, w.store.attached[c.observation]);
    assert c.observation == o;
    assert CommitOk(row, |row.commits| - 1);
  }
}
