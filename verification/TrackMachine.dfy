/** Any number of observation handlers over one store, interleaved between repository calls. */
module TrackMachine {
  import opened Options
  import opened TrackStore
  import opened TrackHandler
  import opened TrackRows

  datatype World = World(store: Store, handlers: seq<Handler>)

  /** Ingest stores an observation and starts its handler, or starts a retry for one that is stored
      and not processed yet. Move lets one handler make its next repository call. */
  datatype Step =
    | Ingest(o: ObservationId, u: Observation, reply: Reply)
    | Move(i: nat, reply: Reply, id: TrackId)

  predicate Enabled(w: World, step: Step)
  {
    step.Move? ==> step.i < |w.handlers| && Ready(w.store, w.handlers[step.i])
  }

  function DoIngest(w: World, o: ObservationId, u: Observation, reply: Reply): World
  {
    if reply.Refused? then w
    else if o !in w.store.observations then
      World(TrackStore.Insert(w.store, o, u),
            if reply.Fine? then w.handlers + [Begin(o, u, false)] else w.handlers)
    else if reply.Fine? && o !in w.store.processed then
      w.(handlers := w.handlers + [Begin(o, w.store.observations[o], true)])
    else w
  }

  function DoMove(w: World, i: nat, reply: Reply, id: TrackId): World
    requires i < |w.handlers| && Ready(w.store, w.handlers[i])
  {
    var (store, call) := TrackHandler.Step(w.store, w.handlers[i], reply, id);
    World(store, w.handlers[i := w.handlers[i].(call := call)])
  }

  function Next(w: World, step: Step): World
    requires Enabled(w, step)
  {
    match step
    case Ingest(o, u, reply) => DoIngest(w, o, u, reply)
    case Move(i, reply, id) => DoMove(w, i, reply, id)
  }

  predicate Run(w: World, steps: seq<Step>, end: World)
    decreases |steps|
  {
    if steps == [] then w == end
    else Enabled(w, steps[0]) && Run(Next(w, steps[0]), steps[1..], end)
  }

  const EMPTY: World := World(Store(map[], map[], map[], map[], map[], {}), [])

  // ---- the store by itself ----

  /** The one track an observation may belong to: the one its hint names, or the one it created. */
  predicate Target(s: Store, o: ObservationId, t: TrackId)
  {
    && o in s.observations && t in s.tracks
    && if s.observations[o].hint == "" then o in s.byInitial && s.byInitial[o] == t
       else s.observations[o].hint in s.byRef && s.byRef[s.observations[o].hint] == t
  }

  ghost predicate Indexed(s: Store)
  {
    && (forall r | r in s.byRef :: r != "" && s.byRef[r] in s.tracks && s.tracks[s.byRef[r]].ref == r)
    && (forall o | o in s.byInitial :: s.byInitial[o] in s.tracks && s.tracks[s.byInitial[o]].initial == o)
    && (forall t | t in s.tracks ::
          var row := s.tracks[t];
          && (row.ref != "" ==> row.ref in s.byRef && s.byRef[row.ref] == t)
          && row.initial in s.byInitial && s.byInitial[row.initial] == t)
  }

  ghost predicate RowFits(s: Store, t: TrackId)
    requires t in s.tracks
  {
    var row := s.tracks[t];
    && RowOk(row)
    && row.initial in s.observations && row.ref == s.observations[row.initial].hint
    && row.firstSeen == s.observations[row.initial].at
    && forall c {:trigger CommitFits(s, t, c)} | c in row.commits :: CommitFits(s, t, c)
  }

  predicate CommitFits(s: Store, t: TrackId, c: Commit)
  {
    && Target(s, c.observation, t) && c.observation in s.attached
    && c.at == s.observations[c.observation].at && c.position == s.observations[c.observation].position
  }

  ghost predicate RowsFit(s: Store)
  {
    forall t {:trigger RowFits(s, t)} | t in s.tracks :: RowFits(s, t)
  }

  ghost predicate Evidenced(s: Store)
  {
    && (forall o | o in s.attached :: Target(s, o, s.attached[o]))
    && s.processed <= s.attached.Keys
  }

  ghost predicate StoreOk(s: Store)
  {
    Indexed(s) && RowsFit(s) && Evidenced(s)
  }

  ghost predicate Extends<K, V>(m: map<K, V>, n: map<K, V>)
  {
    forall k | k in m :: k in n && n[k] == m[k]
  }

  ghost predicate TracksGrow(m: map<TrackId, Track>, n: map<TrackId, Track>)
  {
    forall t | t in m :: t in n && RowGrows(m[t], n[t])
  }

  /** Everything any statement may do to the store. */
  ghost predicate Grows(s: Store, n: Store)
  {
    && Extends(s.observations, n.observations) && Extends(s.byRef, n.byRef)
    && Extends(s.byInitial, n.byInitial) && Extends(s.attached, n.attached)
    && TracksGrow(s.tracks, n.tracks)
    && s.processed <= n.processed
  }

  lemma TargetStays(s: Store, n: Store, o: ObservationId, t: TrackId)
    requires Target(s, o, t) && Grows(s, n)
    ensures Target(n, o, t)
  {
  }

  /** All the ways of finding an observation's track lead to the same one. */
  lemma OneTarget(s: Store, o: ObservationId, t: TrackId, u: TrackId)
    requires Target(s, o, t) && Target(s, o, u)
    ensures t == u
  {
  }

  lemma InitialIsTarget(s: Store, o: ObservationId)
    requires StoreOk(s) && o in s.byInitial
    ensures Target(s, o, s.byInitial[o])
  {
    var t := s.byInitial[o];
    assert RowFits(s, t);
  }

  lemma FoundIsTarget(s: Store, o: ObservationId)
    requires StoreOk(s) && FindByObservation(s, o).Some?
    ensures Target(s, o, FindByObservation(s, o).value)
  {
    if o in s.byInitial {
      InitialIsTarget(s, o);
    }
  }

  lemma HintIsTarget(s: Store, o: ObservationId)
    requires StoreOk(s) && o in s.observations && FindByExternalRef(s, s.observations[o].hint).Some?
    ensures Target(s, o, FindByExternalRef(s, s.observations[o].hint).value)
  {
  }

  lemma RowFitsStays(s: Store, n: Store, t: TrackId)
    requires RowsFit(s) && Grows(s, n) && t in s.tracks && n.tracks[t] == s.tracks[t]
    ensures RowFits(n, t)
  {
    assert RowFits(s, t);
    forall c | c in n.tracks[t].commits ensures CommitFits(n, t, c) {
      assert CommitFits(s, t, c);
      TargetStays(s, n, c.observation, t);
    }
  }

  // ---- statements keep the store in order ----

  /** Statements that touch neither the tracks nor their indexes. */
  lemma SameTracks(s: Store, n: Store)
    requires Indexed(s) && RowsFit(s)
    requires n.tracks == s.tracks && n.byRef == s.byRef && n.byInitial == s.byInitial
    requires Extends(s.observations, n.observations) && Extends(s.attached, n.attached) && s.processed <= n.processed
    ensures Grows(s, n) && Indexed(n) && RowsFit(n)
  {
    forall t | t in n.tracks ensures RowFits(n, t) {
      RowFitsStays(s, n, t);
    }
  }

  lemma EvidenceStays(s: Store, n: Store)
    requires Evidenced(s) && Grows(s, n)
    requires n.attached == s.attached && n.processed <= n.attached.Keys
    ensures Evidenced(n)
  {
    forall o | o in n.attached ensures Target(n, o, n.attached[o]) {
      TargetStays(s, n, o, s.attached[o]);
    }
  }

  lemma InsertKeepsStore(s: Store, o: ObservationId, u: Observation)
    requires StoreOk(s)
    ensures StoreOk(TrackStore.Insert(s, o, u)) && Grows(s, TrackStore.Insert(s, o, u))
  {
    var n := TrackStore.Insert(s, o, u);
    SameTracks(s, n);
    EvidenceStays(s, n);
  }

  lemma MarkKeepsStore(s: Store, o: ObservationId)
    requires StoreOk(s) && o in s.attached
    ensures StoreOk(MarkProcessed(s, o)) && Grows(s, MarkProcessed(s, o))
  {
    var n := MarkProcessed(s, o);
    SameTracks(s, n);
    EvidenceStays(s, n);
  }

  lemma AttachKeepsStore(s: Store, t: TrackId, o: ObservationId)
    requires StoreOk(s) && Target(s, o, t)
    ensures var (n, attached) := Attach(s, t, o);
      StoreOk(n) && Grows(s, n) && o in n.attached && n.attached[o] == t
  {
    var (n, attached) := Attach(s, t, o);
    if !attached {
      OneTarget(s, o, t, s.attached[o]);
    }
    SameTracks(s, n);
    forall p | p in n.attached ensures Target(n, p, n.attached[p]) {
      TargetStays(s, n, p, n.attached[p]);
    }
  }

  lemma CreateKeepsIndex(s: Store, id: TrackId, ref: string, o: ObservationId, at: int)
    requires Indexed(s)
    ensures Indexed(Create(s, id, ref, o, at).0)
  {
  }

  lemma CreateGrows(s: Store, id: TrackId, ref: string, o: ObservationId, at: int)
    ensures Grows(s, Create(s, id, ref, o, at).0)
  {
  }

  lemma CreateFits(s: Store, id: TrackId, o: ObservationId)
    requires RowsFit(s) && o in s.observations
    ensures var (n, how) := Create(s, id, s.observations[o].hint, o, s.observations[o].at);
      RowsFit(n) && (how.Inserted? ==> Target(n, o, id) && Genuine(n.tracks[id], Seen(s.observations[o].at, None, 0)))
  {
    var u := s.observations[o];
    var (n, how) := Create(s, id, u.hint, o, u.at);
    CreateGrows(s, id, u.hint, o, u.at);
    forall t | t in n.tracks ensures RowFits(n, t) {
      if t in s.tracks {
        RowFitsStays(s, n, t);
      }
    }
  }

  lemma CreateKeepsStore(s: Store, id: TrackId, o: ObservationId)
    requires StoreOk(s) && o in s.observations
    ensures var (n, how) := Create(s, id, s.observations[o].hint, o, s.observations[o].at);
      && StoreOk(n) && Grows(s, n)
      && (how.Inserted? ==> Target(n, o, id) && Genuine(n.tracks[id], Seen(s.observations[o].at, None, 0)))
  {
    var u := s.observations[o];
    CreateKeepsIndex(s, id, u.hint, o, u.at);
    CreateGrows(s, id, u.hint, o, u.at);
    CreateFits(s, id, o);
    EvidenceStays(s, Create(s, id, u.hint, o, u.at).0);
  }

  lemma ApplyGrows(s: Store, t: TrackId, o: ObservationId, u: Observation, seen: Seen)
    requires t in s.tracks && RowOk(s.tracks[t]) && Genuine(s.tracks[t], seen) && seen.lastSeen <= u.at
    ensures var (n, applied) := Apply(s, t, o, u.at, u.position, seen.lastSeen, Derive(seen, u));
      && Grows(s, n)
      && (applied ==> t in n.tracks && RowOk(n.tracks[t]) && n.tracks[t].lastSeen == u.at)
  {
    if Applies(s.tracks[t], u.at, seen.lastSeen) {
      AdvanceKeepsRow(s.tracks[t], o, u, seen);
    }
  }

  lemma ApplyKeepsIndex(s: Store, t: TrackId, o: ObservationId, u: Observation, expected: int, derived: Option<Motion>)
    requires Indexed(s)
    ensures Indexed(Apply(s, t, o, u.at, u.position, expected, derived).0)
  {
  }

  lemma ApplyFits(s: Store, n: Store, t: TrackId, o: ObservationId, derived: Option<Motion>)
    requires Grows(s, n) && Target(s, o, t) && RowFits(s, t) && o in s.attached && t in n.tracks
    requires n.tracks[t] == Advance(s.tracks[t], o, s.observations[o].at, s.observations[o].position, derived)
    requires RowOk(n.tracks[t])
    ensures RowFits(n, t)
  {
    forall c | c in n.tracks[t].commits ensures CommitFits(n, t, c) {
      TargetStays(s, n, o, t);
      if c in s.tracks[t].commits {
        assert CommitFits(s, t, c);
        TargetStays(s, n, c.observation, t);
      } else {
        assert c == n.tracks[t].commits[|n.tracks[t].commits| - 1];
      }
    }
  }

  lemma ApplyKeepsStore(s: Store, t: TrackId, o: ObservationId, seen: Seen)
    requires StoreOk(s) && Target(s, o, t) && o in s.attached
    requires Genuine(s.tracks[t], seen) && seen.lastSeen <= s.observations[o].at
    ensures var u := s.observations[o];
      var (n, applied) := Apply(s, t, o, u.at, u.position, seen.lastSeen, Derive(seen, u));
      StoreOk(n) && Grows(s, n)
  {
    var u := s.observations[o];
    var (n, applied) := Apply(s, t, o, u.at, u.position, seen.lastSeen, Derive(seen, u));
    assert RowFits(s, t);
    ApplyGrows(s, t, o, u, seen);
    if applied {
      ApplyKeepsIndex(s, t, o, u, seen.lastSeen, Derive(seen, u));
      EvidenceStays(s, n);
      AppliedRowsFit(s, n, t, o, Derive(seen, u));
    }
  }

  lemma AppliedRowsFit(s: Store, n: Store, t: TrackId, o: ObservationId, derived: Option<Motion>)
    requires RowsFit(s) && Grows(s, n) && Target(s, o, t) && o in s.attached
    requires n.tracks
      == s.tracks[t := Advance(s.tracks[t], o, s.observations[o].at, s.observations[o].position, derived)]
    requires RowOk(n.tracks[t])
    ensures RowsFit(n)
  {
    forall r | r in n.tracks ensures RowFits(n, r) {
      if r != t {
        RowFitsStays(s, n, r);
      } else {
        assert RowFits(s, t);
        ApplyFits(s, n, t, o, derived);
      }
    }
  }

  // ---- handlers ----

  /** Rows read one after the other, each one newer than the last. */
  ghost predicate Climbing(row: Track, looks: seq<Seen>)
  {
    && looks != []
    && (forall k | 0 <= k < |looks| :: Genuine(row, looks[k]))
    && (forall j, k | 0 <= j < k < |looks| :: looks[j].lastSeen < looks[k].lastSeen)
  }

  predicate CommittedAs(s: Store, o: ObservationId, t: TrackId, derived: Option<Motion>, version: nat)
  {
    && t in s.tracks && version < |s.tracks[t].commits|
    && s.tracks[t].commits[version].observation == o && s.tracks[t].commits[version].derived == derived
  }

  /** The track has been seen after an instant, or projected at it or after. */
  predicate Overtaken(row: Track, at: int)
  {
    at < row.lastSeen || exists c :: c in row.commits && c.at >= at
  }

  ghost predicate OutcomeOk(s: Store, o: ObservationId, outcome: Outcome)
  {
    match outcome
    case Projecting(t, derived, version) => Target(s, o, t) && o in s.attached && CommittedAs(s, o, t, derived, version)
    case Superseded(t) => Target(s, o, t) && o in s.attached && Overtaken(s.tracks[t], s.observations[o].at)
    case GaveUp(t, looks) =>
      Target(s, o, t) && o in s.attached && Climbing(s.tracks[t], looks) && |looks| == ATTEMPTS + 1
    case Ceded => o in s.attached
    case Broken => true
  }

  ghost predicate LoopOk(s: Store, o: ObservationId, t: TrackId, looks: seq<Seen>)
  {
    Target(s, o, t) && o in s.attached && Climbing(s.tracks[t], looks) && |looks| <= ATTEMPTS
    && looks[|looks| - 1].lastSeen <= s.observations[o].at
  }

  ghost predicate HandlerOk(s: Store, h: Handler)
  {
    h.o in s.observations &&
    match h.call
    case Link(t, seen) => Target(s, h.o, t) && Genuine(s.tracks[t], seen)
    case SeekOwner => h.o in s.attached
    case Try(t, looks) => LoopOk(s, h.o, t, looks)
    case Reload(t, looks) => LoopOk(s, h.o, t, looks) && Failed(s, h.o, t, looks)
    case Mark(outcome) => OutcomeOk(s, h.o, outcome) && h.o in s.attached
    case Ended(outcome) => OutcomeOk(s, h.o, outcome)
    case _ => true
  }

  /** After a projection that did not apply, the row has moved past the one expected, or something has
      already been projected at this very observation's time. */
  ghost predicate Failed(s: Store, o: ObservationId, t: TrackId, looks: seq<Seen>)
    requires LoopOk(s, o, t, looks)
  {
    || s.tracks[t].lastSeen != looks[|looks| - 1].lastSeen
    || (s.observations[o].at == looks[|looks| - 1].lastSeen && s.tracks[t].commits != [])
  }

  lemma LastSeenGrows(s: Store, n: Store, t: TrackId)
    requires StoreOk(s) && StoreOk(n) && Grows(s, n) && t in s.tracks
    ensures s.tracks[t].lastSeen <= n.tracks[t].lastSeen
  {
    var k := |s.tracks[t].commits|;
    assert RowFits(s, t) && RowFits(n, t);
    if k < |n.tracks[t].commits| {
      WatermarksRise(n.tracks[t], k, |n.tracks[t].commits|);
    }
  }

  lemma SeenIsBelow(s: Store, t: TrackId, seen: Seen)
    requires StoreOk(s) && t in s.tracks && Genuine(s.tracks[t], seen)
    ensures seen.lastSeen <= s.tracks[t].lastSeen
  {
    assert RowFits(s, t);
    if seen.version < |s.tracks[t].commits| {
      WatermarksRise(s.tracks[t], seen.version, |s.tracks[t].commits|);
    }
  }

  lemma LoopStays(s: Store, n: Store, o: ObservationId, t: TrackId, looks: seq<Seen>)
    requires StoreOk(s) && StoreOk(n) && Grows(s, n) && LoopOk(s, o, t, looks)
    ensures LoopOk(n, o, t, looks)
    ensures Failed(s, o, t, looks) ==> Failed(n, o, t, looks)
  {
    TargetStays(s, n, o, t);
    ClimbingStays(s.tracks[t], n.tracks[t], looks);
    LastSeenGrows(s, n, t);
    SeenIsBelow(s, t, looks[|looks| - 1]);
  }

  lemma ClimbingStays(row: Track, next: Track, looks: seq<Seen>)
    requires Climbing(row, looks) && RowGrows(row, next)
    ensures Climbing(next, looks)
  {
    forall k | 0 <= k < |looks| ensures Genuine(next, looks[k]) {
      GenuineStays(row, next, looks[k]);
    }
  }

  lemma ProjectingStays(s: Store, n: Store, o: ObservationId, t: TrackId, derived: Option<Motion>, version: nat)
    requires Grows(s, n) && CommittedAs(s, o, t, derived, version)
    ensures CommittedAs(n, o, t, derived, version)
  {
    assert RowGrows(s.tracks[t], n.tracks[t]);
  }

  lemma OvertakenStays(row: Track, next: Track, at: int)
    requires Overtaken(row, at) && RowGrows(row, next) && row.lastSeen <= next.lastSeen
    ensures Overtaken(next, at)
  {
  }

  lemma OutcomeStays(s: Store, n: Store, o: ObservationId, outcome: Outcome)
    requires StoreOk(s) && StoreOk(n) && Grows(s, n) && OutcomeOk(s, o, outcome)
    ensures OutcomeOk(n, o, outcome)
  {
    match outcome
    case Projecting(t, derived, version) =>
      TargetStays(s, n, o, t);
      ProjectingStays(s, n, o, t, derived, version);
    case Superseded(t) =>
      TargetStays(s, n, o, t);
      LastSeenGrows(s, n, t);
      OvertakenStays(s.tracks[t], n.tracks[t], s.observations[o].at);
    case GaveUp(t, looks) =>
      TargetStays(s, n, o, t);
      ClimbingStays(s.tracks[t], n.tracks[t], looks);
    case _ =>
  }

  lemma HandlerStays(s: Store, n: Store, h: Handler)
    requires StoreOk(s) && StoreOk(n) && Grows(s, n) && HandlerOk(s, h)
    ensures HandlerOk(n, h)
  {
    match h.call
    case Link(t, seen) => GenuineStays(s.tracks[t], n.tracks[t], seen);
    case Try(t, looks) => LoopStays(s, n, h.o, t, looks);
    case Reload(t, looks) => LoopStays(s, n, h.o, t, looks);
    case Mark(outcome) => OutcomeStays(s, n, h.o, outcome);
    case Ended(outcome) => OutcomeStays(s, n, h.o, outcome);
    case _ =>
  }
}
