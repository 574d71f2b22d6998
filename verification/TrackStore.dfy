/** The track tables, and each SQL statement the projection sends, as one atomic step. A row carries a
    history variable: the list of projections committed to it. Coordinates are reals and a derived
    speed and heading are kept as the pair of fixes they were computed from. */
module TrackStore {
  import opened Options

  type TrackId = string
  type ObservationId = string

  datatype Position = Position(lat: real, lng: real)

  /** An observation as it was stored; `hint` is empty when the source gave none. */
  datatype Observation = Observation(hint: string, at: int, position: Option<Position>)

  /** A speed and heading, named by everything they are a function of. */
  datatype Motion = Motion(from: Position, to: Position, since: int, until: int)

  datatype State = State(position: Option<Position>, motion: Option<Motion>)

  datatype Sample = Sample(at: int, position: Position, motion: Option<Motion>)

  datatype Commit = Commit(
    observation: ObservationId,
    at: int,
    position: Option<Position>,
    derived: Option<Motion>,
    seenBefore: int,
    before: Option<State>,
    after: State)

  datatype Track = Track(
    ref: string,
    initial: ObservationId,
    firstSeen: int,
    lastSeen: int,
    state: Option<State>,
    history: seq<Sample>,
    commits: seq<Commit>)

  /** byRef and byInitial are the two unique indexes on tracks; attached is keyed by the unique
      observation column of the evidence table. */
  datatype Store = Store(
    observations: map<ObservationId, Observation>,
    tracks: map<TrackId, Track>,
    byRef: map<string, TrackId>,
    byInitial: map<ObservationId, TrackId>,
    attached: map<ObservationId, TrackId>,
    processed: set<ObservationId>)

  /** What a handler knows of a track it has read. `version` is a history variable: how many
      projections had been committed when the row was read. */
  datatype Seen = Seen(lastSeen: int, position: Option<Position>, version: nat)

  function PositionOf(state: Option<State>): Option<Position>
  {
    if state.Some? then state.value.position else None
  }

  function MotionOf(state: Option<State>): Option<Motion>
  {
    if state.Some? then state.value.motion else None
  }

  function Read(t: Track): Seen
  {
    Seen(t.lastSeen, PositionOf(t.state), |t.commits|)
  }

  function FindByExternalRef(s: Store, ref: string): (r: Option<TrackId>)
    ensures r.Some? ==> r.value in s.tracks
  {
    if ref in s.byRef && s.byRef[ref] in s.tracks then Some(s.byRef[ref]) else None
  }

  /** A row that matches only by its metadata sorts before one that matches by evidence, since the
      descending sort key is null for it. */
  function FindByObservation(s: Store, o: ObservationId): (r: Option<TrackId>)
    ensures r.Some? ==> r.value in s.tracks
  {
    if o in s.byInitial && s.byInitial[o] in s.tracks then Some(s.byInitial[o])
    else if o in s.attached && s.attached[o] in s.tracks then Some(s.attached[o])
    else None
  }

  datatype Insertion = Inserted | RefTaken | Rejected

  function Create(s: Store, id: TrackId, ref: string, o: ObservationId, at: int): (Store, Insertion)
  {
    if id in s.tracks then (s, Rejected)
    else if ref != "" && ref in s.byRef then (s, RefTaken)
    else if o in s.byInitial then (s, Rejected)
    else
      (s.(tracks := s.tracks[id := Track(ref, o, at, at, None, [], [])],
          byRef := if ref == "" then s.byRef else s.byRef[ref := id],
          byInitial := s.byInitial[o := id]), Inserted)
  }

  function Attach(s: Store, t: TrackId, o: ObservationId): (Store, bool)
  {
    if o !in s.observations || o in s.attached then (s, false)
    else (s.(attached := s.attached[o := t]), true)
  }

  function Coalesce<T>(given: Option<T>, kept: Option<T>): Option<T>
  {
    if given.Some? then given else kept
  }

  /** The state after a projection: an absent position, speed or heading keeps the old one. */
  function Projected(before: Option<State>, position: Option<Position>, derived: Option<Motion>): State
  {
    if before.None? then State(position, derived)
    else State(Coalesce(position, before.value.position), Coalesce(derived, before.value.motion))
  }

  predicate Applies(t: Track, at: int, expected: int)
  {
    t.lastSeen == expected && (t.lastSeen < at || t.state.None?)
  }

  function Advance(t: Track, o: ObservationId, at: int, position: Option<Position>, derived: Option<Motion>): Track
  {
    var after := Projected(t.state, position, derived);
    t.(lastSeen := at, state := Some(after),
       history := if position.Some? then t.history + [Sample(at, position.value, derived)] else t.history,
       commits := t.commits + [Commit(o, at, position, derived, t.lastSeen, t.state, after)])
  }

  /** The compare-and-set projection, its history entry and the processed mark, in one transaction. */
  function Apply(s: Store, t: TrackId, o: ObservationId, at: int, position: Option<Position>,
                 expected: int, derived: Option<Motion>): (Store, bool)
  {
    if t !in s.tracks || !Applies(s.tracks[t], at, expected) then (s, false)
    else
      (s.(tracks := s.tracks[t := Advance(s.tracks[t], o, at, position, derived)],
          processed := s.processed + {o}), true)
  }

  function MarkProcessed(s: Store, o: ObservationId): Store
  {
    if o in s.observations then s.(processed := s.processed + {o}) else s
  }

  function Insert(s: Store, o: ObservationId, observation: Observation): Store
  {
    if o in s.observations then s else s.(observations := s.observations[o := observation])
  }

  /** The newest history sample at or before an instant. */
  function TracksAt(history: seq<Sample>, at: int): (r: Option<Sample>)
    ensures r.Some? ==> r.value in history && r.value.at <= at
    ensures r.Some? ==> forall h | h in history && h.at <= at :: h.at <= r.value.at
    ensures r.None? ==> forall h | h in history :: h.at > at
  {
    if history == [] then None
    else
      var last := history[|history| - 1];
      var rest := TracksAt(history[..|history| - 1], at);
      assert forall h | h in history :: h in history[..|history| - 1] || h == last;
      if last.at <= at && (rest.None? || last.at >= rest.value.at) then Some(last) else rest
  }
}
