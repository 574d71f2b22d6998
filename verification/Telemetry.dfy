/** Telemetry ingestion: the asset-state projection and its compare-and-set loop, one repository call
    at a time. Each row carries the list of samples applied to it as a history variable. */
module Telemetry {
  import opened Options

  type AssetId = string

  datatype Position = Position(lat: real, lng: real)

  /** A speed or a heading: reported by the sample, or a function of two fixes. */
  datatype Quantity = Reported(value: real) | Derived(from: Position, to: Position, since: int, until: int)

  datatype Sample = Sample(
    message: string,
    asset: AssetId,
    at: int,
    position: Option<Position>,
    speed: Option<Quantity>,
    heading: Option<Quantity>,
    connection: string)

  datatype State = State(
    position: Option<Position>,
    speed: Option<Quantity>,
    heading: Option<Quantity>,
    connection: string,
    lastSeen: Option<int>)

  /** `announced` is the connection change the handler publishes; `lost` marks a commit whose reply
      never reached the handler, so that nothing was published. */
  datatype Commit = Commit(sample: Sample, before: State, after: State, announced: Option<string>, lost: bool)

  datatype Row = Row(state: State, commits: seq<Commit>)

  datatype Store = Store(rows: map<AssetId, Row>, messages: set<string>)

  const UNSEEN: State := State(None, None, None, "unknown", None)

  function Insert(s: Store, message: string): (Store, bool)
  {
    if message == "" then (s, true)
    else if message in s.messages then (s, false)
    else (s.(messages := s.messages + {message}), true)
  }

  function Ensure(s: Store, asset: AssetId): Store
  {
    if asset in s.rows then s else s.(rows := s.rows[asset := Row(UNSEEN, [])])
  }

  function Coalesce<T>(given: Option<T>, kept: Option<T>): Option<T>
  {
    if given.Some? then given else kept
  }

  function Updated(before: State, update: State): State
  {
    State(Coalesce(update.position, before.position), Coalesce(update.speed, before.speed),
          Coalesce(update.heading, before.heading), update.connection, update.lastSeen)
  }

  /** The conditional upsert: the watermark is the expected one, and the sample moves it forward. */
  predicate Applies(state: State, at: int, expected: Option<int>)
  {
    state.lastSeen == expected && (state.lastSeen.None? || state.lastSeen.value < at)
  }

  function Apply(s: Store, sample: Sample, update: State, expected: Option<int>,
                 announced: Option<string>, lost: bool): (Store, bool)
  {
    if sample.asset !in s.rows then
      (s.(rows := s.rows[sample.asset := Row(update, [Commit(sample, UNSEEN, update, announced, lost)])]), true)
    else
      var row := s.rows[sample.asset];
      if !Applies(row.state, sample.at, expected) then (s, false)
      else
        var after := Updated(row.state, update);
        (s.(rows := s.rows[sample.asset :=
              Row(after, row.commits + [Commit(sample, row.state, after, announced, lost)])]), true)
  }

  // ---- the handler ----

  predicate Derivable(sample: Sample, seen: State)
  {
    sample.position.Some? && seen.position.Some? && seen.lastSeen.Some? && seen.lastSeen.value < sample.at
  }

  function Derive(sample: Sample, seen: State): Quantity
    requires Derivable(sample, seen)
  {
    Derived(seen.position.value, sample.position.value, seen.lastSeen.value, sample.at)
  }

  function Filled(given: Option<Quantity>, sample: Sample, seen: State): Option<Quantity>
  {
    if given.None? && Derivable(sample, seen) then Some(Derive(sample, seen)) else given
  }

  function Connection(sample: Sample): string
  {
    if sample.connection == "" then "connected" else sample.connection
  }

  /** The update a sample makes on top of the state read: reported quantities as they are, missing
      ones derived from the predecessor where that is possible. */
  function Update(sample: Sample, seen: State): State
  {
    State(sample.position, Filled(sample.speed, sample, seen), Filled(sample.heading, sample, seen),
          Connection(sample), Some(sample.at))
  }

  function Announcement(sample: Sample, seen: State): Option<string>
  {
    if seen.connection != Connection(sample) then Some(Connection(sample)) else None
  }

  datatype Result = Failed | Duplicate | Done(stale: bool, stateUpdated: bool)

  datatype Call =
    | Creating
    | Ensuring(attempt: nat, stale: bool)
    | Loading(attempt: nat, stale: bool)
    | Applying(attempt: nat, stale: bool, seen: State)
    | Ended(result: Result)

  datatype Handler = Handler(sample: Sample, call: Call)

  datatype Reply = Fine | Refused | Lost

  const ATTEMPTS: nat := 3

  function Head(attempt: nat, stale: bool): Call
  {
    if attempt < ATTEMPTS then Ensuring(attempt, stale) else Ended(Done(stale, false))
  }

  function Loaded(sample: Sample, attempt: nat, stale: bool, seen: State): Call
  {
    if seen.lastSeen.Some? && sample.at < seen.lastSeen.value then Ended(Done(true, false))
    else Applying(attempt, stale, seen)
  }

  function DoApply(s: Store, h: Handler, reply: Reply): (Store, Call)
    requires h.call.Applying?
  {
    var seen := h.call.seen;
    var (next, applied) := Apply(s, h.sample, Update(h.sample, seen), seen.lastSeen,
                                 Announcement(h.sample, seen), !reply.Fine?);
    if reply.Lost? then (next, Ended(Failed))
    else if applied then (next, Ended(Done(false, true)))
    else (next, Head(h.call.attempt + 1, true))
  }

  function Step(s: Store, h: Handler, reply: Reply): (Store, Call)
    requires !h.call.Ended?
  {
    if reply.Refused? then (s, Ended(Failed))
    else
      match h.call
      case Creating =>
        var (next, created) := Insert(s, h.sample.message);
        (next, if reply.Lost? then Ended(Failed) else if created then Head(0, false) else Ended(Duplicate))
      case Ensuring(attempt, stale) =>
        (Ensure(s, h.sample.asset), if reply.Lost? then Ended(Failed) else Loading(attempt, stale))
      case Loading(attempt, stale) =>
        (s, if reply.Lost? || h.sample.asset !in s.rows then Ended(Failed)
            else Loaded(h.sample, attempt, stale, s.rows[h.sample.asset].state))
      case Applying(_, _, _) => DoApply(s, h, reply)
  }
}
