/** HandleObservationReceived as a sequence of repository calls: between any two of them anything may
    happen to the store, and any of them may fail, with or without having taken effect. */
module TrackHandler {
  import opened Options
  import opened TrackStore

  const ATTEMPTS: nat := 3

  datatype Outcome =
    | Projecting(track: TrackId, derived: Option<Motion>, version: nat)
    | Superseded(track: TrackId)
    | GaveUp(track: TrackId, looks: seq<Seen>)
    | Ceded
    | Broken

  /** The next repository call a handler makes. `looks` is every row read of the retry loop so far,
      so the attempt number is one less than its length. */
  datatype Call =
    | SeekEvidence
    | SeekReference
    | Insert
    | SeekWinner(refTaken: bool)
    | SeekRefWinner
    | Link(track: TrackId, seen: Seen)
    | SeekOwner
    | Try(track: TrackId, looks: seq<Seen>)
    | Reload(track: TrackId, looks: seq<Seen>)
    | Mark(outcome: Outcome)
    | Ended(outcome: Outcome)

  datatype Handler = Handler(o: ObservationId, retry: bool, call: Call)

  /** How a call came back. A lost reply reports an error although the statement took effect. */
  datatype Reply = Fine | Refused | Lost

  /** The derived speed and heading of an update, from the row the handler has read. */
  function Derive(seen: Seen, u: Observation): Option<Motion>
  {
    if seen.position.None? || u.position.None? || u.at <= seen.lastSeen then None
    else Some(Motion(seen.position.value, u.position.value, seen.lastSeen, u.at))
  }

  function Uncorrelated(u: Observation): Call
  {
    if u.hint == "" then Insert else SeekReference
  }

  function Begin(o: ObservationId, u: Observation, retry: bool): Handler
  {
    Handler(o, retry, if retry then SeekEvidence else Uncorrelated(u))
  }

  /** The head of the retry loop, after the row has been read one more time. */
  function Head(u: Observation, track: TrackId, looks: seq<Seen>): Call
    requires looks != []
  {
    if |looks| > ATTEMPTS then Mark(GaveUp(track, looks))
    else if u.at < looks[|looks| - 1].lastSeen then Mark(Superseded(track))
    else Try(track, looks)
  }

  function Linked(s: Store, t: TrackId): Call
    requires t in s.tracks
  {
    Link(t, Read(s.tracks[t]))
  }

  function DoLink(s: Store, h: Handler, u: Observation, reply: Reply): (Store, Call)
    requires h.call.Link?
  {
    var (next, attached) := Attach(s, h.call.track, h.o);
    if reply.Lost? then (next, Ended(Broken))
    else if attached then (next, Head(u, h.call.track, [h.call.seen]))
    else if h.retry then (next, SeekOwner)
    else (next, Ended(Ceded))
  }

  function DoTry(s: Store, h: Handler, u: Observation, reply: Reply): (Store, Call)
    requires h.call.Try? && h.call.looks != []
  {
    var seen := h.call.looks[|h.call.looks| - 1];
    var derived := Derive(seen, u);
    var (next, applied) := Apply(s, h.call.track, h.o, u.at, u.position, seen.lastSeen, derived);
    if reply.Lost? then (next, Ended(Broken))
    else if !applied then (next, Reload(h.call.track, h.call.looks))
    else (next, Mark(Projecting(h.call.track, derived, |next.tracks[h.call.track].commits| - 1)))
  }

  function DoReload(s: Store, h: Handler, u: Observation): Call
    requires h.call.Reload? && h.call.looks != []
  {
    var t, seen := h.call.track, h.call.looks[|h.call.looks| - 1];
    if t !in s.tracks then Ended(Broken)
    else
      var latest := Read(s.tracks[t]);
      if latest.lastSeen <= seen.lastSeen && u.at <= latest.lastSeen then Mark(Superseded(t))
      else Head(u, t, h.call.looks + [latest])
  }

  /** A failed lookup ends the handler, except while it is looking for the winner of an insert it
      lost: there every failure moves on to the next place to look. */
  function DoRefused(h: Handler, u: Observation): Call
  {
    match h.call
    case SeekWinner(true) => if u.hint != "" then SeekRefWinner else Ended(Broken)
    case Insert => SeekWinner(false)
    case Mark(outcome) => Ended(outcome)
    case _ => Ended(Broken)
  }

  predicate Ready(s: Store, h: Handler)
  {
    && h.o in s.observations && !h.call.Ended?
    && (h.call.Try? || h.call.Reload? ==> h.call.looks != [])
  }

  /** One repository call; `id` is the identifier an insert would use. */
  function Step(s: Store, h: Handler, reply: Reply, id: TrackId): (r: (Store, Call))
    requires Ready(s, h)
    ensures r.1.Try? || r.1.Reload? ==> r.1.looks != []
  {
    var u := s.observations[h.o];
    if reply.Refused? then (s, DoRefused(h, u))
    else
      match h.call
      case SeekEvidence =>
        var found := FindByObservation(s, h.o);
        (s, if reply.Lost? then Ended(Broken) else if found.None? then Uncorrelated(u) else Linked(s, found.value))
      case SeekReference =>
        var found := FindByExternalRef(s, u.hint);
        (s, if reply.Lost? then Ended(Broken) else if found.None? then Insert else Linked(s, found.value))
      case Insert =>
        var (next, how) := Create(s, id, u.hint, h.o, u.at);
        (next, if how.Inserted? && reply.Fine? then Link(id, Seen(u.at, None, 0))
               else SeekWinner(how.RefTaken? && reply.Fine?))
      case SeekWinner(refTaken) =>
        var found := FindByObservation(s, h.o);
        (s, if found.Some? && reply.Fine? then Linked(s, found.value)
            else if refTaken && u.hint != "" then SeekRefWinner
            else Ended(Broken))
      case SeekRefWinner =>
        var found := FindByExternalRef(s, u.hint);
        (s, if reply.Lost? || found.None? then Ended(Broken) else Linked(s, found.value))
      case Link(_, _) => DoLink(s, h, u, reply)
      case SeekOwner =>
        var found := FindByObservation(s, h.o);
        (s, if reply.Lost? || found.None? then Ended(Broken)
            else Head(u, found.value, [Read(s.tracks[found.value])]))
      case Try(_, _) => DoTry(s, h, u, reply)
      case Reload(_, _) => (s, if reply.Lost? then Ended(Broken) else DoReload(s, h, u))
      case Mark(outcome) => (MarkProcessed(s, h.o), Ended(outcome))
  }
}
