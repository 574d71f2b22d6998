/** The track service as code: the tables updated in place and the handler with its bounded retry
    loop. A schedule says what other handlers do to the tables before each repository call and how
    that call comes back; under every schedule the handler is exactly the sequence of calls whose
    interleavings the safety results are about. */
module TrackService {
  import opened Options
  import opened TrackStore
  import opened TrackHandler

  /** A statement some other handler sends. */
  datatype Statement =
    | Inserting(o: ObservationId, u: Observation)
    | Creating(id: TrackId, ref: string, o: ObservationId, at: int)
    | Attaching(t: TrackId, o: ObservationId)
    | Applying(t: TrackId, o: ObservationId, at: int, position: Option<Position>, expected: int,
               derived: Option<Motion>)
    | Marking(o: ObservationId)

  datatype Turn = Turn(others: seq<Statement>, reply: Reply, id: TrackId)

  type Schedule = nat -> Turn

  function Perform(s: Store, x: Statement): Store
  {
    match x
    case Inserting(o, u) => TrackStore.Insert(s, o, u)
    case Creating(id, ref, o, at) => Create(s, id, ref, o, at).0
    case Attaching(t, o) => Attach(s, t, o).0
    case Applying(t, o, at, position, expected, derived) => Apply(s, t, o, at, position, expected, derived).0
    case Marking(o) => MarkProcessed(s, o)
  }

  function PerformAll(s: Store, xs: seq<Statement>): Store
  {
    if xs == [] then s else Perform(PerformAll(s, xs[..|xs| - 1]), xs[|xs| - 1])
  }

  /** What n turns of a schedule make of one handler. */
  function Played(s: Store, h: Handler, schedule: Schedule, n: nat): (Store, Handler)
  {
    if n == 0 then (s, h)
    else
      var (before, now) := Played(s, h, schedule, n - 1);
      var turn := schedule(n - 1);
      var mid := PerformAll(before, turn.others);
      if !Ready(mid, now) then (mid, now)
      else
        var (after, call) := Step(mid, now, turn.reply, turn.id);
        (after, now.(call := call))
  }

  lemma {:induction false} ObservationsAreKept(s: Store, xs: seq<Statement>, o: ObservationId)
    requires o in s.observations
    ensures o in PerformAll(s, xs).observations && PerformAll(s, xs).observations[o] == s.observations[o]
  {
    if xs != [] {
      ObservationsAreKept(s, xs[..|xs| - 1], o);
    }
  }

  class Repository {
    var observations: map<ObservationId, Observation>
    var tracks: map<TrackId, Track>
    var byRef: map<string, TrackId>
    var byInitial: map<ObservationId, TrackId>
    var attached: map<ObservationId, TrackId>
    var processed: set<ObservationId>
    var calls: nat
    const schedule: Schedule

    constructor (schedule: Schedule)
      ensures this.schedule == schedule && calls == 0
      ensures View() == Store(map[], map[], map[], map[], map[], {})
    {
      this.schedule := schedule;
      observations, tracks, byRef, byInitial, attached := map[], map[], map[], map[], map[];
      processed, calls := {}, 0;
    }

    function View(): Store
      reads this
    {
      Store(observations, tracks, byRef, byInitial, attached, processed)
    }

    // ---- statements ----

    method InsertObservation(o: ObservationId, u: Observation)
      modifies this`observations
      ensures View() == TrackStore.Insert(old(View()), o, u)
    {
      if o !in observations {
        observations := observations[o := u];
      }
    }

    method CreateTrack(id: TrackId, ref: string, o: ObservationId, at: int) returns (how: Insertion)
      modifies this`tracks, this`byRef, this`byInitial
      ensures (View(), how) == Create(old(View()), id, ref, o, at)
    {
      if id in tracks {
        return Rejected;
      }
      if ref != "" && ref in byRef {
        return RefTaken;
      }
      if o in byInitial {
        return Rejected;
      }
      tracks := tracks[id := Track(ref, o, at, at, None, [], [])];
      if ref != "" {
        byRef := byRef[ref := id];
      }
      byInitial := byInitial[o := id];
      how := Inserted;
    }

    method AttachObservation(t: TrackId, o: ObservationId) returns (affected: bool)
      modifies this`attached
      ensures (View(), affected) == Attach(old(View()), t, o)
    {
      affected := o in observations && o !in attached;
      if affected {
        attached := attached[o := t];
      }
    }

    /** The conditional update, then the projection, the history entry and the processed mark. */
    method ApplyObservationWithHistory(t: TrackId, o: ObservationId, at: int, position: Option<Position>,
                                       expected: int, derived: Option<Motion>) returns (applied: bool)
      modifies this`tracks, this`processed
      ensures (View(), applied) == Apply(old(View()), t, o, at, position, expected, derived)
    {
      applied := t in tracks && tracks[t].lastSeen == expected
                 && (tracks[t].lastSeen < at || tracks[t].state.None?);
      if !applied {
        return;
      }
      var row := tracks[t];
      var kept := row.state;
      var state := State(position, derived);
      if kept.Some? {
        if position.None? {
          state := state.(position := kept.value.position);
        }
        if derived.None? {
          state := state.(motion := kept.value.motion);
        }
      }
      var commit := Commit(o, at, position, derived, row.lastSeen, kept, state);
      var next := row.(lastSeen := at, state := Some(state), commits := row.commits + [commit]);
      if position.Some? {
        next := next.(history := next.history + [Sample(at, position.value, derived)]);
      }
      tracks := tracks[t := next];
      processed := processed + {o};
    }

    method MarkObservationProcessed(o: ObservationId)
      modifies this`processed
      ensures View() == MarkProcessed(old(View()), o)
    {
      if o in observations {
        processed := processed + {o};
      }
    }

    // ---- turns ----

    /** Everything others do before this call, and how the call will come back. */
    method Await() returns (turn: Turn)
      modifies this
      ensures turn == schedule(old(calls)) && calls == old(calls) + 1
      ensures View() == PerformAll(old(View()), turn.others)
    {
      turn := schedule(calls);
      calls := calls + 1;
      for k := 0 to |turn.others|
        invariant calls == old(calls) + 1
        invariant View() == PerformAll(old(View()), turn.others[..k])
      {
        assert turn.others[..k + 1][..k] == turn.others[..k];
        match turn.others[k]
        case Inserting(o, u) => InsertObservation(o, u);
        case Creating(id, ref, o, at) => var _ := CreateTrack(id, ref, o, at);
        case Attaching(t, o) => var _ := AttachObservation(t, o);
        case Applying(t, o, at, position, expected, derived) =>
          var _ := ApplyObservationWithHistory(t, o, at, position, expected, derived);
        case Marking(o) => MarkObservationProcessed(o);
      }
      assert turn.others[..|turn.others|] == turn.others;
    }

    /** The handler has come to its next call after `calls` turns since it began. */
    ghost predicate At(start: Store, began: Handler, call: Call)
      reads this
    {
      && began.o in observations
      && Played(start, began, schedule, calls) == (View(), began.(call := call))
    }

    /** The same, told in terms of the handler: whatever the call does next to the tables as they
        now stand is the step the handler takes. */
    method AwaitAt(h: Handler, ghost call: Call, ghost start: Store) returns (turn: Turn)
      requires At(start, h, call) && !call.Ended? && (call.Try? || call.Reload? ==> call.looks != [])
      modifies this
      ensures h.o in observations && observations[h.o] == old(observations[h.o])
      ensures Ready(View(), h.(call := call))
      ensures var (after, next) := Step(View(), h.(call := call), turn.reply, turn.id);
        Played(start, h, schedule, calls) == (after, h.(call := next))
    {
      turn := Await();
      ObservationsAreKept(old(View()), turn.others, h.o);
    }

    // ---- reads ----

    method FindByExternalRef(ref: string) returns (found: Option<(TrackId, Seen)>)
      ensures var id := TrackStore.FindByExternalRef(View(), ref);
        found == if id.None? then None else Some((id.value, Read(tracks[id.value])))
    {
      if ref in byRef && byRef[ref] in tracks {
        return Some((byRef[ref], Read(tracks[byRef[ref]])));
      }
      found := None;
    }

    method FindByObservationID(o: ObservationId) returns (found: Option<(TrackId, Seen)>)
      ensures var id := FindByObservation(View(), o);
        found == if id.None? then None else Some((id.value, Read(tracks[id.value])))
    {
      if o in byInitial && byInitial[o] in tracks {
        return Some((byInitial[o], Read(tracks[byInitial[o]])));
      }
      if o in attached && attached[o] in tracks {
        return Some((attached[o], Read(tracks[attached[o]])));
      }
      found := None;
    }

    // ---- the handler ----

    /** createTrack: insert, and when that fails resolve whoever won. */
    method CreateFor(h: Handler, u: Observation, ghost start: Store) returns (track: Option<(TrackId, Seen)>)
      requires At(start, h, Insert) && observations[h.o] == u
      modifies this
      ensures At(start, h, if track.None? then Ended(Broken) else Link(track.value.0, track.value.1))
      ensures h.o in observations && observations[h.o] == u
    {
      var turn := AwaitAt(h, Insert, start);
      var how := Rejected;
      if !turn.reply.Refused? {
        how := CreateTrack(turn.id, u.hint, h.o, u.at);
      }
      if turn.reply.Fine? && how.Inserted? {
        return Some((turn.id, Seen(u.at, None, 0)));
      }
      var refTaken := turn.reply.Fine? && how.RefTaken?;
      track := ResolveWinner(h, u, refTaken, start);
    }

    method ResolveWinner(h: Handler, u: Observation, refTaken: bool, ghost start: Store)
        returns (track: Option<(TrackId, Seen)>)
      requires At(start, h, SeekWinner(refTaken)) && observations[h.o] == u
      modifies this
      ensures At(start, h, if track.None? then Ended(Broken) else Link(track.value.0, track.value.1))
      ensures h.o in observations && observations[h.o] == u
    {
      var turn := AwaitAt(h, SeekWinner(refTaken), start);
      track := None;
      if turn.reply.Fine? {
        track := FindByObservationID(h.o);
      }
      if track.None? && refTaken && u.hint != "" {
        track := ResolveRefWinner(h, u, start);
      }
    }

    method ResolveRefWinner(h: Handler, u: Observation, ghost start: Store) returns (track: Option<(TrackId, Seen)>)
      requires At(start, h, SeekRefWinner) && observations[h.o] == u
      modifies this
      ensures At(start, h, if track.None? then Ended(Broken) else Link(track.value.0, track.value.1))
      ensures h.o in observations && observations[h.o] == u
    {
      var turn := AwaitAt(h, SeekRefWinner, start);
      track := None;
      if turn.reply.Fine? {
        track := FindByExternalRef(u.hint);
      }
    }

    method Correlate(h: Handler, u: Observation, ghost start: Store) returns (track: Option<(TrackId, Seen)>)
      requires At(start, h, Begin(h.o, u, h.retry).call) && observations[h.o] == u
      modifies this
      ensures At(start, h, if track.None? then Ended(Broken) else Link(track.value.0, track.value.1))
      ensures h.o in observations && observations[h.o] == u
    {
      if h.retry {
        var turn := AwaitAt(h, Begin(h.o, u, h.retry).call, start);
        if !turn.reply.Fine? {
          return None;
        }
        track := FindByObservationID(h.o);
        if track.Some? {
          return;
        }
      }
      if u.hint == "" {
        track := CreateFor(h, u, start);
      } else {
        track := FollowHint(h, u, start);
      }
    }

    method FollowHint(h: Handler, u: Observation, ghost start: Store) returns (track: Option<(TrackId, Seen)>)
      requires At(start, h, SeekReference) && observations[h.o] == u
      modifies this
      ensures At(start, h, if track.None? then Ended(Broken) else Link(track.value.0, track.value.1))
      ensures h.o in observations && observations[h.o] == u
    {
      var turn := AwaitAt(h, SeekReference, start);
      if !turn.reply.Fine? {
        return None;
      }
      track := FindByExternalRef(u.hint);
      if track.None? {
        track := CreateFor(h, u, start);
      }
    }

    /** Attaches the evidence; a retry that finds it attached goes on with the track that owns it. */
    method AttachOrResolve(h: Handler, u: Observation, track: (TrackId, Seen), ghost start: Store)
        returns (outcome: Option<Outcome>, owner: (TrackId, Seen))
      requires At(start, h, Link(track.0, track.1)) && observations[h.o] == u
      modifies this
      ensures At(start, h, if outcome.Some? then Ended(outcome.value) else Head(u, owner.0, [owner.1]))
      ensures h.o in observations && observations[h.o] == u
    {
      owner := track;
      var turn := AwaitAt(h, Link(track.0, track.1), start);
      if turn.reply.Refused? {
        return Some(Broken), owner;
      }
      var affected := AttachObservation(track.0, h.o);
      if turn.reply.Lost? {
        return Some(Broken), owner;
      }
      outcome := None;
      if !affected && !h.retry {
        outcome := Some(Ceded);
      } else if !affected {
        outcome, owner := FindOwner(h, u, owner, start);
      }
    }

    method FindOwner(h: Handler, u: Observation, track: (TrackId, Seen), ghost start: Store)
        returns (outcome: Option<Outcome>, owner: (TrackId, Seen))
      requires At(start, h, SeekOwner) && observations[h.o] == u
      modifies this
      ensures At(start, h, if outcome.Some? then Ended(outcome.value) else Head(u, owner.0, [owner.1]))
      ensures h.o in observations && observations[h.o] == u
    {
      var turn := AwaitAt(h, SeekOwner, start);
      outcome, owner := Some(Broken), track;
      if turn.reply.Fine? {
        var found := FindByObservationID(h.o);
        if found.Some? {
          outcome, owner := None, found.value;
        }
      }
    }

    /** Derives motion from the row last read and tries to commit on top of it. */
    method TryOnce(h: Handler, u: Observation, track: TrackId, looks: seq<Seen>, ghost start: Store)
        returns (outcome: Option<Outcome>)
      requires looks != [] && At(start, h, Try(track, looks)) && observations[h.o] == u
      modifies this
      ensures At(start, h,
        if outcome.None? then Reload(track, looks)
        else if outcome.value.Broken? then Ended(Broken) else Mark(outcome.value))
      ensures h.o in observations && observations[h.o] == u
    {
      var turn := AwaitAt(h, Try(track, looks), start);
      if turn.reply.Refused? {
        return Some(Broken);
      }
      outcome := Propose(h.(call := Try(track, looks)), u, turn);
    }

    /** The statement itself, which by now is known to reach the tables. */
    method Propose(h: Handler, u: Observation, turn: Turn) returns (outcome: Option<Outcome>)
      requires h.call.Try? && Ready(View(), h) && observations[h.o] == u && !turn.reply.Refused?
      modifies this`tracks, this`processed
      ensures Step(old(View()), h, turn.reply, turn.id) == (View(),
        if outcome.None? then Reload(h.call.track, h.call.looks)
        else if outcome.value.Broken? then Ended(Broken) else Mark(outcome.value))
    {
      var track, seen := h.call.track, h.call.looks[|h.call.looks| - 1];
      var derived: Option<Motion> := None;
      if u.position.Some? {
        derived := Derive(seen, u);
      }
      var applied := ApplyObservationWithHistory(track, h.o, u.at, u.position, seen.lastSeen, derived);
      if turn.reply.Lost? {
        outcome := Some(Broken);
      } else if applied {
        outcome := Some(Projecting(track, derived, |tracks[track].commits| - 1));
      } else {
        outcome := None;
      }
    }

    /** Reloads the winner after a lost race, unless it leaves nothing to do. */
    method ReloadOnce(h: Handler, u: Observation, track: TrackId, looks: seq<Seen>, ghost start: Store)
        returns (outcome: Option<Outcome>, latest: Seen)
      requires looks != [] && At(start, h, Reload(track, looks)) && observations[h.o] == u
      modifies this
      ensures At(start, h,
        if outcome.None? then Head(u, track, looks + [latest])
        else if outcome.value.Broken? then Ended(Broken) else Mark(outcome.value))
      ensures h.o in observations && observations[h.o] == u
    {
      var turn := AwaitAt(h, Reload(track, looks), start);
      var seen := looks[|looks| - 1];
      latest := seen;
      if !turn.reply.Fine? || track !in tracks {
        return Some(Broken), latest;
      }
      latest := Read(tracks[track]);
      if latest.lastSeen <= seen.lastSeen && u.at <= latest.lastSeen {
        outcome := Some(Superseded(track));
      } else {
        outcome := None;
      }
    }

    /** A failure to mark is only logged. */
    method Finish(h: Handler, u: Observation, outcome: Outcome, ghost start: Store)
      requires At(start, h, Mark(outcome)) && observations[h.o] == u
      modifies this
      ensures At(start, h, Ended(outcome))
    {
      var turn := AwaitAt(h, Mark(outcome), start);
      if !turn.reply.Refused? {
        MarkObservationProcessed(h.o);
      }
    }

    /** Up to three optimistic attempts, each on top of the row read last. */
    method Project(h: Handler, u: Observation, owner: (TrackId, Seen), ghost start: Store) returns (outcome: Outcome)
      requires At(start, h, Head(u, owner.0, [owner.1])) && observations[h.o] == u
      modifies this
      ensures At(start, h, if outcome.Broken? then Ended(Broken) else Mark(outcome))
      ensures h.o in observations && observations[h.o] == u
    {
      var track, looks := owner.0, [owner.1];
      for attempt := 0 to ATTEMPTS
        invariant |looks| == attempt + 1
        invariant At(start, h, Head(u, track, looks)) && observations[h.o] == u
      {
        if u.at < looks[|looks| - 1].lastSeen {
          return Superseded(track);
        }
        var done := TryOnce(h, u, track, looks, start);
        if done.Some? {
          return done.value;
        }
        var superseded, latest := ReloadOnce(h, u, track, looks, start);
        if superseded.Some? {
          return superseded.value;
        }
        looks := looks + [latest];
      }
      outcome := GaveUp(track, looks);
    }

    /** HandleObservationReceived. Whatever the schedule, the call ends, and it ends exactly where the
        same number of turns takes the handler of the transition system. */
    method HandleObservationReceived(o: ObservationId, u: Observation, retry: bool) returns (outcome: Outcome)
      requires o in observations && observations[o] == u && calls == 0
      modifies this
      ensures Played(old(View()), Begin(o, u, retry), schedule, calls)
        == (View(), Handler(o, retry, Ended(outcome)))
    {
      var h := Begin(o, u, retry);
      ghost var start := View();
      var track := Correlate(h, u, start);
      if track.None? {
        return Broken;
      }
      var early, owner := AttachOrResolve(h, u, track.value, start);
      if early.Some? {
        return early.value;
      }
      outcome := Project(h, u, owner, start);
      if !outcome.Broken? {
        Finish(h, u, outcome, start);
      }
    }
  }
}
