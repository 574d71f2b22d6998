/** Telemetry ingestion as code, over tables that other handlers change between any two of its calls. */
module TelemetryService {
  import opened Options
  import opened Telemetry

  datatype Statement =
    | Inserting(message: string)
    | Ensuring(asset: AssetId)
    | Applying(sample: Sample, update: State, expected: Option<int>, announced: Option<string>, lost: bool)

  /** What others do before a call, and how the call comes back. */
  datatype Turn = Turn(others: seq<Statement>, reply: Reply)

  type Schedule = nat -> Turn

  function Perform(s: Store, x: Statement): Store
  {
    match x
    case Inserting(message) => Insert(s, message).0
    case Ensuring(asset) => Ensure(s, asset)
    case Applying(sample, update, expected, announced, lost) => Apply(s, sample, update, expected, announced, lost).0
  }

  function PerformAll(s: Store, xs: seq<Statement>): Store
  {
    if xs == [] then s else Perform(PerformAll(s, xs[..|xs| - 1]), xs[|xs| - 1])
  }

  function Played(s: Store, h: Handler, schedule: Schedule, n: nat): (Store, Handler)
  {
    if n == 0 then (s, h)
    else
      var (before, now) := Played(s, h, schedule, n - 1);
      var mid := PerformAll(before, schedule(n - 1).others);
      if now.call.Ended? then (mid, now)
      else
        var (after, call) := Step(mid, now, schedule(n - 1).reply);
        (after, now.(call := call))
  }

  class Repository {
    var rows: map<AssetId, Row>
    var messages: set<string>
    var calls: nat
    const schedule: Schedule

    constructor (schedule: Schedule)
      ensures this.schedule == schedule && calls == 0 && View() == Store(map[], {})
    {
      this.schedule := schedule;
      rows, messages, calls := map[], {}, 0;
    }

    function View(): Store
      reads this
    {
      Store(rows, messages)
    }

    method CreateTelemetry(message: string) returns (created: bool)
      modifies this`messages
      ensures (View(), created) == Insert(old(View()), message)
    {
      created := message == "" || message !in messages;
      if created && message != "" {
        messages := messages + {message};
      }
    }

    method EnsureAssetState(asset: AssetId)
      modifies this`rows
      ensures View() == Ensure(old(View()), asset)
    {
      if asset !in rows {
        rows := rows[asset := Row(UNSEEN, [])];
      }
    }

    /** `announced` and `lost` only go to the history variable. */
    method UpsertAssetState(sample: Sample, update: State, expected: Option<int>, announced: Option<string>, lost: bool)
        returns (applied: bool)
      modifies this`rows
      ensures (View(), applied) == Apply(old(View()), sample, update, expected, announced, lost)
    {
      var row := Row(update, [Commit(sample, UNSEEN, update, announced, lost)]);
      if sample.asset in rows {
        var current := rows[sample.asset].state;
        if current.lastSeen != expected || (current.lastSeen.Some? && current.lastSeen.value >= sample.at) {
          return false;
        }
        var state := update;
        if update.position.None? {
          state := state.(position := current.position);
        }
        if update.speed.None? {
          state := state.(speed := current.speed);
        }
        if update.heading.None? {
          state := state.(heading := current.heading);
        }
        row := Row(state, rows[sample.asset].commits + [Commit(sample, current, state, announced, lost)]);
      }
      rows := rows[sample.asset := row];
      applied := true;
    }

    /** Everything others do before this call, and how the call will come back. */
    method Await() returns (turn: Turn)
      modifies this
      ensures turn == schedule(old(calls)) && calls == old(calls) + 1
      ensures View() == PerformAll(old(View()), turn.others)
    {
      turn := schedule(calls);
      calls := calls + 1;
      for k := 0 to |turn.others|
        invariant calls == old(calls) + 1
        invariant View() == PerformAll(old(View()), turn.others[..k])
      {
        assert turn.others[..k + 1][..k] == turn.others[..k];
        match turn.others[k]
        case Inserting(message) => var _ := CreateTelemetry(message);
        case Ensuring(asset) => EnsureAssetState(asset);
        case Applying(sample, update, expected, announced, lost) =>
          var _ := UpsertAssetState(sample, update, expected, announced, lost);
      }
      assert turn.others[..|turn.others|] == turn.others;
    }

    ghost predicate At(start: Store, sample: Sample, call: Call)
      reads this
    {
      Played(start, Handler(sample, Creating), schedule, calls) == (View(), Handler(sample, call))
    }

    /** A turn told in terms of the handler: what the call does next to the tables as they now stand is
        the step the handler takes. */
    method AwaitAt(sample: Sample, ghost call: Call, ghost start: Store) returns (turn: Turn)
      requires At(start, sample, call) && !call.Ended?
      modifies this
      ensures var (after, next) := Step(View(), Handler(sample, call), turn.reply);
        Played(start, Handler(sample, Creating), schedule, calls) == (after, Handler(sample, next))
    {
      turn := Await();
    }

    /** The snapshot of one attempt: the row is created when it is missing, then read. */
    method StateSnapshot(sample: Sample, ghost attempt: nat, ghost stale: bool, ghost start: Store)
        returns (seen: Option<State>)
      requires At(start, sample, Call.Ensuring(attempt, stale))
      modifies this
      ensures At(start, sample, if seen.None? then Ended(Failed) else Loaded(sample, attempt, stale, seen.value))
    {
      var turn := AwaitAt(sample, Call.Ensuring(attempt, stale), start);
      if turn.reply.Refused? {
        return None;
      }
      EnsureAssetState(sample.asset);
      if turn.reply.Lost? {
        return None;
      }
      turn := AwaitAt(sample, Loading(attempt, stale), start);
      if !turn.reply.Fine? || sample.asset !in rows {
        return None;
      }
      seen := Some(rows[sample.asset].state);
    }

    /** deriveKinematics: fills in a missing speed or heading where the predecessor allows it. */
    method DeriveKinematics(update: State, sample: Sample, seen: State) returns (filled: State)
      requires update.speed == sample.speed && update.heading == sample.heading
      ensures filled == update.(speed := Filled(sample.speed, sample, seen),
                                heading := Filled(sample.heading, sample, seen))
    {
      filled := update;
      if update.speed.Some? && update.heading.Some? {
        return;
      }
      if sample.position.None? || seen.position.None? || seen.lastSeen.None? {
        return;
      }
      if sample.at - seen.lastSeen.value <= 0 {
        return;
      }
      if update.speed.None? {
        filled := filled.(speed := Some(Derive(sample, seen)));
      }
      if update.heading.None? {
        filled := filled.(heading := Some(Derive(sample, seen)));
      }
    }

    method UpdateOf(sample: Sample, seen: State) returns (update: State)
      ensures update == Update(sample, seen)
    {
      update := State(sample.position, sample.speed, sample.heading, sample.connection, Some(sample.at));
      update := DeriveKinematics(update, sample, seen);
      if update.connection == "" {
        update := update.(connection := "connected");
      }
    }

    /** One attempt to apply the sample on top of the state just read. */
    method ApplyOnce(sample: Sample, seen: State, ghost attempt: nat, ghost stale: bool, ghost start: Store)
        returns (failed: bool, applied: bool)
      requires At(start, sample, Call.Applying(attempt, stale, seen))
      modifies this
      ensures At(start, sample,
        if failed then Ended(Failed) else if applied then Ended(Done(false, true)) else Head(attempt + 1, true))
    {
      var turn := AwaitAt(sample, Call.Applying(attempt, stale, seen), start);
      if turn.reply.Refused? {
        return true, false;
      }
      var update := UpdateOf(sample, seen);
      var announced := if seen.connection != update.connection then Some(update.connection) else None;
      applied := UpsertAssetState(sample, update, seen.lastSeen, announced, !turn.reply.Fine?);
      failed := turn.reply.Lost?;
    }

    /** Ingest. Whatever the schedule, the call ends where the same turns take the handler. */
    method Ingest(sample: Sample) returns (result: Result)
      requires calls == 0
      modifies this
      ensures Played(old(View()), Handler(sample, Creating), schedule, calls)
        == (View(), Handler(sample, Ended(result)))
    {
      ghost var start := View();
      var turn := AwaitAt(sample, Creating, start);
      if turn.reply.Refused? {
        return Failed;
      }
      var created := CreateTelemetry(sample.message);
      if turn.reply.Lost? {
        return Failed;
      }
      if !created {
        return Duplicate;
      }
      var stale := false;
      for attempt := 0 to ATTEMPTS
        invariant At(start, sample, Head(attempt, stale))
      {
        var seen := StateSnapshot(sample, attempt, stale, start);
        if seen.None? {
          return Failed;
        }
        if seen.value.lastSeen.Some? && sample.at < seen.value.lastSeen.value {
          return Done(true, false);
        }
        var failed, applied := ApplyOnce(sample, seen.value, attempt, stale, start);
        if failed {
          return Failed;
        }
        if applied {
          return Done(false, true);
        }
        stale := true;
      }
      result := Done(stale, false);
    }
  }
}
