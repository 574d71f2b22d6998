/** What holds of every asset in every interleaving of telemetry handlers. */
module TelemetryResults {
  import opened Options
  import opened Telemetry

  datatype World = World(store: Store, handlers: seq<Handler>)

  datatype Turn = Ingest(sample: Sample) | Move(i: nat, reply: Reply)

  predicate Enabled(w: World, turn: Turn)
  {
    turn.Move? ==> turn.i < |w.handlers| && !w.handlers[turn.i].call.Ended?
  }

  function Next(w: World, turn: Turn): World
    requires Enabled(w, turn)
  {
    match turn
    case Ingest(sample) => w.(handlers := w.handlers + [Handler(sample, Creating)])
    case Move(i, reply) =>
      var (store, call) := Step(w.store, w.handlers[i], reply);
      World(store, w.handlers[i := w.handlers[i].(call := call)])
  }

  predicate Run(w: World, turns: seq<Turn>, end: World)
    decreases |turns|
  {
    if turns == [] then w == end
    else Enabled(w, turns[0]) && Run(Next(w, turns[0]), turns[1..], end)
  }

  const EMPTY: World := World(Store(map[], {}), [])

  // ---- one row ----

  function StateAt(row: Row, k: nat): State
    requires k <= |row.commits|
  {
    if k == 0 then UNSEEN else row.commits[k - 1].after
  }

  /** Each applied sample moves the watermark forward, and everything it wrote was computed from the
      state its immediate predecessor left. */
  ghost predicate CommitOk(row: Row, k: nat)
    requires k < |row.commits|
  {
    var c := row.commits[k];
    && c.before == StateAt(row, k)
    && (k > 0 ==> c.before.lastSeen.Some? && c.before.lastSeen.value < c.sample.at)
    && c.after == Updated(c.before, Update(c.sample, c.before))
    && c.announced == Announcement(c.sample, c.before)
  }

  ghost predicate RowOk(row: Row)
  {
    && (forall k {:trigger CommitOk(row, k)} | 0 <= k < |row.commits| :: CommitOk(row, k))
    && row.state == StateAt(row, |row.commits|)
  }

  ghost predicate Genuine(row: Row, seen: State)
  {
    exists k | 0 <= k <= |row.commits| :: seen == StateAt(row, k)
  }

  lemma {:induction false} WatermarksRise(row: Row, j: nat, k: nat)
    requires RowOk(row) && j < k <= |row.commits|
    ensures StateAt(row, k).lastSeen.Some?
    ensures j > 0 ==> StateAt(row, j).lastSeen.Some? && StateAt(row, j).lastSeen.value < StateAt(row, k).lastSeen.value
    ensures StateAt(row, j).lastSeen != StateAt(row, k).lastSeen
    decreases k
  {
    assert CommitOk(row, k - 1);
    if j < k - 1 {
      WatermarksRise(row, j, k - 1);
    }
  }

  /** A matching watermark means the row is still the one that was read. */
  lemma MatchingWatermark(row: Row, seen: State)
    requires RowOk(row) && Genuine(row, seen) && seen.lastSeen == row.state.lastSeen
    ensures seen == row.state
  {
    var k :| 0 <= k <= |row.commits| && seen == StateAt(row, k);
    if k < |row.commits| {
      WatermarksRise(row, k, |row.commits|);
    }
  }

  lemma AppendKeepsRow(row: Row, sample: Sample, lost: bool)
    requires RowOk(row) && Applies(row.state, sample.at, row.state.lastSeen)
    ensures var after := Updated(row.state, Update(sample, row.state));
      RowOk(Row(after, row.commits + [Commit(sample, row.state, after, Announcement(sample, row.state), lost)]))
  {
    var after := Updated(row.state, Update(sample, row.state));
    var next := Row(after, row.commits + [Commit(sample, row.state, after, Announcement(sample, row.state), lost)]);
    forall k | 0 <= k < |next.commits| ensures CommitOk(next, k) {
      if k < |row.commits| {
        assert CommitOk(row, k);
      } else if k > 0 {
        assert CommitOk(row, k - 1);
      }
    }
  }

  lemma GenuineStays(row: Row, next: Row, seen: State)
    requires Genuine(row, seen) && row.commits <= next.commits
    ensures Genuine(next, seen)
  {
    var k :| 0 <= k <= |row.commits| && seen == StateAt(row, k);
    assert seen == StateAt(next, k);
  }

  // ---- every run ----

  ghost predicate StoreOk(s: Store)
  {
    forall a {:trigger RowOk(s.rows[a])} | a in s.rows :: RowOk(s.rows[a])
  }

  predicate Grows(s: Store, n: Store)
  {
    forall a | a in s.rows :: a in n.rows && s.rows[a].commits <= n.rows[a].commits
  }

  ghost predicate HandlerOk(s: Store, h: Handler)
  {
    match h.call
    case Ensuring(attempt, stale) =>
      attempt < ATTEMPTS && stale == (attempt > 0) && (stale ==> Overtaken(s, h.sample, attempt))
    case Loading(attempt, stale) =>
      && attempt < ATTEMPTS && stale == (attempt > 0) && (stale ==> Overtaken(s, h.sample, attempt))
      && h.sample.asset in s.rows
    case Applying(attempt, stale, seen) =>
      && attempt < ATTEMPTS && stale == (attempt > 0)
      && h.sample.asset in s.rows && Genuine(s.rows[h.sample.asset], seen)
      && (Late(s, h.sample) || Recent(s.rows[h.sample.asset], seen, attempt))
    case Ended(Done(stale, stateUpdated)) =>
      && stale == !stateUpdated && (stateUpdated ==> Carried(s, h.sample))
      && (stale ==> Overtaken(s, h.sample, ATTEMPTS))
    case _ => true
  }

  /** The asset has been seen at the time of the sample or later. */
  predicate Late(s: Store, sample: Sample)
  {
    && sample.asset in s.rows && s.rows[sample.asset].state.lastSeen.Some?
    && sample.at <= s.rows[sample.asset].state.lastSeen.value
  }

  predicate Overtaken(s: Store, sample: Sample, attempts: nat)
  {
    Late(s, sample) || (sample.asset in s.rows && |s.rows[sample.asset].commits| >= attempts)
  }

  /** A state read when that many samples at least had been applied. */
  ghost predicate Recent(row: Row, seen: State, attempts: nat)
  {
    exists k :: attempts <= k <= |row.commits| && seen == StateAt(row, k)
  }

  /** The sample is among those applied to its asset. */
  ghost predicate Carried(s: Store, sample: Sample)
  {
    sample.asset in s.rows && exists c :: c in s.rows[sample.asset].commits && c.sample == sample
  }

  lemma LateStays(s: Store, n: Store, sample: Sample)
    requires StoreOk(s) && StoreOk(n) && Grows(s, n) && Late(s, sample)
    ensures Late(n, sample)
  {
    var row, next := s.rows[sample.asset], n.rows[sample.asset];
    assert RowOk(row) && RowOk(next);
    assert StateAt(next, |row.commits|) == row.state;
    if |row.commits| < |next.commits| {
      WatermarksRise(next, |row.commits|, |next.commits|);
    }
  }

  lemma OvertakenStays(s: Store, n: Store, sample: Sample, attempts: nat)
    requires StoreOk(s) && StoreOk(n) && Grows(s, n) && Overtaken(s, sample, attempts)
    ensures Overtaken(n, sample, attempts)
  {
    if Late(s, sample) {
      LateStays(s, n, sample);
    }
  }

  lemma RecentStays(row: Row, next: Row, seen: State, attempts: nat)
    requires Recent(row, seen, attempts) && row.commits <= next.commits
    ensures Recent(next, seen, attempts)
  {
    var k :| attempts <= k <= |row.commits| && seen == StateAt(row, k);
    assert seen == StateAt(next, k);
  }

  lemma HandlerStays(s: Store, n: Store, h: Handler)
    requires StoreOk(s) && StoreOk(n) && Grows(s, n) && HandlerOk(s, h)
    ensures HandlerOk(n, h)
  {
    match h.call
    case Ensuring(attempt, stale) =>
      if stale {
        OvertakenStays(s, n, h.sample, attempt);
      }
    case Loading(attempt, stale) =>
      if stale {
        OvertakenStays(s, n, h.sample, attempt);
      }
    case Applying(attempt, stale, seen) =>
      GenuineStays(s.rows[h.sample.asset], n.rows[h.sample.asset], seen);
      if Late(s, h.sample) {
        LateStays(s, n, h.sample);
      } else {
        RecentStays(s.rows[h.sample.asset], n.rows[h.sample.asset], seen, attempt);
      }
    case Ended(Done(stale, _)) =>
      if stale {
        OvertakenStays(s, n, h.sample, ATTEMPTS);
      }
    case _ =>
  }

  /** A projection that does not apply has been overtaken once more. */
  lemma RefusedIsOvertaken(s: Store, sample: Sample, seen: State, attempt: nat)
    requires sample.asset in s.rows && RowOk(s.rows[sample.asset])
    requires Late(s, sample) || Recent(s.rows[sample.asset], seen, attempt)
    requires !Applies(s.rows[sample.asset].state, sample.at, seen.lastSeen)
    ensures Overtaken(s, sample, attempt + 1)
  {
    var row := s.rows[sample.asset];
    if !Late(s, sample) {
      var k :| attempt <= k <= |row.commits| && seen == StateAt(row, k);
      assert k != |row.commits|;
    }
  }

  lemma ApplyStep(s: Store, h: Handler, reply: Reply)
    requires StoreOk(s) && HandlerOk(s, h) && h.call.Applying?
    ensures var (n, call) := DoApply(s, h, reply);
      StoreOk(n) && Grows(s, n) && HandlerOk(n, h.(call := call))
  {
    var (n, call) := DoApply(s, h, reply);
    var asset, seen := h.sample.asset, h.call.seen;
    var row := s.rows[asset];
    assert RowOk(row);
    if Applies(row.state, h.sample.at, seen.lastSeen) {
      MatchingWatermark(row, seen);
      AppendKeepsRow(row, h.sample, !reply.Fine?);
      assert n.rows[asset].commits[|row.commits|].sample == h.sample;
    } else {
      RefusedIsOvertaken(s, h.sample, seen, h.call.attempt);
    }
    forall a | a in n.rows ensures RowOk(n.rows[a]) {
      if a != asset {
        assert RowOk(s.rows[a]);
      }
    }
  }

  lemma EnsureStep(s: Store, asset: AssetId)
    requires StoreOk(s)
    ensures StoreOk(Ensure(s, asset)) && Grows(s, Ensure(s, asset))
  {
    var n := Ensure(s, asset);
    forall a | a in n.rows ensures RowOk(n.rows[a]) {
      if a in s.rows {
        assert RowOk(s.rows[a]);
      }
    }
  }

  lemma LoadStep(s: Store, h: Handler, reply: Reply)
    requires StoreOk(s) && HandlerOk(s, h) && h.call.Loading?
    ensures HandlerOk(s, h.(call := Step(s, h, reply).1))
  {
    var row := s.rows[h.sample.asset];
    assert RowOk(row);
    assert row.state == StateAt(row, |row.commits|);
  }

  lemma SameRows(s: Store, n: Store)
    requires StoreOk(s) && n.rows == s.rows
    ensures StoreOk(n) && Grows(s, n)
  {
    forall a | a in n.rows ensures RowOk(n.rows[a]) {
      assert RowOk(s.rows[a]);
    }
  }

  lemma StepOk(s: Store, h: Handler, reply: Reply)
    requires StoreOk(s) && HandlerOk(s, h) && !h.call.Ended?
    ensures var (n, call) := Step(s, h, reply);
      StoreOk(n) && Grows(s, n) && HandlerOk(n, h.(call := call))
  {
    match h.call
    case Creating => SameRows(s, Insert(s, h.sample.message).0);
    case Ensuring(_, _) => EnsureStep(s, h.sample.asset);
    case Loading(_, _) => LoadStep(s, h, reply);
    case Applying(_, _, _) => ApplyStep(s, h, reply);
  }

  ghost predicate WorldOk(w: World)
  {
    && StoreOk(w.store)
    && forall i {:trigger HandlerOk(w.store, w.handlers[i])} | 0 <= i < |w.handlers| ::
         HandlerOk(w.store, w.handlers[i])
  }

  lemma TurnKeepsWorld(w: World, turn: Turn)
    requires WorldOk(w) && Enabled(w, turn)
    ensures WorldOk(Next(w, turn)) && Grows(w.store, Next(w, turn).store)
  {
    var n := Next(w, turn);
    if turn.Move? {
      StepOk(w.store, w.handlers[turn.i], turn.reply);
    }
    forall j | 0 <= j < |n.handlers| ensures HandlerOk(n.store, n.handlers[j]) {
      if j < |w.handlers| && (turn.Ingest? || j != turn.i) {
        HandlerStays(w.store, n.store, w.handlers[j]);
      }
    }
  }

  lemma {:induction false} RunKeepsWorld(w: World, turns: seq<Turn>, end: World)
    requires WorldOk(w) && Run(w, turns, end)
    ensures WorldOk(end) && Grows(w.store, end.store)
    decreases |turns|
  {
    if turns != [] {
      TurnKeepsWorld(w, turns[0]);
      RunKeepsWorld(Next(w, turns[0]), turns[1..], end);
      assert forall a | a in w.store.rows ::
        w.store.rows[a].commits <= Next(w, turns[0]).store.rows[a].commits <= end.store.rows[a].commits;
    }
  }

  lemma {:induction false} ReachableRow(turns: seq<Turn>, w: World, a: AssetId)
    requires Run(EMPTY, turns, w) && a in w.store.rows
    ensures RowOk(w.store.rows[a])
  {
    RunKeepsWorld(EMPTY, turns, w);
    assert RowOk(w.store.rows[a]);
  }

  // ---- results ----

  /** last_seen_at strictly increases with every applied sample. */
  lemma {:induction false} LastSeenStrictlyIncreases(turns: seq<Turn>, w: World, a: AssetId, j: nat, k: nat)
    requires Run(EMPTY, turns, w) && a in w.store.rows && j < k < |w.store.rows[a].commits|
    ensures var commits := w.store.rows[a].commits;
      && commits[j].sample.at < commits[k].sample.at
      && w.store.rows[a].state.lastSeen == Some(commits[|commits| - 1].sample.at)
  {
    ReachableRow(turns, w, a);
    var row := w.store.rows[a];
    WatermarksRise(row, j + 1, k + 1);
    assert CommitOk(row, j) && CommitOk(row, k) && CommitOk(row, |row.commits| - 1);
  }

  /** A successful ingest of a new message is stale exactly when it did not update the state. When it did,
      its sample is among those applied; when it did not, the asset has been seen at the time of the sample
      or later, or others were applied before it in each of the three attempts. */
  lemma {:induction false} StaleOrUpdated(turns: seq<Turn>, w: World, i: nat)
    requires Run(EMPTY, turns, w) && i < |w.handlers| && w.handlers[i].call.Ended?
    ensures match w.handlers[i].call.result
      case Done(stale, stateUpdated) =>
        var sample := w.handlers[i].sample;
        && stale == !stateUpdated && (stateUpdated ==> Carried(w.store, sample))
        && (stale ==>
              && sample.asset in w.store.rows
              && var row := w.store.rows[sample.asset];
              || (row.state.lastSeen.Some? && sample.at <= row.state.lastSeen.value) || |row.commits| >= 3)
      case _ => true
  {
    RunKeepsWorld(EMPTY, turns, w);
    assert HandlerOk(w.store, w.handlers[i]);
  }

  predicate Smooth(turn: Turn)
  {
    turn.Move? ==> turn.reply.Fine?
  }

  predicate NoneFailed(w: World)
  {
    forall i | 0 <= i < |w.handlers| :: w.handlers[i].call != Ended(Failed)
  }

  lemma SmoothTurnFailsNothing(w: World, turn: Turn)
    requires WorldOk(w) && NoneFailed(w) && Enabled(w, turn) && Smooth(turn)
    ensures NoneFailed(Next(w, turn))
  {
    if turn.Move? {
      assert HandlerOk(w.store, w.handlers[turn.i]);
      assert Step(w.store, w.handlers[turn.i], Fine).1 != Ended(Failed);
    }
  }

  lemma {:induction false} SmoothRunFailsNothing(w: World, turns: seq<Turn>, end: World)
    requires WorldOk(w) && NoneFailed(w) && Run(w, turns, end) && forall turn | turn in turns :: Smooth(turn)
    ensures NoneFailed(end)
    decreases |turns|
  {
    if turns != [] {
      TurnKeepsWorld(w, turns[0]);
      SmoothTurnFailsNothing(w, turns[0]);
      SmoothRunFailsNothing(Next(w, turns[0]), turns[1..], end);
    }
  }

  /** An ingest only fails when one of the repository calls does. */
  lemma {:induction false} NothingFailsByItself(turns: seq<Turn>, w: World, i: nat)
    requires Run(EMPTY, turns, w) && i < |w.handlers| && forall turn | turn in turns :: Smooth(turn)
    ensures w.handlers[i].call.Ended? ==> w.handlers[i].call.result.Done? || w.handlers[i].call.result.Duplicate?
  {
    SmoothRunFailsNothing(EMPTY, turns, w);
  }

  /** Whatever overtakes it, a sample is tried at most three times. */
  lemma {:induction false} AtMostThreeAttempts(turns: seq<Turn>, w: World, i: nat)
    requires Run(EMPTY, turns, w) && i < |w.handlers|
    requires w.handlers[i].call.Ensuring? || w.handlers[i].call.Loading? || w.handlers[i].call.Applying?
    ensures w.handlers[i].call.attempt < 3
  {
    RunKeepsWorld(EMPTY, turns, w);
    assert HandlerOk(w.store, w.handlers[i]);
  }

  /** A speed or heading that a sample did not report itself was derived from the position and
      watermark its immediate predecessor left, whenever there are two positions to derive it from. */
  lemma {:induction false} KinematicsUseThePredecessor(turns: seq<Turn>, w: World, a: AssetId, k: nat)
    requires Run(EMPTY, turns, w) && a in w.store.rows && k < |w.store.rows[a].commits|
    ensures var row := w.store.rows[a];
      var c, before := row.commits[k], StateAt(row, k);
      forall given, kept, now | (given, kept, now) in {(c.sample.speed, before.speed, c.after.speed),
                                                       (c.sample.heading, before.heading, c.after.heading)} ::
        now == if given.Some? then given
               else if c.sample.position.Some? && before.position.Some? && before.lastSeen.Some? then
                 Some(Derived(before.position.value, c.sample.position.value, before.lastSeen.value, c.sample.at))
               else kept
  {
    ReachableRow(turns, w, a);
    assert CommitOk(w.store.rows[a], k);
  }

  /** The position of the last sample that had one. */
  function LastPosition(commits: seq<Commit>): Option<Position>
  {
    if commits == [] then None
    else
      var sample := commits[|commits| - 1].sample;
      if sample.position.Some? then sample.position else LastPosition(commits[..|commits| - 1])
  }

  lemma {:induction false} PositionFollows(row: Row, k: nat)
    requires RowOk(row) && k <= |row.commits|
    ensures StateAt(row, k).position == LastPosition(row.commits[..k])
  {
    if k > 0 {
      assert row.commits[..k][..k - 1] == row.commits[..k - 1];
      assert CommitOk(row, k - 1);
      PositionFollows(row, k - 1);
    }
  }

  /** What the row shows, told from the samples applied to it alone: the position of the last sample that
      had one, the connection state and the time of the very last. */
  lemma {:induction false} RowShowsTheSamples(turns: seq<Turn>, w: World, a: AssetId)
    requires Run(EMPTY, turns, w) && a in w.store.rows
    ensures var row := w.store.rows[a];
      && row.state.position == LastPosition(row.commits)
      && (row.commits == [] ==> row.state.connection == "unknown" && row.state.lastSeen.None?)
      && (row.commits != [] ==>
            var last := row.commits[|row.commits| - 1].sample;
            && row.state.lastSeen == Some(last.at)
            && row.state.connection == if last.connection == "" then "connected" else last.connection)
  {
    ReachableRow(turns, w, a);
    var row := w.store.rows[a];
    assert row.commits[..|row.commits|] == row.commits;
    PositionFollows(row, |row.commits|);
    if row.commits != [] {
      assert CommitOk(row, |row.commits| - 1);
    }
  }

  /** The connection state a consumer holds after the announcements of some commits, in commit order. */
  function Folded(commits: seq<Commit>): string
  {
    if commits == [] then "unknown"
    else
      var last := commits[|commits| - 1];
      if last.announced.Some? && !last.lost then last.announced.value else Folded(commits[..|commits| - 1])
  }

  /** The newest change of the connection state was published. */
  predicate NewestChangeArrived(commits: seq<Commit>)
  {
    commits == [] ||
    var last := commits[|commits| - 1];
    if last.announced.Some? then !last.lost else NewestChangeArrived(commits[..|commits| - 1])
  }

  /** How many commits there were up to the newest change that was published. */
  function Heard(commits: seq<Commit>): (k: nat)
    ensures k <= |commits|
  {
    if commits == [] then 0
    else
      var last := commits[|commits| - 1];
      if last.announced.Some? && !last.lost then |commits| else Heard(commits[..|commits| - 1])
  }

  /** What the fold gives is the connection state as the newest published change left it. */
  lemma {:induction false} FoldIsHeard(row: Row, k: nat)
    requires RowOk(row) && k <= |row.commits|
    ensures Heard(row.commits[..k]) <= k && Folded(row.commits[..k]) == StateAt(row, Heard(row.commits[..k])).connection
    ensures NewestChangeArrived(row.commits[..k]) ==>
      StateAt(row, Heard(row.commits[..k])).connection == StateAt(row, k).connection
  {
    if k > 0 {
      assert row.commits[..k][..k - 1] == row.commits[..k - 1];
      assert CommitOk(row, k - 1);
      FoldIsHeard(row, k - 1);
    }
  }

  /** The first commit from k on that changed the connection state. */
  function FirstChange(commits: seq<Commit>, k: nat): (f: nat)
    requires k <= |commits|
    ensures k <= f <= |commits|
    ensures forall i | k <= i < f :: commits[i].announced.None?
    ensures f < |commits| ==> commits[f].announced.Some?
    decreases |commits| - k
  {
    if k == |commits| || commits[k].announced.Some? then k else FirstChange(commits, k + 1)
  }

  /** The position after the last commit that changed the connection state. */
  function LastChange(commits: seq<Commit>): (l: nat)
    ensures l <= |commits|
    ensures forall i | l <= i < |commits| :: commits[i].announced.None?
    ensures l > 0 ==> commits[l - 1].announced.Some?
  {
    if commits == [] || commits[|commits| - 1].announced.Some? then |commits|
    else LastChange(commits[..|commits| - 1])
  }

  lemma {:induction false} Unchanged(row: Row, j: nat, k: nat)
    requires RowOk(row) && j <= k <= |row.commits| && forall i | j <= i < k :: row.commits[i].announced.None?
    ensures StateAt(row, j).connection == StateAt(row, k).connection
    decreases k
  {
    if j < k {
      assert CommitOk(row, k - 1);
      Unchanged(row, j, k - 1);
    }
  }

  lemma {:induction false} NewestArrivedExactlyWhen(commits: seq<Commit>)
    ensures NewestChangeArrived(commits) <==> FirstChange(commits, Heard(commits)) == |commits|
    ensures FirstChange(commits, Heard(commits)) < |commits| ==>
      FirstChange(commits, Heard(commits)) < LastChange(commits)
    ensures NewestChangeArrived(commits) <==> LastChange(commits) == 0 || !commits[LastChange(commits) - 1].lost
  {
    if commits != [] {
      var rest, last := commits[..|commits| - 1], commits[|commits| - 1];
      NewestArrivedExactlyWhen(rest);
      if last.announced.None? {
        FirstChangeOfRest(commits, Heard(rest));
      }
    }
  }

  lemma {:induction false} FirstChangeOfRest(commits: seq<Commit>, k: nat)
    requires commits != [] && k <= |commits| - 1 && commits[|commits| - 1].announced.None?
    ensures var f := FirstChange(commits[..|commits| - 1], k);
      FirstChange(commits, k) == if f == |commits| - 1 then |commits| else f
    decreases |commits| - k
  {
    if k < |commits| - 1 && commits[k].announced.None? {
      FirstChangeOfRest(commits, k + 1);
    }
  }

  /** The lost changes lead back to where the first of them left from. */
  predicate LeadsBack(commits: seq<Commit>)
  {
    var first, last := FirstChange(commits, Heard(commits)), LastChange(commits);
    first < last && Some(commits[first].before.connection) == commits[last - 1].announced
  }

  lemma FoldRightExactlyWhen(row: Row)
    requires RowOk(row)
    ensures Folded(row.commits) == row.state.connection <==>
      NewestChangeArrived(row.commits) || LeadsBack(row.commits)
  {
    var commits := row.commits;
    var first, last := FirstChange(commits, Heard(commits)), LastChange(commits);
    assert commits[..|commits|] == commits;
    FoldIsHeard(row, |commits|);
    NewestArrivedExactlyWhen(commits);
    if !NewestChangeArrived(commits) {
      LostChanges(row, Heard(commits), first, last);
    }
  }

  /** Between two changes nothing changes. */
  lemma LostChanges(row: Row, heard: nat, first: nat, last: nat)
    requires RowOk(row) && heard <= first < last <= |row.commits|
    requires forall i | heard <= i < first :: row.commits[i].announced.None?
    requires forall i | last <= i < |row.commits| :: row.commits[i].announced.None?
    requires row.commits[last - 1].announced.Some?
    ensures StateAt(row, heard).connection == row.commits[first].before.connection
    ensures Some(row.state.connection) == row.commits[last - 1].announced
  {
    Unchanged(row, heard, first);
    Unchanged(row, last, |row.commits|);
    assert CommitOk(row, first) && CommitOk(row, last - 1);
  }

  /** Folding the published connection changes of an asset in commit order, from "unknown", gives the
      stored connection state if and only if the reply to the commit of the newest change was not lost, or
      the first change lost since the newest published one left the very state that the newest one went
      to. Every announced change is one, so a single lost change is never made up for. */
  lemma {:induction false} ConnectionChangesFold(turns: seq<Turn>, w: World, a: AssetId)
    requires Run(EMPTY, turns, w) && a in w.store.rows
    ensures var row := w.store.rows[a];
      && (Folded(row.commits) == row.state.connection <==>
            NewestChangeArrived(row.commits) || LeadsBack(row.commits))
      && forall c | c in row.commits && c.announced.Some? :: c.announced.value != c.before.connection
  {
    ReachableRow(turns, w, a);
    var row := w.store.rows[a];
    FoldRightExactlyWhen(row);
    forall c | c in row.commits && c.announced.Some? ensures c.announced.value != c.before.connection {
      var k :| 0 <= k < |row.commits| && row.commits[k] == c;
      assert CommitOk(row, k);
    }
  }

  /** A reply lost after the commit: the asset is connected, and nobody was told. */
  lemma ChangeCanGoUnheard() returns (turns: seq<Turn>, w: World)
    ensures Run(EMPTY, turns, w) && "a" in w.store.rows
    ensures w.store.rows["a"].state.connection == "connected" && Folded(w.store.rows["a"].commits) == "unknown"
  {
    var sample := Sample("m", "a", 1, None, None, None, "connected");
    var after := Updated(UNSEEN, Update(sample, UNSEEN));
    var s2 := Store(map[], {"m"});
    var s3 := Store(map["a" := Row(UNSEEN, [])], {"m"});
    var lost := [Commit(sample, UNSEEN, after, Some("connected"), true)];
    var s5 := Store(map["a" := Row(after, lost)], {"m"});
    var w1 := World(EMPTY.store, [Handler(sample, Creating)]);
    var w2 := World(s2, [Handler(sample, Ensuring(0, false))]);
    var w3 := World(s3, [Handler(sample, Loading(0, false))]);
    var w4 := World(s3, [Handler(sample, Applying(0, false, UNSEEN))]);
    w := World(s5, [Handler(sample, Ended(Failed))]);
    assert Next(EMPTY, Turn.Ingest(sample)) == w1;
    assert Next(w1, Move(0, Fine)) == w2;
    assert Next(w2, Move(0, Fine)) == w3;
    assert Next(w3, Move(0, Fine)) == w4;
    assert Announcement(sample, UNSEEN) == Some("connected") by {
      assert |"unknown"| != |"connected"|;
    }
    assert s3.rows["a"].commits + lost == lost;
    assert Next(w4, Move(0, Lost)) == w;
    var t4: seq<Turn> := [Move(0, Lost)];
    var t3 := [Move(0, Fine)] + t4;
    var t2 := [Move(0, Fine)] + t3;
    var t1 := [Move(0, Fine)] + t2;
    turns := [Turn.Ingest(sample)] + t1;
    assert Run(w4, t4, w);
    assert Run(w3, t3, w);
    assert Run(w2, t2, w);
    assert Run(w1, t1, w);
    assert Run(EMPTY, turns, w);
  }
}
