/** One track row and the projections committed to it: watermarks rise, history is exactly the
    positional projections, and every derived motion starts from the state in force. */
module TrackRows {
  import opened Options
  import opened TrackStore
  import opened TrackHandler

  /** The watermark after k projections, counting from the row's creation. */
  function WatermarkAt(t: Track, k: nat): int
    requires k <= |t.commits|
  {
    if k == 0 then t.firstSeen else t.commits[k - 1].at
  }

  function StateAt(t: Track, k: nat): Option<State>
    requires k <= |t.commits|
  {
    if k == 0 then None else Some(t.commits[k - 1].after)
  }

  function Version(t: Track, k: nat): Seen
    requires k <= |t.commits|
  {
    Seen(WatermarkAt(t, k), PositionOf(StateAt(t, k)), k)
  }

  /** A row as it was read at some time. */
  predicate Genuine(t: Track, seen: Seen)
  {
    seen.version <= |t.commits| && seen == Version(t, seen.version)
  }

  /** The projection uses the position and the watermark in force just before it, or neither. */
  predicate Exact(c: Commit)
  {
    c.derived.Some? ==>
      && PositionOf(c.before).Some? && c.position.Some? && c.seenBefore < c.at
      && c.derived.value == Motion(PositionOf(c.before).value, c.position.value, c.seenBefore, c.at)
  }

  ghost predicate CommitOk(t: Track, k: nat)
    requires k < |t.commits|
  {
    var c := t.commits[k];
    && c.seenBefore == WatermarkAt(t, k) && c.before == StateAt(t, k)
    && (c.at > c.seenBefore || (k == 0 && c.at == c.seenBefore))
    && c.after == Projected(c.before, c.position, c.derived)
    && Exact(c)
    && (c.position.Some? && c.derived.None? ==> MotionOf(c.before).None?)
  }

  function Samples(commits: seq<Commit>): seq<Sample>
  {
    if commits == [] then []
    else
      var c := commits[|commits| - 1];
      var rest := Samples(commits[..|commits| - 1]);
      if c.position.Some? then rest + [Sample(c.at, c.position.value, c.derived)] else rest
  }

  ghost predicate RowOk(t: Track)
  {
    && (forall k | 0 <= k < |t.commits| :: CommitOk(t, k))
    && t.lastSeen == WatermarkAt(t, |t.commits|)
    && t.state == StateAt(t, |t.commits|)
    && t.history == Samples(t.commits)
  }

  /** What projections do to a row over time. */
  ghost predicate RowGrows(t: Track, u: Track)
  {
    && u.ref == t.ref && u.initial == t.initial && u.firstSeen == t.firstSeen
    && t.commits <= u.commits
  }

  lemma ReadIsGenuine(t: Track)
    requires RowOk(t)
    ensures Genuine(t, Read(t))
  {
  }

  lemma GenuineStays(t: Track, u: Track, seen: Seen)
    requires RowGrows(t, u) && Genuine(t, seen)
    ensures Genuine(u, seen)
  {
  }

  /** Watermarks never fall, and only the first projection may keep one. */
  lemma {:induction false} WatermarksRise(t: Track, j: nat, k: nat)
    requires (forall i | 0 <= i < |t.commits| :: CommitOk(t, i)) && j < k <= |t.commits|
    ensures WatermarkAt(t, j) <= WatermarkAt(t, k)
    ensures WatermarkAt(t, j) == WatermarkAt(t, k) ==> j == 0 && k == 1
    decreases k
  {
    assert CommitOk(t, k - 1);
    if j < k - 1 {
      WatermarksRise(t, j, k - 1);
    }
  }

  /** A handler whose expected watermark matches derived its motion from the row itself, or from
      nothing. */
  lemma DerivedFromTheRow(t: Track, seen: Seen, u: Observation)
    requires RowOk(t) && Genuine(t, seen) && seen.lastSeen == t.lastSeen
    ensures Derive(seen, u).Some? ==> Derive(seen, u) == Derive(Read(t), u)
    ensures Derive(seen, u).None? && u.position.Some? && (t.lastSeen < u.at || t.state.None?) ==>
      MotionOf(t.state).None?
  {
    var n := |t.commits|;
    if seen.version < n {
      WatermarksRise(t, seen.version, n);
      assert CommitOk(t, 0);
    } else if t.state.Some? {
      MotionNeedsPosition(t, n);
    }
  }

  lemma {:induction false} MotionNeedsPosition(t: Track, k: nat)
    requires (forall i | 0 <= i < |t.commits| :: CommitOk(t, i)) && k <= |t.commits|
    ensures MotionOf(StateAt(t, k)).Some? ==> PositionOf(StateAt(t, k)).Some?
  {
    if k > 0 {
      assert CommitOk(t, k - 1);
      MotionNeedsPosition(t, k - 1);
    }
  }

  lemma AdvanceKeepsRow(t: Track, o: ObservationId, u: Observation, seen: Seen)
    requires RowOk(t) && Genuine(t, seen) && seen.lastSeen <= u.at && Applies(t, u.at, seen.lastSeen)
    ensures var r := Advance(t, o, u.at, u.position, Derive(seen, u));
      RowOk(r) && RowGrows(t, r) && r.lastSeen == u.at
  {
    var r := Advance(t, o, u.at, u.position, Derive(seen, u));
    var n := |t.commits|;
    DerivedFromTheRow(t, seen, u);
    forall k | 0 <= k < |r.commits| ensures CommitOk(r, k) {
      if k < n {
        assert CommitOk(t, k);
      } else {
        AdvanceCommitOk(t, o, u, seen);
      }
    }
    assert r.commits[..|r.commits| - 1] == t.commits;
  }

  lemma AdvanceCommitOk(t: Track, o: ObservationId, u: Observation, seen: Seen)
    requires RowOk(t) && Genuine(t, seen) && seen.lastSeen <= u.at && Applies(t, u.at, seen.lastSeen)
    ensures CommitOk(Advance(t, o, u.at, u.position, Derive(seen, u)), |t.commits|)
  {
    DerivedFromTheRow(t, seen, u);
  }

  // ---- replay ----

  /** The live state of the track after the last projection at or before an instant. */
  function LiveAt(t: Track, k: nat, at: int): Option<State>
    requires k <= |t.commits|
  {
    if k == 0 then None
    else if t.commits[k - 1].at <= at then Some(t.commits[k - 1].after)
    else LiveAt(t, k - 1, at)
  }

  lemma {:induction false} SamplesAreEarlier(t: Track, k: nat)
    requires (forall i | 0 <= i < |t.commits| :: CommitOk(t, i)) && k <= |t.commits|
    ensures forall h | h in Samples(t.commits[..k]) :: k > 0 && h.at <= WatermarkAt(t, k)
    ensures forall i, j | 0 <= i < j < |Samples(t.commits[..k])| ::
      Samples(t.commits[..k])[i].at < Samples(t.commits[..k])[j].at
  {
    if k > 0 {
      assert t.commits[..k][..k - 1] == t.commits[..k - 1];
      SamplesAreEarlier(t, k - 1);
      assert CommitOk(t, k - 1);
      var rest := Samples(t.commits[..k - 1]);
      forall h | h in rest ensures h.at < t.commits[k - 1].at {
        assert k - 1 > 0;
      }
    }
  }

  predicate Shows(sample: Option<Sample>, live: Option<State>)
  {
    if sample.None? then PositionOf(live).None? && MotionOf(live).None?
    else PositionOf(live) == Some(sample.value.position) && MotionOf(live) == sample.value.motion
  }

  lemma {:induction false} ReplayUpTo(t: Track, k: nat, at: int)
    requires (forall i | 0 <= i < |t.commits| :: CommitOk(t, i)) && k <= |t.commits|
    ensures Shows(TracksAt(Samples(t.commits[..k]), at), LiveAt(t, k, at))
    decreases k
  {
    if k > 0 {
      var c := t.commits[k - 1];
      var rest := Samples(t.commits[..k - 1]);
      assert t.commits[..k][..k - 1] == t.commits[..k - 1];
      ReplayUpTo(t, k - 1, at);
      SamplesAreEarlier(t, k - 1);
      assert CommitOk(t, k - 1);
      if c.position.Some? {
        assert Samples(t.commits[..k])[..|rest|] == rest;
      }
      if c.at <= at {
        EarlierCommitIsLive(t, k - 1, at);
        forall h | h in rest ensures h.at <= c.at {
        }
      }
    }
  }

  /** When even the last of k projections is old enough, it is the one in force. */
  lemma {:induction false} EarlierCommitIsLive(t: Track, k: nat, at: int)
    requires (forall i | 0 <= i < |t.commits| :: CommitOk(t, i)) && k < |t.commits| && t.commits[k].at <= at
    ensures LiveAt(t, k, at) == StateAt(t, k)
  {
    assert CommitOk(t, k);
  }

  /** Replay agrees with live: for every instant, the newest history sample at or before it holds the
      position, speed and heading the live projection held after the last update at or before it. */
  lemma {:induction false} ReplayAgrees(t: Track, at: int)
    requires RowOk(t)
    ensures Shows(TracksAt(t.history, at), LiveAt(t, |t.commits|, at))
    ensures at >= t.lastSeen ==> LiveAt(t, |t.commits|, at) == t.state
  {
    assert t.commits[..|t.commits|] == t.commits;
    ReplayUpTo(t, |t.commits|, at);
  }
}
