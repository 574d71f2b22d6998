/** The freshness monitor publishes only changes, and keeps the gauge of entities whose state is not
    trustworthy. Folding what it has published must give back what it last computed. */
module FreshnessMonitor {
  import opened Options
  import opened Freshness

  type Key = string

  datatype Event = Event(entityType: string, id: string, freshness: State, previous: Option<State>)

  const ASSET := "asset"
  const TRACK := "track"

  // ---- entity keys ----

  function EntityKey(entityType: string, id: string): Key
  {
    entityType + ":" + id
  }

  function IndexOf(s: string, c: char): (i: int)
    ensures -1 <= i < |s|
    ensures i >= 0 ==> s[i] == c && c !in s[..i]
    ensures i < 0 ==> c !in s
  {
    if s == "" then -1
    else if s[0] == c then 0
    else
      var rest := IndexOf(s[1..], c);
      assert s == [s[0]] + s[1..];
      assert rest >= 0 ==> s[..rest + 1] == [s[0]] + s[1..][..rest];
      if rest < 0 then -1 else rest + 1
  }

  function SplitEntityKey(key: Key): (string, string)
  {
    var i := IndexOf(key, ':');
    if i >= 0 then (key[..i], key[i + 1..]) else (ASSET, key)
  }

  /** Splitting undoes joining for every identifier, colons included, since no type name has one. */
  lemma SplitUndoesJoin(entityType: string, id: string)
    requires ':' !in entityType
    ensures SplitEntityKey(EntityKey(entityType, id)) == (entityType, id)
  {
    FirstColon(entityType, id);
    var key, n := EntityKey(entityType, id), |entityType|;
    assert key[..n] == entityType && key[n + 1..] == id;
  }

  lemma {:induction false} FirstColon(a: string, b: string)
    requires ':' !in a
    ensures IndexOf(a + ":" + b, ':') == |a|
  {
    if a != "" {
      assert (a + ":" + b)[1..] == a[1..] + ":" + b;
      FirstColon(a[1..], b);
    }
  }

  // ---- white space ----

  predicate IsSpace(c: char)
  {
    c in {'\t', '\n', '\U{000B}', '\U{000C}', '\r', ' ', '\U{0085}', '\U{00A0}', '\U{1680}', '\U{2028}', '\U{2029}',
          '\U{202F}', '\U{205F}', '\U{3000}'} || '\U{2000}' <= c <= '\U{200A}'
  }

  function TrimRight(s: string): string
  {
    if s != "" && IsSpace(s[|s| - 1]) then TrimRight(s[..|s| - 1]) else s
  }

  function TrimSpace(s: string): string
  {
    if s != "" && IsSpace(s[0]) then TrimSpace(s[1..]) else TrimRight(s)
  }

  predicate Trimmed(s: string)
  {
    TrimSpace(s) == s
  }

  /** Only white space at the end of an identifier is lost from its key. */
  lemma KeyIsTrimmed(entityType: string, id: string)
    requires entityType == ASSET || entityType == TRACK
    ensures Trimmed(EntityKey(entityType, id)) <==> id == "" || !IsSpace(id[|id| - 1])
  {
    var key := EntityKey(entityType, id);
    assert key[|key| - 1] == if id == "" then ':' else id[|id| - 1];
    assert |TrimRight(key)| == |key| ==> !IsSpace(key[|key| - 1]) by {
      TrimRightShortens(key);
    }
  }

  lemma {:induction false} TrimRightShortens(s: string)
    ensures |TrimRight(s)| <= |s|
    ensures s != "" && IsSpace(s[|s| - 1]) ==> |TrimRight(s)| < |s|
  {
    if s != "" && IsSpace(s[|s| - 1]) {
      TrimRightShortens(s[..|s| - 1]);
    }
  }

  lemma {:induction false} TrimShortens(s: string)
    ensures |TrimSpace(s)| <= |s|
    ensures s != "" && IsSpace(s[|s| - 1]) ==> |TrimSpace(s)| < |s|
  {
    if s != "" && IsSpace(s[0]) {
      TrimShortens(s[1..]);
    } else {
      TrimRightShortens(s);
    }
  }

  lemma {:induction false} TrimRightIsTrimmed(s: string)
    ensures TrimRight(TrimRight(s)) == TrimRight(s) && TrimRight(s) <= s
  {
    if s != "" && IsSpace(s[|s| - 1]) {
      TrimRightIsTrimmed(s[..|s| - 1]);
    }
  }

  /** What registration stores is trimmed. */
  lemma {:induction false} TrimmingTrims(s: string)
    ensures Trimmed(TrimSpace(s))
  {
    if s != "" && IsSpace(s[0]) {
      TrimmingTrims(s[1..]);
    } else {
      TrimRightIsTrimmed(s);
    }
  }

  /** The key of a stored identifier is not changed by the gauge, which trims it. */
  lemma StoredKeyIsTrimmed(entityType: string, id: string)
    requires entityType == ASSET || entityType == TRACK
    requires Trimmed(id)
    ensures Trimmed(EntityKey(entityType, id))
  {
    KeyIsTrimmed(entityType, id);
    TrimShortens(id);
  }

  lemma {:induction false} TrimRightKeepsOut(s: string, c: char)
    requires c !in s
    ensures c !in TrimRight(s)
  {
    if s != "" && IsSpace(s[|s| - 1]) {
      TrimRightKeepsOut(s[..|s| - 1], c);
    }
  }

  lemma {:induction false} TrimKeepsOut(s: string, c: char)
    requires c !in s
    ensures c !in TrimSpace(s)
  {
    if s != "" && IsSpace(s[0]) {
      TrimKeepsOut(s[1..], c);
    } else {
      TrimRightKeepsOut(s, c);
    }
  }

  // ---- the gauge ----

  class Metrics {
    var staleAssets: set<Key>
    var staleEntities: int

    predicate Valid()
      reads this
    {
      staleEntities == |staleAssets|
    }

    constructor ()
      ensures Valid() && staleAssets == {}
    {
      staleAssets, staleEntities := {}, 0;
    }

    /** The gauge always equals the size of the set. */
    method ObserveStaleEntity(entityID: string, stale: bool)
      requires Valid()
      modifies this
      ensures Valid()
      ensures staleAssets == if TrimSpace(entityID) == "" then old(staleAssets)
        else if stale then old(staleAssets) + {TrimSpace(entityID)} else old(staleAssets) - {TrimSpace(entityID)}
    {
      var id := TrimSpace(entityID);
      if id == "" {
        return;
      }
      if stale {
        if id !in staleAssets {
          staleAssets := staleAssets + {id};
          staleEntities := staleEntities + 1;
        }
        return;
      }
      if id in staleAssets {
        staleAssets := staleAssets - {id};
        staleEntities := staleEntities - 1;
      }
    }
  }

  // ---- what has been published ----

  /** What a consumer of the whole log believes of every entity it has heard of. */
  function Told(log: seq<Event>): map<Key, State>
  {
    if log == [] then map[]
    else
      var last := log[|log| - 1];
      Told(log[..|log| - 1])[EntityKey(last.entityType, last.id) := last.freshness]
  }

  lemma {:induction false} ToldOneMore(log: seq<Event>, e: Event)
    ensures Told(log + [e]) == Told(log)[EntityKey(e.entityType, e.id) := e.freshness]
  {
    assert (log + [e])[..|log|] == log;
  }

  /** The snapshot, with entities that have vanished since they were reported set to unknown. */
  function Believed(heard: set<Key>, snapshot: map<Key, State>): map<Key, State>
  {
    map k | k in heard + snapshot.Keys :: if k in snapshot then snapshot[k] else Unknown
  }

  /** A key the monitor builds: splitting it undoes joining, and trimming does not change it. */
  predicate WellKeyed(k: Key)
  {
    var (entityType, id) := SplitEntityKey(k);
    Trimmed(k) && ':' !in entityType && EntityKey(entityType, id) == k
  }

  ghost predicate Namespaced(keys: set<Key>)
  {
    forall k {:trigger WellKeyed(k)} | k in keys :: WellKeyed(k)
  }

  /** Identifiers are trimmed when an asset is registered, and generated for tracks. */
  predicate Stored(assets: seq<AssetSignal>, tracks: seq<TrackSignal>)
  {
    (forall a | a in assets :: Trimmed(a.id)) && (forall t | t in tracks :: Trimmed(t.id))
  }

  /** What one pass over the repository finds, later rows overriding earlier ones of the same key. */
  function Classified(p: Policy, assets: seq<AssetSignal>, tracks: seq<TrackSignal>, now: int): map<Key, State>
  {
    if tracks != [] then
      var last := tracks[|tracks| - 1];
      Classified(p, assets, tracks[..|tracks| - 1], now)[EntityKey(TRACK, last.id) := ForTrack(p, last, now)]
    else if assets != [] then
      var last := assets[|assets| - 1];
      Classified(p, assets[..|assets| - 1], tracks, now)[EntityKey(ASSET, last.id) := ForAsset(p, last, now)]
    else map[]
  }

  lemma {:induction false} ClassifiedIsNamespaced(p: Policy, assets: seq<AssetSignal>, tracks: seq<TrackSignal>,
                                                  now: int)
    requires Stored(assets, tracks)
    ensures Namespaced(Classified(p, assets, tracks, now).Keys)
    decreases |tracks|, |assets|
  {
    if tracks != [] {
      ClassifiedIsNamespaced(p, assets, tracks[..|tracks| - 1], now);
      SplitUndoesJoin(TRACK, tracks[|tracks| - 1].id);
      StoredKeyIsTrimmed(TRACK, tracks[|tracks| - 1].id);
    } else if assets != [] {
      ClassifiedIsNamespaced(p, assets[..|assets| - 1], tracks, now);
      SplitUndoesJoin(ASSET, assets[|assets| - 1].id);
      StoredKeyIsTrimmed(ASSET, assets[|assets| - 1].id);
    }
  }

  /** The pass is over exactly the entities read, and each shows what the last of its rows is classified as. */
  lemma {:induction false} ClassifiedEach(p: Policy, assets: seq<AssetSignal>, tracks: seq<TrackSignal>, now: int,
                                          k: Key)
    ensures k in Classified(p, assets, tracks, now) <==>
      || (exists i :: LastAsset(assets, i, k)) || (exists i :: LastTrack(tracks, i, k))
    ensures forall i | LastTrack(tracks, i, k) :: Classified(p, assets, tracks, now)[k] == ForTrack(p, tracks[i], now)
    ensures forall i | LastAsset(assets, i, k) :: Classified(p, assets, tracks, now)[k] == ForAsset(p, assets[i], now)
    decreases |tracks|, |assets|
  {
    if tracks != [] {
      var n := |tracks| - 1;
      ClassifiedEach(p, assets, tracks[..n], now, k);
      LastTrackOf(tracks, k);
      TypesDiffer(assets, tracks[n].id);
    } else if assets != [] {
      ClassifiedEach(p, assets[..|assets| - 1], tracks, now, k);
      LastAssetOf(assets, k);
    }
  }

  /** The last row of a track, or of an asset, with this key. */
  ghost predicate LastTrack(tracks: seq<TrackSignal>, i: int, k: Key)
  {
    && 0 <= i < |tracks| && EntityKey(TRACK, tracks[i].id) == k
    && forall j | i < j < |tracks| :: EntityKey(TRACK, tracks[j].id) != k
  }

  ghost predicate LastAsset(assets: seq<AssetSignal>, i: int, k: Key)
  {
    && 0 <= i < |assets| && EntityKey(ASSET, assets[i].id) == k
    && forall j | i < j < |assets| :: EntityKey(ASSET, assets[j].id) != k
  }

  lemma LastTrackOf(tracks: seq<TrackSignal>, k: Key)
    requires tracks != []
    ensures var n := |tracks| - 1;
      if EntityKey(TRACK, tracks[n].id) == k then
        LastTrack(tracks, n, k) && forall i :: LastTrack(tracks, i, k) ==> i == n
      else forall i :: LastTrack(tracks, i, k) <==> LastTrack(tracks[..n], i, k)
  {
    var n := |tracks| - 1;
    forall i
      ensures EntityKey(TRACK, tracks[n].id) != k ==> (LastTrack(tracks, i, k) <==> LastTrack(tracks[..n], i, k))
    {
      if LastTrack(tracks[..n], i, k) {
        assert forall j | i < j < n :: tracks[..n][j] == tracks[j];
      }
    }
  }

  lemma LastAssetOf(assets: seq<AssetSignal>, k: Key)
    requires assets != []
    ensures var n := |assets| - 1;
      if EntityKey(ASSET, assets[n].id) == k then
        LastAsset(assets, n, k) && forall i :: LastAsset(assets, i, k) ==> i == n
      else forall i :: LastAsset(assets, i, k) <==> LastAsset(assets[..n], i, k)
  {
    var n := |assets| - 1;
    forall i
      ensures EntityKey(ASSET, assets[n].id) != k ==> (LastAsset(assets, i, k) <==> LastAsset(assets[..n], i, k))
    {
      if LastAsset(assets[..n], i, k) {
        assert forall j | i < j < n :: assets[..n][j] == assets[j];
      }
    }
  }

  lemma TypesDiffer(assets: seq<AssetSignal>, track: string)
    ensures forall i | 0 <= i < |assets| :: EntityKey(ASSET, assets[i].id) != EntityKey(TRACK, track)
  {
    forall i | 0 <= i < |assets| ensures EntityKey(ASSET, assets[i].id) != EntityKey(TRACK, track) {
      SplitUndoesJoin(ASSET, assets[i].id);
      SplitUndoesJoin(TRACK, track);
    }
  }

  class Monitor {
    var previous: map<Key, State>
    var log: seq<Event>
    ghost var told: map<Key, State>
    ghost var cleared: set<Key>
    const policy: Policy
    const metrics: Metrics

    /** The published log folds to the snapshot, and the gauge's set holds exactly the keys last reported
        untrustworthy, but for those accepted telemetry has cleared since. */
    ghost predicate Valid()
      reads this, metrics
    {
      && metrics.Valid() && told == Told(log)
      && told == Believed(told.Keys, previous) && previous.Keys <= told.Keys
      && Namespaced(told.Keys)
      && GaugeFits(told, cleared, metrics.staleAssets)
    }

    constructor (policy: Policy, metrics: Metrics)
      requires metrics.Valid() && metrics.staleAssets == {}
      ensures Valid() && log == [] && previous == map[] && cleared == {}
      ensures this.metrics == metrics && this.policy == Normalized(policy)
    {
      previous, log, told, cleared := map[], [], map[], {};
      this.policy := Normalized(policy);
      this.metrics := metrics;
    }

    method Report(key: Key, state: State, was: Option<State>) returns (e: Event)
      requires Namespaced({key}) && metrics.Valid() && GaugeFits(told, cleared, metrics.staleAssets)
      modifies this`log, this`told, this`cleared, metrics
      ensures old(told) == Told(old(log)) ==> told == Told(log)
      ensures log == old(log) + [e] && e == Event(SplitEntityKey(key).0, SplitEntityKey(key).1, state, was)
      ensures told == old(told)[key := state] && cleared == old(cleared) - {key}
      ensures metrics.Valid() && GaugeFits(told, cleared, metrics.staleAssets)
    {
      assert key in {key} && WellKeyed(key);
      var (entityType, id) := SplitEntityKey(key);
      metrics.ObserveStaleEntity(key, !Trustworthy(state));
      e := Event(entityType, id, state, was);
      ToldOneMore(log, e);
      told, cleared := told[key := state], cleared - {key};
      GaugeFollows(old(told), old(cleared), old(metrics.staleAssets), key, state);
      log := log + [e];
    }

    method Classify(assets: seq<AssetSignal>, tracks: seq<TrackSignal>, now: int) returns (current: map<Key, State>)
      ensures current == Classified(policy, assets, tracks, now)
    {
      current := map[];
      for i := 0 to |assets|
        invariant current == Classified(policy, assets[..i], [], now)
      {
        assert assets[..i + 1][..i] == assets[..i];
        current := current[EntityKey(ASSET, assets[i].id) := ForAsset(policy, assets[i], now)];
      }
      assert assets[..|assets|] == assets;
      for i := 0 to |tracks|
        invariant current == Classified(policy, assets, tracks[..i], now)
      {
        assert tracks[..i + 1][..i] == tracks[..i];
        current := current[EntityKey(TRACK, tracks[i].id) := ForTrack(policy, tracks[i], now)];
      }
      assert tracks[..|tracks|] == tracks;
    }

    /** One tick. A failed read changes nothing. */
    method Reconcile(assets: Option<seq<AssetSignal>>, tracks: Option<seq<TrackSignal>>, now: int) returns (ok: bool)
      requires Valid()
      requires assets.Some? && tracks.Some? ==> Stored(assets.value, tracks.value)
      modifies this`previous, this`log, this`told, this`cleared, metrics
      ensures Valid() && ok == (assets.Some? && tracks.Some?)
      ensures !ok ==> previous == old(previous) && log == old(log) && cleared == old(cleared)
      ensures ok ==> previous == Classified(policy, assets.value, tracks.value, now)
      ensures ok ==> told == Believed(old(told).Keys, previous)
      ensures old(log) <= log
      ensures forall e | e in log[|old(log)|..] :: Genuine(e, old(previous), previous)
      ensures cleared == old(cleared) - KeysOf(log[|old(log)|..])
    {
      if assets.None? || tracks.None? {
        assert log[|old(log)|..] == [];
        return false;
      }
      var current := Classify(assets.value, tracks.value, now);
      ClassifiedIsNamespaced(policy, assets.value, tracks.value, now);
      var before := previous;
      previous := current;
      ghost var heard := told;
      ghost var news := PublishChanges(before, current);
      OverlaysAreBeliefs(heard, before, current);
      assert log[|old(log)|..] == news;
      ok := true;
    }

    /** What the metrics do with accepted telemetry: they clear the asset by its bare identifier. That is
        never the asset's own key, so its entry stays; it is another entity's key when the identifier
        has a colon in the right place, and then that entity's entry goes. */
    method TelemetryAccepted(assetID: string)
      requires Valid()
      modifies this`cleared, metrics
      ensures Valid() && cleared == old(cleared) + {TrimSpace(assetID)}
      ensures metrics.staleAssets == old(metrics.staleAssets) - {TrimSpace(assetID)}
      ensures forall id | id in {assetID, TrimSpace(assetID)} ::
        EntityKey(ASSET, id) in metrics.staleAssets <==> EntityKey(ASSET, id) in old(metrics.staleAssets)
      ensures ':' !in assetID ==> metrics.staleAssets == old(metrics.staleAssets)
    {
      ClearingFits(told, cleared, metrics.staleAssets, assetID);
      metrics.ObserveStaleEntity(assetID, false);
      cleared := cleared + {TrimSpace(assetID)};
    }

    /** Reports every present entity that changed, then every one that vanished. */
    method PublishChanges(before: map<Key, State>, current: map<Key, State>) returns (ghost news: seq<Event>)
      requires Namespaced(current.Keys) && Namespaced(before.Keys)
      requires forall k | k in before :: k in told && told[k] == before[k]
      requires metrics.Valid() && GaugeFits(told, cleared, metrics.staleAssets)
      modifies this`log, this`told, this`cleared, metrics
      ensures log == old(log) + news && forall e | e in news :: Genuine(e, before, current)
      ensures told == old(told) + current + Gone(before, current) && cleared == old(cleared) - KeysOf(news)
      ensures old(told) == Told(old(log)) ==> told == Told(log)
      ensures metrics.Valid() && GaugeFits(told, cleared, metrics.staleAssets)
    {
      var present := InSomeOrder(current.Keys);
      OverlayAll(told, current, present);
      ghost var changed := ReportPresent(present, before, current);
      var vanished := InSomeOrder(before.Keys - current.Keys);
      OverlayAll(told, Gone(before, current), vanished);
      ghost var gone := ReportVanished(vanished, before, current);
      Associative(old(log), changed, gone);
      KeysOfConcat(changed, gone);
      news := changed + gone;
    }

    /** A report, together with the reason why it is one. */
    method Announce(key: Key, state: State, was: Option<State>, ghost before: map<Key, State>,
                    ghost current: map<Key, State>, ghost start: seq<Event>, ghost news: seq<Event>)
        returns (ghost more: seq<Event>)
      requires Namespaced({key}) && metrics.Valid() && GaugeFits(told, cleared, metrics.staleAssets)
      requires if key in current then state == current[key] && (key in before ==> before[key] != state)
               else key in before && state == Unknown
      requires was == if key in before then Some(before[key]) else None
      requires log == start + news && forall e | e in news :: Genuine(e, before, current)
      modifies this`log, this`told, this`cleared, metrics
      ensures log == start + more && forall e | e in more :: Genuine(e, before, current)
      ensures KeysOf(more) == KeysOf(news) + {key} && cleared == old(cleared) - {key}
      ensures told == old(told)[key := state] && (old(told) == Told(old(log)) ==> told == Told(log))
      ensures metrics.Valid() && GaugeFits(told, cleared, metrics.staleAssets)
    {
      var e := Report(key, state, was);
      GenuineReport(e, key, state, before, current);
      Associative(start, news, [e]);
      KeysOfConcat(news, [e]);
      assert KeysOf([e]) == {key} by {
        assert e in [e] && key in {key} && WellKeyed(key);
      }
      more := news + [e];
    }

    method ReportPresent(keys: seq<Key>, before: map<Key, State>, current: map<Key, State>)
          returns (ghost news: seq<Event>)
      requires Namespaced(current.Keys) && forall k | k in keys :: k in current
      requires forall k | k in before :: k in told && told[k] == before[k]
      requires metrics.Valid() && GaugeFits(told, cleared, metrics.staleAssets)
      modifies this`log, this`told, this`cleared, metrics
      ensures log == old(log) + news && forall e | e in news :: Genuine(e, before, current)
      ensures told == Overlay(old(told), current, keys) && cleared == old(cleared) - KeysOf(news)
      ensures old(told) == Told(old(log)) ==> told == Told(log)
      ensures metrics.Valid() && GaugeFits(told, cleared, metrics.staleAssets)
    {
      news := [];
      for i := 0 to |keys|
        invariant log == old(log) + news && forall e | e in news :: Genuine(e, before, current)
        invariant told == Overlay(old(told), current, keys[..i]) && cleared == old(cleared) - KeysOf(news)
        invariant old(told) == Told(old(log)) ==> told == Told(log)
        invariant metrics.Valid() && GaugeFits(told, cleared, metrics.staleAssets)
      {
        var key := keys[i];
        OverlayNext(old(told), current, keys, i);
        var was := if key in before then Some(before[key]) else None;
        if was != Some(current[key]) {
          news := Announce(key, current[key], was, before, current, old(log), news);
        }
      }
      assert keys[..|keys|] == keys;
    }

    method ReportVanished(keys: seq<Key>, before: map<Key, State>, current: map<Key, State>)
          returns (ghost news: seq<Event>)
      requires Namespaced(before.Keys) && forall k | k in keys :: k in before && k !in current
      requires metrics.Valid() && GaugeFits(told, cleared, metrics.staleAssets)
      modifies this`log, this`told, this`cleared, metrics
      ensures log == old(log) + news && forall e | e in news :: Genuine(e, before, current)
      ensures told == Overlay(old(told), Gone(before, current), keys) && cleared == old(cleared) - KeysOf(news)
      ensures old(told) == Told(old(log)) ==> told == Told(log)
      ensures metrics.Valid() && GaugeFits(told, cleared, metrics.staleAssets)
    {
      news := [];
      ghost var gone := Gone(before, current);
      for i := 0 to |keys|
        invariant log == old(log) + news && forall e | e in news :: Genuine(e, before, current)
        invariant told == Overlay(old(told), gone, keys[..i]) && cleared == old(cleared) - KeysOf(news)
        invariant old(told) == Told(old(log)) ==> told == Told(log)
        invariant metrics.Valid() && GaugeFits(told, cleared, metrics.staleAssets)
      {
        OverlayNext(old(told), gone, keys, i);
        news := Announce(keys[i], Unknown, Some(before[keys[i]]), before, current, old(log), news);
      }
      assert keys[..|keys|] == keys;
    }
  }

  /** The keys of a map, in any order. */
  method InSomeOrder(keys: set<Key>) returns (r: seq<Key>)
    ensures forall k :: k in r <==> k in keys
  {
    r := [];
    var todo := keys;
    while todo != {}
      invariant todo <= keys && forall k :: k in r <==> k in keys - todo
      decreases |todo|
    {
      var k :| k in todo;
      r := r + [k];
      todo := todo - {k};
    }
  }

  lemma GenuineReport(e: Event, key: Key, state: State, before: map<Key, State>, current: map<Key, State>)
    requires Namespaced({key})
    requires if key in current then state == current[key] && (key in before ==> before[key] != state)
             else key in before && state == Unknown
    requires e == Event(SplitEntityKey(key).0, SplitEntityKey(key).1, state,
                        if key in before then Some(before[key]) else None)
    ensures Genuine(e, before, current)
  {
    assert key in {key} && WellKeyed(key);
  }

  /** The entities some events are about. */
  function KeysOf(events: seq<Event>): set<Key>
  {
    set e | e in events :: EntityKey(e.entityType, e.id)
  }

  lemma KeysOfConcat(a: seq<Event>, b: seq<Event>)
    ensures KeysOf(a + b) == KeysOf(a) + KeysOf(b)
  {
    assert forall e :: e in a + b <==> e in a || e in b;
  }

  lemma KeysHaveColons(keys: set<Key>)
    requires Namespaced(keys)
    ensures forall k | k in keys :: ':' in k
  {
    forall k | k in keys ensures ':' in k {
      assert WellKeyed(k);
      var (entityType, id) := SplitEntityKey(k);
      assert EntityKey(entityType, id)[|entityType|] == ':';
    }
  }

  lemma Associative(a: seq<Event>, b: seq<Event>, c: seq<Event>)
    ensures a + b + c == a + (b + c)
  {
  }

  function Gone(before: map<Key, State>, current: map<Key, State>): map<Key, State>
  {
    map k | k in before.Keys - current.Keys :: Unknown
  }

  /** The base, overwritten with the entries of m at some keys, one after the other. */
  function Overlay(base: map<Key, State>, m: map<Key, State>, keys: seq<Key>): map<Key, State>
  {
    if keys == [] then base
    else
      var last, rest := keys[|keys| - 1], Overlay(base, m, keys[..|keys| - 1]);
      if last in m then rest[last := m[last]] else rest
  }

  lemma {:induction false} OverlaidKeys(base: map<Key, State>, m: map<Key, State>, keys: seq<Key>, k: Key)
    ensures k in keys && k in m ==> k in Overlay(base, m, keys) && Overlay(base, m, keys)[k] == m[k]
    ensures k !in keys || k !in m ==>
      (k in base <==> k in Overlay(base, m, keys)) && (k in base ==> Overlay(base, m, keys)[k] == base[k])
  {
    if keys != [] {
      OverlaidKeys(base, m, keys[..|keys| - 1], k);
      assert k in keys <==> k in keys[..|keys| - 1] || k == keys[|keys| - 1];
    }
  }

  lemma {:induction false} OverlayNext(base: map<Key, State>, m: map<Key, State>, keys: seq<Key>, i: nat)
    requires i < |keys| && keys[i] in m
    ensures Overlay(base, m, keys[..i + 1]) == Overlay(base, m, keys[..i])[keys[i] := m[keys[i]]]
    ensures keys[i] in base && base[keys[i]] == m[keys[i]] ==>
      Overlay(base, m, keys[..i + 1]) == Overlay(base, m, keys[..i])
  {
    assert keys[..i + 1][..i] == keys[..i];
    OverlaidKeys(base, m, keys[..i], keys[i]);
  }

  lemma {:induction false} OverlayAll(base: map<Key, State>, m: map<Key, State>, keys: seq<Key>)
    requires forall k :: k in keys <==> k in m
    ensures Overlay(base, m, keys) == base + m
  {
    forall k ensures k in Overlay(base, m, keys) <==> k in base + m
      ensures k in base + m && k in Overlay(base, m, keys) ==> Overlay(base, m, keys)[k] == (base + m)[k] {
      OverlaidKeys(base, m, keys, k);
    }
  }

  /** An event of a present entity is a change from what it was; one of a vanished entity says unknown. */
  predicate Genuine(e: Event, before: map<Key, State>, current: map<Key, State>)
  {
    var key := EntityKey(e.entityType, e.id);
    && (key in current ==> e.freshness == current[key] && e.previous != Some(e.freshness))
    && (key !in current ==> key in before && e.freshness == Unknown)
    && e.previous == if key in before then Some(before[key]) else None
  }

  lemma OverlaysAreBeliefs(heard: map<Key, State>, before: map<Key, State>, current: map<Key, State>)
    requires heard == Believed(heard.Keys, before) && before.Keys <= heard.Keys
    ensures heard + current + Gone(before, current) == Believed(heard.Keys, current)
  {
  }

  // ---- the set behind the gauge ----

  ghost predicate GaugeFits(told: map<Key, State>, cleared: set<Key>, stale: set<Key>)
  {
    stale == set k | k in told && !Trustworthy(told[k]) && k !in cleared
  }

  lemma GaugeFollows(told: map<Key, State>, cleared: set<Key>, stale: set<Key>, key: Key, state: State)
    requires GaugeFits(told, cleared, stale)
    ensures GaugeFits(told[key := state], cleared - {key}, if Trustworthy(state) then stale - {key} else stale + {key})
  {
  }

  /** Clearing a bare identifier: its asset's own key, which is longer, is not among what goes. */
  lemma {:induction false} ClearingFits(told: map<Key, State>, cleared: set<Key>, stale: set<Key>, assetID: string)
    requires GaugeFits(told, cleared, stale) && Namespaced(told.Keys)
    ensures GaugeFits(told, cleared + {TrimSpace(assetID)}, stale - {TrimSpace(assetID)})
    ensures "" !in stale && (':' !in assetID ==> TrimSpace(assetID) !in stale)
    ensures TrimSpace(assetID) !in {EntityKey(ASSET, assetID), EntityKey(ASSET, TrimSpace(assetID))}
  {
    KeysHaveColons(told.Keys);
    TrimShortens(assetID);
    if ':' !in assetID {
      TrimKeepsOut(assetID, ':');
    }
  }

  /** What the invariant means for an operator. On present entities the fold of everything published is
      the current snapshot, and the stale set holds exactly the untrustworthy ones that no accepted
      telemetry has cleared since they were reported. A vanished entity is reported as unknown, which
      is not trustworthy, so it stays in the set and in the gauge. */
  lemma WhatTheMonitorShows(m: Monitor)
    requires m.Valid()
    ensures forall k | k in m.previous :: k in Told(m.log) && Told(m.log)[k] == m.previous[k]
    ensures forall k | k in Told(m.log) && k !in m.previous :: Told(m.log)[k] == Unknown
    ensures m.metrics.staleEntities == |m.metrics.staleAssets|
    ensures forall k | k in m.previous ::
      k in m.metrics.staleAssets <==> !Trustworthy(m.previous[k]) && k !in m.cleared
    ensures forall k | k in Told(m.log) && k !in m.previous :: k in m.metrics.staleAssets <==> k !in m.cleared
  {
    assert Told(m.log) == Believed(Told(m.log).Keys, m.previous);
  }

  /** The identifier of one asset can be the key of another: accepted telemetry of the first takes the
      second, of which nothing was ever heard, out of the stale set. */
  method IdentifierCollides(policy: Policy, now: int, id: string) returns (m: Monitor)
    requires Trimmed(id)
    ensures m.Valid() && EntityKey(ASSET, id) in m.previous && m.previous[EntityKey(ASSET, id)] == Unknown
    ensures EntityKey(ASSET, id) !in m.metrics.staleAssets
  {
    m := NeverHeard(policy, now, id);
    StoredKeyIsTrimmed(ASSET, id);
    m.TelemetryAccepted(EntityKey(ASSET, id));
  }

  method NeverHeard(policy: Policy, now: int, id: string) returns (m: Monitor)
    requires Trimmed(id)
    ensures fresh(m) && fresh(m.metrics) && m.Valid() && m.previous == map[EntityKey(ASSET, id) := Unknown]
  {
    var metrics := new Metrics();
    m := new Monitor(policy, metrics);
    var quiet := AssetSignal(id, "available", "connected", None);
    ClassifiedOne(m.policy, quiet, now);
    var _ := m.Reconcile(Some([quiet]), Some([]), now);
  }

  lemma {:induction false} ClassifiedOne(p: Policy, a: AssetSignal, now: int)
    ensures Classified(p, [a], [], now) == map[EntityKey(ASSET, a.id) := ForAsset(p, a, now)]
  {
    assert [a][..0] == [];
  }
}
