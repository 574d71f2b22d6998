/** How a scenario becomes a timeline: the list of actions it plans, numbered in the order they are added
    and sorted by time. */
module Timeline {
  import opened Actions
  import opened Options
  import opened M = Motion
  import S = EngineState
  import EngineMachine
  import EngineShape

  const TELEMETRY_MS := 1000
  const OBSERVE_FOR_MS := 120_000
  const DUPLICATE_AFTER_MS := 500

  /** An asset of the scenario and the time its last move ends. */
  datatype Asset = Asset(id: string, started: bool, lastAt: int)

  /** Parsed durations are whole milliseconds, zero when left out. */
  datatype Event =
    | Observe(after: int, until: int, interval: int, delay: int, track: string, duplicate: bool)
    | Area(after: int, until: int, interval: int, kind: string)
    | Single(after: int, name: string)
    | Travels(move: Move)

  /** A planned action: when, and what. */
  type Planned = (int, string)

  predicate Milliseconds(x: int)
  {
    0 <= x <= MAX_INT64
  }

  predicate Parsed(ev: Event)
  {
    match ev
    case Observe(after, until, interval, delay, _, _) =>
      Milliseconds(after) && Milliseconds(until) && Milliseconds(interval) && Milliseconds(delay)
    case Area(after, until, interval, _) => Milliseconds(after) && Milliseconds(until) && Milliseconds(interval)
    case Single(after, _) => Milliseconds(after)
    case Travels(move) => Valid(move)
  }

  // ---- repeated actions ----

  /** What one tick emits: an action at an offset, and possibly a second one. */
  function AtTick(t: int, first: Planned, second: Option<Planned>): seq<Planned>
  {
    if second.Some? then [(t + first.0, first.1), (t + second.value.0, second.value.1)] else [(t + first.0, first.1)]
  }

  predicate TickFits(t: int, first: Planned, second: Option<Planned>)
  {
    t + first.0 <= MAX_INT64 && (second.Some? ==> t + second.value.0 <= MAX_INT64)
  }

  function Sampled(at: int, last: int, step: int, first: Planned, second: Option<Planned>): seq<Planned>
    requires step > 0
    decreases last - at
  {
    if at > last then [] else AtTick(at, first, second) + Sampled(at + step, last, step, first, second)
  }

  /** Every time of a sampling fits in 64 bits, the steps its loop takes included; only a loop with `past`
      steps beyond its last tick. */
  predicate SamplesFit(at: int, last: int, step: int, first: Planned, second: Option<Planned>, past: bool)
    requires step > 0
    decreases last - at
  {
    at > last ||
    (TickFits(at, first, second) && (at < last || past ==> at + step <= MAX_INT64)
     && SamplesFit(at + step, last, step, first, second, past))
  }

  /** How often a sampling emits. */
  function Ticks(at: int, last: int, step: int): (n: nat)
    requires step > 0
    ensures at > last ==> n == 0
    ensures at <= last ==> n > 0 && at + (n - 1) * step <= last < at + n * step
    decreases last - at
  {
    if at > last then 0
    else
      var rest := Ticks(at + step, last, step);
      StepOn(at, step, rest);
      1 + rest
  }

  lemma StepOn(at: int, step: int, k: int)
    ensures (at + step) + k * step == at + (k + 1) * step
    ensures (at + step) + (k - 1) * step == at + k * step
  {
  }

  lemma {:induction false} SampledOnce(at: int, last: int, step: int, first: Planned)
    requires step > 0
    ensures var s, n := Sampled(at, last, step, first, None), Ticks(at, last, step);
      |s| == n && forall k | 0 <= k < n :: s[k] == (at + k * step + first.0, first.1)
    decreases last - at
  {
    if at <= last {
      var s, rest := Sampled(at, last, step, first, None), Sampled(at + step, last, step, first, None);
      SampledOnce(at + step, last, step, first);
      assert s == [(at + first.0, first.1)] + rest;
      forall k | 0 <= k < |s| ensures s[k] == (at + k * step + first.0, first.1) {
        StepOn(at, step, k);
        assert k > 0 ==> s[k] == rest[k - 1];
      }
    }
  }

  /** The k-th pair of a list is an action and its duplicate, both planned from one instant. */
  predicate PairAt(s: seq<Planned>, k: nat, t: int, first: Planned, second: Planned)
  {
    2 * k + 1 < |s| && s[2 * k] == (t + first.0, first.1) && s[2 * k + 1] == (t + second.0, second.1)
  }

  lemma NextPair(pair: seq<Planned>, rest: seq<Planned>, k: nat, t: int, first: Planned, second: Planned)
    requires |pair| == 2 && PairAt(rest, k, t, first, second)
    ensures PairAt(pair + rest, k + 1, t, first, second)
  {
  }

  lemma PairsFollow(pair: seq<Planned>, rest: seq<Planned>, n: nat, at: int, step: int, first: Planned,
                    second: Planned)
    requires pair == AtTick(at, first, Some(second)) && |rest| == 2 * n
    requires forall k | 0 <= k < n :: PairAt(rest, k, (at + step) + k * step, first, second)
    ensures forall k | 0 <= k < n + 1 :: PairAt(pair + rest, k, at + k * step, first, second)
  {
    forall k | 0 <= k < n + 1 ensures PairAt(pair + rest, k, at + k * step, first, second) {
      if k > 0 {
        StepOn(at, step, k);
        NextPair(pair, rest, k - 1, (at + step) + (k - 1) * step, first, second);
      }
    }
  }

  lemma {:induction false} SampledTwice(at: int, last: int, step: int, first: Planned, second: Planned)
    requires step > 0
    ensures var s, n := Sampled(at, last, step, first, Some(second)), Ticks(at, last, step);
      |s| == 2 * n && forall k | 0 <= k < n :: PairAt(s, k, at + k * step, first, second)
    decreases last - at
  {
    if at <= last {
      var rest, n := Sampled(at + step, last, step, first, Some(second)), Ticks(at + step, last, step);
      SampledTwice(at + step, last, step, first, second);
      PairsFollow(AtTick(at, first, Some(second)), rest, n, at, step, first, second);
    }
  }

  /** A sampling emits at its start and at every further step up to its last instant, and nowhere else: one
      action a tick, or an action and its duplicate. */
  lemma {:induction false} SampledTicks(at: int, last: int, step: int, first: Planned, second: Option<Planned>)
    requires step > 0
    ensures var s, n := Sampled(at, last, step, first, second), Ticks(at, last, step);
      if second.None? then
        |s| == n && forall k | 0 <= k < n :: s[k] == (at + k * step + first.0, first.1)
      else
        |s| == 2 * n && forall k | 0 <= k < n :: PairAt(s, k, at + k * step, first, second.value)
  {
    if second.None? {
      SampledOnce(at, last, step, first);
    } else {
      SampledTwice(at, last, step, first, second.value);
    }
  }

  /** A sampling fits if and only if its last tick does, and the step beyond it where the loop takes one. */
  lemma {:induction false} SamplesFitExactlyWhen(at: int, last: int, step: int, first: Planned,
                                                 second: Option<Planned>, past: bool)
    requires step > 0 && at <= last && first.0 >= 0 && (second.Some? ==> second.value.0 >= 0)
    ensures var n := Ticks(at, last, step);
      var final := at + (n - 1) * step;
      SamplesFit(at, last, step, first, second, past) <==>
        TickFits(final, first, second) && (past || final < last ==> at + n * step <= MAX_INT64)
    decreases last - at
  {
    var n := Ticks(at, last, step);
    if at + step <= last {
      var rest := Ticks(at + step, last, step);
      StepOn(at, step, rest);
      SamplesFitExactlyWhen(at + step, last, step, first, second, past);
      assert n == 1 + rest && at + (n - 1) * step == (at + step) + (rest - 1) * step;
      assert at + step <= at + (n - 1) * step by {
        LaterTick(at + step, step, rest - 1);
      }
    } else {
      assert Ticks(at + step, last, step) == 0 && n == 1;
    }
  }

  lemma LaterTick(at: int, step: int, k: nat)
    requires step > 0
    ensures at <= at + k * step
  {
  }

  // ---- the plan ----

  function Until(after: int, until: int): int
  {
    if until == 0 then after + OBSERVE_FOR_MS else until
  }

  /** An event without an interval emits once. */
  function Repeated(after: int, until: int, interval: int, first: Planned, second: Option<Planned>): seq<Planned>
  {
    if interval <= 0 then AtTick(after, first, second)
    else Sampled(after, Until(after, until), interval, first, second)
  }

  predicate RepeatsFit(after: int, until: int, interval: int, first: Planned, second: Option<Planned>, past: bool)
  {
    if interval <= 0 then TickFits(after, first, second)
    else
      && (until == 0 ==> after + OBSERVE_FOR_MS <= MAX_INT64)
      && SamplesFit(after, Until(after, until), interval, first, second, past)
  }

  function Second(delay: int, track: string, duplicate: bool): Option<Planned>
  {
    if duplicate then Some((delay + DUPLICATE_AFTER_MS, "observe.duplicate." + track)) else None
  }

  function AssetPlan(a: Asset): seq<Planned>
  {
    (if a.started then [(0, "telemetry." + a.id)] else [])
    + Sampled(TELEMETRY_MS, a.lastAt, TELEMETRY_MS, (0, "telemetry." + a.id), None)
  }

  function EventPlan(ev: Event): seq<Planned>
  {
    match ev
    case Observe(after, until, interval, delay, track, duplicate) =>
      Repeated(after, until, interval, (delay, "observe." + track), Second(delay, track, duplicate))
    case Area(after, until, interval, kind) => Repeated(after, until, interval, (0, "area." + kind), None)
    case Single(after, name) => [(after, name)]
    case Travels(_) => []
  }

  /** A tick of a sampling is one of the steps up to its last instant. */
  lemma {:induction false} TicksAreSteps(at: int, last: int, step: int, k: nat)
    requires step > 0
    ensures k < Ticks(at, last, step) <==> at + k * step <= last
  {
    var n := Ticks(at, last, step);
    if at <= last {
      if k < n {
        StepsApart(at, step, k, n - 1);
      } else {
        StepsApart(at, step, n, k);
      }
    } else {
      StepsApart(at, step, 0, k);
    }
  }

  lemma StepsApart(at: int, step: int, j: nat, k: nat)
    requires step > 0 && j <= k
    ensures at + j * step <= at + k * step
  {
    assert (k - j) * step >= 0;
  }

  /** What a sampling plans, told without its loop. */
  lemma {:induction false} SampledAre(at: int, last: int, step: int, first: Planned, x: Planned)
    requires step > 0
    ensures x in Sampled(at, last, step, first, None) <==>
      exists k: nat :: at + k * step <= last && x == (at + k * step + first.0, first.1)
  {
    var s := Sampled(at, last, step, first, None);
    SampledTicks(at, last, step, first, None);
    if x in s {
      var k: nat :| k < |s| && s[k] == x;
      TicksAreSteps(at, last, step, k);
    }
    if k: nat :| at + k * step <= last && x == (at + k * step + first.0, first.1) {
      TicksAreSteps(at, last, step, k);
      assert s[k] == x;
    }
  }

  /** An asset reports when the scenario begins, if it is placed somewhere, and then at every full second up to
      its last arrival. */
  lemma TelemetryIsPlanned(a: Asset, x: Planned)
    ensures x in AssetPlan(a) <==>
      x.1 == "telemetry." + a.id && ((a.started && x.0 == 0) || (x.0 > 0 && x.0 % 1000 == 0 && x.0 <= a.lastAt))
    ensures |AssetPlan(a)| == (if a.started then 1 else 0) + (if a.lastAt >= 1000 then a.lastAt / 1000 else 0)
  {
    var first := (0, "telemetry." + a.id);
    SampledAre(TELEMETRY_MS, a.lastAt, TELEMETRY_MS, first, x);
    if x.0 > 0 && x.0 % 1000 == 0 && x.0 <= a.lastAt {
      var k: nat := x.0 / 1000 - 1;
      assert TELEMETRY_MS + k * TELEMETRY_MS == x.0;
    }
    SampledTicks(TELEMETRY_MS, a.lastAt, TELEMETRY_MS, first, None);
  }

  predicate SampledPair(at: int, last: int, step: int, first: Planned, second: Planned, k: nat, x: Planned)
  {
    at + k * step <= last && x in {(at + k * step + first.0, first.1), (at + k * step + second.0, second.1)}
  }

  lemma SampledIsPair(at: int, last: int, step: int, first: Planned, second: Planned, i: nat) returns (k: nat)
    requires step > 0 && i < |Sampled(at, last, step, first, Some(second))|
    ensures SampledPair(at, last, step, first, second, k, Sampled(at, last, step, first, Some(second))[i])
  {
    var s, n := Sampled(at, last, step, first, Some(second)), Ticks(at, last, step);
    SampledTicks(at, last, step, first, Some(second));
    k := i / 2;
    assert k < n && PairAt(s, k, at + k * step, first, second);
    TicksAreSteps(at, last, step, k);
    OneOfThePair(s, k, i, at + k * step, first, second);
  }

  lemma OneOfThePair(s: seq<Planned>, k: nat, i: nat, t: int, first: Planned, second: Planned)
    requires PairAt(s, k, t, first, second) && i < |s| && (i == 2 * k || i == 2 * k + 1)
    ensures s[i] in {(t + first.0, first.1), (t + second.0, second.1)}
  {
  }

  lemma {:induction false} PairIsSampled(at: int, last: int, step: int, first: Planned, second: Planned, k: nat,
                                         x: Planned)
    requires step > 0 && SampledPair(at, last, step, first, second, k, x)
    ensures x in Sampled(at, last, step, first, Some(second))
  {
    SampledTicks(at, last, step, first, Some(second));
    TicksAreSteps(at, last, step, k);
    assert PairAt(Sampled(at, last, step, first, Some(second)), k, at + k * step, first, second);
  }

  predicate ObservedAt(ev: Event, k: nat, x: Planned)
    requires ev.Observe?
  {
    && (if ev.interval <= 0 then k == 0
        else ev.after + k * ev.interval <= if ev.until == 0 then ev.after + 120_000 else ev.until)
    && (x == (ev.after + k * ev.interval + ev.delay, "observe." + ev.track)
        || (ev.duplicate && x == (ev.after + k * ev.interval + ev.delay + 500, "observe.duplicate." + ev.track)))
  }

  /** A track is observed at the start of its event and then at every interval up to its end, two minutes
      later when none is given; each observation arrives after the delay, and a duplicate, where one is asked
      for, half a second behind it. Without an interval the track is observed once. */
  lemma ObservationsArePlanned(ev: Event, x: Planned)
    requires ev.Observe?
    ensures x in EventPlan(ev) <==> exists k: nat :: ObservedAt(ev, k, x)
  {
    if x in EventPlan(ev) {
      var k := PlannedIsObserved(ev, x);
    }
    if k: nat :| ObservedAt(ev, k, x) {
      ObservedIsPlanned(ev, k, x);
    }
  }

  predicate AreaAt(ev: Event, k: nat, x: Planned)
    requires ev.Area?
  {
    && (if ev.interval <= 0 then k == 0
        else ev.after + k * ev.interval <= if ev.until == 0 then ev.after + 120_000 else ev.until)
    && x == (ev.after + k * ev.interval, "area." + ev.kind)
  }

  /** An area is reported in the same rhythm, any other event once, and a move plans no action of its own. */
  lemma OthersArePlanned(ev: Event, x: Planned)
    requires !ev.Observe?
    ensures x in EventPlan(ev) <==>
      match ev
      case Area(_, _, _, _) => exists k: nat :: AreaAt(ev, k, x)
      case Single(after, name) => x == (after, name)
      case _ => false
  {
    if ev.Area? {
      var step := if ev.interval > 0 then ev.interval else 1;
      SampledAre(ev.after, Until(ev.after, ev.until), step, (0, "area." + ev.kind), x);
      if x in EventPlan(ev) {
        if ev.interval <= 0 {
          assert AreaAt(ev, 0, x);
        } else {
          var k: nat :| ev.after + k * ev.interval <= Until(ev.after, ev.until)
            && x == (ev.after + k * ev.interval + 0, "area." + ev.kind);
          assert AreaAt(ev, k, x);
        }
      }
    }
  }

  lemma PlannedIsObserved(ev: Event, x: Planned) returns (k: nat)
    requires ev.Observe? && x in EventPlan(ev)
    ensures ObservedAt(ev, k, x)
  {
    if ev.interval <= 0 {
      k := 0;
    } else if ev.duplicate {
      k := PlannedWithDuplicate(ev, x);
    } else {
      var first, last := (ev.delay, "observe." + ev.track), Until(ev.after, ev.until);
      SampledAre(ev.after, last, ev.interval, first, x);
      k :| ev.after + k * ev.interval <= last && x == (ev.after + k * ev.interval + first.0, first.1);
    }
  }

  lemma PlannedWithDuplicate(ev: Event, x: Planned) returns (k: nat)
    requires ev.Observe? && ev.interval > 0 && ev.duplicate && x in EventPlan(ev)
    ensures ObservedAt(ev, k, x)
  {
    var first, second := (ev.delay, "observe." + ev.track), Second(ev.delay, ev.track, true).value;
    var s := Sampled(ev.after, Until(ev.after, ev.until), ev.interval, first, Some(second));
    var i: nat :| i < |s| && s[i] == x;
    k := SampledIsPair(ev.after, Until(ev.after, ev.until), ev.interval, first, second, i);
  }

  lemma ObservedIsPlanned(ev: Event, k: nat, x: Planned)
    requires ev.Observe? && ObservedAt(ev, k, x)
    ensures x in EventPlan(ev)
  {
    var first, second := (ev.delay, "observe." + ev.track), Second(ev.delay, ev.track, ev.duplicate);
    if ev.interval > 0 {
      if second.Some? {
        PairIsSampled(ev.after, Until(ev.after, ev.until), ev.interval, first, second.value, k, x);
      } else {
        SampledAre(ev.after, Until(ev.after, ev.until), ev.interval, first, x);
      }
    }
  }

  predicate AssetFits(a: Asset)
  {
    SamplesFit(TELEMETRY_MS, a.lastAt, TELEMETRY_MS, (0, "telemetry." + a.id), None, false)
  }

  predicate EventFits(ev: Event)
  {
    match ev
    case Observe(after, until, interval, delay, track, duplicate) =>
      RepeatsFit(after, until, interval, (delay, "observe." + track), Second(delay, track, duplicate), false)
    case Area(after, until, interval, kind) => RepeatsFit(after, until, interval, (0, "area." + kind), None, true)
    case _ => true
  }

  function AssetsPlan(assets: seq<Asset>): seq<Planned>
  {
    if assets == [] then [] else AssetPlan(assets[0]) + AssetsPlan(assets[1..])
  }

  function EventsPlan(events: seq<Event>): seq<Planned>
  {
    if events == [] then [] else EventPlan(events[0]) + EventsPlan(events[1..])
  }

  /** Everything a scenario plans, in the order it is added. */
  function Plan(assets: seq<Asset>, events: seq<Event>): seq<Planned>
  {
    AssetsPlan(assets) + EventsPlan(events)
  }

  /** What a scenario must satisfy for its timeline to be built. */
  predicate Fits(assets: seq<Asset>, events: seq<Event>)
  {
    && (forall a | a in assets :: AssetFits(a)) && (forall ev | ev in events :: EventFits(ev))
    && |Plan(assets, events)| <= MAX_SCHEDULED_ACTIONS
  }

  lemma Appended(a: seq<Planned>, b: seq<Planned>, c: seq<Planned>)
    ensures a + b + c == a + (b + c)
  {
  }

  lemma BothEmitted(before: seq<Planned>, between: seq<Planned>, after: seq<Planned>, t: int, first: Planned,
                    second: Planned)
    requires between == before + [(t + first.0, first.1)] && after == between + [(t + second.0, second.1)]
    ensures after == before + AtTick(t, first, Some(second))
  {
  }

  lemma SampledNext(plan: seq<Planned>, at: int, last: int, step: int, first: Planned, second: Option<Planned>)
    requires step > 0 && at <= last
    ensures plan + Sampled(at, last, step, first, second)
      == plan + AtTick(at, first, second) + Sampled(at + step, last, step, first, second)
  {
    Appended(plan, AtTick(at, first, second), Sampled(at + step, last, step, first, second));
  }

  lemma {:induction false} RecordedOneMore(events: map<nat, S.Event>, actions: seq<Action>, a: Action, status: S.Status)
    ensures S.Recorded(events, actions + [a], status)
      == S.Recorded(events, actions, status)[a.seqNo := S.Event(a.atMs, a.name, status)]
    decreases |actions|
  {
    if actions == [] {
      assert [] + [a] == [a] && [a][1..] == [];
    } else {
      assert (actions + [a])[1..] == actions[1..] + [a];
      var more := events[actions[0].seqNo := S.Event(actions[0].atMs, actions[0].name, status)];
      RecordedOneMore(more, actions[1..], a, status);
    }
  }

  /** The actions of a plan: numbered from one in the order they were added. */
  ghost predicate Numbered(actions: seq<Action>, plan: seq<Planned>)
  {
    && |actions| == |plan| <= MAX_SCHEDULED_ACTIONS
    && forall i {:trigger NumberedAt(actions, plan, i)} | 0 <= i < |actions| :: NumberedAt(actions, plan, i)
  }

  predicate NumberedAt(actions: seq<Action>, plan: seq<Planned>, i: nat)
    requires i < |actions| && i < |plan|
  {
    actions[i] == Action(plan[i].0, i + 1, plan[i].1, Plain) && Milliseconds(plan[i].0)
  }

  lemma NumberedOneMore(actions: seq<Action>, plan: seq<Planned>, atMs: int, name: string)
    requires Numbered(actions, plan) && |plan| < MAX_SCHEDULED_ACTIONS && Milliseconds(atMs)
    ensures Numbered(actions + [Action(atMs, |plan| + 1, name, Plain)], plan + [(atMs, name)])
  {
    var more, longer := actions + [Action(atMs, |plan| + 1, name, Plain)], plan + [(atMs, name)];
    forall i | 0 <= i < |more| ensures NumberedAt(more, longer, i) {
      assert i < |actions| ==> NumberedAt(actions, plan, i);
    }
  }

  lemma {:induction false} AddedOneMore(actions: seq<Action>, events: map<nat, S.Event>, plan: seq<Planned>, a: Action)
    requires Numbered(actions, plan) && |plan| < MAX_SCHEDULED_ACTIONS && Milliseconds(a.atMs)
    requires events == S.Recorded(map[], actions, S.Pending) && a.seqNo == |plan| + 1 && a.effect == Plain
    ensures Numbered(actions + [a], plan + [(a.atMs, a.name)])
    ensures events[a.seqNo := S.Event(a.atMs, a.name, S.Pending)] == S.Recorded(map[], actions + [a], S.Pending)
  {
    RecordedOneMore(map[], actions, a, S.Pending);
    NumberedOneMore(actions, plan, a.atMs, a.name);
  }

  // ---- the builder ----

  class Builder {
    var actions: seq<Action>
    var eventStates: map<nat, S.Event>
    var nextSeq: nat
    ghost var plan: seq<Planned>

    ghost predicate Valid()
      reads this
    {
      Numbered(actions, plan) && nextSeq == |plan| && eventStates == S.Recorded(map[], actions, S.Pending)
    }

    constructor ()
      ensures Valid() && plan == []
    {
      actions, eventStates, nextSeq, plan := [], map[], 0, [];
    }

    method Add(atMs: int, name: string) returns (ok: bool)
      requires Valid() && Milliseconds(atMs)
      modifies this
      ensures Valid() && ok == (|old(plan)| < MAX_SCHEDULED_ACTIONS)
      ensures plan == if ok then old(plan) + [(atMs, name)] else old(plan)
    {
      if |actions| >= MAX_SCHEDULED_ACTIONS {
        return false;
      }
      nextSeq := nextSeq + 1;
      var action := Action(atMs, nextSeq, name, Plain);
      AddedOneMore(actions, eventStates, plan, action);
      actions := actions + [action];
      eventStates := eventStates[nextSeq := S.Event(atMs, name, S.Pending)];
      plan := plan + [(atMs, name)];
      ok := true;
    }

    method AddAfter(t: int, planned: Planned) returns (ok: bool)
      requires Valid() && Milliseconds(t) && planned.0 >= 0
      modifies this
      ensures Valid()
      ensures ok <==> |old(plan)| < MAX_SCHEDULED_ACTIONS && t + planned.0 <= MAX_INT64
      ensures ok ==> plan == old(plan) + [(t + planned.0, planned.1)]
    {
      var at := AddMilliseconds(t, planned.0);
      if at.None? {
        return false;
      }
      ok := Add(t + planned.0, planned.1);
    }

    /** One tick: its action, and its duplicate where there is one. */
    method Emit(t: int, first: Planned, second: Option<Planned>) returns (ok: bool)
      requires Valid() && Milliseconds(t) && first.0 >= 0 && (second.Some? ==> second.value.0 >= 0)
      modifies this
      ensures Valid()
      ensures ok <==> |old(plan)| + |AtTick(t, first, second)| <= MAX_SCHEDULED_ACTIONS && TickFits(t, first, second)
      ensures ok ==> plan == old(plan) + AtTick(t, first, second)
    {
      if second.Some? {
        ok := EmitBoth(t, first, second.value);
      } else {
        ok := AddAfter(t, first);
      }
    }

    method EmitBoth(t: int, first: Planned, second: Planned) returns (ok: bool)
      requires Valid() && Milliseconds(t) && first.0 >= 0 && second.0 >= 0
      modifies this
      ensures Valid()
      ensures ok <==> |old(plan)| + 2 <= MAX_SCHEDULED_ACTIONS && t + first.0 <= MAX_INT64 && t + second.0 <= MAX_INT64
      ensures ok ==> plan == old(plan) + AtTick(t, first, Some(second))
    {
      ok := AddAfter(t, first);
      ghost var between := plan;
      if ok {
        ok := AddAfter(t, second);
        if ok {
          BothEmitted(old(plan), between, plan, t, first, second);
        }
      }
    }

    /** Emits at every tick; a loop without `past` stops at its last one before stepping on. */
    method Sample(start: int, last: int, step: int, first: Planned, second: Option<Planned>, past: bool)
          returns (ok: bool)
      requires Valid() && Milliseconds(start) && Milliseconds(last) && step > 0
      requires first.0 >= 0 && (second.Some? ==> second.value.0 >= 0)
      modifies this
      ensures Valid()
      ensures ok <==>
        && SamplesFit(start, last, step, first, second, past)
        && |old(plan)| + |Sampled(start, last, step, first, second)| <= MAX_SCHEDULED_ACTIONS
      ensures ok ==> plan == old(plan) + Sampled(start, last, step, first, second)
    {
      var at := start;
      while at <= last
        invariant Valid() && Milliseconds(at)
        invariant old(plan) + Sampled(start, last, step, first, second) == plan + Sampled(at, last, step, first, second)
        invariant SamplesFit(start, last, step, first, second, past) == SamplesFit(at, last, step, first, second, past)
        decreases last - at
      {
        SampledNext(plan, at, last, step, first, second);
        ok := Emit(at, first, second);
        if !ok {
          return;
        }
        if !past && at >= last {
          break;
        }
        var next := AddMilliseconds(at, step);
        if next.None? {
          return false;
        }
        at := next.value;
      }
      assert plan + [] == plan;
      ok := true;
    }

    /** An event that may repeat; the stop of its loop is computed first. */
    method Repeat(after: int, until: int, interval: int, first: Planned, second: Option<Planned>, past: bool)
        returns (ok: bool)
      requires Valid() && Milliseconds(after) && Milliseconds(until)
      requires first.0 >= 0 && (second.Some? ==> second.value.0 >= 0)
      modifies this
      ensures Valid()
      ensures ok <==>
        && RepeatsFit(after, until, interval, first, second, past)
        && |old(plan)| + |Repeated(after, until, interval, first, second)| <= MAX_SCHEDULED_ACTIONS
      ensures ok ==> plan == old(plan) + Repeated(after, until, interval, first, second)
    {
      if interval <= 0 {
        ok := Emit(after, first, second);
        return;
      }
      var last := until;
      if until == 0 {
        var sum := AddMilliseconds(after, OBSERVE_FOR_MS);
        if sum.None? {
          return false;
        }
        last := sum.value;
      }
      ok := Sample(after, last, interval, first, second, past);
    }

    method AddAsset(a: Asset) returns (ok: bool)
      requires Valid() && Milliseconds(a.lastAt)
      modifies this
      ensures Valid()
      ensures ok <==> AssetFits(a) && |old(plan)| + |AssetPlan(a)| <= MAX_SCHEDULED_ACTIONS
      ensures ok ==> plan == old(plan) + AssetPlan(a)
    {
      var name := "telemetry." + a.id;
      ghost var initial: seq<Planned> := if a.started then [(0, name)] else [];
      ghost var sampled := Sampled(TELEMETRY_MS, a.lastAt, TELEMETRY_MS, (0, name), None);
      Appended(plan, initial, sampled);
      if a.started {
        ok := Add(0, name);
        if !ok {
          return;
        }
      } else {
        assert plan + initial == plan;
      }
      ok := Sample(TELEMETRY_MS, a.lastAt, TELEMETRY_MS, (0, name), None, false);
    }

    method AddEvent(ev: Event) returns (ok: bool)
      requires Valid() && Parsed(ev)
      modifies this
      ensures Valid()
      ensures ok <==> EventFits(ev) && |old(plan)| + |EventPlan(ev)| <= MAX_SCHEDULED_ACTIONS
      ensures ok ==> plan == old(plan) + EventPlan(ev)
    {
      match ev
      case Observe(after, until, interval, delay, track, duplicate) =>
        ok := Repeat(after, until, interval, (delay, "observe." + track), Second(delay, track, duplicate), false);
      case Area(after, until, interval, kind) =>
        ok := Repeat(after, until, interval, (0, "area." + kind), None, true);
      case Single(after, name) =>
        ok := Add(after, name);
      case Travels(_) =>
        assert plan + [] == plan;
        ok := true;
    }

    method AddAssets(assets: seq<Asset>) returns (ok: bool)
      requires Valid() && forall a | a in assets :: Milliseconds(a.lastAt)
      modifies this
      ensures Valid()
      ensures ok <==>
        (forall a | a in assets :: AssetFits(a)) && |old(plan)| + |AssetsPlan(assets)| <= MAX_SCHEDULED_ACTIONS
      ensures ok ==> plan == old(plan) + AssetsPlan(assets)
    {
      ok := true;
      assert assets[0..] == assets;
      for i := 0 to |assets|
        invariant Valid() && ok && forall k | 0 <= k < i :: AssetFits(assets[k])
        invariant old(plan) + AssetsPlan(assets) == plan + AssetsPlan(assets[i..])
      {
        assert assets[i..][1..] == assets[i + 1..];
        Appended(plan, AssetPlan(assets[i]), AssetsPlan(assets[i + 1..]));
        ok := AddAsset(assets[i]);
        if !ok {
          return;
        }
      }
      assert plan + [] == plan;
    }

    method AddEvents(events: seq<Event>) returns (ok: bool)
      requires Valid() && forall ev | ev in events :: Parsed(ev)
      modifies this
      ensures Valid()
      ensures ok <==>
        (forall ev | ev in events :: EventFits(ev)) && |old(plan)| + |EventsPlan(events)| <= MAX_SCHEDULED_ACTIONS
      ensures ok ==> plan == old(plan) + EventsPlan(events)
    {
      ok := true;
      assert events[0..] == events;
      for i := 0 to |events|
        invariant Valid() && ok && forall k | 0 <= k < i :: EventFits(events[k])
        invariant old(plan) + EventsPlan(events) == plan + EventsPlan(events[i..])
      {
        assert events[i..][1..] == events[i + 1..];
        Appended(plan, EventPlan(events[i]), EventsPlan(events[i + 1..]));
        ok := AddEvent(events[i]);
        if !ok {
          return;
        }
      }
      assert plan + [] == plan;
    }
  }

  // ---- the timeline ----

  function Enumerated(plan: seq<Planned>): seq<Action>
  {
    seq(|plan|, i requires 0 <= i < |plan| => Action(plan[i].0, i + 1, plan[i].1, Plain))
  }

  /** The timeline of a plan: every planned action once, numbered from one, in execution order. */
  ghost predicate Schedules(timeline: seq<Action>, plan: seq<Planned>)
  {
    && |timeline| == |plan| <= MAX_SCHEDULED_ACTIONS && Ordered(timeline) && DistinctNumbers(timeline)
    && (forall i | 0 <= i < |plan| :: Action(plan[i].0, i + 1, plan[i].1, Plain) in timeline)
    && (forall a | a in timeline :: 1 <= a.seqNo <= |plan| && Milliseconds(a.atMs) && a.effect == Plain
          && (a.atMs, a.name) == plan[a.seqNo - 1])
  }

  lemma {:induction false} SortedIsScheduled(actions: seq<Action>, plan: seq<Planned>)
    requires |actions| == |plan| <= MAX_SCHEDULED_ACTIONS
    requires forall i | 0 <= i < |actions| ::
      actions[i] == Action(plan[i].0, i + 1, plan[i].1, Plain) && Milliseconds(plan[i].0)
    ensures Schedules(StableSort(actions), plan)
  {
    StableSortOrders(actions);
    forall i | 0 <= i < |plan| ensures Action(plan[i].0, i + 1, plan[i].1, Plain) in StableSort(actions) {
      assert actions[i] in actions;
    }
  }

  lemma NumberedIsScheduled(actions: seq<Action>, plan: seq<Planned>)
    requires Numbered(actions, plan)
    ensures actions == Enumerated(plan) && Schedules(StableSort(Enumerated(plan)), plan)
  {
    forall i | 0 <= i < |actions|
      ensures actions[i] == Action(plan[i].0, i + 1, plan[i].1, Plain) && Milliseconds(plan[i].0)
    {
      assert NumberedAt(actions, plan, i);
    }
    assert actions == Enumerated(plan);
    SortedIsScheduled(actions, plan);
  }

  /** build: succeeds exactly when the plan fits, and then the timeline schedules it. */
  method Build(assets: seq<Asset>, events: seq<Event>)
      returns (ok: bool, timeline: seq<Action>, eventStates: map<nat, S.Event>, nextSeq: nat)
    requires (forall a | a in assets :: Milliseconds(a.lastAt)) && (forall ev | ev in events :: Parsed(ev))
    ensures ok <==> Fits(assets, events)
    ensures ok ==> Schedules(timeline, Plan(assets, events)) && nextSeq == |timeline|
    ensures ok ==> timeline == StableSort(Enumerated(Plan(assets, events)))
    ensures ok ==> eventStates == S.Recorded(map[], Enumerated(Plan(assets, events)), S.Pending)
  {
    timeline, eventStates, nextSeq := [], map[], 0;
    var b := new Builder();
    ok := AddAll(b, assets, events);
    if !ok {
      return;
    }
    NumberedIsScheduled(b.actions, b.plan);
    timeline, eventStates, nextSeq := StableSort(b.actions), b.eventStates, b.nextSeq;
  }

  method AddAll(b: Builder, assets: seq<Asset>, events: seq<Event>) returns (ok: bool)
    requires b.Valid() && b.plan == []
    requires (forall a | a in assets :: Milliseconds(a.lastAt)) && (forall ev | ev in events :: Parsed(ev))
    modifies b
    ensures b.Valid() && (ok <==> Fits(assets, events)) && (ok ==> b.plan == Plan(assets, events))
  {
    ok := b.AddAssets(assets);
    if ok {
      assert b.plan == AssetsPlan(assets);
      ok := b.AddEvents(events);
    }
  }

  lemma {:induction false} RecordedStatus(events: map<nat, S.Event>, actions: seq<Action>, status: S.Status)
    requires forall n | n in events :: events[n].status == status
    ensures forall n | n in S.Recorded(events, actions, status) ::
      S.Recorded(events, actions, status)[n].status == status
    decreases |actions|
  {
  }

  lemma {:induction false} CountedNumbers(actions: seq<Action>)
    requires DistinctNumbers(actions)
    ensures |Numbers(actions)| == |actions|
  {
    if actions != [] {
      NumbersTail(actions);
      CountedNumbers(actions[1..]);
    } else {
      assert Numbers(actions) == {};
    }
  }

  /** A freshly built engine satisfies what every run is assumed to start from. */
  lemma BuiltIsBuilt(plan: seq<Planned>, e: S.State)
    requires Schedules(e.timeline, plan) && e.timeline == StableSort(Enumerated(plan))
    requires e.eventStates == S.Recorded(map[], Enumerated(plan), S.Pending)
    requires e.nextSeq == |e.timeline| && e.nextStatic == 0 && e.pending == []
    requires e.reserved == 0 && e.pendingCommands == {}
    requires !e.paused && !e.stopped && !e.finished && e.speed > 0.0
    requires e.virtualBaseMs == 0.0 && e.lastActionAt == 0 && e.eventsRun == 0
    ensures EngineMachine.Built(e)
  {
    EventsOfTheTimeline(plan);
    EventsDescribe(plan);
  }

  lemma EventsDescribe(plan: seq<Planned>)
    ensures forall a | a in StableSort(Enumerated(plan)) ::
      EngineMachine.Describes(S.Recorded(map[], Enumerated(plan), S.Pending), a)
  {
    EngineShape.RecordedEach(map[], Enumerated(plan), S.Pending);
  }

  lemma EventsOfTheTimeline(plan: seq<Planned>)
    ensures var events := S.Recorded(map[], Enumerated(plan), S.Pending);
      && events.Keys == Numbers(StableSort(Enumerated(plan))) && |events| == |plan|
      && (forall n | n in events :: events[n].status == S.Pending)
  {
    var actions := Enumerated(plan);
    StableSortOrders(actions);
    RecordedStatus(map[], actions, S.Pending);
    CountedNumbers(actions);
    var events := S.Recorded(map[], actions, S.Pending);
    assert |events| == |events.Keys|;
  }

  // ---- the whole of it ----

  /** An asset or a track of the scenario. */
  datatype Entity = Entity(id: string, start: Option<Point>)

  function Key(kind: string, id: string): string
  {
    kind + ":" + id
  }

  const ASSET := "asset"
  const TRACK := "track"

  /** Every entity has a path, which begins where the scenario places it. */
  function Placed(motions: map<string, Motion>, kind: string, entities: seq<Entity>): map<string, Motion>
  {
    if entities == [] then motions
    else
      var before, last := Placed(motions, kind, entities[..|entities| - 1]), entities[|entities| - 1];
      var key := Key(kind, last.id);
      if last.start.Some? || key !in before then before[key := Motion.Motion(last.start, [])] else before
  }

  function Starts(assets: seq<Entity>, tracks: seq<Entity>): map<string, Motion>
  {
    Placed(Placed(map[], ASSET, assets), TRACK, tracks)
  }

  lemma {:induction false} PlacedHasNotMoved(motions: map<string, Motion>, kind: string, entities: seq<Entity>)
    requires forall k | k in motions :: motions[k].segments == []
    ensures var placed := Placed(motions, kind, entities);
      && motions.Keys <= placed.Keys && (forall k | k in placed :: placed[k].segments == [])
      && forall e | e in entities :: Key(kind, e.id) in placed
  {
    if entities != [] {
      PlacedHasNotMoved(motions, kind, entities[..|entities| - 1]);
      assert forall e | e in entities :: e in entities[..|entities| - 1] || e == entities[|entities| - 1];
    }
  }

  lemma StartsHaveNotMoved(assets: seq<Entity>, tracks: seq<Entity>)
    ensures AllContinued(Starts(assets, tracks), Starts(assets, tracks))
    ensures forall a | a in assets :: Key(ASSET, a.id) in Starts(assets, tracks)
  {
    PlacedHasNotMoved(map[], ASSET, assets);
    PlacedHasNotMoved(Placed(map[], ASSET, assets), TRACK, tracks);
    var starts := Starts(assets, tracks);
    forall k | k in starts ensures Continued(starts, starts, k) {
      assert starts[k].segments == [];
    }
  }

  function MovesOf(events: seq<Event>): seq<Move>
  {
    if events == [] then []
    else
      var last := events[|events| - 1];
      MovesOf(events[..|events| - 1]) + if last.Travels? then [last.move] else []
  }

  lemma {:induction false} MovesAreValid(events: seq<Event>)
    requires forall ev | ev in events :: Parsed(ev)
    ensures forall m | m in MovesOf(events) :: Valid(m)
  {
    if events != [] {
      var rest, last := events[..|events| - 1], events[|events| - 1];
      assert last in events;
      MovesAreValid(rest);
      forall m | m in MovesOf(events) ensures Valid(m) {
        assert m in MovesOf(rest) || (last.Travels? && m == last.move);
      }
    }
  }

  /** The assets with the time their last move ends. */
  function WithTimes(assets: seq<Entity>, motions: map<string, Motion>): seq<Asset>
  {
    seq(|assets|, i requires 0 <= i < |assets| =>
      var key := Key(ASSET, assets[i].id);
      Asset(assets[i].id, assets[i].start.Some?, if key in motions then LastAt(motions[key]) else 0))
  }

  /** build as a whole: it succeeds if and only if every move can be applied, in time order, and the plan of
      the paths they make fits. */
  method BuildScenario(assets: seq<Entity>, tracks: seq<Entity>, events: seq<Event>, speeds: map<string, real>,
                       distance: Distance)
      returns (ok: bool, timeline: seq<Action>, eventStates: map<nat, S.Event>, nextSeq: nat)
    requires forall ev | ev in events :: Parsed(ev)
    ensures forall m | m in ByTime(MovesOf(events)) :: Valid(m)
    ensures var motions := AppliedAll(Starts(assets, tracks), ByTime(MovesOf(events)), speeds, distance);
      && (ok <==> motions.Some? && Fits(WithTimes(assets, motions.value), events))
      && (ok ==>
            && var plan := Plan(WithTimes(assets, motions.value), events);
            && Schedules(timeline, plan) && nextSeq == |timeline|
            && timeline == StableSort(Enumerated(plan))
            && eventStates == S.Recorded(map[], Enumerated(plan), S.Pending))
  {
    timeline, eventStates, nextSeq := [], map[], 0;
    StartsHaveNotMoved(assets, tracks);
    MovesAreValid(events);
    ByTimeSorts(MovesOf(events));
    var motions := BuildMotions(Starts(assets, tracks), MovesOf(events), speeds, distance);
    if motions.None? {
      return false, [], map[], 0;
    }
    TimesFit(assets, Starts(assets, tracks), motions.value);
    ok, timeline, eventStates, nextSeq := Build(WithTimes(assets, motions.value), events);
  }

  lemma TimesFit(assets: seq<Entity>, starts: map<string, Motion>, motions: map<string, Motion>)
    requires AllContinued(starts, motions)
    ensures forall a | a in WithTimes(assets, motions) :: Milliseconds(a.lastAt)
  {
    forall a | a in WithTimes(assets, motions) ensures Milliseconds(a.lastAt) {
      var key := Key(ASSET, a.id);
      assert key in motions ==> Continued(starts, motions, key);
    }
  }
}
