/** The freshness policy: age thresholds in nanoseconds, held in 64-bit durations. */
module Freshness {
  import opened Options

  const MAX_DURATION: int := 0x7FFF_FFFF_FFFF_FFFF
  const TWO_64: int := 0x1_0000_0000_0000_0000

  const SECOND: int := 1_000_000_000
  const MINUTE: int := 60 * SECOND

  type Duration = d: int | -MAX_DURATION - 1 <= d <= MAX_DURATION

  datatype State = Live | Delayed | Stale | Unavailable | Unknown

  predicate Trustworthy(s: State)
  {
    s.Live? || s.Delayed?
  }

  datatype Policy = Policy(delayedAfter: Duration, staleAfter: Duration, unavailableAfter: Duration)

  const DEFAULT: Policy := Policy(MINUTE, 5 * MINUTE, 30 * MINUTE)

  /** Two's-complement wrap-around of a 64-bit result. */
  function Wrap(x: int): (r: Duration)
    ensures exists k :: r == x + k * TWO_64
  {
    var r := (x + MAX_DURATION + 1) % TWO_64 - MAX_DURATION - 1;
    assert r == x + (-((x + MAX_DURATION + 1) / TWO_64)) * TWO_64;
    r
  }

  predicate Unset(p: Policy)
  {
    p.delayedAfter <= 0 && p.staleAfter <= 0 && p.unavailableAfter <= 0
  }

  function EffectiveStale(p: Policy): Duration
  {
    if p.staleAfter <= 0 then DEFAULT.staleAfter else p.staleAfter
  }

  function Normalized(p: Policy): Policy
  {
    if Unset(p) then DEFAULT
    else
      var stale := EffectiveStale(p);
      var delayed := if p.delayedAfter <= 0 || p.delayedAfter >= stale then stale / 4 else p.delayedAfter;
      Policy(if delayed <= 0 then SECOND else delayed, stale,
             if p.unavailableAfter <= stale then Wrap(stale * 6) else p.unavailableAfter)
  }

  /** The repair as it is written, one field after the other. */
  method Normalize(p: Policy) returns (r: Policy)
    ensures r == Normalized(p)
  {
    if p.delayedAfter <= 0 && p.staleAfter <= 0 && p.unavailableAfter <= 0 {
      return DEFAULT;
    }
    r := p;
    if r.staleAfter <= 0 {
      r := r.(staleAfter := DEFAULT.staleAfter);
    }
    if r.delayedAfter <= 0 || r.delayedAfter >= r.staleAfter {
      r := r.(delayedAfter := r.staleAfter / 4);
    }
    if r.delayedAfter <= 0 {
      r := r.(delayedAfter := SECOND);
    }
    if r.unavailableAfter <= r.staleAfter {
      r := r.(unavailableAfter := Wrap(r.staleAfter * 6));
    }
  }

  predicate StrictlyIncreasing(p: Policy)
  {
    0 < p.delayedAfter < p.staleAfter < p.unavailableAfter
  }

  /** Six times the duration, wrapped to 64 bits, still exceeds it. */
  predicate SixfoldExceeds(stale: int)
  {
    || 6 * stale <= MAX_DURATION
    || (5 * stale > TWO_64 && 6 * stale - TWO_64 <= MAX_DURATION)
    || (5 * stale > 2 * TWO_64 && 6 * stale - 2 * TWO_64 <= MAX_DURATION)
  }

  lemma SixfoldWrapped(stale: Duration)
    requires stale > 0
    ensures Wrap(stale * 6) > stale <==> SixfoldExceeds(stale)
  {
    var k :| Wrap(stale * 6) == stale * 6 + k * TWO_64;
    assert -3 <= k <= 0;
  }

  /** A repair keeps what fits: thresholds in order stay as they are, and each one that is positive and in
      order with the stale threshold is kept. Without any the policy is one, five and thirty minutes; a missing
      delayed threshold is a quarter of the stale one and a missing unavailable one six times it. */
  lemma RepairKeepsWhatFits(p: Policy)
    ensures StrictlyIncreasing(p) ==> Normalized(p) == p
    ensures p.staleAfter > 0 ==> Normalized(p).staleAfter == p.staleAfter
    ensures !Unset(p) && 0 < p.delayedAfter < Normalized(p).staleAfter ==>
      Normalized(p).delayedAfter == p.delayedAfter
    ensures p.unavailableAfter > Normalized(p).staleAfter ==> Normalized(p).unavailableAfter == p.unavailableAfter
    ensures Unset(p) ==> Normalized(p) == Policy(60_000_000_000, 300_000_000_000, 1_800_000_000_000)
    ensures p.staleAfter <= 0 ==> Normalized(p).staleAfter == 300_000_000_000
    ensures !Unset(p) && !(0 < p.delayedAfter < Normalized(p).staleAfter) && Normalized(p).staleAfter >= 4 ==>
      4 * Normalized(p).delayedAfter <= Normalized(p).staleAfter < 4 * Normalized(p).delayedAfter + 4
    ensures !Unset(p) && p.unavailableAfter <= Normalized(p).staleAfter <= MAX_DURATION / 6 ==>
      Normalized(p).unavailableAfter == 6 * Normalized(p).staleAfter
  {
  }

  /** Normalizing twice is normalizing once, for every policy, wrap-around included. */
  lemma NormalizedIsIdempotent(p: Policy)
    ensures Normalized(Normalized(p)) == Normalized(p)
  {
  }

  /** When the repaired thresholds really are strictly increasing. A stale threshold below four
      nanoseconds has no quarter to repair the delayed one with, and above a sixth of the greatest
      duration the repaired unavailable threshold wraps. */
  lemma IncreasingExactlyWhen(p: Policy)
    ensures StrictlyIncreasing(Normalized(p)) <==>
      var stale := EffectiveStale(p);
      || Unset(p)
      || (&& (0 < p.delayedAfter < stale || stale >= 4)
          && (p.unavailableAfter > stale || SixfoldExceeds(stale)))
  {
    SixfoldWrapped(EffectiveStale(p));
  }

  /** No repair goes wrong for a stale threshold from 4ns to a sixth of the greatest duration. */
  lemma OrdinaryThresholdsIncrease(p: Policy)
    requires 4 <= EffectiveStale(p) <= MAX_DURATION / 6
    ensures StrictlyIncreasing(Normalized(p))
  {
    IncreasingExactlyWhen(p);
  }

  // ---- classification ----

  function ForAge(p: Policy, age: Duration): State
  {
    var policy := Normalized(p);
    if age < 0 then Delayed
    else if age >= policy.unavailableAfter then Unavailable
    else if age >= policy.staleAfter then Stale
    else if age >= policy.delayedAfter then Delayed
    else Live
  }

  function Concern(s: State): nat
  {
    match s case Live => 0 case Delayed => 1 case Stale => 2 case Unavailable => 3 case Unknown => 4
  }

  /** Whatever the policy, growing older never looks better. */
  lemma AgeNeverImproves(p: Policy, younger: Duration, older: Duration)
    requires 0 <= younger <= older
    ensures Concern(ForAge(p, younger)) <= Concern(ForAge(p, older))
  {
  }

  ghost predicate Attained(p: Policy, s: State)
  {
    exists age: Duration :: age >= 0 && ForAge(p, age) == s
  }

  /** Every band can be reached exactly when the thresholds are strictly increasing. */
  lemma BandsReachableExactlyWhenIncreasing(p: Policy)
    ensures (forall s | s in {Live, Delayed, Stale, Unavailable} :: Attained(p, s))
      <==> StrictlyIncreasing(Normalized(p))
  {
    var policy := Normalized(p);
    if StrictlyIncreasing(policy) {
      var none: Duration := 0;
      assert ForAge(p, none) == Live && ForAge(p, policy.delayedAfter) == Delayed;
      assert ForAge(p, policy.staleAfter) == Stale && ForAge(p, policy.unavailableAfter) == Unavailable;
    } else {
      assert policy.staleAfter > 0;
      if policy.delayedAfter >= policy.staleAfter {
        assert !Attained(p, Delayed);
      } else {
        assert !Attained(p, Stale);
      }
    }
  }

  /** The bands: each threshold begins its band, the greater one winning; an age below zero is delayed. */
  lemma BandsAreExact(p: Policy, age: Duration)
    ensures var q, s := Normalized(p), ForAge(p, age);
      && (s.Unavailable? <==> 0 <= age && q.unavailableAfter <= age)
      && (s.Stale? <==> 0 <= age && q.staleAfter <= age < q.unavailableAfter)
      && (s.Delayed? <==>
            age < 0 || (q.delayedAfter <= age && age < q.staleAfter && age < q.unavailableAfter))
      && (s.Live? <==> 0 <= age && age < q.delayedAfter && age < q.staleAfter && age < q.unavailableAfter)
  {
  }

  /** What is seen in time is trustworthy, and what comes from the future; what is stale is not. */
  lemma TrustEndsWithStaleness(p: Policy, age: Duration)
    ensures Trustworthy(ForAge(p, age)) <==>
      age < 0 || (age < Normalized(p).staleAfter && age < Normalized(p).unavailableAfter)
    ensures !Trustworthy(Unknown)
  {
  }

  datatype AssetSignal = AssetSignal(id: string, status: string, connection: string, lastSeen: Option<int>)

  datatype TrackSignal = TrackSignal(id: string, status: string, lastSeen: Option<int>)

  /** Subtraction of instants saturates at the ends of the duration range. */
  function Elapsed(since: int, now: int): Duration
  {
    if now - since > MAX_DURATION then MAX_DURATION
    else if now - since < -MAX_DURATION - 1 then -MAX_DURATION - 1
    else now - since
  }

  function ForAsset(p: Policy, signal: AssetSignal, now: int): State
  {
    if signal.status == "unavailable" || signal.status == "offline" then Unavailable
    else if signal.connection == "disconnected" then Unavailable
    else if signal.lastSeen.None? then Unknown
    else ForAge(p, Elapsed(signal.lastSeen.value, now))
  }

  function ForTrack(p: Policy, signal: TrackSignal, now: int): State
  {
    if signal.status == "lost" then Unavailable
    else if signal.lastSeen.None? then Unknown
    else ForAge(p, Elapsed(signal.lastSeen.value, now))
  }

  /** What a signal is classified as, for thresholds in order: a declared loss comes first, then a missing
      report, and then the age of the report decides. */
  predicate Banded(q: Policy, lost: bool, lastSeen: Option<int>, now: int, s: State)
  {
    && (s.Unavailable? <==> lost || (lastSeen.Some? && now - lastSeen.value >= q.unavailableAfter))
    && (s.Unknown? <==> !lost && lastSeen.None?)
    && (s.Stale? <==>
          !lost && lastSeen.Some? && q.staleAfter <= now - lastSeen.value < q.unavailableAfter)
    && (s.Delayed? <==>
          !lost && lastSeen.Some?
          && (now < lastSeen.value || q.delayedAfter <= now - lastSeen.value < q.staleAfter))
    && (s.Live? <==> !lost && lastSeen.Some? && 0 <= now - lastSeen.value < q.delayedAfter)
  }

  lemma SignalsAreBanded(p: Policy, a: AssetSignal, t: TrackSignal, now: int)
    requires StrictlyIncreasing(Normalized(p))
    ensures Banded(Normalized(p), a.status in {"unavailable", "offline"} || a.connection == "disconnected",
                   a.lastSeen, now, ForAsset(p, a, now))
    ensures Banded(Normalized(p), t.status == "lost", t.lastSeen, now, ForTrack(p, t, now))
  {
    if a.lastSeen.Some? {
      BandsAreExact(p, Elapsed(a.lastSeen.value, now));
    }
    if t.lastSeen.Some? {
      BandsAreExact(p, Elapsed(t.lastSeen.value, now));
    }
  }

  /** As time passes without a report, no classification improves; a declared loss is never hidden by
      a recent report, and a timestamp from the future is never live. */
  lemma SilenceNeverImproves(p: Policy, a: AssetSignal, t: TrackSignal, now: int, later: int)
    requires now <= later
    ensures a.lastSeen.Some? && a.lastSeen.value <= now ==>
      Concern(ForAsset(p, a, now)) <= Concern(ForAsset(p, a, later))
    ensures t.lastSeen.Some? && t.lastSeen.value <= now ==>
      Concern(ForTrack(p, t, now)) <= Concern(ForTrack(p, t, later))
    ensures a.status in {"unavailable", "offline"} || a.connection == "disconnected" ==>
      ForAsset(p, a, now) == Unavailable
    ensures a.lastSeen.Some? && a.lastSeen.value > now ==> !ForAsset(p, a, now).Live?
    ensures t.lastSeen.Some? && t.lastSeen.value > now ==> !ForTrack(p, t, now).Live?
  {
    if a.lastSeen.Some? && a.lastSeen.value <= now {
      AgeNeverImproves(p, Elapsed(a.lastSeen.value, now), Elapsed(a.lastSeen.value, later));
    }
    if t.lastSeen.Some? && t.lastSeen.value <= now {
      AgeNeverImproves(p, Elapsed(t.lastSeen.value, now), Elapsed(t.lastSeen.value, later));
    }
  }
}
