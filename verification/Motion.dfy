/** The piecewise-linear path of one simulated entity: how move events extend it, and what a query
    between its segments returns. Coordinates and distances are reals, times whole milliseconds. */
module Motion {
  import opened Actions
  import opened Options

  datatype Point = Point(lat: real, lng: real)

  datatype Segment = Segment(fromMs: int, toMs: int, from: Point, to: Point)

  datatype Motion = Motion(start: Option<Point>, segments: seq<Segment>)

  function AddMilliseconds(base: int, delta: int): (r: Option<int>)
    ensures r.Some? <==> base >= 0 && delta >= 0 && base + delta <= MAX_INT64
    ensures r.Some? ==> r.value == base + delta
  {
    if base < 0 || delta < 0 || base > MAX_INT64 - delta then None else Some(base + delta)
  }

  function LastAt(m: Motion): int
  {
    if m.segments == [] then 0 else m.segments[|m.segments| - 1].toMs
  }

  predicate Timed(s: Segment)
  {
    0 <= s.fromMs <= s.toMs <= MAX_INT64
  }

  /** Segments are in time order and do not overlap; what has moved has a start. */
  ghost predicate Path(m: Motion)
  {
    && (forall k | 0 <= k < |m.segments| :: Timed(m.segments[k]))
    && (forall k | 0 < k < |m.segments| :: m.segments[k - 1].toMs <= m.segments[k].fromMs)
    && (m.segments != [] ==> m.start.Some?)
  }

  /** Each segment departs from where the one before it arrived, the first from the start. */
  ghost predicate Connected(m: Motion)
  {
    && (forall k | 0 < k < |m.segments| :: m.segments[k].from == m.segments[k - 1].to)
    && (m.segments != [] ==> m.start == Some(m.segments[0].from))
  }

  /** Nothing moves in no time: a segment without duration goes nowhere. */
  ghost predicate Steady(m: Motion)
  {
    forall s | s in m.segments && s.fromMs == s.toMs :: s.from == s.to
  }

  /** Where the last move ends. */
  function Stop(m: Motion): Option<Point>
  {
    if m.segments == [] then m.start else Some(m.segments[|m.segments| - 1].to)
  }

  lemma {:induction false} PathIsOrdered(m: Motion, j: nat, k: nat)
    requires Path(m) && j < k < |m.segments|
    ensures m.segments[j].toMs <= m.segments[k].fromMs
    decreases k
  {
    if j < k - 1 {
      PathIsOrdered(m, j, k - 1);
      assert Timed(m.segments[k - 1]);
    }
  }

  // ---- queries ----

  /** Scaled by how far into the segment an instant is; negative before it. */
  function Along(from: real, to: real, frac: real): real
  {
    from + (to - from) * frac
  }

  function Interpolated(s: Segment, ms: int): Point
  {
    if s.toMs - s.fromMs <= 0 then s.to
    else
      var frac := (ms - s.fromMs) as real / (s.toMs - s.fromMs) as real;
      Point(Along(s.from.lat, s.to.lat, frac), Along(s.from.lng, s.to.lng, frac))
  }

  /** The first segment, from k on, that ends at or after an instant. */
  function Reaching(m: Motion, ms: int, k: nat): (r: nat)
    requires k <= |m.segments|
    ensures k <= r <= |m.segments|
    ensures forall j | k <= j < r :: m.segments[j].toMs < ms
    ensures r < |m.segments| ==> ms <= m.segments[r].toMs
    decreases |m.segments| - k
  {
    if k == |m.segments| || ms <= m.segments[k].toMs then k else Reaching(m, ms, k + 1)
  }

  function At(m: Motion, ms: int): Option<Point>
  {
    if m.segments == [] then m.start
    else if ms <= m.segments[0].fromMs then (if m.start.Some? then m.start else Some(m.segments[0].from))
    else
      var k := Reaching(m, ms, 0);
      Some(if k < |m.segments| then Interpolated(m.segments[k], ms) else m.segments[|m.segments| - 1].to)
  }

  method QueryAt(m: Motion, ms: int) returns (r: Option<Point>)
    ensures r == At(m, ms)
  {
    if |m.segments| == 0 {
      return m.start;
    }
    var first := m.segments[0];
    if ms <= first.fromMs {
      return if m.start.Some? then m.start else Some(first.from);
    }
    for k := 0 to |m.segments|
      invariant Reaching(m, ms, 0) == Reaching(m, ms, k)
    {
      var s := m.segments[k];
      if ms <= s.toMs {
        return Some(Interpolated(s, ms));
      }
    }
    r := Some(m.segments[|m.segments| - 1].to);
  }

  predicate Between(x: real, a: real, b: real)
  {
    a <= x <= b || b <= x <= a
  }

  lemma ProductNotNegative(a: real, b: real)
    requires a >= 0.0 && b >= 0.0
    ensures a * b >= 0.0
  {
  }

  lemma AlongIsBetween(from: real, to: real, frac: real)
    requires 0.0 <= frac <= 1.0
    ensures Between(Along(from, to, frac), from, to)
  {
    assert to - Along(from, to, frac) == (to - from) * (1.0 - frac);
    if to >= from {
      ProductNotNegative(to - from, frac);
      ProductNotNegative(to - from, 1.0 - frac);
    } else {
      assert Along(from, to, frac) - to == (from - to) * (1.0 - frac);
      assert from - Along(from, to, frac) == (from - to) * frac;
      ProductNotNegative(from - to, frac);
      ProductNotNegative(from - to, 1.0 - frac);
    }
  }

  lemma FractionOfSpan(n: real, span: real)
    requires 0.0 <= n <= span && span > 0.0
    ensures 0.0 <= n / span <= 1.0
  {
    var frac := n / span;
    assert frac * span == n;
    assert (frac - 1.0) * span == n - span;
  }

  /** A query inside a segment lies between its endpoints, and is each of them at its end. */
  lemma InsideIsBetween(s: Segment, ms: int)
    requires Timed(s) && s.fromMs <= ms <= s.toMs
    ensures Between(Interpolated(s, ms).lat, s.from.lat, s.to.lat)
    ensures Between(Interpolated(s, ms).lng, s.from.lng, s.to.lng)
    ensures ms == s.toMs ==> Interpolated(s, ms) == s.to
    ensures ms == s.fromMs < s.toMs ==> Interpolated(s, ms) == s.from
  {
    if s.fromMs < s.toMs {
      var span := (s.toMs - s.fromMs) as real;
      var frac := (ms - s.fromMs) as real / span;
      FractionOfSpan((ms - s.fromMs) as real, span);
      AlongIsBetween(s.from.lat, s.to.lat, frac);
      AlongIsBetween(s.from.lng, s.to.lng, frac);
    }
  }

  /** On a segment an entity moves at a constant pace: the part of the way it has covered is the part of the
      time that has passed. */
  lemma ConstantPace(s: Segment, ms: int)
    requires s.fromMs < s.toMs
    ensures var p, passed, whole := Interpolated(s, ms), (ms - s.fromMs) as real, (s.toMs - s.fromMs) as real;
      && (p.lat - s.from.lat) * whole == (s.to.lat - s.from.lat) * passed
      && (p.lng - s.from.lng) * whole == (s.to.lng - s.from.lng) * passed
  {
    var passed, whole := (ms - s.fromMs) as real, (s.toMs - s.fromMs) as real;
    PartOfTheWay(s.from.lat, s.to.lat, passed, whole);
    PartOfTheWay(s.from.lng, s.to.lng, passed, whole);
  }

  lemma PartOfTheWay(from: real, to: real, passed: real, whole: real)
    requires whole > 0.0
    ensures (Along(from, to, passed / whole) - from) * whole == (to - from) * passed
  {
    var frac := passed / whole;
    assert frac * whole == passed;
    assert (Along(from, to, frac) - from) == (to - from) * frac;
    assert ((to - from) * frac) * whole == (to - from) * (frac * whole);
  }

  // ---- where the entity is ----

  /** An instant in an idle gap: after the end of one segment and before the start of the next. */
  predicate InGapBefore(m: Motion, k: int, ms: int)
  {
    0 < k < |m.segments| && m.segments[k - 1].toMs < ms < m.segments[k].fromMs
  }

  /** Where the entity should be: at its start, on a segment, standing where its next move departs from,
      or where its last move ended. */
  function Where(m: Motion, ms: int): Option<Point>
  {
    if m.segments == [] then m.start
    else if ms <= m.segments[0].fromMs then m.start
    else
      var k := Reaching(m, ms, 0);
      if k == |m.segments| then Some(m.segments[k - 1].to)
      else if ms < m.segments[k].fromMs then Some(m.segments[k].from)
      else Some(Interpolated(m.segments[k], ms))
  }

  /** In an idle gap the query extrapolates the next segment backwards, so it misses the place where
      the entity stands unless that segment goes nowhere. */
  lemma GapExtrapolates(s: Segment, ms: int)
    requires Timed(s) && ms < s.fromMs
    ensures Interpolated(s, ms) == s.from <==> s.from == s.to
  {
    if s.fromMs < s.toMs {
      var span := (s.toMs - s.fromMs) as real;
      var frac := (ms - s.fromMs) as real / span;
      assert frac * span == (ms - s.fromMs) as real;
      assert frac < 0.0;
      ScaledIsZero(s.to.lat - s.from.lat, frac);
      ScaledIsZero(s.to.lng - s.from.lng, frac);
    }
  }

  lemma ScaledIsZero(x: real, frac: real)
    requires frac != 0.0
    ensures x * frac == 0.0 <==> x == 0.0
  {
  }

  /** The query is right exactly outside idle gaps, or in gaps before a segment that goes nowhere. */
  lemma RightExactlyOutsideGaps(m: Motion, ms: int)
    requires Path(m)
    ensures At(m, ms) == Where(m, ms) <==>
      forall k | InGapBefore(m, k, ms) :: m.segments[k].from == m.segments[k].to
  {
    if m.segments != [] && ms > m.segments[0].fromMs {
      var k := Reaching(m, ms, 0);
      if 0 < k < |m.segments| {
        assert m.segments[k - 1].toMs < ms;
        if ms < m.segments[k].fromMs {
          assert InGapBefore(m, k, ms);
          GapExtrapolates(m.segments[k], ms);
        }
      }
    }
    forall j | InGapBefore(m, j, ms) ensures m.segments != [] && ms > m.segments[0].fromMs && Reaching(m, ms, 0) == j {
      GapIsUnique(m, j, ms);
    }
  }

  lemma {:induction false} GapIsUnique(m: Motion, j: int, ms: int)
    requires Path(m) && InGapBefore(m, j, ms)
    ensures ms > m.segments[0].fromMs && Reaching(m, ms, 0) == j
  {
    assert Timed(m.segments[j]) && Timed(m.segments[j - 1]) && Timed(m.segments[0]);
    forall i | 0 <= i < j ensures m.segments[i].toMs < ms {
      if i < j - 1 {
        PathIsOrdered(m, i, j - 1);
      }
    }
  }

  /** On a connected path an idle entity stands where its last move ended. */
  lemma GapStands(m: Motion, k: int, ms: int)
    requires Path(m) && Connected(m) && InGapBefore(m, k, ms)
    ensures Where(m, ms) == Some(m.segments[k - 1].to)
  {
    GapIsUnique(m, k, ms);
  }

  /** A concrete gap: the entity stands at 1 from second 1 to second 9, and is reported at -6 in second 2. */
  lemma GapExample()
    ensures var m := Motion(Some(Point(0.0, 0.0)), [Segment(0, 1000, Point(0.0, 0.0), Point(1.0, 0.0)),
                                                     Segment(9000, 10000, Point(1.0, 0.0), Point(2.0, 0.0))]);
      && Path(m) && Where(m, 1001) == Some(Point(1.0, 0.0))
      && At(m, 1000) == Some(Point(1.0, 0.0)) && At(m, 2000) == Some(Point(-6.0, 0.0))
  {
    var m := Motion(Some(Point(0.0, 0.0)), [Segment(0, 1000, Point(0.0, 0.0), Point(1.0, 0.0)),
                                             Segment(9000, 10000, Point(1.0, 0.0), Point(2.0, 0.0))]);
    assert Reaching(m, 2000, 0) == 1 && Reaching(m, 1001, 0) == 1 && Reaching(m, 1000, 0) == 0;
  }

  // ---- move events ----

  type Distance = (Point, Point) -> real

  /** Travel time in whole milliseconds, truncated; none when it does not fit. */
  function Duration(dist: real, speed: real): Option<int>
    requires speed > 0.0
  {
    if dist <= 0.0 then Some(0)
    else if dist / speed * 1000.0 >= MAX_INT64 as real then None
    else Some((dist / speed * 1000.0).Floor)
  }

  function Arrival(at: int, from: Point, to: Point, speed: real, distance: Distance): Option<int>
    requires speed > 0.0
  {
    var duration := Duration(distance(from, to), speed);
    if duration.None? then None else AddMilliseconds(at, duration.value)
  }

  /** The segments that take an entity through waypoints; none when an arrival does not fit in time. */
  function Travel(at: int, cursor: Point, waypoints: seq<Point>, speed: real, distance: Distance): Option<seq<Segment>>
    requires speed > 0.0
    decreases |waypoints|
  {
    if waypoints == [] then Some([])
    else
      var arrival := Arrival(at, cursor, waypoints[0], speed, distance);
      if arrival.None? then None
      else
        var rest := Travel(arrival.value, waypoints[0], waypoints[1..], speed, distance);
        if rest.None? then None
        else Some([Segment(at, arrival.value, cursor, waypoints[0])] + rest.value)
  }

  function Departure(m: Motion, startMs: int): int
  {
    if LastAt(m) > startMs then LastAt(m) else startMs
  }

  // ---- where a move departs from ----

  /** The first of the segments that end the path without taking time, each starting as soon as the one
      before it ends: the query at the end of the path stops looking just before it. */
  function FirstUnseen(m: Motion, i: nat): (f: nat)
    requires i <= |m.segments|
    ensures i <= f <= |m.segments|
    ensures forall k | i <= k < f :: !StartsAtTheEnd(m, k)
    ensures f < |m.segments| ==> StartsAtTheEnd(m, f)
    decreases |m.segments| - i
  {
    if i == |m.segments| || StartsAtTheEnd(m, i) then i else FirstUnseen(m, i + 1)
  }

  predicate StartsAtTheEnd(m: Motion, k: nat)
    requires k < |m.segments|
  {
    m.segments[k].fromMs == LastAt(m) && (k == 0 || m.segments[k - 1].toMs == LastAt(m))
  }

  /** What the query answers at the end of the path. */
  lemma {:induction false} PlaceAtTheEnd(m: Motion)
    requires Path(m) && m.segments != []
    ensures var f := FirstUnseen(m, 0);
      At(m, LastAt(m)) == if f == 0 then m.start else Some(m.segments[f - 1].to)
  {
    var f, end := FirstUnseen(m, 0), LastAt(m);
    EndsBound(m);
    if f == 0 {
      assert m.segments[0].fromMs == end;
    } else {
      SeenEndsFirst(m, f);
      assert !StartsAtTheEnd(m, 0);
      InsideIsBetween(m.segments[f - 1], end);
    }
  }

  lemma EndsBound(m: Motion)
    requires Path(m)
    ensures forall k | 0 <= k < |m.segments| :: m.segments[k].fromMs <= m.segments[k].toMs <= LastAt(m)
  {
    forall k | 0 <= k < |m.segments| ensures m.segments[k].fromMs <= m.segments[k].toMs <= LastAt(m) {
      assert Timed(m.segments[k]) && Timed(m.segments[|m.segments| - 1]);
      if k < |m.segments| - 1 {
        PathIsOrdered(m, k, |m.segments| - 1);
      }
    }
  }

  /** The segment before the first unseen one is the first that ends with the path. */
  lemma {:induction false} SeenEndsFirst(m: Motion, f: nat)
    requires Path(m) && f == FirstUnseen(m, 0) && f > 0
    ensures m.segments[f - 1].toMs == LastAt(m) && m.segments[0].fromMs < LastAt(m)
    ensures Reaching(m, LastAt(m), 0) == f - 1
  {
    EndsBound(m);
    assert !StartsAtTheEnd(m, 0);
    forall k | 0 <= k < f - 1 ensures m.segments[k].toMs < LastAt(m) {
      if m.segments[k].toMs == LastAt(m) {
        PathIsOrdered(m, k, k + 1);
        assert StartsAtTheEnd(m, k + 1);
      }
    }
  }

  /** A move departs from where the query puts the entity at that time. That is where its last move ended
      if and only if it departs later than that, no segment ends the path without taking time, or those
      that do end where the first of them began. */
  lemma {:induction false} DepartsFromStopExactlyWhen(m: Motion, at: int)
    requires Path(m) && m.segments != [] && LastAt(m) <= at
    ensures var f := FirstUnseen(m, 0);
      && (At(m, at) == Stop(m) <==>
            LastAt(m) < at || Stop(m) == if f == 0 then m.start else Some(m.segments[f - 1].to))
      && (Connected(m) ==>
            (At(m, at) == Stop(m) <==>
               LastAt(m) < at || f == |m.segments| || Stop(m) == Some(m.segments[f].from)))
  {
    PlaceAtTheEnd(m);
    EndsBound(m);
  }

  /** On a steady connected path every move departs from where the last one ended. */
  lemma SteadyDeparts(m: Motion, at: int)
    requires Path(m) && Connected(m) && Steady(m) && LastAt(m) <= at
    ensures At(m, at) == Stop(m)
  {
    if m.segments != [] {
      DepartsFromStopExactlyWhen(m, at);
      var f := FirstUnseen(m, 0);
      if f < |m.segments| {
        GoesNowhere(m, f);
      }
    }
  }

  /** What starts when a steady connected path ends goes nowhere. */
  lemma {:induction false} GoesNowhere(m: Motion, k: nat)
    requires Path(m) && Connected(m) && Steady(m) && k < |m.segments| && m.segments[k].fromMs == LastAt(m)
    ensures m.segments[k].from == m.segments[|m.segments| - 1].to
    decreases |m.segments| - k
  {
    EndsBound(m);
    assert m.segments[k] in m.segments;
    if k < |m.segments| - 1 {
      PathIsOrdered(m, k, k + 1);
      GoesNowhere(m, k + 1);
    }
  }

  function Millimetre(a: Point, b: Point): real
  {
    0.001
  }

  /** A move of a millimetre takes less than a millisecond, and the next one departs from before it. */
  lemma JumpIsForgotten()
    ensures var here, there := Point(0.0, 0.0), Point(0.000000009, 0.0);
      var m := Motion(Some(here), [Segment(0, 0, here, there)]);
      && Path(m) && Connected(m) && Travel(0, here, [there], 15.0, Millimetre) == Some(m.segments)
      && At(m, 0) == Some(here) && Stop(m) == Some(there)
  {
    var here, there := Point(0.0, 0.0), Point(0.000000009, 0.0);
    assert Duration(0.001, 15.0) == Some(0);
    assert Arrival(0, here, there, 15.0, Millimetre) == Some(0);
    assert [there][1..] == [];
    assert Travel(0, there, [], 15.0, Millimetre) == Some([]);
    assert [Segment(0, 0, here, there)] + [] == [Segment(0, 0, here, there)];
  }

  /** A travel continues a path into a path. */
  lemma {:induction false} TravelContinues(m: Motion, at: int, cursor: Point, waypoints: seq<Point>, speed: real,
                                           distance: Distance)
    requires speed > 0.0 && Path(m) && 0 <= at <= MAX_INT64 && LastAt(m) <= at
    requires m.start.Some?
    requires Travel(at, cursor, waypoints, speed, distance).Some?
    ensures var more := Travel(at, cursor, waypoints, speed, distance).value;
      && Path(m.(segments := m.segments + more)) && |more| == |waypoints|
      && (forall i | 0 <= i < |more| :: more[i].to == waypoints[i])
      && (waypoints != [] ==> more[0].fromMs == at && more[0].from == cursor)
      && (forall i | 0 < i < |more| :: more[i].fromMs == more[i - 1].toMs && more[i].from == more[i - 1].to)
    decreases |waypoints|
  {
    var more := Travel(at, cursor, waypoints, speed, distance).value;
    if waypoints == [] {
      assert m.segments + more == m.segments;
    } else {
      var arrival := Arrival(at, cursor, waypoints[0], speed, distance).value;
      var next := m.(segments := m.segments + [Segment(at, arrival, cursor, waypoints[0])]);
      TravelContinues(next, arrival, waypoints[0], waypoints[1..], speed, distance);
      assert next.segments + more[1..] == m.segments + more;
    }
  }

  /** A travel takes as long as its distances do at its speed, in whole milliseconds. */
  lemma {:induction false} TravelTakesItsTime(at: int, cursor: Point, waypoints: seq<Point>, speed: real,
                                              distance: Distance)
    requires speed > 0.0 && Travel(at, cursor, waypoints, speed, distance).Some?
    ensures forall s | s in Travel(at, cursor, waypoints, speed, distance).value :: TakesItsTime(s, speed, distance)
    decreases |waypoints|
  {
    if waypoints != [] {
      var arrival := Arrival(at, cursor, waypoints[0], speed, distance).value;
      TravelTakesItsTime(arrival, waypoints[0], waypoints[1..], speed, distance);
      assert TakesItsTime(Segment(at, arrival, cursor, waypoints[0]), speed, distance);
    }
  }

  predicate TakesItsTime(s: Segment, speed: real, distance: Distance)
    requires speed > 0.0
  {
    var way := distance(s.from, s.to);
    && (way <= 0.0 ==> s.toMs == s.fromMs)
    && (way > 0.0 ==> (s.toMs - s.fromMs) as real <= way / speed * 1000.0 < (s.toMs - s.fromMs) as real + 1.0)
  }

  /** Leaving one place at an instant, another cannot be reached within 64-bit milliseconds. */
  predicate OutOfReach(at: int, from: Point, to: Point, speed: real, distance: Distance)
    requires speed > 0.0
  {
    var way := distance(from, to);
    if way <= 0.0 then at > MAX_INT64
    else way / speed * 1000.0 >= MAX_INT64 as real || at + (way / speed * 1000.0).Floor > MAX_INT64
  }

  /** A travel is refused only because one of its waypoints cannot be reached in time from the one before. */
  lemma {:induction false} RefusedOutOfReach(at: int, cursor: Point, waypoints: seq<Point>, speed: real,
                                             distance: Distance)
      returns (t: int, from: Point, to: Point)
    requires speed > 0.0 && at >= 0 && Travel(at, cursor, waypoints, speed, distance).None?
    ensures to in waypoints && (from == cursor || from in waypoints) && t >= at
    ensures OutOfReach(t, from, to, speed, distance)
    decreases |waypoints|
  {
    var arrival := Arrival(at, cursor, waypoints[0], speed, distance);
    if arrival.None? {
      t, from, to := at, cursor, waypoints[0];
      assert distance(from, to) > 0.0 ==> distance(from, to) / speed > 0.0;
    } else {
      t, from, to := RefusedOutOfReach(arrival.value, waypoints[0], waypoints[1..], speed, distance);
    }
  }

  /** A path with one more move. */
  function Extended(m: Motion, startMs: int, waypoints: seq<Point>, speed: real, distance: Distance): Option<Motion>
    requires waypoints != [] && speed > 0.0
  {
    var at := Departure(m, startMs);
    var cursor := if At(m, at).Some? then At(m, at).value else waypoints[0];
    var travel := Travel(at, cursor, waypoints, speed, distance);
    if travel.None? then None
    else Some(Motion(Some(if m.start.Some? then m.start.value else cursor), m.segments + travel.value))
  }

  /** The extended path is a path, connected exactly where the move departs from the last one's end. */
  lemma ExtendedIsPath(m: Motion, startMs: int, waypoints: seq<Point>, speed: real, distance: Distance)
    requires Path(m) && 0 <= startMs <= MAX_INT64 && waypoints != [] && speed > 0.0
    requires Extended(m, startMs, waypoints, speed, distance).Some?
    ensures var r := Extended(m, startMs, waypoints, speed, distance).value;
      && Path(r) && |r.segments| == |m.segments| + |waypoints|
      && m.segments <= r.segments && (m.start.Some? ==> r.start == m.start)
      && (Connected(r) <==> Connected(m) && At(m, Departure(m, startMs)) == Stop(m))
      && (forall i | 0 <= i < |waypoints| :: r.segments[|m.segments| + i].to == waypoints[i])
      && r.segments[|m.segments|].fromMs == (if LastAt(m) <= startMs then startMs else LastAt(m))
      && Some(r.segments[|m.segments|].from)
         == (if At(m, Departure(m, startMs)).Some? then At(m, Departure(m, startMs)) else Some(waypoints[0]))
  {
    var at := Departure(m, startMs);
    var cursor := if At(m, at).Some? then At(m, at).value else waypoints[0];
    var r := Extended(m, startMs, waypoints, speed, distance).value;
    PathEndsInTime(m);
    TravelContinues(m.(start := r.start), at, cursor, waypoints, speed, distance);
    ConnectedConcat(m, cursor, Travel(at, cursor, waypoints, speed, distance).value, r);
  }

  lemma ConnectedConcat(m: Motion, cursor: Point, more: seq<Segment>, r: Motion)
    requires (m.segments != [] ==> m.start.Some?) && more != [] && more[0].from == cursor
    requires forall i | 0 < i < |more| :: more[i].from == more[i - 1].to
    requires r == Motion(Some(if m.start.Some? then m.start.value else cursor), m.segments + more)
    ensures Connected(r) <==> Connected(m) && (Stop(m).Some? ==> Stop(m) == Some(cursor))
  {
    var n := |m.segments|;
    assert forall k | 0 <= k < n :: r.segments[k] == m.segments[k];
    assert forall k | n <= k < |r.segments| :: r.segments[k] == more[k - n];
    if Connected(r) {
      assert n > 0 ==> r.segments[n].from == r.segments[n - 1].to;
    }
  }

  function Joined(done: seq<Segment>, rest: Option<seq<Segment>>): Option<seq<Segment>>
  {
    if rest.None? then None else Some(done + rest.value)
  }

  lemma JoinedOneMore(done: seq<Segment>, s: Segment, rest: Option<seq<Segment>>)
    ensures Joined(done + [s], rest) == Joined(done, Joined([s], rest))
  {
    if rest.Some? {
      assert done + [s] + rest.value == done + ([s] + rest.value);
    }
  }

  /** The loop over the waypoints, from one instant and place to the next. */
  method Walk(departure: int, place: Point, waypoints: seq<Point>, speed: real, distance: Distance)
      returns (r: Option<seq<Segment>>)
    requires 0 <= departure <= MAX_INT64 && speed > 0.0
    ensures r == Travel(departure, place, waypoints, speed, distance)
  {
    var at, cursor := departure, place;
    var segments: seq<Segment> := [];
    ghost var whole := Travel(at, cursor, waypoints, speed, distance);
    assert waypoints[0..] == waypoints && (whole.Some? ==> [] + whole.value == whole.value);
    for i := 0 to |waypoints|
      invariant 0 <= at <= MAX_INT64
      invariant whole == Joined(segments, Travel(at, cursor, waypoints[i..], speed, distance))
    {
      var target := waypoints[i];
      var fromMs := at;
      var dist := distance(cursor, target);
      if dist > 0.0 {
        var durationMs := dist / speed * 1000.0;
        if durationMs >= MAX_INT64 as real {
          return None;
        }
        var sum := AddMilliseconds(at, durationMs.Floor);
        if sum.None? {
          return None;
        }
        at := sum.value;
      }
      var segment := Segment(fromMs, at, cursor, target);
      JoinedOneMore(segments, segment, Travel(at, target, waypoints[i + 1..], speed, distance));
      assert waypoints[i..][1..] == waypoints[i + 1..];
      segments := segments + [segment];
      cursor := target;
    }
    r := Some(segments);
    assert segments + [] == segments;
  }

  /** One move event. The entity departs when asked to, or when it arrives from its last move if that is
      later, from where the query puts it then. */
  method AppendMove(m: Motion, startMs: int, waypoints: seq<Point>, speed: real, distance: Distance)
      returns (r: Option<Motion>)
    requires Path(m) && 0 <= startMs <= MAX_INT64 && waypoints != [] && speed > 0.0
    ensures r == Extended(m, startMs, waypoints, speed, distance)
    ensures r.Some? ==> Path(r.value)
    ensures r.Some? ==> (Connected(r.value) <==> Connected(m) && At(m, Departure(m, startMs)) == Stop(m))
  {
    var at := startMs;
    if LastAt(m) > at {
      at := LastAt(m);
    }
    PathEndsInTime(m);
    var cursor := waypoints[0];
    var start := Some(cursor);
    var found := QueryAt(m, at);
    if found.Some? {
      cursor := found.value;
      start := m.start;
    }
    var segments := Walk(at, cursor, waypoints, speed, distance);
    if segments.None? {
      return None;
    }
    r := Some(Motion(start, m.segments + segments.value));
    ExtendedIsPath(m, startMs, waypoints, speed, distance);
  }

  // ---- all the moves of a scenario ----

  const DEFAULT_SPEED := 15.0

  datatype Move = Move(after: int, entity: string, waypoints: seq<Point>, speed: Option<real>)

  /** Inserts after every move that is not later, so that equal times keep their order. */
  function InsertMove(s: seq<Move>, m: Move): seq<Move>
  {
    if s == [] then [m]
    else if s[|s| - 1].after <= m.after then s + [m]
    else InsertMove(s[..|s| - 1], m) + [s[|s| - 1]]
  }

  function ByTime(moves: seq<Move>): seq<Move>
  {
    if moves == [] then [] else InsertMove(ByTime(moves[..|moves| - 1]), moves[|moves| - 1])
  }

  ghost predicate InTimeOrder(s: seq<Move>)
  {
    forall i, j | 0 <= i < j < |s| :: s[i].after <= s[j].after
  }

  lemma {:induction false} InsertAdds(s: seq<Move>, m: Move)
    ensures multiset(InsertMove(s, m)) == multiset(s) + multiset{m}
    ensures forall x :: x in InsertMove(s, m) <==> x in s || x == m
  {
    if s != [] && s[|s| - 1].after > m.after {
      InsertAdds(s[..|s| - 1], m);
      assert s == s[..|s| - 1] + [s[|s| - 1]];
    }
  }

  lemma {:induction false} InsertKeepsTimeOrder(s: seq<Move>, m: Move)
    requires InTimeOrder(s)
    ensures InTimeOrder(InsertMove(s, m))
  {
    if s != [] && s[|s| - 1].after > m.after {
      var rest := s[..|s| - 1];
      InsertKeepsTimeOrder(rest, m);
      InsertAdds(rest, m);
      forall i | 0 <= i < |InsertMove(rest, m)| ensures InsertMove(rest, m)[i].after <= s[|s| - 1].after {
        assert InsertMove(rest, m)[i] in InsertMove(rest, m);
      }
    }
  }

  /** The moves are taken in time order, each once. */
  lemma {:induction false} ByTimeSorts(moves: seq<Move>)
    ensures InTimeOrder(ByTime(moves)) && multiset(ByTime(moves)) == multiset(moves)
    ensures forall x :: x in ByTime(moves) <==> x in moves
  {
    if moves != [] {
      var rest, last := moves[..|moves| - 1], moves[|moves| - 1];
      ByTimeSorts(rest);
      assert moves == rest + [last];
      InsertKeepsTimeOrder(ByTime(rest), last);
      InsertAdds(ByTime(rest), last);
    }
  }

  /** The moves of one instant, in their order. */
  function AtInstant(moves: seq<Move>, ms: int): seq<Move>
  {
    if moves == [] then []
    else
      var last := moves[|moves| - 1];
      AtInstant(moves[..|moves| - 1], ms) + if last.after == ms then [last] else []
  }

  lemma {:induction false} AtInstantOneMore(s: seq<Move>, m: Move, ms: int)
    ensures AtInstant(s + [m], ms) == AtInstant(s, ms) + if m.after == ms then [m] else []
  {
    assert (s + [m])[..|s|] == s;
  }

  lemma {:induction false} InsertKeepsInstants(s: seq<Move>, m: Move, ms: int)
    ensures AtInstant(InsertMove(s, m), ms) == AtInstant(s + [m], ms)
  {
    if s != [] && s[|s| - 1].after > m.after {
      var rest, last := s[..|s| - 1], s[|s| - 1];
      InsertKeepsInstants(rest, m, ms);
      AtInstantOneMore(InsertMove(rest, m), last, ms);
      AtInstantOneMore(rest, m, ms);
      AtInstantOneMore(s, m, ms);
    }
  }

  /** Moves of one instant keep the order in which the scenario lists them. */
  lemma {:induction false} ByTimeIsStable(moves: seq<Move>, ms: int)
    ensures AtInstant(ByTime(moves), ms) == AtInstant(moves, ms)
  {
    if moves != [] {
      var rest, last := moves[..|moves| - 1], moves[|moves| - 1];
      ByTimeIsStable(rest, ms);
      InsertKeepsInstants(ByTime(rest), last, ms);
      AtInstantOneMore(ByTime(rest), last, ms);
    }
  }

  predicate Valid(m: Move)
  {
    0 <= m.after <= MAX_INT64 && m.waypoints != []
  }

  function SpeedOf(m: Move, speeds: map<string, real>): real
  {
    if m.speed.Some? then m.speed.value
    else if m.entity in speeds && speeds[m.entity] > 0.0 then speeds[m.entity]
    else DEFAULT_SPEED
  }

  /** A speed given with the move counts, even one that is not positive; then that of the entity, if it has a
      positive one, and otherwise fifteen metres a second. */
  lemma SpeedIsChosen(m: Move, speeds: map<string, real>)
    ensures m.speed.Some? ==> SpeedOf(m, speeds) == m.speed.value
    ensures m.speed.None? && m.entity in speeds && speeds[m.entity] > 0.0 ==> SpeedOf(m, speeds) == speeds[m.entity]
    ensures m.speed.None? && (m.entity !in speeds || speeds[m.entity] <= 0.0) ==> SpeedOf(m, speeds) == 15.0
  {
  }

  /** An entity's path: ordered in time and without overlap, ending within 64-bit milliseconds, connected if
      nothing on it moves in no time, and continuing the path the entity had before. */
  ghost predicate Continued(before: map<string, Motion>, after: map<string, Motion>, k: string)
    requires k in after
  {
    && Path(after[k]) && 0 <= LastAt(after[k]) <= MAX_INT64
    && (Steady(after[k]) ==> Connected(after[k]))
    && (k in before ==>
          before[k].segments <= after[k].segments && (before[k].start.Some? ==> after[k].start == before[k].start))
  }

  ghost predicate AllContinued(before: map<string, Motion>, after: map<string, Motion>)
  {
    && before.Keys <= after.Keys
    && forall k {:trigger Continued(before, after, k)} | k in after :: Continued(before, after, k)
  }

  predicate Moved(motions: map<string, Motion>, m: Move, speeds: map<string, real>)
  {
    m.entity in motions && motions[m.entity].segments != [] && SpeedOf(m, speeds) > 0.0
  }

  function Current(built: map<string, Motion>, entity: string): Motion
  {
    if entity in built then built[entity] else Motion(None, [])
  }

  /** One move of the scenario; none when its speed is not positive or an arrival does not fit in time. */
  function Applied(built: map<string, Motion>, move: Move, speeds: map<string, real>, distance: Distance)
      : Option<map<string, Motion>>
    requires Valid(move)
  {
    var speed := SpeedOf(move, speeds);
    if speed <= 0.0 then None
    else
      var next := Extended(Current(built, move.entity), move.after, move.waypoints, speed, distance);
      if next.None? then None else Some(built[move.entity := next.value])
  }

  function AppliedAll(built: map<string, Motion>, moves: seq<Move>, speeds: map<string, real>, distance: Distance)
      : Option<map<string, Motion>>
    requires forall m | m in moves :: Valid(m)
  {
    if moves == [] then Some(built)
    else
      var before := AppliedAll(built, moves[..|moves| - 1], speeds, distance);
      if before.None? then None else Applied(before.value, moves[|moves| - 1], speeds, distance)
  }

  lemma {:induction false} RefusalIsFinal(built: map<string, Motion>, moves: seq<Move>, i: nat,
                                          speeds: map<string, real>, distance: Distance)
    requires (forall m | m in moves :: Valid(m)) && i <= |moves|
    requires AppliedAll(built, moves[..i], speeds, distance).None?
    ensures AppliedAll(built, moves, speeds, distance).None?
    decreases |moves|
  {
    if i < |moves| {
      var rest := moves[..|moves| - 1];
      assert rest[..i] == moves[..i];
      RefusalIsFinal(built, rest, i, speeds, distance);
    } else {
      assert moves[..i] == moves;
    }
  }

  lemma SteadyPrefix(m: Motion, r: Motion)
    requires m.segments <= r.segments && Steady(r)
    ensures Steady(m)
  {
    forall s | s in m.segments && s.fromMs == s.toMs ensures s.from == s.to {
      assert s in r.segments;
    }
  }

  lemma ExtendedIsConnected(m: Motion, startMs: int, waypoints: seq<Point>, speed: real, distance: Distance)
    requires Path(m) && 0 <= startMs <= MAX_INT64 && waypoints != [] && speed > 0.0
    requires Extended(m, startMs, waypoints, speed, distance).Some?
    ensures var r := Extended(m, startMs, waypoints, speed, distance).value;
      Steady(r) && (Steady(m) ==> Connected(m)) ==> Connected(r)
  {
    var r := Extended(m, startMs, waypoints, speed, distance).value;
    ExtendedIsPath(m, startMs, waypoints, speed, distance);
    if Steady(r) {
      SteadyPrefix(m, r);
      if Connected(m) {
        SteadyDeparts(m, Departure(m, startMs));
      }
    }
  }

  lemma AppliedContinues(starts: map<string, Motion>, built: map<string, Motion>, move: Move,
                         speeds: map<string, real>, distance: Distance)
    requires AllContinued(starts, built) && Valid(move) && Applied(built, move, speeds, distance).Some?
    ensures var next := Applied(built, move, speeds, distance).value;
      AllContinued(starts, next) && Moved(next, move, speeds)
  {
    var m, speed := Current(built, move.entity), SpeedOf(move, speeds);
    var next := Applied(built, move, speeds, distance).value;
    assert move.entity in built ==> Continued(starts, built, move.entity);
    ExtendedIsPath(m, move.after, move.waypoints, speed, distance);
    ExtendedIsConnected(m, move.after, move.waypoints, speed, distance);
    PathEndsInTime(next[move.entity]);
    forall k | k in next ensures Continued(starts, next, k) {
      assert k in built ==> Continued(starts, built, k);
    }
  }

  lemma StillMoved(built: map<string, Motion>, move: Move, speeds: map<string, real>, distance: Distance, m: Move)
    requires Valid(move) && Applied(built, move, speeds, distance).Some? && Moved(built, m, speeds)
    ensures Moved(Applied(built, move, speeds, distance).value, m, speeds)
  {
  }

  lemma {:induction false} AppliedNext(built: map<string, Motion>, moves: seq<Move>, i: nat, speeds: map<string, real>,
                                       distance: Distance)
    requires (forall m | m in moves :: Valid(m)) && i < |moves| && AppliedAll(built, moves[..i], speeds, distance).Some?
    ensures AppliedAll(built, moves[..i + 1], speeds, distance)
      == Applied(AppliedAll(built, moves[..i], speeds, distance).value, moves[i], speeds, distance)
  {
    assert moves[..i + 1][..i] == moves[..i];
  }

  method ApplyMove(built: map<string, Motion>, move: Move, speeds: map<string, real>, distance: Distance)
      returns (r: Option<map<string, Motion>>)
    requires Path(Current(built, move.entity)) && Valid(move)
    ensures r == Applied(built, move, speeds, distance)
  {
    var speed := SpeedOf(move, speeds);
    if speed <= 0.0 {
      return None;
    }
    var m := Current(built, move.entity);
    var next := AppendMove(m, move.after, move.waypoints, speed, distance);
    r := if next.None? then None else Some(built[move.entity := next.value]);
  }

  /** Applies all moves in time order, or refuses exactly when one of them cannot be applied. Every path
      that comes out is ordered in time and without overlap, and ends within 64-bit milliseconds; it is
      connected as long as nothing moves in no time. */
  method BuildMotions(starts: map<string, Motion>, moves: seq<Move>, speeds: map<string, real>, distance: Distance)
      returns (motions: Option<map<string, Motion>>)
    requires AllContinued(starts, starts) && forall m | m in moves :: Valid(m)
    ensures (forall m | m in ByTime(moves) :: Valid(m))
      && motions == AppliedAll(starts, ByTime(moves), speeds, distance)
    ensures motions.Some? ==> AllContinued(starts, motions.value)
    ensures motions.Some? ==> forall m | m in moves :: Moved(motions.value, m, speeds)
  {
    ByTimeSorts(moves);
    var order := ByTime(moves);
    var built := starts;
    for i := 0 to |order|
      invariant AllContinued(starts, built)
      invariant AppliedAll(starts, order[..i], speeds, distance) == Some(built)
      invariant forall j | 0 <= j < i :: Moved(built, order[j], speeds)
    {
      assert order[i].entity in built ==> Continued(starts, built, order[i].entity);
      var next := ApplyMove(built, order[i], speeds, distance);
      AppliedNext(starts, order, i, speeds, distance);
      if next.None? {
        RefusalIsFinal(starts, order, i + 1, speeds, distance);
        return None;
      }
      AppliedContinues(starts, built, order[i], speeds, distance);
      forall j | 0 <= j < i ensures Moved(next.value, order[j], speeds) {
        StillMoved(built, order[i], speeds, distance, order[j]);
      }
      built := next.value;
    }
    assert order[..|order|] == order;
    motions := Some(built);
  }

  lemma PathEndsInTime(m: Motion)
    requires Path(m)
    ensures 0 <= LastAt(m) <= MAX_INT64
  {
    if m.segments != [] {
      assert Timed(m.segments[|m.segments| - 1]);
    }
  }
}
