// Calendar days in a time zone (src/days.rs). Times are Unix seconds; a wall time is
// the seconds a zone's clock shows, counted from its own midnight of day 0, so a date is
// a wall time divided by 86400.

module Days {
  import opened Basics

  const DAY := 86400
  const QUARTER := 900
  const MINUTE := 60
  const STRIP_DAYS := 90

  type Grain = g: int | g == MINUTE || g == QUARTER witness MINUTE

  /** From `at` on, the zone is `offset` seconds ahead of UTC. */
  datatype Change = Change(at: int, offset: int)

  datatype Zone = Zone(base: int, changes: seq<Change>)

  function OffsetIn(changes: seq<Change>, base: int, t: int): int {
    if changes == [] then base
    else
      var last := changes[|changes| - 1];
      if last.at <= t then last.offset else OffsetIn(changes[..|changes| - 1], base, t)
  }

  function OffsetAt(z: Zone, t: int): int {
    OffsetIn(z.changes, z.base, t)
  }

  function Wall(z: Zone, t: int): int {
    t + OffsetAt(z, t)
  }

  function DateOf(z: Zone, t: int): int {
    Wall(z, t) / DAY
  }

  // ---- What is assumed of a zone ----

  predicate GoodOffset(offset: int, grain: Grain)
  {
    -DAY < offset < DAY && offset % grain == 0
  }

  /** Offsets under a day, every change and offset a multiple of `grain`, and changes at
      least two days apart. */
  predicate Regular(z: Zone, grain: Grain)
  {
    && GoodOffset(z.base, grain)
    && (forall i :: 0 <= i < |z.changes| ==> GoodOffset(z.changes[i].offset, grain) && z.changes[i].at % grain == 0)
    && (forall i :: 0 < i < |z.changes| ==> z.changes[i - 1].at + 2 * DAY <= z.changes[i].at)
  }

  /** No change turns the calendar back to an earlier date. */
  predicate DatesAdvance(z: Zone) {
    forall i :: 0 <= i < |z.changes| ==> DateOf(z, z.changes[i].at - 1) <= DateOf(z, z.changes[i].at)
  }

  // ---- The offset over time ----

  lemma {:induction false} ChangesApart(z: Zone, grain: Grain, i: nat, j: nat)
    requires Regular(z, grain) && i < j < |z.changes|
    ensures z.changes[i].at + 2 * DAY <= z.changes[j].at
  {
    if i < j - 1 {
      ChangesApart(z, grain, i, j - 1);
    }
  }

  /** The offset at `t` is the base, or that of a change at or before `t` that no other
      change up to `t` follows. */
  lemma {:induction false} OffsetSource(changes: seq<Change>, base: int, t: int) returns (k: int)
    ensures -1 <= k < |changes|
    ensures OffsetIn(changes, base, t) == if k < 0 then base else changes[k].offset
    ensures k >= 0 ==> changes[k].at <= t
    ensures forall i :: k < i < |changes| ==> changes[i].at > t
  {
    if changes == [] {
      k := -1;
    } else if changes[|changes| - 1].at <= t {
      k := |changes| - 1;
    } else {
      k := OffsetSource(changes[..|changes| - 1], base, t);
    }
  }

  /** The clock shows the time plus the offset of the last change so far, and the date is
      that many whole days. */
  lemma ClockShows(z: Zone, t: int) returns (k: int)
    ensures -1 <= k < |z.changes| && (k >= 0 ==> z.changes[k].at <= t)
    ensures forall i :: k < i < |z.changes| ==> z.changes[i].at > t
    ensures var offset := if k < 0 then z.base else z.changes[k].offset;
            Wall(z, t) == t + offset && DateOf(z, t) * 86400 <= t + offset < (DateOf(z, t) + 1) * 86400
  {
    k := OffsetSource(z.changes, z.base, t);
  }

  lemma OffsetBounded(z: Zone, grain: Grain, t: int)
    requires Regular(z, grain)
    ensures GoodOffset(OffsetAt(z, t), grain)
  {
    var k := OffsetSource(z.changes, z.base, t);
  }

  /** Between two instants with no change after the first and up to the second, the
      offset stays. */
  lemma {:induction false} OffsetSteady(changes: seq<Change>, base: int, t: int, u: int)
    requires t <= u
    requires forall i :: 0 <= i < |changes| ==> !(t < changes[i].at <= u)
    ensures OffsetIn(changes, base, t) == OffsetIn(changes, base, u)
  {
    if changes != [] {
      var last := changes[|changes| - 1];
      OffsetSteady(changes[..|changes| - 1], base, t, u);
    }
  }

  ghost predicate ChangesAt(z: Zone, t: int) {
    exists i :: 0 <= i < |z.changes| && z.changes[i].at == t
  }

  // ---- Wall times ----

  /** `t` is the first instant whose wall clock reads `wall` or later. */
  ghost predicate FirstReading(z: Zone, wall: int, t: int) {
    Wall(z, t) >= wall && forall u :: u < t ==> Wall(z, u) < wall
  }

  /** For a midnight that is the first instant whose local date is at least the date. */
  lemma FirstOfDate(z: Zone, date: int, t: int)
    ensures FirstReading(z, date * DAY, t) <==> DateOf(z, t) >= date && forall u :: u < t ==> DateOf(z, u) < date
  {
    forall u
      ensures Wall(z, u) >= date * DAY <==> DateOf(z, u) >= date
    {
    }
    if DateOf(z, t) >= date && forall u :: u < t ==> DateOf(z, u) < date {
      forall u | u < t
        ensures Wall(z, u) < date * DAY
      {
        assert DateOf(z, u) < date;
      }
    }
  }

  lemma WallBounded(z: Zone, grain: Grain, t: int)
    requires Regular(z, grain)
    ensures t - DAY < Wall(z, t) < t + DAY
  {
    OffsetBounded(z, grain, t);
  }

  /** There is a first reading of any wall time, within a day of it. */
  lemma {:induction false} FindFirst(z: Zone, grain: Grain, wall: int, from: int) returns (t: int)
    requires Regular(z, grain)
    requires from <= wall + DAY && forall u :: u < from ==> Wall(z, u) < wall
    ensures FirstReading(z, wall, t)
    decreases wall + DAY - from
  {
    WallBounded(z, grain, from);
    if Wall(z, from) >= wall {
      t := from;
    } else {
      t := FindFirst(z, grain, wall, from + 1);
    }
  }

  lemma FirstReadingExists(z: Zone, grain: Grain, wall: int) returns (t: int)
    requires Regular(z, grain)
    ensures FirstReading(z, wall, t)
  {
    forall u | u < wall - DAY
      ensures Wall(z, u) < wall
    {
      WallBounded(z, grain, u);
    }
    t := FindFirst(z, grain, wall, wall - DAY);
  }

  /** The clock either reaches a wall time tick by tick, or jumps over it at a change and
      then never shows anything between. */
  lemma FirstReadingShape(z: Zone, grain: Grain, wall: int, t: int)
    requires Regular(z, grain) && FirstReading(z, wall, t)
    ensures wall <= Wall(z, t) < wall + 2 * DAY
    ensures forall u :: u >= t && wall < Wall(z, t) ==> Wall(z, u) >= Wall(z, t)
    ensures wall < Wall(z, t) ==> Wall(z, t) % grain == 0
  {
    assert Wall(z, t - 1) < wall;
    OffsetBounded(z, grain, t);
    OffsetBounded(z, grain, t - 1);
    if wall < Wall(z, t) {
      if !ChangesAt(z, t) {
        OffsetSteady(z.changes, z.base, t - 1, t);
        assert false;
      }
      var i :| 0 <= i < |z.changes| && z.changes[i].at == t;
      Multiples(t, OffsetAt(z, t), grain);
      forall u | u >= t
        ensures Wall(z, u) >= Wall(z, t)
      {
        if u < t + 2 * DAY {
          forall j | 0 <= j < |z.changes|
            ensures !(t < z.changes[j].at <= u)
          {
            if i < j {
              ChangesApart(z, grain, i, j);
            } else if j < i {
              ChangesApart(z, grain, j, i);
            }
          }
          OffsetSteady(z.changes, z.base, t, u);
        } else {
          WallBounded(z, grain, u);
        }
      }
    }
  }

  lemma Multiples(a: int, b: int, grain: Grain)
    requires a % grain == 0 && b % grain == 0
    ensures (a + b) % grain == 0
  {
    if grain == MINUTE {
      assert (a + b) % MINUTE == 0;
    } else {
      assert (a + b) % QUARTER == 0;
    }
  }

  // ---- From wall time to instant ----

  function Earlier(a: Option<int>, b: Option<int>): Option<int> {
    if a.None? then b else if b.None? then a else Some(Min(a.value, b.value))
  }

  function Candidate(z: Zone, wall: int, offset: int): Option<int> {
    if OffsetAt(z, wall - offset) == offset then Some(wall - offset) else None
  }

  /** The earlier of the instants at which the clock shows `wall`, if any, looking among
      the first `k` changes' offsets and the base. */
  function EarliestAmong(z: Zone, wall: int, k: nat): Option<int>
    requires k <= |z.changes|
  {
    if k == 0 then Candidate(z, wall, z.base)
    else Earlier(EarliestAmong(z, wall, k - 1), Candidate(z, wall, z.changes[k - 1].offset))
  }

  function Earliest(z: Zone, wall: int): Option<int> {
    EarliestAmong(z, wall, |z.changes|)
  }

  /** The base offset, or that of one of the first `k` changes. */
  predicate Among(z: Zone, offset: int, k: nat)
    requires k <= |z.changes|
  {
    offset == z.base || exists i :: 0 <= i < k && z.changes[i].offset == offset
  }

  lemma {:induction false} EarliestAmongIs(z: Zone, wall: int, k: nat)
    requires k <= |z.changes|
    ensures var r := EarliestAmong(z, wall, k);
            && (r.Some? ==> Wall(z, r.value) == wall)
            && (forall t :: Wall(z, t) == wall && Among(z, OffsetAt(z, t), k) ==> r.Some? && r.value <= t)
  {
    if k > 0 {
      EarliestAmongIs(z, wall, k - 1);
    }
  }

  /** `Earliest` is the first instant at which the clock shows exactly `wall`. */
  lemma EarliestIs(z: Zone, wall: int)
    ensures var r := Earliest(z, wall);
            && (r.Some? ==> Wall(z, r.value) == wall)
            && (forall t :: Wall(z, t) == wall ==> r.Some? && r.value <= t)
  {
    EarliestAmongIs(z, wall, |z.changes|);
    forall t | Wall(z, t) == wall
      ensures OffsetAt(z, t) == z.base || exists i :: 0 <= i < |z.changes| && z.changes[i].offset == OffsetAt(z, t)
    {
      var k := OffsetSource(z.changes, z.base, t);
    }
  }

  /** At and above a wall time, up to what the clock first shows of it, nothing is found
      but that first reading. */
  lemma EarliestAtGap(z: Zone, grain: Grain, wall: int, t: int, w: int)
    requires Regular(z, grain) && FirstReading(z, wall, t)
    requires wall <= w <= Wall(z, t)
    ensures Earliest(z, w) == if w == Wall(z, t) then Some(t) else None
  {
    FirstReadingShape(z, grain, wall, t);
    EarliestIs(z, w);
    forall u | Wall(z, u) == w
      ensures u >= t && w == Wall(z, t)
    {
    }
  }

  /** First instant of a date: its midnight, or the first quarter hour after it the
      clock shows. */
  method StartOf(z: Zone, date: int) returns (ts: int)
    ensures Regular(z, QUARTER) ==> FirstReading(z, date * DAY, ts)
  {
    var midnight := date * DAY;
    var found := Earliest(z, midnight);
    ghost var first := 0;
    if Regular(z, QUARTER) {
      first := FirstReadingExists(z, QUARTER, midnight);
      FirstReadingShape(z, QUARTER, midnight, first);
      EarliestAtGap(z, QUARTER, midnight, first, midnight);
    }
    if found.Some? {
      return found.value;
    }
    var t := midnight;
    for k := 0 to 2 * 96
      invariant t == midnight + k * QUARTER
      invariant Regular(z, QUARTER) ==> t < Wall(z, first)
    {
      t := t + QUARTER;
      if Regular(z, QUARTER) {
        NextMultiple(t - QUARTER, Wall(z, first), midnight);
        EarliestAtGap(z, QUARTER, midnight, first, t);
      }
      found := Earliest(z, t);
      if found.Some? {
        return found.value;
      }
    }
    return midnight;
  }

  lemma NextMultiple(a: int, b: int, midnight: int)
    requires midnight % DAY == 0 && (a - midnight) % QUARTER == 0 && b % QUARTER == 0 && a < b
    ensures a + QUARTER <= b
  {
    assert midnight % QUARTER == 0;
    assert a % QUARTER == 0;
  }

  // Local times may hold fractions of a second: in nanoseconds, an instant and what the
  // clock then shows.

  const NANOS := 1_000_000_000

  function WallNanos(z: Zone, t: int): int {
    t + OffsetAt(z, t / NANOS) * NANOS
  }

  ghost predicate FirstReadingNanos(z: Zone, wall: int, t: int) {
    WallNanos(z, t) >= wall && forall u :: u < t ==> WallNanos(z, u) < wall
  }

  lemma WallNanosIs(z: Zone, t: int)
    ensures WallNanos(z, t) == Wall(z, t / NANOS) * NANOS + t % NANOS
  {
  }

  /** The first reading of a time with a fraction is in the second of the first reading
      without it. */
  lemma FractionToo(z: Zone, wall: int, nanos: nat, t: int) returns (exact: int)
    requires nanos < NANOS && FirstReading(z, wall, t)
    ensures FirstReadingNanos(z, wall * NANOS + nanos, exact) && exact / NANOS == t
  {
    exact := t * NANOS + (if Wall(z, t) == wall then nanos else 0);
    assert exact / NANOS == t && exact % NANOS == exact - t * NANOS;
    WallNanosIs(z, exact);
    forall u | u < exact
      ensures WallNanos(z, u) < wall * NANOS + nanos
    {
      WallNanosIs(z, u);
      assert u / NANOS <= t;
    }
  }

  /** The instant a wall time names, in whole seconds: its earlier one if it occurs, else
      the first after the gap it falls in. In both cases the second in which the clock
      first reads it or later. A fraction does not move the second a time is found in,
      and the walk over a gap starts from the whole minute. */
  method LocalToTs(z: Zone, wall: int, nanos: nat) returns (ts: int, ghost exact: int)
    requires nanos < NANOS
    ensures Regular(z, MINUTE) ==> FirstReading(z, wall, ts)
    ensures Regular(z, MINUTE) ==> FirstReadingNanos(z, wall * NANOS + nanos, exact) && ts == exact / NANOS
  {
    ts := LocalSecondToTs(z, wall);
    exact := 0;
    if Regular(z, MINUTE) {
      exact := FractionToo(z, wall, nanos, ts);
    }
  }

  method LocalSecondToTs(z: Zone, wall: int) returns (ts: int)
    ensures Regular(z, MINUTE) ==> FirstReading(z, wall, ts)
  {
    var found := Earliest(z, wall);
    ghost var first := 0;
    if Regular(z, MINUTE) {
      first := FirstReadingExists(z, MINUTE, wall);
      FirstReadingShape(z, MINUTE, wall, first);
      EarliestAtGap(z, MINUTE, wall, first, wall);
    }
    if found.Some? {
      return found.value;
    }
    var t := wall / MINUTE * MINUTE;
    for k := 0 to 2 * 1440
      invariant t == wall / MINUTE * MINUTE + k * MINUTE
      invariant Regular(z, MINUTE) ==> t < Wall(z, first) && Wall(z, first) % MINUTE == 0
    {
      t := t + MINUTE;
      if Regular(z, MINUTE) {
        EarliestAtGap(z, MINUTE, wall, first, t);
      }
      found := Earliest(z, t);
      if found.Some? {
        return found.value;
      }
    }
    if Regular(z, MINUTE) {
      assert false;
    }
    return wall;
  }

  // ---- Days ----

  /** The half-open range of instants of one date. */
  datatype Day = Day(date: int, start: int, end: int)
  {
    predicate Contains(t: int) {
      start <= t < end
    }
  }

  /** The day of a date begins and ends where the clock first reads its midnight and the
      next one's, or later. */
  ghost predicate IsDay(z: Zone, d: Day) {
    FirstReading(z, d.date * DAY, d.start) && FirstReading(z, (d.date + 1) * DAY, d.end)
  }

  method DayOn(z: Zone, date: int) returns (d: Day)
    ensures d.date == date && d.start <= d.end
    ensures Regular(z, QUARTER) ==> IsDay(z, d)
  {
    var start := StartOf(z, date);
    var next := StartOf(z, date + 1);
    if Regular(z, QUARTER) {
      ReadingsInOrder(z, date * DAY, (date + 1) * DAY, start, next);
    }
    d := Day(date, start, Max(next, start));
  }

  lemma ReadingsInOrder(z: Zone, a: int, b: int, t: int, u: int)
    requires a <= b && FirstReading(z, a, t) && FirstReading(z, b, u)
    ensures t <= u
  {
    assert u < t ==> Wall(z, u) < a;
  }

  /** The last `n` days up to the one holding `now`, oldest first. */
  method LastDays(z: Zone, now: int, n: nat) returns (days: seq<Day>)
    ensures |days| == n
    ensures forall i :: 0 <= i < n ==> days[i].date == DateOf(z, now) - n + 1 + i
    ensures Regular(z, QUARTER) ==> forall i :: 0 <= i < n ==> IsDay(z, days[i])
  {
    var back: seq<Day> := [];
    var date := DateOf(z, now);
    for k := 0 to n
      invariant |back| == k && date == DateOf(z, now) - k
      invariant forall i :: 0 <= i < k ==> back[i].date == DateOf(z, now) - i
      invariant Regular(z, QUARTER) ==> forall i :: 0 <= i < k ==> IsDay(z, back[i])
    {
      var d := DayOn(z, date);
      back := back + [d];
      date := date - 1;
    }
    days := seq(n, i requires 0 <= i < n => back[n - 1 - i]);
  }

  // ---- Days tile time ----

  lemma {:induction false} DatesNeverGoBack(z: Zone, grain: Grain, t: int, u: int)
    requires Regular(z, grain) && DatesAdvance(z) && t <= u
    ensures DateOf(z, t) <= DateOf(z, u)
    decreases u - t
  {
    if t < u {
      DatesNeverGoBack(z, grain, t, u - 1);
      if ChangesAt(z, u) {
        var i :| 0 <= i < |z.changes| && z.changes[i].at == u;
      } else {
        OffsetSteady(z.changes, z.base, u - 1, u);
      }
    }
  }

  /** An instant is in a day exactly when the clock shows the day's date. */
  lemma InDayIffOnDate(z: Zone, grain: Grain, d: Day, t: int)
    requires Regular(z, grain) && DatesAdvance(z) && IsDay(z, d)
    ensures d.Contains(t) <==> DateOf(z, t) == d.date
  {
    AtOrAfter(z, grain, d.date, d.start, t);
    AtOrAfter(z, grain, d.date + 1, d.end, t);
  }

  lemma AtOrAfter(z: Zone, grain: Grain, date: int, start: int, t: int)
    requires Regular(z, grain) && DatesAdvance(z) && FirstReading(z, date * DAY, start)
    ensures start <= t <==> date <= DateOf(z, t)
  {
    if start <= t {
      DatesNeverGoBack(z, grain, start, t);
    }
  }

  /** Consecutive days as `LastDays` yields them. */
  ghost predicate IsStrip(z: Zone, days: seq<Day>, first: int) {
    forall i :: 0 <= i < |days| ==> IsDay(z, days[i]) && days[i].date == first + i
  }

  /** The days of a strip leave no gap and no overlap: each instant between its ends is in
      exactly one of them, a skipped date being an empty day, and the last holds `now`. */
  lemma StripTiles(z: Zone, grain: Grain, days: seq<Day>, first: int, now: int)
    requires Regular(z, grain) && DatesAdvance(z)
    requires |days| > 0 && IsStrip(z, days, first) && first + |days| - 1 == DateOf(z, now)
    ensures forall i :: 0 <= i < |days| - 1 ==> days[i].end == days[i + 1].start
    ensures days[|days| - 1].Contains(now)
    ensures forall t :: days[0].start <= t < days[|days| - 1].end ==>
              var k := DateOf(z, t) - first;
              && 0 <= k < |days|
              && forall i :: 0 <= i < |days| ==> (days[i].Contains(t) <==> i == k)
  {
    forall i | 0 <= i < |days| - 1
      ensures days[i].end == days[i + 1].start
    {
      FirstReadingUnique(z, (days[i].date + 1) * DAY, days[i].end, days[i + 1].start);
    }
    var last := days[|days| - 1];
    InDayIffOnDate(z, grain, last, now);
    forall t | days[0].start <= t < last.end
      ensures 0 <= DateOf(z, t) - first < |days|
      ensures forall i :: 0 <= i < |days| ==> (days[i].Contains(t) <==> i == DateOf(z, t) - first)
    {
      AtOrAfter(z, grain, first, days[0].start, t);
      AtOrAfter(z, grain, last.date + 1, last.end, t);
      forall i | 0 <= i < |days|
        ensures days[i].Contains(t) <==> i == DateOf(z, t) - first
      {
        InDayIffOnDate(z, grain, days[i], t);
      }
    }
  }

  lemma FirstReadingUnique(z: Zone, wall: int, t: int, u: int)
    requires FirstReading(z, wall, t) && FirstReading(z, wall, u)
    ensures t == u
  {
    ReadingsInOrder(z, wall, wall, t, u);
    ReadingsInOrder(z, wall, wall, u, t);
  }

  lemma {:induction false} LaterChangesWait(changes: seq<Change>, base: int, k: nat, t: int)
    requires k <= |changes| && forall j :: k <= j < |changes| ==> changes[j].at > t
    ensures OffsetIn(changes, base, t) == OffsetIn(changes[..k], base, t)
  {
    if k < |changes| {
      var front := changes[..|changes| - 1];
      LaterChangesWait(front, base, k, t);
      assert front[..k] == changes[..k];
    } else {
      assert changes[..k] == changes;
    }
  }

  predicate SetsBack(z: Zone, i: nat)
    requires i < |z.changes|
  {
    DateOf(z, z.changes[i].at - 1) > DateOf(z, z.changes[i].at)
  }

  lemma {:induction false} FirstSetback(z: Zone, i: nat) returns (k: nat)
    requires i < |z.changes| && SetsBack(z, i)
    ensures k <= i && SetsBack(z, k) && forall j: nat :: j < k ==> !SetsBack(z, j)
  {
    if j: nat :| j < i && SetsBack(z, j) {
      k := FirstSetback(z, j);
    } else {
      k := i;
    }
  }

  /** Up to a change no earlier one of which turns the calendar back, dates only grow. */
  lemma DatesGrowBefore(z: Zone, grain: Grain, k: nat, u: int)
    requires Regular(z, grain) && k < |z.changes| && forall j: nat :: j < k ==> !SetsBack(z, j)
    requires u < z.changes[k].at
    ensures DateOf(z, u) <= DateOf(z, z.changes[k].at - 1)
  {
    var z' := Zone(z.base, z.changes[..k]);
    forall t | t < z.changes[k].at
      ensures DateOf(z', t) == DateOf(z, t)
    {
      forall j | k < j < |z.changes|
        ensures z.changes[j].at > t
      {
        ChangesApart(z, grain, k, j);
      }
      LaterChangesWait(z.changes, z.base, k, t);
    }
    forall j | 0 <= j < k
      ensures z.changes[j].at < z.changes[k].at && !SetsBack(z, j)
    {
      ChangesApart(z, grain, j, k);
    }
    assert DatesAdvance(z');
    DatesNeverGoBack(z', grain, u, z.changes[k].at - 1);
  }

  /** A change that turns the calendar back falls in a day it is not dated by. */
  lemma SetbackShows(z: Zone, grain: Grain, i: nat) returns (d: Day, t: int)
    requires Regular(z, grain) && i < |z.changes| && SetsBack(z, i)
    ensures IsDay(z, d) && d.Contains(t) && DateOf(z, t) != d.date
  {
    var k := FirstSetback(z, i);
    t := z.changes[k].at;
    var date := DateOf(z, t - 1);
    var start := FirstReadingExists(z, grain, date * DAY);
    var end := FirstReadingExists(z, grain, (date + 1) * DAY);
    FirstOfDate(z, date, start);
    FirstOfDate(z, date + 1, end);
    assert start <= t - 1;
    if end < t {
      DatesGrowBefore(z, grain, k, end);
    }
    assert end != t;
    d := Day(date, start, end);
  }

  /** Days hold exactly the instants they are dated by, for every day and instant, if and
      only if no change of the clock turns the calendar back. */
  lemma DaysTileIff(z: Zone, grain: Grain)
    requires Regular(z, grain)
    ensures DatesAdvance(z) <==> forall d: Day, t :: IsDay(z, d) ==> (d.Contains(t) <==> DateOf(z, t) == d.date)
  {
    if DatesAdvance(z) {
      forall d: Day, t | IsDay(z, d)
        ensures d.Contains(t) <==> DateOf(z, t) == d.date
      {
        InDayIffOnDate(z, grain, d, t);
      }
    } else {
      var i :| 0 <= i < |z.changes| && !(DateOf(z, z.changes[i].at - 1) <= DateOf(z, z.changes[i].at));
      var d, t := SetbackShows(z, grain, i);
    }
  }

  /** A clock that goes back over midnight breaks the tiling: here it is set back an hour
      at 00:30, and the instant an hour after that midnight is in the new day's range
      though the clock shows the old date. */
  lemma BackOverMidnight()
    ensures var z := Zone(0, [Change(1800, -3600)]);
            var day := Day(0, 0, 90000);
            && Regular(z, QUARTER) && !DatesAdvance(z)
            && IsDay(z, day) && day.Contains(1800) && DateOf(z, 1800) == -1
  {
    var z := Zone(0, [Change(1800, -3600)]);
    assert z.changes[..|z.changes| - 1] == [];
    forall t
      ensures OffsetAt(z, t) == if t < 1800 then 0 else -3600
    {
      assert OffsetIn(z.changes[..|z.changes| - 1], z.base, t) == 0;
    }
    assert DateOf(z, z.changes[0].at - 1) == 0;
    assert DateOf(z, z.changes[0].at) == -1;
  }
}
