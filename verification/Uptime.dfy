// Daily uptime from 15-minute slots (src/db.rs, src/status.rs, src/web.rs), and how long
// the results it needs are kept (src/rollup.rs).

module Uptime {
  import opened Basics
  import opened Days

  const SLOT_SECS := 900

  /** One probe result of the check in question. */
  datatype Result = Result(ts: int, ok: bool)

  datatype Tally = Tally(total: nat, up: nat)
  {
    function Plus(t: Tally): Tally {
      Tally(total + t.total, up + t.up)
    }
  }

  function Nothing(): Tally {
    Tally(0, 0)
  }

  function One(r: Result): Tally {
    Tally(1, if r.ok then 1 else 0)
  }

  datatype Slot = Slot(start: int, tally: Tally)

  function SlotOf(ts: int): int {
    ts / SLOT_SECS * SLOT_SECS
  }

  // ---- Counting directly ----

  /** Results from `from` on whose slot is `slot`. */
  function SlotTally(results: seq<Result>, from: int, slot: int): Tally {
    if results == [] then Nothing()
    else
      var r := results[|results| - 1];
      var rest := SlotTally(results[..|results| - 1], from, slot);
      if r.ts >= from && SlotOf(r.ts) == slot then rest.Plus(One(r)) else rest
  }

  /** The local date asked for, or any. */
  predicate Picks(z: Zone, date: Option<int>, t: int) {
    date.None? || DateOf(z, t) == date.value
  }

  /** Results from `from` on that fall on a local date, or all of them: the figure a day
      bar, or the strip as a whole, is meant to show. */
  function Counted(results: seq<Result>, from: int, z: Zone, date: Option<int>): Tally {
    if results == [] then Nothing()
    else
      var r := results[|results| - 1];
      var rest := Counted(results[..|results| - 1], from, z, date);
      if r.ts >= from && Picks(z, date, r.ts) then rest.Plus(One(r)) else rest
  }

  /** What the query returns: every slot with a result from `from` on, once, in order,
      with its counts. */
  ghost predicate IsSlots(slots: seq<Slot>, results: seq<Result>, from: int) {
    && (forall i, j :: 0 <= i < j < |slots| ==> slots[i].start < slots[j].start)
    && (forall i :: 0 <= i < |slots| ==> slots[i].tally == SlotTally(results, from, slots[i].start))
    && (forall k :: 0 <= k < |results| && results[k].ts >= from ==>
         exists i :: 0 <= i < |slots| && slots[i].start == SlotOf(results[k].ts))
  }

  // ---- As sets of results ----

  /** The results from `from` on that fall on the date asked for, or all of them. */
  function ResultsOn(results: seq<Result>, from: int, z: Zone, date: Option<int>): set<nat> {
    set k: nat | k < |results| && results[k].ts >= from && (date == None || date == Some(DateOf(z, results[k].ts)))
  }

  function GoodOn(results: seq<Result>, from: int, z: Zone, date: Option<int>): set<nat> {
    set k: nat | k in ResultsOn(results, from, z, date) && results[k].ok
  }

  /** A bar shows nothing for a day without results, and otherwise the share of good ones
      in percent. */
  ghost predicate Shows(uptime: Option<real>, results: seq<Result>, from: int, z: Zone, date: int) {
    var n, good := |ResultsOn(results, from, z, Some(date))|, |GoodOn(results, from, z, Some(date))|;
    && (uptime == None <==> n == 0)
    && (uptime.Some? ==> uptime.value * (n as real) == 100.0 * (good as real))
    && (uptime == Some(100.0) <==> n > 0 && forall k :: k in ResultsOn(results, from, z, Some(date)) ==> results[k].ok)
    && (uptime == Some(0.0) <==> n > 0 && forall k :: k in ResultsOn(results, from, z, Some(date)) ==> !results[k].ok)
  }

  lemma {:induction false} OneMoreResult(front: seq<Result>, r: Result, from: int, z: Zone, date: Option<int>)
    ensures var more, n, picked := front + [r], |front|, r.ts >= from && Picks(z, date, r.ts);
            && ResultsOn(more, from, z, date) == ResultsOn(front, from, z, date) + (if picked then {n} else {})
            && GoodOn(more, from, z, date) == GoodOn(front, from, z, date) + (if picked && r.ok then {n} else {})
            && n !in ResultsOn(front, from, z, date) && n !in GoodOn(front, from, z, date)
  {
    var more := front + [r];
    forall k: nat
      ensures k in ResultsOn(more, from, z, date) <==>
                k in ResultsOn(front, from, z, date) || (k == |front| && r.ts >= from && Picks(z, date, r.ts))
    {
      if k < |front| {
        assert more[k] == front[k];
      }
    }
  }

  lemma {:induction false} CountedMore(front: seq<Result>, r: Result, from: int, z: Zone, date: Option<int>)
    ensures Counted(front + [r], from, z, date)
         == if r.ts >= from && Picks(z, date, r.ts) then Counted(front, from, z, date).Plus(One(r))
            else Counted(front, from, z, date)
  {
    assert (front + [r])[..|front|] == front;
    hide Picks;
  }

  /** Counting directly counts these sets. */
  lemma {:induction false} CountedIs(results: seq<Result>, from: int, z: Zone, date: Option<int>)
    ensures Counted(results, from, z, date)
         == Tally(|ResultsOn(results, from, z, date)|, |GoodOn(results, from, z, date)|)
  {
    if results == [] {
      assert ResultsOn(results, from, z, date) == {} && GoodOn(results, from, z, date) == {};
    } else {
      hide ResultsOn, GoodOn, Picks, Counted;
      var front, last := results[..|results| - 1], results[|results| - 1];
      assert results == front + [last];
      CountedIs(front, from, z, date);
      CountedMore(front, last, from, z, date);
      OneMoreResult(front, last, from, z, date);
    }
  }

  lemma {:induction false} PercentShows(results: seq<Result>, from: int, z: Zone, date: int)
    ensures Shows(Percent(Counted(results, from, z, Some(date))), results, from, z, date)
  {
    CountedIs(results, from, z, Some(date));
    var all, good := ResultsOn(results, from, z, Some(date)), GoodOn(results, from, z, Some(date));
    AllOrNone(results, all, good);
    if |all| > 0 {
      ShareIs(|good|, |all|);
    }
    hide ResultsOn, GoodOn, Counted;
  }

  lemma {:induction false} AllOrNone(results: seq<Result>, all: set<nat>, good: set<nat>)
    requires forall k :: k in all ==> k < |results|
    requires forall k :: k in good <==> k in all && results[k].ok
    ensures |good| <= |all|
    ensures |good| == |all| <==> forall k :: k in all ==> results[k].ok
    ensures |good| == 0 <==> forall k :: k in all ==> !results[k].ok
  {
    var bad := all - good;
    assert all == good + bad && |all| == |good| + |bad|;
    assert |bad| == 0 <==> bad == {};
    assert |good| == 0 <==> good == {};
    assert bad == {} <==> forall k :: k in all ==> k !in bad;
    assert good == {} <==> forall k :: k in all ==> k !in good;
  }

  lemma {:induction false} ShareIs(good: nat, n: nat)
    requires n > 0
    ensures var share := (good as real) / (n as real) * 100.0;
            && share * (n as real) == 100.0 * (good as real)
            && (share == 100.0 <==> good == n) && (share == 0.0 <==> good == 0)
  {
    var q := (good as real) / (n as real);
    assert q * (n as real) == good as real;
    if q == 1.0 {
      assert good as real == n as real;
    }
  }

  // ---- The bars ----

  datatype Bar = Bar(day: Day, uptime: Option<real>)

  function Percent(t: Tally): Option<real> {
    if t.total > 0 then Some((t.up as real) / (t.total as real) * 100.0) else None
  }

  /** The slots whose own start falls on a date, or all of them, summed. */
  function SlotsOn(slots: seq<Slot>, z: Zone, date: Option<int>): Tally {
    if slots == [] then Nothing()
    else
      var s := slots[|slots| - 1];
      var rest := SlotsOn(slots[..|slots| - 1], z, date);
      if Picks(z, date, s.start) then rest.Plus(s.tally) else rest
  }

  /** One bar per day, summed from the slots. For a zone whose offsets and changes fall on
      quarter hours each is the day's results counted directly. */
  method UptimeBars(slots: seq<Slot>, days: seq<Day>, z: Zone, ghost results: seq<Result>, ghost from: int)
    returns (bars: seq<Bar>)
    ensures |bars| == |days|
    ensures forall i :: 0 <= i < |days| ==> bars[i] == Bar(days[i], Percent(SlotsOn(slots, z, Some(days[i].date))))
    ensures Regular(z, QUARTER) && IsSlots(slots, results, from) ==>
              forall i :: 0 <= i < |days| ==> bars[i].uptime == Percent(Counted(results, from, z, Some(days[i].date)))
    ensures Regular(z, QUARTER) && IsSlots(slots, results, from) ==>
              forall i :: 0 <= i < |days| ==>
                bars[i].day == days[i] && Shows(bars[i].uptime, results, from, z, days[i].date)
  {
    var perDay: map<int, Tally> := map[];
    for k := 0 to |slots|
      invariant forall d :: At(perDay, d, Nothing()) == SlotsOn(slots[..k], z, Some(d))
    {
      var date := DateOf(z, slots[k].start);
      assert slots[..k + 1][..k] == slots[..k];
      perDay := perDay[date := At(perDay, date, Nothing()).Plus(slots[k].tally)];
    }
    assert slots[..|slots|] == slots;
    bars := seq(|days|, i requires 0 <= i < |days| => Bar(days[i], Percent(At(perDay, days[i].date, Nothing()))));
    if Regular(z, QUARTER) && IsSlots(slots, results, from) {
      forall i | 0 <= i < |days|
        ensures SlotsOn(slots, z, Some(days[i].date)) == Counted(results, from, z, Some(days[i].date))
        ensures Shows(Percent(Counted(results, from, z, Some(days[i].date))), results, from, z, days[i].date)
      {
        PercentShows(results, from, z, days[i].date);
        SlotsCountDirectly(slots, results, from, z, Some(days[i].date));
      }
    }
  }

  // ---- Slots sum to dates ----

  /** A slot lies wholly on one local date. */
  lemma {:induction false} SlotOnOneDate(z: Zone, ts: int)
    requires Regular(z, QUARTER)
    ensures DateOf(z, SlotOf(ts)) == DateOf(z, ts)
  {
    var start := SlotOf(ts);
    forall i | 0 <= i < |z.changes|
      ensures !(start < z.changes[i].at <= ts)
    {
      assert z.changes[i].at % QUARTER == 0;
    }
    OffsetSteady(z.changes, z.base, start, ts);
    OffsetBounded(z, QUARTER, ts);
    QuarterOnDate(start, ts, OffsetAt(z, ts));
  }

  lemma {:induction false} QuarterOnDate(start: int, ts: int, offset: int)
    requires start % QUARTER == 0 && offset % QUARTER == 0 && start <= ts < start + QUARTER
    ensures (start + offset) / DAY == (ts + offset) / DAY
  {
    var w := start + offset;
    var date, quarter := w / DAY, w / QUARTER;
    assert w == QUARTER * quarter;
    assert 0 <= QUARTER * (quarter - 96 * date) < DAY;
    assert quarter - 96 * date <= 95;
    assert DAY * date <= ts + offset < DAY * (date + 1);
  }

  /** Results from `from` on in one of some slots, of which those starting on a date count. */
  function TallyIn(results: seq<Result>, from: int, z: Zone, date: Option<int>, starts: set<int>): Tally {
    if results == [] then Nothing()
    else
      var r := results[|results| - 1];
      var rest := TallyIn(results[..|results| - 1], from, z, date, starts);
      if r.ts >= from && SlotOf(r.ts) in starts && Picks(z, date, SlotOf(r.ts)) then rest.Plus(One(r)) else rest
  }

  lemma {:induction false} TallyInMore(
    results: seq<Result>, from: int, z: Zone, date: Option<int>, some: set<int>, s: int)
    requires s !in some
    ensures TallyIn(results, from, z, date, some + {s})
            == TallyIn(results, from, z, date, some).Plus(TallyIn(results, from, z, date, {s}))
  {
    if results != [] {
      TallyInMore(results[..|results| - 1], from, z, date, some, s);
    }
  }

  lemma {:induction false} TallyInOne(results: seq<Result>, from: int, z: Zone, date: Option<int>, s: int)
    ensures TallyIn(results, from, z, date, {s}) == if Picks(z, date, s) then SlotTally(results, from, s) else Nothing()
  {
    if results != [] {
      TallyInOne(results[..|results| - 1], from, z, date, s);
    }
  }

  lemma {:induction false} TallyInNone(results: seq<Result>, from: int, z: Zone, date: Option<int>)
    ensures TallyIn(results, from, z, date, {}) == Nothing()
  {
    if results != [] {
      TallyInNone(results[..|results| - 1], from, z, date);
    }
  }

  function Starts(slots: seq<Slot>): set<int> {
    if slots == [] then {} else Starts(slots[..|slots| - 1]) + {slots[|slots| - 1].start}
  }

  lemma {:induction false} StartsAre(slots: seq<Slot>, start: int)
    ensures start in Starts(slots) <==> exists i :: 0 <= i < |slots| && slots[i].start == start
  {
    if slots != [] {
      StartsAre(slots[..|slots| - 1], start);
    }
  }

  lemma {:induction false} SlotsAreTallies(
    slots: seq<Slot>, results: seq<Result>, from: int, z: Zone, date: Option<int>)
    requires forall i, j :: 0 <= i < j < |slots| ==> slots[i].start < slots[j].start
    requires forall i :: 0 <= i < |slots| ==> slots[i].tally == SlotTally(results, from, slots[i].start)
    ensures SlotsOn(slots, z, date) == TallyIn(results, from, z, date, Starts(slots))
  {
    hide SlotTally, TallyIn, Picks;
    if slots == [] {
      TallyInNone(results, from, z, date);
    } else {
      var front, last := slots[..|slots| - 1], slots[|slots| - 1];
      SlotsAreTallies(front, results, from, z, date);
      StartsAre(front, last.start);
      TallyInMore(results, from, z, date, Starts(front), last.start);
      TallyInOne(results, from, z, date, last.start);
    }
  }

  lemma {:induction false} TallyInAll(results: seq<Result>, from: int, z: Zone, date: Option<int>, starts: set<int>)
    requires Regular(z, QUARTER)
    requires forall k :: 0 <= k < |results| && results[k].ts >= from ==> SlotOf(results[k].ts) in starts
    ensures TallyIn(results, from, z, date, starts) == Counted(results, from, z, date)
  {
    if results != [] {
      TallyInAll(results[..|results| - 1], from, z, date, starts);
      SlotOnOneDate(z, results[|results| - 1].ts);
    }
  }

  /** Summing the slots that start on a date, or all of them, counts exactly the results
      on that date, or all. */
  lemma {:induction false} SlotsCountDirectly(
    slots: seq<Slot>, results: seq<Result>, from: int, z: Zone, date: Option<int>)
    requires Regular(z, QUARTER) && IsSlots(slots, results, from)
    ensures SlotsOn(slots, z, date) == Counted(results, from, z, date)
  {
    SlotsAreTallies(slots, results, from, z, date);
    forall k | 0 <= k < |results| && results[k].ts >= from
      ensures SlotOf(results[k].ts) in Starts(slots)
    {
      StartsAre(slots, SlotOf(results[k].ts));
    }
    TallyInAll(results, from, z, date, Starts(slots));
  }

  // ---- The strip adds up ----

  /** The counts of `n` dates from `first` on. */
  function DatesTotal(results: seq<Result>, from: int, z: Zone, first: int, n: nat): Tally {
    if n == 0 then Nothing()
    else DatesTotal(results, from, z, first, n - 1).Plus(Counted(results, from, z, Some(first + n - 1)))
  }

  lemma {:induction false} DatesTotalNone(from: int, z: Zone, first: int, n: nat)
    ensures DatesTotal([], from, z, first, n) == Nothing()
  {
    if n > 0 {
      DatesTotalNone(from, z, first, n - 1);
    }
  }

  /** One more result adds to one date of the range, if its date is in it. */
  lemma {:induction false} DatesTotalMore(results: seq<Result>, r: Result, from: int, z: Zone, first: int, n: nat)
    ensures DatesTotal(results + [r], from, z, first, n)
         == if r.ts >= from && first <= DateOf(z, r.ts) < first + n
            then DatesTotal(results, from, z, first, n).Plus(One(r))
            else DatesTotal(results, from, z, first, n)
  {
    assert (results + [r])[..|results|] == results;
    if n > 0 {
      DatesTotalMore(results, r, from, z, first, n - 1);
    }
  }

  lemma {:induction false} DatesCoverAll(results: seq<Result>, from: int, z: Zone, first: int, n: nat)
    requires forall k :: 0 <= k < |results| && results[k].ts >= from ==> first <= DateOf(z, results[k].ts) < first + n
    ensures DatesTotal(results, from, z, first, n) == Counted(results, from, z, None)
  {
    if results == [] {
      DatesTotalNone(from, z, first, n);
    } else {
      var front, last := results[..|results| - 1], results[|results| - 1];
      DatesCoverAll(front, from, z, first, n);
      assert results == front + [last];
      DatesTotalMore(front, last, from, z, first, n);
    }
  }

  /** The totals of a strip's days, each summed from its slots, add up to all results
      from its start to now, which is also what all its slots add up to: the bars and the
      90-day figure count the same results, each once. */
  lemma {:induction false} StripAddsUp(
    slots: seq<Slot>, results: seq<Result>, days: seq<Day>, z: Zone, first: int, now: int)
    requires Regular(z, QUARTER) && DatesAdvance(z)
    requires |days| > 0 && IsStrip(z, days, first) && first + |days| - 1 == DateOf(z, now)
    requires forall k :: 0 <= k < |results| ==> results[k].ts <= now
    requires IsSlots(slots, results, days[0].start)
    ensures BarsTotal(slots, z, first, |days|) == SlotsOn(slots, z, None) == Counted(results, days[0].start, z, None)
  {
    StripTiles(z, QUARTER, days, first, now);
    var from := days[0].start;
    forall k | 0 <= k < |results| && results[k].ts >= from
      ensures first <= DateOf(z, results[k].ts) < first + |days|
    {
      DatesNeverGoBack(z, QUARTER, results[k].ts, now);
      DatesNeverGoBack(z, QUARTER, from, results[k].ts);
    }
    DatesCoverAll(results, from, z, first, |days|);
    BarsTotalCounts(slots, results, from, z, first, |days|);
    SlotsCountDirectly(slots, results, from, z, None);
  }

  /** The counts behind `n` bars from date `first` on. */
  function BarsTotal(slots: seq<Slot>, z: Zone, first: int, n: nat): Tally {
    if n == 0 then Nothing()
    else BarsTotal(slots, z, first, n - 1).Plus(SlotsOn(slots, z, Some(first + n - 1)))
  }

  lemma {:induction false} BarsTotalCounts(
    slots: seq<Slot>, results: seq<Result>, from: int, z: Zone, first: int, n: nat)
    requires Regular(z, QUARTER) && IsSlots(slots, results, from)
    ensures BarsTotal(slots, z, first, n) == DatesTotal(results, from, z, first, n)
  {
    if n > 0 {
      BarsTotalCounts(slots, results, from, z, first, n - 1);
      SlotsCountDirectly(slots, results, from, z, Some(first + n - 1));
    }
  }

  // ---- Results are kept long enough ----

  /** Days of results the rollup keeps. */
  function ResultDays(hourlyDays: nat): int {
    Max(hourlyDays, STRIP_DAYS) + 1
  }

  /** Nothing a strip shows has been pruned, whatever the retention, if the zone's offset
      has not dropped by more than a day since the strip began; the extra day kept is
      what allows for the oldest day beginning earlier in local time. */
  lemma {:induction false} StripIsRetained(z: Zone, day: Day, now: int, hourlyDays: nat)
    requires Regular(z, QUARTER) && IsDay(z, day) && day.date == DateOf(z, now) - STRIP_DAYS + 1
    requires OffsetAt(z, day.start) - OffsetAt(z, now) <= DAY
    ensures day.start >= now - ResultDays(hourlyDays) * DAY
    ensures ResultDays(hourlyDays) == if hourlyDays > 90 then hourlyDays + 1 else 91
  {
    assert Wall(z, now) < (DateOf(z, now) + 1) * DAY;
    assert Wall(z, day.start) >= day.date * DAY;
  }
}
