// Raw samples, their hourly aggregates and the series index (src/db.rs, src/rollup.rs).

module Samples {
  import opened Basics
  import opened Aggregates

  const DAY := 86400

  datatype Store = Store(
    raw: map<Cell, real>, hourly: map<Cell, Aggregate>, series: map<Key, int>, last: Option<int>)

  const EMPTY := Store(map[], map[], map[], None)

  // ---- Statements ----

  // Inserting a sample is two statements, each its own transaction.

  function WriteRaw(s: Store, x: Sample): Store {
    s.(raw := s.raw[x.cell := x.value])
  }

  function IndexSeries(s: Store, c: Cell): Store {
    s.(series := s.series[c.key := if c.key in s.series then Max(s.series[c.key], c.ts) else c.ts])
  }

  function InsertRaw(s: Store, x: Sample): Store {
    IndexSeries(WriteRaw(s, x), x.cell)
  }

  /** The index dates the sample's series no earlier than the sample. */
  predicate Listed(s: Store, c: Cell) {
    c.key in s.series && c.ts <= s.series[c.key]
  }

  /** The raw samples a series prune leaves without an index row. */
  function LeftOut(s: Store, cutoff: int): set<Cell> {
    set c | c in s.raw && c.key in s.series && s.series[c.key] < cutoff
  }

  /** The (hour, series) groups with a sample in `[from, until)`. */
  function Groups(raw: map<Cell, real>, from: int, until: int): set<Cell> {
    set c | c in raw && from <= c.ts < until :: Cell(HourStart(c.ts), c.key)
  }

  /** Recompute the hourly rows of `[from, until)`, replacing those already there. */
  function Rollup(hourly: map<Cell, Aggregate>, raw: map<Cell, real>, from: int, until: int): map<Cell, Aggregate> {
    hourly + (map g | g in Groups(raw, from, until) ::
        AggregateOf(raw, g.key, Max(g.ts, from), Min(g.ts + HOUR, until)))
  }

  function PruneRaw(s: Store, cutoff: int): Store {
    s.(raw := map c | c in s.raw && c.ts >= cutoff :: s.raw[c])
  }

  function PruneSeries(s: Store, cutoff: int): Store {
    s.(series := map k | k in s.series && s.series[k] >= cutoff :: s.series[k])
  }

  function PruneHourly(s: Store, cutoff: int): Store {
    s.(hourly := map g | g in s.hourly && g.ts >= cutoff :: s.hourly[g])
  }

  /** Where a pass starts: the recorded boundary, or two hours back the first time. */
  function RollupFrom(last: Option<int>, now: int): int {
    Min(if last.Some? then last.value else HourStart(now) - 7200, HourStart(now))
  }

  /** So many days back. */
  function DaysBack(now: int, days: nat): int {
    now - days * DAY
  }

  // ---- Runs ----

  /** A rollup pass in progress: `done` of its statements have run. */
  datatype Pass = Idle | Running(now: int, rawDays: nat, hourlyDays: nat, from: int, done: nat)
  {
    function To(): int
      requires Running?
    {
      HourStart(now)
    }

    function RawCutoff(): int
      requires Running?
    {
      DaysBack(now, rawDays)
    }

    function HourlyCutoff(): int
      requires Running?
    {
      DaysBack(now, hourlyDays)
    }

    /** The hours of this pass are aggregated. */
    predicate Aggregated() {
      Running? && done >= 1
    }
  }

  /** `pending` are the samples written whose series is not indexed yet. The rest is
      history. `all` is every sample ever written, by its last value. `late` names the
      hourly rows that a sample reached after the hour was rolled up. `unlisted` are the
      samples whose index row was never written, or went in a series prune while they were
      there. `first` is where the first recorded pass began, `hourCut` and `rawCut` the
      furthest cutoffs so far. An index row before `owed` may have lost its sample to a raw
      prune that no series prune has followed up. */
  datatype State = State(
    store: Store, pass: Pass, pending: multiset<Cell>,
    all: map<Cell, real>, late: set<Cell>, unlisted: set<Cell>,
    first: int, hourCut: int, rawCut: int, owed: Option<int>)

  const START := State(EMPTY, Idle, multiset{}, map[], {}, {}, 0, 0, 0, None)

  datatype Action =
    | Insert(sample: Sample)
    | Index(cell: Cell)
    | IndexFails(cell: Cell)
    | Begin(now: int, rawDays: nat, hourlyDays: nat)
    | RollUp
    | Record
    | DropRaw
    | DropSeries
    | DropHourly
    | PassFails
    | Crash

  /** Up to where hours have been rolled up, a pass in progress included. */
  function Covered(s: State): Option<int> {
    if s.pass.Aggregated() && s.pass.from < s.pass.To() then Some(s.pass.To())
    else s.store.last
  }

  /** Times are not negative, and the config wants at least a day of raw samples. Samples
      may be written by several tasks at once. */
  predicate Enabled(s: State, a: Action) {
    match a
    case Insert(x) => x.cell.ts >= 0
    case Index(c) => c in s.pending
    case IndexFails(c) => c in s.pending
    case Begin(now, rawDays, _) => s.pass.Idle? && now >= 0 && rawDays >= 1
    case RollUp => s.pass.Running? && s.pass.done == 0
    case Record => s.pass.Running? && s.pass.done == 1
    case DropRaw => s.pass.Running? && s.pass.done == 2
    case DropSeries => s.pass.Running? && s.pass.done == 3
    case DropHourly => s.pass.Running? && s.pass.done == 4
    case PassFails => true
    case Crash => true
  }

  function Done(p: Pass): Pass
    requires p.Running?
  {
    p.(done := p.done + 1)
  }

  function Further(cutoff: Option<int>, other: int): Option<int> {
    Some(if cutoff.Some? then Max(cutoff.value, other) else other)
  }

  function HourOf(c: Cell): Cell {
    Cell(HourStart(c.ts), c.key)
  }

  predicate IsLate(s: State, c: Cell) {
    Covered(s).Some? && c.ts < Covered(s).value
  }

  function Next(s: State, a: Action): State
    requires Enabled(s, a)
  {
    match a
    case Insert(x) =>
      s.(store := WriteRaw(s.store, x), pending := s.pending + multiset{x.cell},
         all := s.all[x.cell := x.value],
         late := if IsLate(s, x.cell) then s.late + {HourOf(x.cell)} else s.late)
    case Index(c) =>
      s.(store := IndexSeries(s.store, c), pending := s.pending - multiset{c},
         owed := if c in s.store.raw then s.owed else Further(s.owed, c.ts + 1))
    case IndexFails(c) => s.(pending := s.pending - multiset{c}, unlisted := s.unlisted + {c})
    case Begin(now, rawDays, hourlyDays) =>
      s.(pass := Running(now, rawDays, hourlyDays, RollupFrom(s.store.last, now), 0))
    case RollUp =>
      if s.pass.from >= s.pass.To() then s.(pass := Done(s.pass))
      else s.(store := s.store.(hourly := Rollup(s.store.hourly, s.store.raw, s.pass.from, s.pass.To())),
              late := (set g | g in s.late && !(s.pass.from <= g.ts < s.pass.To())),
              pass := Done(s.pass))
    case Record =>
      if s.pass.from >= s.pass.To() then s.(pass := Done(s.pass))
      else s.(store := s.store.(last := Some(s.pass.To())),
              first := if s.store.last.None? then s.pass.from else s.first,
              pass := Done(s.pass))
    case DropRaw =>
      var cutoff := s.pass.RawCutoff();
      s.(store := PruneRaw(s.store, cutoff), rawCut := Max(s.rawCut, cutoff),
         owed := Further(s.owed, cutoff),
         pass := Done(s.pass))
    case DropSeries =>
      var cutoff := s.pass.RawCutoff();
      s.(store := PruneSeries(s.store, cutoff), unlisted := s.unlisted + LeftOut(s.store, cutoff),
         owed := if s.owed.Some? && s.owed.value <= cutoff then None else s.owed,
         pass := Done(s.pass))
    case DropHourly =>
      s.(store := PruneHourly(s.store, s.pass.HourlyCutoff()),
         hourCut := Max(s.hourCut, s.pass.HourlyCutoff()), pass := Idle)
    case PassFails => s.(pass := Idle)
    case Crash => s.(pass := Idle, pending := multiset{}, unlisted := s.unlisted + set c | c in s.pending)
  }

  ghost predicate Step(s: State, a: Action, t: State) {
    Enabled(s, a) && t == Next(s, a)
  }

  ghost predicate IsRun(states: seq<State>, actions: seq<Action>) {
    && |states| == |actions| + 1
    && states[0] == START
    && forall i :: 0 <= i < |actions| ==> Enabled(states[i], actions[i]) && states[i + 1] == Next(states[i], actions[i])
  }

  // ---- What always holds ----

  /** The hourly row of one series and hour is what all its samples give, both ways:
      there is one exactly when there is a sample. Rows past retention and rows a late
      sample missed are excepted. */
  ghost predicate RowExact(s: State, g: Cell) {
    g !in s.late && g.ts >= s.hourCut ==>
      && (g in s.store.hourly <==> HasSample(s.all, g.key, g.ts, g.ts + HOUR))
      && (g in s.store.hourly ==> s.store.hourly[g] == AggregateOf(s.all, g.key, g.ts, g.ts + HOUR))
  }

  predicate OnTheHour(g: Cell) {
    g.ts % HOUR == 0
  }

  ghost predicate RawOk(s: State) {
    && (forall c :: c in s.store.raw ==> c in s.all && s.all[c] == s.store.raw[c])
    && (forall c :: c in s.all && c.ts >= s.rawCut ==> c in s.store.raw)
    && (forall c :: c in s.all ==> c.ts >= 0)
    && (s.rawCut <= 0 || (s.store.last.Some? && s.rawCut <= s.store.last.value))
  }

  ghost predicate BoundsOk(s: State) {
    && (s.store.last.Some? ==> s.store.last.value % HOUR == 0 && s.first % HOUR == 0 && s.first <= s.store.last.value)
    && (s.pass.Running? ==>
          && s.pass.rawDays >= 1
          && s.pass.from % HOUR == 0
          && (s.pass.done < 2 ==> s.pass.from == RollupFrom(s.store.last, s.pass.now))
          && (s.pass.done >= 2 ==> s.store.last.Some? && s.pass.To() <= s.store.last.value)
          && (s.pass.done >= 2 && s.pass.from < s.pass.To() ==> s.store.last.value == s.pass.To())
          && s.pass.done <= 4)
  }

  ghost predicate RowsOk(s: State) {
    && (forall g :: g in s.store.hourly ==> OnTheHour(g) && HasSample(s.all, g.key, g.ts, g.ts + HOUR))
    && (s.store.last.Some? ==>
          forall g :: OnTheHour(g) && s.first <= g.ts < s.store.last.value ==> RowExact(s, g))
    && (s.pass.Aggregated() && s.pass.from < s.pass.To() ==>
          forall g :: OnTheHour(g) && s.pass.from <= g.ts < s.pass.To() ==> RowExact(s, g))
  }

  /** A raw sample is listed or known not to be; an index row has its sample, or owes a
      prune. */
  ghost predicate SeriesOk(s: State) {
    && (forall c :: c in s.store.raw ==> Listed(s.store, c) || c in s.pending || c in s.unlisted)
    && (forall k :: k in s.store.series ==>
          Cell(s.store.series[k], k) in s.store.raw || (s.owed.Some? && s.store.series[k] < s.owed.value))
  }

  ghost predicate Ok(s: State) {
    RawOk(s) && BoundsOk(s) && RowsOk(s) && SeriesOk(s)
  }

  // ---- Kept by every step ----

  lemma {:induction false} HoursApart(a: int, b: int)
    requires a % HOUR == 0 && b % HOUR == 0 && a < b
    ensures a + HOUR <= b
  {
  }

  lemma {:induction false} InsertKeepsRow(s: State, x: Sample, g: Cell)
    requires Enabled(s, Insert(x)) && OnTheHour(g) && RowExact(s, g)
    requires Covered(s).Some? && g.ts < Covered(s).value && Covered(s).value % HOUR == 0
    ensures RowExact(Next(s, Insert(x)), g)
  {
    var s' := Next(s, Insert(x));
    var hour := Cell(HourStart(x.cell.ts), x.cell.key);
    HoursApart(g.ts, Covered(s).value);
    if g != hour {
      forall t | g.ts <= t < g.ts + HOUR
        ensures Cell(t, g.key) != x.cell
      {
        if Cell(t, g.key) == x.cell {
          SameHour(t, g.ts);
        }
      }
      SumsAgree(s.all, s'.all, g.key, g.ts, g.ts + HOUR);
      assert HasSample(s.all, g.key, g.ts, g.ts + HOUR) <==> HasSample(s'.all, g.key, g.ts, g.ts + HOUR);
    }
  }

  lemma {:induction false} SameHour(t: int, h: int)
    requires h % HOUR == 0 && h <= t < h + HOUR
    ensures HourStart(t) == h
  {
  }

  lemma {:induction false} InsertKeepsRaw(s: State, x: Sample)
    requires RawOk(s) && Enabled(s, Insert(x))
    ensures RawOk(Next(s, Insert(x)))
  {
  }

  lemma {:induction false} InsertKeepsSeries(s: State, x: Sample)
    requires SeriesOk(s) && Enabled(s, Insert(x))
    ensures SeriesOk(Next(s, Insert(x)))
  {
    assert forall c :: Listed(s.store, c) ==> Listed(Next(s, Insert(x)).store, c);
  }

  lemma {:induction false} IndexKeepsSeries(s: State, c: Cell)
    requires SeriesOk(s) && Enabled(s, Index(c))
    ensures SeriesOk(Next(s, Index(c)))
  {
    var s' := Next(s, Index(c));
    assert forall d :: Listed(s.store, d) ==> Listed(s'.store, d);
    assert Listed(s'.store, c) && c == Cell(c.ts, c.key);
  }

  lemma {:induction false} RawStays(s: State, t: State)
    requires RawOk(s) && BoundsOk(s)
    requires t.store.raw == s.store.raw && t.all == s.all && t.rawCut == s.rawCut && t.store.last == s.store.last
    requires t.first == s.first && t.pass == s.pass
    ensures RawOk(t) && BoundsOk(t)
  {
  }

  /** Indexing, or failing to, leaves the samples and their hourly rows alone. */
  lemma {:induction false} IndexKeeps(s: State, a: Action)
    requires Ok(s) && Enabled(s, a) && (a.Index? || a.IndexFails?)
    ensures Ok(Next(s, a))
  {
    var t := Next(s, a);
    RowsStay(s, t);
    RawStays(s, t);
    if a.Index? {
      IndexKeepsSeries(s, a.cell);
    } else {
      assert SeriesOk(t);
    }
    hide RowsOk, RawOk, BoundsOk, SeriesOk, Next;
  }

  lemma {:induction false} InsertKeepsRows(s: State, x: Sample)
    requires BoundsOk(s) && RowsOk(s) && Enabled(s, Insert(x))
    ensures RowsOk(Next(s, Insert(x)))
  {
    var s' := Next(s, Insert(x));
    forall g | g in s'.store.hourly
      ensures OnTheHour(g) && HasSample(s'.all, g.key, g.ts, g.ts + HOUR)
    {
      var t :| g.ts <= t < g.ts + HOUR && Cell(t, g.key) in s.all;
      assert Cell(t, g.key) in s'.all;
    }
    if s.store.last.Some? {
      forall g | OnTheHour(g) && s.first <= g.ts < s.store.last.value
        ensures RowExact(s', g)
      {
        InsertKeepsRow(s, x, g);
      }
    }
    if s.pass.Aggregated() && s.pass.from < s.pass.To() {
      forall g | OnTheHour(g) && s.pass.from <= g.ts < s.pass.To()
        ensures RowExact(s', g)
      {
        InsertKeepsRow(s, x, g);
      }
    }
  }

  lemma {:induction false} BeginKeeps(s: State, now: int, rawDays: nat, hourlyDays: nat)
    requires Ok(s) && Enabled(s, Begin(now, rawDays, hourlyDays))
    ensures Ok(Next(s, Begin(now, rawDays, hourlyDays)))
  {
    forall g | RowExact(s, g)
      ensures RowExact(Next(s, Begin(now, rawDays, hourlyDays)), g)
    {
    }
  }

  // ---- A pass ----

  /** The groups of whole hours are those with a sample. */
  lemma {:induction false} GroupsAre(raw: map<Cell, real>, from: int, until: int, g: Cell)
    requires from % HOUR == 0 && until % HOUR == 0
    ensures g in Groups(raw, from, until) <==>
              OnTheHour(g) && from <= g.ts < until && HasSample(raw, g.key, g.ts, g.ts + HOUR)
    ensures g in Groups(raw, from, until) ==> from <= g.ts && g.ts + HOUR <= until
  {
    if g in Groups(raw, from, until) {
      var c :| c in raw && from <= c.ts < until && g == Cell(HourStart(c.ts), c.key);
      assert c == Cell(c.ts, c.key);
      HourWithin(c.ts, from, until);
    }
    if OnTheHour(g) && from <= g.ts < until && HasSample(raw, g.key, g.ts, g.ts + HOUR) {
      HoursApart(g.ts, until);
      var t :| g.ts <= t < g.ts + HOUR && Cell(t, g.key) in raw;
      SameHour(t, g.ts);
      var c := Cell(t, g.key);
      assert c in raw && from <= c.ts < until && g == Cell(HourStart(c.ts), c.key);
    }
  }

  /** Which rows a rollup writes, and what. */
  lemma {:induction false} RollupRow(hourly: map<Cell, Aggregate>, raw: map<Cell, real>, from: int, until: int, g: Cell)
    requires from % HOUR == 0 && until % HOUR == 0 && OnTheHour(g)
    ensures var after := Rollup(hourly, raw, from, until);
            if from <= g.ts < until && HasSample(raw, g.key, g.ts, g.ts + HOUR)
            then g in after && after[g] == AggregateOf(raw, g.key, g.ts, g.ts + HOUR)
            else (g in after <==> g in hourly) && (g in hourly ==> after[g] == hourly[g])
  {
    hide AggregateOf, Groups, HasSample;
    GroupsAre(raw, from, until, g);
  }

  lemma {:induction false} HourWithin(t: int, from: int, until: int)
    requires from % HOUR == 0 && until % HOUR == 0 && from <= t < until
    ensures from <= HourStart(t) && HourStart(t) + HOUR <= until
  {
  }

  /** No group off the hour is ever written. */
  lemma {:induction false} RollupOnTheHour(
    hourly: map<Cell, Aggregate>, raw: map<Cell, real>, from: int, until: int, g: Cell)
    requires g in Rollup(hourly, raw, from, until) && g !in hourly
    ensures OnTheHour(g)
  {
  }

  /** From the first hour not pruned on, raw and full history agree. */
  lemma {:induction false} RawIsAll(s: State, key: Key, from: int, until: int)
    requires RawOk(s) && (from >= s.rawCut || s.rawCut <= 0)
    ensures AggregateOf(s.store.raw, key, from, until) == AggregateOf(s.all, key, from, until)
    ensures HasSample(s.store.raw, key, from, until) <==> HasSample(s.all, key, from, until)
  {
    SumsAgree(s.store.raw, s.all, key, from, until);
  }

  lemma {:induction false} RollUpRowExact(s: State, g: Cell)
    requires Ok(s) && Enabled(s, RollUp) && s.pass.from < s.pass.To()
    requires OnTheHour(g) && s.pass.from <= g.ts < s.pass.To()
    ensures RowExact(Next(s, RollUp), g)
  {
    hide AggregateOf, HasSample, Rollup;
    RollupRow(s.store.hourly, s.store.raw, s.pass.from, s.pass.To(), g);
    RawIsAll(s, g.key, g.ts, g.ts + HOUR);
  }

  lemma {:induction false} RollUpKeeps(s: State)
    requires Ok(s) && Enabled(s, RollUp)
    ensures Ok(Next(s, RollUp))
  {
    var s' := Next(s, RollUp);
    if s.pass.from >= s.pass.To() {
      assert forall g :: RowExact(s, g) ==> RowExact(s', g);
    } else {
      forall g | g in s'.store.hourly
        ensures OnTheHour(g) && HasSample(s'.all, g.key, g.ts, g.ts + HOUR)
      {
        if g !in s.store.hourly {
          RollupOnTheHour(s.store.hourly, s.store.raw, s.pass.from, s.pass.To(), g);
          RollupRow(s.store.hourly, s.store.raw, s.pass.from, s.pass.To(), g);
          var t :| g.ts <= t < g.ts + HOUR && Cell(t, g.key) in s.store.raw;
          assert Cell(t, g.key) in s.all;
        }
      }
      forall g | OnTheHour(g) && s.pass.from <= g.ts < s.pass.To()
        ensures RowExact(s', g)
      {
        RollUpRowExact(s, g);
      }
      if s.store.last.Some? {
        forall g | OnTheHour(g) && s.first <= g.ts < s.store.last.value
          ensures RowExact(s', g)
        {
          assert RowExact(s, g);
          RollupRow(s.store.hourly, s.store.raw, s.pass.from, s.pass.To(), g);
        }
      }
    }
  }

  /** Rows are judged by the hourly table and the full history alone. */
  lemma {:induction false} RowsStay(s: State, t: State)
    requires RowsOk(s)
    requires t.store.hourly == s.store.hourly && t.all == s.all && t.late == s.late && t.hourCut == s.hourCut
    requires t.first == s.first && t.store.last == s.store.last
    requires t.pass.Aggregated() ==> s.pass.Aggregated() && t.pass.from == s.pass.from && t.pass.To() == s.pass.To()
    ensures RowsOk(t)
  {
    assert forall g :: RowExact(s, g) ==> RowExact(t, g);
  }

  lemma {:induction false} RecordKeeps(s: State)
    requires Ok(s) && Enabled(s, Record)
    ensures Ok(Next(s, Record))
  {
    hide AggregateOf, HasSample;
    var s' := Next(s, Record);
    assert forall g :: RowExact(s, g) ==> RowExact(s', g);
  }

  lemma {:induction false} DropRawKeepsSeries(s: State)
    requires RawOk(s) && SeriesOk(s) && Enabled(s, DropRaw)
    ensures SeriesOk(Next(s, DropRaw))
  {
  }

  lemma {:induction false} DropRawKeepsRaw(s: State)
    requires RawOk(s) && BoundsOk(s) && Enabled(s, DropRaw)
    ensures RawOk(Next(s, DropRaw)) && BoundsOk(Next(s, DropRaw))
  {
  }

  lemma {:induction false} DropRawKeeps(s: State)
    requires Ok(s) && Enabled(s, DropRaw)
    ensures Ok(Next(s, DropRaw))
  {
    RowsStay(s, Next(s, DropRaw));
    DropRawKeepsRaw(s);
    DropRawKeepsSeries(s);
    hide RowsOk, RawOk, BoundsOk, SeriesOk;
  }

  lemma {:induction false} DropSeriesKeeps(s: State)
    requires Ok(s) && Enabled(s, DropSeries)
    ensures Ok(Next(s, DropSeries))
  {
    RowsStay(s, Next(s, DropSeries));
    hide RowsOk;
  }

  lemma {:induction false} DropHourlyKeeps(s: State)
    requires Ok(s) && Enabled(s, DropHourly)
    ensures Ok(Next(s, DropHourly))
  {
    var s' := Next(s, DropHourly);
    assert forall g :: RowExact(s, g) ==> RowExact(s', g);
  }

  lemma {:induction false} CrashKeeps(s: State)
    requires Ok(s)
    ensures Ok(Next(s, PassFails)) && Ok(Next(s, Crash))
  {
    RowsStay(s, Next(s, PassFails));
    RowsStay(s, Next(s, Crash));
    hide RowsOk;
  }

  lemma {:induction false} NextKeeps(s: State, a: Action)
    requires Ok(s) && Enabled(s, a)
    ensures Ok(Next(s, a))
  {
    match a
    case Insert(x) => InsertKeepsRaw(s, x); InsertKeepsSeries(s, x); InsertKeepsRows(s, x);
    case Index(_) => IndexKeeps(s, a);
    case IndexFails(_) => IndexKeeps(s, a);
    case Begin(now, rawDays, hourlyDays) => BeginKeeps(s, now, rawDays, hourlyDays);
    case RollUp => RollUpKeeps(s);
    case Record => RecordKeeps(s);
    case DropRaw => DropRawKeeps(s);
    case DropSeries => DropSeriesKeeps(s);
    case DropHourly => DropHourlyKeeps(s);
    case PassFails => CrashKeeps(s);
    case Crash => CrashKeeps(s);
  }

  lemma {:induction false} RunsKeep(states: seq<State>, actions: seq<Action>, n: nat)
    requires IsRun(states, actions) && n <= |actions|
    ensures Ok(states[n])
  {
    if n > 0 {
      RunsKeep(states, actions, n - 1);
      assert states[n - 1 + 1] == Next(states[n - 1], actions[n - 1]);
      NextKeeps(states[n - 1], actions[n - 1]);
    }
  }

  // ---- Counted on the run itself ----

  /** Every sample written in the first `n` actions, by its last value. */
  function Written(actions: seq<Action>, n: nat): map<Cell, real>
    requires n <= |actions|
  {
    if n == 0 then map[]
    else
      var before := Written(actions, n - 1);
      if actions[n - 1].Insert? then before[actions[n - 1].sample.cell := actions[n - 1].sample.value] else before
  }

  /** The samples whose series is still to be indexed. */
  function StillToIndex(actions: seq<Action>, n: nat): multiset<Cell>
    requires n <= |actions|
  {
    if n == 0 then multiset{} else PendingAfter(StillToIndex(actions, n - 1), actions[n - 1])
  }

  function PendingAfter(before: multiset<Cell>, a: Action): multiset<Cell> {
    match a
    case Insert(x) => before + multiset{x.cell}
    case Index(c) => before - multiset{c}
    case IndexFails(c) => before - multiset{c}
    case Crash => multiset{}
    case _ => before
  }

  predicate Redoes(s: State, a: Action, g: Cell) {
    a.RollUp? && s.pass.Running? && s.pass.from <= g.ts < s.pass.To()
  }

  /** A sample reached the hour of row `g` after it was rolled up, and it was not since. */
  ghost predicate LateIn(states: seq<State>, actions: seq<Action>, n: nat, g: Cell)
    requires |states| == |actions| + 1 && n <= |actions|
  {
    exists k :: 0 <= k < n
      && actions[k].Insert? && IsLate(states[k], actions[k].sample.cell) && HourOf(actions[k].sample.cell) == g
      && forall m :: k < m < n ==> !Redoes(states[m], actions[m], g)
  }

  predicate Unlists(s: State, a: Action, c: Cell) {
    match a
    case IndexFails(d) => c == d
    case Crash => c in s.pending
    case DropSeries => s.pass.Running? && c in LeftOut(s.store, s.pass.RawCutoff())
    case _ => false
  }

  /** Sample `c` lost its index row, or never got it. */
  ghost predicate UnlistedIn(states: seq<State>, actions: seq<Action>, n: nat, c: Cell)
    requires |states| == |actions| + 1 && n <= |actions|
  {
    exists k :: 0 <= k < n && Unlists(states[k], actions[k], c)
  }

  /** The furthest cutoff of the hourly prunes. */
  function HourlyCut(states: seq<State>, actions: seq<Action>, n: nat): int
    requires |states| == |actions| + 1 && n <= |actions|
  {
    if n == 0 then 0 else CutAfter(HourlyCut(states, actions, n - 1), states[n - 1], actions[n - 1])
  }

  function CutAfter(before: int, s: State, a: Action): int {
    if a.DropHourly? && s.pass.Running? then Max(before, s.pass.HourlyCutoff()) else before
  }

  /** Where the first pass began that recorded a boundary. */
  function FirstFrom(states: seq<State>, actions: seq<Action>, n: nat): int
    requires |states| == |actions| + 1 && n <= |actions|
  {
    if n == 0 then 0 else FirstAfter(FirstFrom(states, actions, n - 1), states[n - 1], actions[n - 1])
  }

  function FirstAfter(before: int, s: State, a: Action): int {
    if a.Record? && s.store.last.None? && s.pass.Running? && s.pass.from < s.pass.To() then s.pass.from else before
  }

  lemma {:induction false} LateMore(states: seq<State>, actions: seq<Action>, n: nat, g: Cell)
    requires |states| == |actions| + 1 && n < |actions|
    ensures LateIn(states, actions, n + 1, g) <==>
              || (actions[n].Insert? && IsLate(states[n], actions[n].sample.cell)
                   && HourOf(actions[n].sample.cell) == g)
              || (LateIn(states, actions, n, g) && !Redoes(states[n], actions[n], g))
  {
    if LateIn(states, actions, n, g) && !Redoes(states[n], actions[n], g) {
      var k :| 0 <= k < n
        && actions[k].Insert? && IsLate(states[k], actions[k].sample.cell) && HourOf(actions[k].sample.cell) == g
        && forall m :: k < m < n ==> !Redoes(states[m], actions[m], g);
      assert forall m :: k < m < n + 1 ==> !Redoes(states[m], actions[m], g);
    }
  }

  lemma {:induction false} NotedStep(s: State, a: Action, g: Cell)
    requires Enabled(s, a)
    ensures g in Next(s, a).late <==>
              (a.Insert? && IsLate(s, a.sample.cell) && HourOf(a.sample.cell) == g) || (g in s.late && !Redoes(s, a, g))
    ensures g in Next(s, a).unlisted <==> g in s.unlisted || Unlists(s, a, g)
  {
    hide IsLate, HourOf, LeftOut, Rollup;
  }

  lemma {:induction false} NotedCell(states: seq<State>, actions: seq<Action>, n: nat, g: Cell)
    requires IsRun(states, actions) && n <= |actions|
    ensures g in states[n].late <==> LateIn(states, actions, n, g)
    ensures g in states[n].unlisted <==> UnlistedIn(states, actions, n, g)
  {
    if n > 0 {
      NotedCell(states, actions, n - 1, g);
      var s, a := states[n - 1], actions[n - 1];
      assert Step(s, a, states[n - 1 + 1]);
      hide IsRun, Next, LateIn, Redoes, Unlists, IsLate, HourOf;
      NotedStep(s, a, g);
      LateMore(states, actions, n - 1, g);
    }
  }

  lemma {:induction false} NotedTablesStep(s: State, a: Action, t: State)
    requires Step(s, a, t)
    ensures t.all == if a.Insert? then s.all[a.sample.cell := a.sample.value] else s.all
    ensures t.pending == PendingAfter(s.pending, a)
    ensures t.hourCut == CutAfter(s.hourCut, s, a) && t.first == FirstAfter(s.first, s, a)
  {
  }

  lemma {:induction false} NotedTables(states: seq<State>, actions: seq<Action>, n: nat)
    requires IsRun(states, actions) && n <= |actions|
    ensures states[n].all == Written(actions, n) && states[n].pending == StillToIndex(actions, n)
    ensures states[n].hourCut == HourlyCut(states, actions, n) && states[n].first == FirstFrom(states, actions, n)
  {
    if n > 0 {
      NotedTables(states, actions, n - 1);
      assert Step(states[n - 1], actions[n - 1], states[n - 1 + 1]);
      hide IsRun, Step, PendingAfter, CutAfter, FirstAfter;
      NotedTablesStep(states[n - 1], actions[n - 1], states[n]);
    }
  }

  /** What is noted of samples and passes is what the actions did. */
  lemma {:induction false} HistoryIsTheRun(states: seq<State>, actions: seq<Action>, n: nat)
    requires IsRun(states, actions) && n <= |actions|
    ensures states[n].all == Written(actions, n) && states[n].pending == StillToIndex(actions, n)
    ensures states[n].hourCut == HourlyCut(states, actions, n) && states[n].first == FirstFrom(states, actions, n)
    ensures forall g :: g in states[n].late <==> LateIn(states, actions, n, g)
    ensures forall c :: c in states[n].unlisted <==> UnlistedIn(states, actions, n, c)
  {
    forall g
      ensures g in states[n].late <==> LateIn(states, actions, n, g)
      ensures g in states[n].unlisted <==> UnlistedIn(states, actions, n, g)
    {
      NotedCell(states, actions, n, g);
    }
    NotedTables(states, actions, n);
  }

  // ---- What the runs promise ----

  lemma {:induction false} RowInRange(s: State, g: Cell)
    requires Ok(s) && OnTheHour(g) && g !in s.late && g.ts >= s.hourCut
    requires s.store.last.Some? && s.first <= g.ts < s.store.last.value
    ensures g in s.store.hourly <==> HasSample(s.all, g.key, g.ts, g.ts + HOUR)
    ensures g in s.store.hourly ==> s.store.hourly[g] == AggregateOf(s.all, g.key, g.ts, g.ts + HOUR)
  {
    assert RowExact(s, g);
  }

  /** After any mix of inserts, passes and crashes: between the start of the first
      recorded pass and the last recorded boundary, an hour and series within retention
      has a row exactly when a sample of it was ever written, and the row aggregates all
      of them, unless one arrived after the hour was last rolled up. */
  lemma {:induction false} HourlyRowsAreExact(states: seq<State>, actions: seq<Action>, n: nat, g: Cell)
    requires IsRun(states, actions) && n <= |actions|
    requires OnTheHour(g) && !LateIn(states, actions, n, g) && g.ts >= HourlyCut(states, actions, n)
    requires states[n].store.last.Some? && FirstFrom(states, actions, n) <= g.ts < states[n].store.last.value
    ensures g in states[n].store.hourly <==> HasSample(Written(actions, n), g.key, g.ts, g.ts + HOUR)
    ensures g in states[n].store.hourly ==>
              states[n].store.hourly[g] == AggregateOf(Written(actions, n), g.key, g.ts, g.ts + HOUR)
    ensures g in states[n].store.hourly <==> Times(Written(actions, n), g.key, g.ts, g.ts + HOUR) != {}
    ensures g in states[n].store.hourly ==>
              Summarizes(states[n].store.hourly[g], Written(actions, n), g.key, g.ts, g.ts + HOUR)
  {
    AggregateIs(Written(actions, n), g.key, g.ts, g.ts + HOUR);
    RunsKeep(states, actions, n);
    HistoryIsTheRun(states, actions, n);
    hide IsRun, Ok, LateIn, HourlyCut, FirstFrom, Written, AggregateOf, HasSample, Summarizes, Times;
    RowInRange(states[n], g);
  }

  /** The index lists series `key` exactly if a raw sample of it remains, and with the
      time of its newest. */
  ghost predicate IndexExact(s: Store, key: Key) {
    && (key in s.series <==> exists t :: Cell(t, key) in s.raw)
    && (key in s.series ==>
          && Cell(s.series[key], key) in s.raw
          && forall t :: Cell(t, key) in s.raw ==> t <= s.series[key])
  }

  /** A raw sample of the series is newer than its index row, or it has none, because the
      sample's second statement has yet to run, or never ran, or was undone. */
  ghost predicate Behind(s: State, key: Key) {
    exists c :: c in s.store.raw && c.key == key && (c in s.pending || c in s.unlisted) && !Listed(s.store, c)
  }

  /** A raw prune took the sample that the series' index row dates from, and no series
      prune has followed it up. */
  predicate Ahead(s: State, key: Key) {
    && key in s.store.series && Cell(s.store.series[key], key) !in s.store.raw
    && s.owed.Some? && s.store.series[key] < s.owed.value
  }

  /** The picker lists a series exactly, with the time of its newest raw sample, if and
      only if neither is the case. */
  lemma {:induction false} SeriesIndexIsExact(states: seq<State>, actions: seq<Action>, n: nat, key: Key)
    requires IsRun(states, actions) && n <= |actions|
    ensures IndexExact(states[n].store, key) <==> !Behind(states[n], key) && !Ahead(states[n], key)
  {
    RunsKeep(states, actions, n);
    var s := states[n];
    assert forall c :: c in s.store.raw ==> c == Cell(c.ts, c.key);
    if Behind(s, key) {
      var c :| c in s.store.raw && c.key == key && !Listed(s.store, c);
      assert Cell(c.ts, key) in s.store.raw;
    } else {
      forall t | Cell(t, key) in s.store.raw
        ensures Listed(s.store, Cell(t, key))
      {
        assert Listed(s.store, Cell(t, key)) || Cell(t, key) in s.pending || Cell(t, key) in s.unlisted;
      }
    }
  }

  /** With every second statement run and every raw prune followed up, it lists all series
      exactly. */
  lemma {:induction false} IndexIsExactAtRest(states: seq<State>, actions: seq<Action>, n: nat, key: Key)
    requires IsRun(states, actions) && n <= |actions|
    requires states[n].owed.None? && states[n].pending == multiset{} && states[n].unlisted == {}
    ensures IndexExact(states[n].store, key)
  {
    SeriesIndexIsExact(states, actions, n, key);
  }

  /** A crash between a sample's two statements leaves a series with a sample out of the
      picker. */
  lemma {:induction false} SeriesLost(x: Sample) returns (states: seq<State>, actions: seq<Action>)
    requires x.cell.ts >= 0
    ensures IsRun(states, actions) && actions == [Insert(x), Crash]
    ensures var s := states[2];
            x.cell in s.store.raw && x.cell.key !in s.store.series && s.owed.None? && s.pending == multiset{}
  {
    var s1 := Next(START, Insert(x));
    states, actions := [START, s1, Next(s1, Crash)], [Insert(x), Crash];
  }

  /** The next sample makes up for it, if it is the newest of its series. */
  lemma {:induction false} NextSampleMakesUp(s: State, c: Cell)
    requires Ok(s) && Enabled(s, Index(c)) && c in s.store.raw
    requires forall t :: Cell(t, c.key) in s.store.raw ==> t <= c.ts
    requires c.key in s.store.series ==> s.store.series[c.key] <= c.ts
    ensures IndexExact(Next(s, Index(c)).store, c.key)
  {
    assert c == Cell(c.ts, c.key);
  }

  /** A prune left half done by a crash is made up for by the next pass whose cutoff is
      no earlier. */
  lemma {:induction false} HalfPruneIsMadeUp(s: State)
    requires Ok(s) && Enabled(s, DropSeries) && (s.owed.Some? ==> s.owed.value <= s.pass.RawCutoff())
    ensures Next(s, DropSeries).owed.None? && SeriesOk(Next(s, DropSeries))
    ensures forall key :: !Ahead(Next(s, DropSeries), key)
  {
    DropSeriesKeeps(s);
  }

  /** Aggregating a range again after a crash, up to the same hour or a later one,
      leaves the same rows as aggregating it once: nothing has been pruned in between. */
  lemma {:induction false} RollupAgainIsRollupOnce(
    hourly: map<Cell, Aggregate>, early: map<Cell, real>, raw: map<Cell, real>,
                                from: int, mid: int, until: int)
    requires from % HOUR == 0 && mid % HOUR == 0 && until % HOUR == 0 && mid <= until
    requires forall c :: c in early && from <= c.ts < mid ==> c in raw
    ensures Rollup(Rollup(hourly, early, from, mid), raw, from, until) == Rollup(hourly, raw, from, until)
  {
    hide AggregateOf;
    var twice, once := Rollup(Rollup(hourly, early, from, mid), raw, from, until), Rollup(hourly, raw, from, until);
    forall g
      ensures g in twice <==> g in once
      ensures g in twice ==> twice[g] == once[g]
    {
      if g in Groups(early, from, mid) {
        var c :| c in early && from <= c.ts < mid && g == Cell(HourStart(c.ts), c.key);
        assert c in raw && g in Groups(raw, from, until);
      }
    }
  }
}
