// The sample tables as the program updates them (src/db.rs, src/rollup.rs), each
// operation shown to be the statements of `Samples`.

module SampleStores {
  import opened Basics
  import opened Aggregates
  import opened Samples
  import opened Paths

  function InsertAll(s: Store, samples: seq<Sample>): Store {
    if samples == [] then s
    else InsertRaw(InsertAll(s, samples[..|samples| - 1]), samples[|samples| - 1])
  }

  predicate Writes(samples: seq<Sample>, c: Cell) {
    exists i :: 0 <= i < |samples| && samples[i].cell == c
  }

  /** The last of several samples with one key stays, and all others stay as they were. */
  lemma {:induction false} LastSampleStays(s: Store, samples: seq<Sample>, c: Cell)
    ensures var t := InsertAll(s, samples);
            && t.hourly == s.hourly && t.last == s.last
            && (!Writes(samples, c) ==> (c in t.raw <==> c in s.raw) && (c in s.raw ==> t.raw[c] == s.raw[c]))
            && (forall i :: 0 <= i < |samples| && samples[i].cell == c && !Writes(samples[i + 1..], c) ==>
                  c in t.raw && t.raw[c] == samples[i].value)
  {
    if samples != [] {
      var front, x := samples[..|samples| - 1], samples[|samples| - 1];
      LastSampleStays(s, front, c);
      WritesMore(samples, c);
      forall i | 0 <= i < |front| && samples[i].cell == c && !Writes(samples[i + 1..], c)
        ensures front[i].cell == c && !Writes(front[i + 1..], c) && x.cell != c
      {
        assert samples[i + 1..][..|front| - i - 1] == front[i + 1..];
        WritesMore(samples[i + 1..], c);
      }
    }
  }

  /** A series is dated by the newest of what it had and what came. */
  lemma {:induction false} SeriesDatesNewest(s: Store, samples: seq<Sample>, k: Key)
    ensures var t := InsertAll(s, samples);
            && (k in s.series ==> k in t.series && s.series[k] <= t.series[k])
            && (forall i :: 0 <= i < |samples| && samples[i].cell.key == k ==>
                 k in t.series && samples[i].cell.ts <= t.series[k])
            && (k in t.series ==>
                 (k in s.series && t.series[k] == s.series[k]) || Writes(samples, Cell(t.series[k], k)))
  {
    if samples != [] {
      var front, x := samples[..|samples| - 1], samples[|samples| - 1];
      SeriesDatesNewest(s, front, k);
      var t := InsertAll(s, samples);
      if k in t.series {
        WritesMore(samples, Cell(t.series[k], k));
        assert x.cell == Cell(x.cell.ts, x.cell.key);
      }
    }
  }

  lemma WritesMore(samples: seq<Sample>, c: Cell)
    requires samples != []
    ensures Writes(samples, c) <==> Writes(samples[..|samples| - 1], c) || c == samples[|samples| - 1].cell
  {
    if Writes(samples[..|samples| - 1], c) {
      var i :| 0 <= i < |samples| - 1 && samples[..|samples| - 1][i].cell == c;
      assert samples[i].cell == c;
    }
    if Writes(samples, c) && c != samples[|samples| - 1].cell {
      var i :| 0 <= i < |samples| && samples[i].cell == c;
      assert samples[..|samples| - 1][i].cell == c;
    }
  }

  function RolledUp(s: Store, now: int): Store {
    var from := RollupFrom(s.last, now);
    if from < HourStart(now)
    then s.(hourly := Rollup(s.hourly, s.raw, from, HourStart(now)), last := Some(HourStart(now)))
    else s
  }

  function Pruned(s: Store, cutoff: int, hourlyCutoff: int): Store {
    PruneHourly(PruneSeries(PruneRaw(s, cutoff), cutoff), hourlyCutoff)
  }

  /** One pass with nothing falling in between. */
  function WholePass(s: Store, now: int, rawDays: nat, hourlyDays: nat): Store {
    Pruned(RolledUp(s, now), DaysBack(now, rawDays), DaysBack(now, hourlyDays))
  }

  // ---- What a pass leaves, on the tables ----

  /** Samples of the series of row `g` in its hour, as far as the pass reaches. */
  ghost predicate Redone(a: Store, g: Cell, from: int, until: int) {
    g.ts % 3600 == 0 && Times(a.raw, g.key, Max(g.ts, from), Min(g.ts + 3600, until)) != {}
  }

  /** The hour that `now` is in begins. */
  function ThisHour(now: int): int {
    now - now % 3600
  }

  /** Where the pass begins: at the last boundary, or two hours back, and never later than
      the hour. */
  function BeginOf(a: Store, now: int): int {
    var hour := ThisHour(now);
    match a.last
    case Some(t) => if t < hour then t else hour
    case None => hour - 7200
  }

  /** Row `g` as a pass leaves it: of just the samples of its hour if it has any there, and
      otherwise as it was; gone if it is past retention. */
  ghost predicate RowLeft(a: Store, b: Store, g: Cell, from: int, hour: int, cutoff: int) {
    && (g in b.hourly <==> g.ts >= cutoff && (Redone(a, g, from, hour) || g in a.hourly))
    && (g in b.hourly ==>
          if Redone(a, g, from, hour)
          then Summarizes(b.hourly[g], a.raw, g.key, Max(g.ts, from), Min(g.ts + 3600, hour))
          else g in a.hourly && b.hourly[g] == a.hourly[g])
  }

  /** What is past retention is gone from the raw samples and the index, and nothing else. */
  ghost predicate Cut(a: Store, b: Store, cutoff: int) {
    && (forall c :: c in b.raw <==> c in a.raw && c.ts >= cutoff)
    && (forall c :: c in b.raw ==> b.raw[c] == a.raw[c])
    && (forall k :: k in b.series <==> k in a.series && a.series[k] >= cutoff)
    && (forall k :: k in b.series ==> b.series[k] == a.series[k])
  }

  ghost predicate PassLeaves(a: Store, b: Store, now: int, cutoff: int, hourlyCutoff: int) {
    var hour, from := ThisHour(now), BeginOf(a, now);
    && b.last == (if from < hour then Some(hour) else a.last)
    && Cut(a, b, cutoff)
    && forall g :: RowLeft(a, b, g, from, hour, hourlyCutoff)
  }

  lemma {:induction false} GroupsAreRedone(a: Store, g: Cell, from: int, until: int)
    ensures g in Groups(a.raw, from, until) <==> Redone(a, g, from, until)
  {
    if g in Groups(a.raw, from, until) {
      var c :| c in a.raw && from <= c.ts < until && g == Cell(HourStart(c.ts), c.key);
      assert c == Cell(c.ts, c.key) && c.ts in Times(a.raw, g.key, Max(g.ts, from), Min(g.ts + 3600, until));
    }
    if Redone(a, g, from, until) {
      var times := Times(a.raw, g.key, Max(g.ts, from), Min(g.ts + 3600, until));
      NonEmpty(times);
      var t :| t in times;
      SameHour(t, g.ts);
      var c := Cell(t, g.key);
      assert c in a.raw && from <= c.ts < until && g == Cell(HourStart(c.ts), c.key);
    }
  }

  lemma {:induction false} RolledUpRow(a: Store, g: Cell, from: int, until: int)
    ensures var after := Rollup(a.hourly, a.raw, from, until);
            && (g in after <==> Redone(a, g, from, until) || g in a.hourly)
            && (g in after ==>
                  if Redone(a, g, from, until)
                  then Summarizes(after[g], a.raw, g.key, Max(g.ts, from), Min(g.ts + 3600, until))
                  else g in a.hourly && after[g] == a.hourly[g])
  {
    GroupsAreRedone(a, g, from, until);
    AggregateIs(a.raw, g.key, Max(g.ts, from), Min(g.ts + 3600, until));
    hide Groups, AggregateOf, Summarizes, HasSample, Times;
  }

  lemma {:induction false} NoneRedone(a: Store, g: Cell, until: int)
    ensures !Redone(a, g, until, until)
  {
  }

  lemma {:induction false} HourIs(now: int)
    ensures HourStart(now) == ThisHour(now)
  {
  }

  lemma {:induction false} RollingUp(a: Store, now: int)
    ensures var r, hour, from := RolledUp(a, now), ThisHour(now), BeginOf(a, now);
            && from <= hour && r.raw == a.raw && r.series == a.series
            && r.hourly == (if from < hour then Rollup(a.hourly, a.raw, from, hour) else a.hourly)
            && r.last == (if from < hour then Some(hour) else a.last)
  {
    HourIs(now);
    hide HourStart, Rollup, ThisHour;
  }

  lemma {:induction false} PassCuts(r: Store, cutoff: int, hourlyCutoff: int)
    ensures var b := Pruned(r, cutoff, hourlyCutoff);
            && Cut(r, b, cutoff) && b.last == r.last
            && (forall g :: g in b.hourly <==> g in r.hourly && g.ts >= hourlyCutoff)
            && (forall g :: g in b.hourly ==> b.hourly[g] == r.hourly[g])
  {
  }

  lemma {:induction false} PassRow(a: Store, r: Store, b: Store, g: Cell, from: int, hour: int, cutoff: int)
    requires r.hourly == if from < hour then Rollup(a.hourly, a.raw, from, hour) else a.hourly
    requires from <= hour
    requires g in b.hourly <==> g in r.hourly && g.ts >= cutoff
    requires g in b.hourly ==> b.hourly[g] == r.hourly[g]
    ensures RowLeft(a, b, g, from, hour, cutoff)
  {
    hide Rollup, Redone, Summarizes;
    RolledUpRow(a, g, from, hour);
    NoneRedone(a, g, hour);
  }

  lemma {:induction false} PassDoes(a: Store, now: int, cutoff: int, hourlyCutoff: int)
    ensures PassLeaves(a, Pruned(RolledUp(a, now), cutoff, hourlyCutoff), now, cutoff, hourlyCutoff)
  {
    var hour, from := ThisHour(now), BeginOf(a, now);
    var r := RolledUp(a, now);
    var b := Pruned(r, cutoff, hourlyCutoff);
    RollingUp(a, now);
    PassCuts(r, cutoff, hourlyCutoff);
    hide RolledUp, Pruned, BeginOf, ThisHour, Rollup;
    CutAlike(r, a, b, cutoff);
    hide Cut;
    forall g
      ensures RowLeft(a, b, g, from, hour, hourlyCutoff)
    {
      PassRow(a, r, b, g, from, hour, hourlyCutoff);
    }
  }

  lemma {:induction false} CutAlike(r: Store, a: Store, b: Store, cutoff: int)
    requires Cut(r, b, cutoff) && r.raw == a.raw && r.series == a.series
    ensures Cut(a, b, cutoff)
  {
  }

  lemma {:induction false} WholePassDoes(a: Store, now: int, rawDays: nat, hourlyDays: nat)
    ensures PassLeaves(a, WholePass(a, now, rawDays, hourlyDays), now, now - rawDays * 86400, now - hourlyDays * 86400)
  {
    PassDoes(a, now, DaysBack(now, rawDays), DaysBack(now, hourlyDays));
    hide PassLeaves, Pruned, RolledUp;
  }

  class SampleStore {
    var raw: map<Cell, real>
    var hourly: map<Cell, Aggregate>
    var series: map<Key, int>
    var last: Option<int>

    ghost function Contents(): Store
      reads this
    {
      Store(raw, hourly, series, last)
    }

    constructor ()
      ensures Contents() == EMPTY
    {
      raw, hourly, series, last := map[], map[], map[], None;
    }

    method InsertSamples(samples: seq<Sample>)
      modifies this
      ensures Contents() == InsertAll(old(Contents()), samples)
    {
      for i := 0 to |samples|
        invariant Contents() == InsertAll(old(Contents()), samples[..i])
      {
        var x := samples[i];
        raw := raw[x.cell := x.value];
        if x.cell.key in series {
          series := series[x.cell.key := Max(series[x.cell.key], x.cell.ts)];
        } else {
          series := series[x.cell.key := x.cell.ts];
        }
        assert samples[..i + 1][..i] == samples[..i];
      }
      assert samples[..|samples|] == samples;
    }

    method RollupRange(from: int, until: int)
      modifies this`hourly
      ensures hourly == Rollup(old(hourly), raw, from, until)
    {
      var groups := set c | c in raw && from <= c.ts < until :: Cell(HourStart(c.ts), c.key);
      assert groups == Groups(raw, from, until);
      var rows := map g | g in groups :: AggregateOf(raw, g.key, Max(g.ts, from), Min(g.ts + HOUR, until));
      hourly := hourly + rows;
    }

    method PruneSamplesBefore(cutoff: int)
      modifies this`raw
      ensures Contents() == PruneRaw(old(Contents()), cutoff)
    {
      raw := map c | c in raw && c.ts >= cutoff :: raw[c];
    }

    method PruneSeriesBefore(cutoff: int)
      modifies this`series
      ensures Contents() == PruneSeries(old(Contents()), cutoff)
    {
      series := map k | k in series && series[k] >= cutoff :: series[k];
    }

    method PruneHourlyBefore(cutoff: int)
      modifies this`hourly
      ensures Contents() == PruneHourly(old(Contents()), cutoff)
    {
      hourly := map g | g in hourly && g.ts >= cutoff :: hourly[g];
    }

    method RunOnce(now: int, rawDays: nat, hourlyDays: nat)
      modifies this
      ensures Contents() == WholePass(old(Contents()), now, rawDays, hourlyDays)
      ensures PassLeaves(old(Contents()), Contents(), now, now - rawDays * 86400, now - hourlyDays * 86400)
    {
      WholePassDoes(Contents(), now, rawDays, hourlyDays);
      hide PassLeaves;
      hide Rollup;
      var hourStart := HourStart(now);
      var from := if last.Some? then last.value else hourStart - 7200;
      if from > hourStart {
        from := hourStart;
      }
      if from < hourStart {
        RollupRange(from, hourStart);
        last := Some(hourStart);
      }
      assert Contents() == RolledUp(old(Contents()), now);
      hide HourStart, DaysBack, RolledUp, PruneRaw, PruneSeries, PruneHourly;
      var cutoff := DaysBack(now, rawDays);
      PruneSamplesBefore(cutoff);
      PruneSeriesBefore(cutoff);
      PruneHourlyBefore(DaysBack(now, hourlyDays));
    }
  }

  /** Inserting samples with nothing falling in between is a run of the machine, which
      leaves no second statement out. */
  lemma {:induction false} InsertsAreARun(s: State, samples: seq<Sample>) returns (actions: seq<Action>, t: State)
    requires forall i :: 0 <= i < |samples| ==> samples[i].cell.ts >= 0
    ensures Leads(Step, s, actions, t)
    ensures t.store == InsertAll(s.store, samples)
    ensures t.pending == s.pending && t.unlisted == s.unlisted && t.owed == s.owed && t.pass == s.pass
  {
    if samples == [] {
      LeadsNowhere(Step, s);
      actions, t := [], s;
    } else {
      var x := samples[|samples| - 1];
      var front, mid := InsertsAreARun(s, samples[..|samples| - 1]);
      var written := Next(mid, Insert(x));
      t := Next(written, Index(x.cell));
      LeadsOn(Step, s, front, mid, Insert(x), written);
      LeadsOn(Step, s, front + [Insert(x)], written, Index(x.cell), t);
      actions := front + [Insert(x)] + [Index(x.cell)];
      assert mid.pending + multiset{x.cell} - multiset{x.cell} == mid.pending;
    }
  }

  /** An uninterrupted pass is the six steps of the machine, so what holds of every run
      holds of it; it owes no series prune if none was owed beyond its cutoff. */
  lemma {:induction false} WholePassIsARun(s: State, now: int, rawDays: nat, hourlyDays: nat) returns (t: State)
    requires Enabled(s, Begin(now, rawDays, hourlyDays)) && Ok(s)
    ensures Leads(Step, s, [Begin(now, rawDays, hourlyDays), RollUp, Record] + [DropRaw, DropSeries, DropHourly], t)
    ensures t.store == WholePass(s.store, now, rawDays, hourlyDays)
    ensures t.owed == (if s.owed.Some? && s.owed.value > DaysBack(now, rawDays) then s.owed else None)
    ensures t.pass.Idle? && Ok(t) && t.pending == s.pending
  {
    var mid := RollsUp(s, now, rawDays, hourlyDays);
    hide Ok, DaysBack, RolledUp, Pruned, Step;
    t := Prunes(mid, RolledUp(s.store, now), DaysBack(now, rawDays), DaysBack(now, hourlyDays));
    LeadsFar(Step, s, [Begin(now, rawDays, hourlyDays), RollUp, Record], mid, [DropRaw, DropSeries, DropHourly], t);
  }

  lemma {:induction false} RollsUp(s: State, now: int, rawDays: nat, hourlyDays: nat) returns (t: State)
    requires Enabled(s, Begin(now, rawDays, hourlyDays)) && Ok(s)
    ensures Leads(Step, s, [Begin(now, rawDays, hourlyDays), RollUp, Record], t) && Ok(t)
    ensures t.store == RolledUp(s.store, now) && t.owed == s.owed && t.pending == s.pending
    ensures t.pass.Running? && t.pass.done == 2
    ensures t.pass.RawCutoff() == DaysBack(now, rawDays) && t.pass.HourlyCutoff() == DaysBack(now, hourlyDays)
  {
    hide Ok, Rollup;
    var a := Next(s, Begin(now, rawDays, hourlyDays));
    NextKeeps(s, Begin(now, rawDays, hourlyDays));
    var b := Next(a, RollUp);
    NextKeeps(a, RollUp);
    t := Next(b, Record);
    NextKeeps(b, Record);
    assert IsPath(Step, [s, a, b, t], [Begin(now, rawDays, hourlyDays), RollUp, Record]);
  }

  lemma {:induction false} Prunes(s: State, store: Store, cutoff: int, hourlyCutoff: int) returns (t: State)
    requires Ok(s) && s.pass.Running? && s.pass.done == 2
    requires s.store == store && s.pass.RawCutoff() == cutoff && s.pass.HourlyCutoff() == hourlyCutoff
    ensures Leads(Step, s, [DropRaw, DropSeries, DropHourly], t) && Ok(t)
    ensures t.store == Pruned(store, cutoff, hourlyCutoff)
    ensures t.owed == (if s.owed.Some? && s.owed.value > cutoff then s.owed else None)
    ensures t.pass.Idle? && t.pending == s.pending
  {
    hide Ok, PruneRaw, PruneSeries, PruneHourly, LeftOut;
    var a := Next(s, DropRaw);
    NextKeeps(s, DropRaw);
    var b := Next(a, DropSeries);
    NextKeeps(a, DropSeries);
    t := Next(b, DropHourly);
    NextKeeps(b, DropHourly);
    assert IsPath(Step, [s, a, b, t], [DropRaw, DropSeries, DropHourly]);
  }
}
