// Hourly aggregates of raw samples (src/db.rs): least, average and greatest value of a
// series in a range, summed up sample by sample, and what they are of the set of samples.

module Aggregates {
  import opened Basics

  const HOUR := 3600

  datatype Key = Key(scope: string, metric: string, key: string)

  /** A sample's primary key, and an hourly row's with the hour's start as its time. */
  datatype Cell = Cell(ts: int, key: Key)

  datatype Sample = Sample(cell: Cell, value: real)

  datatype Aggregate = Aggregate(min: real, avg: real, max: real)

  /** Start of the hour `t` falls in, for `t` at or after 1970. */
  function HourStart(t: int): (h: int)
    ensures h % HOUR == 0 && h <= t < h + HOUR
  {
    t / HOUR * HOUR
  }

  // ---- Aggregates ----

  datatype Sums = Sums(n: nat, total: real, lo: real, hi: real)

  /** Count, sum, least and greatest of one series' samples in `[from, until)`. */
  function SumUp(raw: map<Cell, real>, key: Key, from: int, until: int): Sums
    decreases until - from
  {
    if from >= until then Sums(0, 0.0, 0.0, 0.0)
    else
      var s := SumUp(raw, key, from, until - 1);
      if Cell(until - 1, key) in raw then WithValue(s, raw[Cell(until - 1, key)]) else s
  }

  function WithValue(s: Sums, v: real): Sums {
    if s.n == 0 then Sums(1, v, v, v)
    else Sums(s.n + 1, s.total + v, if v < s.lo then v else s.lo, if v > s.hi then v else s.hi)
  }

  function AggregateOf(raw: map<Cell, real>, key: Key, from: int, until: int): Aggregate {
    var s := SumUp(raw, key, from, until);
    Aggregate(s.lo, if s.n == 0 then 0.0 else s.total / (s.n as real), s.hi)
  }

  ghost predicate HasSample(raw: map<Cell, real>, key: Key, from: int, until: int) {
    exists t :: from <= t < until && Cell(t, key) in raw
  }

  ghost predicate ValueIn(raw: map<Cell, real>, key: Key, from: int, until: int, v: real) {
    exists t :: from <= t < until && Cell(t, key) in raw && raw[Cell(t, key)] == v
  }

  lemma {:induction false} ValueStays(raw: map<Cell, real>, key: Key, from: int, until: int, v: real)
    requires ValueIn(raw, key, from, until, v)
    ensures ValueIn(raw, key, from, until + 1, v)
  {
  }

  lemma {:induction false} SumsCount(raw: map<Cell, real>, key: Key, from: int, until: int)
    ensures SumUp(raw, key, from, until).n > 0 <==> HasSample(raw, key, from, until)
    decreases until - from
  {
    if from < until {
      SumsCount(raw, key, from, until - 1);
    }
  }

  lemma {:induction false} SumsBound(raw: map<Cell, real>, key: Key, from: int, until: int)
    ensures var s := SumUp(raw, key, from, until);
            forall t :: from <= t < until && Cell(t, key) in raw ==> s.lo <= raw[Cell(t, key)] <= s.hi
    decreases until - from
  {
    if from < until {
      SumsBound(raw, key, from, until - 1);
      SumsCount(raw, key, from, until - 1);
    }
  }

  lemma {:induction false} SumsAttained(raw: map<Cell, real>, key: Key, from: int, until: int)
    requires SumUp(raw, key, from, until).n > 0
    ensures var s := SumUp(raw, key, from, until);
            ValueIn(raw, key, from, until, s.lo) && ValueIn(raw, key, from, until, s.hi)
    decreases until - from
  {
    if from < until {
      var s0 := SumUp(raw, key, from, until - 1);
      if s0.n > 0 {
        SumsAttained(raw, key, from, until - 1);
        ValueStays(raw, key, from, until - 1, s0.lo);
        ValueStays(raw, key, from, until - 1, s0.hi);
      }
      if Cell(until - 1, key) in raw {
        assert ValueIn(raw, key, from, until, raw[Cell(until - 1, key)]);
      }
    }
  }

  predicate Between(s: Sums) {
    s.n as real * s.lo <= s.total <= s.n as real * s.hi
  }

  lemma {:induction false} WithValueBetween(s: Sums, v: real)
    requires Between(s)
    ensures Between(WithValue(s, v))
  {
    var s' := WithValue(s, v);
    if s.n > 0 {
      OneMoreAbove(s.n as real, s.lo, s'.lo, s.total, v);
      OneMoreBelow(s.n as real, s.hi, s'.hi, s.total, v);
      assert s'.n as real == s.n as real + 1.0;
    }
  }

  lemma {:induction false} SumsBetween(raw: map<Cell, real>, key: Key, from: int, until: int)
    ensures Between(SumUp(raw, key, from, until))
    decreases until - from
  {
    if from < until {
      SumsBetween(raw, key, from, until - 1);
      if Cell(until - 1, key) in raw {
        WithValueBetween(SumUp(raw, key, from, until - 1), raw[Cell(until - 1, key)]);
      }
    }
  }

  lemma {:induction false} OneMoreAbove(n: real, lo0: real, lo: real, total: real, v: real)
    requires n >= 0.0 && lo <= lo0 && lo <= v && n * lo0 <= total
    ensures (n + 1.0) * lo <= total + v
  {
    assert n * lo <= n * lo0;
  }

  lemma {:induction false} OneMoreBelow(n: real, hi0: real, hi: real, total: real, v: real)
    requires n >= 0.0 && hi0 <= hi && v <= hi && total <= n * hi0
    ensures total + v <= (n + 1.0) * hi
  {
    assert n * hi0 <= n * hi;
  }

  /** For a range with a sample, the least and greatest are values of samples in it and
      bound all of them, and the average lies between the two. */
  lemma {:induction false} AggregateMeans(raw: map<Cell, real>, key: Key, from: int, until: int)
    requires HasSample(raw, key, from, until)
    ensures var a := AggregateOf(raw, key, from, until);
            && (forall t :: from <= t < until && Cell(t, key) in raw ==> a.min <= raw[Cell(t, key)] <= a.max)
            && ValueIn(raw, key, from, until, a.min) && ValueIn(raw, key, from, until, a.max)
            && a.min <= a.avg <= a.max
  {
    SumsCount(raw, key, from, until);
    SumsBound(raw, key, from, until);
    SumsAttained(raw, key, from, until);
    SumsBetween(raw, key, from, until);
    var s := SumUp(raw, key, from, until);
    QuotientBetween(s.total, s.n as real, s.lo, s.hi);
  }

  lemma {:induction false} QuotientBetween(total: real, n: real, lo: real, hi: real)
    requires n > 0.0 && n * lo <= total <= n * hi
    ensures lo <= total / n <= hi
  {
    var q := total / n;
    assert total == n * q;
    Cancel(n, lo, q);
    Cancel(n, q, hi);
  }

  lemma {:induction false} Cancel(n: real, a: real, b: real)
    requires n > 0.0 && n * a <= n * b
    ensures a <= b
  {
  }

  /** Aggregates depend only on the samples in the range. */
  lemma {:induction false} SumsAgree(a: map<Cell, real>, b: map<Cell, real>, key: Key, from: int, until: int)
    requires forall t :: from <= t < until ==> (Cell(t, key) in a <==> Cell(t, key) in b)
    requires forall t :: from <= t < until && Cell(t, key) in a ==> a[Cell(t, key)] == b[Cell(t, key)]
    ensures SumUp(a, key, from, until) == SumUp(b, key, from, until)
    decreases until - from
  {
    if from < until {
      SumsAgree(a, b, key, from, until - 1);
    }
  }

  // ---- On the set of samples ----

  /** The times in `[from, until)` that the series has a sample of. */
  ghost function Times(raw: map<Cell, real>, key: Key, from: int, until: int): set<int> {
    set t | from <= t < until && Cell(t, key) in raw
  }

  /** The values at these times, added up in some order. */
  ghost function SumOver(raw: map<Cell, real>, key: Key, times: set<int>): real
    requires forall t :: t in times ==> Cell(t, key) in raw
  {
    if times == {} then 0.0
    else
      NonEmpty(times);
      var t :| t in times;
      raw[Cell(t, key)] + SumOver(raw, key, times - {t})
  }

  /** Any order will do. */
  lemma {:induction false} SumOverLess(raw: map<Cell, real>, key: Key, times: set<int>, x: int)
    requires x in times && forall t :: t in times ==> Cell(t, key) in raw
    ensures SumOver(raw, key, times) == raw[Cell(x, key)] + SumOver(raw, key, times - {x})
    decreases times
  {
    var t :| t in times && SumOver(raw, key, times) == raw[Cell(t, key)] + SumOver(raw, key, times - {t});
    if t != x {
      SumOverLess(raw, key, times - {t}, x);
      SumOverLess(raw, key, times - {x}, t);
      assert times - {t} - {x} == times - {x} - {t};
    }
  }

  /** `a` is what a row should hold: the least and greatest of the values, and the average that
      times their number is their sum. */
  ghost predicate Summarizes(a: Aggregate, raw: map<Cell, real>, key: Key, from: int, until: int) {
    var times := Times(raw, key, from, until);
    && times != {}
    && (forall t :: t in times ==> a.min <= raw[Cell(t, key)] <= a.max)
    && (exists t :: t in times && raw[Cell(t, key)] == a.min)
    && (exists t :: t in times && raw[Cell(t, key)] == a.max)
    && a.avg * (|times| as real) == SumOver(raw, key, times)
  }

  lemma {:induction false} SumsAreOverTheSet(raw: map<Cell, real>, key: Key, from: int, until: int)
    ensures SumUp(raw, key, from, until).n == |Times(raw, key, from, until)|
    ensures SumUp(raw, key, from, until).n > 0 ==>
              SumUp(raw, key, from, until).total == SumOver(raw, key, Times(raw, key, from, until))
    decreases until - from
  {
    var times := Times(raw, key, from, until);
    if from < until {
      SumsAreOverTheSet(raw, key, from, until - 1);
      var before := Times(raw, key, from, until - 1);
      if Cell(until - 1, key) in raw {
        assert times == before + {until - 1} && times - {until - 1} == before;
        SumOverLess(raw, key, times, until - 1);
      } else {
        assert times == before;
      }
    } else {
      assert times == {};
    }
  }

  /** Summing up sample by sample gives just that. */
  lemma {:induction false} AggregateIs(raw: map<Cell, real>, key: Key, from: int, until: int)
    ensures HasSample(raw, key, from, until) <==> Times(raw, key, from, until) != {}
    ensures HasSample(raw, key, from, until) ==> Summarizes(AggregateOf(raw, key, from, until), raw, key, from, until)
  {
    SumsAreOverTheSet(raw, key, from, until);
    SumsCount(raw, key, from, until);
    if HasSample(raw, key, from, until) {
      AggregateMeans(raw, key, from, until);
      var s := SumUp(raw, key, from, until);
      assert s.total / (s.n as real) * (s.n as real) == s.total;
      hide SumUp, AggregateOf, SumOver;
    }
  }
}
