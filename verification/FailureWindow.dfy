// The counter behind quarantine (src/subscriptions/dispatch.rs): failures are
// counted in a window that opens at the first one and lasts an hour, and a success
// clears it.

module FailureWindow {
  import opened Basics

  const QUARANTINE_FAILURES := 10
  const QUARANTINE_WINDOW_SECS := 3600

  datatype Counter = Counter(start: Option<int>, failures: nat)

  const ZERO := Counter(None, 0)

  /** One counted failure: a window that is unset or an hour old starts over. */
  function CountFailure(c: Counter, now: int): Counter {
    if c.start.None? || c.start.value <= now - QUARANTINE_WINDOW_SECS
    then Counter(Some(now), 1)
    else Counter(c.start, c.failures + 1)
  }

  // ---- Against the trace ----

  /** What was done to a subscriber's counter, oldest first. A success clears it only once
      the statement for that has run. */
  datatype Mark = Failed(at: int) | Cleared

  function Replay(marks: seq<Mark>): Counter {
    if marks == [] then ZERO
    else
      var c := Replay(marks[..|marks| - 1]);
      match marks[|marks| - 1]
      case Cleared => ZERO
      case Failed(now) => CountFailure(c, now)
  }

  /** The `k` marks before position `n` are failures with no clearing among them, each
      less than an hour after the first. */
  predicate Burst(marks: seq<Mark>, n: nat, k: nat) {
    && 0 < k <= n <= |marks|
    && marks[n - k].Failed?
    && forall i :: n - k <= i < n ==>
         marks[i].Failed? && marks[i].at < marks[n - k].at + QUARANTINE_WINDOW_SECS
  }

  /** Somewhere in the trace, ten counted failures fell within less than an hour, the last
      of them at `t`. */
  ghost predicate TrippedAt(marks: seq<Mark>, t: int) {
    exists n :: Burst(marks, n, QUARANTINE_FAILURES) && marks[n - 1].at == t
  }

  /** The failures of a trace come in the order of their times. */
  ghost predicate InOrder(marks: seq<Mark>) {
    forall i, j :: 0 <= i < j < |marks| && marks[i].Failed? && marks[j].Failed? ==> marks[i].at <= marks[j].at
  }

  /** The counter is exactly the burst of failures the trace ends with. */
  lemma {:induction false} CounterIsBurst(marks: seq<Mark>)
    ensures var c := Replay(marks);
            && (c.failures == 0 <==> c.start.None?)
            && (c.failures > 0 ==>
                  && Burst(marks, |marks|, c.failures)
                  && c.start == Some(marks[|marks| - c.failures].at))
  {
    if marks != [] {
      CounterIsBurst(marks[..|marks| - 1]);
    }
  }

  /** So the counter only reaches ten by ten failures in less than an hour. */
  lemma TenCounted(marks: seq<Mark>)
    requires InOrder(marks) && Replay(marks).failures >= QUARANTINE_FAILURES
    ensures marks != [] && marks[|marks| - 1].Failed? && TrippedAt(marks, marks[|marks| - 1].at)
  {
    CounterIsBurst(marks);
    var n, k := |marks|, Replay(marks).failures;
    assert marks[n - k].Failed? && marks[n - QUARANTINE_FAILURES].Failed?;
    assert n - k < n - QUARANTINE_FAILURES ==> marks[n - k].at <= marks[n - QUARANTINE_FAILURES].at;
    assert Burst(marks, n, QUARANTINE_FAILURES);
  }

  lemma TrippedStays(front: seq<Mark>, marks: seq<Mark>, t: int)
    requires front <= marks && TrippedAt(front, t)
    ensures TrippedAt(marks, t)
  {
    var n :| Burst(front, n, QUARANTINE_FAILURES) && front[n - 1].at == t;
    assert Burst(marks, n, QUARANTINE_FAILURES);
  }

  // ---- Ten failures in a row ----

  function CountAll(c: Counter, times: seq<int>): Counter
    decreases times
  {
    if times == [] then c else CountAll(CountFailure(c, times[0]), times[1..])
  }

  ghost predicate Nondecreasing(times: seq<int>) {
    forall i, j :: 0 <= i <= j < |times| ==> times[i] <= times[j]
  }

  /** How many of the leading `times` still fall in the window `c` has open. */
  function StillCounted(c: Counter, times: seq<int>): (j: nat)
    ensures j <= |times|
    ensures forall i :: 0 <= i < j ==> c.start.Some? && times[i] < c.start.value + QUARANTINE_WINDOW_SECS
    ensures j < |times| ==> c.start.None? || times[j] >= c.start.value + QUARANTINE_WINDOW_SECS
  {
    if times == [] || c.start.None? || times[0] >= c.start.value + QUARANTINE_WINDOW_SECS then 0
    else
      1 + StillCounted(c, times[1..])
  }

  /** Some prefix of `times` brings the counter to the quarantine limit. */
  ghost predicate Reaches(c: Counter, times: seq<int>) {
    exists i :: 0 <= i <= |times| && CountAll(c, times[..i]).failures >= QUARANTINE_FAILURES
  }

  lemma {:induction false} CountInside(c: Counter, times: seq<int>)
    requires c.start.Some?
    requires forall i :: 0 <= i < |times| ==> times[i] < c.start.value + QUARANTINE_WINDOW_SECS
    ensures CountAll(c, times) == Counter(c.start, c.failures + |times|)
    decreases times
  {
    if times != [] {
      CountInside(CountFailure(c, times[0]), times[1..]);
    }
  }

  lemma {:induction false} CountSplit(c: Counter, a: seq<int>, b: seq<int>)
    ensures CountAll(c, a + b) == CountAll(CountAll(c, a), b)
    decreases a
  {
    if a == [] {
      assert a + b == b;
    } else {
      assert (a + b)[1..] == a[1..] + b;
      CountSplit(CountFailure(c, a[0]), a[1..], b);
    }
  }

  /** The counter after the first `i` of a burst: the old window's count while it is
      open, then a fresh count. */
  lemma CountOfPrefix(c: Counter, times: seq<int>, i: nat)
    requires i <= |times| && Nondecreasing(times)
    requires |times| > 0 ==> times[|times| - 1] < times[0] + QUARANTINE_WINDOW_SECS
    ensures var j := StillCounted(c, times);
            CountAll(c, times[..i]).failures == if i <= j then c.failures + i else i - j
  {
    var j := StillCounted(c, times);
    if i <= j {
      if i > 0 {
        CountInside(c, times[..i]);
      }
    } else {
      if j > 0 {
        CountInside(c, times[..j]);
      }
      var mid := CountAll(c, times[..j]);
      assert times[..i] == times[..j] + times[j..i];
      CountSplit(c, times[..j], times[j..i]);
      assert mid.start == c.start;
      var restarted := CountFailure(mid, times[j]);
      assert restarted == Counter(Some(times[j]), 1);
      CountInside(restarted, times[j..i][1..]);
    }
  }

  /** Exactly when ten failures within less than an hour quarantine a subscriber whose
      counter stands at `c`: when no older window is still open, or when the older
      window takes in enough of them. In particular ten from a cleared counter always
      do, at the tenth and not before. */
  lemma TenFailuresQuarantine(c: Counter, times: seq<int>)
    requires c.failures < QUARANTINE_FAILURES
    requires |times| == QUARANTINE_FAILURES && Nondecreasing(times)
    requires times[9] < times[0] + QUARANTINE_WINDOW_SECS
    ensures var j := StillCounted(c, times);
            Reaches(c, times) <==> j == 0 || c.failures + j >= QUARANTINE_FAILURES
    ensures c == ZERO ==>
              && CountAll(c, times).failures >= QUARANTINE_FAILURES
              && forall i :: 0 <= i < 10 ==> CountAll(c, times[..i]).failures < QUARANTINE_FAILURES
  {
    var j := StillCounted(c, times);
    forall i: nat | i <= |times|
      ensures CountAll(c, times[..i]).failures == if i <= j then c.failures + i else i - j
    {
      CountOfPrefix(c, times, i);
    }
    assert times[..10] == times;
    if j == 0 {
      assert CountAll(c, times[..10]).failures >= QUARANTINE_FAILURES;
    } else if c.failures + j >= QUARANTINE_FAILURES {
      assert CountAll(c, times[..j]).failures >= QUARANTINE_FAILURES;
    }
  }

  /** The README promises quarantine for ten failures within an hour; a window left
      open by one earlier failure can swallow part of them, so this run of ten within
      500 seconds is missed. */
  lemma TenWithinAnHourCanBeMissed()
    ensures var c := CountFailure(ZERO, 0);
            var times := [3300, 3400, 3500, 3550, 3590, 3610, 3650, 3700, 3750, 3799];
            && Nondecreasing(times) && times[9] < times[0] + 500
            && !Reaches(c, times)
  {
    var c := CountFailure(ZERO, 0);
    var times := [3300, 3400, 3500, 3550, 3590, 3610, 3650, 3700, 3750, 3799];
    var t5 := times[5..];
    assert StillCounted(c, t5) == 0;
    var t4 := times[4..];  assert t4[1..] == t5;
    var t3 := times[3..];  assert t3[1..] == t4;
    var t2 := times[2..];  assert t2[1..] == t3;
    var t1 := times[1..];  assert t1[1..] == t2;
    assert StillCounted(c, times) == 5;
    TenFailuresQuarantine(c, times);
  }
}
