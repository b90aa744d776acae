// The dispatcher's retry schedule (src/subscriptions/dispatch.rs).

module Backoff {
  import opened Basics

  const MAX_ATTEMPTS := 8
  const RETRY_BASE_SECS := 30
  const RETRY_CAP_SECS := 3600

  /** Wait after `attempts` failed tries: the base shifted left by a clamped
      amount, capped at an hour. The shift is a multiplication by a power of two;
      `RetryDelayIsExact` bounds it, so the 64-bit shift cannot overflow. */
  function RetryDelay(attempts: int): (d: int)
    ensures 0 < d <= RETRY_CAP_SECS
  {
    var shift := Max(0, Min(attempts - 1, 20));
    Min(RETRY_BASE_SECS * Pow2(shift), RETRY_CAP_SECS)
  }

  lemma {:induction false} Pow2Grows(a: nat, b: nat)
    requires a <= b
    ensures Pow2(a) <= Pow2(b)
    decreases b - a
  {
    if a < b {
      Pow2Grows(a, b - 1);
    }
  }

  /** Clamping the shift at 20 changes nothing: the delay is the capped doubling for
      every count of attempts, and the product before the cap stays below 2^25. */
  lemma RetryDelayIsExact(a: int)
    requires a >= 1
    ensures RetryDelay(a) == Min(RETRY_CAP_SECS, RETRY_BASE_SECS * Pow2(a - 1))
    ensures RETRY_BASE_SECS * Pow2(Max(0, Min(a - 1, 20))) < 0x200_0000
  {
    assert Pow2(20) == 1048576 by { Pow2Of20(); }
    if a - 1 > 20 {
      Pow2Grows(20, a - 1);
    } else {
      Pow2Grows(a - 1, 20);
    }
  }

  lemma Pow2Of20()
    ensures Pow2(20) == 1048576
  {
    assert Pow2(5) == 32;
    assert Pow2(10) == 1024;
    assert Pow2(15) == 32768;
  }

  /** Tries of one message, each no sooner than the schedule allows. */
  predicate Spaced(tries: seq<int>) {
    forall i :: 0 < i < |tries| ==> tries[i - 1] + RetryDelay(i) <= tries[i]
  }

  /** Every try the dispatcher can make comes at least 30 * (2^k - 1) seconds after the
      first, where k tries were made before it. */
  lemma {:induction false} SpacedTriesSpread(tries: seq<int>, k: nat)
    requires Spaced(tries) && k < |tries| && k < MAX_ATTEMPTS
    ensures tries[k] - tries[0] >= RETRY_BASE_SECS * (Pow2(k) - 1)
  {
    if k > 0 {
      SpacedTriesSpread(tries, k - 1);
      RetryDelayIsExact(k);
      Pow2Grows(k - 1, 6);
      assert Pow2(6) == 64;
      assert tries[k - 1] + RetryDelay(k) <= tries[k];
    }
  }
}
