// The per-address rate limiter (src/web_auth.rs): what it keeps trimmed and swept,
// against a log that keeps everything.

module LoginLimiters {
  import opened Basics

  const SWEEP_AT := 1024

  datatype Entry = Failed(ip: string, at: int) | Succeeded(ip: string)

  // ---- The untrimmed log ----

  /** The failures of an address since its last success. */
  function Since(log: seq<Entry>, ip: string): seq<int> {
    if log == [] then []
    else
      var last := log[|log| - 1];
      var before := Since(log[..|log| - 1], ip);
      if last.ip != ip then before
      else if last.Succeeded? then []
      else before + [last.at]
  }

  /** Those less than `window` seconds old. */
  function Recent(times: seq<int>, now: int, window: int): seq<int> {
    if times == [] then []
    else
      var last := times[|times| - 1];
      var before := Recent(times[..|times| - 1], now, window);
      if now - last < window then before + [last] else before
  }

  predicate LogBlocks(log: seq<Entry>, ip: string, now: int, max: nat, window: int) {
    |Recent(Since(log, ip), now, window)| >= max
  }

  /** Entry `k` is a failure of the address less than `window` seconds old, with no success
      of it since. */
  predicate Fresh(log: seq<Entry>, k: nat, ip: string, now: int, window: int)
    requires k < |log|
  {
    && log[k].Failed? && log[k].ip == ip && now - log[k].at < window
    && forall j :: k < j < |log| ==> log[j] != Succeeded(ip)
  }

  function FreshOnes(log: seq<Entry>, ip: string, now: int, window: int): set<nat> {
    set k: nat | k < |log| && Fresh(log, k, ip, now, window)
  }

  lemma {:induction false} OneMoreEntry(log: seq<Entry>, e: Entry, ip: string, now: int, window: int)
    ensures var before := FreshOnes(log, ip, now, window);
            && |log| !in before
            && FreshOnes(log + [e], ip, now, window) ==
                 if e.ip != ip then before
                 else if e.Succeeded? then {}
                 else if now - e.at < window then before + {|log|}
                 else before
  {
    var more := log + [e];
    forall k: nat | k < |log|
      ensures Fresh(more, k, ip, now, window) <==> Fresh(log, k, ip, now, window) && e != Succeeded(ip)
    {
      assert more[|log|] == e;
      if Fresh(log, k, ip, now, window) && e != Succeeded(ip) {
        assert forall j :: k < j < |more| ==> more[j] != Succeeded(ip);
      }
      if Fresh(more, k, ip, now, window) {
        assert forall j :: k < j < |log| ==> log[j] == more[j];
      }
    }
  }

  /** The log blocks an address exactly if it has that many such failures. */
  lemma {:induction false} BlocksIff(log: seq<Entry>, ip: string, now: int, max: nat, window: int)
    ensures |Recent(Since(log, ip), now, window)| == |FreshOnes(log, ip, now, window)|
    ensures LogBlocks(log, ip, now, max, window) <==> |FreshOnes(log, ip, now, window)| >= max
  {
    if log == [] {
      assert FreshOnes(log, ip, now, window) == {};
    } else {
      var front, last := log[..|log| - 1], log[|log| - 1];
      BlocksIff(front, ip, now, max, window);
      assert log == front + [last];
      if last.Failed? {
        RecentMore(Since(front, ip), last.at, now, window);
      }
      OneMoreEntry(front, last, ip, now, window);
      hide FreshOnes;
    }
  }

  // ---- Trimming loses nothing that counts ----

  lemma RecentMore(times: seq<int>, t: int, now: int, window: int)
    ensures Recent(times + [t], now, window)
         == if now - t < window then Recent(times, now, window) + [t] else Recent(times, now, window)
  {
    assert (times + [t])[..|times|] == times;
  }

  /** What an earlier trim dropped, a later one would. */
  lemma {:induction false} RecentTwice(times: seq<int>, earlier: int, now: int, window: int)
    requires earlier <= now
    ensures Recent(Recent(times, earlier, window), now, window) == Recent(times, now, window)
  {
    if times != [] {
      var front, last := times[..|times| - 1], times[|times| - 1];
      RecentTwice(front, earlier, now, window);
      RecentMore(Recent(front, earlier, window), last, now, window);
    }
  }

  lemma SinceMore(log: seq<Entry>, e: Entry, ip: string)
    ensures Since(log + [e], ip)
         == if e.ip != ip then Since(log, ip) else if e.Succeeded? then [] else Since(log, ip) + [e.at]
  {
    assert (log + [e])[..|log|] == log;
  }

  /** `held` answers for `times` from `clock` on. */
  ghost predicate Answers(held: seq<int>, times: seq<int>, clock: int, window: int) {
    forall now :: now >= clock ==> Recent(held, now, window) == Recent(times, now, window)
  }

  lemma TrimmedAnswers(held: seq<int>, times: seq<int>, clock: int, now: int, window: int)
    requires Answers(held, times, clock, window) && clock <= now
    ensures Answers(Recent(held, now, window), times, now, window)
  {
    forall later | later >= now
      ensures Recent(Recent(held, now, window), later, window) == Recent(times, later, window)
    {
      RecentTwice(held, now, later, window);
    }
  }

  lemma PushedAnswers(held: seq<int>, times: seq<int>, clock: int, t: int, window: int)
    requires Answers(held, times, clock, window)
    ensures Answers(held + [t], times + [t], clock, window)
  {
    forall now | now >= clock
      ensures Recent(held + [t], now, window) == Recent(times + [t], now, window)
    {
      RecentMore(held, t, now, window);
      RecentMore(times, t, now, window);
    }
  }

  function Trimmed(failures: map<string, seq<int>>, now: int, window: int): map<string, seq<int>> {
    map ip | ip in failures && Recent(failures[ip], now, window) != [] :: Recent(failures[ip], now, window)
  }

  /** What is held answers for the whole log, for every address, from `clock` on. */
  ghost predicate Covers(failures: map<string, seq<int>>, log: seq<Entry>, clock: int, window: int) {
    forall ip :: Answers(At(failures, ip, []), Since(log, ip), clock, window)
  }

  /** The sweep drops nothing that counts. */
  lemma SweepCovers(failures: map<string, seq<int>>, log: seq<Entry>, clock: int, now: int, window: int)
    requires Covers(failures, log, clock, window) && clock <= now
    ensures Covers(Trimmed(failures, now, window), log, now, window)
    ensures forall ip :: ip in Trimmed(failures, now, window) ==>
              Recent(Trimmed(failures, now, window)[ip], now, window) == Trimmed(failures, now, window)[ip]
  {
    hide Answers;
    forall ip
      ensures Answers(At(Trimmed(failures, now, window), ip, []), Since(log, ip), now, window)
    {
      TrimmedAnswers(At(failures, ip, []), Since(log, ip), clock, now, window);
    }
    forall ip | ip in Trimmed(failures, now, window)
      ensures Recent(Trimmed(failures, now, window)[ip], now, window) == Trimmed(failures, now, window)[ip]
    {
      RecentTwice(failures[ip], now, now, window);
    }
  }

  lemma RecordCovers(failures: map<string, seq<int>>, log: seq<Entry>, clock: int, ip: string, now: int, window: int)
    requires Covers(failures, log, clock, window) && clock <= now
    ensures Covers(failures[ip := Recent(At(failures, ip, []), now, window) + [now]], log + [Failed(ip, now)], now,
            window)
  {
    var entry := Recent(At(failures, ip, []), now, window);
    TrimmedAnswers(At(failures, ip, []), Since(log, ip), clock, now, window);
    PushedAnswers(entry, Since(log, ip), now, now, window);
    forall other
      ensures Answers(At(failures[ip := entry + [now]], other, []), Since(log + [Failed(ip, now)], other), now, window)
    {
      SinceMore(log, Failed(ip, now), other);
    }
  }

  // ---- What checking first guarantees ----

  /** Each event was let through by the limiter. */
  ghost predicate CheckedFirst(log: seq<Entry>, max: nat, window: int) {
    forall i :: 0 <= i < |log| ==> log[i].Failed? && !LogBlocks(log[..i], log[i].ip, log[i].at, max, window)
  }

  /** Events of an address in the `window` seconds from `from`. */
  function CountWithin(log: seq<Entry>, ip: string, from: int, window: int): nat
    requires forall i :: 0 <= i < |log| ==> log[i].Failed?
  {
    if log == [] then 0
    else
      var last := log[|log| - 1];
      CountWithin(log[..|log| - 1], ip, from, window)
      + (if last.ip == ip && from <= last.at < from + window then 1 else 0)
  }

  lemma {:induction false} WithinIsRecent(log: seq<Entry>, ip: string, from: int, window: int, now: int)
    requires forall i :: 0 <= i < |log| ==> log[i].Failed?
    requires now < from + window
    ensures CountWithin(log, ip, from, window) <= |Recent(Since(log, ip), now, window)|
  {
    if log != [] {
      var front, last := log[..|log| - 1], log[|log| - 1];
      WithinIsRecent(front, ip, from, window, now);
      RecentMore(Since(front, ip), last.at, now, window);
    }
  }

  /** No address has more than `max` events in any `window` seconds. */
  lemma {:induction false} NeverMoreThanMax(log: seq<Entry>, ip: string, from: int, max: nat, window: int)
    requires CheckedFirst(log, max, window)
    ensures CountWithin(log, ip, from, window) <= max
  {
    if log != [] {
      var front, last := log[..|log| - 1], log[|log| - 1];
      assert forall i :: 0 <= i < |front| ==> front[..i] == log[..i];
      NeverMoreThanMax(front, ip, from, max, window);
      if last.ip == ip && from <= last.at < from + window {
        WithinIsRecent(front, ip, from, window, last.at);
      }
    }
  }

  /** Letting an event through only if the limiter does keeps the log so. */
  lemma CheckedFirstMore(log: seq<Entry>, ip: string, now: int, max: nat, window: int)
    requires CheckedFirst(log, max, window) && !LogBlocks(log, ip, now, max, window)
    ensures CheckedFirst(log + [Failed(ip, now)], max, window)
  {
    var more := log + [Failed(ip, now)];
    forall i | 0 <= i < |more|
      ensures more[i].Failed? && !LogBlocks(more[..i], more[i].ip, more[i].at, max, window)
    {
      if i < |log| {
        assert more[..i] == log[..i];
      } else {
        assert more[..i] == log;
      }
    }
  }

  class LoginLimiter {
    var failures: map<string, seq<int>>
    const max: nat
    const window: int
    ghost var log: seq<Entry>
    ghost var clock: int

    ghost predicate Valid()
      reads this
    {
      && (forall ip :: ip in failures ==> failures[ip] != [])
      && Covers(failures, log, clock, window)
    }

    constructor WithLimits(max: nat, window: int)
      ensures Valid() && log == [] && this.max == max && this.window == window
      ensures CheckedFirst(log, max, window)
    {
      failures := map[];
      this.max, this.window := max, window;
      log, clock := [], 0;
    }

    /** Whether the log has `max` recent failures since the last success. With a limit of
        at least one the answer is the log's; with none it is so only for an address
        that is tracked. */
    method IsBlocked(ip: string, now: int) returns (blocked: bool)
      requires Valid() && clock <= now
      modifies this
      ensures Valid() && log == old(log) && clock == now
      ensures blocked <==> ip in old(failures) && LogBlocks(log, ip, now, max, window)
      ensures max >= 1 ==> (blocked <==> |FreshOnes(log, ip, now, window)| >= max)
      ensures (blocked <==> LogBlocks(log, ip, now, max, window)) <==> max >= 1 || ip in old(failures)
      ensures forall other :: other != ip ==> (other in failures <==> other in old(failures))
    {
      clock := now;
      BlocksIff(log, ip, now, max, window);
      if ip !in failures {
        blocked := false;
        return;
      }
      TrimmedAnswers(failures[ip], Since(log, ip), old(clock), now, window);
      var entry := Recent(failures[ip], now, window);
      blocked := |entry| >= max;
      failures := if entry == [] then failures - {ip} else failures[ip := entry];
    }

    /** One more failure. Once many addresses are tracked, those without a recent failure
        are dropped first. */
    method RecordFailure(ip: string, now: int)
      requires Valid() && clock <= now
      modifies this
      ensures Valid() && log == old(log) + [Failed(ip, now)] && clock == now
      ensures |old(failures)| >= SWEEP_AT ==>
                forall other :: other in failures && other != ip ==>
                    Recent(failures[other], now, window) == failures[other]
    {
      hide Covers;
      ghost var since := clock;
      if |failures| >= SWEEP_AT {
        SweepCovers(failures, log, clock, now, window);
        failures, since := Trimmed(failures, now, window), now;
      }
      RecordCovers(failures, log, since, ip, now, window);
      failures := failures[ip := Recent(At(failures, ip, []), now, window) + [now]];
      log, clock := log + [Failed(ip, now)], now;
    }

    method RecordSuccess(ip: string)
      requires Valid()
      modifies this
      ensures Valid() && log == old(log) + [Succeeded(ip)] && clock == old(clock)
      ensures ip !in failures
    {
      forall other
        ensures Since(log + [Succeeded(ip)], other) == if other == ip then [] else Since(log, other)
      {
        SinceMore(log, Succeeded(ip), other);
      }
      failures := failures - {ip};
      log := log + [Succeeded(ip)];
    }

    /** The sign-up form's use of it: check, then record what is let through. */
    method Admit(ip: string, now: int) returns (ok: bool)
      requires Valid() && clock <= now && max >= 1
      modifies this
      ensures Valid() && clock == now
      ensures ok <==> !LogBlocks(old(log), ip, now, max, window)
      ensures ok <==> |FreshOnes(old(log), ip, now, window)| < max
      ensures log == if ok then old(log) + [Failed(ip, now)] else old(log)
      ensures CheckedFirst(old(log), max, window) ==> CheckedFirst(log, max, window)
      ensures CheckedFirst(old(log), max, window) ==> forall who, from :: CountWithin(log, who, from, window) <= max
    {
      BlocksIff(log, ip, now, max, window);
      var blocked := IsBlocked(ip, now);
      if !blocked {
        RecordFailure(ip, now);
      }
      ok := !blocked;
      if CheckedFirst(old(log), max, window) {
        if ok {
          CheckedFirstMore(old(log), ip, now, max, window);
        }
        forall who, from
          ensures CountWithin(log, who, from, window) <= max
        {
          NeverMoreThanMax(log, who, from, max, window);
        }
      }
    }
  }
}
