// What leads to quarantine in every run: which failures a quarantine was written for,
// which successes between them went unnoticed, and when a failure brings it about.

module QuarantineTheorems {
  import opened Basics
  import opened FailureWindow
  import opened Ledger
  import opened LedgerInvariants
  import opened Delivery
  import opened DeliveryInvariants
  import opened SubscriberInvariants
  import opened DeliveryTheorems

  // ---- Successes and the counter ----

  /** Action `k` sends a message to subscriber `q` successfully. */
  predicate DeliversTo(states: seq<State>, actions: seq<Action>, q: int, k: nat)
    requires k < |actions| && |states| == |actions| + 1
  {
    && actions[k].Send? && actions[k].outcome.Delivered?
    && states[k].work.todo != [] && states[k].work.todo[0].sid == q
  }

  /** A success of `q` is at hand that its counter has not been cleared for. */
  predicate Unclearing(w: Work, q: int) {
    && w.todo != [] && w.todo[0].sid == q
    && (w.phase.Sent? || w.phase.HalfSettled?) && w.phase.outcome.Delivered?
  }

  /** How often a crash fell between a successful send to `q` and clearing its counter. */
  function LostClearings(states: seq<State>, actions: seq<Action>, q: int, n: nat): nat
    requires n <= |actions| && |states| == |actions| + 1
  {
    if n == 0 then 0
    else
      LostClearings(states, actions, q, n - 1)
      + if actions[n - 1].Crash? && Unclearing(states[n - 1].work, q) then 1 else 0
  }

  /** The turn of the send at `k` goes on until `j`. */
  predicate TurnLasts(actions: seq<Action>, k: nat, j: nat) {
    && k < j <= |actions|
    && forall i :: k < i < j ==> actions[i].Outside? || actions[i].FirstWrite?
  }

  /** A crash cuts short the turn of the send at `k`, before `n`. */
  predicate CutShort(actions: seq<Action>, k: nat, n: nat) {
    exists j :: k < j < n && TurnLasts(actions, k, j) && j < |actions| && actions[j].Crash?
  }

  /** Where the turn of a successful send ends, if it does before `n`. */
  lemma {:induction false} TurnOf(states: seq<State>, actions: seq<Action>, q: int, k: nat, n: nat) returns (j: nat)
    requires IsRun(states, actions) && k < n <= |actions| && DeliversTo(states, actions, q, k)
    ensures k < j <= n && TurnLasts(actions, k, j) && Unclearing(states[j].work, q)
    ensures j < n ==> actions[j].LastWrite? || actions[j].Crash?
  {
    assert states[n - 1 + 1] == Next(states[n - 1], actions[n - 1]);
    if n == k + 1 {
      j := n;
    } else {
      j := TurnOf(states, actions, q, k, n - 1);
      if j == n - 1 && (actions[j].Outside? || actions[j].FirstWrite?) {
        j := n;
      }
    }
  }

  /** Action `k` is somebody else's and clears `q`'s counter. */
  ghost predicate ClearsOutside(states: seq<State>, actions: seq<Action>, q: int, k: nat)
    requires k < |actions| && |states| == |actions| + 1
  {
    actions[k].Outside? && CounterCleared(states[k].db, actions[k].t) == Some(q)
  }

  ghost predicate ClearedBetween(states: seq<State>, actions: seq<Action>, q: int, k: nat, j: nat)
    requires k < j <= |actions| && |states| == |actions| + 1
  {
    exists i :: k < i < j && ClearsOutside(states, actions, q, i)
  }

  /** What an action does to the counter, as its trace tells it. */
  lemma {:induction false} ReplayMore(states: seq<State>, actions: seq<Action>, q: int, n: nat)
    requires |states| == |actions| + 1 && n < |actions|
    ensures Replay(TraceOf(states, actions, q, n + 1))
         == if MarkOf(states[n], actions[n], q) == [] then Replay(TraceOf(states, actions, q, n))
            else if MarkOf(states[n], actions[n], q) == [Cleared] then ZERO
            else CountFailure(Replay(TraceOf(states, actions, q, n)), states[n].work.now)
  {
    var mark, trace := MarkOf(states[n], actions[n], q), TraceOf(states, actions, q, n);
    if mark == [] {
      assert trace + [] == trace;
    } else {
      ReplayAppend(trace, mark[0]);
    }
  }

  lemma {:induction false} ClearedInTurn(states: seq<State>, actions: seq<Action>, q: int, k: nat, j: nat)
    requires |states| == |actions| + 1 && k < j <= |actions| && MarkOf(states[k], actions[k], q) == []
    requires forall i :: k < i < j ==>
               MarkOf(states[i], actions[i], q) == if ClearsOutside(states, actions, q, i) then [Cleared] else []
    ensures Replay(TraceOf(states, actions, q, j))
         == if ClearedBetween(states, actions, q, k, j) then ZERO else Replay(TraceOf(states, actions, q, k))
  {
    hide MarkOf, TraceOf, Replay, ClearsOutside, CountFailure;
    ReplayMore(states, actions, q, j - 1);
    if j > k + 1 {
      ClearedInTurn(states, actions, q, k, j - 1);
      assert ClearsOutside(states, actions, q, j - 1) ==> ClearedBetween(states, actions, q, k, j);
    }
  }

  lemma {:induction false} MarkInTurn(states: seq<State>, actions: seq<Action>, q: int, k: nat, j: nat)
    requires IsRun(states, actions) && k < j < |actions| && DeliversTo(states, actions, q, k)
    requires TurnLasts(actions, k, j) && (actions[j].Outside? || actions[j].FirstWrite?)
    ensures MarkOf(states[j], actions[j], q) == if ClearsOutside(states, actions, q, j) then [Cleared] else []
  {
    hide Next, CounterCleared;
    var end := TurnOf(states, actions, q, k, j);
  }

  lemma {:induction false} MarkOfSend(states: seq<State>, actions: seq<Action>, q: int, k: nat)
    requires |states| == |actions| + 1 && k < |actions| && DeliversTo(states, actions, q, k)
    ensures MarkOf(states[k], actions[k], q) == []
  {
  }

  /** A successful send clears its subscriber's counter by the end of its turn exactly if
      no crash cuts the turn short; otherwise the counter stands as if nothing had been
      sent, unless a sign-up cleared it meanwhile. */
  lemma {:induction false} SuccessClearsIff(states: seq<State>, actions: seq<Action>, q: int, k: nat, j: nat)
    requires IsRun(states, actions) && k < j < |actions| && DeliversTo(states, actions, q, k)
    requires TurnLasts(actions, k, j) && (actions[j].LastWrite? || actions[j].Crash?)
    ensures Replay(TraceOf(states, actions, q, j + 1))
         == if actions[j].LastWrite? || ClearedBetween(states, actions, q, k, j) then ZERO
            else Replay(TraceOf(states, actions, q, k))
  {
    var end := TurnOf(states, actions, q, k, j);
    MarkOfSend(states, actions, q, k);
    forall i | k < i < j
      ensures MarkOf(states[i], actions[i], q) == if ClearsOutside(states, actions, q, i) then [Cleared] else []
    {
      MarkInTurn(states, actions, q, k, i);
    }
    ClearedInTurn(states, actions, q, k, j);
    ReplayMore(states, actions, q, j);
    assert states[j + 1] == Next(states[j], actions[j]);
  }

  // ---- Which failures were counted together ----

  /** Action `k` counts a failure against `q`. */
  predicate FailsFor(states: seq<State>, actions: seq<Action>, q: int, k: nat)
    requires k < |actions| && |states| == |actions| + 1
  {
    && actions[k].FirstWrite? && states[k].work.todo != [] && states[k].work.phase.Sent?
    && CountsAgainst(states[k].work.todo[0], states[k].work.phase.outcome, q)
  }

  /** The actions `f` count failures of `q`, each less than an hour after the first, with
      no clearing from the first to the last. */
  ghost predicate Together(states: seq<State>, actions: seq<Action>, q: int, f: seq<nat>)
    requires |states| == |actions| + 1
  {
    && f != []
    && (forall i :: 0 <= i < |f| ==> f[i] < |actions| && FailsFor(states, actions, q, f[i]))
    && (forall i :: 0 <= i < |f| ==> states[f[i]].work.now < states[f[0]].work.now + QUARANTINE_WINDOW_SECS)
    && (forall i, j :: 0 <= i < j < |f| ==> f[i] < f[j])
    && (forall k :: f[0] < k < f[|f| - 1] ==> MarkOf(states[k], actions[k], q) != [Cleared])
  }

  /** If a message was sent to `q` successfully between them, a crash kept that from the
      counter. */
  ghost predicate CountedTogether(states: seq<State>, actions: seq<Action>, q: int, f: seq<nat>)
    requires |states| == |actions| + 1
  {
    && Together(states, actions, q, f)
    && (forall k :: f[0] < k < f[|f| - 1] && DeliversTo(states, actions, q, k) ==> CutShort(actions, k, f[|f| - 1]))
  }

  lemma {:induction false} TraceGrows(states: seq<State>, actions: seq<Action>, q: int, m: nat, n: nat)
    requires |states| == |actions| + 1 && m <= n <= |actions|
    ensures TraceOf(states, actions, q, m) <= TraceOf(states, actions, q, n)
  {
    if m < n {
      TraceGrows(states, actions, q, m, n - 1);
    }
  }

  /** The action that left mark `p` of the trace. */
  lemma {:induction false} ActionOfMark(states: seq<State>, actions: seq<Action>, q: int, n: nat, p: nat)
    returns (k: nat)
    requires |states| == |actions| + 1 && n <= |actions| && p < |TraceOf(states, actions, q, n)|
    ensures k < n && |TraceOf(states, actions, q, k)| == p
    ensures MarkOf(states[k], actions[k], q) == [TraceOf(states, actions, q, n)[p]]
  {
    k := n - 1;
    if p < |TraceOf(states, actions, q, k)| {
      k := ActionOfMark(states, actions, q, n - 1, p);
    }
  }

  /** The actions `f` left the marks of the trace from `from` on. */
  ghost predicate LeftBy(states: seq<State>, actions: seq<Action>, q: int, n: nat, from: nat, f: seq<nat>)
    requires |states| == |actions| + 1 && n <= |actions| && from + |f| <= |TraceOf(states, actions, q, n)|
  {
    forall i :: 0 <= i < |f| ==>
      && f[i] < n && |TraceOf(states, actions, q, f[i])| == from + i
      && MarkOf(states[f[i]], actions[f[i]], q) == [TraceOf(states, actions, q, n)[from + i]]
  }

  lemma {:induction false} ActionsOfMarks(states: seq<State>, actions: seq<Action>, q: int, n: nat, from: nat, c: nat)
    returns (f: seq<nat>)
    requires |states| == |actions| + 1 && n <= |actions| && from + c <= |TraceOf(states, actions, q, n)|
    ensures |f| == c && LeftBy(states, actions, q, n, from, f)
  {
    if c == 0 {
      f := [];
    } else {
      var front := ActionsOfMarks(states, actions, q, n, from, c - 1);
      var last := ActionOfMark(states, actions, q, n, from + c - 1);
      f := front + [last];
    }
  }

  lemma {:induction false} FailedMark(s: State, a: Action, q: int)
    requires MarkOf(s, a, q) != [] && MarkOf(s, a, q)[0].Failed?
    ensures a.FirstWrite? && s.work.todo != [] && s.work.phase.Sent?
    ensures CountsAgainst(s.work.todo[0], s.work.phase.outcome, q)
    ensures MarkOf(s, a, q) == [Failed(s.work.now)]
  {
  }

  /** Each mark of a burst was left by counting a failure. */
  lemma {:induction false} BurstFails(
    states: seq<State>, actions: seq<Action>, q: int, n: nat, b: nat, f: seq<nat>, i: nat)
    requires |states| == |actions| + 1 && n <= |actions| && i < |f| && Burst(TraceOf(states, actions, q, n), b, |f|)
    requires LeftBy(states, actions, q, n, b - |f|, f)
    ensures f[i] < n && FailsFor(states, actions, q, f[i])
    ensures TraceOf(states, actions, q, n)[b - |f| + i] == Failed(states[f[i]].work.now)
  {
    hide MarkOf, TraceOf;
    assert TraceOf(states, actions, q, n)[b - |f| + i].Failed?;
    FailedMark(states[f[i]], actions[f[i]], q);
  }

  /** The later of two marks was left later. */
  lemma {:induction false} MarksInOrder(states: seq<State>, actions: seq<Action>, q: int, k: nat, m: nat)
    requires |states| == |actions| + 1 && k <= |actions| && m <= |actions|
    requires |TraceOf(states, actions, q, k)| < |TraceOf(states, actions, q, m)|
    ensures k < m
  {
    if m <= k {
      TraceGrows(states, actions, q, m, k);
    }
  }

  lemma {:induction false} BurstInOrder(
    states: seq<State>, actions: seq<Action>, q: int, n: nat, from: nat, f: seq<nat>)
    requires |states| == |actions| + 1 && n <= |actions| && from + |f| <= |TraceOf(states, actions, q, n)|
    requires LeftBy(states, actions, q, n, from, f)
    ensures forall i, j :: 0 <= i < j < |f| ==> f[i] < f[j]
  {
    hide MarkOf, TraceOf;
    forall i, j | 0 <= i < j < |f|
      ensures f[i] < f[j]
    {
      MarksInOrder(states, actions, q, f[i], f[j]);
    }
  }

  /** Where an action's mark is in a later trace. */
  lemma {:induction false} MarkInTrace(states: seq<State>, actions: seq<Action>, q: int, k: nat, n: nat)
    requires |states| == |actions| + 1 && k < n <= |actions| && MarkOf(states[k], actions[k], q) != []
    ensures |TraceOf(states, actions, q, k)| < |TraceOf(states, actions, q, n)|
    ensures TraceOf(states, actions, q, n)[|TraceOf(states, actions, q, k)|] == MarkOf(states[k], actions[k], q)[0]
  {
    TraceGrows(states, actions, q, k + 1, n);
    var mark := MarkOf(states[k], actions[k], q);
    assert TraceOf(states, actions, q, k + 1) == TraceOf(states, actions, q, k) + mark;
    hide MarkOf, TraceOf;
  }

  lemma {:induction false} NoClearingInside(
    states: seq<State>, actions: seq<Action>, q: int, n: nat, b: nat, f: seq<nat>, k: nat)
    requires |states| == |actions| + 1 && n <= |actions| && f != [] && Burst(TraceOf(states, actions, q, n), b, |f|)
    requires LeftBy(states, actions, q, n, b - |f|, f) && f[0] < k < f[|f| - 1]
    ensures MarkOf(states[k], actions[k], q) != [Cleared]
  {
    hide MarkOf, TraceOf;
    TraceGrows(states, actions, q, f[0], k);
    if MarkOf(states[k], actions[k], q) != [] {
      MarkInTrace(states, actions, q, k, n);
      MarkInTrace(states, actions, q, k, f[|f| - 1]);
    }
  }

  /** A burst in the trace is failures counted together. */
  lemma {:induction false} BurstTogether(states: seq<State>, actions: seq<Action>, q: int, n: nat, b: nat, c: nat)
    returns (f: seq<nat>)
    requires |states| == |actions| + 1 && n <= |actions| && Burst(TraceOf(states, actions, q, n), b, c)
    ensures |f| == c && f[c - 1] < n && Together(states, actions, q, f)
    ensures |TraceOf(states, actions, q, f[c - 1])| == b - 1
    ensures TraceOf(states, actions, q, n)[b - 1] == Failed(states[f[c - 1]].work.now)
  {
    hide MarkOf, TraceOf, FailsFor;
    f := ActionsOfMarks(states, actions, q, n, b - c, c);
    forall i | 0 <= i < c
      ensures f[i] < n && FailsFor(states, actions, q, f[i])
      ensures TraceOf(states, actions, q, n)[b - c + i] == Failed(states[f[i]].work.now)
    {
      BurstFails(states, actions, q, n, b, f, i);
    }
    BurstInOrder(states, actions, q, n, b - c, f);
    forall k | f[0] < k < f[c - 1]
      ensures MarkOf(states[k], actions[k], q) != [Cleared]
    {
      NoClearingInside(states, actions, q, n, b, f, k);
    }
  }

  lemma {:induction false} TogetherIsCounted(states: seq<State>, actions: seq<Action>, q: int, f: seq<nat>)
    requires IsRun(states, actions) && Together(states, actions, q, f)
    ensures CountedTogether(states, actions, q, f)
  {
    hide MarkOf;
    forall k | f[0] < k < f[|f| - 1] && DeliversTo(states, actions, q, k)
      ensures CutShort(actions, k, f[|f| - 1])
    {
      UnheardWasCut(states, actions, q, f, k);
    }
  }

  lemma {:induction false} LastWriteClears(s: State, a: Action, q: int)
    requires Enabled(s, a) && Unclearing(s.work, q)
    ensures a.LastWrite? ==> MarkOf(s, a, q) == [Cleared]
  {
  }

  /** A success that no crash cut short is followed by a clearing. */
  lemma {:induction false} UnheardWasCut(states: seq<State>, actions: seq<Action>, q: int, f: seq<nat>, k: nat)
    requires IsRun(states, actions) && Together(states, actions, q, f)
    requires f[0] < k < f[|f| - 1] && DeliversTo(states, actions, q, k)
    ensures CutShort(actions, k, f[|f| - 1])
  {
    var last := f[|f| - 1];
    var j := TurnOf(states, actions, q, k, last);
    assert j < last;
    LastWriteClears(states[j], actions[j], q);
  }

  lemma {:induction false} CrashLosesClearing(states: seq<State>, actions: seq<Action>, q: int, k: nat, j: nat)
    requires IsRun(states, actions) && k < j < |actions| && DeliversTo(states, actions, q, k)
    requires TurnLasts(actions, k, j) && actions[j].Crash?
    ensures LostClearings(states, actions, q, j + 1) == LostClearings(states, actions, q, j) + 1
  {
    var end := TurnOf(states, actions, q, k, j);
    hide IsRun, DeliversTo;
    assert end == j;
  }

  /** Where no crash fell between a success and its clearing, none went unheard. */
  lemma {:induction false} NoneUnheard(states: seq<State>, actions: seq<Action>, q: int, k: nat, n: nat)
    requires IsRun(states, actions) && k < n <= |actions| && DeliversTo(states, actions, q, k)
            && CutShort(actions, k, n)
    ensures LostClearings(states, actions, q, k) < LostClearings(states, actions, q, n)
  {
    var j :| k < j < n && TurnLasts(actions, k, j) && j < |actions| && actions[j].Crash?;
    CrashLosesClearing(states, actions, q, k, j);
    LostBetween(states, actions, q, k, j, n);
  }

  lemma {:induction false} LostGrow(states: seq<State>, actions: seq<Action>, q: int, m: nat, n: nat)
    requires |states| == |actions| + 1 && m <= n <= |actions|
    ensures LostClearings(states, actions, q, m) <= LostClearings(states, actions, q, n)
  {
    if m < n {
      LostGrow(states, actions, q, m, n - 1);
    }
  }

  lemma {:induction false} LostBetween(states: seq<State>, actions: seq<Action>, q: int, k: nat, j: nat, n: nat)
    requires |states| == |actions| + 1 && k <= j < n <= |actions|
    requires LostClearings(states, actions, q, j) < LostClearings(states, actions, q, j + 1)
    ensures LostClearings(states, actions, q, k) < LostClearings(states, actions, q, n)
  {
    LostGrow(states, actions, q, k, j);
    LostGrow(states, actions, q, j + 1, n);
  }

  /** So between failures counted together lies no success, unless a crash fell between
      one and its clearing. */
  lemma {:induction false} NoSuccessBetween(states: seq<State>, actions: seq<Action>, q: int, f: seq<nat>, k: nat)
    requires IsRun(states, actions) && CountedTogether(states, actions, q, f) && f[0] < k < f[|f| - 1]
    requires LostClearings(states, actions, q, f[0]) == LostClearings(states, actions, q, f[|f| - 1])
    ensures !DeliversTo(states, actions, q, k)
  {
    if DeliversTo(states, actions, q, k) {
      NoneUnheard(states, actions, q, k, f[|f| - 1]);
      LostGrow(states, actions, q, f[0], k);
    }
  }

  // ---- Quarantine ----

  /** Every quarantine was written for ten failures counted together, the last of them at
      the time the quarantine bears. No success lies between them unless a crash fell
      between sending it and clearing the counter. */
  lemma {:induction false} QuarantineNeedsTenFailures(states: seq<State>, actions: seq<Action>, q: int, n: nat)
    returns (f: seq<nat>)
    requires IsRun(states, actions) && n <= |actions|
    requires q in states[n].db.subs && states[n].db.subs[q].status.Quarantined?
    ensures |f| == QUARANTINE_FAILURES && f[9] < n && CountedTogether(states, actions, q, f)
    ensures states[n].db.subs[q].quarantinedAt == Some(states[f[9]].work.now)
    ensures LostClearings(states, actions, q, f[0]) == LostClearings(states, actions, q, f[9]) ==>
              forall k :: f[0] < k < f[9] ==> !DeliversTo(states, actions, q, k)
  {
    RunsKeepSubscribers(states, actions, n);
    SubscriberHistoryIsTheRun(states, actions, q, n);
    assert MarksOk(states[n], q);
    var trace, at := TraceOf(states, actions, q, n), states[n].db.subs[q].quarantinedAt.value;
    hide IsRun, TraceOf;
    var b: nat :| Burst(trace, b, QUARANTINE_FAILURES) && trace[b - 1].at == at;
    f := BurstTogether(states, actions, q, n, b, QUARANTINE_FAILURES);
    TogetherIsCounted(states, actions, q, f);
    if LostClearings(states, actions, q, f[0]) == LostClearings(states, actions, q, f[9]) {
      forall k | f[0] < k < f[9]
        ensures !DeliversTo(states, actions, q, k)
      {
        NoSuccessBetween(states, actions, q, f, k);
      }
    }
  }

  /** A subscriber whose trace counts ten is quarantined, or is about to be, or a crash
      fell between the two statements. */
  lemma {:induction false} OnlyACrashMisses(states: seq<State>, actions: seq<Action>, q: int, n: nat)
    requires IsRun(states, actions) && n <= |actions| && q in states[n].db.subs
    requires Replay(TraceOf(states, actions, q, n)).failures >= QUARANTINE_FAILURES
    ensures states[n].db.subs[q].status.Quarantined? || LimitOf(states[n].work, q)
            || MissedLimits(states, actions, q, n) > 0
  {
    RunsKeepSubscribers(states, actions, n);
    SubscriberHistoryIsTheRun(states, actions, q, n);
    assert MarksOk(states[n], q);
  }

  /** The rest of a turn whose failure was counted at `k`, up to its end at `j`: the
      quarantine, if it is due, and any transactions that do not remove `q`. */
  ghost predicate RestOfTurn(states: seq<State>, actions: seq<Action>, q: int, k: nat, j: nat)
    requires k < j < |actions| && |states| == |actions| + 1
  {
    && (forall i :: k < i < j ==> actions[i].QuarantineWrite? || actions[i].Outside?)
    && (actions[j].LastWrite? || actions[j].Crash?)
    && (forall i :: k <= i <= j + 1 ==> q in states[i].db.subs)
  }

  /** Action `k` counts a failure against `q`, which is not quarantined. */
  predicate CountsFailure(states: seq<State>, actions: seq<Action>, q: int, k: nat)
    requires k < |actions| && |states| == |actions| + 1
  {
    FailsFor(states, actions, q, k) && q in states[k].db.subs && !states[k].db.subs[q].status.Quarantined?
  }

  /** The quarantine is written between `k` and `i`. */
  predicate Wrote(actions: seq<Action>, k: nat, i: nat)
    requires i <= |actions|
  {
    exists m :: k < m < i && actions[m].QuarantineWrite?
  }

  /** It is, and no sign-up undoes it after that. */
  ghost predicate WroteForGood(states: seq<State>, actions: seq<Action>, q: int, k: nat, i: nat)
    requires i <= |actions| && |states| == |actions| + 1
  {
    exists m :: k < m < i && actions[m].QuarantineWrite?
        && forall x :: m < x < i ==> !ClearsOutside(states, actions, q, x)
  }

  /** What a transaction does to a quarantine. */
  lemma {:induction false} OutsideStatus(db: Db, t: Transaction, q: int)
    requires TablesOk(db) && Possible(db, t) && q in db.subs && q in Execute(db, t).subs
    ensures Execute(db, t).subs[q].status.Quarantined?
            <==> db.subs[q].status.Quarantined? && CounterCleared(db, t) != Some(q)
  {
    match t
    case TSignUp(form, now) => SignUpRow(db, form, now, q);
    case TConfirm(token, now) => ConfirmRow(db, token, now, q);
    case _ =>
  }

  ghost predicate InTurn(states: seq<State>, actions: seq<Action>, q: int, k: nat, i: nat)
    requires k < i <= |actions| && |states| == |actions| + 1
  {
    var s, ten := states[i], Replay(TraceOf(states, actions, q, k + 1)).failures >= QUARANTINE_FAILURES;
    && s.work.todo != [] && s.work.todo[0].sid == q && q in s.db.subs
    && (s.work.phase.AtLimit? || s.work.phase.HalfSettled?) && Counts(s.work.phase.outcome)
    && (if s.work.phase.AtLimit? then ten && !Wrote(actions, k, i) else ten <==> Wrote(actions, k, i))
    && (s.db.subs[q].status.Quarantined? <==> WroteForGood(states, actions, q, k, i))
  }

  lemma {:induction false} TurnBegins(states: seq<State>, actions: seq<Action>, q: int, k: nat)
    requires IsRun(states, actions) && k < |actions|
    requires CountsFailure(states, actions, q, k) && q in states[k + 1].db.subs
    ensures InTurn(states, actions, q, k, k + 1)
  {
    assert states[k + 1] == Next(states[k], actions[k]);
    RunsKeepSubscribers(states, actions, k + 1);
    SubscriberHistoryIsTheRun(states, actions, q, k + 1);
    assert MarksOk(states[k + 1], q);
    SettleSubs(states[k].db, states[k].work.todo[0], states[k].work.phase.outcome, states[k].work.now, q);
  }

  lemma {:induction false} WroteMore(states: seq<State>, actions: seq<Action>, q: int, k: nat, i: nat)
    requires k < i < |actions| && |states| == |actions| + 1
    ensures Wrote(actions, k, i + 1) <==> Wrote(actions, k, i) || actions[i].QuarantineWrite?
    ensures WroteForGood(states, actions, q, k, i + 1) <==>
              || actions[i].QuarantineWrite?
              || (WroteForGood(states, actions, q, k, i) && !ClearsOutside(states, actions, q, i))
  {
    if WroteForGood(states, actions, q, k, i) && !ClearsOutside(states, actions, q, i) {
      var m :| k < m < i && actions[m].QuarantineWrite?
          && forall x :: m < x < i ==> !ClearsOutside(states, actions, q, x);
      assert forall x :: m < x < i + 1 ==> !ClearsOutside(states, actions, q, x);
    }
  }

  lemma {:induction false} TurnGoesOn(states: seq<State>, actions: seq<Action>, q: int, k: nat, i: nat)
    requires IsRun(states, actions) && k < i < |actions| && InTurn(states, actions, q, k, i)
    requires actions[i].QuarantineWrite? || actions[i].Outside?
    requires q in states[i + 1].db.subs
    ensures InTurn(states, actions, q, k, i + 1)
  {
    assert states[i + 1] == Next(states[i], actions[i]);
    WroteMore(states, actions, q, k, i);
    if actions[i].Outside? {
      RunsAreSound(states, actions, i);
      OutsideStatus(states[i].db, actions[i].t, q);
      hide Execute, CounterCleared, TablesOk;
    }
    hide Wrote, WroteForGood, Replay, TraceOf;
  }

  lemma {:induction false} TurnOfFailure(states: seq<State>, actions: seq<Action>, q: int, k: nat, j: nat, i: nat)
    requires IsRun(states, actions) && k < j < |actions| && k < i <= j
    requires CountsFailure(states, actions, q, k) && RestOfTurn(states, actions, q, k, j)
    ensures InTurn(states, actions, q, k, i)
  {
    if i == k + 1 {
      TurnBegins(states, actions, q, k);
    } else {
      TurnOfFailure(states, actions, q, k, j, i - 1);
      TurnGoesOn(states, actions, q, k, i - 1);
    }
  }

  lemma {:induction false} TurnEnds(s: State, a: Action, t: State, q: int)
    requires Step(s, a, t) && (a.LastWrite? || a.Crash?)
    requires q in s.db.subs && q in t.db.subs
    requires (s.work.phase.AtLimit? || s.work.phase.HalfSettled?) && Counts(s.work.phase.outcome)
    ensures t.db.subs[q] == s.db.subs[q]
    ensures a.LastWrite? ==> s.work.phase.HalfSettled?
  {
  }

  /** A counted failure leads to the quarantine of its subscriber in its turn if and only
      if it brings the count to ten and no crash falls between the two statements; and the
      subscriber comes out of the turn quarantined if and only if, besides, no sign-up has
      undone that since. */
  lemma {:induction false} QuarantineAtTheTenth(states: seq<State>, actions: seq<Action>, q: int, k: nat, j: nat)
    requires IsRun(states, actions) && k < j < |actions|
    requires CountsFailure(states, actions, q, k) && RestOfTurn(states, actions, q, k, j)
    ensures Wrote(actions, k, j) <==>
              && Replay(TraceOf(states, actions, q, k + 1)).failures >= QUARANTINE_FAILURES
              && !(actions[j].Crash? && LimitOf(states[j].work, q))
    ensures states[j + 1].db.subs[q].status.Quarantined? <==> WroteForGood(states, actions, q, k, j)
  {
    TurnOfFailure(states, actions, q, k, j, j);
    assert Step(states[j], actions[j], states[j + 1]);
    TurnEnds(states[j], actions[j], states[j + 1], q);
    hide IsRun, Step, CountsFailure, Wrote, WroteForGood, Replay, TraceOf;
  }

  lemma {:induction false} CountAtMostTen(states: seq<State>, actions: seq<Action>, q: int, k: nat)
    requires IsRun(states, actions) && k < |actions| && CountsFailure(states, actions, q, k)
    requires MissedLimits(states, actions, q, k) == 0
    ensures Replay(TraceOf(states, actions, q, k + 1)).failures <= QUARANTINE_FAILURES
  {
    RunsKeepSubscribers(states, actions, k);
    SubscriberHistoryIsTheRun(states, actions, q, k);
    assert MarksOk(states[k], q);
    ReplayMore(states, actions, q, k);
  }

  /** What the count of a failure just counted is made of: it and the failures counted
      together with it. It is ten at most unless a crash lost a quarantine before. */
  lemma {:induction false} CountIsOfFailures(states: seq<State>, actions: seq<Action>, q: int, k: nat)
    returns (f: seq<nat>)
    requires IsRun(states, actions) && k < |actions| && CountsFailure(states, actions, q, k)
    ensures |f| == Replay(TraceOf(states, actions, q, k + 1)).failures
    ensures CountedTogether(states, actions, q, f) && f[|f| - 1] == k
    ensures MissedLimits(states, actions, q, k) == 0 ==> |f| <= QUARANTINE_FAILURES
  {
    f := LastStreak(states, actions, q, k);
    TogetherIsCounted(states, actions, q, f);
    if MissedLimits(states, actions, q, k) == 0 {
      CountAtMostTen(states, actions, q, k);
    }
    hide IsRun, Together, MissedLimits, Replay, TraceOf, CountsFailure;
  }

  lemma {:induction false} LastStreak(states: seq<State>, actions: seq<Action>, q: int, k: nat) returns (f: seq<nat>)
    requires |states| == |actions| + 1 && k < |actions| && FailsFor(states, actions, q, k)
    ensures |f| == Replay(TraceOf(states, actions, q, k + 1)).failures
    ensures Together(states, actions, q, f) && f[|f| - 1] == k
  {
    var trace := TraceOf(states, actions, q, k + 1);
    assert trace == TraceOf(states, actions, q, k) + [Failed(states[k].work.now)];
    ReplayMore(states, actions, q, k);
    CounterIsBurst(trace);
    hide TraceOf, Replay;
    f := BurstTogether(states, actions, q, k + 1, |trace|, Replay(trace).failures);
    var last := f[|f| - 1];
    if last < k {
      MarkInTrace(states, actions, q, last, k);
    }
  }
}
