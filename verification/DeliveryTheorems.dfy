// What the subscription ledger promises, over every run: outside transactions between
// any two steps of the dispatcher, stale batches, and a crash anywhere.

module DeliveryTheorems {
  import opened Basics
  import opened Backoff
  import opened FailureWindow
  import opened Ledger
  import opened LedgerInvariants
  import opened Delivery
  import opened DeliveryInvariants
  import opened SubscriberInvariants

  // ---- Counted on the run itself ----

  /** Action `k` hands outbox row `r` to its channel. */
  predicate SendsRow(states: seq<State>, actions: seq<Action>, k: nat, r: int)
    requires k < |actions| && |states| == |actions| + 1
  {
    actions[k].Send? && states[k].work.todo != [] && states[k].work.todo[0].row == r
  }

  /** The tries of row `r` in the first `n` actions. */
  function SendsOf(states: seq<State>, actions: seq<Action>, r: int, n: nat): seq<Try>
    requires n <= |actions| && |states| == |actions| + 1
  {
    if n == 0 then []
    else
      var w, a := states[n - 1].work, actions[n - 1];
      SendsOf(states, actions, r, n - 1)
      + if SendsRow(states, actions, n - 1, r)
        then [Try(w.todo[0].attempts + 1, w.now, a.started, a.ended, RequestedWait(a.outcome))]
        else []
  }

  /** How often row `r` was sent successfully in the first `n` actions. */
  function SuccessfulSends(states: seq<State>, actions: seq<Action>, r: int, n: nat): nat
    requires n <= |actions| && |states| == |actions| + 1
  {
    if n == 0 then 0
    else
      SuccessfulSends(states, actions, r, n - 1)
      + if SendsRow(states, actions, n - 1, r) && actions[n - 1].outcome.Delivered? then 1 else 0
  }

  /** How often a crash fell between a send of row `r` and the write that records it. */
  function LostSends(states: seq<State>, actions: seq<Action>, r: int, n: nat): nat
    requires n <= |actions| && |states| == |actions| + 1
  {
    if n == 0 then 0
    else
      LostSends(states, actions, r, n - 1)
      + if actions[n - 1].Crash? && Flying(states[n - 1].work, r) then 1 else 0
  }

  function Crashes(actions: seq<Action>, n: nat): nat
    requires n <= |actions|
  {
    if n == 0 then 0 else Crashes(actions, n - 1) + if actions[n - 1].Crash? then 1 else 0
  }

  lemma {:induction false} LostAreCrashes(states: seq<State>, actions: seq<Action>, r: int, n: nat)
    requires n <= |actions| && |states| == |actions| + 1
    ensures LostSends(states, actions, r, n) <= Crashes(actions, n)
  {
    if n > 0 {
      LostAreCrashes(states, actions, r, n - 1);
    }
  }

  /** The history records just this. */
  lemma {:induction false} HistoryIsTheRun(states: seq<State>, actions: seq<Action>, r: int, n: nat)
    requires IsRun(states, actions) && n <= |actions|
    ensures Tries(states[n], r) == SendsOf(states, actions, r, n)
    ensures Successes(states[n], r) == SuccessfulSends(states, actions, r, n)
    ensures Lost(states[n], r) == LostSends(states, actions, r, n)
  {
    if n > 0 {
      HistoryIsTheRun(states, actions, r, n - 1);
      assert states[n - 1 + 1] == Next(states[n - 1], actions[n - 1]);
      if actions[n - 1].Outside? {
        TransactionsSendNothing(states[n - 1].hist, states[n - 1].db, actions[n - 1].t);
      }
    }
  }

  /** What an action does to subscriber `id`'s failure counter. */
  ghost function MarkOf(s: State, a: Action, id: int): seq<Mark> {
    var w := s.work;
    if a.Outside? && CounterCleared(s.db, a.t) == Some(id) then [Cleared]
    else if w.todo == [] then []
    else if a.FirstWrite? && w.phase.Sent? && CountsAgainst(w.todo[0], w.phase.outcome, id) then [Failed(w.now)]
    else if a.LastWrite? && w.phase.HalfSettled? && w.phase.outcome.Delivered? && w.todo[0].sid == id then [Cleared]
    else []
  }

  ghost function IssuesTo(s: State, a: Action, id: int): nat {
    if a.Outside? && LinkIssued(s.db, a.t).Some? && LinkIssued(s.db, a.t).value.0 == id then 1 else 0
  }

  ghost function IssuedTo(states: seq<State>, actions: seq<Action>, id: int, n: nat): nat
    requires n <= |actions| && |states| == |actions| + 1
  {
    if n == 0 then 0
    else IssuedTo(states, actions, id, n - 1) + IssuesTo(states[n - 1], actions[n - 1], id)
  }

  ghost function UsesOf(s: State, a: Action, id: int): nat {
    if a.Outside? && LinkUsed(s.db, a.t) == Some(id) then 1 else 0
  }

  ghost function UsedBy(states: seq<State>, actions: seq<Action>, id: int, n: nat): nat
    requires n <= |actions| && |states| == |actions| + 1
  {
    if n == 0 then 0
    else UsedBy(states, actions, id, n - 1) + UsesOf(states[n - 1], actions[n - 1], id)
  }

  ghost function LinksOnceMore(links: seq<int>, s: State, a: Action, id: int): seq<int> {
    if a.Outside? then LinksAfter(links, LinkIssued(s.db, a.t), LinkUsed(s.db, a.t), id) else links
  }

  /** The times of the links issued to `id` since it last followed one. */
  ghost function LinksSinceUse(states: seq<State>, actions: seq<Action>, id: int, n: nat): seq<int>
    requires n <= |actions| && |states| == |actions| + 1
  {
    if n == 0 then []
    else LinksOnceMore(LinksSinceUse(states, actions, id, n - 1), states[n - 1], actions[n - 1], id)
  }

  /** The failures and clearings of `id`'s counter in the first `n` actions. */
  ghost function TraceOf(states: seq<State>, actions: seq<Action>, id: int, n: nat): seq<Mark>
    requires n <= |actions| && |states| == |actions| + 1
  {
    if n == 0 then []
    else
      TraceOf(states, actions, id, n - 1) + MarkOf(states[n - 1], actions[n - 1], id)
  }

  /** How often a crash fell between counting `id`'s tenth failure and quarantining it. */
  function MissedLimits(states: seq<State>, actions: seq<Action>, id: int, n: nat): nat
    requires n <= |actions| && |states| == |actions| + 1
  {
    if n == 0 then 0
    else
      MissedLimits(states, actions, id, n - 1)
      + if actions[n - 1].Crash? && LimitOf(states[n - 1].work, id) then 1 else 0
  }

  lemma {:induction false} NotedAction(s: State, a: Action, id: int)
    requires Enabled(s, a)
    ensures var t := Next(s, a);
            && Issued(t, id) == Issued(s, id) + IssuesTo(s, a, id)
            && Used(t, id) == Used(s, id) + UsesOf(s, a, id)
            && OpenLinks(t, id) == LinksOnceMore(OpenLinks(s, id), s, a, id)
            && Marks(t, id) == Marks(s, id) + MarkOf(s, a, id)
            && Missed(t, id) == Missed(s, id) + (if a.Crash? && LimitOf(s.work, id) then 1 else 0)
  {
    if a.Outside? {
      NotedIs(s.hist, LinkIssued(s.db, a.t), LinkUsed(s.db, a.t), CounterCleared(s.db, a.t), id);
    }
    hide Note, LinkIssued, LinkUsed, LinksAfter, CounterCleared, Execute, Possible, SettleFirst, SettleLast;
  }

  /** The history of subscribers, too, records what the actions did. */
  lemma {:induction false} SubscriberHistoryIsTheRun(states: seq<State>, actions: seq<Action>, id: int, n: nat)
    requires IsRun(states, actions) && n <= |actions|
    ensures Issued(states[n], id) == IssuedTo(states, actions, id, n)
    ensures Used(states[n], id) == UsedBy(states, actions, id, n)
    ensures OpenLinks(states[n], id) == LinksSinceUse(states, actions, id, n)
    ensures Marks(states[n], id) == TraceOf(states, actions, id, n)
    ensures Missed(states[n], id) == MissedLimits(states, actions, id, n)
  {
    if n > 0 {
      SubscriberHistoryIsTheRun(states, actions, id, n - 1);
      hide LinkIssued, LinkUsed, LinksOnceMore, IssuesTo, UsesOf, MarkOf, Next, Enabled;
      assert states[n - 1 + 1] == Next(states[n - 1], actions[n - 1]);
      NotedAction(states[n - 1], actions[n - 1], id);
    }
  }

  // ---- The outbox ----

  /** A row is sent successfully at most once, plus once for each crash between a send of
      it and the write that records it. */
  lemma {:induction false} AtMostOnceUnlessCrashed(states: seq<State>, actions: seq<Action>, r: int, n: nat)
    requires IsRun(states, actions) && n <= |actions|
    ensures SuccessfulSends(states, actions, r, n) <= 1 + LostSends(states, actions, r, n) <= 1 + Crashes(actions, n)
  {
    HistoryIsTheRun(states, actions, r, n);
    RunsAreSound(states, actions, n);
    assert CountsOk(states[n], r);
    LostAreCrashes(states, actions, r, n);
  }

  function Batches(tries: seq<Try>): seq<int> {
    seq(|tries|, i requires 0 <= i < |tries| => tries[i].batch)
  }

  /** A row of which no crash loses a send is tried at most eight times, and its k-th
      retry comes at least 30 * (2^k - 1) seconds after the time read before the batch of
      its first try; after that try itself it is as much less as the try came late. */
  lemma {:induction false} TriesAreFewAndSpread(states: seq<State>, actions: seq<Action>, r: int, n: nat)
    requires IsRun(states, actions) && n <= |actions| && LostSends(states, actions, r, n) == 0
    ensures var tries := SendsOf(states, actions, r, n);
            && |tries| <= MAX_ATTEMPTS
            && forall k :: 0 <= k < |tries| ==>
                 && tries[k].started - tries[0].batch >= RETRY_BASE_SECS * (Pow2(k) - 1)
                 && tries[k].started - tries[0].ended
                    >= RETRY_BASE_SECS * (Pow2(k) - 1) - (tries[0].ended - tries[0].batch)
  {
    HistoryIsTheRun(states, actions, r, n);
    RunsAreSound(states, actions, n);
    assert CountsOk(states[n], r);
    var tries := SendsOf(states, actions, r, n);
    var batches := Batches(tries);
    forall i | 0 < i < |batches|
      ensures batches[i - 1] + RetryDelay(i) <= batches[i]
    {
      var j := i - 1;
      assert MayFollow(tries[j], tries[i].attempt - 1, tries[i].batch);
    }
    forall k: nat | k < |tries|
      ensures tries[k].started - tries[0].batch >= RETRY_BASE_SECS * (Pow2(k) - 1)
    {
      SpacedTriesSpread(batches, k);
      assert Timed(tries[k]);
    }
  }

  /** Each crash between a send of a row and the write that records it costs the row at
      most one try more. */
  lemma {:induction false} TriesPerCrash(states: seq<State>, actions: seq<Action>, r: int, n: nat)
    requires IsRun(states, actions) && n <= |actions|
    ensures |SendsOf(states, actions, r, n)| <= MAX_ATTEMPTS + LostSends(states, actions, r, n)
  {
    HistoryIsTheRun(states, actions, r, n);
    RunsAreSound(states, actions, n);
    assert CountsOk(states[n], r);
  }

  /** Whatever crashes: a row's next try begins after the batch of the one before, and is
      either the same attempt again, because a crash lost that one, or comes no sooner
      than the schedule and the service asked for, reckoned from the time read before
      that batch. */
  lemma {:induction false} WaitsAreHonoured(states: seq<State>, actions: seq<Action>, r: int, n: nat, i: nat)
    requires IsRun(states, actions) && n <= |actions| && i + 1 < |SendsOf(states, actions, r, n)|
    ensures var first, next := SendsOf(states, actions, r, n)[i], SendsOf(states, actions, r, n)[i + 1];
            && first.ended <= next.batch <= next.started
            && (next.attempt == first.attempt || next.attempt == first.attempt + 1)
            && (next.attempt == first.attempt + 1 ==>
                  next.started >= first.batch + RetryDelay(first.attempt) && next.started >= first.batch + first.asked)
  {
    HistoryIsTheRun(states, actions, r, n);
    RunsAreSound(states, actions, n);
    assert CountsOk(states[n], r);
    var tries, j := SendsOf(states, actions, r, n), i + 1;
    assert Timed(tries[i]) && Timed(tries[j]);
    assert MayFollow(tries[i], tries[j].attempt - 1, tries[j].batch);
  }

  /** No row ever holds both a sent and a failed time. */
  lemma {:induction false} NeverSentAndFailed(states: seq<State>, actions: seq<Action>, r: int, n: nat)
    requires IsRun(states, actions) && n <= |actions| && r in states[n].db.outbox
    ensures states[n].db.outbox[r].sentAt.None? || states[n].db.outbox[r].failedAt.None?
  {
    RunsAreSound(states, actions, n);
    assert RowOk(states[n], r);
  }

  /** `r` is finished with: gone or recorded, and not in the batch. */
  ghost predicate Finished(s: State, r: int) {
    && r < s.db.nextRow
    && (r in s.db.outbox ==> !s.db.outbox[r].Undelivered())
    && !Waiting(s.work, r) && !Flying(s.work, r)
  }

  lemma {:induction false} FinishedStays(s: State, a: Action, r: int)
    requires DeliveryOk(s) && Enabled(s, a) && Finished(s, r)
    ensures Finished(Next(s, a), r)
    ensures a.Send? ==> s.work.todo[0].row != r
  {
    match a
    case Outside(t) => ExecuteKeeps(s.db, t);
    case FirstWrite =>
      SettleFirstRows(s.db, s.work.todo[0], s.work.phase.outcome, s.work.now);
      assert Flying(s.work, s.work.todo[0].row);
    case LastWrite => RestWaits(s.work, r);
    case GiveUpHead => RestWaits(s.work, r);
    case Skip => RestWaits(s.work, r);
    case Send(_, _, _) => assert Waiting(s.work, s.work.todo[0].row);
    case _ =>
  }

  lemma {:induction false} FinishedNext(states: seq<State>, actions: seq<Action>, r: int, k: nat)
    requires IsRun(states, actions) && k < |actions| && Finished(states[k], r)
    ensures Finished(states[k + 1], r)
    ensures !SendsRow(states, actions, k, r)
  {
    RunsAreSound(states, actions, k);
    FinishedStays(states[k], actions[k], r);
  }

  lemma {:induction false} FinishedForGood(states: seq<State>, actions: seq<Action>, r: int, m: nat, n: nat)
    requires IsRun(states, actions) && m <= n <= |actions| && Finished(states[m], r)
    ensures Finished(states[n], r)
  {
    if m < n {
      FinishedForGood(states, actions, r, m, n - 1);
      FinishedNext(states, actions, r, n - 1);
    }
  }

  lemma {:induction false} NoSendsNoTimes(states: seq<State>, actions: seq<Action>, r: int, m: nat, n: nat)
    requires |states| == |actions| + 1 && m <= n <= |actions|
    requires forall k :: m <= k < n ==> !SendsRow(states, actions, k, r)
    ensures SendsOf(states, actions, r, n) == SendsOf(states, actions, r, m)
  {
    if m < n {
      NoSendsNoTimes(states, actions, r, m, n - 1);
    }
  }

  /** Once a row is recorded as sent or failed, it is never tried again. */
  lemma {:induction false} NeverTriedAgain(states: seq<State>, actions: seq<Action>, r: int, m: nat, n: nat)
    requires IsRun(states, actions) && m <= n <= |actions|
    requires r in states[m].db.outbox && !states[m].db.outbox[r].Undelivered()
    ensures SendsOf(states, actions, r, n) == SendsOf(states, actions, r, m)
  {
    RunsAreSound(states, actions, m);
    assert RowOk(states[m], r);
    forall k | m <= k < n
      ensures !SendsRow(states, actions, k, r)
    {
      FinishedForGood(states, actions, r, m, k);
      FinishedNext(states, actions, r, k);
    }
    NoSendsNoTimes(states, actions, r, m, n);
  }

  /** The last write after a failed send gives the row up exactly if the refusal was
      permanent or it was the eighth attempt, and otherwise leaves it waiting as long as
      the service asked and the schedule says, from the batch's time. */
  lemma {:induction false} RowIsRescheduled(s: State)
    requires DeliveryOk(s) && Enabled(s, LastWrite)
    requires InFlight(s.work) && s.work.todo[0].row in s.db.outbox
    ensures var r := s.work.todo[0].row;
            var o := Next(s, LastWrite).db.outbox[r];
            && o.attempts == s.db.outbox[r].attempts + 1
            && (o.failedAt.Some? <==> s.work.phase.outcome.Permanent? || o.attempts == MAX_ATTEMPTS)
            && (o.failedAt.None? ==>
                  o.nextAttemptAt == s.work.now + Max(RetryDelay(o.attempts), RequestedWait(s.work.phase.outcome)))
  {
    assert ItemOk(s, 0) && RowOk(s, s.work.todo[0].row);
  }

  // ---- Pending and quarantined subscribers ----

  /** No undelivered event ever belongs to a pending subscriber, so the dispatcher never
      meets a row it would leave for its subscriber's status. */
  lemma {:induction false} NoRowIsLeft(states: seq<State>, actions: seq<Action>, n: nat)
    requires IsRun(states, actions) && n <= |actions|
    ensures PendingIsQuiet(states[n].db)
    ensures forall i :: 0 <= i < |states[n].work.todo| ==> !PlanFor(states[n].work.todo[i], states[n].work.now).LeaveIt?
  {
    RunsAreSound(states, actions, n);
    if n > 0 {
      NoRowIsLeft(states, actions, n - 1);
      assert states[n - 1 + 1] == Next(states[n - 1], actions[n - 1]);
      if actions[n - 1].ReadBatch? {
        forall i | 0 <= i < |states[n].work.todo|
          ensures !PlanFor(states[n].work.todo[i], states[n].work.now).LeaveIt?
        {
          assert Due(states[n - 1].db, states[n].work.todo[i].row, actions[n - 1].now, actions[n - 1].channels);
        }
      }
    }
  }

  /** Row `r` belongs to subscriber `q` and is just as it was in `was`. */
  ghost predicate HeldAs(db: Db, was: Db, r: int) {
    r in db.outbox ==> r in was.outbox && db.outbox[r] == was.outbox[r]
  }

  ghost predicate NoneInBatch(w: Work, q: int) {
    forall i :: 0 <= i < |w.todo| ==> w.todo[i].sid != q
  }

  lemma {:induction false} HeldOutside(s: State, t: Transaction, q: int, r: int)
    requires DeliveryOk(s) && Possible(s.db, t)
    requires q in s.db.subs && s.db.subs[q].status.Quarantined?
    requires q in Execute(s.db, t).subs && Execute(s.db, t).subs[q].status.Quarantined?
    ensures r in Execute(s.db, t).outbox && Execute(s.db, t).outbox[r].sub == q ==> HeldAs(Execute(s.db, t), s.db, r)
  {
    if t.TFanOut? {
      FanOutRows(s.db, t.event, t.order, t.now);
      assert forall i :: 0 <= i < |t.order| ==> t.order[i] != q;
    } else {
      ExecuteKeeps(s.db, t);
    }
  }

  lemma {:induction false} HeldStep(s: State, a: Action, q: int, r: int)
    requires DeliveryOk(s) && Enabled(s, a)
    requires q in s.db.subs && s.db.subs[q].status.Quarantined? && NoneInBatch(s.work, q)
    requires q in Next(s, a).db.subs && Next(s, a).db.subs[q].status.Quarantined?
    ensures NoneInBatch(Next(s, a).work, q)
    ensures r in Next(s, a).db.outbox && Next(s, a).db.outbox[r].sub == q ==> HeldAs(Next(s, a).db, s.db, r)
  {
    hide TablesOk, Execute, NoteTransaction;
    match a
    case Outside(t) => HeldOutside(s, t, q, r);
    case FirstWrite =>
      var item := s.work.todo[0];
      SettleFirstRows(s.db, item, s.work.phase.outcome, s.work.now);
      assert ItemOk(s, 0) && Flying(s.work, item.row);
    case LastWrite => assert ItemOk(s, 0);
    case GiveUpHead => assert ItemOk(s, 0) && Waiting(s.work, s.work.todo[0].row);
    case _ =>
  }

  ghost predicate QuarantinedIn(s: State, q: int) {
    q in s.db.subs && s.db.subs[q].status.Quarantined?
  }

  lemma {:induction false} HeldNext(states: seq<State>, actions: seq<Action>, q: int, r: int, k: nat)
    requires IsRun(states, actions) && k < |actions|
    requires QuarantinedIn(states[k], q) && QuarantinedIn(states[k + 1], q) && NoneInBatch(states[k].work, q)
    ensures NoneInBatch(states[k + 1].work, q)
    ensures r in states[k + 1].db.outbox && states[k + 1].db.outbox[r].sub == q ==>
            HeldAs(states[k + 1].db, states[k].db, r)
  {
    RunsAreSound(states, actions, k);
    HeldStep(states[k], actions[k], q, r);
  }

  /** While a subscriber stays quarantined, the rows queued for it stay just as they were
      unless deleted, once no row of it is left in a batch read before. */
  lemma {:induction false} QuarantineHolds(states: seq<State>, actions: seq<Action>, q: int, r: int, m: nat, n: nat)
    requires IsRun(states, actions) && m <= n <= |actions|
    requires forall k :: m <= k <= n ==> QuarantinedIn(states[k], q)
    requires NoneInBatch(states[m].work, q)
    ensures NoneInBatch(states[n].work, q)
    ensures r in states[n].db.outbox && states[n].db.outbox[r].sub == q ==> HeldAs(states[n].db, states[m].db, r)
    decreases n
  {
    if m < n {
      assert QuarantinedIn(states[n], q) && QuarantinedIn(states[n - 1], q);
      hide QuarantinedIn, NoneInBatch, Next, Enabled;
      QuarantineHolds(states, actions, q, r, m, n - 1);
      HeldNext(states, actions, q, r, n - 1);
    }
  }

  // ---- Links and confirmations ----

  /** A subscriber row confirms at most as often as it was sent a link, has at most one
      unsent confirmation, and the links issued while it stays unconfirmed are 15
      minutes apart or more. */
  lemma {:induction false} LinksAreFew(states: seq<State>, actions: seq<Action>, id: int, n: nat)
    requires IsRun(states, actions) && n <= |actions|
    ensures UsedBy(states, actions, id, n) <= IssuedTo(states, actions, id, n)
    ensures OneConfirmation(states[n].db)
    ensures var links := LinksSinceUse(states, actions, id, n);
            forall k :: 0 <= k < |links| ==> links[k] - links[0] >= CONFIRM_RESEND_SECS * k
  {
    RunsAreSound(states, actions, n);
    RunsKeepSubscribers(states, actions, n);
    SubscriberHistoryIsTheRun(states, actions, id, n);
    var links := OpenLinks(states[n], id);
    assert LinksOk(states[n], id);
    forall k: nat | k < |links|
      ensures links[k] - links[0] >= CONFIRM_RESEND_SECS * k
    {
      ApartSpan(links, k);
    }
  }

  lemma {:induction false} ApartSpan(links: seq<int>, k: nat)
    requires Apart(links) && k < |links|
    ensures links[k] - links[0] >= CONFIRM_RESEND_SECS * k
  {
    if k > 0 {
      ApartSpan(links, k - 1);
    }
  }
}
