// One pass of the dispatcher with nothing falling in between (src/subscriptions/dispatch.rs):
// computed turn by turn, and said on the columns of the tables before and after.

module Passes {
  import opened Basics
  import opened Backoff
  import opened FailureWindow
  import opened Ledger
  import opened LedgerEffects
  import opened Delivery

  /** What a row's turn meets: its channel is switched off, its payload does not parse,
      pacing holds it back, or the channel answers. */
  datatype Answer = SwitchedOff | Unreadable | HeldBack | Answered(outcome: Outcome)

  datatype Stats = Stats(sent: nat, retried: nat, givenUp: nat, quarantined: nat, removed: nat)

  /** One row's turn with nothing falling in between. */
  function HandleItem(db: Db, item: Item, a: Answer, now: int): Db {
    if a.SwitchedOff? then db
    else
      match PlanFor(item, now)
      case LeaveIt => db
      case GiveItUp => GiveUp(db, item.row, now)
      case SendIt =>
        if a.Unreadable? && item.kind.News? then GiveUp(db, item.row, now)
        else if a.Answered? then Settled(db, item, a.outcome, now)
        else db
  }

  /** All that follows a send, with nothing falling in between. */
  function Settled(db: Db, item: Item, o: Outcome, now: int): Db {
    var counted := SettleFirst(db, item, o, now);
    var quarantined := if AfterFirst(db, item, o, now).AtLimit? then Quarantine(counted, item.sid, now) else counted;
    SettleLast(quarantined, item, o, now)
  }

  function HandleUpTo(db: Db, items: seq<Item>, answers: seq<Answer>, now: int, n: nat): Db
    requires n <= |items| <= |answers|
  {
    if n == 0 then db
    else HandleItem(HandleUpTo(db, items, answers, now, n - 1), items[n - 1], answers[n - 1], now)
  }

  /** How many of the first `n` rows are handed to their channel, or given up unread. */
  function Finished(items: seq<Item>, answers: seq<Answer>, now: int, n: nat): nat
    requires n <= |items| <= |answers|
  {
    if n == 0 then 0
    else
      var item, a := items[n - 1], answers[n - 1];
      Finished(items, answers, now, n - 1)
      + if PlanFor(item, now).SendIt? && (a.Answered? || (a.Unreadable? && item.kind.News?)) then 1 else 0
  }

  predicate NewlyQuarantines(db: Db, item: Item, o: Outcome, now: int) {
    && Counts(o) && item.sid in db.subs && !db.subs[item.sid].status.Quarantined?
    && CountFailure(db.subs[item.sid].window, now).failures >= QUARANTINE_FAILURES
  }

  /** What one turn adds to the statistics. */
  function Tallied(before: Stats, db: Db, item: Item, a: Answer, now: int): Stats {
    if a.SwitchedOff? || !PlanFor(item, now).SendIt? || a.HeldBack? then before
    else if a.Unreadable? then if item.kind.News? then before.(givenUp := before.givenUp + 1) else before
    else SettledStats(before, db, item, a.outcome, now)
  }

  function SettledStats(before: Stats, db: Db, item: Item, o: Outcome, now: int): Stats {
    if o.Delivered? then before.(sent := before.sent + 1)
    else if o.Gone? then before.(removed := before.removed + 1)
    else
      var s := if NewlyQuarantines(db, item, o, now) then before.(quarantined := before.quarantined + 1) else before;
      if o.Permanent? || item.attempts + 1 >= MAX_ATTEMPTS then s.(givenUp := s.givenUp + 1)
      else s.(retried := s.retried + 1)
  }

  function TalliedUpTo(db: Db, items: seq<Item>, answers: seq<Answer>, now: int, n: nat): (stats: Stats)
    requires n <= |items| <= |answers|
  {
    if n == 0 then Stats(0, 0, 0, 0, 0)
    else
      Tallied(TalliedUpTo(db, items, answers, now, n - 1), HandleUpTo(db, items, answers, now, n - 1),
              items[n - 1], answers[n - 1], now)
  }

  /** Every row handed over or given up unread is in one of four statistics. */
  lemma {:induction false} FinishedIsTallied(db: Db, items: seq<Item>, answers: seq<Answer>, now: int, n: nat)
    requires n <= |items| <= |answers|
    ensures var stats := TalliedUpTo(db, items, answers, now, n);
            stats.sent + stats.retried + stats.givenUp + stats.removed == Finished(items, answers, now, n)
  {
    hide HandleUpTo, NewlyQuarantines;
    if n > 0 {
      FinishedIsTallied(db, items, answers, now, n - 1);
    }
  }

  // ---- What a turn does, on the tables ----

  /** A confirmation is wanted while its subscriber is pending and the link works, an event
      while it is active. */
  predicate Wanted(kind: Kind, status: Status, expires: Option<int>, now: int) {
    if kind.Confirmation? then status.Pending? && expires.Some? && expires.value > now else status.Active?
  }

  /** Counting a failure: a window that is unset or an hour old starts over. */
  function CountedOnce(w: Counter, now: int): Counter {
    if w.start.Some? && now < w.start.value + QUARANTINE_WINDOW_SECS then Counter(w.start, w.failures + 1)
    else Counter(Some(now), 1)
  }

  /** A row whose send failed: given up if it never can work or was the eighth attempt,
      otherwise put off by the doubling schedule, or longer if the service asked. */
  function FailedRow(row: Row, o: Outcome, attempts: nat, now: int): Row
    requires attempts >= 1
  {
    if o == Permanent || attempts >= MAX_ATTEMPTS then row.(failedAt := Some(now), attempts := attempts)
    else
      var delay := Min(RETRY_CAP_SECS, RETRY_BASE_SECS * Pow2(attempts - 1));
      var asked := if o.RateLimited? then o.secs else 0;
      row.(nextAttemptAt := now + Max(delay, asked), attempts := attempts)
  }

  function SentRow(row: Row, attempts: nat, now: int): Row {
    row.(sentAt := Some(now), attempts := attempts)
  }

  function GivenUpRow(row: Row, now: int): Row {
    row.(failedAt := Some(now))
  }

  /** A subscriber whose send failed: some failures count, and the tenth quarantines. */
  function FailedSub(s: Subscriber, o: Outcome, now: int): Subscriber {
    if o != Permanent && o != Outcome.Counted then s
    else
      var w := CountedOnce(s.window, now);
      if w.failures >= QUARANTINE_FAILURES && s.status != Quarantined
      then s.(window := w, status := Quarantined, quarantinedAt := Some(now))
      else s.(window := w)
  }

  function ServedSub(s: Subscriber): Subscriber {
    if s.window.failures > 0 then s.(window := NO_FAILURES) else s
  }

  /** The map with the value of `k`, if it has one, changed. */
  function Changed<T>(m: map<int, T>, k: int, f: T -> T): map<int, T> {
    if k in m then m[k := f(m[k])] else m
  }

  ghost predicate Removed(a: Db, b: Db, id: int) {
    && (forall j :: j in b.subs <==> j in a.subs && j != id)
    && (forall j :: j in b.subs ==> b.subs[j] == a.subs[j])
    && (forall r :: r in b.outbox <==> r in a.outbox && a.outbox[r].sub != id)
    && (forall r :: r in b.outbox ==> b.outbox[r] == a.outbox[r])
    && b.nextSub == a.nextSub && b.nextRow == a.nextRow
  }

  /** What all the statements after a send come to. */
  ghost predicate SendRecorded(a: Db, b: Db, item: Item, o: Outcome, now: int) {
    var attempts := item.attempts + 1;
    if o == Gone then Removed(a, b, item.sid)
    else if o == Delivered then
      b == a.(outbox := Changed(a.outbox, item.row, (row: Row) => SentRow(row, attempts, now)),
              subs := Changed(a.subs, item.sid, ServedSub))
    else
      b == a.(outbox := Changed(a.outbox, item.row, (row: Row) => FailedRow(row, o, attempts, now)),
              subs := Changed(a.subs, item.sid, (s: Subscriber) => FailedSub(s, o, now)))
  }

  /** Wanted by its snapshot, and the channel answered. */
  predicate HandedOver(item: Item, a: Answer, now: int) {
    Wanted(item.kind, item.status, item.expires, now) && a.Answered?
  }

  ghost predicate TurnDone(a: Db, b: Db, item: Item, answer: Answer, now: int) {
    var wanted := Wanted(item.kind, item.status, item.expires, now);
    if HandedOver(item, answer, now) then SendRecorded(a, b, item, answer.outcome, now)
    else if (item.kind.Confirmation? && !wanted && !answer.SwitchedOff?)
         || (item.kind.News? && wanted && answer.Unreadable?)
      then b == a.(outbox := Changed(a.outbox, item.row, (row: Row) => GivenUpRow(row, now)))
    else b == a
  }

  lemma {:induction false} CountedOnceIs(w: Counter, now: int)
    ensures CountFailure(w, now) == CountedOnce(w, now)
  {
  }

  lemma {:induction false} FailureCounted(db: Db, item: Item, o: Outcome, now: int)
    requires !o.Delivered? && !o.Gone?
    ensures (if AfterFirst(db, item, o, now).AtLimit? then Quarantine(SettleFirst(db, item, o, now), item.sid, now)
             else SettleFirst(db, item, o, now))
         == db.(subs := Changed(db.subs, item.sid, (s: Subscriber) => FailedSub(s, o, now)))
  {
    if item.sid in db.subs {
      CountedOnceIs(db.subs[item.sid].window, now);
    }
    hide CountFailure, CountedOnce;
  }

  lemma {:induction false} FailureWritten(db: Db, item: Item, o: Outcome, now: int)
    requires !o.Delivered? && !o.Gone?
    ensures SettleLast(db, item, o, now)
         == db.(outbox := Changed(db.outbox, item.row, (row: Row) => FailedRow(row, o, item.attempts + 1, now)))
  {
    RetryDelayIsExact(item.attempts + 1);
    hide RetryDelay, Pow2;
  }

  lemma {:induction false} SettledDoes(db: Db, item: Item, o: Outcome, now: int)
    ensures SendRecorded(db, Settled(db, item, o, now), item, o, now)
  {
    if !o.Delivered? && !o.Gone? {
      FailureCounted(db, item, o, now);
      FailureWritten(db.(subs := Changed(db.subs, item.sid, (s: Subscriber) => FailedSub(s, o, now))), item, o, now);
      hide SettleFirst, SettleLast, Quarantine, AfterFirst, Changed;
    } else {
      hide Quarantine, CountFailure, RetryDelay;
    }
  }

  lemma {:induction false} TurnDoes(db: Db, item: Item, a: Answer, now: int)
    ensures TurnDone(db, HandleItem(db, item, a, now), item, a, now)
  {
    if HandedOver(item, a, now) {
      SettledDoes(db, item, a.outcome, now);
    }
    hide Settled, SendRecorded;
  }

  // ---- What a pass does to the rows it read ----

  /** A row after its turn, from its columns and its subscriber's when the batch was read. */
  function RowAfter(row: Row, sub: Subscriber, a: Answer, now: int): Row {
    if Wanted(row.kind, sub.status, sub.confirmExpires, now) then
      match a
      case Answered(Delivered) => SentRow(row, row.attempts + 1, now)
      case Answered(Gone) => row
      case Answered(o) => FailedRow(row, o, row.attempts + 1, now)
      case Unreadable => if row.kind.News? then GivenUpRow(row, now) else row
      case _ => row
    else if row.kind.Confirmation? && !a.SwitchedOff? then GivenUpRow(row, now)
    else row
  }

  /** In one of the first `n` turns the channel says that the subscriber is gone. */
  ghost predicate GoneBy(items: seq<Item>, answers: seq<Answer>, now: int, id: int, n: nat)
    requires n <= |items| <= |answers|
  {
    exists i :: 0 <= i < n && items[i].sid == id && HandedOver(items[i], answers[i], now) && answers[i].outcome == Gone
  }

  /** Subscribers that are gone go with their rows; of the others' rows, those of the first
      `n` turns are as their turn left them, and the rest as they were. */
  ghost predicate PassDone(a: Db, b: Db, items: seq<Item>, answers: seq<Answer>, now: int, n: nat)
    requires n <= |items| <= |answers|
  {
    && (forall id :: id in b.subs <==> id in a.subs && !GoneBy(items, answers, now, id, n))
    && (forall r :: r in b.outbox <==> r in a.outbox && !GoneBy(items, answers, now, a.outbox[r].sub, n))
    && (forall i :: 0 <= i < |items| && items[i].row in b.outbox && items[i].row in a.outbox
                    && a.outbox[items[i].row].sub in a.subs ==>
          b.outbox[items[i].row] ==
            if i < n then RowAfter(a.outbox[items[i].row], a.subs[a.outbox[items[i].row].sub], answers[i], now)
            else a.outbox[items[i].row])
    && (forall r :: r in b.outbox && r in a.outbox && !RowIn(items, r) ==> b.outbox[r] == a.outbox[r])
    && b.nextSub == a.nextSub && b.nextRow == a.nextRow
  }

  /** Each item is of a row of its own and agrees with the tables. */
  ghost predicate Snapshot(a: Db, items: seq<Item>) {
    && (forall i :: 0 <= i < |items| ==>
          && items[i].row in a.outbox && a.outbox[items[i].row].sub in a.subs
          && var row, sub := a.outbox[items[i].row], a.subs[a.outbox[items[i].row].sub];
             && items[i].sid == row.sub && items[i].kind == row.kind && items[i].attempts == row.attempts
             && items[i].status == sub.status && items[i].expires == sub.confirmExpires)
    && (forall i, j :: 0 <= i < j < |items| ==> items[i].row != items[j].row)
  }

  lemma {:induction false} GoneMore(items: seq<Item>, answers: seq<Answer>, now: int, id: int, n: nat)
    requires n < |items| <= |answers|
    ensures GoneBy(items, answers, now, id, n + 1) <==>
              || GoneBy(items, answers, now, id, n)
              || (items[n].sid == id && HandedOver(items[n], answers[n], now) && answers[n].outcome == Gone)
  {
  }

  /** A turn touches the row of its item only, unless it removes a subscriber. */
  lemma {:induction false} TurnTouches(b: Db, c: Db, item: Item, a: Answer, now: int)
    requires TurnDone(b, c, item, a, now)
    ensures c.nextSub == b.nextSub && c.nextRow == b.nextRow
    ensures var gone := HandedOver(item, a, now) && a.outcome == Gone;
            && (forall id :: id in c.subs <==> id in b.subs && !(gone && id == item.sid))
            && (forall r :: r in c.outbox <==> r in b.outbox && !(gone && b.outbox[r].sub == item.sid))
            && (forall r :: r in c.outbox && r != item.row ==> c.outbox[r] == b.outbox[r])
  {
    hide FailedRow, FailedSub, ServedSub;
  }

  /** And leaves that as it should be, if the item agrees with the row. */
  lemma {:induction false} TurnLeavesRow(b: Db, c: Db, item: Item, a: Answer, now: int, row: Row, sub: Subscriber)
    requires TurnDone(b, c, item, a, now) && item.row in b.outbox && b.outbox[item.row] == row
    requires item.sid == row.sub && item.kind == row.kind && item.attempts == row.attempts
    requires item.status == sub.status && item.expires == sub.confirmExpires
    ensures item.row in c.outbox ==>
              c.outbox[item.row] == RowAfter(row, sub, a, now) && c.outbox[item.row].sub == row.sub
  {
    hide FailedSub, ServedSub;
  }

  lemma {:induction false} PassGoesOn(
    a: Db, b: Db, c: Db, items: seq<Item>, answers: seq<Answer>, now: int, n: nat)
    requires n < |items| <= |answers| && Snapshot(a, items)
    requires forall r :: r in a.outbox ==> a.outbox[r].sub in a.subs
    requires PassDone(a, b, items, answers, now, n) && TurnDone(b, c, items[n], answers[n], now)
    requires SameSubs(a, b)
    ensures PassDone(a, c, items, answers, now, n + 1)
    ensures SameSubs(a, c)
  {
    var item := items[n];
    TurnTouches(b, c, item, answers[n], now);
    if item.row in b.outbox {
      TurnLeavesRow(b, c, item, answers[n], now, a.outbox[item.row], a.subs[a.outbox[item.row].sub]);
    }
    forall id
      ensures GoneBy(items, answers, now, id, n + 1) <==>
                || GoneBy(items, answers, now, id, n)
                || (items[n].sid == id && HandedOver(items[n], answers[n], now) && answers[n].outcome == Gone)
    {
      GoneMore(items, answers, now, id, n);
    }
    assert RowIn(items, items[n].row);
    hide GoneBy, RowAfter, RowIn, TurnDone, HandedOver;
  }

  lemma {:induction false} PassStarts(a: Db, items: seq<Item>, answers: seq<Answer>, now: int)
    requires |items| <= |answers|
    requires forall r :: r in a.outbox ==> a.outbox[r].sub in a.subs
    ensures PassDone(a, a, items, answers, now, 0)
  {
  }

  /** Rows keep their subscriber. */
  ghost predicate SameSubs(a: Db, b: Db) {
    forall r :: r in b.outbox ==> r in a.outbox && b.outbox[r].sub == a.outbox[r].sub
  }

  lemma {:induction false} PassNext(a: Db, items: seq<Item>, answers: seq<Answer>, now: int, n: nat)
    requires n < |items| <= |answers| && Snapshot(a, items)
    requires forall r :: r in a.outbox ==> a.outbox[r].sub in a.subs
    requires SameSubs(a, HandleUpTo(a, items, answers, now, n))
    requires PassDone(a, HandleUpTo(a, items, answers, now, n), items, answers, now, n)
    ensures SameSubs(a, HandleUpTo(a, items, answers, now, n + 1))
    ensures PassDone(a, HandleUpTo(a, items, answers, now, n + 1), items, answers, now, n + 1)
  {
    hide Snapshot, PassDone, TurnDone, HandleItem;
    var b, c := HandleUpTo(a, items, answers, now, n), HandleUpTo(a, items, answers, now, n + 1);
    TurnDoes(b, items[n], answers[n], now);
    PassGoesOn(a, b, c, items, answers, now, n);
  }

  lemma {:induction false} PassDoes(a: Db, items: seq<Item>, answers: seq<Answer>, now: int, n: nat)
    requires n <= |items| <= |answers| && Snapshot(a, items)
    requires forall r :: r in a.outbox ==> a.outbox[r].sub in a.subs
    ensures PassDone(a, HandleUpTo(a, items, answers, now, n), items, answers, now, n)
    ensures SameSubs(a, HandleUpTo(a, items, answers, now, n))
    decreases n
  {
    if n == 0 {
      PassStarts(a, items, answers, now);
    } else {
      hide Snapshot, PassDone, SameSubs;
      PassDoes(a, items, answers, now, n - 1);
      PassNext(a, items, answers, now, n - 1);
    }
  }

  // ---- The batch ----

  /** A row neither sent nor given up whose time has come, of a subscriber that is not
      quarantined, on a channel that is switched on. */
  predicate IsDue(a: Db, r: int, now: int, channels: set<string>) {
    && r in a.outbox && a.outbox[r].sentAt.None? && a.outbox[r].failedAt.None? && a.outbox[r].nextAttemptAt <= now
    && a.outbox[r].sub in a.subs
    && var sub := a.subs[a.outbox[r].sub];
       (sub.status.Pending? || sub.status.Active?) && sub.channel in channels
  }

  /** The first 100 due rows by id, each as the tables have it. */
  ghost predicate IsRead(a: Db, items: seq<Item>, now: int, channels: set<string>) {
    && Snapshot(a, items)
    && (forall i :: 0 <= i < |items| ==> IsDue(a, items[i].row, now, channels))
    && (forall i, j :: 0 <= i < j < |items| ==> items[i].row < items[j].row)
    && |items| <= 100
    && (forall r :: IsDue(a, r, now, channels) ==>
          (exists i :: 0 <= i < |items| && items[i].row == r)
          || (|items| == 100 && forall i :: 0 <= i < |items| ==> items[i].row < r))
  }

  lemma {:induction false} BatchIsRead(a: Db, items: seq<Item>, now: int, channels: set<string>)
    requires IsBatch(items, a, now, channels)
    ensures IsRead(a, items, now, channels)
  {
    forall r
      ensures IsDue(a, r, now, channels) <==> Due(a, r, now, channels)
    {
    }
    assert forall r :: RowIn(items, r) <==> exists i :: 0 <= i < |items| && items[i].row == r;
    hide Due, IsDue;
  }

  /** So a confirmation read while its subscriber was pending and the link good, and
      delivered, is recorded as sent; and one is given up untried exactly if its
      subscriber was read otherwise. An event of an active subscriber is handed over
      whenever its payload parses and the channel answers. */
  lemma {:induction false} ConfirmationsGoOut(
    a: Db, b: Db, items: seq<Item>, answers: seq<Answer>, now: int, i: nat)
    requires |items| <= |answers| && Snapshot(a, items) && PassDone(a, b, items, answers, now, |items|)
    requires i < |items| && items[i].row in b.outbox
    ensures var row, after := a.outbox[items[i].row], b.outbox[items[i].row];
            var sub := a.subs[row.sub];
            && (row.kind.Confirmation? && answers[i] == Answered(Delivered)
                && sub.status == Pending && sub.confirmExpires.Some? && sub.confirmExpires.value > now ==>
                  after.sentAt == Some(now) && after.attempts == row.attempts + 1)
            && (row.kind.Confirmation? && row.failedAt == None && answers[i] != SwitchedOff ==>
                  ((after.failedAt == Some(now) && after.attempts == row.attempts) <==>
                    sub.status != Pending || sub.confirmExpires.None? || sub.confirmExpires.value <= now))
            && (row.kind.News? && sub.status == Active && answers[i].Answered? ==>
                  after.attempts == row.attempts + 1)
  {
  }

  // ---- What a pass counts ----

  /** The send failed and its row was given up. */
  predicate FailsForGood(item: Item, o: Outcome) {
    o != Delivered && o != Gone && (o == Permanent || item.attempts + 1 >= MAX_ATTEMPTS)
  }

  predicate IsSent(item: Item, a: Answer, now: int) {
    HandedOver(item, a, now) && a.outcome == Delivered
  }

  predicate IsRemoved(item: Item, a: Answer, now: int) {
    HandedOver(item, a, now) && a.outcome == Gone
  }

  predicate IsGivenUp(item: Item, a: Answer, now: int) {
    || (HandedOver(item, a, now) && FailsForGood(item, a.outcome))
    || (a.Unreadable? && item.kind.News? && Wanted(item.kind, item.status, item.expires, now))
  }

  predicate IsRetried(item: Item, a: Answer, now: int) {
    HandedOver(item, a, now) && a.outcome != Delivered && a.outcome != Gone && !FailsForGood(item, a.outcome)
  }

  /** The turn quarantined its subscriber. */
  predicate Quarantines(a: Db, b: Db, id: int) {
    && id in a.subs && a.subs[id].status != Quarantined
    && id in b.subs && b.subs[id].status == Quarantined
  }

  /** How many of the first `n` turns satisfy `p`. */
  function Turns(p: nat -> bool, n: nat): nat {
    |set i: nat | i < n && p(i)|
  }

  lemma {:induction false} TurnsMore(p: nat -> bool, n: nat)
    ensures Turns(p, 0) == 0
    ensures Turns(p, n + 1) == Turns(p, n) + if p(n) then 1 else 0
  {
    var before, after := set i: nat | i < n && p(i), set i: nat | i < n + 1 && p(i);
    assert (set i: nat | i < 0 && p(i)) == {};
    assert after == if p(n) then before + {n} else before;
  }

  function SentAt(items: seq<Item>, answers: seq<Answer>, now: int): nat -> bool {
    (i: nat) => i < |items| <= |answers| && IsSent(items[i], answers[i], now)
  }

  function RetriedAt(items: seq<Item>, answers: seq<Answer>, now: int): nat -> bool {
    (i: nat) => i < |items| <= |answers| && IsRetried(items[i], answers[i], now)
  }

  function GivenUpAt(items: seq<Item>, answers: seq<Answer>, now: int): nat -> bool {
    (i: nat) => i < |items| <= |answers| && IsGivenUp(items[i], answers[i], now)
  }

  function RemovedAt(items: seq<Item>, answers: seq<Answer>, now: int): nat -> bool {
    (i: nat) => i < |items| <= |answers| && IsRemoved(items[i], answers[i], now)
  }

  function QuarantinesAt(db: Db, items: seq<Item>, answers: seq<Answer>, now: int): nat -> bool {
    (i: nat) =>
      i < |items| <= |answers|
      && Quarantines(HandleUpTo(db, items, answers, now, i), HandleUpTo(db, items, answers, now, i + 1), items[i].sid)
  }

  /** Each statistic is the number of turns it counts. */
  ghost predicate CountsTurns(stats: Stats, db: Db, items: seq<Item>, answers: seq<Answer>, now: int, n: nat) {
    && stats.sent == Turns(SentAt(items, answers, now), n)
    && stats.retried == Turns(RetriedAt(items, answers, now), n)
    && stats.givenUp == Turns(GivenUpAt(items, answers, now), n)
    && stats.removed == Turns(RemovedAt(items, answers, now), n)
    && stats.quarantined == Turns(QuarantinesAt(db, items, answers, now), n)
  }

  lemma {:induction false} TurnTallies(before: Stats, db: Db, item: Item, a: Answer, now: int)
    ensures Noted(before, Tallied(before, db, item, a, now), item, a, now,
                  Quarantines(db, HandleItem(db, item, a, now), item.sid))
  {
    hide RetryDelay, CountFailure;
  }

  /** A turn of which each statistic is noted. */
  ghost predicate Noted(before: Stats, after: Stats, item: Item, a: Answer, now: int, quarantined: bool) {
    && after.sent == before.sent + (if IsSent(item, a, now) then 1 else 0)
    && after.retried == before.retried + (if IsRetried(item, a, now) then 1 else 0)
    && after.givenUp == before.givenUp + (if IsGivenUp(item, a, now) then 1 else 0)
    && after.removed == before.removed + (if IsRemoved(item, a, now) then 1 else 0)
    && after.quarantined == before.quarantined + (if quarantined then 1 else 0)
  }

  lemma {:induction false} CountsMore(
    before: Stats, after: Stats, db: Db, items: seq<Item>, answers: seq<Answer>, now: int, n: nat)
    requires n < |items| <= |answers| && CountsTurns(before, db, items, answers, now, n)
    requires Noted(before, after, items[n], answers[n], now, QuarantinesAt(db, items, answers, now)(n))
    ensures CountsTurns(after, db, items, answers, now, n + 1)
  {
    hide Turns, IsSent, IsRetried, IsGivenUp, IsRemoved, QuarantinesAt;
    TurnsMore(SentAt(items, answers, now), n);
    TurnsMore(RetriedAt(items, answers, now), n);
    TurnsMore(GivenUpAt(items, answers, now), n);
    TurnsMore(RemovedAt(items, answers, now), n);
    TurnsMore(QuarantinesAt(db, items, answers, now), n);
  }

  lemma {:induction false} TurnIsNoted(db: Db, items: seq<Item>, answers: seq<Answer>, now: int, n: nat)
    requires n < |items| <= |answers|
    ensures Noted(TalliedUpTo(db, items, answers, now, n), TalliedUpTo(db, items, answers, now, n + 1),
                  items[n], answers[n], now, QuarantinesAt(db, items, answers, now)(n))
  {
    var before, at := TalliedUpTo(db, items, answers, now, n), HandleUpTo(db, items, answers, now, n);
    TurnTallies(before, at, items[n], answers[n], now);
    hide Noted, Tallied, Quarantines, HandleItem;
  }

  lemma {:induction false} TurnCounts(db: Db, items: seq<Item>, answers: seq<Answer>, now: int, n: nat)
    requires n < |items| <= |answers|
    requires CountsTurns(TalliedUpTo(db, items, answers, now, n), db, items, answers, now, n)
    ensures CountsTurns(TalliedUpTo(db, items, answers, now, n + 1), db, items, answers, now, n + 1)
  {
    hide *;
    TurnIsNoted(db, items, answers, now, n);
    CountsMore(TalliedUpTo(db, items, answers, now, n), TalliedUpTo(db, items, answers, now, n + 1),
               db, items, answers, now, n);
  }

  lemma {:induction false} PassCounts(db: Db, items: seq<Item>, answers: seq<Answer>, now: int, n: nat)
    requires n <= |items| <= |answers|
    ensures CountsTurns(TalliedUpTo(db, items, answers, now, n), db, items, answers, now, n)
    decreases n
  {
    if n == 0 {
      NoneCounted(db, items, answers, now);
    } else {
      hide CountsTurns;
      PassCounts(db, items, answers, now, n - 1);
      TurnCounts(db, items, answers, now, n - 1);
    }
  }

  lemma {:induction false} NoneCounted(db: Db, items: seq<Item>, answers: seq<Answer>, now: int)
    ensures CountsTurns(Stats(0, 0, 0, 0, 0), db, items, answers, now, 0)
  {
    TurnsMore(SentAt(items, answers, now), 0);
    TurnsMore(RetriedAt(items, answers, now), 0);
    TurnsMore(GivenUpAt(items, answers, now), 0);
    TurnsMore(RemovedAt(items, answers, now), 0);
    TurnsMore(QuarantinesAt(db, items, answers, now), 0);
    hide Turns;
  }

  lemma {:induction false} PassDoesAll(
    db: Db, items: seq<Item>, answers: seq<Answer>, now: int, channels: set<string>)
    requires TablesOk(db) && IsBatch(items, db, now, channels) && |items| <= |answers|
    ensures PassDone(db, HandleUpTo(db, items, answers, now, |items|), items, answers, now, |items|)
    ensures CountsTurns(TalliedUpTo(db, items, answers, now, |items|), db, items, answers, now, |items|)
  {
    BatchIsRead(db, items, now, channels);
    hide AddressesUnique, TokensOk, PlaceholdersOwn, PendingIsQuiet, OneConfirmation, PassDone, CountsTurns;
    PassDoes(db, items, answers, now, |items|);
    PassCounts(db, items, answers, now, |items|);
  }
}
