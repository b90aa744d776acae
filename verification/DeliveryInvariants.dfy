// What holds of every outbox row in every run of the dispatcher, however the outside
// transactions and the crashes fall.

module DeliveryInvariants {
  import opened Basics
  import opened Backoff
  import opened FailureWindow
  import opened Ledger
  import opened LedgerInvariants
  import opened Delivery

  function Tries(s: State, r: int): seq<Try> { At(s.hist.tries, r, []) }
  function Successes(s: State, r: int): nat { At(s.hist.successes, r, 0) }
  function Lost(s: State, r: int): nat { At(s.hist.lost, r, 0) }

  /** `r` is in the batch and has not been sent in it. */
  ghost predicate Waiting(w: Work, r: int) {
    exists i :: 0 <= i < |w.todo| && w.todo[i].row == r && (i > 0 || w.phase.Ready?)
  }

  predicate Flying(w: Work, r: int) {
    InFlight(w) && w.todo[0].row == r
  }

  // ---- How tries follow each other ----

  /** The wait a failed try is followed by: the schedule's, or the service's if longer. */
  function WaitAfter(t: Try): int {
    Max(RetryDelay(t.attempt), t.asked)
  }

  /** A row with so many recorded attempts may be tried at `batch` after `t`: as the next
      attempt once the wait has passed, reckoned from the time before `t`'s batch, or as
      the same attempt if a crash lost `t`. */
  predicate MayFollow(t: Try, attempts: nat, batch: int) {
    attempts + 1 == t.attempt || (attempts == t.attempt && t.batch + WaitAfter(t) <= batch)
  }

  predicate Timed(t: Try) {
    t.attempt >= 1 && t.batch <= t.started <= t.ended <= t.started + SEND_LIMIT_SECS
  }

  /** Each try was over before the batch of the next was read, and was followed as it may be. */
  predicate Chained(tries: seq<Try>) {
    && (forall i :: 0 <= i < |tries| ==> Timed(tries[i]))
    && (forall i, j :: 0 <= i && j == i + 1 < |tries| ==>
          tries[i].ended <= tries[j].batch && MayFollow(tries[i], tries[j].attempt - 1, tries[j].batch))
  }

  predicate Numbered(tries: seq<Try>) {
    forall i :: 0 <= i < |tries| ==> tries[i].attempt == i + 1
  }

  predicate MayBeTried(tries: seq<Try>, attempts: nat, batch: int) {
    tries != [] ==> tries[|tries| - 1].ended <= batch && MayFollow(tries[|tries| - 1], attempts, batch)
  }

  lemma {:induction false} ChainedMore(tries: seq<Try>, t: Try)
    requires Chained(tries) && Timed(t) && MayBeTried(tries, t.attempt - 1, t.batch)
    ensures Chained(tries + [t])
    ensures Numbered(tries) && t.attempt == |tries| + 1 ==> Numbered(tries + [t])
  {
  }

  // ---- The invariant ----

  /** The counts of row `r`, queued or long gone. */
  ghost predicate CountsOk(s: State, r: int) {
    var tries, lost := Tries(s, r), Lost(s, r);
    && Successes(s, r) <= lost + 1
    && |tries| <= MAX_ATTEMPTS + lost
    && Chained(tries)
    && (tries != [] ==> tries[|tries| - 1].ended <= s.clock)
    && (lost == 0 ==> Numbered(tries))
    && (r >= s.db.nextRow ==> tries == [] && lost == 0 && Successes(s, r) == 0)
    && (Waiting(s.work, r) ==> Successes(s, r) <= lost)
    && (Flying(s.work, r) ==>
          && tries != []
          && tries[|tries| - 1].batch == s.work.now
          && tries[|tries| - 1].attempt == s.work.todo[0].attempts + 1
          && tries[|tries| - 1].asked == RequestedWait(s.work.phase.outcome)
          && (!s.work.phase.outcome.Delivered? ==> Successes(s, r) <= lost))
  }

  /** Row `r`, while it is in the outbox. */
  ghost predicate RowOk(s: State, r: int) {
    r in s.db.outbox ==>
      var o := s.db.outbox[r];
      var tries, lost := Tries(s, r), Lost(s, r);
      && o.attempts <= MAX_ATTEMPTS
      && (o.sentAt.None? || o.failedAt.None?)
      && (Waiting(s.work, r) || Flying(s.work, r) ==> o.Undelivered())
      && |tries| == o.attempts + lost + (if Flying(s.work, r) then 1 else 0)
      && (o.Undelivered() ==> o.attempts < MAX_ATTEMPTS)
      && (o.Undelivered() && !Flying(s.work, r) ==>
            && Successes(s, r) <= lost
            && (tries != [] ==> MayFollow(tries[|tries| - 1], o.attempts, o.nextAttemptAt)))
  }

  /** The snapshot of row `i` of the batch still agrees with the outbox on what only the
      dispatcher changes. */
  ghost predicate ItemOk(s: State, i: nat)
    requires i < |s.work.todo|
  {
    var item := s.work.todo[i];
    && item.row < s.db.nextRow
    && item.sid < s.db.nextSub
    && item.attempts < MAX_ATTEMPTS
    && (Waiting(s.work, item.row) ==> MayBeTried(Tries(s, item.row), item.attempts, s.work.now))
    && (Waiting(s.work, item.row) || Flying(s.work, item.row) ==>
          && |Tries(s, item.row)| == item.attempts + Lost(s, item.row) + (if Flying(s.work, item.row) then 1 else 0)
          && (item.row in s.db.outbox ==>
                var o := s.db.outbox[item.row];
                o.attempts == item.attempts && o.sub == item.sid && o.kind == item.kind))
  }

  ghost predicate BatchOk(s: State) {
    && (forall i, j :: 0 <= i < j < |s.work.todo| ==> s.work.todo[i].row != s.work.todo[j].row)
    && (forall i :: 0 <= i < |s.work.todo| ==> ItemOk(s, i))
    && (s.work.todo != [] ==> s.work.now <= s.clock)
    && (s.work.phase.AtLimit? ==> Counts(s.work.phase.outcome))
  }

  ghost predicate DeliveryOk(s: State) {
    && TablesOk(s.db)
    && BatchOk(s)
    && (forall r :: CountsOk(s, r))
    && (forall r :: RowOk(s, r))
  }

  lemma {:induction false} ExecuteKeeps(db: Db, t: Transaction)
    requires TablesOk(db) && Possible(db, t)
    ensures TablesOk(Execute(db, t))
    ensures OutboxFrame(db, Execute(db, t))
  {
    match t
    case TSignUp(form, now) => SignUpKeeps(db, form, now);
    case TSignUpByLink(form, now) => SignUpByLinkKeeps(db, form, now);
    case TConfirm(token, now) => ConfirmKeeps(db, token, now);
    case TUnsubscribe(token) => RemoveSubsKeeps(db, set id | id in db.subs && db.subs[id].unsubHash == token);
    case TDelete(id) => RemoveSubsKeeps(db, {id});
    case TLinkChat(token, chat, now) => LinkChatKeeps(db, token, chat, now);
    case TStopChat(chat) => RemoveSubsKeeps(db, set id | id in db.subs && Lives(db.subs, id, TELEGRAM, Known(chat)));
    case TFanOut(e, order, now) => FanOutKeeps(db, e, order, now);
    case TPruneRows(now) => PruneKeeps(db, now);
    case TPrunePending(now) => PruneKeeps(db, now);
    case TPruneQuarantined(now) => PruneKeeps(db, now);
  }

  lemma {:induction false} NotesSendNothing(
    h: History, issued: Option<(int, int)>, used: Option<int>, cleared: Option<int>)
    ensures var after := Note(h, issued, used, cleared);
            after.tries == h.tries && after.successes == h.successes && after.lost == h.lost && after.missed == h.missed
  {
  }

  /** History that delivery is about does not change outside the dispatcher. */
  lemma {:induction false} TransactionsSendNothing(h: History, db: Db, t: Transaction)
    ensures var after := NoteTransaction(h, db, t);
            after.tries == h.tries && after.successes == h.successes && after.lost == h.lost && after.missed == h.missed
  {
    hide Note, LinkIssued, LinkUsed, CounterCleared;
    NotesSendNothing(h, LinkIssued(db, t), LinkUsed(db, t), CounterCleared(db, t));
  }

  lemma {:induction false} OutsideKeeps(s: State, t: Transaction)
    requires DeliveryOk(s) && Possible(s.db, t)
    ensures DeliveryOk(Next(s, Outside(t)))
  {
    hide TablesOk, Execute, NoteTransaction;
    ExecuteKeeps(s.db, t);
    TransactionsSendNothing(s.hist, s.db, t);
    var s' := Next(s, Outside(t));
    forall r ensures CountsOk(s', r) && RowOk(s', r) {
      assert CountsOk(s, r) && RowOk(s, r);
    }
    forall i: nat | i < |s'.work.todo| ensures ItemOk(s', i) {
      assert ItemOk(s, i);
    }
  }

  lemma {:induction false} ReadBatchKeeps(s: State, now: int, channels: set<string>, items: seq<Item>)
    requires DeliveryOk(s) && Enabled(s, ReadBatch(now, channels, items))
    ensures DeliveryOk(Next(s, ReadBatch(now, channels, items)))
  {
    hide TokensOk, AddressesUnique, PlaceholdersOwn, PendingIsQuiet, OneConfirmation, Chained, Numbered, Timed,
        WaitAfter, RowIn;
    var s' := Next(s, ReadBatch(now, channels, items));
    forall r ensures CountsOk(s', r) && RowOk(s', r) {
      assert CountsOk(s, r) && RowOk(s, r);
    }
    forall i: nat | i < |items| ensures ItemOk(s', i) {
      assert Due(s.db, items[i].row, now, channels) && RowOk(s, items[i].row) && CountsOk(s, items[i].row);
    }
  }

  /** Dropping the first row of the batch leaves the others waiting. */
  lemma {:induction false} RestWaits(w: Work, r: int)
    requires w.todo != []
    requires forall i, j :: 0 <= i < j < |w.todo| ==> w.todo[i].row != w.todo[j].row
    ensures Waiting(w.(todo := w.todo[1..], phase := Ready), r) <==> Waiting(w, r) && r != w.todo[0].row
  {
    var w' := w.(todo := w.todo[1..], phase := Ready);
    if Waiting(w', r) {
      var i :| 0 <= i < |w'.todo| && w'.todo[i].row == r;
      assert w.todo[i + 1].row == r;
    }
    if Waiting(w, r) && r != w.todo[0].row {
      var i :| 0 <= i < |w.todo| && w.todo[i].row == r && (i > 0 || w.phase.Ready?);
      assert w'.todo[i - 1].row == r;
    }
  }

  /** Steps that leave the first row behind keep the batch sound. */
  lemma {:induction false} DropHeadKeepsBatch(s: State, s': State)
    requires BatchOk(s) && s.work.todo != []
    requires s'.work == s.work.(todo := s.work.todo[1..], phase := Ready) && s'.clock == s.clock
    requires s'.db.nextRow == s.db.nextRow && s'.db.nextSub == s.db.nextSub
    requires forall r :: r != s.work.todo[0].row ==>
               && Tries(s', r) == Tries(s, r) && Lost(s', r) == Lost(s, r)
               && (r in s'.db.outbox ==> r in s.db.outbox && s'.db.outbox[r] == s.db.outbox[r])
    ensures BatchOk(s')
  {
    forall i: nat | i < |s'.work.todo| ensures ItemOk(s', i) {
      assert ItemOk(s, i + 1);
      RestWaits(s.work, s'.work.todo[i].row);
      assert Waiting(s.work, s.work.todo[i + 1].row);
    }
  }

  lemma {:induction false} SkipKeeps(s: State)
    requires DeliveryOk(s) && Enabled(s, Skip)
    ensures DeliveryOk(Next(s, Skip))
  {
    var s' := Next(s, Skip);
    DropHeadKeepsBatch(s, s');
    forall r ensures CountsOk(s', r) && RowOk(s', r) {
      assert CountsOk(s, r) && RowOk(s, r);
      RestWaits(s.work, r);
    }
  }

  lemma {:induction false} GiveUpKeeps(s: State)
    requires DeliveryOk(s) && Enabled(s, GiveUpHead)
    ensures DeliveryOk(Next(s, GiveUpHead))
  {
    hide TablesOk;
    var s' := Next(s, GiveUpHead);
    var head := s.work.todo[0].row;
    assert Waiting(s.work, head);
    MarksKeep(s.db, head, 0, s.work.now);
    DropHeadKeepsBatch(s, s');
    forall r ensures CountsOk(s', r) && RowOk(s', r) {
      assert CountsOk(s, r) && RowOk(s, r);
      RestWaits(s.work, r);
    }
  }

  lemma {:induction false} SendKeepsCounts(s: State, o: Outcome, started: int, ended: int, r: int)
    requires DeliveryOk(s) && Enabled(s, Send(o, started, ended))
    ensures CountsOk(Next(s, Send(o, started, ended)), r)
  {
    hide TablesOk, Chained, Numbered, MayFollow, WaitAfter, RetryDelay;
    var s' := Next(s, Send(o, started, ended));
    var item := s.work.todo[0];
    var try := Try(item.attempts + 1, s.work.now, started, ended, RequestedWait(o));
    assert Waiting(s.work, item.row) && ItemOk(s, 0);
    assert CountsOk(s, r);
    assert Waiting(s'.work, r) <==> Waiting(s.work, r) && r != item.row;
    if r == item.row {
      ChainedMore(Tries(s, r), try);
      assert Tries(s', r) == Tries(s, r) + [try];
    } else {
      assert Tries(s', r) == Tries(s, r);
    }
  }

  lemma {:induction false} SendKeepsRow(s: State, o: Outcome, started: int, ended: int, r: int)
    requires DeliveryOk(s) && Enabled(s, Send(o, started, ended))
    ensures RowOk(Next(s, Send(o, started, ended)), r)
  {
    hide TablesOk, Chained, Numbered, MayFollow, WaitAfter, RetryDelay, Timed;
    var s' := Next(s, Send(o, started, ended));
    var item := s.work.todo[0];
    assert Waiting(s.work, item.row) && ItemOk(s, 0);
    assert RowOk(s, r);
    assert Waiting(s'.work, r) <==> Waiting(s.work, r) && r != item.row;
    assert |Tries(s', r)| == |Tries(s, r)| + (if r == item.row then 1 else 0);
    assert r != item.row ==> Tries(s', r) == Tries(s, r);
  }

  lemma {:induction false} SendKeeps(s: State, o: Outcome, started: int, ended: int)
    requires DeliveryOk(s) && Enabled(s, Send(o, started, ended))
    ensures DeliveryOk(Next(s, Send(o, started, ended)))
  {
    hide TablesOk;
    var s' := Next(s, Send(o, started, ended));
    var head := s.work.todo[0].row;
    assert Waiting(s.work, head);
    assert ItemOk(s, 0) && CountsOk(s, head);
    forall r ensures CountsOk(s', r) && RowOk(s', r) {
      SendKeepsCounts(s, o, started, ended, r);
      SendKeepsRow(s, o, started, ended, r);
    }
    hide CountsOk, RowOk, MayBeTried;
    forall i: nat | i < |s'.work.todo| ensures ItemOk(s', i) {
      assert ItemOk(s, i);
      assert Waiting(s'.work, s'.work.todo[i].row) <==> Waiting(s.work, s'.work.todo[i].row) && i != 0;
    }
  }

  lemma {:induction false} SettleFirstKeepsTables(db: Db, item: Item, o: Outcome, now: int)
    requires TablesOk(db)
    ensures TablesOk(SettleFirst(db, item, o, now))
  {
    hide TablesOk;
    MarksKeep(db, item.row, item.attempts + 1, now);
    RemoveSubsKeeps(db, {item.sid});
    CountersKeep(db, item.sid, now);
  }

  lemma {:induction false} SettleLastKeepsTables(db: Db, item: Item, o: Outcome, now: int)
    requires TablesOk(db)
    ensures TablesOk(SettleLast(db, item, o, now))
  {
    hide TablesOk;
    var attempts := item.attempts + 1;
    MarksKeep(db, item.row, attempts, now);
    MarksKeep(db, item.row, attempts, now + Max(RetryDelay(attempts), RequestedWait(o)));
    CountersKeep(db, item.sid, now);
  }

  /** What the first write does to the outbox. */
  lemma {:induction false} SettleFirstRows(db: Db, item: Item, o: Outcome, now: int)
    ensures var after := SettleFirst(db, item, o, now);
            && after.nextRow == db.nextRow && after.nextSub == db.nextSub
            && (forall r :: r in after.outbox ==> r in db.outbox)
            && (forall r :: r in after.outbox && r != item.row ==> after.outbox[r] == db.outbox[r])
            && (item.row in after.outbox ==>
                  after.outbox[item.row] ==
                  if o.Delivered? then db.outbox[item.row].(sentAt := Some(now), attempts := item.attempts + 1)
                  else db.outbox[item.row])
            && (forall r :: r in db.outbox && (!o.Gone? || db.outbox[r].sub != item.sid) ==> r in after.outbox)
            && (o.Gone? ==>
                  item.sid !in after.subs && forall r :: r in after.outbox ==> after.outbox[r].sub != item.sid)
  {
  }

  lemma {:induction false} FirstWriteKeepsCounts(s: State, r: int)
    requires DeliveryOk(s) && Enabled(s, FirstWrite)
    ensures CountsOk(Next(s, FirstWrite), r)
  {
    hide TablesOk, BatchOk, RowOk, Chained, Numbered;
    var s' := Next(s, FirstWrite);
    var item := s.work.todo[0];
    SettleFirstRows(s.db, item, s.work.phase.outcome, s.work.now);
    hide SettleFirst;
    assert CountsOk(s, r);
    assert Waiting(s'.work, r) <==> Waiting(s.work, r);
    assert Tries(s', r) == Tries(s, r) && Successes(s', r) == Successes(s, r) && Lost(s', r) == Lost(s, r);
  }

  lemma {:induction false} FirstWriteKeepsRow(s: State, r: int)
    requires DeliveryOk(s) && Enabled(s, FirstWrite)
    ensures RowOk(Next(s, FirstWrite), r)
  {
    hide TablesOk, Chained, Numbered, MayFollow;
    var s' := Next(s, FirstWrite);
    var item := s.work.todo[0];
    SettleFirstRows(s.db, item, s.work.phase.outcome, s.work.now);
    assert Flying(s.work, item.row) && ItemOk(s, 0);
    assert CountsOk(s, r) && RowOk(s, r);
    assert Waiting(s'.work, r) <==> Waiting(s.work, r);
    assert Tries(s', r) == Tries(s, r) && Successes(s', r) == Successes(s, r) && Lost(s', r) == Lost(s, r);
  }

  lemma {:induction false} FirstWriteKeeps(s: State)
    requires DeliveryOk(s) && Enabled(s, FirstWrite)
    ensures DeliveryOk(Next(s, FirstWrite))
  {
    var s' := Next(s, FirstWrite);
    var item := s.work.todo[0];
    SettleFirstKeepsTables(s.db, item, s.work.phase.outcome, s.work.now);
    SettleFirstRows(s.db, item, s.work.phase.outcome, s.work.now);
    forall r ensures CountsOk(s', r) && RowOk(s', r) {
      FirstWriteKeepsCounts(s, r);
      FirstWriteKeepsRow(s, r);
    }
    assert Flying(s.work, item.row);
    forall i: nat | i < |s'.work.todo| ensures ItemOk(s', i) {
      assert ItemOk(s, i);
      assert Waiting(s'.work, s'.work.todo[i].row) <==> Waiting(s.work, s'.work.todo[i].row);
    }
  }

  lemma {:induction false} QuarantineWriteKeeps(s: State)
    requires DeliveryOk(s) && Enabled(s, QuarantineWrite)
    ensures DeliveryOk(Next(s, QuarantineWrite))
  {
    hide TablesOk;
    var s' := Next(s, QuarantineWrite);
    var item := s.work.todo[0];
    CountersKeep(s.db, item.sid, s.work.now);
    assert Flying(s.work, item.row);
    forall r ensures Waiting(s'.work, r) <==> Waiting(s.work, r) {
    }
    forall r ensures CountsOk(s', r) && RowOk(s', r) {
      assert CountsOk(s, r) && RowOk(s, r);
    }
    forall i: nat | i < |s'.work.todo| ensures ItemOk(s', i) {
      assert ItemOk(s, i);
    }
  }

  lemma {:induction false} LastWriteKeepsCounts(s: State, r: int)
    requires DeliveryOk(s) && Enabled(s, LastWrite)
    ensures CountsOk(Next(s, LastWrite), r)
  {
    hide TablesOk, RetryDelay, Chained, Numbered;
    var s' := Next(s, LastWrite);
    assert CountsOk(s, r);
    RestWaits(s.work, r);
    assert Tries(s', r) == Tries(s, r) && Successes(s', r) == Successes(s, r) && Lost(s', r) == Lost(s, r);
  }

  lemma {:induction false} LastWriteKeepsHead(s: State)
    requires DeliveryOk(s) && Enabled(s, LastWrite)
    ensures RowOk(Next(s, LastWrite), s.work.todo[0].row)
  {
    hide TablesOk, RetryDelay, Chained, Numbered, RequestedWait;
    var s' := Next(s, LastWrite);
    var r := s.work.todo[0].row;
    assert ItemOk(s, 0) && CountsOk(s, r) && RowOk(s, r);
    RestWaits(s.work, r);
    hide CountsOk, ItemOk, Waiting;
    assert Tries(s', r) == Tries(s, r) && Successes(s', r) == Successes(s, r) && Lost(s', r) == Lost(s, r);
    assert !Waiting(s'.work, r) && !Flying(s'.work, r);
    if Flying(s.work, r) && r in s'.db.outbox && s'.db.outbox[r].Undelivered() {
      var last := Tries(s, r)[|Tries(s, r)| - 1];
      assert s'.db.outbox[r].attempts == last.attempt;
      assert s'.db.outbox[r].nextAttemptAt == last.batch + WaitAfter(last);
    }
  }

  lemma {:induction false} LastWriteKeepsOther(s: State, r: int)
    requires DeliveryOk(s) && Enabled(s, LastWrite) && r != s.work.todo[0].row
    ensures RowOk(Next(s, LastWrite), r)
  {
    hide TablesOk, RetryDelay, Chained, Numbered, MayFollow;
    var s' := Next(s, LastWrite);
    assert RowOk(s, r);
    RestWaits(s.work, r);
    assert Tries(s', r) == Tries(s, r) && Successes(s', r) == Successes(s, r) && Lost(s', r) == Lost(s, r);
  }

  lemma {:induction false} LastWriteKeeps(s: State)
    requires DeliveryOk(s) && Enabled(s, LastWrite)
    ensures DeliveryOk(Next(s, LastWrite))
  {
    hide TablesOk;
    var s' := Next(s, LastWrite);
    var item := s.work.todo[0];
    SettleLastKeepsTables(s.db, item, s.work.phase.outcome, s.work.now);
    assert ItemOk(s, 0);
    DropHeadKeepsBatch(s, s');
    forall r ensures CountsOk(s', r) && RowOk(s', r) {
      LastWriteKeepsCounts(s, r);
      if r == item.row {
        LastWriteKeepsHead(s);
      } else {
        LastWriteKeepsOther(s, r);
      }
    }
  }

  lemma {:induction false} CrashKeeps(s: State, restarts: bool)
    requires DeliveryOk(s)
    ensures DeliveryOk(Next(s, Crash(restarts)))
  {
    var s' := Next(s, Crash(restarts));
    assert s.work.todo != [] ==> ItemOk(s, 0);
    forall r ensures CountsOk(s', r) && RowOk(s', r) {
      assert CountsOk(s, r) && RowOk(s, r);
    }
  }

  lemma {:induction false} NextKeeps(s: State, a: Action)
    requires DeliveryOk(s) && Enabled(s, a)
    ensures DeliveryOk(Next(s, a))
  {
    match a
    case Outside(t) => OutsideKeeps(s, t);
    case ReadBatch(now, channels, items) => ReadBatchKeeps(s, now, channels, items);
    case Skip => SkipKeeps(s);
    case GiveUpHead => GiveUpKeeps(s);
    case Send(o, started, ended) => SendKeeps(s, o, started, ended);
    case FirstWrite => FirstWriteKeeps(s);
    case QuarantineWrite => QuarantineWriteKeeps(s);
    case LastWrite => LastWriteKeeps(s);
    case Crash(restarts) => CrashKeeps(s, restarts);
  }

  /** Every state of every run is sound. */
  lemma {:induction false} RunsAreSound(states: seq<State>, actions: seq<Action>, i: nat)
    requires IsRun(states, actions) && i < |states|
    ensures DeliveryOk(states[i])
  {
    if i > 0 {
      RunsAreSound(states, actions, i - 1);
      assert states[i - 1 + 1] == Next(states[i - 1], actions[i - 1]);
      NextKeeps(states[i - 1], actions[i - 1]);
    }
  }
}
