// What the dispatcher does with a row in every run, said on the columns of the tables as
// its batch found them, and what each of its statements writes.

module DispatchRuns {
  import opened Basics
  import opened Backoff
  import opened FailureWindow
  import opened Ledger
  import opened LedgerEffects
  import opened Delivery
  import opened Passes

  /** What each transaction from outside does. */
  ghost predicate Done(a: Db, b: Db, t: Transaction) {
    match t
    case TSignUp(form, now) => SignedUp(a, b, form, now)
    case TSignUpByLink(form, now) => SignedUpByLink(a, b, form, now)
    case TConfirm(token, now) => ConfirmedBy(a, b, token, now)
    case TUnsubscribe(token) => UnsubscribedBy(a, b, token)
    case TDelete(id) => Removed(a, b, id)
    case TLinkChat(token, chat, now) => exists answer :: ChatLinked(a, b, token, chat, now, answer)
    case TStopChat(chat) => ChatLeft(a, b, chat)
    case TFanOut(e, _, now) => FannedOut(a, b, e, now)
    case TPruneRows(now) => RowsPruned(a, b, now)
    case TPrunePending(now) => SubsPruned(a, b, Pending, now)
    case TPruneQuarantined(now) => SubsPruned(a, b, Quarantined, now)
  }

  lemma {:induction false} TransactionsDo(db: Db, t: Transaction)
    requires TablesOk(db) && Possible(db, t)
    ensures Done(db, Execute(db, t), t)
  {
    hide TablesOk, SignedUp, SignedUpByLink, ConfirmedBy, UnsubscribedBy, ChatLinked, ChatLeft, FannedOut, RowsPruned,
         SubsPruned;
    match t
    case TSignUp(form, now) => SignUpDoes(db, form, now);
    case TSignUpByLink(form, now) => SignUpByLinkDoes(db, form, now);
    case TConfirm(token, now) => ConfirmDoes(db, token, now);
    case TUnsubscribe(token) => UnsubscribeDoes(db, token);
    case TDelete(id) =>
    case TLinkChat(token, chat, now) =>
      LinkChatDoes(db, token, chat, now);
      assert ChatLinked(db, LinkChat(db, token, chat, now), token, chat, now, LinkResult(db, token, now));
    case TStopChat(chat) => StopChatDoes(db, chat);
    case TFanOut(e, order, now) => FanOutDoes(db, e, order, now);
    case TPruneRows(now) => PruneStepsDo(db, now);
    case TPrunePending(now) => PruneStepsDo(db, now);
    case TPruneQuarantined(now) => PruneStepsDo(db, now);
  }

  /** The batch at hand is the rest of one that was read, with nothing but turns since. */
  lemma {:induction false} ReadBefore(states: seq<State>, actions: seq<Action>, k: nat) returns (m: nat)
    requires IsRun(states, actions) && k <= |actions| && states[k].work.todo != []
    ensures m < k && actions[m].ReadBatch? && actions[m].now == states[k].work.now
    ensures IsRead(states[m].db, actions[m].items, actions[m].now, actions[m].channels)
    ensures |states[k].work.todo| <= |actions[m].items|
    ensures states[k].work.todo == actions[m].items[|actions[m].items| - |states[k].work.todo|..]
  {
    assert Step(states[k - 1], actions[k - 1], states[k - 1 + 1]);
    if actions[k - 1].ReadBatch? {
      m := k - 1;
      BatchIsRead(states[m].db, actions[m].items, actions[m].now, actions[m].channels);
    } else {
      BatchShrinks(states[k - 1], actions[k - 1], states[k]);
      m := ReadBefore(states, actions, k - 1);
    }
  }

  lemma {:induction false} BatchShrinks(s: State, a: Action, t: State)
    requires Step(s, a, t) && !a.ReadBatch? && t.work.todo != []
    ensures s.work.todo != [] && t.work.now == s.work.now
    ensures t.work.todo == s.work.todo || t.work.todo == s.work.todo[1..]
  {
  }

  /** Whether a row is handed to its channel or given up is settled by the tables when its
      batch was read: a confirmation goes out if its subscriber was pending then and the
      link good, and is given up untried otherwise; an event goes out if its subscriber
      was active, unless it cannot be read. Any row may be skipped. */
  lemma {:induction false} TurnIsSettledAtReading(states: seq<State>, actions: seq<Action>, k: nat) returns (m: nat)
    requires IsRun(states, actions) && k <= |actions| && states[k].work.todo != [] && states[k].work.phase.Ready?
    ensures m < k && actions[m].ReadBatch? && actions[m].now == states[k].work.now
    ensures IsDue(states[m].db, states[k].work.todo[0].row, actions[m].now, actions[m].channels)
    ensures var row := states[m].db.outbox[states[k].work.todo[0].row];
            var sub, s, now := states[m].db.subs[row.sub], states[k], actions[m].now;
            && s.work.todo[0].attempts == row.attempts && s.work.todo[0].sid == row.sub
            && Enabled(s, Skip)
            && (forall o, started, ended ::
                  CanAnswer(s.work.todo[0].channel, o) && s.clock <= started <= ended <= started + 30 ==>
                    (Enabled(s, Send(o, started, ended)) <==>
                      if row.kind.Confirmation?
                      then sub.status == Pending && sub.confirmExpires.Some? && sub.confirmExpires.value > now
                      else sub.status == Active))
            && (Enabled(s, GiveUpHead) <==>
                  if row.kind.Confirmation?
                  then sub.status != Pending || sub.confirmExpires.None? || sub.confirmExpires.value <= now
                  else sub.status == Active)
  {
    m := ReadBefore(states, actions, k);
    var items := actions[m].items;
    assert states[k].work.todo[0] == items[|items| - |states[k].work.todo|];
    hide IsRun;
  }

  /** What each statement of a turn writes. */
  ghost predicate Written(a: Db, b: Db, action: Action, item: Item, phase: Phase, now: int) {
    var attempts := item.attempts + 1;
    match action
    case GiveUpHead => b == a.(outbox := Changed(a.outbox, item.row, (row: Row) => GivenUpRow(row, now)))
    case FirstWrite =>
      phase.Sent? &&
      if phase.outcome == Gone then Removed(a, b, item.sid)
      else if phase.outcome == Delivered then
        b == a.(outbox := Changed(a.outbox, item.row, (row: Row) => SentRow(row, attempts, now)))
      else if phase.outcome == Permanent || phase.outcome == Outcome.Counted then
        b == a.(subs := Changed(a.subs, item.sid, (s: Subscriber) => s.(window := CountedOnce(s.window, now))))
      else b == a
    case QuarantineWrite =>
      b == a.(subs := Changed(a.subs, item.sid, (s: Subscriber) =>
                if s.status == Quarantined then s else s.(status := Quarantined, quarantinedAt := Some(now))))
    case LastWrite =>
      phase.HalfSettled? &&
      if phase.outcome == Gone then b == a
      else if phase.outcome == Delivered then b == a.(subs := Changed(a.subs, item.sid, ServedSub))
      else b == a.(outbox := Changed(a.outbox, item.row, (row: Row) => FailedRow(row, phase.outcome, attempts, now)))
    case _ => true
  }

  lemma {:induction false} StatementsWrite(s: State, a: Action)
    requires Enabled(s, a) && (a.GiveUpHead? || a.FirstWrite? || a.QuarantineWrite? || a.LastWrite?)
    ensures Written(s.db, Next(s, a).db, a, s.work.todo[0], s.work.phase, s.work.now)
    ensures a.FirstWrite? ==>
              (Next(s, a).work.phase.AtLimit? <==>
                var id, o := s.work.todo[0].sid, s.work.phase.outcome;
                (o == Permanent || o == Outcome.Counted) && id in s.db.subs
                && CountedOnce(s.db.subs[id].window, s.work.now).failures >= 10)
  {
    var item := s.work.todo[0];
    if item.sid in s.db.subs {
      CountedOnceIs(s.db.subs[item.sid].window, s.work.now);
    }
    if a.LastWrite? && !s.work.phase.outcome.Delivered? && !s.work.phase.outcome.Gone? {
      FailureWritten(s.db, item, s.work.phase.outcome, s.work.now);
      hide SettleLast;
    }
    hide CountFailure, CountedOnce, RetryDelay;
  }
}
