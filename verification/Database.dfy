// The transactions as the program runs them, one statement after another on the tables
// (src/subscriptions/mod.rs, telegram.rs, dispatch.rs), each shown to be the step of
// `Ledger` and `Delivery` whose properties are proved there.

module Database {
  import opened Basics
  import opened Backoff
  import opened FailureWindow
  import opened Ledger
  import opened LedgerInvariants
  import opened LedgerEffects
  import opened Delivery
  import opened DeliveryInvariants
  import opened Paths
  import opened Passes

  datatype ConfirmLink = Works | Lapsed | Unknown

  class Tables {
    var subs: map<int, Subscriber>
    var outbox: map<int, Row>
    var nextSub: int
    var nextRow: int

    ghost function Contents(): Db
      reads this
    {
      Db(subs, outbox, nextSub, nextRow)
    }

    ghost predicate Valid()
      reads this
    {
      TablesOk(Contents())
    }

    constructor ()
      ensures Valid() && Contents() == EMPTY
    {
      subs, outbox, nextSub, nextRow := map[], map[], 1, 1;
    }

    method Lookup(channel: string, address: Address) returns (r: Option<int>)
      requires Valid()
      ensures r == FindAddress(subs, channel, address)
    {
      if id :| id in subs && subs[id].channel == channel && subs[id].address == address {
        assert Lives(subs, id, channel, address);
        return Some(id);
      } else {
        assert forall id :: !Lives(subs, id, channel, address);
        return None;
      }
    }

    method SetComponents(id: int, form: SignUpForm)
      requires id in subs
      modifies this`subs
      ensures subs == old(subs)[id := old(subs)[id].(components := form.Chosen())]
    {
      subs := subs[id := subs[id].(components := {})];
      if !form.allComponents {
        ghost var seen := {};
        for i := 0 to |form.components|
          invariant id in subs
          invariant seen == set c | c in form.components[..i]
          invariant subs == old(subs)[id := old(subs)[id].(components := seen)]
        {
          subs := subs[id := subs[id].(components := subs[id].components + {form.components[i]})];
          assert form.components[..i + 1] == form.components[..i] + [form.components[i]];
          seen := seen + {form.components[i]};
        }
        assert form.components[..|form.components|] == form.components;
      }
    }

    method StoreLink(id: int, form: SignUpForm, now: int)
      requires id in subs
      modifies this
      ensures Contents() == IssueLink(old(Contents()), form, id, now)
    {
      SetComponents(id, form);
      var expires := now + CONFIRM_TTL_SECS;
      subs := subs[id := subs[id].(confirmHash := Some(ConfirmToken(id, expires)), confirmExpires := Some(expires))];
      assert subs == old(subs)[id := old(subs)[id].(components := form.Chosen(),
                                                    confirmHash := Some(ConfirmToken(id, expires)),
                                                    confirmExpires := Some(expires))];
      outbox := map r | r in outbox && !(outbox[r].sub == id && outbox[r].kind.Confirmation? && outbox[r].sentAt.None?)
                      :: outbox[r];
      outbox := outbox[nextRow := Row(id, Confirmation, now, now, 0, None, None)];
      nextRow := nextRow + 1;
    }

    /** A row for a new address; its unsubscribe token needs the id it gets. */
    method InsertRow(form: SignUpForm, now: int) returns (id: int)
      modifies this`subs, this`nextSub
      ensures id == old(nextSub) && Contents() == InsertPending(old(Contents()), form, now)
    {
      id := nextSub;
      subs := subs[id := NewSubscriber(form, id, now).(unsubHash := OtherText("throwaway"))];
      nextSub := nextSub + 1;
      subs := subs[id := subs[id].(unsubHash := UnsubscribeToken(id, now))];
    }

    /** A known address starts over. */
    method ResetRow(id: int, form: SignUpForm)
      requires id in subs
      modifies this`subs, this`outbox
      ensures Contents() == ResetPending(old(Contents()), form, id)
    {
      var s := subs[id];
      if s.status.Quarantined? {
        outbox := map r | r in outbox && !(outbox[r].sub == id && outbox[r].Undelivered()) :: outbox[r];
      }
      subs := subs[id := s.(allComponents := form.allComponents, maintenance := form.maintenance,
                            status := Pending, window := ZERO, quarantinedAt := None)];
    }

    method SignUp(form: SignUpForm, now: int)
      requires Valid() && form.address.Known?
      modifies this
      ensures Valid()
      ensures Contents() == Ledger.SignUp(old(Contents()), form, now)
      ensures SignedUp(old(Contents()), Contents(), form, now)
    {
      SignUpDoes(Contents(), form, now);
      SignUpKeeps(Contents(), form, now);
      hide SignedUp, TablesOk, OutboxFrame;
      var existing := Lookup(form.channel, form.address);
      var id;
      match existing {
        case None =>
          id := InsertRow(form, now);
        case Some(found) =>
          id := found;
          var s := subs[id];
          if s.status.Active? {
            return;
          }
          if s.confirmExpires.Some? && now - (s.confirmExpires.value - CONFIRM_TTL_SECS) < CONFIRM_RESEND_SECS {
            return;
          }
          ResetRow(id, form);
      }
      StoreLink(id, form, now);
    }

    method SignUpByLink(form: SignUpForm, now: int) returns (token: Token)
      requires Valid()
      modifies this
      ensures Valid()
      ensures Contents() == Ledger.SignUpByLink(old(Contents()), form, now)
      ensures SignedUpByLink(old(Contents()), Contents(), form, now)
      ensures token == ConfirmToken(old(nextSub), now + CONFIRM_TTL_SECS)
    {
      SignUpByLinkDoes(Contents(), form, now);
      SignUpByLinkKeeps(Contents(), form, now);
      hide SignedUpByLink, TablesOk, OutboxFrame;
      var id := InsertRow(form, now);
      token := ConfirmToken(id, now + CONFIRM_TTL_SECS);
      SetAwaiting(id, token, now + CONFIRM_TTL_SECS);
      SetComponents(id, form);
    }

    method SetAwaiting(id: int, token: Token, expires: int)
      requires id in subs
      modifies this`subs
      ensures subs == old(subs)[id := old(subs)[id].(
                        address := Placeholder(id), confirmHash := Some(token), confirmExpires := Some(expires))]
    {
      subs := subs[id := subs[id].(address := Placeholder(id), confirmExpires := Some(expires))];
      subs := subs[id := subs[id].(confirmHash := Some(token))];
    }

    /** Whether a link works; `Expired` for one whose row waits for it too late. */
    method CheckConfirm(token: Token, now: int) returns (r: ConfirmLink)
      requires Valid()
      ensures r.Works? <==> exists id :: CanConfirm(Contents(), id, token, now)
      ensures r.Lapsed? <==> !r.Works? && exists id :: WaitsFor(Contents(), id, token)
    {
      if id :| id in subs && subs[id].confirmHash == Some(token) && subs[id].status.Pending? {
        assert WaitsFor(Contents(), id, token);
        var e := subs[id].confirmExpires;
        if e.Some? && e.value > now {
          assert CanConfirm(Contents(), id, token, now);
          return Works;
        }
        forall j
          ensures !CanConfirm(Contents(), j, token, now)
        {
          if WaitsFor(Contents(), j, token) {
            assert TokensOfRow(id, subs[id]) && TokensOfRow(j, subs[j]);
          }
        }
        return Lapsed;
      } else {
        assert forall id :: !WaitsFor(Contents(), id, token) && !CanConfirm(Contents(), id, token, now);
        return Unknown;
      }
    }

    /** At most one row changes: the pending one this link was sent to, while it is live. */
    method Confirm(token: Token, now: int) returns (r: ConfirmLink)
      requires Valid()
      modifies this
      ensures Valid()
      ensures Contents() == Ledger.Confirm(old(Contents()), token, now)
      ensures ConfirmedBy(old(Contents()), Contents(), token, now)
      ensures forall id, j :: id in subs && j in subs && subs[id] != old(subs)[id] && subs[j] != old(subs)[j] ==>
              id == j
      ensures r.Works? <==> exists id :: CanConfirm(old(Contents()), id, token, now)
      ensures r.Lapsed? <==> !r.Works? && exists id :: WaitsFor(old(Contents()), id, token)
    {
      ConfirmDoes(Contents(), token, now);
      hide ConfirmedBy, RefsOk, AddressesUnique, PlaceholdersOwn, PendingIsQuiet, OneConfirmation, OutboxFrame;
      ghost var before := subs;
      var hit := exists id :: id in subs && Confirmable(subs[id], token, now);
      subs := map id | id in subs :: if Confirmable(subs[id], token, now) then Confirmed(subs[id], now) else subs[id];
      ConfirmKeeps(old(Contents()), token, now);
      forall id, j | id in subs && j in subs && subs[id] != before[id] && subs[j] != before[j]
        ensures id == j
      {
        assert TokensOfRow(id, before[id]) && TokensOfRow(j, before[j]);
      }
      if hit {
        ghost var id :| id in before && Confirmable(before[id], token, now);
        assert CanConfirm(old(Contents()), id, token, now);
        return Works;
      }
      assert forall id :: id in before ==> !Confirmable(before[id], token, now) && subs[id] == before[id];
      assert subs == before;
      assert forall id :: CanConfirm(old(Contents()), id, token, now) ==> Confirmable(before[id], token, now);
      r := CheckConfirm(token, now);
    }

    method DeleteSubs(gone: set<int>)
      requires Valid()
      modifies this
      ensures Valid()
      ensures Contents() == RemoveSubs(old(Contents()), gone)
    {
      subs := map id | id in subs && id !in gone :: subs[id];
      outbox := map r | r in outbox && outbox[r].sub !in gone :: outbox[r];
      RemoveSubsKeeps(old(Contents()), gone);
    }

    method Unsubscribe(token: Token) returns (found: bool)
      requires Valid()
      modifies this
      ensures Valid()
      ensures Contents() == Ledger.Unsubscribe(old(Contents()), token)
      ensures UnsubscribedBy(old(Contents()), Contents(), token)
      ensures found <==> exists id :: id in old(subs) && old(subs)[id].unsubHash == token
      ensures !found ==> Contents() == old(Contents())
    {
      UnsubscribeDoes(Contents(), token);
      var gone := set id | id in subs && subs[id].unsubHash == token;
      assert forall id :: id in gone <==> id in subs && subs[id].unsubHash == token;
      if gone != {} {
        NonEmpty(gone);
      }
      found := gone != {};
      DeleteSubs(gone);
    }

    /** The known chat `id` takes the choices of the pending row `p`, which goes away. */
    method TakeOver(id: int, p: int, now: int)
      requires id in subs && p in subs
      modifies this
      ensures Contents() ==
              RemoveSubs(old(Contents()).(subs := old(subs)[id := old(subs)[id].(
                allComponents := old(subs)[p].allComponents, maintenance := old(subs)[p].maintenance,
                components := old(subs)[p].components,
                status := Active, confirmedAt := Some(now), window := ZERO, quarantinedAt := None)]), {p})
    {
      var chosen := subs[p];
      subs := subs[id := subs[id].(allComponents := chosen.allComponents, maintenance := chosen.maintenance,
                                   status := Active, confirmedAt := Some(now), window := ZERO, quarantinedAt := None)];
      subs := subs[id := subs[id].(components := {})];
      subs := subs[id := subs[id].(components := chosen.components)];
      assert subs == old(subs)[id := old(subs)[id].(
        allComponents := chosen.allComponents, maintenance := chosen.maintenance, components := chosen.components,
        status := Active, confirmedAt := Some(now), window := ZERO, quarantinedAt := None)];
      subs := map i | i in subs && i !in {p} :: subs[i];
      outbox := map o | o in outbox && outbox[o].sub !in {p} :: outbox[o];
    }

    method LinkChat(token: Token, chat: string, now: int) returns (r: Linked)
      requires Valid()
      modifies this
      ensures Valid()
      ensures r == LinkResult(old(Contents()), token, now)
      ensures Contents() == Ledger.LinkChat(old(Contents()), token, chat, now)
      ensures ChatLinked(old(Contents()), Contents(), token, chat, now, r)
    {
      LinkChatDoes(Contents(), token, chat, now);
      hide ChatLinked;
      LinkChatKeeps(Contents(), token, chat, now);
      if p :|
        p in subs && subs[p].channel == TELEGRAM && subs[p].status.Pending? && subs[p].confirmHash == Some(token)
      {
        assert LinkPending(subs, p, token);
        assert p == FindLink(subs, token).value by {
          var q := FindLink(subs, token).value;
          assert TokensOfRow(p, subs[p]) && TokensOfRow(q, subs[q]);
        }
        if subs[p].confirmExpires.None? || subs[p].confirmExpires.value <= now {
          return Expired;
        }
        var existing := Lookup(TELEGRAM, Known(chat));
        match existing {
          case Some(id) => TakeOver(id, p, now);
          case None =>
            subs := subs[p := subs[p].(address := Known(chat), status := Active, confirmedAt := Some(now),
                                       confirmHash := None, confirmExpires := None)];
        }
        return Subscribed;
      } else {
        assert forall p :: !LinkPending(subs, p, token);
        return Invalid;
      }
    }

    method StopChat(chat: string) returns (found: bool)
      requires Valid()
      modifies this
      ensures Valid()
      ensures Contents() == Ledger.StopChat(old(Contents()), chat)
      ensures ChatLeft(old(Contents()), Contents(), chat)
      ensures found <==> exists id :: HasAddress(old(Contents()), id, TELEGRAM, Known(chat))
      ensures !found ==> Contents() == old(Contents())
    {
      var gone := set id | id in subs && subs[id].channel == TELEGRAM && subs[id].address == Known(chat);
      assert gone == set id | id in subs && Lives(subs, id, TELEGRAM, Known(chat));
      assert forall id :: id in gone <==> HasAddress(Contents(), id, TELEGRAM, Known(chat));
      StopChatDoes(Contents(), chat);
      if gone != {} {
        NonEmpty(gone);
      }
      found := gone != {};
      DeleteSubs(gone);
    }

    method QueueFor(s: int, e: Event, now: int)
      modifies this`outbox, this`nextRow
      ensures outbox == old(outbox)[old(nextRow) := Row(s, News(e), now, now, 0, None, None)]
              && nextRow == old(nextRow) + 1
    {
      outbox := outbox[nextRow := Row(s, News(e), now, now, 0, None, None)];
      nextRow := nextRow + 1;
    }

    /** The insert returns how many rows it queued: one per recipient. */
    method FanOut(e: Event, now: int) returns (n: nat, ghost order: seq<int>)
      requires Valid()
      modifies this`outbox, this`nextRow
      ensures Valid()
      ensures Lists(order, Recipients(old(subs), e)) && n == |Recipients(old(subs), e)|
      ensures Contents() == Ledger.FanOut(old(Contents()), e, order, now)
      ensures FannedOut(old(Contents()), Contents(), e, now)
      ensures n == nextRow - old(nextRow)
    {
      hide TablesOk, Lists, Recipients, Ledger.FanOut, FannedOut;
      ghost var db, who := Contents(), Recipients(subs, e);
      var todo := Recipients(subs, e);
      n, order := |todo|, [];
      FanOutToNone(db, e, now);
      assert who - todo == {};
      while todo != {}
        invariant todo <= who
        invariant Lists(order, who - todo)
        invariant Contents() == Ledger.FanOut(db, e, order, now)
        invariant n == |order| + |todo| && nextRow == old(nextRow) + |order|
        decreases todo
      {
        NonEmpty(todo);
        var s :| s in todo;
        QueueFor(s, e, now);
        FanOutOneMore(db, e, order, s, now);
        ListsOneMore(order, who - todo, s);
        order := order + [s];
        assert who - (todo - {s}) == (who - todo) + {s};
        todo := todo - {s};
      }
      assert who - todo == who;
      FanOutEffect(db, e, order, now);
    }

    /** The three deletions, one after another; in the machine each is a step of its own. */
    method Prune(now: int)
      requires Valid()
      modifies this
      ensures Valid()
      ensures Contents()
              == Ledger.PruneQuarantined(Ledger.PrunePending(Ledger.PruneRows(old(Contents()), now), now), now)
      ensures PrunedTo(old(Contents()), Contents(), now)
    {
      PruneKeeps(old(Contents()), now);
      PruneDoes(old(Contents()), now);
      hide TablesOk, PrunedTo;
      var cutoff := now - OUTBOX_KEEP_SECS;
      outbox := map r | r in outbox && !Before(outbox[r].sentAt, cutoff) && !Before(outbox[r].failedAt, cutoff) ::
          outbox[r];
      ghost var trimmed := Contents();
      assert trimmed == Ledger.PruneRows(old(Contents()), now);
      DeleteSubs(set id | id in subs && subs[id].status.Pending?
          && Before(subs[id].confirmExpires, now - PENDING_KEEP_SECS));
      ghost var confirmed := Contents();
      assert confirmed == Ledger.PrunePending(trimmed, now);
      DeleteSubs(set id | id in subs && subs[id].status.Quarantined?
          && Before(subs[id].quarantinedAt, now - QUARANTINE_KEEP_SECS));
    }

    /** The first due rows by id, each joined with its subscriber. */
    method ReadDue(channels: set<string>, now: int) returns (items: seq<Item>)
      requires Valid()
      ensures IsBatch(items, Contents(), now, channels)
      ensures IsRead(Contents(), items, now, channels)
    {
      hide TablesOk, ItemOf, RowIn, IsRead;
      var db := Db(subs, outbox, nextSub, nextRow);
      var left := set r | r in outbox && Due(db, r, now, channels);
      items := [];
      while left != {} && |items| < BATCH
        invariant |items| <= BATCH
        invariant forall r :: r in left ==> Due(db, r, now, channels)
        invariant forall i :: 0 <= i < |items| ==>
                Due(db, items[i].row, now, channels) && items[i] == ItemOf(db, items[i].row)
        invariant forall i, r :: 0 <= i < |items| && r in left ==> items[i].row < r
        invariant forall i, j :: 0 <= i < j < |items| ==> items[i].row < items[j].row
        invariant forall r :: Due(db, r, now, channels) ==> r in left || RowIn(items, r)
        decreases left
      {
        var r := Least(left);
        RowInMore(items, ItemOf(db, r));
        items := items + [ItemOf(db, r)];
        left := left - {r};
      }
      BatchIsRead(db, items, now, channels);
    }

    /** Deliver every due row once, as one uninterrupted pass: `answers[i]` is what
        row `i` of the batch meets. */
    method DispatchDue(channels: set<string>, answers: seq<Answer>, now: int) returns (stats: Stats, items: seq<Item>)
      requires Valid() && |answers| >= BATCH
      modifies this
      ensures Valid()
      ensures IsBatch(items, old(Contents()), now, channels)
      ensures Contents() == HandleUpTo(old(Contents()), items, answers, now, |items|)
      ensures stats == TalliedUpTo(old(Contents()), items, answers, now, |items|)
      ensures IsRead(old(Contents()), items, now, channels)
      ensures PassDone(old(Contents()), Contents(), items, answers, now, |items|)
      ensures CountsTurns(stats, old(Contents()), items, answers, now, |items|)
    {
      hide TablesOk, PassDone, CountsTurns, IsRead;
      stats := Stats(0, 0, 0, 0, 0);
      items := ReadDue(channels, now);
      assert |items| <= BATCH;
      hide IsBatch;
      for i := 0 to |items|
        invariant Valid()
        invariant Contents() == HandleUpTo(old(Contents()), items, answers, now, i)
        invariant stats == TalliedUpTo(old(Contents()), items, answers, now, i)
      {
        stats := Turn(items[i], answers[i], now, stats);
      }
      PassDoesAll(old(Contents()), items, answers, now, channels);
    }

    method MarkGivenUp(row: int, now: int)
      requires Valid()
      modifies this`outbox
      ensures Valid() && Contents() == GiveUp(old(Contents()), row, now)
    {
      MarksKeep(Contents(), row, 0, now);
      if row in outbox {
        outbox := outbox[row := outbox[row].(failedAt := Some(now))];
      }
    }

    method Turn(item: Item, a: Answer, now: int, before: Stats) returns (stats: Stats)
      requires Valid()
      modifies this
      ensures Valid()
      ensures Contents() == HandleItem(old(Contents()), item, a, now)
      ensures TurnDone(old(Contents()), Contents(), item, a, now)
      ensures stats == Tallied(before, old(Contents()), item, a, now)
    {
      TurnDoes(Contents(), item, a, now);
      hide TablesOk, GiveUp, Settled, SettledStats, TurnDone;
      stats := before;
      if a.SwitchedOff? {
        return;
      }
      if item.kind.Confirmation? {
        if !(item.expires.Some? && item.status.Pending? && item.expires.value > now) {
          MarkGivenUp(item.row, now);
          return;
        }
      } else if !item.status.Active? {
        return;
      } else if a.Unreadable? {
        MarkGivenUp(item.row, now);
        stats := stats.(givenUp := stats.givenUp + 1);
        return;
      }
      if a.Answered? {
        stats := Settle(item, a.outcome, now, stats);
      }
    }

    /** What follows a send: the row and its subscriber are updated by its outcome. */
    method Settle(item: Item, o: Outcome, now: int, before: Stats) returns (stats: Stats)
      requires Valid()
      modifies this
      ensures Valid()
      ensures Contents() == Settled(old(Contents()), item, o, now)
      ensures stats == SettledStats(before, old(Contents()), item, o, now)
    {
      SettleFirstKeepsTables(Contents(), item, o, now);
      CountersKeep(SettleFirst(Contents(), item, o, now), item.sid, now);
      SettleLastKeepsTables(SettleFirst(Contents(), item, o, now), item, o, now);
      SettleLastKeepsTables(Quarantine(SettleFirst(Contents(), item, o, now), item.sid, now), item, o, now);
      hide TablesOk, Count, Quarantine, CountFailure, RetryDelay, AtTheLimit, NewlyQuarantines;
      if o.Delivered? {
        stats := SettleSuccess(item, now, before);
      } else if o.Gone? {
        DeleteSubs({item.sid});
        stats := before.(removed := before.removed + 1);
      } else {
        stats := SettleFailure(item, o, now, before);
      }
    }

    method SettleSuccess(item: Item, now: int, before: Stats) returns (stats: Stats)
      requires Valid()
      modifies this
      ensures Contents() == Settled(old(Contents()), item, Delivered, now)
      ensures stats == before.(sent := before.sent + 1)
    {
      hide TablesOk, Count, Quarantine, CountFailure, RetryDelay, AtTheLimit;
      if item.row in outbox {
        outbox := outbox[item.row := outbox[item.row].(sentAt := Some(now), attempts := item.attempts + 1)];
      }
      if item.sid in subs && subs[item.sid].window.failures > 0 {
        subs := subs[item.sid := subs[item.sid].(window := ZERO)];
      }
      stats := before.(sent := before.sent + 1);
    }

    method SettleFailure(item: Item, o: Outcome, now: int, before: Stats) returns (stats: Stats)
      requires Valid() && !o.Delivered? && !o.Gone?
      modifies this
      ensures Contents() == Settled(old(Contents()), item, o, now)
      ensures stats == SettledStats(before, old(Contents()), item, o, now)
    {
      hide TablesOk, Count, Quarantine, CountFailure, RetryDelay, AtTheLimit, NewlyQuarantines;
      stats := before;
      var attempts := item.attempts + 1;
      ghost var db := Contents();
      if o.Permanent? || o.Counted? {
        var tripped := CountFailureOf(item.sid, now);
        TrippedIs(db, item, o, now);
        if tripped {
          stats := stats.(quarantined := stats.quarantined + 1);
        }
      } else {
        NobodyIsQuarantined(db, item, o, now);
      }
      if o.Permanent? || attempts >= MAX_ATTEMPTS {
        if item.row in outbox {
          outbox := outbox[item.row := outbox[item.row].(failedAt := Some(now), attempts := attempts)];
        }
        stats := stats.(givenUp := stats.givenUp + 1);
      } else {
        var wait := Max(RetryDelay(attempts), if o.RateLimited? then o.secs else 0);
        if item.row in outbox {
          outbox := outbox[item.row := outbox[item.row].(nextAttemptAt := now + wait, attempts := attempts)];
        }
        stats := stats.(retried := stats.retried + 1);
      }
    }

    /** Count one failure against a subscriber; whether that quarantined it. */
    method CountFailureOf(sid: int, now: int) returns (tripped: bool)
      requires Valid()
      modifies this`subs
      ensures Valid()
      ensures var counted := Count(old(Contents()), sid, now);
              Contents() == if AtTheLimit(counted, sid) then Quarantine(counted, sid, now) else counted
      ensures outbox == old(outbox)
      ensures subs == Changed(old(subs), sid, (s: Subscriber) => FailedSub(s, Permanent, now))
      ensures tripped <==>
                && sid in subs && sid in old(subs)
                && subs[sid].status.Quarantined? && !old(subs)[sid].status.Quarantined?
    {
      CountersKeep(Contents(), sid, now);
      CountersKeep(Count(Contents(), sid, now), sid, now);
      if sid !in subs {
        return false;
      }
      var w := subs[sid].window;
      if w.start.None? || w.start.value <= now - QUARANTINE_WINDOW_SECS {
        subs := subs[sid := subs[sid].(window := Counter(Some(now), 1))];
      } else {
        subs := subs[sid := subs[sid].(window := Counter(w.start, w.failures + 1))];
      }
      if subs[sid].window.failures < QUARANTINE_FAILURES || subs[sid].status.Quarantined? {
        return false;
      }
      subs := subs[sid := subs[sid].(status := Quarantined, quarantinedAt := Some(now))];
      return true;
    }
  }

  method Least(s: set<int>) returns (m: int)
    requires s != {}
    ensures m in s && forall x :: x in s ==> m <= x
  {
    NonEmpty(s);
    m :| m in s;
    var todo := s - {m};
    while todo != {}
      invariant todo <= s && m in s
      invariant forall x :: x in s && x !in todo ==> m <= x
      decreases todo
    {
      NonEmpty(todo);
      var x :| x in todo;
      if x < m {
        m := x;
      }
      todo := todo - {x};
    }
  }

  lemma TrippedIs(db: Db, item: Item, o: Outcome, now: int)
    requires Counts(o)
    ensures var counted := Count(db, item.sid, now);
            var after := if AtTheLimit(counted, item.sid) then Quarantine(counted, item.sid, now) else counted;
            NewlyQuarantines(db, item, o, now) <==>
              && item.sid in after.subs && item.sid in db.subs
              && after.subs[item.sid].status.Quarantined? && !db.subs[item.sid].status.Quarantined?
  {
  }

  lemma NobodyIsQuarantined(db: Db, item: Item, o: Outcome, now: int)
    requires !Counts(o)
    ensures !NewlyQuarantines(db, item, o, now)
  {
  }

  lemma {:induction false} FanOutToNone(db: Db, e: Event, now: int)
    ensures Ledger.FanOut(db, e, [], now) == db && Lists([], {})
  {
  }

  lemma {:induction false} FanOutEffect(db: Db, e: Event, order: seq<int>, now: int)
    requires TablesOk(db) && Lists(order, Recipients(db.subs, e))
    ensures TablesOk(Ledger.FanOut(db, e, order, now)) && FannedOut(db, Ledger.FanOut(db, e, order, now), e, now)
  {
    hide TablesOk, FannedOut, Lists, Recipients, Ledger.FanOut, OutboxFrame;
    FanOutKeeps(db, e, order, now);
    FanOutDoes(db, e, order, now);
  }

  lemma FanOutOneMore(db: Db, e: Event, order: seq<int>, s: int, now: int)
    ensures var before := Ledger.FanOut(db, e, order, now);
            && before.nextRow == db.nextRow + |order|
            && Ledger.FanOut(db, e, order + [s], now)
            == before.(outbox := before.outbox[before.nextRow := Row(s, News(e), now, now, 0, None, None)],
                       nextRow := before.nextRow + 1)
  {
    var a := Ledger.FanOut(db, e, order + [s], now).outbox;
    var b := Ledger.FanOut(db, e, order, now).outbox[db.nextRow + |order| := Row(s, News(e), now, now, 0, None, None)];
    assert a.Keys == b.Keys;
    forall r | r in a
      ensures a[r] == b[r]
    {
      if db.nextRow <= r < db.nextRow + |order| {
        assert NewsRow(e, order + [s], db.nextRow, r, now) == NewsRow(e, order, db.nextRow, r, now);
      }
    }
  }

  lemma RowInMore(items: seq<Item>, item: Item)
    ensures forall r :: RowIn(items + [item], r) <==> RowIn(items, r) || r == item.row
  {
    forall r
      ensures RowIn(items + [item], r) <==> RowIn(items, r) || r == item.row
    {
      if RowIn(items, r) {
        var i :| 0 <= i < |items| && items[i].row == r;
        assert (items + [item])[i].row == r;
      }
      assert (items + [item])[|items|].row == item.row;
    }
  }

  lemma ListsOneMore(order: seq<int>, who: set<int>, s: int)
    requires Lists(order, who) && s !in who
    ensures Lists(order + [s], who + {s})
  {
    forall id | id in who + {s}
      ensures id in order + [s]
    {
      if id == s {
        assert (order + [s])[|order|] == s;
      } else {
        assert id in order;
      }
    }
  }

  // ---- An uninterrupted pass is a run of the machine ----

  predicate Undisturbed(actions: seq<Action>) {
    forall i :: 0 <= i < |actions| ==> !actions[i].Outside? && !actions[i].Crash?
  }

  /** The channel can answer so. */
  predicate CanMeet(item: Item, answer: Answer) {
    answer.Answered? ==> CanAnswer(item.channel, answer.outcome)
  }

  /** One row's turn in the program is a run of the dispatcher's own steps. */
  lemma TurnIsARun(s: State, answer: Answer) returns (actions: seq<Action>, t: State)
    requires s.work.todo != [] && s.work.phase.Ready? && CanMeet(s.work.todo[0], answer)
    ensures Undisturbed(actions) && Leads(Step, s, actions, t)
    ensures t.db == HandleItem(s.db, s.work.todo[0], answer, s.work.now)
    ensures t.work == s.work.(todo := s.work.todo[1..])
  {
    var item := s.work.todo[0];
    var plan := PlanFor(item, s.work.now);
    LeadsNowhere(Step, s);
    if answer.SwitchedOff? || plan.LeaveIt?
        || (plan.SendIt? && (answer.HeldBack? || (answer.Unreadable? && !item.kind.News?))) {
      t := Next(s, Skip);
      LeadsOn(Step, s, [], s, Skip, t);
      actions := [] + [Skip];
    } else if plan.GiveItUp? || answer.Unreadable? {
      t := Next(s, GiveUpHead);
      LeadsOn(Step, s, [], s, GiveUpHead, t);
      actions := [] + [GiveUpHead];
    } else {
      actions, t := SentIsARun(s, answer.outcome);
    }
  }

  lemma SentIsARun(s: State, o: Outcome) returns (actions: seq<Action>, t: State)
    requires s.work.todo != [] && s.work.phase.Ready? && PlanFor(s.work.todo[0], s.work.now).SendIt?
    requires CanAnswer(s.work.todo[0].channel, o)
    ensures Undisturbed(actions) && Leads(Step, s, actions, t)
    ensures t.db == Settled(s.db, s.work.todo[0], o, s.work.now)
    ensures t.work == s.work.(todo := s.work.todo[1..])
  {
    var send := Send(o, s.clock, s.clock);
    var a := Next(s, send);
    var b := Next(a, FirstWrite);
    LeadsNowhere(Step, s);
    LeadsOn(Step, s, [], s, send, a);
    LeadsOn(Step, s, [] + [send], a, FirstWrite, b);
    var rest;
    rest, t := WrittenIsARun(b);
    LeadsFar(Step, s, [] + [send] + [FirstWrite], b, rest, t);
    actions := [] + [send] + [FirstWrite] + rest;
    hide SettleFirst, SettleLast, Quarantine, PlanFor, Next, Enabled;
  }

  /** What is left of a turn after the first write. */
  lemma WrittenIsARun(s: State) returns (actions: seq<Action>, t: State)
    requires s.work.todo != [] && (s.work.phase.AtLimit? || s.work.phase.HalfSettled?)
    ensures Undisturbed(actions) && Leads(Step, s, actions, t)
    ensures var item := s.work.todo[0];
            t.db == SettleLast(if s.work.phase.AtLimit? then Quarantine(s.db, item.sid, s.work.now) else s.db,
                                 item, s.work.phase.outcome, s.work.now)
    ensures t.work == s.work.(todo := s.work.todo[1..], phase := Ready)
  {
    hide SettleLast, Quarantine;
    LeadsNowhere(Step, s);
    if s.work.phase.AtLimit? {
      var c := Next(s, QuarantineWrite);
      t := Next(c, LastWrite);
      LeadsOn(Step, s, [], s, QuarantineWrite, c);
      LeadsOn(Step, s, [] + [QuarantineWrite], c, LastWrite, t);
      actions := [] + [QuarantineWrite] + [LastWrite];
    } else {
      t := Next(s, LastWrite);
      LeadsOn(Step, s, [], s, LastWrite, t);
      actions := [] + [LastWrite];
    }
  }

  /** So everything proved of runs holds of `DispatchDue`: from an idle dispatcher, what
      it does to the tables is what some undisturbed run does. */
  lemma {:induction false} PassIsARun(
    s: State, channels: set<string>, items: seq<Item>, answers: seq<Answer>, now: int, n: nat)
    returns (actions: seq<Action>, t: State)
    requires s.work.todo == [] && NextRead(s) <= now && IsBatch(items, s.db, now, channels) && n <= |items| <= |answers|
    requires forall i :: 0 <= i < |items| ==> CanMeet(items[i], answers[i])
    ensures Undisturbed(actions) && Leads(Step, s, actions, t)
    ensures t.db == HandleUpTo(s.db, items, answers, now, n)
    ensures t.work == Work(now, items[n..], Ready)
  {
    if n == 0 {
      var a := ReadBatch(now, channels, items);
      t := Next(s, a);
      LeadsNowhere(Step, s);
      LeadsOn(Step, s, [], s, a, t);
      actions := [] + [a];
    } else {
      var front, mid := PassIsARun(s, channels, items, answers, now, n - 1);
      var turn, last := TurnIsARun(mid, answers[n - 1]);
      LeadsFar(Step, s, front, mid, turn, last);
      actions, t := front + turn, last;
    }
  }
}
