// What holds of every subscriber in every run: links and confirmations, and the
// failures that lead to quarantine.

module SubscriberInvariants {
  import opened Basics
  import opened Backoff
  import opened FailureWindow
  import opened Ledger
  import opened LedgerInvariants
  import opened Delivery
  import opened DeliveryInvariants

  function Issued(s: State, id: int): nat { At(s.hist.issued, id, 0) }
  function Used(s: State, id: int): nat { At(s.hist.used, id, 0) }
  function OpenLinks(s: State, id: int): seq<int> { At(s.hist.openLinks, id, []) }
  function Marks(s: State, id: int): seq<Mark> { At(s.hist.marks, id, []) }
  function Missed(s: State, id: int): nat { At(s.hist.missed, id, 0) }

  /** Links issued at least 15 minutes apart. */
  predicate Apart(links: seq<int>) {
    forall i :: 0 < i < |links| ==> links[i] - links[i - 1] >= CONFIRM_RESEND_SECS
  }

  ghost predicate LinksOk(s: State, id: int) {
    var links := OpenLinks(s, id);
    && Used(s, id) + |links| <= Issued(s, id)
    && Apart(links)
    && (id >= s.db.nextSub ==> Issued(s, id) == 0)
    && (id in s.db.subs && s.db.subs[id].confirmExpires.Some? ==>
          links != [] && s.db.subs[id].confirmExpires.value == links[|links| - 1] + CONFIRM_TTL_SECS)
    && (id in s.db.subs && s.db.subs[id].confirmExpires.None? ==> links == [])
  }

  /** No failure of the trace is later than `t`. */
  predicate UpTo(marks: seq<Mark>, t: int) {
    forall i :: 0 <= i < |marks| && marks[i].Failed? ==> marks[i].at <= t
  }

  /** The trace is in order; the counter replays it; a quarantine was written for a burst
      that ended when it says; and a count at the limit is followed by its quarantine,
      unless a crash fell between the two. */
  ghost predicate MarksOk(s: State, id: int) {
    var marks := Marks(s, id);
    && (id >= s.db.nextSub ==> marks == [])
    && InOrder(marks) && UpTo(marks, s.clock)
    && (s.work.todo != [] ==> UpTo(marks, s.work.now))
    && (LimitOf(s.work, id) ==> TrippedAt(marks, s.work.now))
    && (id in s.db.subs ==>
          var sub := s.db.subs[id];
          && sub.window == Replay(marks)
          && (sub.status.Quarantined? ==> sub.quarantinedAt.Some? && TrippedAt(marks, sub.quarantinedAt.value))
          && (!sub.status.Quarantined? && sub.window.failures >= QUARANTINE_FAILURES ==>
                LimitOf(s.work, id) || Missed(s, id) > 0))
  }

  ghost predicate SubscribersOk(s: State) {
    && (forall id :: LinksOk(s, id))
    && (forall id :: MarksOk(s, id))
  }

  lemma {:induction false} ReplayAppend(marks: seq<Mark>, m: Mark)
    ensures Replay(marks + [m]) == match m case Cleared => ZERO case Failed(t) => CountFailure(Replay(marks), t)
    ensures Replay(marks).failures == 0 ==> Replay(marks) == ZERO
    ensures forall t :: TrippedAt(marks, t) ==> TrippedAt(marks + [m], t)
  {
    assert (marks + [m])[..|marks|] == marks;
    forall t | TrippedAt(marks, t)
      ensures TrippedAt(marks + [m], t)
    {
      TrippedStays(marks, marks + [m], t);
    }
    CounterIsBurst(marks);
  }

  // ---- What the history notes of a transaction ----

  function LinksAfter(links: seq<int>, issued: Option<(int, int)>, used: Option<int>, id: int): seq<int> {
    if used == Some(id) then []
    else if issued.Some? && issued.value.0 == id then links + [issued.value.1]
    else links
  }

  lemma {:induction false} NotedIs(
    h: History, issued: Option<(int, int)>, used: Option<int>, cleared: Option<int>, id: int)
    requires issued.None? || used.None?
    ensures var after := Note(h, issued, used, cleared);
            && At(after.issued, id, 0) == At(h.issued, id, 0) + (if issued.Some? && issued.value.0 == id then 1 else 0)
            && At(after.used, id, 0) == At(h.used, id, 0) + (if used == Some(id) then 1 else 0)
            && At(after.openLinks, id, []) == LinksAfter(At(h.openLinks, id, []), issued, used, id)
            && At(after.marks, id, []) == At(h.marks, id, []) + (if cleared == Some(id) then [Cleared] else [])
            && after.missed == h.missed
  {
  }

  // ---- Outside transactions ----

  /** What a sign-up does to subscriber `id`. */
  lemma {:induction false} SignUpRow(db: Db, form: SignUpForm, now: int, id: int)
    requires TablesOk(db)
    ensures SignUp(db, form, now).nextSub >= db.nextSub
    ensures SignUpTarget(db, form, now) == Some(id) ==>
              && id < SignUp(db, form, now).nextSub
              && (id in db.subs || id == db.nextSub)
              && (id in db.subs && db.subs[id].confirmExpires.Some? ==>
                    now - (db.subs[id].confirmExpires.value - CONFIRM_TTL_SECS) >= CONFIRM_RESEND_SECS)
              && (id in SignUp(db, form, now).subs ==>
                    var t := SignUp(db, form, now).subs[id];
                    && t.confirmExpires == Some(now + CONFIRM_TTL_SECS)
                    && t.window == ZERO && t.status.Pending?)
    ensures SignUpTarget(db, form, now) != Some(id) && id in SignUp(db, form, now).subs ==>
              id in db.subs && SignUp(db, form, now).subs[id] == db.subs[id]
  {
  }

  lemma {:induction false} MarksGrow(marks: seq<Mark>, t: int)
    ensures InOrder(marks) ==> InOrder(marks + [Cleared])
    ensures UpTo(marks, t) ==> UpTo(marks + [Cleared], t)
  {
  }

  lemma {:induction false} SignUpLinks(s: State, form: SignUpForm, now: int, id: int)
    requires TablesOk(s.db) && LinksOk(s, id) && Possible(s.db, TSignUp(form, now))
    ensures LinksOk(Next(s, Outside(TSignUp(form, now))), id)
  {
    SignUpRow(s.db, form, now, id);
    var t := TSignUp(form, now);
    NotedIs(s.hist, LinkIssued(s.db, t), None, CounterCleared(s.db, t), id);
    hide TablesOk, SignUp, SignUpTarget, Note;
    assert LinkUsed(s.db, t) == None;
  }

  lemma {:induction false} SignUpMarks(s: State, form: SignUpForm, now: int, id: int)
    requires TablesOk(s.db) && MarksOk(s, id) && Possible(s.db, TSignUp(form, now))
    ensures MarksOk(Next(s, Outside(TSignUp(form, now))), id)
  {
    SignUpRow(s.db, form, now, id);
    ReplayAppend(Marks(s, id), Cleared);
    MarksGrow(Marks(s, id), s.clock);
    MarksGrow(Marks(s, id), s.work.now);
    var t := TSignUp(form, now);
    NotedIs(s.hist, LinkIssued(s.db, t), None, CounterCleared(s.db, t), id);
    hide TablesOk, SignUp, SignUpTarget, Note, Replay, TrippedAt, InOrder, UpTo;
    assert LinkUsed(s.db, t) == None;
  }

  lemma {:induction false} SignUpByLinkSub(s: State, form: SignUpForm, now: int, id: int)
    requires TablesOk(s.db) && LinksOk(s, id) && MarksOk(s, id) && Possible(s.db, TSignUpByLink(form, now))
    ensures LinksOk(Next(s, Outside(TSignUpByLink(form, now))), id)
    ensures MarksOk(Next(s, Outside(TSignUpByLink(form, now))), id)
  {
  }

  /** A link confirms one subscriber at most: the one it was issued to. */
  lemma {:induction false} OneConfirmable(db: Db, token: Token, now: int, id: int)
    requires TablesOk(db) && id in db.subs
    ensures Confirmable(db.subs[id], token, now) <==> FindConfirmable(db.subs, token, now) == Some(id)
  {
    match FindConfirmable(db.subs, token, now)
    case None =>
    case Some(j) => assert TokensOfRow(j, db.subs[j]) && TokensOfRow(id, db.subs[id]);
  }

  /** What a confirmation does to subscriber `id`. */
  lemma {:induction false} ConfirmRow(db: Db, token: Token, now: int, id: int)
    requires TablesOk(db)
    ensures Confirm(db, token, now).nextSub == db.nextSub
    ensures id in Confirm(db, token, now).subs <==> id in db.subs
    ensures id in db.subs ==>
              Confirm(db, token, now).subs[id]
              == if FindConfirmable(db.subs, token, now) == Some(id) then Confirmed(db.subs[id], now) else db.subs[id]
    ensures FindConfirmable(db.subs, token, now) == Some(id) ==> id in db.subs && db.subs[id].status.Pending?
  {
    if id in db.subs {
      OneConfirmable(db, token, now, id);
    }
  }

  lemma {:induction false} ConfirmSub(s: State, token: Token, now: int, id: int)
    requires TablesOk(s.db) && LinksOk(s, id) && MarksOk(s, id)
    ensures LinksOk(Next(s, Outside(TConfirm(token, now))), id)
    ensures MarksOk(Next(s, Outside(TConfirm(token, now))), id)
  {
    ConfirmRow(s.db, token, now, id);
    hide TablesOk, Confirm, FindConfirmable, Replay, TrippedAt, InOrder, UpTo;
  }

  /** What a linked chat already known does to subscriber `id`. */
  lemma {:induction false} LinkChatRow(db: Db, token: Token, chat: string, now: int, id: int)
    requires TablesOk(db)
    requires LinkResult(db, token, now) == Subscribed && FindAddress(db.subs, TELEGRAM, Known(chat)).Some?
    ensures var p, known := FindLink(db.subs, token).value, FindAddress(db.subs, TELEGRAM, Known(chat)).value;
            var after := LinkChat(db, token, chat, now);
            && after.nextSub == db.nextSub
            && p < db.nextSub && known < db.nextSub
            && (id in after.subs ==> id in db.subs && id != p)
            && (id in after.subs && id != known ==> after.subs[id] == db.subs[id])
            && (id in after.subs && id == known ==>
                  && after.subs[id].confirmExpires == db.subs[id].confirmExpires
                  && after.subs[id].window == ZERO && after.subs[id].status.Active?)
  {
  }

  lemma {:induction false} LinksOfKnown(s: State, token: Token, chat: string, now: int, id: int)
    requires TablesOk(s.db) && LinksOk(s, id)
    requires LinkResult(s.db, token, now) == Subscribed && FindAddress(s.db.subs, TELEGRAM, Known(chat)).Some?
    ensures LinksOk(Next(s, Outside(TLinkChat(token, chat, now))), id)
  {
    LinkChatRow(s.db, token, chat, now, id);
    var t := TLinkChat(token, chat, now);
    NotedIs(s.hist, None, LinkUsed(s.db, t), CounterCleared(s.db, t), id);
    hide TablesOk, LinkChat, LinkResult, Note;
    assert LinkIssued(s.db, t) == None;
  }

  lemma {:induction false} MarksOfKnown(s: State, token: Token, chat: string, now: int, id: int)
    requires TablesOk(s.db) && MarksOk(s, id)
    requires LinkResult(s.db, token, now) == Subscribed && FindAddress(s.db.subs, TELEGRAM, Known(chat)).Some?
    ensures MarksOk(Next(s, Outside(TLinkChat(token, chat, now))), id)
  {
    LinkChatRow(s.db, token, chat, now, id);
    MarksGrow(Marks(s, id), s.clock);
    MarksGrow(Marks(s, id), s.work.now);
    ReplayAppend(Marks(s, id), Cleared);
    var t := TLinkChat(token, chat, now);
    NotedIs(s.hist, None, LinkUsed(s.db, t), CounterCleared(s.db, t), id);
    hide TablesOk, LinkChat, LinkResult, Note, Replay, TrippedAt, InOrder, UpTo;
    assert LinkIssued(s.db, t) == None;
  }

  lemma {:induction false} LinkChatToNew(s: State, token: Token, chat: string, now: int, id: int)
    requires TablesOk(s.db) && LinksOk(s, id) && MarksOk(s, id)
    requires LinkResult(s.db, token, now) == Subscribed && FindAddress(s.db.subs, TELEGRAM, Known(chat)).None?
    ensures LinksOk(Next(s, Outside(TLinkChat(token, chat, now))), id)
    ensures MarksOk(Next(s, Outside(TLinkChat(token, chat, now))), id)
  {
    var s' := Next(s, Outside(TLinkChat(token, chat, now)));
    var p := FindLink(s.db.subs, token).value;
    assert OpenLinks(s', id) == if id == p then [] else OpenLinks(s, id);
    assert Marks(s', id) == Marks(s, id);
  }

  lemma {:induction false} LinkChatSub(s: State, token: Token, chat: string, now: int, id: int)
    requires TablesOk(s.db) && LinksOk(s, id) && MarksOk(s, id)
    ensures LinksOk(Next(s, Outside(TLinkChat(token, chat, now))), id)
    ensures MarksOk(Next(s, Outside(TLinkChat(token, chat, now))), id)
  {
    if LinkResult(s.db, token, now) == Subscribed {
      if FindAddress(s.db.subs, TELEGRAM, Known(chat)).Some? {
        LinksOfKnown(s, token, chat, now, id);
        MarksOfKnown(s, token, chat, now, id);
      } else {
        LinkChatToNew(s, token, chat, now, id);
      }
    }
  }

  lemma {:induction false} FanOutAndPruneSub(s: State, t: Transaction, id: int)
    requires TablesOk(s.db) && LinksOk(s, id) && MarksOk(s, id) && Possible(s.db, t)
    requires !t.TSignUp? && !t.TSignUpByLink? && !t.TConfirm? && !t.TLinkChat?
    ensures LinksOk(Next(s, Outside(t)), id) && MarksOk(Next(s, Outside(t)), id)
  {
  }

  lemma {:induction false} OutsideSub(s: State, t: Transaction, id: int)
    requires TablesOk(s.db) && LinksOk(s, id) && MarksOk(s, id) && Possible(s.db, t)
    ensures LinksOk(Next(s, Outside(t)), id) && MarksOk(Next(s, Outside(t)), id)
  {
    match t
    case TSignUp(form, now) => SignUpLinks(s, form, now, id); SignUpMarks(s, form, now, id);
    case TSignUpByLink(form, now) => SignUpByLinkSub(s, form, now, id);
    case TConfirm(token, now) => ConfirmSub(s, token, now, id);
    case TLinkChat(token, chat, now) => LinkChatSub(s, token, chat, now, id);
    case _ => FanOutAndPruneSub(s, t, id);
  }

  // ---- The dispatcher ----

  predicate CountsAgainst(item: Item, o: Outcome, id: int) {
    Counts(o) && id == item.sid
  }

  /** What the writes after a send do to a subscriber that stays. */
  lemma {:induction false} SettleSubs(db: Db, item: Item, o: Outcome, now: int, id: int)
    ensures SettleFirst(db, item, o, now).nextSub == SettleLast(db, item, o, now).nextSub == db.nextSub
    ensures id in SettleFirst(db, item, o, now).subs ==> id in db.subs
    ensures id in SettleLast(db, item, o, now).subs ==> id in db.subs
    ensures id in SettleFirst(db, item, o, now).subs ==>
              SettleFirst(db, item, o, now).subs[id]
              == if CountsAgainst(item, o, id) then db.subs[id].(window := CountFailure(db.subs[id].window, now))
                  else db.subs[id]
    ensures id in SettleLast(db, item, o, now).subs ==>
              SettleLast(db, item, o, now).subs[id]
              == if o.Delivered? && id == item.sid && db.subs[id].window.failures != 0
                  then db.subs[id].(window := ZERO) else db.subs[id]
    ensures CountsAgainst(item, o, id) && id in db.subs ==> id in SettleFirst(db, item, o, now).subs
  {
  }

  /** One counted failure, on the trace. */
  lemma {:induction false} OneMoreFailure(marks: seq<Mark>, now: int)
    requires InOrder(marks) && UpTo(marks, now)
    ensures InOrder(marks + [Failed(now)]) && UpTo(marks + [Failed(now)], now)
    ensures Replay(marks + [Failed(now)]).failures >= QUARANTINE_FAILURES ==> TrippedAt(marks + [Failed(now)], now)
  {
    if Replay(marks + [Failed(now)]).failures >= QUARANTINE_FAILURES {
      TenCounted(marks + [Failed(now)]);
    }
  }

  /** Neither write of a turn touches a link. */
  lemma {:induction false} TurnLeavesLinks(s: State, a: Action, id: int)
    requires BatchOk(s) && LinksOk(s, id) && Enabled(s, a) && (a.FirstWrite? || a.LastWrite?)
    ensures LinksOk(Next(s, a), id)
  {
    hide SettleFirst, SettleLast, BatchOk;
    SettleSubs(s.db, s.work.todo[0], s.work.phase.outcome, s.work.now, id);
  }

  lemma {:induction false} FirstWriteMarks(s: State, id: int)
    requires TablesOk(s.db) && BatchOk(s) && MarksOk(s, id) && Enabled(s, FirstWrite)
    ensures MarksOk(Next(s, FirstWrite), id)
  {
    hide TablesOk, SettleFirst, Replay, TrippedAt, InOrder, UpTo;
    ReplayAppend(Marks(s, id), Failed(s.work.now));
    OneMoreFailure(Marks(s, id), s.work.now);
    assert UpTo(Marks(s, id) + [Failed(s.work.now)], s.clock) by {
      LaterToo(Marks(s, id) + [Failed(s.work.now)], s.work.now, s.clock);
    }
    SettleSubs(s.db, s.work.todo[0], s.work.phase.outcome, s.work.now, id);
    assert ItemOk(s, 0);
  }

  lemma {:induction false} LaterToo(marks: seq<Mark>, t: int, u: int)
    requires UpTo(marks, t) && t <= u
    ensures UpTo(marks, u)
  {
  }

  lemma {:induction false} QuarantineWriteSub(s: State, id: int)
    requires TablesOk(s.db) && BatchOk(s) && LinksOk(s, id) && MarksOk(s, id) && Enabled(s, QuarantineWrite)
    ensures LinksOk(Next(s, QuarantineWrite), id) && MarksOk(Next(s, QuarantineWrite), id)
  {
    hide TablesOk, Replay, TrippedAt, InOrder, UpTo;
  }

  lemma {:induction false} LastWriteMarks(s: State, id: int)
    requires TablesOk(s.db) && BatchOk(s) && MarksOk(s, id) && Enabled(s, LastWrite)
    ensures MarksOk(Next(s, LastWrite), id)
  {
    hide TablesOk, SettleLast, Replay, TrippedAt;
    ReplayAppend(Marks(s, id), Cleared);
    SettleSubs(s.db, s.work.todo[0], s.work.phase.outcome, s.work.now, id);
    assert ItemOk(s, 0);
  }

  lemma {:induction false} NextSub(s: State, a: Action, id: int)
    requires TablesOk(s.db) && BatchOk(s) && LinksOk(s, id) && MarksOk(s, id) && Enabled(s, a)
    ensures LinksOk(Next(s, a), id) && MarksOk(Next(s, a), id)
  {
    match a
    case Outside(t) => OutsideSub(s, t, id);
    case ReadBatch(now, _, _) => LaterToo(Marks(s, id), s.clock, now);
    case Send(_, _, ended) => LaterToo(Marks(s, id), s.clock, ended);
    case FirstWrite => TurnLeavesLinks(s, a, id); FirstWriteMarks(s, id);
    case QuarantineWrite => QuarantineWriteSub(s, id);
    case LastWrite => TurnLeavesLinks(s, a, id); LastWriteMarks(s, id);
    case _ =>
  }

  lemma {:induction false} RunsKeepSubscribers(states: seq<State>, actions: seq<Action>, i: nat)
    requires IsRun(states, actions) && i < |states|
    ensures SubscribersOk(states[i])
  {
    if i > 0 {
      RunsKeepSubscribers(states, actions, i - 1);
      RunsAreSound(states, actions, i - 1);
      assert states[i - 1 + 1] == Next(states[i - 1], actions[i - 1]);
      forall id ensures LinksOk(states[i], id) && MarksOk(states[i], id) {
        NextSub(states[i - 1], actions[i - 1], id);
      }
    }
  }
}
