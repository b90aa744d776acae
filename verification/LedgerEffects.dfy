// What each transaction on the ledger does, said column by column of the tables before
// and after: `Ledger` computes it, the methods of `Database` do it statement by statement,
// and both are held to this.

module LedgerEffects {
  import opened Basics
  import opened FailureWindow
  import opened Ledger

  const NO_FAILURES := Counter(None, 0)

  predicate HasAddress(db: Db, id: int, channel: string, address: Address) {
    id in db.subs && db.subs[id].channel == channel && db.subs[id].address == address
  }

  /** No subscriber row changes but `id`'s, and none comes or goes. */
  ghost predicate OnlySub(a: Db, b: Db, id: int) {
    && b.subs.Keys == a.subs.Keys && b.nextSub == a.nextSub
    && forall j :: j in a.subs && j != id ==> b.subs[j] == a.subs[j]
  }

  ghost predicate SameOutbox(a: Db, b: Db) {
    b.outbox == a.outbox && b.nextRow == a.nextRow
  }

  /** Of the outbox go exactly the rows of subscribers that went. */
  ghost predicate RowsGoWith(a: Db, b: Db) {
    && (forall r :: r in b.outbox <==> r in a.outbox && a.outbox[r].sub in b.subs)
    && (forall r :: r in b.outbox ==> b.outbox[r] == a.outbox[r])
    && b.nextRow == a.nextRow
  }

  // ---- Signing up ----

  /** Nobody has the address, or whoever has it is not active and was sent no link in the
      last 15 minutes. */
  ghost predicate MayAsk(db: Db, form: SignUpForm, now: int) {
    forall id :: HasAddress(db, id, form.channel, form.address) ==>
      && !db.subs[id].status.Active?
      && (|| db.subs[id].confirmExpires.None?
          || now - (db.subs[id].confirmExpires.value - CONFIRM_TTL_SECS) >= CONFIRM_RESEND_SECS)
  }

  function ChosenOf(form: SignUpForm): set<string> {
    if form.allComponents then {} else set c | c in form.components
  }

  /** `id` is the row of the address, or a new one if there is none. */
  ghost predicate RowFor(a: Db, form: SignUpForm, id: int) {
    if id in a.subs then HasAddress(a, id, form.channel, form.address)
    else id == a.nextSub && forall j :: !HasAddress(a, j, form.channel, form.address)
  }

  /** Row `id` as the sign-up leaves it: the form's choices, a cleared counter, and a link
      good for a day. */
  ghost predicate AsksIn(a: Db, s: Subscriber, form: SignUpForm, now: int, id: int) {
    && s.channel == form.channel && s.address == form.address
    && s.allComponents == form.allComponents && s.maintenance == form.maintenance && s.components == ChosenOf(form)
    && s.status == Pending && s.window == NO_FAILURES && s.quarantinedAt == None
    && s.confirmExpires == Some(now + CONFIRM_TTL_SECS)
    && s.confirmHash == Some(ConfirmToken(id, now + CONFIRM_TTL_SECS))
    && (if id in a.subs
        then s.unsubHash == a.subs[id].unsubHash && s.createdAt == a.subs[id].createdAt
             && s.confirmedAt == a.subs[id].confirmedAt
        else s.unsubHash == UnsubscribeToken(id, now) && s.createdAt == now && s.confirmedAt == None)
  }

  /** What was queued for `id` and is dropped: a confirmation not sent yet, and whatever
      its quarantine held back. */
  predicate Superseded(a: Db, r: int, id: int)
    requires r in a.outbox
  {
    && a.outbox[r].sub == id
    && (|| (a.outbox[r].kind.Confirmation? && a.outbox[r].sentAt.None?)
        || (id in a.subs && a.subs[id].status.Quarantined? && a.outbox[r].sentAt.None? && a.outbox[r].failedAt.None?))
  }

  ghost predicate Asked(a: Db, b: Db, form: SignUpForm, now: int, id: int) {
    && RowFor(a, form, id)
    && b.subs.Keys == a.subs.Keys + {id}
    && b.nextSub == (if id in a.subs then a.nextSub else a.nextSub + 1)
    && (forall j :: j in a.subs && j != id ==> b.subs[j] == a.subs[j])
    && AsksIn(a, b.subs[id], form, now, id)
    && b.nextRow == a.nextRow + 1
    && a.nextRow in b.outbox && b.outbox[a.nextRow] == Row(id, Confirmation, now, now, 0, None, None)
    && (forall r :: r in b.outbox && r != a.nextRow ==> r in a.outbox && b.outbox[r] == a.outbox[r])
    && (forall r :: r in a.outbox ==> (r in b.outbox <==> !Superseded(a, r, id)))
  }

  ghost predicate SignedUp(a: Db, b: Db, form: SignUpForm, now: int) {
    && (a.nextRow in b.outbox <==> MayAsk(a, form, now))
    && (if MayAsk(a, form, now) then exists id :: Asked(a, b, form, now, id) else b == a)
  }

  /** The one to whom the address belongs. */
  lemma {:induction false} OneHasAddress(db: Db, channel: string, address: Address, id: int)
    requires TablesOk(db)
    ensures HasAddress(db, id, channel, address) <==> FindAddress(db.subs, channel, address) == Some(id)
  {
    assert Lives(db.subs, id, channel, address) <==> HasAddress(db, id, channel, address);
  }

  lemma {:induction false} AskedNew(db: Db, form: SignUpForm, now: int)
    requires TablesOk(db) && FindAddress(db.subs, form.channel, form.address).None?
    ensures Asked(db, IssueLink(InsertPending(db, form, now), form, db.nextSub, now), form, now, db.nextSub)
  {
    hide AddressesUnique, TokensOk, PlaceholdersOwn, PendingIsQuiet, OneConfirmation;
    forall j
      ensures !HasAddress(db, j, form.channel, form.address)
    {
      assert !Lives(db.subs, j, form.channel, form.address);
    }
  }

  lemma {:induction false} AskedAgain(db: Db, form: SignUpForm, now: int, id: int)
    requires TablesOk(db) && HasAddress(db, id, form.channel, form.address)
    ensures Asked(db, IssueLink(ResetPending(db, form, id), form, id, now), form, now, id)
  {
    hide AddressesUnique, TokensOk, PlaceholdersOwn, PendingIsQuiet, OneConfirmation;
  }

  lemma {:induction false} SignUpDoes(db: Db, form: SignUpForm, now: int)
    requires TablesOk(db)
    ensures SignedUp(db, SignUp(db, form, now), form, now)
  {
    var found := FindAddress(db.subs, form.channel, form.address);
    forall id
      ensures HasAddress(db, id, form.channel, form.address) <==> found == Some(id)
    {
      OneHasAddress(db, form.channel, form.address, id);
    }
    match found
    case None => AskedNew(db, form, now);
    case Some(id) => AskedAgain(db, form, now, id);
    hide AddressesUnique, TokensOk, PlaceholdersOwn, PendingIsQuiet, OneConfirmation, IssueLink, ResetPending,
         InsertPending, FindAddress;
  }

  /** A sign-up by link: always a new row, waiting for its link, and nothing queued. */
  ghost predicate SignedUpByLink(a: Db, b: Db, form: SignUpForm, now: int) {
    && SameOutbox(a, b)
    && b.nextSub == a.nextSub + 1 && b.subs.Keys == a.subs.Keys + {a.nextSub}
    && (forall j :: j in a.subs ==> b.subs[j] == a.subs[j])
    && b.subs[a.nextSub] == Subscriber(
         form.channel, Placeholder(a.nextSub), form.allComponents, form.maintenance, ChosenOf(form), Pending,
         Some(ConfirmToken(a.nextSub, now + CONFIRM_TTL_SECS)), Some(now + CONFIRM_TTL_SECS),
         UnsubscribeToken(a.nextSub, now), now, None, NO_FAILURES, None)
  }

  lemma {:induction false} SignUpByLinkDoes(db: Db, form: SignUpForm, now: int)
    requires TablesOk(db)
    ensures SignedUpByLink(db, SignUpByLink(db, form, now), form, now)
  {
  }

  // ---- Confirming ----

  /** Row `id` waits for this link. */
  predicate WaitsFor(db: Db, id: int, token: Token) {
    id in db.subs && db.subs[id].status.Pending? && db.subs[id].confirmHash == Some(token)
  }

  predicate InTime(s: Subscriber, now: int) {
    s.confirmExpires.Some? && s.confirmExpires.value > now
  }

  /** `id` waits for the link and it is still good. */
  predicate CanConfirm(db: Db, id: int, token: Token, now: int) {
    WaitsFor(db, id, token) && InTime(db.subs[id], now)
  }

  /** The row that can be confirmed becomes active, and its link is used up. */
  ghost predicate ConfirmedBy(a: Db, b: Db, token: Token, now: int) {
    && SameOutbox(a, b)
    && b.subs.Keys == a.subs.Keys && b.nextSub == a.nextSub
    && forall id :: id in a.subs ==>
         b.subs[id] == if CanConfirm(a, id, token, now)
                       then a.subs[id].(status := Active, confirmedAt := Some(now),
                                        confirmHash := None, confirmExpires := None)
                       else a.subs[id]
  }

  lemma {:induction false} ConfirmDoes(db: Db, token: Token, now: int)
    ensures ConfirmedBy(db, Confirm(db, token, now), token, now)
  {
  }

  // ---- Leaving ----

  /** Exactly the rows with this unsubscribe token go, and what was queued for them. */
  ghost predicate UnsubscribedBy(a: Db, b: Db, token: Token) {
    && (forall id :: id in b.subs <==> id in a.subs && a.subs[id].unsubHash != token)
    && (forall id :: id in b.subs ==> b.subs[id] == a.subs[id])
    && b.nextSub == a.nextSub && RowsGoWith(a, b)
  }

  lemma {:induction false} UnsubscribeDoes(db: Db, token: Token)
    requires TablesOk(db)
    ensures UnsubscribedBy(db, Unsubscribe(db, token), token)
  {
    hide AddressesUnique, TokensOk, PlaceholdersOwn, PendingIsQuiet, OneConfirmation;
  }

  /** Exactly the rows of this chat go. */
  ghost predicate ChatLeft(a: Db, b: Db, chat: string) {
    && (forall id :: id in b.subs <==> id in a.subs && !HasAddress(a, id, TELEGRAM, Known(chat)))
    && (forall id :: id in b.subs ==> b.subs[id] == a.subs[id])
    && b.nextSub == a.nextSub && RowsGoWith(a, b)
  }

  lemma {:induction false} StopChatDoes(db: Db, chat: string)
    requires TablesOk(db)
    ensures ChatLeft(db, StopChat(db, chat), chat)
  {
    hide AddressesUnique, TokensOk, PlaceholdersOwn, PendingIsQuiet, OneConfirmation;
    assert forall id :: Lives(db.subs, id, TELEGRAM, Known(chat)) <==> HasAddress(db, id, TELEGRAM, Known(chat));
  }

  // ---- Linking a chat ----

  /** Row `p` is a Telegram sign-up that waits for this link. */
  predicate WaitsForChat(db: Db, p: int, token: Token) {
    WaitsFor(db, p, token) && db.subs[p].channel == TELEGRAM
  }

  /** What the link answers. */
  ghost predicate AnswersLink(db: Db, token: Token, now: int, answer: Linked) {
    && (answer == Subscribed <==> exists p :: WaitsForChat(db, p, token) && InTime(db.subs[p], now))
    && (answer == Expired <==> exists p :: WaitsForChat(db, p, token) && !InTime(db.subs[p], now))
    && (answer == Invalid <==> forall p :: !WaitsForChat(db, p, token))
  }

  /** The chat's row `id` takes the choices of the pending row `p`, starts over as active,
      and `p` goes with what was queued for it. */
  ghost predicate TookOver(a: Db, b: Db, id: int, p: int, now: int) {
    && id in a.subs && p in a.subs
    && b.subs.Keys == a.subs.Keys - {p} && b.nextSub == a.nextSub
    && (forall j :: j in b.subs && j != id ==> b.subs[j] == a.subs[j])
    && (id != p ==> b.subs[id] == a.subs[id].(
         allComponents := a.subs[p].allComponents, maintenance := a.subs[p].maintenance,
         components := a.subs[p].components,
         status := Active, confirmedAt := Some(now), window := NO_FAILURES, quarantinedAt := None))
    && RowsGoWith(a, b)
  }

  /** The pending row `p` keeps its choices and becomes the chat's. */
  ghost predicate GotAddress(a: Db, b: Db, p: int, chat: string, now: int) {
    && p in a.subs && OnlySub(a, b, p) && SameOutbox(a, b)
    && b.subs[p] == a.subs[p].(
         address := Known(chat), status := Active, confirmedAt := Some(now),
         confirmHash := None, confirmExpires := None)
  }

  ghost predicate ChatLinked(a: Db, b: Db, token: Token, chat: string, now: int, answer: Linked) {
    && AnswersLink(a, token, now, answer)
    && (answer != Subscribed ==> b == a)
    && (answer == Subscribed ==>
          forall p :: WaitsForChat(a, p, token) ==>
            if exists id :: HasAddress(a, id, TELEGRAM, Known(chat))
            then exists id :: HasAddress(a, id, TELEGRAM, Known(chat)) && TookOver(a, b, id, p, now)
            else GotAddress(a, b, p, chat, now))
  }

  /** One row at most waits for a link. */
  lemma {:induction false} OneWaits(db: Db, token: Token, p: int)
    requires TablesOk(db)
    ensures WaitsForChat(db, p, token) <==> FindLink(db.subs, token) == Some(p)
  {
    hide AddressesUnique, PlaceholdersOwn, PendingIsQuiet, OneConfirmation, RefsOk;
    var found := FindLink(db.subs, token);
    assert LinkPending(db.subs, p, token) <==> WaitsForChat(db, p, token);
    if found.Some? && p in db.subs {
      assert TokensOfRow(p, db.subs[p]) && TokensOfRow(found.value, db.subs[found.value]);
    }
  }

  lemma {:induction false} LinkAnswers(db: Db, token: Token, now: int)
    requires TablesOk(db)
    ensures AnswersLink(db, token, now, LinkResult(db, token, now))
  {
    forall p
      ensures WaitsForChat(db, p, token) <==> FindLink(db.subs, token) == Some(p)
    {
      OneWaits(db, token, p);
    }
    hide TablesOk, WaitsForChat, FindLink;
  }

  lemma {:induction false} LinkChatTakes(db: Db, token: Token, chat: string, now: int, p: int)
    requires TablesOk(db) && WaitsForChat(db, p, token) && InTime(db.subs[p], now)
    ensures var b := LinkChat(db, token, chat, now);
            if exists id :: HasAddress(db, id, TELEGRAM, Known(chat))
            then exists id :: HasAddress(db, id, TELEGRAM, Known(chat)) && TookOver(db, b, id, p, now)
            else GotAddress(db, b, p, chat, now)
  {
    OneWaits(db, token, p);
    var found := FindAddress(db.subs, TELEGRAM, Known(chat));
    forall id
      ensures HasAddress(db, id, TELEGRAM, Known(chat)) <==> found == Some(id)
    {
      OneHasAddress(db, TELEGRAM, Known(chat), id);
    }
    var b := LinkChat(db, token, chat, now);
    hide AddressesUnique, PendingIsQuiet, OneConfirmation, FindLink, FindAddress;
    if found.Some? {
      var id := found.value;
      assert TookOver(db, b, id, p, now);
    }
  }

  lemma {:induction false} LinkChatDoes(db: Db, token: Token, chat: string, now: int)
    requires TablesOk(db)
    ensures ChatLinked(db, LinkChat(db, token, chat, now), token, chat, now, LinkResult(db, token, now))
  {
    LinkAnswers(db, token, now);
    if LinkResult(db, token, now) == Subscribed {
      forall p | WaitsForChat(db, p, token)
        ensures var b := LinkChat(db, token, chat, now);
                if exists id :: HasAddress(db, id, TELEGRAM, Known(chat))
                then exists id :: HasAddress(db, id, TELEGRAM, Known(chat)) && TookOver(db, b, id, p, now)
                else GotAddress(db, b, p, chat, now)
      {
        assert InTime(db.subs[p], now) by { OneWaits(db, token, p); }
        LinkChatTakes(db, token, chat, now, p);
      }
    }
    hide TablesOk, WaitsForChat, HasAddress, TookOver, GotAddress, AnswersLink;
  }

  // ---- Queueing an event ----

  /** An active subscriber that follows the event's component, or all, and wants to hear
      of maintenance if that is what it is about. */
  predicate Follows(s: Subscriber, e: Event) {
    && s.status.Active?
    && (s.allComponents || e.component == "" || e.component in s.components)
    && (s.maintenance || !e.maintenance)
  }

  predicate IsQueued(a: Db, b: Db, r: int, id: int) {
    r in b.outbox && r !in a.outbox && b.outbox[r].sub == id
  }

  /** Each follower gets one new untried row, nobody else any, and nothing else changes. */
  ghost predicate FannedOut(a: Db, b: Db, e: Event, now: int) {
    && b.subs == a.subs && b.nextSub == a.nextSub
    && (forall r :: r in a.outbox ==> r in b.outbox && b.outbox[r] == a.outbox[r])
    && (forall r :: r in b.outbox && r !in a.outbox ==>
          && a.nextRow <= r < b.nextRow
          && b.outbox[r].sub in a.subs && Follows(a.subs[b.outbox[r].sub], e)
          && b.outbox[r] == Row(b.outbox[r].sub, News(e), now, now, 0, None, None))
    && (forall id :: id in a.subs && Follows(a.subs[id], e) ==> exists r :: IsQueued(a, b, r, id))
    && (forall r, q, id :: IsQueued(a, b, r, id) && IsQueued(a, b, q, id) ==> r == q)
  }

  lemma {:induction false} FanOutDoes(db: Db, e: Event, order: seq<int>, now: int)
    requires TablesOk(db) && Lists(order, Recipients(db.subs, e))
    ensures FannedOut(db, FanOut(db, e, order, now), e, now)
  {
    hide AddressesUnique, TokensOk, PlaceholdersOwn, PendingIsQuiet, OneConfirmation;
    var b := FanOut(db, e, order, now);
    forall id | id in db.subs && Follows(db.subs[id], e)
      ensures exists r :: IsQueued(db, b, r, id)
    {
      assert id in Recipients(db.subs, e);
      var k :| 0 <= k < |order| && order[k] == id;
      assert IsQueued(db, b, db.nextRow + k, id);
    }
  }

  // ---- Pruning ----

  /** Thirty days after a row was sent or given up it goes. */
  predicate Stale(row: Row, now: int) {
    || (row.sentAt.Some? && row.sentAt.value < now - 30 * 86400)
    || (row.failedAt.Some? && row.failedAt.value < now - 30 * 86400)
  }

  /** A pending subscriber goes a week after its link lapsed, a quarantined one after 90
      days. */
  predicate Lapsed(s: Subscriber, now: int) {
    || (s.status.Pending? && s.confirmExpires.Some? && s.confirmExpires.value < now - 7 * 86400)
    || (s.status.Quarantined? && s.quarantinedAt.Some? && s.quarantinedAt.value < now - 90 * 86400)
  }

  /** The first of the three statements deletes rows, the others subscribers. */
  ghost predicate RowsPruned(a: Db, b: Db, now: int) {
    && b.subs == a.subs && b.nextSub == a.nextSub && b.nextRow == a.nextRow
    && (forall r :: r in b.outbox <==> r in a.outbox && !Stale(a.outbox[r], now))
    && (forall r :: r in b.outbox ==> b.outbox[r] == a.outbox[r])
  }

  ghost predicate SubsPruned(a: Db, b: Db, status: Status, now: int) {
    && (forall id :: id in b.subs <==> id in a.subs && !(a.subs[id].status == status && Lapsed(a.subs[id], now)))
    && (forall id :: id in b.subs ==> b.subs[id] == a.subs[id])
    && b.nextSub == a.nextSub && RowsGoWith(a, b)
  }

  lemma {:induction false} PruneStepsDo(db: Db, now: int)
    requires TablesOk(db)
    ensures RowsPruned(db, PruneRows(db, now), now)
    ensures SubsPruned(db, PrunePending(db, now), Pending, now)
    ensures SubsPruned(db, PruneQuarantined(db, now), Quarantined, now)
  {
    hide AddressesUnique, TokensOk, PlaceholdersOwn, PendingIsQuiet, OneConfirmation;
  }

  ghost predicate PrunedTo(a: Db, b: Db, now: int) {
    && (forall id :: id in b.subs <==> id in a.subs && !Lapsed(a.subs[id], now))
    && (forall id :: id in b.subs ==> b.subs[id] == a.subs[id])
    && (forall r :: r in b.outbox <==> r in a.outbox && a.outbox[r].sub in b.subs && !Stale(a.outbox[r], now))
    && (forall r :: r in b.outbox ==> b.outbox[r] == a.outbox[r])
    && b.nextSub == a.nextSub && b.nextRow == a.nextRow
  }

  lemma {:induction false} PruneDoes(db: Db, now: int)
    requires TablesOk(db)
    ensures PrunedTo(db, PruneQuarantined(PrunePending(PruneRows(db, now), now), now), now)
  {
    hide AddressesUnique, TokensOk, PlaceholdersOwn, PendingIsQuiet, OneConfirmation;
  }
}
