// The subscriber and outbox tables and every transaction on them
// (src/subscriptions/mod.rs, telegram.rs, dispatch.rs), as functions from one table
// state to the next. `Database` runs the same transactions statement by statement.

module Ledger {
  import opened Basics
  import opened Backoff
  import opened FailureWindow

  const CONFIRM_TTL_SECS := 24 * 3600
  const CONFIRM_RESEND_SECS := 15 * 60
  const OUTBOX_KEEP_SECS := 30 * 86400
  const PENDING_KEEP_SECS := 7 * 86400
  const QUARANTINE_KEEP_SECS := 90 * 86400
  const TELEGRAM := "telegram"
  const EMAIL := "email"
  const WEBHOOK := "webhook"

  datatype Status = Pending | Active | Quarantined

  /** A row whose address is not known yet holds a random placeholder. */
  datatype Address = Known(text: string) | Placeholder(seed: int)

  /** An HMAC of its arguments; constructors are injective, as the HMAC is assumed to
      be. A table that stores a token's SHA-256 stores the token itself here. */
  datatype Token =
    | ConfirmToken(sub: int, expires: int)
    | UnsubscribeToken(sub: int, created: int)
    | OtherText(text: string)

  datatype Subscriber = Subscriber(
    channel: string,
    address: Address,
    allComponents: bool,
    maintenance: bool,
    components: set<string>,
    status: Status,
    confirmHash: Option<Token>,
    confirmExpires: Option<int>,
    unsubHash: Token,
    createdAt: int,
    confirmedAt: Option<int>,
    window: Counter,
    quarantinedAt: Option<int>)

  datatype Event = Event(component: string, maintenance: bool, payload: string)

  datatype Kind = Confirmation | News(event: Event)

  datatype Row = Row(
    sub: int,
    kind: Kind,
    createdAt: int,
    nextAttemptAt: int,
    attempts: nat,
    sentAt: Option<int>,
    failedAt: Option<int>)
  {
    predicate Undelivered() { sentAt.None? && failedAt.None? }
  }

  /** `nextSub` and `nextRow` only grow: ids are never reused. */
  datatype Db = Db(subs: map<int, Subscriber>, outbox: map<int, Row>, nextSub: int, nextRow: int)

  const EMPTY := Db(map[], map[], 1, 1)

  datatype SignUpForm = SignUpForm(
    channel: string, address: Address, allComponents: bool, components: seq<string>, maintenance: bool)
  {
    function Chosen(): set<string> {
      if allComponents then {} else set c | c in components
    }
  }

  datatype Linked = Subscribed | Expired | Invalid

  // ---- Lookups ----

  ghost predicate Lives(subs: map<int, Subscriber>, id: int, channel: string, address: Address) {
    id in subs && subs[id].channel == channel && subs[id].address == address
  }

  ghost function FindAddress(subs: map<int, Subscriber>, channel: string, address: Address): (r: Option<int>)
    ensures r.Some? ==> Lives(subs, r.value, channel, address)
    ensures r.None? ==> forall id :: !Lives(subs, id, channel, address)
  {
    if exists id :: Lives(subs, id, channel, address)
    then
      var id :| Lives(subs, id, channel, address);
      Some(id)
    else None
  }

  // ---- Transactions ----

  /** Delete subscribers; their outbox rows go with them. */
  function RemoveSubs(db: Db, gone: set<int>): Db {
    db.(subs := map id | id in db.subs && id !in gone :: db.subs[id],
        outbox := map r | r in db.outbox && db.outbox[r].sub !in gone :: db.outbox[r])
  }

  /** Nothing new is sent to an active address, nor within 15 minutes of the last link. */
  predicate Suppressed(s: Subscriber, now: int) {
    || s.status.Active?
    || (s.confirmExpires.Some? && now - (s.confirmExpires.value - CONFIRM_TTL_SECS) < CONFIRM_RESEND_SECS)
  }

  function NewSubscriber(form: SignUpForm, id: int, now: int): Subscriber {
    Subscriber(form.channel, form.address, form.allComponents, form.maintenance, {}, Pending,
               None, None, UnsubscribeToken(id, now), now, None, ZERO, None)
  }

  function InsertPending(db: Db, form: SignUpForm, now: int): Db {
    db.(subs := db.subs[db.nextSub := NewSubscriber(form, db.nextSub, now)], nextSub := db.nextSub + 1)
  }

  /** A known address signing up again: new choices, counters cleared, and what was
      held while it was quarantined dropped. */
  function ResetPending(db: Db, form: SignUpForm, id: int): Db
    requires id in db.subs
  {
    var s := db.subs[id];
    db.(outbox := if s.status.Quarantined?
                  then map r | r in db.outbox && !(db.outbox[r].sub == id && db.outbox[r].Undelivered()) :: db.outbox[r]
                  else db.outbox,
        subs := db.subs[id := s.(allComponents := form.allComponents, maintenance := form.maintenance,
                                 status := Pending, window := ZERO, quarantinedAt := None)])
  }

  /** Store the chosen components and a new link, and queue its confirmation in place
      of any older one still unsent. */
  function IssueLink(db: Db, form: SignUpForm, id: int, now: int): Db
    requires id in db.subs
  {
    var expires := now + CONFIRM_TTL_SECS;
    var s := db.subs[id].(components := form.Chosen(),
                          confirmHash := Some(ConfirmToken(id, expires)),
                          confirmExpires := Some(expires));
    var kept := map r | r in db.outbox &&
                        !(db.outbox[r].sub == id && db.outbox[r].kind.Confirmation? && db.outbox[r].sentAt.None?)
                      :: db.outbox[r];
    db.(subs := db.subs[id := s],
        outbox := kept[db.nextRow := Row(id, Confirmation, now, now, 0, None, None)],
        nextRow := db.nextRow + 1)
  }

  /** The subscriber row a sign-up issues a link to, if it issues one. */
  ghost function SignUpTarget(db: Db, form: SignUpForm, now: int): Option<int> {
    match FindAddress(db.subs, form.channel, form.address)
    case None => Some(db.nextSub)
    case Some(id) => if Suppressed(db.subs[id], now) then None else Some(id)
  }

  ghost function SignUp(db: Db, form: SignUpForm, now: int): Db {
    match FindAddress(db.subs, form.channel, form.address)
    case None => IssueLink(InsertPending(db, form, now), form, db.nextSub, now)
    case Some(id) =>
      if Suppressed(db.subs[id], now) then db
      else IssueLink(ResetPending(db, form, id), form, id, now)
  }

  /** For a channel whose address arrives by following the link: always a new row. */
  function SignUpByLink(db: Db, form: SignUpForm, now: int): Db {
    var id := db.nextSub;
    var expires := now + CONFIRM_TTL_SECS;
    var s := NewSubscriber(form, id, now).(address := Placeholder(id),
                                           components := form.Chosen(),
                                           confirmHash := Some(ConfirmToken(id, expires)),
                                           confirmExpires := Some(expires));
    db.(subs := db.subs[id := s], nextSub := id + 1)
  }

  predicate Confirmable(s: Subscriber, token: Token, now: int) {
    && s.confirmHash == Some(token)
    && s.status.Pending?
    && s.confirmExpires.Some? && s.confirmExpires.value > now
  }

  ghost function FindConfirmable(subs: map<int, Subscriber>, token: Token, now: int): (r: Option<int>)
    ensures r.Some? ==> r.value in subs && Confirmable(subs[r.value], token, now)
    ensures r.None? ==> forall id :: id in subs ==> !Confirmable(subs[id], token, now)
  {
    if exists id :: id in subs && Confirmable(subs[id], token, now)
    then
      var id :| id in subs && Confirmable(subs[id], token, now);
      Some(id)
    else None
  }

  function Confirmed(s: Subscriber, now: int): Subscriber {
    s.(status := Active, confirmedAt := Some(now), confirmHash := None, confirmExpires := None)
  }

  function Confirm(db: Db, token: Token, now: int): Db {
    db.(subs := map id | id in db.subs ::
                  if Confirmable(db.subs[id], token, now) then Confirmed(db.subs[id], now) else db.subs[id])
  }

  function Unsubscribe(db: Db, token: Token): Db {
    RemoveSubs(db, set id | id in db.subs && db.subs[id].unsubHash == token)
  }

  function Delete(db: Db, id: int): Db {
    RemoveSubs(db, {id})
  }

  ghost predicate LinkPending(subs: map<int, Subscriber>, id: int, token: Token) {
    && id in subs
    && subs[id].channel == TELEGRAM && subs[id].status.Pending? && subs[id].confirmHash == Some(token)
  }

  ghost function FindLink(subs: map<int, Subscriber>, token: Token): (r: Option<int>)
    ensures r.Some? ==> LinkPending(subs, r.value, token)
    ensures r.None? ==> forall id :: !LinkPending(subs, id, token)
  {
    if exists id :: LinkPending(subs, id, token)
    then
      var id :| LinkPending(subs, id, token);
      Some(id)
    else None
  }

  ghost function LinkResult(db: Db, token: Token, now: int): Linked {
    match FindLink(db.subs, token)
    case None => Invalid
    case Some(p) =>
      if db.subs[p].confirmExpires.None? || db.subs[p].confirmExpires.value <= now then Expired
      else Subscribed
  }

  /** A chat opens a sign-up's link. The pending row becomes the chat's, or, where the
      chat has a row, hands its choices to that row and goes. */
  ghost function LinkChat(db: Db, token: Token, chat: string, now: int): Db {
    if LinkResult(db, token, now) != Subscribed then db
    else
      var p := FindLink(db.subs, token).value;
      match FindAddress(db.subs, TELEGRAM, Known(chat))
      case Some(id) =>
        var s := db.subs[id].(allComponents := db.subs[p].allComponents,
                              maintenance := db.subs[p].maintenance,
                              components := db.subs[p].components,
                              status := Active, confirmedAt := Some(now),
                              window := ZERO, quarantinedAt := None);
        RemoveSubs(db.(subs := db.subs[id := s]), {p})
      case None =>
        db.(subs := db.subs[p := Confirmed(db.subs[p], now).(address := Known(chat))])
  }

  ghost function StopChat(db: Db, chat: string): Db {
    RemoveSubs(db, set id | id in db.subs && Lives(db.subs, id, TELEGRAM, Known(chat)))
  }

  predicate Concerns(s: Subscriber, e: Event) {
    && s.status.Active?
    && (e.maintenance ==> s.maintenance)
    && (e.component == "" || s.allComponents || e.component in s.components)
  }

  function Recipients(subs: map<int, Subscriber>, e: Event): set<int> {
    set id | id in subs && Concerns(subs[id], e)
  }

  /** `order` names each member of `who` once. */
  ghost predicate Lists(order: seq<int>, who: set<int>) {
    && (forall i :: 0 <= i < |order| ==> order[i] in who)
    && (forall id :: id in who ==> id in order)
    && (forall i, j :: 0 <= i < j < |order| ==> order[i] != order[j])
  }

  function NewsRow(e: Event, order: seq<int>, first: int, r: int, now: int): Row
    requires first <= r < first + |order|
  {
    Row(order[r - first], News(e), now, now, 0, None, None)
  }

  /** One row per recipient; SQL leaves their order open, so it is an argument. */
  function FanOut(db: Db, e: Event, order: seq<int>, now: int): Db {
    var first := db.nextRow;
    db.(outbox := db.outbox + (map r | first <= r < first + |order| :: NewsRow(e, order, first, r, now)),
        nextRow := first + |order|)
  }

  predicate Before(t: Option<int>, cutoff: int) {
    t.Some? && t.value < cutoff
  }

  // Pruning is three statements, each its own transaction.

  function PruneRows(db: Db, now: int): Db {
    var cutoff := now - OUTBOX_KEEP_SECS;
    db.(outbox := map r | r in db.outbox && !Before(db.outbox[r].sentAt, cutoff)
        && !Before(db.outbox[r].failedAt, cutoff)
                       :: db.outbox[r])
  }

  /** A week past their link's expiry. */
  function LapsedSubs(db: Db, now: int): set<int> {
    set id | id in db.subs && db.subs[id].status.Pending? && Before(db.subs[id].confirmExpires, now - PENDING_KEEP_SECS)
  }

  /** 90 days in quarantine. */
  function ExpelledSubs(db: Db, now: int): set<int> {
    set id | id in db.subs && db.subs[id].status.Quarantined?
        && Before(db.subs[id].quarantinedAt, now - QUARANTINE_KEEP_SECS)
  }

  function PrunePending(db: Db, now: int): Db {
    RemoveSubs(db, LapsedSubs(db, now))
  }

  function PruneQuarantined(db: Db, now: int): Db {
    RemoveSubs(db, ExpelledSubs(db, now))
  }

  // ---- What the dispatcher writes ----

  function MarkSent(db: Db, row: int, attempts: nat, now: int): Db {
    if row !in db.outbox then db
    else db.(outbox := db.outbox[row := db.outbox[row].(sentAt := Some(now), attempts := attempts)])
  }

  function MarkFailed(db: Db, row: int, attempts: nat, now: int): Db {
    if row !in db.outbox then db
    else db.(outbox := db.outbox[row := db.outbox[row].(failedAt := Some(now), attempts := attempts)])
  }

  function Reschedule(db: Db, row: int, attempts: nat, next: int): Db {
    if row !in db.outbox then db
    else db.(outbox := db.outbox[row := db.outbox[row].(nextAttemptAt := next, attempts := attempts)])
  }

  function GiveUp(db: Db, row: int, now: int): Db {
    if row !in db.outbox then db
    else db.(outbox := db.outbox[row := db.outbox[row].(failedAt := Some(now))])
  }

  /** Counting a failure and quarantining for it are two statements. */
  function Count(db: Db, sid: int, now: int): Db {
    if sid !in db.subs then db
    else db.(subs := db.subs[sid := db.subs[sid].(window := CountFailure(db.subs[sid].window, now))])
  }

  function Quarantine(db: Db, sid: int, now: int): Db {
    if sid !in db.subs || db.subs[sid].status.Quarantined? then db
    else db.(subs := db.subs[sid := db.subs[sid].(status := Quarantined, quarantinedAt := Some(now))])
  }

  /** The count the first statement returns says whether the second follows. */
  predicate AtTheLimit(db: Db, sid: int) {
    sid in db.subs && db.subs[sid].window.failures >= QUARANTINE_FAILURES
  }

  function ClearFailures(db: Db, sid: int): Db {
    if sid !in db.subs || db.subs[sid].window.failures == 0 then db
    else db.(subs := db.subs[sid := db.subs[sid].(window := ZERO)])
  }

  // ---- What the tables always satisfy ----

  ghost predicate RefsOk(db: Db) {
    && (forall id :: id in db.subs ==> 0 < id < db.nextSub)
    && (forall r :: r in db.outbox ==> 0 < r < db.nextRow && db.outbox[r].sub in db.subs)
    && 0 < db.nextSub && 0 < db.nextRow
  }

  /** A subscriber's stored hash is the token of its own open link, a pending one has a
      link, and each row's unsubscribe token is its own. */
  predicate TokensOfRow(id: int, s: Subscriber) {
    && s.confirmHash == (if s.confirmExpires.None? then None else Some(ConfirmToken(id, s.confirmExpires.value)))
    && (s.status.Pending? ==> s.confirmExpires.Some?)
    && s.unsubHash == UnsubscribeToken(id, s.createdAt)
  }

  ghost predicate TokensOk(db: Db) {
    forall id :: id in db.subs ==> TokensOfRow(id, db.subs[id])
  }

  ghost predicate AddressesUnique(db: Db) {
    forall i, j :: i in db.subs && j in db.subs && i != j ==>
      !(db.subs[i].channel == db.subs[j].channel && db.subs[i].address == db.subs[j].address)
  }

  /** A placeholder is made from its own row's id. */
  ghost predicate PlaceholdersOwn(db: Db) {
    forall id :: id in db.subs && db.subs[id].address.Placeholder? ==> db.subs[id].address.seed == id
  }

  /** A pending subscriber never has an undelivered event. */
  ghost predicate PendingIsQuiet(db: Db) {
    forall r ::
      r in db.outbox && db.outbox[r].Undelivered() && db.outbox[r].kind.News? && db.outbox[r].sub in db.subs ==>
        !db.subs[db.outbox[r].sub].status.Pending?
  }

  predicate UnsentConfirmation(r: Row) {
    r.kind.Confirmation? && r.sentAt.None?
  }

  /** At most one unsent confirmation per subscriber. */
  ghost predicate OneConfirmation(db: Db) {
    forall a, b ::
      (a in db.outbox && b in db.outbox && UnsentConfirmation(db.outbox[a]) && UnsentConfirmation(db.outbox[b])
       && db.outbox[a].sub == db.outbox[b].sub) ==> a == b
  }

  ghost predicate TablesOk(db: Db) {
    && RefsOk(db)
    && TokensOk(db)
    && AddressesUnique(db)
    && PlaceholdersOwn(db)
    && PendingIsQuiet(db)
    && OneConfirmation(db)
  }
}
