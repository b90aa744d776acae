// The dispatcher as a state machine (src/subscriptions/dispatch.rs): it reads a batch,
// then sends row by row, and after each send writes what came of it, in one to three
// statements. Transactions of the web pages and the bot may fall between any two of its
// steps, and a crash may cut it short at any of them. Every statement is stamped with the
// time read before the batch, while the sends themselves take time. A history records
// what happened; no step reads it.

module Delivery {
  import opened Basics
  import opened Backoff
  import opened FailureWindow
  import opened Ledger
  import opened Paths

  const BATCH := 100
  const SEND_LIMIT_SECS := 30
  const POLL_SECS := 5

  // ---- Transactions from outside the dispatcher ----

  datatype Transaction =
    | TSignUp(form: SignUpForm, now: int)
    | TSignUpByLink(form: SignUpForm, now: int)
    | TConfirm(token: Token, now: int)
    | TUnsubscribe(token: Token)
    | TDelete(id: int)
    | TLinkChat(token: Token, chat: string, now: int)
    | TStopChat(chat: string)
    | TFanOut(event: Event, order: seq<int>, now: int)
    | TPruneRows(now: int)
    | TPrunePending(now: int)
    | TPruneQuarantined(now: int)

  /** The form takes typed addresses for mail and webhooks; Telegram's go through
      `SignUpByLink`. */
  ghost predicate Possible(db: Db, t: Transaction) {
    match t
    case TSignUp(form, _) => form.address.Known? && (form.channel == EMAIL || form.channel == WEBHOOK)
    case TSignUpByLink(form, _) => form.channel == TELEGRAM
    case TFanOut(e, order, _) => Lists(order, Recipients(db.subs, e))
    case _ => true
  }

  ghost function Execute(db: Db, t: Transaction): Db {
    match t
    case TSignUp(form, now) => SignUp(db, form, now)
    case TSignUpByLink(form, now) => SignUpByLink(db, form, now)
    case TConfirm(token, now) => Confirm(db, token, now)
    case TUnsubscribe(token) => Unsubscribe(db, token)
    case TDelete(id) => Delete(db, id)
    case TLinkChat(token, chat, now) => LinkChat(db, token, chat, now)
    case TStopChat(chat) => StopChat(db, chat)
    case TFanOut(e, order, now) => FanOut(db, e, order, now)
    case TPruneRows(now) => PruneRows(db, now)
    case TPrunePending(now) => PrunePending(db, now)
    case TPruneQuarantined(now) => PruneQuarantined(db, now)
  }

  // ---- The batch ----

  /** What a send came to. `RateLimited` carries the wait the service asked for. */
  datatype Outcome = Delivered | Gone | Permanent | Counted | RateLimited(secs: int) | OtherFailure

  /** Only Telegram says that an address is gone or how long to wait, and it never fails
      in a way that counts. */
  predicate CanAnswer(channel: string, o: Outcome) {
    match o
    case Gone => channel == TELEGRAM
    case RateLimited(_) => channel == TELEGRAM
    case Counted => channel == WEBHOOK
    case Permanent => channel == EMAIL || channel == WEBHOOK
    case _ => true
  }

  /** A due row joined with its subscriber, as read at the start of the batch. It may be
      stale by the time it is used. */
  datatype Item = Item(
    row: int, kind: Kind, attempts: nat, sid: int,
    channel: string, address: Address, status: Status, expires: Option<int>)

  predicate Due(db: Db, r: int, now: int, channels: set<string>) {
    && r in db.outbox && db.outbox[r].sub in db.subs
    && db.outbox[r].Undelivered()
    && db.outbox[r].nextAttemptAt <= now
    && !db.subs[db.outbox[r].sub].status.Quarantined?
    && db.subs[db.outbox[r].sub].channel in channels
  }

  function ItemOf(db: Db, r: int): (item: Item)
    requires r in db.outbox && db.outbox[r].sub in db.subs
    ensures item.row == r
  {
    var o := db.outbox[r];
    var s := db.subs[o.sub];
    Item(r, o.kind, o.attempts, o.sub, s.channel, s.address, s.status, s.confirmExpires)
  }

  predicate RowIn(items: seq<Item>, r: int) {
    exists i :: 0 <= i < |items| && items[i].row == r
  }

  /** The first `BATCH` due rows by id. */
  ghost predicate IsBatch(items: seq<Item>, db: Db, now: int, channels: set<string>) {
    && |items| <= BATCH
    && (forall i :: 0 <= i < |items| ==> Due(db, items[i].row, now, channels) && items[i] == ItemOf(db, items[i].row))
    && (forall i, j :: 0 <= i < j < |items| ==> items[i].row < items[j].row)
    && (forall r :: Due(db, r, now, channels) && !RowIn(items, r) ==>
          |items| == BATCH && forall i :: 0 <= i < |items| ==> items[i].row < r)
  }

  datatype Plan = SendIt | GiveItUp | LeaveIt

  /** What the dispatcher does with a row, from its snapshot: a confirmation goes out
      while the subscriber is pending and the link works, an event while it is active. */
  function PlanFor(item: Item, now: int): Plan {
    if item.kind.Confirmation? then
      if item.expires.Some? && item.status.Pending? && item.expires.value > now then SendIt else GiveItUp
    else if item.status.Active? then SendIt
    else LeaveIt
  }

  /** Whether an outcome counts toward quarantine. */
  predicate Counts(o: Outcome) {
    o.Permanent? || o.Counted?
  }

  /** The first write after a send: the row itself after a success, otherwise the
      subscriber, whose failure is counted. */
  function SettleFirst(db: Db, item: Item, o: Outcome, now: int): Db {
    if o.Delivered? then MarkSent(db, item.row, item.attempts + 1, now)
    else if o.Gone? then RemoveSubs(db, {item.sid})
    else if Counts(o) then Count(db, item.sid, now)
    else db
  }

  function RequestedWait(o: Outcome): int {
    if o.RateLimited? then o.secs else 0
  }

  /** The last write: the subscriber after a success, otherwise the row. */
  function SettleLast(db: Db, item: Item, o: Outcome, now: int): Db {
    var attempts := item.attempts + 1;
    match o
    case Delivered => ClearFailures(db, item.sid)
    case Gone => db
    case _ =>
      if o.Permanent? || attempts >= MAX_ATTEMPTS then MarkFailed(db, item.row, attempts, now)
      else Reschedule(db, item.row, attempts, now + Max(RetryDelay(attempts), RequestedWait(o)))
  }

  // ---- The machine ----

  /** Where the dispatcher is with the first row of `todo`. At the limit, the failure has
      been counted and the quarantine it calls for has not been written. */
  datatype Phase = Ready | Sent(outcome: Outcome) | AtLimit(outcome: Outcome) | HalfSettled(outcome: Outcome)

  datatype Work = Work(now: int, todo: seq<Item>, phase: Phase)

  const IDLE := Work(0, [], Ready)

  /** One try of an outbox row: its number, the time read before its batch, when the send
      began and ended, and the wait the service asked for. */
  datatype Try = Try(attempt: nat, batch: int, started: int, ended: int, asked: int)

  /** Per outbox row: its tries, its successful sends, and the sends whose result a crash
      lost. Per subscriber: links issued, links used, the links issued since the last use,
      what happened to its failure counter, and the quarantines a crash lost. */
  datatype History = History(
    tries: map<int, seq<Try>>, successes: map<int, nat>, lost: map<int, nat>,
    issued: map<int, nat>, used: map<int, nat>, openLinks: map<int, seq<int>>,
    marks: map<int, seq<Mark>>, missed: map<int, nat>)

  const NOTHING := History(map[], map[], map[], map[], map[], map[], map[], map[])

  /** `clock` is the time of day at least: what the dispatcher last read or waited for.
      `restarted` is whether it has yet to read its first batch since the program started. */
  datatype State = State(db: Db, work: Work, clock: int, restarted: bool, hist: History)

  const START := State(EMPTY, IDLE, 0, true, NOTHING)

  /** The loop pauses after each batch. */
  function NextRead(s: State): int {
    if s.restarted then s.clock else s.clock + POLL_SECS
  }

  datatype Action =
    | Outside(t: Transaction)
    | ReadBatch(now: int, channels: set<string>, items: seq<Item>)
    | Skip
    | GiveUpHead
    | Send(outcome: Outcome, started: int, ended: int)
    | FirstWrite
    | QuarantineWrite
    | LastWrite
    | Crash(restarts: bool)

  /** The first row has been handed to its channel and the result is not in the outbox
      yet. A success is there after the first write, and so is the removal of a
      subscriber that is gone. */
  predicate InFlight(w: Work) {
    && w.todo != []
    && (w.phase.Sent? || w.phase.AtLimit?
        || (w.phase.HalfSettled? && !w.phase.outcome.Delivered? && !w.phase.outcome.Gone?))
  }

  /** A quarantine of `id` is due and not written. */
  predicate LimitOf(w: Work, id: int) {
    w.todo != [] && w.phase.AtLimit? && w.todo[0].sid == id
  }

  ghost predicate Enabled(s: State, a: Action) {
    match a
    case Outside(t) => Possible(s.db, t)
    case ReadBatch(now, channels, items) =>
      s.work.todo == [] && NextRead(s) <= now && IsBatch(items, s.db, now, channels)
    // The channel was switched off meanwhile, pacing holds the address back, or the
    // plan is to leave the row.
    case Skip => s.work.todo != [] && s.work.phase.Ready?
    // Or an event's payload does not parse, as after a downgrade.
    case GiveUpHead =>
      && s.work.todo != [] && s.work.phase.Ready?
      && (PlanFor(s.work.todo[0], s.work.now).GiveItUp?
          || (s.work.todo[0].kind.News? && PlanFor(s.work.todo[0], s.work.now).SendIt?))
    case Send(o, started, ended) =>
      && s.work.todo != [] && CanAnswer(s.work.todo[0].channel, o)
      && s.work.phase.Ready? && PlanFor(s.work.todo[0], s.work.now).SendIt?
      && s.clock <= started <= ended <= started + SEND_LIMIT_SECS
    case FirstWrite => s.work.todo != [] && s.work.phase.Sent?
    case QuarantineWrite => s.work.todo != [] && s.work.phase.AtLimit?
    case LastWrite => s.work.todo != [] && s.work.phase.HalfSettled?
    // The program stops and starts again, or a statement fails and ends the pass.
    case Crash(_) => true
  }

  function Bump(m: map<int, nat>, k: int): map<int, nat> {
    m[k := At(m, k, 0) + 1]
  }

  function Append<T>(m: map<int, seq<T>>, k: int, x: T): map<int, seq<T>> {
    m[k := At(m, k, []) + [x]]
  }

  function NoteIssued(h: History, id: int, now: int): (after: History)
    ensures after.tries == h.tries && after.successes == h.successes && after.lost == h.lost
    ensures after.marks == h.marks && after.missed == h.missed
  {
    h.(issued := Bump(h.issued, id), openLinks := Append(h.openLinks, id, now))
  }

  function NoteUsed(h: History, id: int): (after: History)
    ensures after.tries == h.tries && after.successes == h.successes && after.lost == h.lost
    ensures after.marks == h.marks && after.missed == h.missed
  {
    h.(used := Bump(h.used, id), openLinks := h.openLinks[id := []])
  }

  /** The subscriber a transaction issues a link to, and when. */
  ghost function LinkIssued(db: Db, t: Transaction): Option<(int, int)> {
    match t
    case TSignUp(form, now) =>
      (match SignUpTarget(db, form, now)
       case None => None
       case Some(id) => Some((id, now)))
    case TSignUpByLink(_, now) => Some((db.nextSub, now))
    case _ => None
  }

  /** The subscriber whose link it follows: it confirms the row, or ties it to a chat. */
  ghost function LinkUsed(db: Db, t: Transaction): Option<int> {
    match t
    case TConfirm(token, now) => FindConfirmable(db.subs, token, now)
    case TLinkChat(token, _, now) => if LinkResult(db, token, now) == Subscribed then FindLink(db.subs, token) else None
    case _ => None
  }

  /** The subscriber whose failure counter it clears. */
  ghost function CounterCleared(db: Db, t: Transaction): Option<int> {
    match t
    case TSignUp(form, now) => SignUpTarget(db, form, now)
    case TLinkChat(token, chat, now) =>
      if LinkResult(db, token, now) == Subscribed then FindAddress(db.subs, TELEGRAM, Known(chat)) else None
    case _ => None
  }

  function Note(h: History, issued: Option<(int, int)>, used: Option<int>, cleared: Option<int>): History {
    var h1 := if issued.Some? then NoteIssued(h, issued.value.0, issued.value.1) else h;
    var h2 := if used.Some? then NoteUsed(h1, used.value) else h1;
    if cleared.Some? then h2.(marks := Append(h2.marks, cleared.value, Cleared)) else h2
  }

  ghost function NoteTransaction(h: History, db: Db, t: Transaction): History {
    Note(h, LinkIssued(db, t), LinkUsed(db, t), CounterCleared(db, t))
  }

  function NoteFirstWrite(h: History, item: Item, o: Outcome, now: int): History {
    if Counts(o) then h.(marks := Append(h.marks, item.sid, Failed(now))) else h
  }

  function AfterFirst(db: Db, item: Item, o: Outcome, now: int): Phase {
    if Counts(o) && AtTheLimit(SettleFirst(db, item, o, now), item.sid) then AtLimit(o) else HalfSettled(o)
  }

  function NoteCrash(h: History, w: Work): History {
    h.(lost := if InFlight(w) then Bump(h.lost, w.todo[0].row) else h.lost,
       missed := if w.todo != [] && w.phase.AtLimit? then Bump(h.missed, w.todo[0].sid) else h.missed)
  }

  ghost function Next(s: State, a: Action): State
    requires Enabled(s, a)
  {
    match a
    case Outside(t) => s.(db := Execute(s.db, t), hist := NoteTransaction(s.hist, s.db, t))
    case ReadBatch(now, _, items) => s.(work := Work(now, items, Ready), clock := now, restarted := false)
    case Skip => s.(work := s.work.(todo := s.work.todo[1..]))
    case GiveUpHead =>
      s.(db := GiveUp(s.db, s.work.todo[0].row, s.work.now), work := s.work.(todo := s.work.todo[1..]))
    case Send(o, started, ended) =>
      var item := s.work.todo[0];
      var try := Try(item.attempts + 1, s.work.now, started, ended, RequestedWait(o));
      s.(work := s.work.(phase := Sent(o)),
         clock := ended,
         hist := s.hist.(tries := Append(s.hist.tries, item.row, try),
                         successes := if o.Delivered? then Bump(s.hist.successes, item.row) else s.hist.successes))
    case FirstWrite =>
      var o := s.work.phase.outcome;
      s.(db := SettleFirst(s.db, s.work.todo[0], o, s.work.now),
         work := s.work.(phase := AfterFirst(s.db, s.work.todo[0], o, s.work.now)),
         hist := NoteFirstWrite(s.hist, s.work.todo[0], o, s.work.now))
    case QuarantineWrite =>
      s.(db := Quarantine(s.db, s.work.todo[0].sid, s.work.now),
         work := s.work.(phase := HalfSettled(s.work.phase.outcome)))
    case LastWrite =>
      var o := s.work.phase.outcome;
      s.(db := SettleLast(s.db, s.work.todo[0], o, s.work.now),
         work := s.work.(todo := s.work.todo[1..], phase := Ready),
         hist := if o.Delivered? then s.hist.(marks := Append(s.hist.marks, s.work.todo[0].sid, Cleared)) else s.hist)
    case Crash(restarts) => s.(work := IDLE, restarted := s.restarted || restarts, hist := NoteCrash(s.hist, s.work))
  }

  ghost predicate Step(s: State, a: Action, t: State) {
    Enabled(s, a) && t == Next(s, a)
  }

  /** A run from empty tables: `states[i + 1]` follows `states[i]` by `actions[i]`. */
  ghost predicate IsRun(states: seq<State>, actions: seq<Action>) {
    && |states| == |actions| + 1
    && states[0] == START
    && forall i :: 0 <= i < |actions| ==> Enabled(states[i], actions[i]) && states[i + 1] == Next(states[i], actions[i])
  }

  lemma PathIsARun(actions: seq<Action>, t: State) returns (states: seq<State>)
    requires Leads(Step, START, actions, t)
    ensures IsRun(states, actions) && states[|actions|] == t
  {
    states :| IsPath(Step, states, actions) && states[0] == START && states[|actions|] == t;
    forall i | 0 <= i < |actions|
      ensures Enabled(states[i], actions[i]) && states[i + 1] == Next(states[i], actions[i])
    {
      assert Step(states[i], actions[i], states[i + 1]);
    }
  }
}
