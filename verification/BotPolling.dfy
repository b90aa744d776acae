// The Telegram bot's polling (src/subscriptions/telegram.rs): each message is answered
// and then the stored offset moves past it, so a crash in between has Telegram hand the
// message out again. Everything else that works on the tables may run between any two
// of its steps.

module BotPolling {
  import opened Basics
  import opened Ledger
  import D = Delivery
  import DI = DeliveryInvariants

  /** `Start` carries the link's payload; `Other` is anything that changes no table. */
  datatype Command = Start(token: Token) | Stop | Other

  datatype Update = Update(id: int, chat: string, command: Command)

  /** `world` is the tables with their dispatcher. The rest below `clock` is history:
      `ideal` is what `world` would be had every message been answered once, `log` the
      feed positions answered, in order, `applied` and `failed` those whose answer went
      through or met an error, and `done` how many the offset has passed. */
  datatype State = State(
    world: D.State, feed: seq<Update>, offset: int, todo: seq<Update>, answered: bool, clock: int,
    ideal: D.State, log: seq<nat>, applied: set<int>, failed: set<int>, done: nat)

  function Begin(): State {
    State(D.START, [], 0, [], false, 0, D.START, [], {}, {}, 0)
  }

  // ---- Steps ----

  /** What Telegram hands out: everything it has from the offset on. */
  function HandedOut(feed: seq<Update>, offset: int): seq<Update> {
    if feed == [] then [] else if feed[0].id >= offset then feed else HandedOut(feed[1..], offset)
  }

  /** A start link holds a token this site has made, or one nobody has. */
  predicate Issued(token: Token, db: Db) {
    token.ConfirmToken? ==> token.sub < db.nextSub
  }

  /** The bot is the only one to answer chats. */
  predicate NotTheBots(a: D.Action) {
    a.Outside? ==> !a.t.TLinkChat? && !a.t.TStopChat?
  }

  function AnswerOf(u: Update, now: int): Option<D.Action> {
    match u.command
    case Start(token) => Some(D.Outside(D.TLinkChat(token, u.chat, now)))
    case Stop => Some(D.Outside(D.TStopChat(u.chat)))
    case Other => None
  }

  ghost function Answered(world: D.State, u: Update, now: int): D.State {
    match AnswerOf(u, now)
    case Some(a) => D.Next(world, a)
    case None => world
  }

  datatype Action =
    | Arrive(u: Update)
    | Elsewhere(a: D.Action)
    | Poll(n: nat)
    | Answer(now: int)
    | AnswerFails
    | Advance
    | Crash

  ghost predicate Enabled(s: State, a: Action) {
    match a
    case Arrive(u) =>
      && 0 <= u.id && (s.feed != [] ==> s.feed[|s.feed| - 1].id < u.id)
      && (u.command.Start? ==> Issued(u.command.token, s.world.db))
    case Elsewhere(d) => NotTheBots(d) && D.Enabled(s.world, d) && D.Enabled(s.ideal, d)
    case Poll(n) => s.todo == [] && n <= |HandedOut(s.feed, s.offset)|
    case Answer(now) => s.todo != [] && !s.answered && s.clock <= now
    case AnswerFails => s.todo != [] && !s.answered
    case Advance => s.todo != [] && s.answered
    case Crash => true
  }

  ghost function Next(s: State, a: Action): State
    requires Enabled(s, a)
  {
    match a
    case Arrive(u) => s.(feed := s.feed + [u])
    case Elsewhere(d) => s.(world := D.Next(s.world, d), ideal := D.Next(s.ideal, d))
    case Poll(n) => s.(todo := HandedOut(s.feed, s.offset)[..n], answered := false)
    case Answer(now) =>
      s.(world := Answered(s.world, s.todo[0], now), answered := true, clock := now,
         ideal := if s.done in s.applied then s.ideal else Answered(s.ideal, s.todo[0], now),
         log := s.log + [s.done], applied := s.applied + {s.done})
    case AnswerFails => s.(answered := true, log := s.log + [s.done], failed := s.failed + {s.done})
    case Advance =>
      s.(offset := s.todo[0].id + 1, todo := s.todo[1..], answered := false, done := s.done + 1)
    // A failed write of the offset ends the round the same way.
    case Crash => s.(todo := [], answered := false)
  }

  ghost predicate Step(s: State, a: Action, t: State) {
    Enabled(s, a) && t == Next(s, a)
  }

  ghost predicate IsRun(states: seq<State>, actions: seq<Action>) {
    && |states| == |actions| + 1
    && states[0] == Begin()
    && forall i :: 0 <= i < |actions| ==> Enabled(states[i], actions[i]) && states[i + 1] == Next(states[i], actions[i])
  }

  // ---- What stays settled ----

  /** The token's row is gone, or no longer waits for it, or waited too long. */
  predicate LinkSettled(db: Db, token: Token, now: int) {
    token.ConfirmToken? ==>
      && token.sub < db.nextSub
      && (token.sub in db.subs ==>
            var s := db.subs[token.sub];
            s.channel == TELEGRAM && s.status.Pending? && s.confirmHash == Some(token) ==>
              s.confirmExpires.None? || s.confirmExpires.value <= now)
  }

  ghost predicate Settled(db: Db, u: Update, now: int) {
    match u.command
    case Start(token) => LinkSettled(db, token, now)
    case Stop => forall id :: !Lives(db.subs, id, TELEGRAM, Known(u.chat))
    case Other => true
  }

  /** How Telegram rows may change without the bot: they keep their address, none
      becomes pending or gets another link, and a new one has no address yet. */
  ghost predicate Inherits(a: Db, b: Db) {
    && a.nextSub <= b.nextSub
    && forall id :: id in b.subs && b.subs[id].channel == TELEGRAM ==>
         if id in a.subs then
           var s, t := a.subs[id], b.subs[id];
           && s.channel == TELEGRAM && t.address == s.address
           && (t.status.Pending? ==>
                s.status.Pending? && t.confirmHash == s.confirmHash && t.confirmExpires == s.confirmExpires)
         else id >= a.nextSub && b.subs[id].address.Placeholder?
  }

  lemma {:induction false} InheritsSettled(a: Db, b: Db, u: Update, now: int, later: int)
    requires Inherits(a, b) && Settled(a, u, now) && now <= later
    ensures Settled(b, u, later)
  {
    if u.command.Stop? {
      forall id
        ensures !Lives(b.subs, id, TELEGRAM, Known(u.chat))
      {
        assert !Lives(a.subs, id, TELEGRAM, Known(u.chat));
      }
    }
  }

  lemma {:induction false} TransactionInherits(db: Db, t: D.Transaction)
    requires TablesOk(db) && D.Possible(db, t) && !t.TLinkChat? && !t.TStopChat?
    ensures Inherits(db, D.Execute(db, t))
  {
  }

  lemma {:induction false} StepInherits(s: D.State, a: D.Action)
    requires DI.DeliveryOk(s) && D.Enabled(s, a) && NotTheBots(a)
    ensures Inherits(s.db, D.Next(s, a).db)
  {
    if a.Outside? {
      TransactionInherits(s.db, a.t);
      hide D.Execute, TablesOk;
    } else {
      hide TablesOk, D.PlanFor, D.AfterFirst;
    }
  }

  // ---- Answering twice ----

  lemma {:induction false} AnswerSettles(s: D.State, u: Update, now: int)
    requires DI.DeliveryOk(s) && (u.command.Start? ==> Issued(u.command.token, s.db))
    ensures Settled(Answered(s, u, now).db, u, now)
  {
    if u.command.Start? && u.command.token.ConfirmToken? {
      var token := u.command.token;
      if LinkPending(s.db.subs, token.sub, token) {
        var p := FindLink(s.db.subs, token).value;
        assert TokensOfRow(p, s.db.subs[p]) && p == token.sub;
      }
    }
  }

  /** Answering a settled message again changes nothing, in the tables or in what is
      recorded of them. */
  lemma {:induction false} ReplayChangesNothing(s: D.State, u: Update, now: int)
    requires DI.DeliveryOk(s) && Settled(s.db, u, now)
    ensures Answered(s, u, now) == s
  {
  }

  // ---- The invariant ----

  ghost predicate FeedOk(s: State) {
    && (forall i, j :: 0 <= i < j < |s.feed| ==> s.feed[i].id < s.feed[j].id)
    && (forall i :: 0 <= i < |s.feed| ==> 0 <= s.feed[i].id)
    && (forall i :: 0 <= i < |s.feed| && s.feed[i].command.Start? ==> Issued(s.feed[i].command.token, s.world.db))
    && s.done + |s.todo| <= |s.feed| && s.todo == s.feed[s.done..s.done + |s.todo|]
    && s.offset == (if s.done == 0 then 0 else s.feed[s.done - 1].id + 1)
  }

  /** Each answer is to the next message or to the last one again; the offset passes a
      message only once it has been answered. */
  ghost predicate LogOk(s: State) {
    && (s.log != [] ==> s.log[0] == 0)
    && (forall k :: 0 <= k < |s.log| - 1 ==> s.log[k + 1] == s.log[k] || s.log[k + 1] == s.log[k] + 1)
    && s.done == (if s.log == [] then 0
                  else if s.done in s.applied + s.failed then s.log[|s.log| - 1]
                  else s.log[|s.log| - 1] + 1)
    && (forall i :: i in s.applied + s.failed ==> 0 <= i <= s.done && s.log != [])
    && (forall i :: 0 <= i < s.done ==> i in s.applied + s.failed)
    && (s.answered ==> s.todo != [] && s.done in s.applied + s.failed)
  }

  ghost predicate BotOk(s: State) {
    && DI.DeliveryOk(s.world)
    && s.world == s.ideal
    && FeedOk(s)
    && LogOk(s)
    && (s.done in s.applied ==> s.done < |s.feed| && Settled(s.world.db, s.feed[s.done], s.clock))
  }

  lemma {:induction false} HandedOutIs(feed: seq<Update>, offset: int, k: nat)
    requires k <= |feed|
    requires forall i :: 0 <= i < |feed| ==> (i < k <==> feed[i].id < offset)
    ensures HandedOut(feed, offset) == feed[k..]
  {
    if feed != [] && k > 0 {
      HandedOutIs(feed[1..], offset, k - 1);
      assert feed[1..][k - 1..] == feed[k..];
    }
  }

  lemma {:induction false} ElsewhereKeeps(s: State, d: D.Action)
    requires BotOk(s) && Enabled(s, Elsewhere(d))
    ensures BotOk(Next(s, Elsewhere(d)))
  {
    hide Settled, DI.DeliveryOk, LogOk;
    LogStays(s, Next(s, Elsewhere(d)));
    DI.NextKeeps(s.world, d);
    StepInherits(s.world, d);
    var after := D.Next(s.world, d);
    if s.done in s.applied {
      InheritsSettled(s.world.db, after.db, s.feed[s.done], s.clock, s.clock);
    }
  }

  lemma {:induction false} PollKeeps(s: State, n: nat)
    requires BotOk(s) && Enabled(s, Poll(n))
    ensures BotOk(Next(s, Poll(n)))
  {
    hide Settled, DI.DeliveryOk;
    HandedOutIs(s.feed, s.offset, s.done);
    assert s.feed[s.done..][..n] == s.feed[s.done..s.done + n];
  }

  lemma {:induction false} LaterSettled(db: Db, u: Update, now: int, later: int)
    requires Settled(db, u, now) && now <= later
    ensures Settled(db, u, later)
  {
  }

  lemma {:induction false} AnswerKeepsDelivery(s: D.State, u: Update, now: int)
    requires DI.DeliveryOk(s)
    ensures DI.DeliveryOk(Answered(s, u, now)) && Answered(s, u, now).db.nextSub == s.db.nextSub
  {
    match AnswerOf(u, now)
    case Some(a) => DI.NextKeeps(s, a);
    case None =>
  }

  lemma {:induction false} AnswerKeeps(s: State, now: int)
    requires BotOk(s) && Enabled(s, Answer(now))
    ensures BotOk(Next(s, Answer(now)))
  {
    hide Settled, DI.DeliveryOk, Answered, LogOk;
    var u := s.todo[0];
    assert u == s.feed[s.done];
    AnswerKeepsDelivery(s.world, u, now);
    AnswerSettles(s.world, u, now);
    if s.done in s.applied {
      LaterSettled(s.world.db, u, s.clock, now);
      ReplayChangesNothing(s.world, u, now);
    }
    hide Settled, DI.DeliveryOk, Answered, FeedOk, LogOk;
    LogGrows(s, Next(s, Answer(now)));
    FeedStays(s, Next(s, Answer(now)));
  }

  /** An answer touches neither the feed nor the offset, and makes no subscriber. */
  lemma {:induction false} FeedStays(s: State, t: State)
    requires FeedOk(s) && s.world.db.nextSub == t.world.db.nextSub
    requires t.feed == s.feed && t.offset == s.offset && t.todo == s.todo && t.done == s.done
    ensures FeedOk(t)
  {
  }

  lemma {:induction false} LogStays(s: State, t: State)
    requires LogOk(s)
    requires t.log == s.log && t.applied == s.applied && t.failed == s.failed
    requires t.done == s.done && t.todo == s.todo && t.answered == s.answered
    ensures LogOk(t)
  {
  }

  lemma {:induction false} LogGrows(s: State, t: State)
    requires LogOk(s) && s.todo != []
    requires t.log == s.log + [s.done] && t.applied + t.failed == s.applied + s.failed + {s.done}
    requires t.done == s.done && t.todo == s.todo
    ensures LogOk(t)
  {
  }

  lemma {:induction false} AdvanceKeeps(s: State)
    requires BotOk(s) && Enabled(s, Advance)
    ensures BotOk(Next(s, Advance))
  {
    hide Settled, DI.DeliveryOk;
    assert s.todo[0] == s.feed[s.done];
    assert s.todo[1..] == s.feed[s.done + 1..s.done + |s.todo|];
  }

  lemma {:induction false} ArriveFeed(s: State, u: Update)
    requires FeedOk(s) && 0 <= u.id && (s.feed != [] ==> s.feed[|s.feed| - 1].id < u.id)
    requires u.command.Start? ==> Issued(u.command.token, s.world.db)
    ensures FeedOk(s.(feed := s.feed + [u]))
  {
    hide Issued;
  }

  lemma {:induction false} ArriveKeeps(s: State, u: Update)
    requires BotOk(s) && Enabled(s, Arrive(u))
    ensures BotOk(Next(s, Arrive(u)))
  {
    hide Settled, DI.DeliveryOk, LogOk;
    ArriveFeed(s, u);
    LogStays(s, Next(s, Arrive(u)));
  }

  lemma {:induction false} AnswerFailsKeeps(s: State)
    requires BotOk(s) && Enabled(s, AnswerFails)
    ensures BotOk(Next(s, AnswerFails))
  {
    hide Settled, DI.DeliveryOk, FeedOk, LogOk;
    LogGrows(s, Next(s, AnswerFails));
    FeedStays(s, Next(s, AnswerFails));
  }

  lemma {:induction false} CrashKeeps(s: State)
    requires BotOk(s)
    ensures BotOk(Next(s, Crash))
  {
    hide Settled, DI.DeliveryOk;
  }

  lemma {:induction false} NextKeeps(s: State, a: Action)
    requires BotOk(s) && Enabled(s, a)
    ensures BotOk(Next(s, a))
  {
    hide BotOk, Next, Enabled;
    match a
    case Arrive(u) => ArriveKeeps(s, u);
    case Elsewhere(d) => ElsewhereKeeps(s, d);
    case Poll(n) => PollKeeps(s, n);
    case Answer(now) => AnswerKeeps(s, now);
    case AnswerFails => AnswerFailsKeeps(s);
    case Advance => AdvanceKeeps(s);
    case Crash => CrashKeeps(s);
  }

  lemma {:induction false} BeginsSound()
    ensures BotOk(Begin())
  {
  }

  lemma {:induction false} RunsAreSound(states: seq<State>, actions: seq<Action>, i: nat)
    requires IsRun(states, actions) && i < |states|
    ensures BotOk(states[i])
  {
    hide BotOk, Enabled, Next;
    BeginsSound();
    if i > 0 {
      RunsAreSound(states, actions, i - 1);
      NextKeeps(states[i - 1], actions[i - 1]);
    }
  }

  // ---- What every run promises ----

  /** Wherever rounds are cut short, the tables, and all that is recorded of them, are
      what they would be had each message been answered once. */
  lemma {:induction false} EachOnce(states: seq<State>, actions: seq<Action>, i: nat)
    requires IsRun(states, actions) && i < |states|
    ensures states[i].world == states[i].ideal
  {
    hide Settled, DI.DeliveryOk;
    RunsAreSound(states, actions, i);
  }

  /** An update answered, and whether its answer went through. */
  datatype Reply = Reply(update: Update, ok: bool)

  function ReplyOf(s: State, a: Action): seq<Reply> {
    if s.todo != [] && (a.Answer? || a.AnswerFails?) then [Reply(s.todo[0], a.Answer?)] else []
  }

  /** The answers among the first `n` actions, oldest first. */
  function Replies(states: seq<State>, actions: seq<Action>, n: nat): seq<Reply>
    requires n <= |actions| && |states| == |actions| + 1
  {
    if n == 0 then [] else Replies(states, actions, n - 1) + ReplyOf(states[n - 1], actions[n - 1])
  }

  /** A reply of this kind was to the update at position `i` of the feed. */
  ghost predicate RepliedAt(log: seq<nat>, replies: seq<Reply>, i: int, ok: bool)
    requires |log| == |replies|
  {
    exists k :: 0 <= k < |log| && log[k] == i && replies[k].ok == ok
  }

  /** Entry `k` of the log is where the feed has the update of reply `k`. */
  ghost predicate Logged(s: State, replies: seq<Reply>) {
    && |replies| == |s.log|
    && (forall k :: 0 <= k < |s.log| ==> s.log[k] < |s.feed| && s.feed[s.log[k]] == replies[k].update)
    && (forall i :: i in s.applied <==> RepliedAt(s.log, replies, i, true))
    && (forall i :: i in s.failed <==> RepliedAt(s.log, replies, i, false))
  }

  lemma {:induction false} RepliedMore(log: seq<nat>, replies: seq<Reply>, d: nat, r: Reply, i: int, ok: bool)
    requires |log| == |replies|
    ensures RepliedAt(log + [d], replies + [r], i, ok) <==> RepliedAt(log, replies, i, ok) || (i == d && r.ok == ok)
  {
    var log', replies' := log + [d], replies + [r];
    if RepliedAt(log, replies, i, ok) {
      var k :| 0 <= k < |log| && log[k] == i && replies[k].ok == ok;
      assert log'[k] == i && replies'[k].ok == ok;
    }
    assert log'[|log|] == d && replies'[|log|] == r;
  }

  lemma {:induction false} LoggedMore(s: State, replies: seq<Reply>, a: Action)
    requires FeedOk(s) && Logged(s, replies) && Enabled(s, a)
    ensures Logged(Next(s, a), replies + ReplyOf(s, a))
  {
    var t, more := Next(s, a), replies + ReplyOf(s, a);
    if a.Answer? || a.AnswerFails? {
      assert s.todo[0] == s.feed[s.done];
      LogOneMore(s, replies, t, Reply(s.todo[0], a.Answer?));
    } else {
      assert more == replies;
    }
  }

  lemma {:induction false} LogOneMore(s: State, replies: seq<Reply>, t: State, r: Reply)
    requires Logged(s, replies) && s.done < |s.feed| && t.feed == s.feed && t.log == s.log + [s.done]
    requires r.update == s.feed[s.done]
    requires t.applied == if r.ok then s.applied + {s.done} else s.applied
    requires t.failed == if r.ok then s.failed else s.failed + {s.done}
    ensures Logged(t, replies + [r])
  {
    forall i
      ensures i in t.applied <==> RepliedAt(t.log, replies + [r], i, true)
      ensures i in t.failed <==> RepliedAt(t.log, replies + [r], i, false)
    {
      RepliedMore(s.log, replies, s.done, r, i, true);
      RepliedMore(s.log, replies, s.done, r, i, false);
      hide RepliedAt;
    }
  }

  /** What is logged is what the actions did. */
  lemma {:induction false} LogIsTheRun(states: seq<State>, actions: seq<Action>, n: nat)
    requires IsRun(states, actions) && n <= |actions|
    ensures Logged(states[n], Replies(states, actions, n))
  {
    if n > 0 {
      LogIsTheRun(states, actions, n - 1);
      RunsAreSound(states, actions, n - 1);
      hide Settled, DI.DeliveryOk, Logged, LogOk, FeedOk;
      LoggedMore(states[n - 1], Replies(states, actions, n - 1), actions[n - 1]);
    }
  }

  /** No message is skipped: answers go through the feed one by one from its first, and
      only the one just answered is ever answered again. */
  lemma {:induction false} InOrder(states: seq<State>, actions: seq<Action>, i: nat)
    requires IsRun(states, actions) && i < |states|
    ensures var log, replies := states[i].log, Replies(states, actions, i);
            && |log| == |replies|
            && (forall k :: 0 <= k < |log| ==> log[k] < |states[i].feed| && replies[k].update == states[i].feed[log[k]])
            && (log != [] ==> log[0] == 0)
            && (forall k :: 0 <= k < |log| - 1 ==> log[k + 1] == log[k] || log[k + 1] == log[k] + 1)
  {
    hide Settled, DI.DeliveryOk;
    LogIsTheRun(states, actions, i);
    RunsAreSound(states, actions, i);
  }

  lemma {:induction false} PassedIs(s: State, j: nat)
    requires FeedOk(s) && j < |s.feed|
    ensures s.feed[j].id < s.offset <==> j < s.done
  {
    if s.done > 0 {
      var last := s.feed[s.done - 1];
      assert j < s.done - 1 ==> s.feed[j].id < last.id;
      assert j > s.done - 1 ==> last.id < s.feed[j].id;
    }
  }

  ghost predicate Replied(replies: seq<Reply>, u: Update, ok: bool) {
    exists k :: 0 <= k < |replies| && replies[k] == Reply(u, ok)
  }

  lemma {:induction false} LoggedReply(s: State, replies: seq<Reply>, j: nat, ok: bool)
    requires Logged(s, replies) && j < |s.feed| && j in (if ok then s.applied else s.failed)
    ensures Replied(replies, s.feed[j], ok)
  {
    var k :| 0 <= k < |s.log| && s.log[k] == j && replies[k].ok == ok;
    assert replies[k] == Reply(s.feed[j], ok);
  }

  /** What Telegram no longer hands out has been answered, and where no answer met an
      error, answered with its effect. */
  lemma {:induction false} PassedIsAnswered(states: seq<State>, actions: seq<Action>, i: nat, j: nat)
    requires IsRun(states, actions) && i < |states|
    requires j < |states[i].feed| && states[i].feed[j].id < states[i].offset
    ensures var replies, u := Replies(states, actions, i), states[i].feed[j];
            && (Replied(replies, u, true) || Replied(replies, u, false))
            && ((forall k :: 0 <= k < i ==> !actions[k].AnswerFails?) ==> Replied(replies, u, true))
    ensures j in states[i].applied || j in states[i].failed
    ensures (forall k :: 0 <= k < i ==> !actions[k].AnswerFails?) ==> j in states[i].applied
  {
    hide Settled, DI.DeliveryOk;
    RunsAreSound(states, actions, i);
    LogIsTheRun(states, actions, i);
    PassedIs(states[i], j);
    assert j in states[i].applied + states[i].failed;
    hide IsRun, Replies, Logged, BotOk, LogOk, FeedOk;
    LoggedReply(states[i], Replies(states, actions, i), j, j in states[i].applied);
    if forall k :: 0 <= k < i ==> !actions[k].AnswerFails? {
      NoFailures(states, actions, i);
    }
  }

  lemma {:induction false} NoFailures(states: seq<State>, actions: seq<Action>, i: nat)
    requires IsRun(states, actions) && i < |states|
    requires forall k :: 0 <= k < i ==> !actions[k].AnswerFails?
    ensures states[i].failed == {}
  {
    hide Settled, DI.DeliveryOk;
    if i > 0 {
      NoFailures(states, actions, i - 1);
    }
  }
}
