// One round of the bot's polling, statement by statement (src/subscriptions/telegram.rs).

module Bots {
  import opened Basics
  import opened Ledger
  import opened BotPolling
  import D = Delivery
  import opened Paths
  import Database
  import opened LedgerEffects
  import opened LedgerInvariants

  ghost function AnswerTables(db: Db, u: Update, now: int): Db {
    match u.command
    case Start(token) => LinkChat(db, token, u.chat, now)
    case Stop => StopChat(db, u.chat)
    case Other => db
  }

  /** The tables after the first `n` updates, each answered at its time. */
  ghost function AnswerUpTo(db: Db, updates: seq<Update>, times: seq<int>, n: nat): Db
    requires n <= |updates| <= |times|
  {
    if n == 0 then db else AnswerTables(AnswerUpTo(db, updates, times, n - 1), updates[n - 1], times[n - 1])
  }

  /** A start message is answered by linking the chat, a stop by deleting its rows. */
  ghost predicate Answers(a: Db, b: Db, u: Update, now: int) {
    match u.command
    case Start(token) => exists answer :: ChatLinked(a, b, token, u.chat, now, answer)
    case Stop => ChatLeft(a, b, u.chat)
    case Other => b == a
  }

  lemma {:induction false} AnswerDoes(db: Db, u: Update, now: int)
    requires TablesOk(db)
    ensures Answers(db, AnswerTables(db, u, now), u, now)
    ensures TablesOk(AnswerTables(db, u, now))
  {
    hide TablesOk, ChatLinked, ChatLeft, LinkChat, OutboxFrame;
    match u.command
    case Start(token) =>
      LinkChatDoes(db, token, u.chat, now);
      LinkChatKeeps(db, token, u.chat, now);
      assert ChatLinked(db, LinkChat(db, token, u.chat, now), token, u.chat, now, LinkResult(db, token, now));
    case Stop =>
      StopChatDoes(db, u.chat);
      RemoveSubsKeeps(db, set id | id in db.subs && Lives(db.subs, id, TELEGRAM, Known(u.chat)));
    case Other =>
  }

  lemma {:induction false} AnswersDo(db: Db, updates: seq<Update>, times: seq<int>, n: nat)
    requires TablesOk(db) && n <= |updates| <= |times|
    ensures TablesOk(AnswerUpTo(db, updates, times, n))
    ensures forall i :: 0 <= i < n ==>
              Answers(AnswerUpTo(db, updates, times, i), AnswerUpTo(db, updates, times, i + 1), updates[i], times[i])
  {
    hide TablesOk, Answers, AnswerTables;
    if n == 0 {
      assert AnswerUpTo(db, updates, times, 0) == db;
    } else {
      AnswersDo(db, updates, times, n - 1);
      AnswerDoes(AnswerUpTo(db, updates, times, n - 1), updates[n - 1], times[n - 1]);
    }
  }

  class Bot {
    const tables: Database.Tables
    var offset: int

    constructor (tables: Database.Tables)
      ensures this.tables == tables && offset == 0
    {
      this.tables, offset := tables, 0;
    }

    /** Answer each update and move the offset past it. */
    method PollOnce(updates: seq<Update>, times: seq<int>)
      requires tables.Valid() && |updates| <= |times|
      modifies this, tables
      ensures tables.Valid()
      ensures tables.Contents() == AnswerUpTo(old(tables.Contents()), updates, times, |updates|)
      ensures forall i :: 0 <= i < |updates| ==>
                Answers(AnswerUpTo(old(tables.Contents()), updates, times, i),
                        AnswerUpTo(old(tables.Contents()), updates, times, i + 1), updates[i], times[i])
      ensures offset == if updates == [] then old(offset) else updates[|updates| - 1].id + 1
    {
      hide TablesOk, Answers, ChatLinked, ChatLeft, LinkChat, StopChat, LinkResult;
      for i := 0 to |updates|
        invariant tables.Valid()
        invariant tables.Contents() == AnswerUpTo(old(tables.Contents()), updates, times, i)
        invariant offset == if i == 0 then old(offset) else updates[i - 1].id + 1
      {
        var u := updates[i];
        match u.command {
          case Start(token) => var linked := tables.LinkChat(token, u.chat, times[i]);
          case Stop => var found := tables.StopChat(u.chat);
          case Other =>
        }
        offset := u.id + 1;
      }
      AnswersDo(old(tables.Contents()), updates, times, |updates|);
    }
  }

  /** What `PollOnce` does to the tables and the offset is what an undisturbed round of the
      polling machine does, so what is proved of its runs holds of the program's. */
  lemma {:induction false} RoundIsARun(s: State, n: nat, times: seq<int>, k: nat)
    returns (actions: seq<Action>, t: State)
    requires s.todo == [] && n <= |HandedOut(s.feed, s.offset)| && k <= n <= |times|
    requires forall i, j :: 0 <= i < j < |times| ==> times[i] <= times[j]
    requires times != [] ==> s.clock <= times[0]
    ensures Leads(Step, s, actions, t)
    ensures var updates := HandedOut(s.feed, s.offset)[..n];
            && t.world.db == AnswerUpTo(s.world.db, updates, times, k)
            && t.offset == (if k == 0 then s.offset else updates[k - 1].id + 1)
            && t.todo == updates[k..] && !t.answered
            && t.clock == (if k == 0 then s.clock else times[k - 1])
  {
    if k == 0 {
      t := Next(s, Poll(n));
      LeadsNowhere(Step, s);
      LeadsOn(Step, s, [], s, Poll(n), t);
      actions := [] + [Poll(n)];
    } else {
      var front, mid := RoundIsARun(s, n, times, k - 1);
      var now := times[k - 1];
      var half := Next(mid, Answer(now));
      t := Next(half, Advance);
      LeadsOn(Step, s, front, mid, Answer(now), half);
      LeadsOn(Step, s, front + [Answer(now)], half, Advance, t);
      actions := front + [Answer(now)] + [Advance];
    }
  }
}
