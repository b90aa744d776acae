// Runs of the dispatcher that show how long it waits before it tries a row again: a wait
// asked for and not kept, because it is reckoned from a time before the batch, and the
// exact condition for a wait to be kept.

module Scenarios {
  import opened Basics
  import opened Backoff
  import opened Ledger
  import opened Paths
  import opened Delivery
  import opened DeliveryInvariants
  import opened DeliveryTheorems

  function News1(): Event {
    Event("", false, "news")
  }

  function Queued(sub: int): Row {
    Row(sub, News(News1()), 0, 0, 0, None, None)
  }

  /** A crash that has the program start again. */
  predicate Restarts(a: Action) {
    a.Crash? && a.restarts
  }

  /** No crash at all, nor a failing statement. */
  predicate Steady(actions: seq<Action>) {
    forall i :: 0 <= i < |actions| ==> !actions[i].Crash?
  }

  /** The only row due is the whole batch. */
  lemma {:induction false} ReadsOne(s: State, channel: string, now: int, r: int) returns (t: State)
    requires s.work.todo == [] && NextRead(s) <= now && Due(s.db, r, now, {channel})
    requires forall x :: Due(s.db, x, now, {channel}) ==> x == r
    ensures Step(s, ReadBatch(now, {channel}, [ItemOf(s.db, r)]), t)
    ensures t == s.(work := Work(now, [ItemOf(s.db, r)], Ready), clock := now, restarted := false)
  {
    var items := [ItemOf(s.db, r)];
    assert RowIn(items, r) by { assert items[0].row == r; }
    t := Next(s, ReadBatch(now, {channel}, items));
  }

  // ---- Chats ----

  const FORM := SignUpForm(TELEGRAM, Placeholder(0), true, [], false)

  /** The row of a chat that signed up for everything at time 0. */
  function Joined(id: int, chat: string): Subscriber {
    Confirmed(NewSubscriber(FORM, id, 0), 0).(address := Known(chat))
  }

  /** Somebody picks Telegram on the form and opens the link. */
  lemma {:induction false} ChatJoins(s: State, chat: string) returns (actions: seq<Action>, t: State)
    requires forall id :: id in s.db.subs ==>
               id != s.db.nextSub && s.db.subs[id].confirmHash.None? && s.db.subs[id].address != Known(chat)
    ensures Leads(Step, s, actions, t) && Steady(actions)
    ensures t.db == s.db.(subs := s.db.subs[s.db.nextSub := Joined(s.db.nextSub, chat)], nextSub := s.db.nextSub + 1)
    ensures t.work == s.work && t.clock == s.clock && t.restarted == s.restarted
    ensures t.hist.tries == s.hist.tries
  {
    var id := s.db.nextSub;
    var a := Outside(TSignUpByLink(FORM, 0));
    var s1 := Next(s, a);
    var token := ConfirmToken(id, CONFIRM_TTL_SECS);
    assert LinkPending(s1.db.subs, id, token);
    var b := Outside(TLinkChat(token, chat, 0));
    t := Next(s1, b);
    assert FindLink(s1.db.subs, token) == Some(id);
    assert FindAddress(s1.db.subs, TELEGRAM, Known(chat)) == None;
    assert Step(s, a, s1) && Step(s1, b, t);
    assert t.db == s.db.(subs := s.db.subs[id := Joined(id, chat)], nextSub := id + 1);
    hide Step, Next, Joined;
    LeadsNowhere(Step, s);
    LeadsOn(Step, s, [], s, a, s1);
    LeadsOn(Step, s, [] + [a], s1, b, t);
    actions := [] + [a] + [b];
  }

  /** One chat, and the dispatcher between batches. */
  predicate Alone(s: State) {
    && s.work.todo == [] && s.work.phase.Ready?
    && s.db.subs == map[1 := Joined(1, "a")] && s.db.nextSub == 2
  }

  // ---- Waits ----

  /** The one row has been tried `a` times and may be tried again at `next`. */
  predicate Trying(s: State, a: nat, next: int) {
    Alone(s) && s.db.outbox == map[1 := Queued(1).(nextAttemptAt := next, attempts := a)]
  }

  lemma {:induction false} TryingStarts() returns (actions: seq<Action>, s: State)
    ensures Leads(Step, START, actions, s) && Steady(actions)
    ensures Trying(s, 0, 0) && NextRead(s) == 0 && Tries(s, 1) == []
  {
    var front, s0 := ChatJoins(START, "a");
    assert Recipients(s0.db.subs, News1()) == {1};
    var a := Outside(TFanOut(News1(), [1], 0));
    s := Next(s0, a);
    assert s.db.outbox.Keys == {1};
    LeadsOn(Step, START, front, s0, a, s);
    actions := front + [a];
  }

  /** The row is read and sent. */
  lemma {:induction false} Tried(s: State, a: nat, next: int, now: int, started: int, ended: int, o: Outcome)
    returns (actions: seq<Action>, t: State)
    requires Trying(s, a, next) && NextRead(s) <= now && next <= now && CanAnswer(TELEGRAM, o)
    requires now <= started <= ended <= started + SEND_LIMIT_SECS
    ensures Leads(Step, s, actions, t) && Steady(actions)
    ensures t.db == s.db && t.clock == ended && !t.restarted
    ensures t.work == Work(now, [ItemOf(s.db, 1)], Sent(o))
    ensures Tries(t, 1) == Tries(s, 1) + [Try(a + 1, now, started, ended, RequestedWait(o))]
  {
    var s1 := ReadsOne(s, TELEGRAM, now, 1);
    var item := ItemOf(s.db, 1);
    t := Next(s1, Send(o, started, ended));
    LeadsNowhere(Step, s);
    LeadsOn(Step, s, [], s, ReadBatch(now, {TELEGRAM}, [item]), s1);
    LeadsOn(Step, s, [] + [ReadBatch(now, {TELEGRAM}, [item])], s1, Send(o, started, ended), t);
    actions := [] + [ReadBatch(now, {TELEGRAM}, [item])] + [Send(o, started, ended)];
  }

  /** It fails, perhaps with a wait asked for, and is put off. */
  lemma {:induction false} PutOff(s: State, a: nat, next: int, now: int, started: int, ended: int, o: Outcome)
    returns (actions: seq<Action>, t: State)
    requires Trying(s, a, next) && NextRead(s) <= now && next <= now && (o.RateLimited? || o.OtherFailure?)
    requires now <= started <= ended <= started + SEND_LIMIT_SECS
    requires a + 1 < MAX_ATTEMPTS
    ensures Leads(Step, s, actions, t) && Steady(actions)
    ensures Trying(t, a + 1, now + Max(RetryDelay(a + 1), RequestedWait(o))) && t.clock == ended && !t.restarted
    ensures Tries(t, 1) == Tries(s, 1) + [Try(a + 1, now, started, ended, RequestedWait(o))]
  {
    var front, s1 := Tried(s, a, next, now, started, ended, o);
    var last;
    last, t := PutBack(s1, a, next, now, o);
    hide Step, ItemOf, RetryDelay;
    LeadsFar(Step, s, front, s1, last, t);
    actions := front + last;
  }

  lemma {:induction false} PutBack(s: State, a: nat, next: int, now: int, o: Outcome)
    returns (actions: seq<Action>, t: State)
    requires Trying(s.(work := IDLE), a, next) && a + 1 < MAX_ATTEMPTS && (o.RateLimited? || o.OtherFailure?)
    requires s.work == Work(now, [ItemOf(s.db, 1)], Sent(o))
    ensures Leads(Step, s, actions, t) && Steady(actions)
    ensures Trying(t, a + 1, now + Max(RetryDelay(a + 1), RequestedWait(o)))
    ensures t.clock == s.clock && t.restarted == s.restarted && t.hist == s.hist
  {
    hide RetryDelay;
    var half := Next(s, FirstWrite);
    assert half.db == s.db && half.work == s.work.(phase := HalfSettled(o));
    t := Next(half, LastWrite);
    LeadsNowhere(Step, s);
    LeadsOn(Step, s, [], s, FirstWrite, half);
    LeadsOn(Step, s, [] + [FirstWrite], half, LastWrite, t);
    actions := [] + [FirstWrite] + [LastWrite];
  }

  /** So a row can come to its next attempt, whichever of the eight it is. */
  lemma {:induction false} TriedBefore(a: nat) returns (actions: seq<Action>, s: State, next: int)
    requires a < MAX_ATTEMPTS
    ensures Leads(Step, START, actions, s) && Steady(actions)
    ensures Trying(s, a, next) && NextRead(s) <= next && |Tries(s, 1)| == a
  {
    if a == 0 {
      actions, s := TryingStarts();
      next := 0;
    } else {
      var front, s0, now := TriedBefore(a - 1);
      var last;
      last, s := PutOff(s0, a - 1, now, now, now, now, OtherFailure);
      next := now + Max(RetryDelay(a), 0);
      assert RetryDelay(a) >= RETRY_BASE_SECS by { RetryDelayIsExact(a); Pow2Grows(0, a - 1); }
      LeadsFar(Step, START, front, s0, last, s);
      actions := front + last;
    }
  }

  /** The program does not start again between try `i` of row `r` and the next. */
  predicate Unbroken(states: seq<State>, actions: seq<Action>, r: int, i: nat)
    requires |states| == |actions| + 1
  {
    forall x :: 0 <= x < |actions| && |SendsOf(states, actions, r, x)| == i + 1 ==> !Restarts(actions[x])
  }

  /** Attempt `a` of a row, the service asking for a wait of `asked` and the send ending
      `lag` seconds after the time read before its batch, is followed by the next attempt,
      in the same life of the program if `same`. */
  ghost predicate Followed(
    states: seq<State>, actions: seq<Action>, r: int, i: nat, a: nat, asked: int, lag: int, same: bool) {
    && IsRun(states, actions)
    && i + 1 < |SendsOf(states, actions, r, |actions|)|
    && (same ==> Unbroken(states, actions, r, i))
    && var first, next := SendsOf(states, actions, r, |actions|)[i], SendsOf(states, actions, r, |actions|)[i + 1];
       && first.attempt == a && next.attempt == a + 1
       && first.asked == asked && first.ended - first.batch == lag
  }

  ghost predicate Kept(states: seq<State>, actions: seq<Action>, r: int, i: nat, w: int)
    requires |states| == |actions| + 1 && i + 1 < |SendsOf(states, actions, r, |actions|)|
  {
    SendsOf(states, actions, r, |actions|)[i + 1].started >= SendsOf(states, actions, r, |actions|)[i].ended + w
  }

  /** No run starts the next attempt sooner than `w` seconds after the end of this one. */
  ghost predicate AlwaysKept(a: nat, asked: int, lag: int, w: int, same: bool) {
    forall states, actions, r, i ::
      Followed(states, actions, r, i, a, asked, lag, same) ==> Kept(states, actions, r, i, w)
  }

  /** What passes at least between the end of a batch and the next one. */
  function Pause(same: bool): int {
    if same then POLL_SECS else 0
  }

  // ---- A program that goes on pauses between batches ----

  /** A send of row `r` ended at `ended`, and the row is not read again before a pause. */
  ghost predicate Rests(s: State, r: int, ended: int) {
    !s.restarted && s.clock >= ended && (Waiting(s.work, r) ==> s.work.now >= ended + POLL_SECS)
  }

  lemma {:induction false} RestsOn(s: State, a: Action, t: State, r: int, ended: int)
    requires DeliveryOk(s) && Step(s, a, t) && Rests(s, r, ended) && !Restarts(a)
    ensures Rests(t, r, ended)
  {
    if a.Skip? || a.GiveUpHead? || a.LastWrite? {
      RestWaits(s.work, r);
    }
  }

  lemma {:induction false} RestsAfterSend(s: State, a: Action, t: State, r: int)
    requires DeliveryOk(s) && Step(s, a, t) && a.Send? && !s.restarted
    requires s.work.todo != [] && s.work.todo[0].row == r
    ensures Rests(t, r, a.ended)
  {
    hide TablesOk, CountsOk, RowOk;
    assert !Waiting(t.work, r);
  }

  lemma {:induction false} BusySinceStart(states: seq<State>, actions: seq<Action>, n: nat)
    requires IsRun(states, actions) && n <= |actions|
    ensures states[n].work.todo != [] ==> !states[n].restarted
  {
    if n > 0 {
      BusySinceStart(states, actions, n - 1);
      assert states[n - 1 + 1] == Next(states[n - 1], actions[n - 1]);
    }
  }

  /** The action that is try `i` of a row. */
  lemma {:induction false} ActionOfTry(states: seq<State>, actions: seq<Action>, r: int, n: nat, i: nat)
    returns (k: nat)
    requires |states| == |actions| + 1 && n <= |actions| && i < |SendsOf(states, actions, r, n)|
    ensures k < n && SendsRow(states, actions, k, r) && |SendsOf(states, actions, r, k)| == i
    ensures forall x :: k < x <= n ==> |SendsOf(states, actions, r, x)| > i
    ensures SendsOf(states, actions, r, n)[i].batch == states[k].work.now
    ensures SendsOf(states, actions, r, n)[i].ended == actions[k].ended
  {
    k := n - 1;
    if i < |SendsOf(states, actions, r, k)| {
      k := ActionOfTry(states, actions, r, n - 1, i);
    }
  }

  lemma {:induction false} RestsNext(states: seq<State>, actions: seq<Action>, r: int, ended: int, m: nat)
    requires IsRun(states, actions) && m < |actions| && !Restarts(actions[m])
    requires Rests(states[m], r, ended) || (SendsRow(states, actions, m, r) && ended == actions[m].ended)
    ensures Rests(states[m + 1], r, ended)
  {
    RunsAreSound(states, actions, m);
    assert Step(states[m], actions[m], states[m + 1]);
    if Rests(states[m], r, ended) {
      RestsOn(states[m], actions[m], states[m + 1], r, ended);
    } else {
      BusySinceStart(states, actions, m);
      RestsAfterSend(states[m], actions[m], states[m + 1], r);
    }
  }

  lemma {:induction false} RestsUntil(states: seq<State>, actions: seq<Action>, r: int, k: nat, m: nat)
    requires IsRun(states, actions) && k < m <= |actions| && SendsRow(states, actions, k, r)
    requires forall x :: k < x < m ==> !Restarts(actions[x])
    ensures Rests(states[m], r, actions[k].ended)
  {
    if m > k + 1 {
      RestsUntil(states, actions, r, k, m - 1);
    }
    RestsNext(states, actions, r, actions[k].ended, m - 1);
  }

  lemma {:induction false} PauseIsKept(states: seq<State>, actions: seq<Action>, r: int, i: nat)
    requires IsRun(states, actions) && i + 1 < |SendsOf(states, actions, r, |actions|)|
            && Unbroken(states, actions, r, i)
    ensures SendsOf(states, actions, r, |actions|)[i + 1].batch >= SendsOf(states, actions, r, |actions|)[i].ended
            + POLL_SECS
  {
    var n := |actions|;
    var k := ActionOfTry(states, actions, r, n, i);
    var m := ActionOfTry(states, actions, r, n, i + 1);
    SendsGrow(states, actions, r, m, k);
    forall x | k < x < m
      ensures !Restarts(actions[x])
    {
      SendsGrow(states, actions, r, x, m);
    }
    RestsUntil(states, actions, r, k, m);
    assert Waiting(states[m].work, r) by { assert states[m].work.todo[0].row == r && Enabled(states[m], actions[m]); }
  }

  lemma {:induction false} SendsGrow(states: seq<State>, actions: seq<Action>, r: int, m: nat, n: nat)
    requires |states| == |actions| + 1 && m <= |actions| && n <= |actions|
    ensures m <= n ==> |SendsOf(states, actions, r, m)| <= |SendsOf(states, actions, r, n)|
  {
    if m < n {
      SendsGrow(states, actions, r, m, n - 1);
    }
  }

  // ---- The exact condition ----

  lemma {:induction false} SoonestPath(a: nat, asked: int, lag: int, same: bool)
    returns (actions: seq<Action>, t: State)
    requires 1 <= a < MAX_ATTEMPTS && lag >= 0
    ensures Leads(Step, START, actions, t) && (same ==> Steady(actions))
    ensures var tries := Tries(t, 1);
            && |tries| == a + 1 && tries[a - 1].asked == asked && tries[a - 1].ended - tries[a - 1].batch == lag
            && tries[a - 1].attempt == a && tries[a].attempt == a + 1
            && tries[a].started == tries[a - 1].batch + Max(lag + Pause(same), Max(RetryDelay(a), asked))
  {
    hide RetryDelay, Step;
    var front, s0, now := TriedBefore(a - 1);
    var mid, s1 := PutOff(s0, a - 1, now, now, now + lag, now + lag, RateLimited(asked));
    LeadsFar(Step, START, front, s0, mid, s1);
    var crash, s2 := MayCrash(s1, same);
    LeadsFar(Step, START, front + mid, s1, crash, s2);
    var next := now + Max(RetryDelay(a), asked);
    var later := Max(now + lag + Pause(same), next);
    var last;
    last, t := Tried(s2, a, next, later, later, later, Delivered);
    LeadsFar(Step, START, front + mid + crash, s2, last, t);
    actions := front + mid + crash + last;
  }

  lemma {:induction false} MayCrash(s: State, same: bool) returns (actions: seq<Action>, t: State)
    requires s.work.todo == [] && s.work.phase.Ready? && !s.restarted
    ensures Leads(Step, s, actions, t) && (same ==> Steady(actions))
    ensures t.db == s.db && t.clock == s.clock && Tries(t, 1) == Tries(s, 1) && NextRead(t) == s.clock + Pause(same)
    ensures t.work.todo == [] && t.work.phase.Ready?
  {
    LeadsNowhere(Step, s);
    if same {
      actions, t := [], s;
    } else {
      t := Next(s, Crash(true));
      LeadsOn(Step, s, [], s, Crash(true), t);
      actions := [] + [Crash(true)];
    }
  }

  lemma {:induction false} SoonestRun(a: nat, asked: int, lag: int, same: bool)
    returns (states: seq<State>, actions: seq<Action>)
    requires 1 <= a < MAX_ATTEMPTS && lag >= 0
    ensures Followed(states, actions, 1, a - 1, a, asked, lag, same)
    ensures var tries := SendsOf(states, actions, 1, |actions|);
            tries[a].started == tries[a - 1].batch + Max(lag + Pause(same), Max(RetryDelay(a), asked))
  {
    hide RetryDelay, Step;
    var t;
    actions, t := SoonestPath(a, asked, lag, same);
    states := PathIsARun(actions, t);
    HistoryIsTheRun(states, actions, 1, |actions|);
    hide IsRun, SendsOf, Leads;
  }

  /** The exact condition for a wait between two attempts to be kept on the clock, whether
      it is the schedule's or one a service asked for: the first must end early enough
      after the time read before its batch, or the pause between two batches be long
      enough, if no crash saves the program that pause. A wait the service asked for that
      is longer than the schedule's is kept for certain only if it is no longer than the
      pause, or no time passed at all. */
  lemma {:induction false} WaitKeptIff(a: nat, asked: int, lag: int, w: int, same: bool)
    requires 1 <= a < MAX_ATTEMPTS && lag >= 0
    ensures AlwaysKept(a, asked, lag, w, same) <==> w <= Pause(same) || lag <= Max(RetryDelay(a), asked) - w
  {
    if w <= Pause(same) || lag <= Max(RetryDelay(a), asked) - w {
      forall states, actions, r, i | Followed(states, actions, r, i, a, asked, lag, same)
        ensures Kept(states, actions, r, i, w)
      {
        WaitsAreHonoured(states, actions, r, |actions|, i);
        if same {
          PauseIsKept(states, actions, r, i);
        }
      }
    } else {
      var states, actions := SoonestRun(a, asked, lag, same);
      assert Followed(states, actions, 1, a - 1, a, asked, lag, same);
      assert !Kept(states, actions, 1, a - 1, w);
    }
  }

  // ---- A wait that is not kept ----

  predicate TwoChats(s: State) {
    s.db.subs == map[1 := Joined(1, "a"), 2 := Joined(2, "b")]
  }

  lemma {:induction false} TwoWait() returns (actions: seq<Action>, s: State)
    ensures Leads(Step, START, actions, s) && Steady(actions)
    ensures s.work == IDLE && NextRead(s) == 0 && Tries(s, 1) == Tries(s, 2) == []
    ensures TwoChats(s) && s.db.outbox == map[1 := Queued(1), 2 := Queued(2)]
  {
    var front, s1 := ChatJoins(START, "a");
    var next, s2 := ChatJoins(s1, "b");
    LeadsFar(Step, START, front, s1, next, s2);
    s := NewsForTwo(s2);
    hide Step;
    LeadsOn(Step, START, front + next, s2, Outside(TFanOut(News1(), [1, 2], 0)), s);
    actions := front + next + [Outside(TFanOut(News1(), [1, 2], 0))];
  }

  lemma {:induction false} BothConcerned()
    ensures Recipients(map[1 := Joined(1, "a"), 2 := Joined(2, "b")], News1()) == {1, 2}
  {
  }

  lemma {:induction false} NewsForTwo(s: State) returns (t: State)
    requires TwoChats(s) && s.db.outbox == map[] && s.db.nextRow == 1
    ensures Step(s, Outside(TFanOut(News1(), [1, 2], 0)), t)
    ensures t.db.subs == s.db.subs && t.db.outbox == map[1 := Queued(1), 2 := Queued(2)]
    ensures t.work == s.work && t.clock == s.clock && t.restarted == s.restarted && t.hist == s.hist
  {
    BothConcerned();
    hide Recipients, Joined;
    t := Next(s, Outside(TFanOut(News1(), [1, 2], 0)));
    assert t.db.outbox.Keys == {1, 2};
  }

  lemma {:induction false} ReadsTwo(s: State) returns (t: State)
    requires s.work == IDLE && NextRead(s) == 0
    requires TwoChats(s) && s.db.outbox == map[1 := Queued(1), 2 := Queued(2)]
    ensures Step(s, ReadBatch(0, {TELEGRAM}, [ItemOf(s.db, 1), ItemOf(s.db, 2)]), t)
    ensures t == s.(work := Work(0, [ItemOf(s.db, 1), ItemOf(s.db, 2)], Ready), clock := 0, restarted := false)
  {
    var items := [ItemOf(s.db, 1), ItemOf(s.db, 2)];
    forall r
      ensures RowIn(items, r) <==> r == 1 || r == 2
    {
      assert items[0].row == 1 && items[1].row == 2;
    }
    t := Next(s, ReadBatch(0, {TELEGRAM}, items));
  }

  /** The first of two rows goes out, taking 29 seconds. */
  lemma {:induction false} FirstGoesOut(s: State) returns (actions: seq<Action>, t: State)
    requires s.work == IDLE && NextRead(s) == 0 && Tries(s, 1) == Tries(s, 2) == []
    requires TwoChats(s) && s.db.outbox == map[1 := Queued(1), 2 := Queued(2)]
    ensures Leads(Step, s, actions, t) && Steady(actions)
    ensures t.work == Work(0, [ItemOf(s.db, 2)], Ready) && t.clock == 29 && !t.restarted
    ensures Tries(t, 1) == [Try(1, 0, 0, 29, 0)] && Tries(t, 2) == []
    ensures TwoChats(t) && t.db.outbox == s.db.outbox[1 := Queued(1).(sentAt := Some(0), attempts := 1)]
  {
    var items := [ItemOf(s.db, 1), ItemOf(s.db, 2)];
    var a, b := ReadBatch(0, {TELEGRAM}, items), Send(Delivered, 0, 29);
    var s1 := ReadsTwo(s);
    var s2 := Next(s1, b);
    var s3 := Next(s2, FirstWrite);
    t := Next(s3, LastWrite);
    assert items[1..] == [ItemOf(s.db, 2)];
    LeadsNowhere(Step, s);
    LeadsOn(Step, s, [], s, a, s1);
    LeadsOn(Step, s, [] + [a], s1, b, s2);
    LeadsOn(Step, s, [] + [a] + [b], s2, FirstWrite, s3);
    LeadsOn(Step, s, [] + [a] + [b] + [FirstWrite], s3, LastWrite, t);
    actions := [] + [a] + [b] + [FirstWrite] + [LastWrite];
  }

  /** The second is refused at once, with a wait of 31 seconds. */
  lemma {:induction false} SecondIsRefused(s: State) returns (actions: seq<Action>, t: State)
    requires TwoChats(s) && s.db.outbox == map[1 := Queued(1).(sentAt := Some(0), attempts := 1), 2 := Queued(2)]
    requires s.work == Work(0, [ItemOf(s.db, 2)], Ready) && s.clock == 29 && !s.restarted && Tries(s, 2) == []
    ensures Leads(Step, s, actions, t) && Steady(actions)
    ensures TwoChats(t) && t.work.todo == [] && NextRead(t) == 34
    ensures t.db.outbox == s.db.outbox[2 := Queued(2).(nextAttemptAt := 31, attempts := 1)]
    ensures Tries(t, 1) == Tries(s, 1) && Tries(t, 2) == [Try(1, 0, 29, 29, 31)]
  {
    assert RetryDelay(1) == 30 by { RetryDelayIsExact(1); }
    var a := Send(RateLimited(31), 29, 29);
    var s1 := Next(s, a);
    var s2 := Next(s1, FirstWrite);
    assert s2.db == s.db;
    t := Next(s2, LastWrite);
    LeadsNowhere(Step, s);
    LeadsOn(Step, s, [], s, a, s1);
    LeadsOn(Step, s, [] + [a], s1, FirstWrite, s2);
    LeadsOn(Step, s, [] + [a] + [FirstWrite], s2, LastWrite, t);
    actions := [] + [a] + [FirstWrite] + [LastWrite];
  }

  lemma {:induction false} ThenSent(s: State) returns (actions: seq<Action>, t: State)
    requires TwoChats(s) && s.work.todo == [] && NextRead(s) == 34
    requires s.db.outbox == map[1 := Queued(1).(sentAt := Some(0), attempts := 1),
                                2 := Queued(2).(nextAttemptAt := 31, attempts := 1)]
    ensures Leads(Step, s, actions, t) && Steady(actions)
    ensures Tries(t, 1) == Tries(s, 1) && Tries(t, 2) == Tries(s, 2) + [Try(2, 34, 34, 34, 0)]
  {
    assert Due(s.db, 2, 34, {TELEGRAM});
    var s1 := ReadsOne(s, TELEGRAM, 34, 2);
    var a, b := ReadBatch(34, {TELEGRAM}, [ItemOf(s.db, 2)]), Send(Delivered, 34, 34);
    t := Next(s1, b);
    LeadsNowhere(Step, s);
    LeadsOn(Step, s, [], s, a, s1);
    LeadsOn(Step, s, [] + [a], s1, b, t);
    actions := [] + [a] + [b];
  }

  /** Without any crash, a row for one chat is refused with a wait of 31 seconds and sent
      again after 5: the row before it, for another chat, had taken 29, and the wait was
      reckoned from before that. */
  lemma {:induction false} RetriedTooSoon() returns (states: seq<State>, actions: seq<Action>)
    ensures IsRun(states, actions) && Steady(actions)
    ensures SendsOf(states, actions, 1, |actions|) == [Try(1, 0, 0, 29, 0)]
    ensures SendsOf(states, actions, 2, |actions|) == [Try(1, 0, 29, 29, 31), Try(2, 34, 34, 34, 0)]
  {
    hide Step, Leads;
    var t;
    actions, t := TooSoonPath();
    states := PathIsARun(actions, t);
    HistoryIsTheRun(states, actions, 2, |actions|);
    HistoryIsTheRun(states, actions, 1, |actions|);
    hide IsRun;
  }

  lemma {:induction false} TooSoonPath() returns (actions: seq<Action>, t: State)
    ensures Leads(Step, START, actions, t) && Steady(actions)
    ensures Tries(t, 1) == [Try(1, 0, 0, 29, 0)] && Tries(t, 2) == [Try(1, 0, 29, 29, 31), Try(2, 34, 34, 34, 0)]
  {
    var front, s0 := TwoWait();
    var first, s1 := FirstGoesOut(s0);
    assert ItemOf(s1.db, 2) == ItemOf(s0.db, 2);
    hide Step, ItemOf;
    var second, s2 := SecondIsRefused(s1);
    LeadsFar(Step, START, front, s0, first, s1);
    LeadsFar(Step, START, front + first, s1, second, s2);
    var last;
    last, t := ThenSent(s2);
    LeadsFar(Step, START, front + first + second, s2, last, t);
    actions := front + first + second + last;
  }
}
