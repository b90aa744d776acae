// Runs of the dispatcher that show where quarantine departs from what is said of it: a
// tenth failure that quarantines nobody, and a success that does not start the count
// over.

module QuarantineScenarios {
  import opened Basics
  import opened FailureWindow
  import opened Ledger
  import opened Paths
  import opened Delivery
  import opened DeliveryInvariants
  import opened SubscriberInvariants
  import opened DeliveryTheorems
  import opened QuarantineTheorems
  import opened Scenarios

  const HOOK := SignUpForm(WEBHOOK, Known("https://hook.example/"), true, [], false)

  /** Signing up and receiving the confirmation each clear the counter. */
  const OPENING := [Cleared, Cleared]

  // ---- A webhook subscribes ----

  /** One active webhook, and the dispatcher between batches. */
  ghost predicate Lone(s: State) {
    && s.work.todo == [] && s.work.phase.Ready?
    && s.db.subs.Keys == {1} && s.db.subs[1].status.Active? && s.db.subs[1].channel == WEBHOOK
    && s.db.subs[1].allComponents
    && 0 < s.db.nextRow && forall r :: r in s.db.outbox ==> r < s.db.nextRow && s.db.outbox[r].sub == 1
  }

  ghost predicate AllDone(db: Db) {
    forall r :: r in db.outbox ==> !db.outbox[r].Undelivered()
  }

  /** Its sign-up queues a confirmation. */
  lemma {:induction false} SignsUp() returns (t: State)
    ensures Step(START, Outside(TSignUp(HOOK, 0)), t)
    ensures t.db.subs.Keys == {1} && t.db.outbox == map[1 := Row(1, Confirmation, 0, 0, 0, None, None)]
            && t.db.nextRow == 2
    ensures t.db.subs[1].channel == WEBHOOK && t.db.subs[1].allComponents && t.db.subs[1].status.Pending?
    ensures t.db.subs[1].window == ZERO && t.db.subs[1].confirmExpires == Some(CONFIRM_TTL_SECS)
    ensures t.db.subs[1].confirmHash == Some(ConfirmToken(1, CONFIRM_TTL_SECS))
    ensures t.work == IDLE && t.clock == 0 && t.restarted
    ensures Marks(t, 1) == [Cleared] && t.hist.tries == map[] && t.hist.successes == map[] && Missed(t, 1) == 0
  {
    assert FindAddress(EMPTY.subs, WEBHOOK, HOOK.address) == None;
    t := Next(START, Outside(TSignUp(HOOK, 0)));
  }

  /** The confirmation goes out. */
  lemma {:induction false} ConfirmationGoes(s: State) returns (actions: seq<Action>, t: State)
    requires s.db.subs.Keys == {1} && s.db.outbox == map[1 := Row(1, Confirmation, 0, 0, 0, None, None)]
    requires s.db.subs[1].channel == WEBHOOK && s.db.subs[1].status.Pending? && s.db.subs[1].window == ZERO
    requires s.db.subs[1].confirmExpires == Some(CONFIRM_TTL_SECS)
    requires s.work == IDLE && s.clock == 0 && s.restarted
    ensures Leads(Step, s, actions, t)
    ensures t.db == s.db.(outbox := map[1 := Row(1, Confirmation, 0, 0, 1, Some(0), None)])
    ensures t.work == Work(0, [], Ready) && t.clock == 0 && !t.restarted
    ensures Marks(t, 1) == Marks(s, 1) + [Cleared] && t.hist.missed == s.hist.missed
  {
    var read, send := ReadBatch(0, {WEBHOOK}, [ItemOf(s.db, 1)]), Send(Delivered, 0, 0);
    var s1 := ReadsOne(s, WEBHOOK, 0, 1);
    var s2 := Next(s1, send);
    var s3 := Next(s2, FirstWrite);
    t := Next(s3, LastWrite);
    LeadsNowhere(Step, s);
    LeadsOn(Step, s, [], s, read, s1);
    LeadsOn(Step, s, [] + [read], s1, send, s2);
    LeadsOn(Step, s, [] + [read] + [send], s2, FirstWrite, s3);
    LeadsOn(Step, s, [] + [read] + [send] + [FirstWrite], s3, LastWrite, t);
    actions := [] + [read] + [send] + [FirstWrite] + [LastWrite];
  }

  /** And its link is followed. */
  lemma {:induction false} OneSubscribes() returns (actions: seq<Action>, s: State)
    ensures Leads(Step, START, actions, s)
    ensures Lone(s) && AllDone(s.db) && s.clock == 0 && !s.restarted
    ensures s.db.subs[1].window == ZERO && Marks(s, 1) == OPENING && Missed(s, 1) == 0
  {
    var a := Outside(TSignUp(HOOK, 0));
    var s1 := SignsUp();
    var mid, s2 := ConfirmationGoes(s1);
    var b := Outside(TConfirm(ConfirmToken(1, CONFIRM_TTL_SECS), 0));
    assert Confirmable(s2.db.subs[1], ConfirmToken(1, CONFIRM_TTL_SECS), 0);
    s := Next(s2, b);
    LeadsNowhere(Step, START);
    LeadsOn(Step, START, [], START, a, s1);
    LeadsFar(Step, START, [] + [a], s1, mid, s2);
    LeadsOn(Step, START, [] + [a] + mid, s2, b, s);
    actions := [] + [a] + mid + [b];
  }

  // ---- One event ----

  /** Row `r` is an event for the webhook that nothing has been tried of, and the only one
      left to deliver. */
  ghost predicate OneDue(s: State, r: int, now: int) {
    && Lone(s) && NextRead(s) <= now
    && r in s.db.outbox && s.db.outbox[r].Undelivered() && s.db.outbox[r].kind == News(News1())
    && s.db.outbox[r].attempts == 0 && s.db.outbox[r].nextAttemptAt <= now
    && forall x :: x in s.db.outbox && x != r ==> !s.db.outbox[x].Undelivered()
  }

  /** An event reaches the webhook. */
  lemma {:induction false} NewsArrives(s: State, now: int) returns (t: State)
    requires Lone(s) && AllDone(s.db) && NextRead(s) <= now
    ensures Step(s, Outside(TFanOut(News1(), [1], now)), t)
    ensures OneDue(t, s.db.nextRow, now) && t.db.subs == s.db.subs && t.hist == s.hist
    ensures forall r :: r in s.db.outbox ==> r in t.db.outbox && t.db.outbox[r] == s.db.outbox[r]
    ensures t.clock == s.clock && t.restarted == s.restarted
  {
    assert Recipients(s.db.subs, News1()) == {1};
    t := Next(s, Outside(TFanOut(News1(), [1], now)));
    assert t.db.outbox.Keys == s.db.outbox.Keys + {s.db.nextRow};
    assert t.db.outbox[s.db.nextRow] == Row(1, News(News1()), now, now, 0, None, None);
  }

  /** The row goes out at `now`, and a crash falls before the counter is cleared. */
  lemma {:induction false} DeliveredThenCrash(s: State, now: int, r: int) returns (actions: seq<Action>, t: State)
    requires OneDue(s, r, now)
    ensures Leads(Step, s, actions, t)
    ensures Lone(t) && AllDone(t.db) && t.clock == now && t.restarted && t.db.nextRow == s.db.nextRow
    ensures t.db.subs == s.db.subs && r in t.db.outbox && t.db.outbox[r].sentAt == Some(now)
    ensures Marks(t, 1) == Marks(s, 1) && Missed(t, 1) == Missed(s, 1)
    ensures Successes(t, r) == Successes(s, r) + 1 && Lost(t, r) == Lost(s, r)
  {
    var item := ItemOf(s.db, r);
    var a, b := ReadBatch(now, {WEBHOOK}, [item]), Send(Delivered, now, now);
    var s1 := ReadsOne(s, WEBHOOK, now, r);
    var s2 := Next(s1, b);
    var s3 := Next(s2, FirstWrite);
    t := Next(s3, Crash(true));
    LeadsNowhere(Step, s);
    LeadsOn(Step, s, [], s, a, s1);
    LeadsOn(Step, s, [] + [a], s1, b, s2);
    LeadsOn(Step, s, [] + [a] + [b], s2, FirstWrite, s3);
    LeadsOn(Step, s, [] + [a] + [b] + [FirstWrite], s3, Crash(true), t);
    actions := [] + [a] + [b] + [FirstWrite] + [Crash(true)];
  }

  /** It is refused for good, and the failure counted. */
  ghost predicate JustCounted(s: State, now: int, r: int, window: Counter, marks: seq<Mark>) {
    && Lone(s.(work := IDLE)) && s.clock == now && !s.restarted
    && |s.work.todo| == 1 && s.work.todo[0].row == r && s.work.todo[0].sid == 1 && s.work.now == now
    && s.work.phase == (if window.failures >= QUARANTINE_FAILURES then AtLimit(Permanent) else HalfSettled(Permanent))
    && s.db.subs[1].window == window && Marks(s, 1) == marks
    && OneDue(s.(work := IDLE, restarted := true), r, now)
  }

  lemma {:induction false} Fails(s: State, now: int, r: int) returns (actions: seq<Action>, t: State)
    requires OneDue(s, r, now)
    ensures Leads(Step, s, actions, t)
    ensures JustCounted(t, now, r, CountFailure(s.db.subs[1].window, now), Marks(s, 1) + [Failed(now)])
    ensures t.db.outbox == s.db.outbox && t.hist.missed == s.hist.missed
    ensures t.hist.successes == s.hist.successes && t.hist.lost == s.hist.lost
  {
    var item := ItemOf(s.db, r);
    var a, b := ReadBatch(now, {WEBHOOK}, [item]), Send(Permanent, now, now);
    var s1 := ReadsOne(s, WEBHOOK, now, r);
    var s2 := Next(s1, b);
    t := Next(s2, FirstWrite);
    LeadsNowhere(Step, s);
    LeadsOn(Step, s, [], s, a, s1);
    LeadsOn(Step, s, [] + [a], s1, b, s2);
    LeadsOn(Step, s, [] + [a] + [b], s2, FirstWrite, t);
    actions := [] + [a] + [b] + [FirstWrite];
  }

  /** And given up; the subscriber is quarantined first if its count calls for it. */
  lemma {:induction false} GivenUp(s: State, now: int, r: int, window: Counter, marks: seq<Mark>)
    returns (actions: seq<Action>, t: State)
    requires JustCounted(s, now, r, window, marks)
    ensures Leads(Step, s, actions, t)
    ensures t.work.todo == [] && t.work.phase.Ready? && t.clock == now && !t.restarted && 1 in t.db.subs
    ensures t.db.subs[1].window == window && t.hist == s.hist && AllDone(t.db)
    ensures t.db.subs[1].status.Quarantined? <==> window.failures >= QUARANTINE_FAILURES
    ensures window.failures >= QUARANTINE_FAILURES ==> t.db.subs[1].quarantinedAt == Some(now)
    ensures window.failures < QUARANTINE_FAILURES ==> Lone(t)
    ensures forall x :: x in s.db.outbox && x != r ==> x in t.db.outbox && t.db.outbox[x] == s.db.outbox[x]
  {
    LeadsNowhere(Step, s);
    if s.work.phase.AtLimit? {
      var s1 := Next(s, QuarantineWrite);
      t := Next(s1, LastWrite);
      LeadsOn(Step, s, [], s, QuarantineWrite, s1);
      LeadsOn(Step, s, [] + [QuarantineWrite], s1, LastWrite, t);
      actions := [] + [QuarantineWrite] + [LastWrite];
    } else {
      t := Next(s, LastWrite);
      LeadsOn(Step, s, [], s, LastWrite, t);
      actions := [] + [LastWrite];
    }
  }

  // ---- Nine failures ----

  /** One failure every five seconds from 5 on. */
  function Failures(n: nat): seq<Mark> {
    seq(n, i => Failed(5 * (i + 1)))
  }

  function CountedTo(j: nat): Counter {
    if j == 0 then ZERO else Counter(Some(5), j)
  }

  /** `j` failures have been counted and every row is finished with. */
  ghost predicate FailedSo(s: State, j: nat) {
    && Lone(s) && AllDone(s.db)
    && s.db.subs[1].window == CountedTo(j) && Marks(s, 1) == OPENING + Failures(j) && Missed(s, 1) == 0
  }

  /** The next event comes and fails. */
  lemma {:induction false} NextFails(s: State, j: nat, now: int) returns (actions: seq<Action>, t: State, r: int)
    requires FailedSo(s, j) && j < QUARANTINE_FAILURES && NextRead(s) <= now && 5 * (j + 1) <= now < 3605
    ensures Leads(Step, s, actions, t) && r == s.db.nextRow
    ensures var window := if j == 0 then Counter(Some(now), 1) else CountedTo(j + 1);
            JustCounted(t, now, r, window, Marks(s, 1) + [Failed(now)])
    ensures t.hist.missed == s.hist.missed && t.hist.successes == s.hist.successes && t.hist.lost == s.hist.lost
    ensures forall x :: x in s.db.outbox ==> x in t.db.outbox && t.db.outbox[x] == s.db.outbox[x] && x != r
  {
    r := s.db.nextRow;
    var a := Outside(TFanOut(News1(), [1], now));
    var s1 := NewsArrives(s, now);
    var rest;
    rest, t := Fails(s1, now, r);
    LeadsNowhere(Step, s);
    LeadsOn(Step, s, [], s, a, s1);
    LeadsFar(Step, s, [] + [a], s1, rest, t);
    actions := [] + [a] + rest;
  }

  lemma {:induction false} SomeFail(j: nat) returns (actions: seq<Action>, s: State)
    requires j < QUARANTINE_FAILURES
    ensures Leads(Step, START, actions, s)
    ensures FailedSo(s, j) && s.clock == 5 * j && !s.restarted
  {
    if j == 0 {
      actions, s := OneSubscribes();
    } else {
      var front, s0 := SomeFail(j - 1);
      var turn, s1, r := NextFails(s0, j - 1, 5 * j);
      var last;
      last, s := GivenUp(s1, 5 * j, r, CountedTo(j), Marks(s0, 1) + [Failed(5 * j)]);
      LeadsFar(Step, START, front, s0, turn, s1);
      LeadsFar(Step, START, front + turn, s1, last, s);
      actions := front + turn + last;
      assert OPENING + Failures(j) == OPENING + Failures(j - 1) + [Failed(5 * j)];
    }
  }

  // ---- The missed tenth ----

  /** Ten failures are counted, and a crash falls before the quarantine. */
  lemma {:induction false} TenthIsLost() returns (actions: seq<Action>, s: State, r: int)
    ensures Leads(Step, START, actions, s)
    ensures s.clock == 50 && s.restarted && OneDue(s, r, 50)
    ensures s.db.subs[1].window == CountedTo(10) && Marks(s, 1) == OPENING + Failures(10) && Missed(s, 1) == 1
  {
    var front, s0 := SomeFail(9);
    var turn, s1;
    turn, s1, r := NextFails(s0, 9, 50);
    s := Next(s1, Crash(true));
    LeadsFar(Step, START, front, s0, turn, s1);
    LeadsOn(Step, START, front + turn, s1, Crash(true), s);
    actions := front + turn + [Crash(true)];
    assert OPENING + Failures(10) == OPENING + Failures(9) + [Failed(50)];
  }

  /** Ten failures in 45 seconds from a cleared counter, with a crash between the last
      one's two statements, quarantine nobody. The failure after them does if it comes
      while the window is open, as the eleventh, and otherwise starts a new count. */
  lemma {:induction false} TenthMissed(later: int) returns (states: seq<State>, actions: seq<Action>)
    requires later >= 50
    ensures IsRun(states, actions)
    ensures var n := |actions|;
            && TraceOf(states, actions, 1, n) == OPENING + Failures(10) + [Failed(later)]
            && MissedLimits(states, actions, 1, n) == 1
            && 1 in states[n].db.subs && states[n].work.todo == []
            && (states[n].db.subs[1].status.Quarantined? <==> later < 5 + QUARANTINE_WINDOW_SECS)
  {
    var front, s0, r := TenthIsLost();
    var turn, s1 := Fails(s0, later, r);
    LeadsFar(Step, START, front, s0, turn, s1);
    var last, s2 := GivenUp(s1, later, r, s1.db.subs[1].window, Marks(s1, 1));
    LeadsFar(Step, START, front + turn, s1, last, s2);
    actions := front + turn + last;
    states := PathIsARun(actions, s2);
    SubscriberHistoryIsTheRun(states, actions, 1, |actions|);
  }

  // ---- The success that was not heard ----

  /** After nine failures an event reaches the webhook at 50 and is recorded as sent, but
      a crash falls before the counter is cleared. One more failure at 55 quarantines. */
  lemma {:induction false} SuccessUnheard() returns (states: seq<State>, actions: seq<Action>, r: int)
    ensures IsRun(states, actions)
    ensures var n := |actions|;
            && TraceOf(states, actions, 1, n) == OPENING + Failures(9) + [Failed(55)]
            && SuccessfulSends(states, actions, r, n) == 1 && LostSends(states, actions, r, n) == 0
            && r in states[n].db.outbox && states[n].db.outbox[r].sub == 1 && states[n].db.outbox[r].sentAt == Some(50)
            && MissedLimits(states, actions, 1, n) == 0
            && 1 in states[n].db.subs && states[n].db.subs[1].status.Quarantined?
            && states[n].db.subs[1].quarantinedAt == Some(55)
  {
    var front, s0;
    front, s0, r := SentUnheard();
    var rest, s1 := TenthComes(s0, r);
    LeadsFar(Step, START, front, s0, rest, s1);
    actions := front + rest;
    states := PathIsARun(actions, s1);
    SubscriberHistoryIsTheRun(states, actions, 1, |actions|);
    HistoryIsTheRun(states, actions, r, |actions|);
  }

  lemma {:induction false} SentUnheard() returns (actions: seq<Action>, s: State, r: int)
    ensures Leads(Step, START, actions, s)
    ensures Lone(s) && AllDone(s.db) && s.clock == 50 && s.restarted && s.db.subs[1].window == CountedTo(9)
    ensures r in s.db.outbox && s.db.outbox[r].sub == 1 && s.db.outbox[r].sentAt == Some(50)
    ensures Marks(s, 1) == OPENING + Failures(9) && Missed(s, 1) == 0 && Successes(s, r) == 1 && Lost(s, r) == 0
  {
    var front, s0 := SomeFail(9);
    r := s0.db.nextRow;
    NewRowUntried(front, s0, r);
    var a := Outside(TFanOut(News1(), [1], 50));
    var s1 := NewsArrives(s0, 50);
    LeadsOn(Step, START, front, s0, a, s1);
    var sent;
    sent, s := DeliveredThenCrash(s1, 50, r);
    LeadsFar(Step, START, front + [a], s1, sent, s);
    actions := front + [a] + sent;
  }

  lemma {:induction false} NewRowUntried(actions: seq<Action>, s: State, r: int)
    requires Leads(Step, START, actions, s) && r >= s.db.nextRow
    ensures Successes(s, r) == 0 && Lost(s, r) == 0
  {
    var states := PathIsARun(actions, s);
    RunsAreSound(states, actions, |actions|);
    assert CountsOk(s, r);
  }

  lemma {:induction false} TenthComes(s: State, sent: int) returns (actions: seq<Action>, t: State)
    requires Lone(s) && AllDone(s.db) && s.clock == 50 && s.restarted && s.db.subs[1].window == CountedTo(9)
    requires sent in s.db.outbox
    ensures Leads(Step, s, actions, t)
    ensures 1 in t.db.subs && t.db.subs[1].status.Quarantined? && t.db.subs[1].quarantinedAt == Some(55)
    ensures Marks(t, 1) == Marks(s, 1) + [Failed(55)] && t.hist.missed == s.hist.missed
    ensures t.hist.successes == s.hist.successes && t.hist.lost == s.hist.lost
    ensures sent in t.db.outbox && t.db.outbox[sent] == s.db.outbox[sent]
  {
    var a := Outside(TFanOut(News1(), [1], 55));
    var s1 := NewsArrives(s, 55);
    var turn, s2 := Fails(s1, 55, s.db.nextRow);
    var last;
    last, t := GivenUp(s2, 55, s.db.nextRow, s2.db.subs[1].window, Marks(s2, 1));
    LeadsNowhere(Step, s);
    LeadsOn(Step, s, [], s, a, s1);
    LeadsFar(Step, s, [] + [a], s1, turn, s2);
    LeadsFar(Step, s, [] + [a] + turn, s2, last, t);
    actions := [] + [a] + turn + last;
  }
}
