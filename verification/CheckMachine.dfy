// The per-check alert state machine (src/alert.rs).

module CheckMachines {
  import opened Basics

  datatype Health = Up | Down

  datatype Machine = Machine(
    state: Health, failures: nat, successes: nat, lastReminder: Option<int>, incident: Option<int>)

  const FRESH := Machine(Up, 0, 0, None, None)

  function Resumed(incident: int): Machine {
    FRESH.(state := Down, incident := Some(incident))
  }

  datatype CheckConfig = CheckConfig(id: string, failuresToOpen: nat, successesToResolve: nat, reminderInterval: nat)

  datatype Transition = Nothing | Open | Resolve(incident: int) | Remind(incident: int)

  function OnOk(m: Machine, check: CheckConfig): (Machine, Transition) {
    var m1 := m.(failures := 0, successes := m.successes + 1);
    if m.state.Down? && m1.successes >= check.successesToResolve then
      (m1.(state := Up, successes := 0, lastReminder := None, incident := None),
       if m.incident.Some? then Resolve(m.incident.value) else Nothing)
    else (m1, Nothing)
  }

  function OnFailure(m: Machine, check: CheckConfig, now: int): (Machine, Transition) {
    var m1 := m.(successes := 0, failures := m.failures + 1);
    if m.state.Up? then
      if m1.failures >= check.failuresToOpen then (m1.(state := Down, lastReminder := Some(now)), Open)
      else (m1, Nothing)
    else if m.lastReminder.None? || now - m.lastReminder.value >= check.reminderInterval then
      (m1.(lastReminder := Some(now)), if m.incident.Some? then Remind(m.incident.value) else Nothing)
    else (m1, Nothing)
  }

  function Step(m: Machine, check: CheckConfig, ok: bool, now: int): (Machine, Transition) {
    if ok then OnOk(m, check) else OnFailure(m, check, now)
  }

  /** The machine as the program keeps it, updated in place. */
  class CheckMachine {
    var state: Health
    var failures: nat
    var successes: nat
    var lastReminder: Option<int>
    var incident: Option<int>

    ghost function View(): Machine
      reads this
    {
      Machine(state, failures, successes, lastReminder, incident)
    }

    constructor ()
      ensures View() == FRESH
    {
      state, failures, successes, lastReminder, incident := Up, 0, 0, None, None;
    }

    method OnResult(check: CheckConfig, ok: bool, now: int) returns (t: Transition)
      modifies this
      ensures (View(), t) == Step(old(View()), check, ok, now)
    {
      if ok {
        failures := 0;
        successes := successes + 1;
        if state.Down? && successes >= check.successesToResolve {
          state := Up;
          successes := 0;
          lastReminder := None;
          var taken := incident;
          incident := None;
          if taken.Some? {
            return Resolve(taken.value);
          }
        }
        return Nothing;
      }
      successes := 0;
      failures := failures + 1;
      if state.Up? {
        if failures >= check.failuresToOpen {
          state := Down;
          lastReminder := Some(now);
          return Open;
        }
        return Nothing;
      }
      if lastReminder.None? || now - lastReminder.value >= check.reminderInterval {
        lastReminder := Some(now);
        if incident.Some? {
          return Remind(incident.value);
        }
      }
      return Nothing;
    }
  }

  // ---- Against the history ----

  datatype Outcome = Outcome(ok: bool, at: int)

  function Feed(check: CheckConfig, history: seq<Outcome>): Machine {
    if history == [] then FRESH
    else
      var last := history[|history| - 1];
      Step(Feed(check, history[..|history| - 1]), check, last.ok, last.at).0
  }

  /** The `n` results before position `e` all came out `ok`. */
  predicate RunOf(history: seq<Outcome>, ok: bool, n: nat, e: nat) {
    && n <= e <= |history|
    && forall i :: e - n <= i < e ==> history[i].ok == ok
  }

  /** The definition the counters implement: a run of failures long enough to open that
      no run of successes long enough to resolve comes after. A threshold of zero acts
      like one. */
  ghost predicate IsDown(check: CheckConfig, history: seq<Outcome>) {
    exists e :: RunOf(history, false, Max(1, check.failuresToOpen), e) && Unanswered(check, history, e)
  }

  ghost predicate Unanswered(check: CheckConfig, history: seq<Outcome>, e: nat) {
    forall f :: e < f ==> !RunOf(history, true, Max(1, check.successesToResolve), f)
  }

  /** How many results at the end of the history came out `ok`. */
  function Trailing(history: seq<Outcome>, ok: bool): (n: nat)
    ensures n <= |history|
    ensures RunOf(history, ok, n, |history|)
    ensures n < |history| ==> history[|history| - n - 1].ok != ok
  {
    if history == [] || history[|history| - 1].ok != ok then 0
    else 1 + Trailing(history[..|history| - 1], ok)
  }

  lemma TrailingDecides(history: seq<Outcome>, ok: bool, n: nat)
    requires n >= 1
    ensures RunOf(history, ok, n, |history|) <==> n <= Trailing(history, ok)
  {
    var t := Trailing(history, ok);
    if t < n <= |history| {
      assert history[|history| - t - 1].ok != ok;
    }
  }

  /** What the counters count. */
  lemma {:induction false} CountersCount(check: CheckConfig, history: seq<Outcome>)
    ensures var m := Feed(check, history);
            && m.failures == Trailing(history, false)
            && (m.state.Down? ==> m.successes == Trailing(history, true))
  {
    if history != [] {
      CountersCount(check, history[..|history| - 1]);
    }
  }

  lemma RunsExtend(history: seq<Outcome>, last: Outcome, ok: bool, n: nat, e: nat)
    requires e <= |history|
    ensures RunOf(history, ok, n, e) <==> RunOf(history + [last], ok, n, e)
  {
    if RunOf(history + [last], ok, n, e) {
      forall i | e - n <= i < e
        ensures history[i].ok == ok
      {
        assert (history + [last])[i].ok == ok;
      }
    }
  }

  /** One more result: down before and not resolved by it, or opened by it. */
  lemma DownExtends(check: CheckConfig, history: seq<Outcome>, last: Outcome)
    ensures var all := history + [last];
            IsDown(check, all) <==>
              || (IsDown(check, history) && !RunOf(all, true, Max(1, check.successesToResolve), |all|))
              || RunOf(all, false, Max(1, check.failuresToOpen), |all|)
  {
    var all := history + [last];
    var opens, resolves := Max(1, check.failuresToOpen), Max(1, check.successesToResolve);
    forall e: nat, n: nat, ok | e <= |history|
      ensures RunOf(history, ok, n, e) <==> RunOf(all, ok, n, e)
    {
      RunsExtend(history, last, ok, n, e);
    }
    if IsDown(check, all) {
      var e: nat :| RunOf(all, false, opens, e) && Unanswered(check, all, e);
      if e <= |history| {
        assert RunOf(history, false, opens, e) && Unanswered(check, history, e);
      }
    }
    if RunOf(all, false, opens, |all|) {
      assert Unanswered(check, all, |all|);
    } else if IsDown(check, history) && !RunOf(all, true, resolves, |all|) {
      var e: nat :| RunOf(history, false, opens, e) && Unanswered(check, history, e);
      assert RunOf(all, false, opens, e) && Unanswered(check, all, e);
    }
  }

  /** The counter machine is down exactly when its history says so. */
  lemma {:induction false} DownMatchesHistory(check: CheckConfig, history: seq<Outcome>)
    ensures Feed(check, history).state.Down? <==> IsDown(check, history)
  {
    if history == [] {
      forall e: nat
        ensures !RunOf(history, false, Max(1, check.failuresToOpen), e)
      {
      }
    } else {
      var front, last := history[..|history| - 1], history[|history| - 1];
      assert history == front + [last];
      DownMatchesHistory(check, front);
      DownExtends(check, front, last);
      CountersCount(check, front);
      CountersCount(check, history);
      TrailingDecides(history, false, Max(1, check.failuresToOpen));
      TrailingDecides(history, true, Max(1, check.successesToResolve));
      if last.ok {
        assert Trailing(history, true) == 1 + Trailing(front, true);
      }
    }
  }

  /** `Open` is emitted exactly at each edge from up to down. */
  lemma OpensAtEdges(check: CheckConfig, history: seq<Outcome>, last: Outcome)
    ensures Step(Feed(check, history), check, last.ok, last.at).1.Open? <==>
              !IsDown(check, history) && IsDown(check, history + [last])
  {
    var all := history + [last];
    assert all[..|all| - 1] == history;
    DownMatchesHistory(check, history);
    DownMatchesHistory(check, all);
  }
}
