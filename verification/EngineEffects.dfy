// What one probe result, a change of the config and a restart do, said on the machines,
// the incident tables and the notices before and after, and what the operators are told
// in every run.

module EngineEffects {
  import opened Basics
  import opened CheckMachines
  import opened AlertEngine

  // ---- One probe result ----

  /** The machine a result meets: a new one for a check without, or where the incident it
      holds is closed or gone. */
  function Met(w: World, check: string): Machine {
    if check !in w.machines then Machine(Up, 0, 0, None, None)
    else
      var m := w.machines[check];
      match m.incident
      case Some(i) =>
        if i in w.incidents && w.incidents[i].resolvedAt == None then m else Machine(Up, 0, 0, None, None)
      case None => m
  }

  /** An open incident of the component that no other open one of it is newer than. */
  ghost predicate NewestOpen(w: World, component: string, i: int) {
    && i in w.incidents && w.incidents[i].component == component && w.incidents[i].resolvedAt == None
    && forall j :: j in w.incidents && w.incidents[j].component == component && w.incidents[j].resolvedAt == None ==>
         w.incidents[j].createdAt <= w.incidents[i].createdAt
  }

  ghost predicate NoneOpen(w: World, component: string) {
    forall j :: j in w.incidents && w.incidents[j].component == component ==> w.incidents[j].resolvedAt.Some?
  }

  /** Nothing changes but the machine of the check and the notices. */
  ghost predicate TablesStay(a: World, b: World) {
    b.incidents == a.incidents && b.nextId == a.nextId && b.timeline == a.timeline
  }

  /** The check goes down on an open incident of its component, or opens one. */
  ghost predicate GoesDown(a: World, b: World, p: Probe, i: int) {
    && p.check.id in b.machines
    && b.machines[p.check.id] == Machine(Down, Met(a, p.check.id).failures + 1, 0, Some(p.now), Some(i))
    && (if NoneOpen(a, p.component)
        then
          && i == a.nextId && b.nextId == i + 1
          && b.incidents == a.incidents[i := Incident(p.component, true, p.now, None)]
          && b.timeline == a.timeline + [Entry(i, false, true)]
        else NewestOpen(a, p.component, i) && TablesStay(a, b))
  }

  /** The check comes up and the incident it held is resolved. */
  ghost predicate ComesUp(a: World, b: World, p: Probe) {
    && p.check.id in b.machines && b.machines[p.check.id] == Machine(Up, 0, 0, None, None)
    && match Met(a, p.check.id).incident
       case None => TablesStay(a, b)
       case Some(i) =>
         && i in a.incidents && b.nextId == a.nextId
         && b.incidents == a.incidents[i := a.incidents[i].(resolvedAt := Some(p.now))]
         && b.timeline == a.timeline + [Entry(i, true, true)]
  }

  /** A check that is down has not been reminded of for as long as it asks. */
  predicate ReminderDue(m: Machine, check: CheckConfig, now: int) {
    m.lastReminder.None? || now - m.lastReminder.value >= check.reminderInterval
  }

  ghost predicate Handled(a: World, b: World, p: Probe) {
    var m := Met(a, p.check.id);
    && b.machines.Keys == a.machines.Keys + {p.check.id}
    && (forall c :: c in a.machines && c != p.check.id ==> b.machines[c] == a.machines[c])
    && if p.ok then
         if m.state == Down && m.successes + 1 >= p.check.successesToResolve then ComesUp(a, b, p)
         else b.machines[p.check.id] == m.(failures := 0, successes := m.successes + 1) && TablesStay(a, b)
       else if m.state == Up && m.failures + 1 >= p.check.failuresToOpen then exists i :: GoesDown(a, b, p, i)
       else
         && TablesStay(a, b)
         && b.machines[p.check.id] ==
              m.(failures := m.failures + 1, successes := 0,
                 lastReminder :=
                   if m.state == Down && ReminderDue(m, p.check, p.now) then Some(p.now) else m.lastReminder)
  }

  /** The notices a result leads to: none under maintenance; otherwise one when the check
      goes down, of the incident it then holds, one when it recovers from an incident, and
      one when it is still down on one and a reminder is due. */
  function NoticesOf(a: World, b: World, p: Probe): seq<Notice>
    requires p.check.id in b.machines
  {
    var m, n := Met(a, p.check.id), b.machines[p.check.id];
    if p.muted then []
    else if m.state == Up && n.state == Down && n.incident.Some? then [DownNotice(n.incident.value)]
    else if m.state == Down && n.state == Up && m.incident.Some? then [UpNotice(m.incident.value)]
    else if m.state == Down && n.state == Down && !p.ok && m.incident.Some? && ReminderDue(m, p.check, p.now)
      then [Reminder(m.incident.value)]
    else []
  }

  lemma {:induction false} MetIsCurrent(w: World, check: string)
    ensures Met(w, check) == Current(w, check)
  {
  }

  lemma {:induction false} PickIs(w: World, component: string, pick: Option<int>)
    requires IsNewest(w.incidents, component, pick)
    ensures pick.None? <==> NoneOpen(w, component)
    ensures pick.Some? ==> NewestOpen(w, component, pick.value)
  {
    if pick.Some? {
      assert OpenOn(w.incidents, pick.value, component);
    } else {
      forall j | j in w.incidents && w.incidents[j].component == component
        ensures w.incidents[j].resolvedAt.Some?
      {
        assert !OpenOn(w.incidents, j, component);
      }
    }
    forall j | j in w.incidents && w.incidents[j].component == component && w.incidents[j].resolvedAt == None
      ensures OpenOn(w.incidents, j, component)
    {
    }
  }

  lemma {:induction false} OpeningDoes(w: World, p: Probe, pick: Option<int>)
    requires IsNewest(w.incidents, p.component, pick)
    requires Step(Met(w, p.check.id), p.check, p.ok, p.now).1.Open?
    ensures exists i :: GoesDown(w, Handle(w, p, pick), p, i)
    ensures var n := Handle(w, p, pick).machines[p.check.id]; n.state == Down && n.incident.Some?
  {
    MetIsCurrent(w, p.check.id);
    PickIs(w, p.component, pick);
    hide NewestOpen, NoneOpen, IsNewest, Current, Met;
    var i := if pick.Some? then pick.value else w.nextId;
    assert GoesDown(w, Handle(w, p, pick), p, i);
  }

  /** `Handle` does just this. */
  lemma {:induction false} HandleDoes(w: World, p: Probe, pick: Option<int>)
    requires IsNewest(w.incidents, p.component, pick)
    ensures p.check.id in Handle(w, p, pick).machines && Handled(w, Handle(w, p, pick), p)
    ensures Handle(w, p, pick).notices == w.notices + NoticesOf(w, Handle(w, p, pick), p)
  {
    var (m, t) := Step(Current(w, p.check.id), p.check, p.ok, p.now);
    MetIsCurrent(w, p.check.id);
    if t.Open? {
      OpeningDoes(w, p, pick);
    }
    hide GoesDown, NewestOpen, NoneOpen, IsNewest, Current;
  }

  // ---- Operators ----

  /** An operator's new incident, and one closed by an operator. Nobody is notified. */
  lemma {:induction false} OperatorsDo(w: World, component: string, i: int, now: int)
    requires i in w.incidents
    ensures Next(w, OperatorOpens(component, now))
         == World(w.machines, w.incidents[w.nextId := Incident(component, false, now, None)], w.nextId + 1,
                  w.timeline + [Entry(w.nextId, false, false)], w.notices)
    ensures Next(w, OperatorCloses(i, now))
         == World(w.machines, w.incidents[i := w.incidents[i].(resolvedAt := Some(now))], w.nextId,
                  w.timeline + [Entry(i, true, false)], w.notices)
  {
  }

  // ---- What the operators are told, in every run ----

  /** The notices of the first `n` actions: those of their probe results, in order. */
  function NoticesUpTo(worlds: seq<World>, actions: seq<Action>, n: nat): seq<Notice>
    requires |worlds| == |actions| + 1 && n <= |actions|
  {
    if n == 0 then []
    else
      NoticesUpTo(worlds, actions, n - 1)
      + if actions[n - 1].Feed? && actions[n - 1].probe.check.id in worlds[n].machines
        then NoticesOf(worlds[n - 1], worlds[n], actions[n - 1].probe) else []
  }

  lemma {:induction false} NoticesAreTheRun(worlds: seq<World>, actions: seq<Action>, n: nat)
    requires IsRun(worlds, actions) && n <= |actions|
    ensures worlds[n].notices == NoticesUpTo(worlds, actions, n)
  {
    if n > 0 {
      NoticesAreTheRun(worlds, actions, n - 1);
      assert worlds[n - 1 + 1] == Next(worlds[n - 1], actions[n - 1]);
      if actions[n - 1].Feed? {
        HandleDoes(worlds[n - 1], actions[n - 1].probe, actions[n - 1].pick);
        hide Handle, NoticesOf, IsNewest;
      }
    }
  }

  /** In every run, whenever a result that is not muted takes a check down, the operators
      are told at once of the incident it then holds, and they are told nothing by a muted
      one. */
  lemma {:induction false} OpeningsAreAnnounced(worlds: seq<World>, actions: seq<Action>, k: nat)
    requires IsRun(worlds, actions) && k < |actions| && actions[k].Feed?
    ensures var p := actions[k].probe;
            && p.check.id in worlds[k + 1].machines
            && var m, n := Met(worlds[k], p.check.id), worlds[k + 1].machines[p.check.id];
               && (p.muted ==> worlds[k + 1].notices == worlds[k].notices)
               && (!p.muted && m.state == Up && n.state == Down ==>
                     n.incident.Some? && worlds[k + 1].notices == worlds[k].notices + [DownNotice(n.incident.value)])
  {
    var p := actions[k].probe;
    assert worlds[k + 1] == Next(worlds[k], actions[k]);
    HandleDoes(worlds[k], p, actions[k].pick);
    hide Handle, IsNewest;
  }

  // ---- A change of the config ----

  /** The component a check's incidents are filed under: that of the first component that
      mirrors the check, or else the check's own name. */
  ghost predicate FiledAs(cfg: Config, check: string, component: string) {
    || (exists i :: 0 <= i < |cfg.components| && cfg.components[i].check == Some(check)
                    && cfg.components[i].id == component
                    && forall j :: 0 <= j < i ==> cfg.components[j].check != Some(check))
    || (component == check && forall i :: 0 <= i < |cfg.components| ==> cfg.components[i].check != Some(check))
  }

  lemma {:induction false} FirstMirror(components: seq<Component>, check: string) returns (i: int)
    ensures -1 <= i < |components|
    ensures i >= 0 ==> components[i].check == Some(check) && ComponentFor(components, check) == components[i].id
    ensures forall j :: 0 <= j < (if i >= 0 then i else |components|) ==> components[j].check != Some(check)
    ensures i < 0 ==> ComponentFor(components, check) == check
  {
    if components == [] {
      i := -1;
    } else if components[0].check == Some(check) {
      i := 0;
    } else {
      i := FirstMirror(components[1..], check);
      if i >= 0 {
        i := i + 1;
      }
    }
  }

  lemma {:induction false} IncidentComponentIs(cfg: Config, check: string, component: string)
    ensures IncidentComponent(cfg, check) == component <==> FiledAs(cfg, check, component)
  {
    var i := FirstMirror(cfg.components, check);
  }

  /** Some check files its incidents there, or the component names one, if only one that
      is not there. */
  ghost predicate Watched(cfg: Config, component: string) {
    || (exists c :: c in cfg.checks && FiledAs(cfg, c.id, component))
    || (exists c :: c in cfg.components && c.id == component && c.check.Some? && c.check.value != "")
  }

  lemma {:induction false} MonitoredIs(cfg: Config, component: string)
    ensures component in Monitored(cfg) <==> Watched(cfg, component)
  {
    forall c | c in cfg.checks
      ensures IncidentComponent(cfg, c.id) == component <==> FiledAs(cfg, c.id, component)
    {
      IncidentComponentIs(cfg, c.id, component);
    }
    hide IncidentComponent, FiledAs;
  }

  /** An open automatic incident of a component that nothing watches. */
  ghost predicate Abandoned(w: World, cfg: Config, i: int) {
    && i in w.incidents && w.incidents[i].resolvedAt == None && w.incidents[i].auto
    && !Watched(cfg, w.incidents[i].component)
  }

  ghost predicate InConfig(cfg: Config, check: string) {
    exists c :: c in cfg.checks && c.id == check
  }

  /** Exactly the abandoned incidents are closed, each once and with an entry, and nobody
      is told. */
  ghost predicate Closed(a: World, b: World, cfg: Config, closed: seq<int>, now: int) {
    && (forall i :: i in closed <==> Abandoned(a, cfg, i))
    && (forall j, k :: 0 <= j < k < |closed| ==> closed[j] != closed[k])
    && b.incidents.Keys == a.incidents.Keys && b.nextId == a.nextId && b.notices == a.notices
    && (forall i :: i in a.incidents ==>
          b.incidents[i] == if i in closed then a.incidents[i].(resolvedAt := Some(now)) else a.incidents[i])
    && b.timeline == a.timeline + seq(|closed|, k requires 0 <= k < |closed| => Entry(closed[k], true, true))
  }

  /** A machine stays if its check does and its incident was not closed. */
  ghost predicate Forgot(a: World, b: World, cfg: Config, closed: seq<int>, now: int) {
    && Closed(a, b, cfg, closed, now)
    && (forall c :: c in b.machines <==>
          && c in a.machines && InConfig(cfg, c)
          && (forall i :: a.machines[c].incident == Some(i) ==> i !in closed))
    && (forall c :: c in b.machines ==> b.machines[c] == a.machines[c])
  }

  /** After a start each check with an open incident on its component is down on the newest
      such, with its counters at nothing, and there is no other machine. */
  ghost predicate Started(a: World, b: World, cfg: Config, closed: seq<int>, now: int) {
    && Closed(a, b, cfg, closed, now)
    && (forall c, component :: InConfig(cfg, c) && FiledAs(cfg, c, component) ==>
          (c in b.machines <==> !NoneOpen(b, component)))
    && (forall c :: c in b.machines ==>
          && InConfig(cfg, c) && b.machines[c].incident.Some?
          && b.machines[c] == Machine(Down, 0, 0, None, b.machines[c].incident)
          && forall component :: FiledAs(cfg, c, component) ==> NewestOpen(b, component, b.machines[c].incident.value))
  }

  lemma {:induction false} CloseAllDoes(w: World, order: seq<int>, now: int)
    requires forall i :: i in order ==> i in w.incidents
    ensures var b := CloseAll(w, order, now);
            && b.incidents.Keys == w.incidents.Keys
            && (forall i :: i in w.incidents ==>
                  b.incidents[i] == if i in order then w.incidents[i].(resolvedAt := Some(now)) else w.incidents[i])
            && b.timeline == w.timeline + seq(|order|, k requires 0 <= k < |order| => Entry(order[k], true, true))
  {
    if order != [] {
      var front, last := order[..|order| - 1], order[|order| - 1];
      CloseAllDoes(w, front, now);
      assert order == front + [last];
      assert forall i :: i in order <==> i in front || i == last;
    }
  }

  lemma {:induction false} ClosedBy(w: World, cfg: Config, order: seq<int>, now: int)
    requires ListsOrphans(w, cfg, order)
    ensures Closed(w, CloseAll(w, order, now), cfg, order, now)
  {
    forall i
      ensures Orphaned(w, cfg, i) <==> Abandoned(w, cfg, i)
    {
      if i in w.incidents {
        MonitoredIs(cfg, w.incidents[i].component);
      }
    }
    hide Monitored, Watched;
    CloseAllDoes(w, order, now);
  }

  lemma {:induction false} ForgetDoes(w: World, cfg: Config, order: seq<int>, now: int)
    requires ListsOrphans(w, cfg, order)
    ensures Forgot(w, ForgetUnmonitored(w, cfg, order, now), cfg, order, now)
  {
    ClosedBy(w, cfg, order, now);
    hide ListsOrphans, Abandoned, CloseAll;
  }

  lemma {:induction false} RestartDoes(w: World, cfg: Config, order: seq<int>, now: int, machines: map<string, Machine>)
    requires Enabled(w, Restart(cfg, order, now, machines))
    ensures Started(w, Next(w, Restart(cfg, order, now, machines)), cfg, order, now)
  {
    var b := Next(w, Restart(cfg, order, now, machines));
    assert ListsOrphans(w, cfg, order) by {
      assert forall i :: Orphaned(w, cfg, i) <==> Orphaned(Stopped(w), cfg, i);
    }
    ClosedBy(w, cfg, order, now);
    CloseAllAlike(w, Stopped(w), order, now);
    assert Closed(w, b, cfg, order, now);
    forall c, component | FiledAs(cfg, c, component)
      ensures IncidentComponent(cfg, c) == component
    {
      IncidentComponentIs(cfg, c, component);
    }
    forall c
      ensures FiledAs(cfg, c, IncidentComponent(cfg, c))
    {
      IncidentComponentIs(cfg, c, IncidentComponent(cfg, c));
    }
    hide FiledAs, IncidentComponent, Closed, Monitored, ListsOrphans;
    forall c | HasCheck(cfg, c)
      ensures c in machines <==> !NoneOpen(b, IncidentComponent(cfg, c))
      ensures c in machines ==> NewestOpen(b, IncidentComponent(cfg, c), machines[c].incident.value)
    {
      PickIs(b, IncidentComponent(cfg, c), if c in machines then machines[c].incident else None);
    }
  }

  lemma {:induction false} CloseAllAlike(a: World, b: World, order: seq<int>, now: int)
    requires a.incidents == b.incidents && a.timeline == b.timeline
    ensures CloseAll(a, order, now).incidents == CloseAll(b, order, now).incidents
    ensures CloseAll(a, order, now).timeline == CloseAll(b, order, now).timeline
  {
    if order != [] {
      CloseAllAlike(a, b, order[..|order| - 1], now);
    }
  }
}
