// The engine as it runs: machines in memory and the incident tables, updated in place
// (src/alert.rs), each operation shown to be the step of `AlertEngine`.

module Engines {
  import opened Basics
  import opened CheckMachines
  import opened AlertEngine
  import opened EngineEffects

  class Engine {
    var machines: map<string, Machine>
    var incidents: map<int, Incident>
    var nextId: int
    var timeline: seq<Entry>
    var notices: seq<Notice>

    ghost function View(): World
      reads this
    {
      World(machines, incidents, nextId, timeline, notices)
    }

    constructor ()
      ensures View() == BLANK
    {
      machines, incidents, nextId, timeline, notices := map[], map[], 1, [], [];
    }

    method ActiveIncidentFor(component: string) returns (pick: Option<int>)
      ensures IsNewest(incidents, component, pick)
    {
      pick := None;
      var todo := incidents.Keys;
      while todo != {}
        invariant todo <= incidents.Keys
        invariant pick.Some? ==> OpenOn(incidents, pick.value, component)
        invariant forall i :: i !in todo && OpenOn(incidents, i, component) ==>
                    pick.Some? && incidents[i].createdAt <= incidents[pick.value].createdAt
        decreases todo
      {
        NonEmpty(todo);
        var i :| i in todo;
        if OpenOn(incidents, i, component)
            && (pick.None? || incidents[pick.value].createdAt <= incidents[i].createdAt) {
          pick := Some(i);
        }
        todo := todo - {i};
      }
    }

    method ResolveIncident(i: int, now: int)
      modifies this`incidents
      ensures incidents == Resolved(old(incidents), i, now)
    {
      if i in incidents {
        incidents := incidents[i := incidents[i].(resolvedAt := Some(now))];
      }
    }

    /** Start a machine over if its incident is closed or gone. */
    method Refresh(check: string)
      modifies this`machines
      ensures machines == old(machines)[check := Current(old(View()), check)]
    {
      if check in machines && machines[check].incident.Some? {
        var id := machines[check].incident.value;
        if id !in incidents || incidents[id].resolvedAt.Some? {
          machines := machines[check := FRESH];
        }
      }
      if check !in machines {
        machines := machines[check := FRESH];
      }
    }

    method OpenIncident(p: Probe, found: Option<int>)
      requires p.check.id in machines
      modifies this
      ensures View() == Opened(old(View()), p, found)
    {
      var id;
      match found {
        case Some(existing) => id := existing;
        case None =>
          id := nextId;
          incidents := incidents[id := Incident(p.component, true, p.now, None)];
          nextId := nextId + 1;
          timeline := timeline + [Entry(id, false, true)];
      }
      machines := machines[p.check.id := machines[p.check.id].(incident := Some(id))];
      if !p.muted {
        notices := notices + [DownNotice(id)];
      }
    }

    /** Feed one probe outcome. */
    method Handle(p: Probe) returns (ghost pick: Option<int>)
      modifies this
      ensures IsNewest(old(incidents), p.component, pick)
      ensures View() == AlertEngine.Handle(old(View()), p, pick)
      ensures Handled(old(View()), View(), p)
      ensures notices == old(notices) + NoticesOf(old(View()), View(), p)
    {
      hide Step, IsNewest, Opened, Handled, NoticesOf;
      pick := ActiveIncidentFor(p.component);
      Refresh(p.check.id);
      var (m, t) := Step(machines[p.check.id], p.check, p.ok, p.now);
      machines := machines[p.check.id := m];
      assert View() == old(View()).(machines := old(machines)[p.check.id := m]);
      match t {
        case Nothing =>
        case Open =>
          var found := ActiveIncidentFor(p.component);
          pick := found;
          OpenIncident(p, found);
        case Resolve(id) =>
          ResolveIncident(id, p.now);
          timeline := timeline + [Entry(id, true, true)];
          if !p.muted {
            notices := notices + [UpNotice(id)];
          }
        case Remind(id) =>
          if !p.muted {
            notices := notices + [Reminder(id)];
          }
      }
      HandleDoes(old(View()), p, pick);
    }

    /** Close automatic incidents no check in `cfg` reports to, and drop the machines
        that are gone or held one of them. Returns what it closed. */
    method ForgetUnmonitored(cfg: Config, now: int) returns (closed: seq<int>)
      modifies this
      ensures ListsOrphans(old(View()), cfg, closed)
      ensures View() == AlertEngine.ForgetUnmonitored(old(View()), cfg, closed, now)
      ensures Forgot(old(View()), View(), cfg, closed, now)
    {
      hide Forgot;
      var monitored := Monitored(cfg);
      var active := set i | i in incidents && incidents[i].resolvedAt.None?;
      var todo := active;
      closed := [];
      while todo != {}
        invariant todo <= active
        invariant forall i :: i in closed ==> Orphaned(old(View()), cfg, i) && i !in todo
        invariant forall i :: Orphaned(old(View()), cfg, i) ==> i in todo || i in closed
        invariant forall j, k :: 0 <= j < k < |closed| ==> closed[j] != closed[k]
        invariant View() == CloseAll(old(View()), closed, now)
        decreases todo
      {
        NonEmpty(todo);
        var i :| i in todo;
        CloseAllTouches(old(View()), closed, now, i);
        if incidents[i].auto && incidents[i].component !in monitored {
          ResolveIncident(i, now);
          timeline := timeline + [Entry(i, true, true)];
          assert (closed + [i])[..|closed|] == closed;
          closed := closed + [i];
        }
        todo := todo - {i};
      }
      machines := map c | c in machines && HasCheck(cfg, c)
                          && (machines[c].incident.None? || machines[c].incident.value !in closed)
                        :: machines[c];
      ForgetDoes(old(View()), cfg, closed, now);
    }

    /** A new process: no machines, then one for each check with an open incident. */
    method Bootstrap(cfg: Config, now: int) returns (closed: seq<int>)
      modifies this
      ensures var a := Restart(cfg, closed, now, machines); Enabled(old(View()), a) && View() == Next(old(View()), a)
      ensures Started(old(View()), View(), cfg, closed, now)
    {
      hide Started, Forgot;
      machines := map[];
      ghost var stopped := View();
      assert forall i :: Orphaned(old(View()), cfg, i) <==> Orphaned(stopped, cfg, i);
      closed := ForgetUnmonitored(cfg, now);
      assert machines.Keys == {};
      ghost var w := View();
      for k := 0 to |cfg.checks|
        invariant View() == w.(machines := machines)
        invariant forall c :: c in machines ==>
                    && HasCheck(cfg, c) && machines[c].incident.Some?
                    && machines[c] == Resumed(machines[c].incident.value)
                    && IsNewest(incidents, IncidentComponent(cfg, c), machines[c].incident)
        invariant forall j :: 0 <= j < k && cfg.checks[j].id !in machines ==>
                    IsNewest(incidents, IncidentComponent(cfg, cfg.checks[j].id), None)
      {
        var check := cfg.checks[k];
        assert check in cfg.checks;
        var pick := ActiveIncidentFor(IncidentComponent(cfg, check.id));
        if pick.Some? {
          machines := machines[check.id := Resumed(pick.value)];
        }
      }
      RestartDoes(old(View()), cfg, closed, now, machines);
    }
  }

  /** Closing some incidents leaves the others and their keys alone. */
  lemma {:induction false} CloseAllTouches(w: World, order: seq<int>, now: int, i: int)
    requires i !in order && i in w.incidents
    ensures var w' := CloseAll(w, order, now); i in w'.incidents && w'.incidents[i] == w.incidents[i]
  {
    if order != [] {
      CloseAllTouches(w, order[..|order| - 1], now, i);
    }
  }
}
