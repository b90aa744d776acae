// The engine that turns transitions into incidents and notifications, with the incident
// tables it writes (src/alert.rs, src/db.rs).

module AlertEngine {
  import opened Basics
  import opened CheckMachines

  // ---- Config ----

  datatype Component = Component(id: string, check: Option<string>)

  datatype Config = Config(checks: seq<CheckConfig>, components: seq<Component>)

  /** The component a check's incidents are filed under: the first that mirrors it, else
      one of its own name. */
  function ComponentFor(components: seq<Component>, check: string): string {
    if components == [] then check
    else if components[0].check == Some(check) then components[0].id
    else ComponentFor(components[1..], check)
  }

  function IncidentComponent(cfg: Config, check: string): string {
    ComponentFor(cfg.components, check)
  }

  function Monitored(cfg: Config): set<string> {
    (set c | c in cfg.checks :: IncidentComponent(cfg, c.id))
    + (set c | c in cfg.components && c.check.Some? && c.check.value != "" :: c.id)
  }

  predicate HasCheck(cfg: Config, id: string) {
    exists c :: c in cfg.checks && c.id == id
  }

  // ---- State ----

  datatype Incident = Incident(component: string, auto: bool, createdAt: int, resolvedAt: Option<int>)

  /** A timeline entry, `resolved` or not, automatic or an operator's. */
  datatype Entry = Entry(incident: int, resolved: bool, auto: bool)

  datatype Notice = DownNotice(incident: int) | UpNotice(incident: int) | Reminder(incident: int)

  /** The machines live in memory; the incident tables and their ids outlive a restart.
      `notices` is everything sent to the operators. */
  datatype World = World(
    machines: map<string, Machine>, incidents: map<int, Incident>, nextId: int,
    timeline: seq<Entry>, notices: seq<Notice>)

  const BLANK := World(map[], map[], 1, [], [])

  predicate IsOpen(incidents: map<int, Incident>, i: int) {
    i in incidents && incidents[i].resolvedAt.None?
  }

  predicate OpenOn(incidents: map<int, Incident>, i: int, component: string) {
    IsOpen(incidents, i) && incidents[i].component == component
  }

  /** The newest open incident on a component. Among equally new ones SQL may pick any. */
  ghost predicate IsNewest(incidents: map<int, Incident>, component: string, pick: Option<int>) {
    match pick
    case None => forall i :: !OpenOn(incidents, i, component)
    case Some(p) =>
      && OpenOn(incidents, p, component)
      && forall i :: OpenOn(incidents, i, component) ==> incidents[i].createdAt <= incidents[p].createdAt
  }

  function Resolved(incidents: map<int, Incident>, i: int, now: int): map<int, Incident> {
    if i in incidents then incidents[i := incidents[i].(resolvedAt := Some(now))] else incidents
  }

  // ---- One probe outcome ----

  datatype Probe = Probe(check: CheckConfig, component: string, ok: bool, now: int, muted: bool)

  /** The machine a result is fed to: started over if its incident is closed or gone. */
  function Current(w: World, check: string): Machine {
    var m := At(w.machines, check, FRESH);
    if m.incident.Some? && !IsOpen(w.incidents, m.incident.value) then FRESH else m
  }

  function WithNotice(w: World, n: Notice, muted: bool): World {
    if muted then w else w.(notices := w.notices + [n])
  }

  function Opened(w: World, p: Probe, pick: Option<int>): World
    requires p.check.id in w.machines
  {
    var id := if pick.Some? then pick.value else w.nextId;
    var w1 := if pick.Some? then w
              else w.(incidents := w.incidents[id := Incident(p.component, true, p.now, None)],
                      nextId := id + 1,
                      timeline := w.timeline + [Entry(id, false, true)]);
    WithNotice(w1.(machines := w1.machines[p.check.id := w1.machines[p.check.id].(incident := Some(id))]),
               DownNotice(id), p.muted)
  }

  function Recovered(w: World, p: Probe, i: int): World {
    WithNotice(w.(incidents := Resolved(w.incidents, i, p.now), timeline := w.timeline + [Entry(i, true, true)]),
               UpNotice(i), p.muted)
  }

  /** `pick` is the open incident on the component, looked up if a new one is needed. */
  function Handle(w: World, p: Probe, pick: Option<int>): World {
    var (m, t) := Step(Current(w, p.check.id), p.check, p.ok, p.now);
    var w1 := w.(machines := w.machines[p.check.id := m]);
    match t
    case Nothing => w1
    case Open => Opened(w1, p, pick)
    case Resolve(i) => Recovered(w1, p, i)
    case Remind(i) => WithNotice(w1, Reminder(i), p.muted)
  }

  // ---- Reload and restart ----

  predicate Orphaned(w: World, cfg: Config, i: int) {
    IsOpen(w.incidents, i) && w.incidents[i].auto && w.incidents[i].component !in Monitored(cfg)
  }

  ghost predicate ListsOrphans(w: World, cfg: Config, order: seq<int>) {
    && (forall i :: i in order <==> Orphaned(w, cfg, i))
    && (forall j, k :: 0 <= j < k < |order| ==> order[j] != order[k])
  }

  /** Close the incidents of `order`, each with an automatic entry. */
  function CloseAll(w: World, order: seq<int>, now: int): (r: World)
    ensures r.machines == w.machines && r.notices == w.notices && r.nextId == w.nextId
  {
    if order == [] then w
    else
      var last := order[|order| - 1];
      var w1 := CloseAll(w, order[..|order| - 1], now);
      w1.(incidents := Resolved(w1.incidents, last, now), timeline := w1.timeline + [Entry(last, true, true)])
  }

  /** Close automatic incidents no check reports to any more, and drop the machines of
      checks that are gone or that held one of those incidents. */
  function ForgetUnmonitored(w: World, cfg: Config, order: seq<int>, now: int): World {
    var w1 := CloseAll(w, order, now);
    w1.(machines := map c | c in w1.machines && HasCheck(cfg, c)
                            && (w1.machines[c].incident.None? || w1.machines[c].incident.value !in order)
                          :: w1.machines[c])
  }

  /** `machines` are what a new process rebuilds: one per check with an open incident. */
  ghost predicate IsBoot(w: World, cfg: Config, machines: map<string, Machine>) {
    && (forall c :: c in machines ==>
          && HasCheck(cfg, c)
          && machines[c].incident.Some? && machines[c] == Resumed(machines[c].incident.value)
          && IsNewest(w.incidents, IncidentComponent(cfg, c), machines[c].incident))
    && (forall c :: HasCheck(cfg, c) && c !in machines ==> IsNewest(w.incidents, IncidentComponent(cfg, c), None))
  }

  // ---- Runs ----

  datatype Action =
    | Feed(probe: Probe, pick: Option<int>)
    | OperatorOpens(component: string, now: int)
    | OperatorCloses(incident: int, now: int)
    | Reload(cfg: Config, order: seq<int>, now: int)
    | Restart(cfg: Config, order: seq<int>, now: int, machines: map<string, Machine>)

  function Stopped(w: World): World {
    w.(machines := map[])
  }

  ghost predicate Enabled(w: World, a: Action) {
    match a
    case Feed(p, pick) => IsNewest(w.incidents, p.component, pick)
    case OperatorOpens(_, _) => true
    case OperatorCloses(i, _) => i in w.incidents
    case Reload(cfg, order, _) => ListsOrphans(w, cfg, order)
    case Restart(cfg, order, now, machines) =>
      && ListsOrphans(w, cfg, order)
      && IsBoot(ForgetUnmonitored(Stopped(w), cfg, order, now), cfg, machines)
  }

  function Next(w: World, a: Action): World {
    match a
    case Feed(p, pick) => Handle(w, p, pick)
    case OperatorOpens(component, now) =>
      w.(incidents := w.incidents[w.nextId := Incident(component, false, now, None)],
         nextId := w.nextId + 1, timeline := w.timeline + [Entry(w.nextId, false, false)])
    case OperatorCloses(i, now) =>
      w.(incidents := Resolved(w.incidents, i, now), timeline := w.timeline + [Entry(i, true, false)])
    case Reload(cfg, order, now) => ForgetUnmonitored(w, cfg, order, now)
    case Restart(cfg, order, now, machines) => ForgetUnmonitored(Stopped(w), cfg, order, now).(machines := machines)
  }

  ghost predicate IsRun(worlds: seq<World>, actions: seq<Action>) {
    && |worlds| == |actions| + 1
    && worlds[0] == BLANK
    && forall i :: 0 <= i < |actions| ==> Enabled(worlds[i], actions[i]) && worlds[i + 1] == Next(worlds[i], actions[i])
  }

  // ---- One automatic incident, closed automatically once ----

  function AutoResolutions(w: World, i: int): nat {
    multiset(w.timeline)[Entry(i, true, true)]
  }

  function Recoveries(w: World, i: int): nat {
    multiset(w.notices)[UpNotice(i)]
  }

  ghost predicate IncidentOk(w: World, i: int) {
    && (i in w.incidents ==> i < w.nextId)
    && (i >= w.nextId ==> AutoResolutions(w, i) == 0)
    && AutoResolutions(w, i) <= 1
    && (AutoResolutions(w, i) == 1 ==> !IsOpen(w.incidents, i))
    && Recoveries(w, i) <= AutoResolutions(w, i)
  }

  predicate AutoOn(incidents: map<int, Incident>, i: int, component: string) {
    OpenOn(incidents, i, component) && incidents[i].auto
  }

  ghost predicate OneAuto(incidents: map<int, Incident>) {
    forall i, j, c :: AutoOn(incidents, i, c) && AutoOn(incidents, j, c) ==> i == j
  }

  ghost predicate EngineOk(w: World) {
    && (forall i :: IncidentOk(w, i))
    && OneAuto(w.incidents)
  }

  lemma {:induction false} OpenedKeeps(w: World, p: Probe, pick: Option<int>, i: int)
    requires p.check.id in w.machines && IncidentOk(w, i) && IncidentOk(w, w.nextId)
    requires IsNewest(w.incidents, p.component, pick)
    ensures IncidentOk(Opened(w, p, pick), i)
  {
  }

  lemma {:induction false} RecoveredKeeps(w: World, p: Probe, j: int, i: int)
    requires IncidentOk(w, i) && IncidentOk(w, j) && IsOpen(w.incidents, j)
    ensures IncidentOk(Recovered(w, p, j), i)
  {
  }

  lemma {:induction false} ReminderKeeps(w: World, n: Notice, muted: bool, i: int)
    requires IncidentOk(w, i) && !n.UpNotice?
    ensures IncidentOk(WithNotice(w, n, muted), i)
  {
  }

  lemma {:induction false} StepResolvesItsOwn(m: Machine, check: CheckConfig, ok: bool, now: int)
    ensures var t := Step(m, check, ok, now).1;
            && (t.Resolve? ==> m.incident == Some(t.incident))
            && (t.Remind? ==> m.incident == Some(t.incident))
  {
  }

  lemma {:induction false} HandleKeepsIncident(w: World, p: Probe, pick: Option<int>, i: int)
    requires EngineOk(w) && IsNewest(w.incidents, p.component, pick)
    ensures IncidentOk(Handle(w, p, pick), i)
  {
    var (m, t) := Step(Current(w, p.check.id), p.check, p.ok, p.now);
    var w1 := w.(machines := w.machines[p.check.id := m]);
    StepResolvesItsOwn(Current(w, p.check.id), p.check, p.ok, p.now);
    assert IncidentOk(w, i) && IncidentOk(w, w.nextId);
    assert IncidentOk(w1, i) && IncidentOk(w1, w.nextId);
    hide Step;
    match t
    case Nothing =>
    case Open => OpenedKeeps(w1, p, pick, i);
    case Resolve(j) =>
      assert IncidentOk(w, j);
      assert IncidentOk(w1, j);
      RecoveredKeeps(w1, p, j, i);
    case Remind(j) => ReminderKeeps(w1, Reminder(j), p.muted, i);
  }

  lemma {:induction false} HandleKeepsOneAuto(w: World, p: Probe, pick: Option<int>)
    requires EngineOk(w) && IsNewest(w.incidents, p.component, pick)
    ensures OneAuto(Handle(w, p, pick).incidents)
  {
    var w' := Handle(w, p, pick);
    assert IncidentOk(w, w.nextId);
    forall i, j, c | AutoOn(w'.incidents, i, c) && AutoOn(w'.incidents, j, c)
      ensures i == j
    {
      assert i in w.incidents ==> AutoOn(w.incidents, i, c);
      assert j in w.incidents ==> AutoOn(w.incidents, j, c);
    }
  }

  lemma {:induction false} HandleKeeps(w: World, p: Probe, pick: Option<int>)
    requires EngineOk(w) && IsNewest(w.incidents, p.component, pick)
    ensures EngineOk(Handle(w, p, pick))
  {
    HandleKeepsOneAuto(w, p, pick);
    forall i
      ensures IncidentOk(Handle(w, p, pick), i)
    {
      HandleKeepsIncident(w, p, pick, i);
    }
  }

  lemma {:induction false} CloseAllKeeps(w: World, order: seq<int>, now: int)
    requires EngineOk(w)
    requires forall i :: i in order ==> IsOpen(w.incidents, i)
    requires forall j, k :: 0 <= j < k < |order| ==> order[j] != order[k]
    ensures var w' := CloseAll(w, order, now);
            && EngineOk(w')
            && w'.incidents.Keys == w.incidents.Keys
            && w'.nextId == w.nextId && w'.machines == w.machines && w'.notices == w.notices
            && forall i :: i in w.incidents ==>
                 w'.incidents[i] == if i in order then w.incidents[i].(resolvedAt := Some(now)) else w.incidents[i]
  {
    if order != [] {
      var front, last := order[..|order| - 1], order[|order| - 1];
      CloseAllKeeps(w, front, now);
      var w1, w' := CloseAll(w, front, now), CloseAll(w, order, now);
      assert forall i :: i in order <==> i in front || i == last;
      assert last in order && last !in front;
      assert IsOpen(w1.incidents, last);
      forall i
        ensures IncidentOk(w', i)
      {
        assert IncidentOk(w1, i);
      }
      forall i, j, c | AutoOn(w'.incidents, i, c) && AutoOn(w'.incidents, j, c)
        ensures i == j
      {
        assert AutoOn(w1.incidents, i, c) && AutoOn(w1.incidents, j, c);
      }
    }
  }

  lemma {:induction false} ForgetKeeps(w: World, cfg: Config, order: seq<int>, now: int)
    requires EngineOk(w) && ListsOrphans(w, cfg, order)
    ensures EngineOk(ForgetUnmonitored(w, cfg, order, now))
  {
    CloseAllKeeps(w, order, now);
    var w1, w' := CloseAll(w, order, now), ForgetUnmonitored(w, cfg, order, now);
    forall i
      ensures IncidentOk(w', i)
    {
      assert IncidentOk(w1, i);
    }
  }

  lemma {:induction false} OperatorKeeps(w: World, a: Action)
    requires EngineOk(w) && Enabled(w, a) && (a.OperatorOpens? || a.OperatorCloses?)
    ensures EngineOk(Next(w, a))
  {
    var w' := Next(w, a);
    assert IncidentOk(w, w.nextId);
    forall i
      ensures IncidentOk(w', i)
    {
      assert IncidentOk(w, i);
    }
    forall i, j, c | AutoOn(w'.incidents, i, c) && AutoOn(w'.incidents, j, c)
      ensures i == j
    {
      assert AutoOn(w.incidents, i, c) && AutoOn(w.incidents, j, c);
    }
  }

  lemma {:induction false} NextKeeps(w: World, a: Action)
    requires EngineOk(w) && Enabled(w, a)
    ensures EngineOk(Next(w, a))
  {
    match a
    case Feed(p, pick) => HandleKeeps(w, p, pick);
    case Reload(cfg, order, now) => ForgetKeeps(w, cfg, order, now);
    case Restart(cfg, order, now, machines) =>
      assert forall i :: IncidentOk(w, i) ==> IncidentOk(Stopped(w), i);
      ForgetKeeps(Stopped(w), cfg, order, now);
      var w1 := ForgetUnmonitored(Stopped(w), cfg, order, now);
      assert forall i :: IncidentOk(w1, i) ==> IncidentOk(Next(w, a), i);
    case _ => OperatorKeeps(w, a);
  }

  lemma {:induction false} RunsKeep(worlds: seq<World>, actions: seq<Action>, n: nat)
    requires IsRun(worlds, actions) && n <= |actions|
    ensures EngineOk(worlds[n])
  {
    if n > 0 {
      RunsKeep(worlds, actions, n - 1);
      assert worlds[n - 1 + 1] == Next(worlds[n - 1], actions[n - 1]);
      NextKeeps(worlds[n - 1], actions[n - 1]);
    }
  }

  /** In every run: a component has at most one open automatic incident, and an incident
      is resolved automatically and reported recovered at most once, however many checks
      share it and whatever operators, reloads and restarts do. */
  lemma {:induction false} IncidentsResolveOnce(worlds: seq<World>, actions: seq<Action>, n: nat, i: int)
    requires IsRun(worlds, actions) && n <= |actions|
    ensures OneAuto(worlds[n].incidents)
    ensures Recoveries(worlds[n], i) <= AutoResolutions(worlds[n], i) <= 1
    ensures AutoResolutions(worlds[n], i) == 1 ==> !IsOpen(worlds[n].incidents, i)
  {
    RunsKeep(worlds, actions, n);
    assert IncidentOk(worlds[n], i);
  }

  /** A reminder or a recovery only ever goes out for an incident that was open when the
      result came in, and a recovery closes it. */
  lemma {:induction false} OnlyOpenIncidentsAreAnnounced(w: World, p: Probe, pick: Option<int>, n: Notice)
    requires multiset(Handle(w, p, pick).notices)[n] > multiset(w.notices)[n]
    ensures n.Reminder? || n.UpNotice? ==> IsOpen(w.incidents, n.incident)
    ensures n.UpNotice? ==> !IsOpen(Handle(w, p, pick).incidents, n.incident)
  {
  }
}
