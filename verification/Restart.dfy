// A restart is invisible up to counters (src/alert.rs): what a new process rebuilds from
// the incident table is what each check's machine held.

module Restarts {
  import opened Basics
  import opened CheckMachines
  import opened AlertEngine

  /** What the engine would act on for a check: up or down, and on which incident. A
      machine whose incident an operator closed counts as started over. */
  function View(w: World, check: string): (Health, Option<int>) {
    var m := Current(w, check);
    (m.state, m.incident)
  }

  /** No two checks file their incidents under one component. */
  ghost predicate Separate(cfg: Config) {
    forall a, b :: HasCheck(cfg, a) && HasCheck(cfg, b) && IncidentComponent(cfg, a) == IncidentComponent(cfg, b) ==>
        a == b
  }

  predicate FiledUnder(cfg: Config, component: string) {
    exists c :: c in cfg.checks && IncidentComponent(cfg, c.id) == component
  }

  /** No operator has an incident open on a component that a check reports to. */
  ghost predicate ManualsElsewhere(w: World, cfg: Config) {
    forall i :: IsOpen(w.incidents, i) && FiledUnder(cfg, w.incidents[i].component) ==> w.incidents[i].auto
  }

  /** The machine of `c` is up with nothing open on its component, or down on the one
      incident open there. */
  ghost predicate Tracks(w: World, cfg: Config, c: string) {
    var m, component := Current(w, c), IncidentComponent(cfg, c);
    match m.incident
    case None => m.state.Up? && forall i :: !OpenOn(w.incidents, i, component)
    case Some(i) =>
      && m.state.Down? && OpenOn(w.incidents, i, component)
      && forall j :: OpenOn(w.incidents, j, component) ==> j == i
  }

  /** Machines only hold incidents that exist. */
  ghost predicate HoldsKnown(w: World) {
    forall c :: c in w.machines && w.machines[c].incident.Some? ==> w.machines[c].incident.value in w.incidents
  }

  ghost predicate InStep(w: World, cfg: Config) {
    && EngineOk(w)
    && HoldsKnown(w)
    && ManualsElsewhere(w, cfg)
    && (forall i :: !Orphaned(w, cfg, i))
    && (forall c :: HasCheck(cfg, c) ==> Tracks(w, cfg, c))
  }

  /** The actions of a run under one config. Reloading it or restarting with it is among
      them; operators close what they like and open incidents elsewhere. */
  ghost predicate Under(cfg: Config, a: Action) {
    match a
    case Feed(p, _) => p.check in cfg.checks && p.component == IncidentComponent(cfg, p.check.id)
    case OperatorOpens(component, _) => !FiledUnder(cfg, component)
    case OperatorCloses(_, _) => true
    case Reload(c, _, _) => c == cfg
    case Restart(c, _, _, _) => c == cfg
  }

  // ---- Feeding a result ----

  /** What one result does to the incidents: at most it opens one on its component or
      closes the one its machine held. */
  lemma {:induction false} FeedIncidents(w: World, p: Probe, pick: Option<int>)
    requires EngineOk(w) && IsNewest(w.incidents, p.component, pick)
    ensures var m := Current(w, p.check.id);
            var (m', t) := Step(m, p.check, p.ok, p.now);
            var w' := Handle(w, p, pick);
            && (forall c :: c != p.check.id ==> At(w'.machines, c, FRESH) == At(w.machines, c, FRESH))
            && p.check.id in w'.machines
            && (t.Nothing? || t.Remind? ==> w'.incidents == w.incidents && w'.machines[p.check.id] == m')
            && (t.Resolve? ==>
                  && w'.incidents == Resolved(w.incidents, t.incident, p.now) && w'.machines[p.check.id] == m')
            && (t.Open? && pick.None? ==>
                  && w.nextId !in w.incidents
                  && w'.incidents == w.incidents[w.nextId := Incident(p.component, true, p.now, None)]
                  && w'.machines[p.check.id] == m'.(incident := Some(w.nextId)))
  {
    assert IncidentOk(w, w.nextId);
  }

  lemma {:induction false} StepShape(m: Machine, check: CheckConfig, ok: bool, now: int)
    requires m.state.Up? <==> m.incident.None?
    ensures var (m', t) := Step(m, check, ok, now);
            && (t.Open? ==> m.state.Up? && m'.state.Down?)
            && (t.Resolve? ==> m.incident == Some(t.incident) && m'.incident.None? && m'.state.Up?)
            && (t.Nothing? || t.Remind? ==> m'.incident == m.incident && m'.state == m.state)
  {
  }

  lemma {:induction false} FeedTracksOwn(w: World, cfg: Config, p: Probe, pick: Option<int>)
    requires InStep(w, cfg) && Under(cfg, Feed(p, pick)) && IsNewest(w.incidents, p.component, pick)
    ensures Tracks(Handle(w, p, pick), cfg, p.check.id)
  {
    assert HasCheck(cfg, p.check.id) && Tracks(w, cfg, p.check.id);
    FeedIncidents(w, p, pick);
    var m := Current(w, p.check.id);
    StepShape(m, p.check, p.ok, p.now);
    var (m', t) := Step(m, p.check, p.ok, p.now);
    var w' := Handle(w, p, pick);
    hide Step, Handle;
    match t
    case Open =>
      assert pick.None?;
      assert forall j :: OpenOn(w'.incidents, j, p.component) && j != w.nextId ==> OpenOn(w.incidents, j, p.component);
    case Resolve(i) =>
      assert forall j :: OpenOn(w'.incidents, j, p.component) ==> OpenOn(w.incidents, j, p.component);
    case _ =>
      assert m'.incident == m.incident;
  }

  lemma {:induction false} FeedTracksOther(w: World, cfg: Config, p: Probe, pick: Option<int>, c: string)
    requires Separate(cfg) && InStep(w, cfg) && Under(cfg, Feed(p, pick)) && IsNewest(w.incidents, p.component, pick)
    requires HasCheck(cfg, c) && c != p.check.id
    ensures Tracks(Handle(w, p, pick), cfg, c)
  {
    assert HasCheck(cfg, p.check.id) && Tracks(w, cfg, p.check.id) && Tracks(w, cfg, c);
    FeedIncidents(w, p, pick);
    StepShape(Current(w, p.check.id), p.check, p.ok, p.now);
    hide Step, Handle;
    var w' := Handle(w, p, pick);
    assert IncidentComponent(cfg, c) != p.component;
    forall i
      ensures OpenOn(w'.incidents, i, IncidentComponent(cfg, c)) <==> OpenOn(w.incidents, i, IncidentComponent(cfg, c))
    {
    }
  }

  lemma {:induction false} FeedKeepsRest(w: World, cfg: Config, p: Probe, pick: Option<int>)
    requires InStep(w, cfg) && Under(cfg, Feed(p, pick)) && IsNewest(w.incidents, p.component, pick)
    ensures var w' := Handle(w, p, pick);
            ManualsElsewhere(w', cfg) && HoldsKnown(w') && forall i :: !Orphaned(w', cfg, i)
  {
    assert HasCheck(cfg, p.check.id) && Tracks(w, cfg, p.check.id);
    FeedIncidents(w, p, pick);
    StepShape(Current(w, p.check.id), p.check, p.ok, p.now);
    hide Step, Handle;
    var w' := Handle(w, p, pick);
    assert IncidentComponent(cfg, p.check.id) in Monitored(cfg);
    forall i
      ensures !Orphaned(w', cfg, i)
    {
      assert !Orphaned(w, cfg, i);
    }
    forall c | c in w'.machines && w'.machines[c].incident.Some?
      ensures w'.machines[c].incident.value in w'.incidents
    {
      if c != p.check.id {
        assert At(w'.machines, c, FRESH) == At(w.machines, c, FRESH);
        assert c in w.machines;
      }
    }
  }

  lemma {:induction false} FeedKeeps(w: World, cfg: Config, p: Probe, pick: Option<int>)
    requires Separate(cfg) && InStep(w, cfg) && Under(cfg, Feed(p, pick)) && Enabled(w, Feed(p, pick))
    ensures InStep(Next(w, Feed(p, pick)), cfg)
  {
    HandleKeeps(w, p, pick);
    FeedKeepsRest(w, cfg, p, pick);
    forall c | HasCheck(cfg, c)
      ensures Tracks(Handle(w, p, pick), cfg, c)
    {
      if c == p.check.id {
        FeedTracksOwn(w, cfg, p, pick);
      } else {
        FeedTracksOther(w, cfg, p, pick, c);
      }
    }
  }

  // ---- Operators ----

  lemma {:induction false} OperatorKeepsInStep(w: World, cfg: Config, a: Action)
    requires InStep(w, cfg) && Under(cfg, a) && Enabled(w, a) && (a.OperatorOpens? || a.OperatorCloses?)
    ensures InStep(Next(w, a), cfg)
  {
    OperatorKeeps(w, a);
    var w' := Next(w, a);
    assert IncidentOk(w, w.nextId);
    forall i
      ensures !Orphaned(w', cfg, i)
    {
      assert !Orphaned(w, cfg, i);
    }
    forall c | HasCheck(cfg, c)
      ensures Tracks(w', cfg, c)
    {
      assert Tracks(w, cfg, c);
      var component := IncidentComponent(cfg, c);
      assert FiledUnder(cfg, component);
      forall i
        ensures OpenOn(w'.incidents, i, component) <==>
                OpenOn(w.incidents, i, component) && !(a.OperatorCloses? && i == a.incident)
      {
      }
    }
  }

  // ---- Restarting ----

  /** With nothing orphaned, forgetting the unmonitored closes nothing. */
  lemma {:induction false} NothingToForget(w: World, cfg: Config, order: seq<int>, now: int)
    requires forall i :: !Orphaned(w, cfg, i)
    requires ListsOrphans(w, cfg, order)
    ensures order == [] && CloseAll(w, order, now) == w
  {
    if order != [] {
      Inhabited(order);
      assert false;
    }
  }

  lemma {:induction false} Inhabited(s: seq<int>)
    requires s != []
    ensures exists i :: i in s
  {
    var i := s[0];
    assert i in s;
  }

  /** Freshly rebuilt machines are in step with the incident table. */
  lemma {:induction false} BootIsInStep(w: World, cfg: Config, machines: map<string, Machine>)
    requires EngineOk(w) && ManualsElsewhere(w, cfg) && IsBoot(w, cfg, machines)
    requires forall i :: !Orphaned(w, cfg, i)
    ensures InStep(w.(machines := machines), cfg)
  {
    var w' := w.(machines := machines);
    forall i
      ensures IncidentOk(w', i) && !Orphaned(w', cfg, i)
    {
      assert IncidentOk(w, i) && !Orphaned(w, cfg, i);
    }
    forall c | HasCheck(cfg, c)
      ensures Tracks(w', cfg, c)
    {
      var component := IncidentComponent(cfg, c);
      assert FiledUnder(cfg, component);
      if c in machines {
        var i := machines[c].incident.value;
        forall j | OpenOn(w.incidents, j, component)
          ensures j == i
        {
          assert AutoOn(w.incidents, j, component) && AutoOn(w.incidents, i, component);
        }
      }
    }
    forall c | c in machines && machines[c].incident.Some?
      ensures machines[c].incident.value in w.incidents
    {
      assert IsNewest(w.incidents, IncidentComponent(cfg, c), machines[c].incident);
    }
  }

  /** A first start closes what no check reports to and is then in step. */
  lemma {:induction false} FirstStart(w: World, cfg: Config, order: seq<int>, now: int, machines: map<string, Machine>)
    requires EngineOk(w) && ManualsElsewhere(w, cfg) && Enabled(w, Restart(cfg, order, now, machines))
    ensures InStep(Next(w, Restart(cfg, order, now, machines)), cfg)
  {
    var w0 := Stopped(w);
    assert forall i :: IncidentOk(w, i) ==> IncidentOk(w0, i);
    assert forall i :: Orphaned(w, cfg, i) <==> Orphaned(w0, cfg, i);
    ForgetKeeps(w0, cfg, order, now);
    CloseAllKeeps(w0, order, now);
    BootIsInStep(ForgetUnmonitored(w0, cfg, order, now), cfg, machines);
  }

  /** Restarting at any moment of a run under one config changes nothing an operator or a
      subscriber could see: no incident is touched, nothing is sent, and every check's
      machine is up or down on the same incident as before. */
  lemma {:induction false} RestartIsInvisible(
    w: World, cfg: Config, order: seq<int>, now: int, machines: map<string, Machine>)
    requires InStep(w, cfg) && Enabled(w, Restart(cfg, order, now, machines))
    ensures var w' := Next(w, Restart(cfg, order, now, machines));
            && w' == w.(machines := machines)
            && InStep(w', cfg)
            && forall c :: HasCheck(cfg, c) ==> View(w', c) == View(w, c)
  {
    var w0 := Stopped(w);
    assert forall i :: Orphaned(w, cfg, i) <==> Orphaned(w0, cfg, i);
    NothingToForget(w0, cfg, order, now);
    var w' := Next(w, Restart(cfg, order, now, machines));
    assert ForgetUnmonitored(w0, cfg, order, now) == w0;
    assert forall i :: IncidentOk(w, i) ==> IncidentOk(w0, i);
    BootIsInStep(w0, cfg, machines);
    forall c | HasCheck(cfg, c)
      ensures View(w', c) == View(w, c)
    {
      assert Tracks(w, cfg, c) && Tracks(w', cfg, c);
    }
  }

  lemma {:induction false} ReloadKeeps(w: World, cfg: Config, order: seq<int>, now: int)
    requires InStep(w, cfg) && Enabled(w, Reload(cfg, order, now))
    ensures InStep(Next(w, Reload(cfg, order, now)), cfg)
  {
    NothingToForget(w, cfg, order, now);
    var w' := Next(w, Reload(cfg, order, now));
    forall i
      ensures IncidentOk(w', i) && !Orphaned(w', cfg, i)
    {
      assert IncidentOk(w, i) && !Orphaned(w, cfg, i);
    }
    forall c | HasCheck(cfg, c)
      ensures Tracks(w', cfg, c)
    {
      assert Tracks(w, cfg, c);
    }
  }

  /** A run under `cfg`, from the first start of it on tables another run left behind. */
  ghost predicate IsRunUnder(cfg: Config, worlds: seq<World>, actions: seq<Action>) {
    && |worlds| == |actions| + 1
    && EngineOk(worlds[0]) && ManualsElsewhere(worlds[0], cfg)
    && |actions| > 0 && actions[0].Restart?
    && forall i :: 0 <= i < |actions| ==>
         Under(cfg, actions[i]) && Enabled(worlds[i], actions[i]) && worlds[i + 1] == Next(worlds[i], actions[i])
  }

  lemma {:induction false} RunsStayInStep(cfg: Config, worlds: seq<World>, actions: seq<Action>, n: nat)
    requires Separate(cfg) && IsRunUnder(cfg, worlds, actions) && 0 < n <= |actions|
    ensures InStep(worlds[n], cfg)
  {
    var w, a := worlds[n - 1], actions[n - 1];
    assert worlds[n - 1 + 1] == Next(w, a);
    if n == 1 {
      FirstStart(w, cfg, a.order, a.now, a.machines);
    } else {
      RunsStayInStep(cfg, worlds, actions, n - 1);
      match a
      case Feed(p, pick) => FeedKeeps(w, cfg, p, pick);
      case Reload(_, order, now) => ReloadKeeps(w, cfg, order, now);
      case Restart(_, order, now, machines) => RestartIsInvisible(w, cfg, order, now, machines);
      case _ => OperatorKeepsInStep(w, cfg, a);
    }
  }

  /** At every point of every run under a config whose checks file their incidents under
      different components, a restart would be invisible. */
  lemma {:induction false} AnyRestartIsInvisible(cfg: Config, worlds: seq<World>, actions: seq<Action>, n: nat,
                              order: seq<int>, now: int, machines: map<string, Machine>)
    requires Separate(cfg) && IsRunUnder(cfg, worlds, actions) && 0 < n <= |actions|
    requires Enabled(worlds[n], Restart(cfg, order, now, machines))
    ensures Next(worlds[n], Restart(cfg, order, now, machines)) == worlds[n].(machines := machines)
    ensures forall c :: HasCheck(cfg, c) ==> View(worlds[n].(machines := machines), c) == View(worlds[n], c)
  {
    RunsStayInStep(cfg, worlds, actions, n);
    RestartIsInvisible(worlds[n], cfg, order, now, machines);
  }

  /** Restarting touches no incident and leaves every check as it was. */
  ghost predicate Invisible(w: World, cfg: Config, order: seq<int>, now: int, machines: map<string, Machine>) {
    var after := Next(w, Restart(cfg, order, now, machines));
    && after == w.(machines := machines)
    && forall c :: HasCheck(cfg, c) ==> View(after, c) == View(w, c)
  }

  /** At no point of any run under `cfg` would a restart show. */
  ghost predicate RestartsHide(cfg: Config) {
    forall worlds: seq<World>, actions: seq<Action>, n, order, now, machines ::
      IsRunUnder(cfg, worlds, actions) && 0 < n <= |actions|
          && Enabled(worlds[n], Restart(cfg, order, now, machines)) ==>
        Invisible(worlds[n], cfg, order, now, machines)
  }

  // ---- Checks that share a component ----

  /** After so many failures of check `a`, none of them enough to open. */
  function Failing(a: string, failures: nat): World {
    BLANK.(machines := if failures == 0 then map[] else map[a := Machine(Up, failures, 0, None, None)])
  }

  /** At a threshold of zero, too, the first failure opens. */
  function Needed(check: CheckConfig): nat {
    if check.failuresToOpen == 0 then 1 else check.failuresToOpen
  }

  function FailureOf(cfg: Config, check: CheckConfig): Probe {
    Probe(check, IncidentComponent(cfg, check.id), false, 0, false)
  }

  lemma {:induction false} FailsAgain(cfg: Config, check: CheckConfig, failures: nat)
    requires failures < Needed(check) && check in cfg.checks
    ensures StepUnder(cfg, Failing(check.id, failures), Feed(FailureOf(cfg, check), None),
                      Handle(Failing(check.id, failures), FailureOf(cfg, check), None))
    ensures var w := Handle(Failing(check.id, failures), FailureOf(cfg, check), None);
            if failures + 1 < Needed(check) then w == Failing(check.id, failures + 1)
            else w.incidents == map[1 := Incident(IncidentComponent(cfg, check.id), true, 0, None)]
                 && w.machines.Keys == {check.id}
  {
  }

  lemma {:induction false} StartsBlank(cfg: Config)
    ensures StepUnder(cfg, BLANK, Restart(cfg, [], 0, map[]), BLANK)
  {
  }

  /** A run from empty tables in which nothing happens but that one check fails until its
      incident opens. */
  lemma {:induction false} OpensIncident(cfg: Config, check: CheckConfig)
    returns (worlds: seq<World>, actions: seq<Action>)
    requires check in cfg.checks
    ensures IsRunUnder(cfg, worlds, actions)
    ensures var w := worlds[|actions|];
            && w.incidents == map[1 := Incident(IncidentComponent(cfg, check.id), true, 0, None)]
            && w.machines.Keys == {check.id}
  {
    var n, p := Needed(check), FailureOf(cfg, check);
    var last := Handle(Failing(check.id, n - 1), p, None);
    worlds := [BLANK] + seq(n, k requires 0 <= k < n => Failing(check.id, k)) + [last];
    actions := [Restart(cfg, [], 0, map[])] + seq(n, _ => Feed(p, None));
    FailsAgain(cfg, check, n - 1);
    StartsBlank(cfg);
    hide Handle, Enabled, Under, StepUnder;
    forall i | 0 <= i < |actions|
      ensures StepUnder(cfg, worlds[i], actions[i], worlds[i + 1])
    {
      if i > 0 {
        FailsAgain(cfg, check, i - 1);
        assert actions[i] == Feed(p, None) && worlds[i] == Failing(check.id, i - 1);
      }
    }
    StepsMakeARun(cfg, worlds, actions);
  }

  ghost predicate StepUnder(cfg: Config, w: World, a: Action, w': World) {
    Under(cfg, a) && Enabled(w, a) && w' == Next(w, a)
  }

  lemma {:induction false} StepsMakeARun(cfg: Config, worlds: seq<World>, actions: seq<Action>)
    requires |worlds| == |actions| + 1 && worlds[0] == BLANK && |actions| > 0 && actions[0].Restart?
    requires forall i :: 0 <= i < |actions| ==> StepUnder(cfg, worlds[i], actions[i], worlds[i + 1])
    ensures IsRunUnder(cfg, worlds, actions)
  {
    forall i | 0 <= i < |actions|
      ensures Under(cfg, actions[i]) && Enabled(worlds[i], actions[i]) && worlds[i + 1] == Next(worlds[i], actions[i])
    {
      assert StepUnder(cfg, worlds[i], actions[i], worlds[i + 1]);
    }
  }

  /** Any check that shares its component with another can come back otherwise than it
      was: up before the restart, and then down on the other's incident. */
  lemma {:induction false} SharedComponentShows(cfg: Config, a: string, b: string)
    returns (worlds: seq<World>, actions: seq<Action>, machines: map<string, Machine>)
    requires HasCheck(cfg, a) && HasCheck(cfg, b) && a != b && IncidentComponent(cfg, a) == IncidentComponent(cfg, b)
    ensures IsRunUnder(cfg, worlds, actions) && Enabled(worlds[|actions|], Restart(cfg, [], 0, machines))
    ensures View(worlds[|actions|], b) == (Up, None)
    ensures View(Next(worlds[|actions|], Restart(cfg, [], 0, machines)), b) == (Down, Some(1))
  {
    var check :| check in cfg.checks && check.id == a;
    worlds, actions := OpensIncident(cfg, check);
    var w, component := worlds[|actions|], IncidentComponent(cfg, a);
    hide IsRunUnder, IncidentComponent;
    assert component in Monitored(cfg);
    machines := BootOn(w, cfg, component);
  }

  /** A restart with one incident open resumes every check of its component on it. */
  lemma {:induction false} BootOn(w: World, cfg: Config, component: string) returns (machines: map<string, Machine>)
    requires w.incidents == map[1 := Incident(component, true, 0, None)] && component in Monitored(cfg)
    ensures Enabled(w, Restart(cfg, [], 0, machines))
    ensures Next(w, Restart(cfg, [], 0, machines)) == w.(machines := machines)
    ensures forall c :: HasCheck(cfg, c) && IncidentComponent(cfg, c) == component ==>
            c in machines && machines[c] == Resumed(1)
  {
    hide IncidentComponent, Monitored;
    var ids := set c | c in cfg.checks :: c.id;
    machines := map c | c in ids && IncidentComponent(cfg, c) == component :: Resumed(1);
    assert forall c :: HasCheck(cfg, c) <==> c in ids;
  }

  /** So restarts are invisible at every point of every run under a config if and only if
      no two of its checks file their incidents under one component. */
  lemma {:induction false} RestartsHideIff(cfg: Config)
    ensures RestartsHide(cfg) <==> Separate(cfg)
  {
    if Separate(cfg) {
      forall worlds: seq<World>, actions: seq<Action>, n, order, now, machines
        | IsRunUnder(cfg, worlds, actions) && 0 < n <= |actions|
            && Enabled(worlds[n], Restart(cfg, order, now, machines))
        ensures Invisible(worlds[n], cfg, order, now, machines)
      {
        AnyRestartIsInvisible(cfg, worlds, actions, n, order, now, machines);
      }
    } else {
      var a, b :| HasCheck(cfg, a) && HasCheck(cfg, b) && IncidentComponent(cfg, a) == IncidentComponent(cfg, b)
          && a != b;
      var worlds, actions, machines := SharedComponentShows(cfg, a, b);
      assert !RestartsHide(cfg);
    }
  }
}
