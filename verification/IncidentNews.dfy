// What subscribers hear of incidents (src/subscriptions/mod.rs, src/alert.rs, src/web.rs):
// each action of the engine and of operators with the messages it queues. An incident
// the engine opens during maintenance is quiet, and stays so.

module IncidentNews {
  import opened Basics
  import opened CheckMachines
  import opened AlertEngine
  import opened EngineEffects

  datatype Change = NowOpen | Updated | NowResolved

  datatype Told = Told(incident: int, change: Change)

  /** Which incidents are quiet and what has been queued about the others. `missed` is
      history: those opened while subscriptions were switched off. */
  datatype Board = Board(quiet: set<int>, told: seq<Told>, missed: set<int>)

  datatype State = State(world: World, board: Board)

  datatype Event = Engine(action: Action) | OperatorUpdates(incident: int)

  function Publish(b: Board, i: int, change: Change, enabled: bool): Board {
    if !enabled || i in b.quiet then b else b.(told := b.told + [Told(i, change)])
  }

  /** A new incident's message, or the mark that keeps subscribers out of it. */
  function Announce(b: Board, i: int, muted: bool, enabled: bool): Board {
    if muted then b.(quiet := b.quiet + {i})
    else Publish(b.(missed := if enabled then b.missed else b.missed + {i}), i, NowOpen, enabled)
  }

  function PublishAll(b: Board, closed: seq<int>, enabled: bool): Board {
    if closed == [] then b
    else Publish(PublishAll(b, closed[..|closed| - 1], enabled), closed[|closed| - 1], NowResolved, enabled)
  }

  function AfterFeed(b: Board, w: World, p: Probe, pick: Option<int>, enabled: bool): Board {
    match Step(Current(w, p.check.id), p.check, p.ok, p.now).1
    case Open => if pick.None? then Announce(b, w.nextId, p.muted, enabled) else b
    case Resolve(i) => Publish(b, i, NowResolved, enabled)
    case _ => b
  }

  function After(b: Board, w: World, e: Event, enabled: bool): Board {
    match e
    case OperatorUpdates(i) => Publish(b, i, Updated, enabled)
    case Engine(Feed(p, pick)) => AfterFeed(b, w, p, pick, enabled)
    case Engine(OperatorOpens(_, _)) => Announce(b, w.nextId, false, enabled)
    case Engine(OperatorCloses(i, _)) => Publish(b, i, NowResolved, enabled)
    case Engine(Reload(_, closed, _)) => PublishAll(b, closed, enabled)
    case Engine(Restart(_, closed, _, _)) => PublishAll(b, closed, enabled)
  }

  ghost predicate CanHappen(w: World, e: Event) {
    match e
    case Engine(a) => Enabled(w, a)
    case OperatorUpdates(i) => i in w.incidents
  }

  ghost function Happen(s: State, e: Event, enabled: bool): State
    requires CanHappen(s.world, e)
  {
    State(if e.Engine? then Next(s.world, e.action) else s.world, After(s.board, s.world, e, enabled))
  }

  /** `enabled[i]` is whether subscriptions are on at event `i`. */
  ghost predicate IsStory(states: seq<State>, events: seq<Event>, enabled: seq<bool>) {
    && |states| == |events| + 1 && |enabled| == |events|
    && states[0] == State(BLANK, Board({}, [], {}))
    && forall i :: 0 <= i < |events| ==>
         CanHappen(states[i].world, events[i]) && states[i + 1] == Happen(states[i], events[i], enabled[i])
  }

  // ---- The invariant ----

  predicate HeardOpen(told: seq<Told>, i: int) {
    Told(i, NowOpen) in told
  }

  ghost predicate TellingOk(b: Board, j: nat)
    requires j < |b.told|
  {
    var t := b.told[j];
    && t.incident !in b.quiet
    && (t.change.NowOpen? ==> !HeardOpen(b.told[..j], t.incident))
    && (!t.change.NowOpen? && !HeardOpen(b.told[..j], t.incident) <==> t.incident in b.missed)
  }

  ghost predicate BoardOk(b: Board, incidents: set<int>) {
    && (forall j :: 0 <= j < |b.told| ==> TellingOk(b, j))
    && (forall t :: t in b.told ==> t.incident in incidents)
    && b.quiet <= incidents && b.missed <= incidents
    && (forall i :: i in incidents ==> i in b.quiet || i in b.missed || HeardOpen(b.told, i))
  }

  lemma {:induction false} HeardIsNotMissed(b: Board, incidents: set<int>, i: int)
    requires BoardOk(b, incidents) && HeardOpen(b.told, i)
    ensures i !in b.missed && i !in b.quiet
  {
    var j :| 0 <= j < |b.told| && b.told[j] == Told(i, NowOpen);
    assert TellingOk(b, j);
  }

  lemma {:induction false} PublishKeeps(b: Board, incidents: set<int>, i: int, change: Change, enabled: bool)
    requires BoardOk(b, incidents) && i in incidents && !change.NowOpen?
    ensures BoardOk(Publish(b, i, change, enabled), incidents)
  {
    var c := Publish(b, i, change, enabled);
    if HeardOpen(b.told, i) {
      HeardIsNotMissed(b, incidents, i);
    }
    if c != b {
      forall j | 0 <= j < |c.told|
        ensures TellingOk(c, j)
      {
        assert c.told[..j] == b.told[..j];
        if j < |b.told| {
          assert TellingOk(b, j);
        } else {
          assert b.told[..j] == b.told;
        }
      }
    }
  }

  lemma {:induction false} PublishAllKeeps(b: Board, incidents: set<int>, closed: seq<int>, enabled: bool)
    requires BoardOk(b, incidents) && forall i :: i in closed ==> i in incidents
    ensures BoardOk(PublishAll(b, closed, enabled), incidents)
  {
    if closed != [] {
      PublishAllKeeps(b, incidents, closed[..|closed| - 1], enabled);
      PublishKeeps(PublishAll(b, closed[..|closed| - 1], enabled), incidents, closed[|closed| - 1], NowResolved,
          enabled);
    }
  }

  lemma {:induction false} AnnounceKeeps(b: Board, incidents: set<int>, i: int, muted: bool, enabled: bool)
    requires BoardOk(b, incidents) && i !in incidents
    ensures BoardOk(Announce(b, i, muted, enabled), incidents + {i})
  {
    var c := Announce(b, i, muted, enabled);
    forall j | 0 <= j < |c.told|
      ensures TellingOk(c, j)
    {
      assert c.told[..j] == b.told[..j];
      if j < |b.told| {
        assert TellingOk(b, j) && b.told[j] in b.told;
      } else {
        assert b.told[..j] == b.told;
      }
    }
  }

  ghost predicate StoryOk(s: State) {
    EngineOk(s.world) && BoardOk(s.board, s.world.incidents.Keys)
  }

  lemma {:induction false} FeedKeepsBoard(s: State, p: Probe, pick: Option<int>, enabled: bool)
    requires StoryOk(s) && Enabled(s.world, Feed(p, pick))
    ensures BoardOk(AfterFeed(s.board, s.world, p, pick, enabled), Handle(s.world, p, pick).incidents.Keys)
  {
    var w := s.world;
    var (m, t) := Step(Current(w, p.check.id), p.check, p.ok, p.now);
    StepResolvesItsOwn(Current(w, p.check.id), p.check, p.ok, p.now);
    hide Step;
    assert IncidentOk(w, w.nextId);
    if t.Open? && pick.None? {
      AnnounceKeeps(s.board, w.incidents.Keys, w.nextId, p.muted, enabled);
      assert Handle(w, p, pick).incidents.Keys == w.incidents.Keys + {w.nextId};
    } else if t.Resolve? {
      PublishKeeps(s.board, w.incidents.Keys, t.incident, NowResolved, enabled);
      assert Handle(w, p, pick).incidents.Keys == w.incidents.Keys;
    } else {
      assert Handle(w, p, pick).incidents.Keys == w.incidents.Keys;
    }
  }

  lemma {:induction false} ForgetKeepsBoard(w: World, b: Board, cfg: Config, closed: seq<int>, now: int, enabled: bool)
    requires EngineOk(w) && BoardOk(b, w.incidents.Keys) && ListsOrphans(w, cfg, closed)
    ensures BoardOk(PublishAll(b, closed, enabled), ForgetUnmonitored(w, cfg, closed, now).incidents.Keys)
  {
    assert forall i :: i in closed ==> Orphaned(w, cfg, i);
    CloseAllKeeps(w, closed, now);
    PublishAllKeeps(b, w.incidents.Keys, closed, enabled);
  }

  lemma {:induction false} StepKeeps(s: State, e: Event, enabled: bool)
    requires StoryOk(s) && CanHappen(s.world, e)
    ensures StoryOk(Happen(s, e, enabled))
  {
    var w, b := s.world, s.board;
    hide EngineOk, BoardOk;
    match e
    case OperatorUpdates(i) => PublishKeeps(b, w.incidents.Keys, i, Updated, enabled);
    case Engine(a) =>
      NextKeeps(w, a);
      match a {
        case Feed(p, pick) => FeedKeepsBoard(s, p, pick, enabled);
        case OperatorOpens(component, now) =>
          FreshIncident(w);
          AnnounceKeeps(b, w.incidents.Keys, w.nextId, false, enabled);
          assert Next(w, a).incidents.Keys == w.incidents.Keys + {w.nextId};
        case OperatorCloses(i, now) =>
          PublishKeeps(b, w.incidents.Keys, i, NowResolved, enabled);
          assert Next(w, a).incidents.Keys == w.incidents.Keys;
        case Reload(cfg, closed, now) => ForgetKeepsBoard(w, b, cfg, closed, now, enabled);
        case Restart(cfg, closed, now, machines) =>
          StoppedOk(w);
          ForgetKeepsBoard(Stopped(w), b, cfg, closed, now, enabled);
      }
  }

  lemma {:induction false} FreshIncident(w: World)
    requires EngineOk(w)
    ensures w.nextId !in w.incidents
  {
    assert IncidentOk(w, w.nextId);
  }

  lemma {:induction false} StoppedOk(w: World)
    requires EngineOk(w)
    ensures EngineOk(Stopped(w))
  {
    assert forall i :: IncidentOk(w, i) ==> IncidentOk(Stopped(w), i);
  }

  lemma {:induction false} StoriesKeep(states: seq<State>, events: seq<Event>, enabled: seq<bool>, n: nat)
    requires IsStory(states, events, enabled) && n <= |events|
    ensures StoryOk(states[n])
  {
    if n > 0 {
      StoriesKeep(states, events, enabled, n - 1);
      assert states[n - 1 + 1] == Happen(states[n - 1], events[n - 1], enabled[n - 1]);
      StepKeeps(states[n - 1], events[n - 1], enabled[n - 1]);
    }
  }

  // ---- What every story promises ----

  /** The incident an event opens, if any, and whether it does so during maintenance. */
  function OpenedBy(w: World, e: Event): Option<(int, bool)> {
    match e
    case Engine(Feed(p, pick)) =>
      if Step(Current(w, p.check.id), p.check, p.ok, p.now).1.Open? && pick.None? then Some((w.nextId, p.muted))
          else None
    case Engine(OperatorOpens(_, _)) => Some((w.nextId, false))
    case _ => None
  }

  /** Incident `i` was opened while subscriptions were off, and not during maintenance. */
  ghost predicate OpenedUnheard(states: seq<State>, events: seq<Event>, enabled: seq<bool>, n: nat, i: int)
    requires |states| == |events| + 1 == |enabled| + 1 && n <= |events|
  {
    exists k :: 0 <= k < n && !enabled[k] && OpenedBy(states[k].world, events[k]) == Some((i, false))
  }

  /** Incident `i` was opened by the engine during maintenance. */
  ghost predicate OpenedMuted(states: seq<State>, events: seq<Event>, n: nat, i: int)
    requires |states| == |events| + 1 && n <= |events|
  {
    exists k :: 0 <= k < n && OpenedBy(states[k].world, events[k]) == Some((i, true))
  }

  lemma {:induction false} AllPublished(b: Board, closed: seq<int>, enabled: bool)
    ensures PublishAll(b, closed, enabled).missed == b.missed && PublishAll(b, closed, enabled).quiet == b.quiet
  {
    if closed != [] {
      AllPublished(b, closed[..|closed| - 1], enabled);
    }
  }

  lemma {:induction false} EventNotes(b: Board, w: World, e: Event, enabled: bool, i: int)
    ensures i in After(b, w, e, enabled).missed <==>
              i in b.missed || (!enabled && OpenedBy(w, e) == Some((i, false)))
    ensures i in After(b, w, e, enabled).quiet <==> i in b.quiet || OpenedBy(w, e) == Some((i, true))
  {
    hide Step;
    if e.Engine? && (e.action.Reload? || e.action.Restart?) {
      AllPublished(b, e.action.order, enabled);
    }
  }

  /** What is noted of incidents is what the events did. */
  lemma {:induction false} NotesAreTheStory(states: seq<State>, events: seq<Event>, enabled: seq<bool>, n: nat, i: int)
    requires IsStory(states, events, enabled) && n <= |events|
    ensures i in states[n].board.missed <==> OpenedUnheard(states, events, enabled, n, i)
    ensures i in states[n].board.quiet <==> OpenedMuted(states, events, n, i)
  {
    if n > 0 {
      NotesAreTheStory(states, events, enabled, n - 1, i);
      assert states[n - 1 + 1] == Happen(states[n - 1], events[n - 1], enabled[n - 1]);
      hide OpenedBy, After;
      EventNotes(states[n - 1].board, states[n - 1].world, events[n - 1], enabled[n - 1], i);
    }
  }

  /** Nothing is ever queued about an incident opened during maintenance, also not about
      what came before or after. Of any other, the opening is queued once; and an update
      or a resolution comes without it exactly if the incident was opened while
      subscriptions were off. */
  lemma {:induction false} NothingOutOfTheBlue(
    states: seq<State>, events: seq<Event>, enabled: seq<bool>, n: nat, j: nat)
    requires IsStory(states, events, enabled) && n <= |events| && j < |states[n].board.told|
    ensures var told := states[n].board.told;
            var t := told[j];
            && !OpenedMuted(states, events, n, t.incident)
            && (t.change.NowOpen? ==> !HeardOpen(told[..j], t.incident))
            && (!t.change.NowOpen? && !HeardOpen(told[..j], t.incident) <==>
                OpenedUnheard(states, events, enabled, n, t.incident))
  {
    StoriesKeep(states, events, enabled, n);
    assert TellingOk(states[n].board, j);
    NotesAreTheStory(states, events, enabled, n, states[n].board.told[j].incident);
  }

  /** Every incident is heard of from its opening exactly if it was opened neither during
      maintenance nor while subscriptions were off. */
  lemma {:induction false} OpeningsAreHeard(states: seq<State>, events: seq<Event>, enabled: seq<bool>, n: nat, i: int)
    requires IsStory(states, events, enabled) && n <= |events| && i in states[n].world.incidents
    ensures HeardOpen(states[n].board.told, i) <==>
              !OpenedMuted(states, events, n, i) && !OpenedUnheard(states, events, enabled, n, i)
  {
    StoriesKeep(states, events, enabled, n);
    NotesAreTheStory(states, events, enabled, n, i);
    if HeardOpen(states[n].board.told, i) {
      HeardIsNotMissed(states[n].board, states[n].world.incidents.Keys, i);
    }
  }

  /** A check opens an incident while subscriptions are off, and subscribers hear of its
      end after they are on again. */
  lemma {:induction false} EndOutOfTheBlue() returns (states: seq<State>, events: seq<Event>, enabled: seq<bool>)
    ensures IsStory(states, events, enabled) && |events| == 2 && enabled == [false, true]
    ensures states[2].board.told == [Told(1, NowResolved)]
    ensures OpenedUnheard(states, events, enabled, 2, 1)
  {
    var check := CheckConfig("web", 1, 1, 60);
    var s0 := State(BLANK, Board({}, [], {}));
    var a := Engine(Feed(Probe(check, "web", false, 0, false), None));
    var b := Engine(Feed(Probe(check, "web", true, 60, false), Some(1)));
    var s1 := Happen(s0, a, false);
    assert s1.world.incidents == map[1 := Incident("web", true, 0, None)];
    assert s1.board == Board({}, [], {1});
    var s2 := Happen(s1, b, true);
    states, events, enabled := [s0, s1, s2], [a, b], [false, true];
    assert OpenedBy(states[0].world, events[0]) == Some((1, false));
  }

  // ---- What each event tells ----

  function IfTold(told: bool, i: int, change: Change): seq<Told> {
    if told then [Told(i, change)] else []
  }

  /** The resolutions of some incidents, oldest first, but for the quiet ones. */
  function ResolutionsOf(closed: seq<int>, quiet: set<int>): seq<Told> {
    if closed == [] then []
    else
      ResolutionsOf(closed[..|closed| - 1], quiet)
      + IfTold(closed[|closed| - 1] !in quiet, closed[|closed| - 1], NowResolved)
  }

  /** The messages an event queues, from the worlds before and after it: with subscriptions
      on, of each incident it opens, updates or resolves, unless that is quiet. */
  function NewsOf(a: World, b: World, e: Event, quiet: set<int>): seq<Told> {
    match e
    case OperatorUpdates(i) => IfTold(i !in quiet, i, Updated)
    case Engine(OperatorOpens(_, _)) => IfTold(a.nextId !in quiet, a.nextId, NowOpen)
    case Engine(OperatorCloses(i, _)) => IfTold(i !in quiet, i, NowResolved)
    case Engine(Reload(_, closed, _)) => ResolutionsOf(closed, quiet)
    case Engine(Restart(_, closed, _, _)) => ResolutionsOf(closed, quiet)
    case Engine(Feed(p, _)) =>
      var m := Met(a, p.check.id);
      if a.nextId in b.incidents && a.nextId !in a.incidents
        then IfTold(!p.muted && a.nextId !in quiet, a.nextId, NowOpen)
      else if m.state == Down && m.incident.Some? && p.check.id in b.machines && b.machines[p.check.id].state == Up
        then IfTold(m.incident.value !in quiet, m.incident.value, NowResolved)
      else []
  }

  lemma {:induction false} AllTold(b: Board, closed: seq<int>, enabled: bool)
    ensures var after := PublishAll(b, closed, enabled);
            after.told == b.told + (if enabled then ResolutionsOf(closed, b.quiet) else []) && after.quiet == b.quiet
  {
    if closed != [] {
      AllTold(b, closed[..|closed| - 1], enabled);
    }
  }

  lemma {:induction false} FeedTells(s: State, p: Probe, pick: Option<int>, enabled: bool)
    requires StoryOk(s) && Enabled(s.world, Feed(p, pick))
    ensures AfterFeed(s.board, s.world, p, pick, enabled).told
         == s.board.told
            + (if enabled then NewsOf(s.world, Handle(s.world, p, pick), Engine(Feed(p, pick)), s.board.quiet) else [])
  {
    var w := s.world;
    MetIsCurrent(w, p.check.id);
    FreshIncident(w);
    hide EngineOk, BoardOk, IsNewest, Met, Current;
  }

  /** In every story each event queues exactly these, and with subscriptions off none. */
  lemma {:induction false} EventTells(
    states: seq<State>, events: seq<Event>, enabled: seq<bool>, k: nat)
    requires IsStory(states, events, enabled) && k < |events|
    ensures states[k + 1].board.told == states[k].board.told
         + (if enabled[k] then NewsOf(states[k].world, states[k + 1].world, events[k], states[k].board.quiet) else [])
  {
    StoriesKeep(states, events, enabled, k);
    var s, e := states[k], events[k];
    assert states[k + 1] == Happen(s, e, enabled[k]);
    FreshIncident(s.world);
    QuietAreKnown(s);
    match e
    case Engine(Feed(p, pick)) => FeedTells(s, p, pick, enabled[k]);
    case Engine(Reload(_, closed, _)) => AllTold(s.board, closed, enabled[k]);
    case Engine(Restart(_, closed, _, _)) => AllTold(s.board, closed, enabled[k]);
    case _ =>
  }

  lemma {:induction false} QuietAreKnown(s: State)
    requires StoryOk(s)
    ensures s.board.quiet <= s.world.incidents.Keys
  {
  }
}
