// What subscribers hear of maintenance windows (src/subscriptions/mod.rs, db.rs,
// web.rs): the flags that claim each message, the tick that sends them with time
// passing, and the web pages' steps that may fall between any two of its transactions.

module Maintenance {
  import opened Basics
  import opened Paths

  datatype Kind = Scheduled | Started | Completed | Cancelled

  /** What one fan-out queues, with the times it shows. */
  datatype Message = Message(id: int, kind: Kind, starts: int, ends: int)

  datatype Window = Window(starts: int, ends: int, scheduledSent: bool, startedSent: bool, completedSent: bool)

  /** A row of one of the tick's two queries; stale by the time it is used, perhaps. */
  datatype Seen = Seen(id: int, starts: int, ends: int, scheduled: bool)

  /** How the first loop claimed a window, and how the second did. History only. */
  datatype Opening = Opening(ends: int, now: int, enabled: bool)
  datatype Closing = Closing(ends: int, scheduled: bool, enabled: bool)

  datatype Board = Board(
    rows: map<int, Window>, nextId: int, queued: seq<Message>,
    begun: map<int, Opening>, closed: map<int, Closing>)

  function Blank(): Board {
    Board(map[], 1, [], map[], map[])
  }

  // ---- Transactions ----

  function Create(b: Board, starts: int, ends: int): Board {
    b.(rows := b.rows[b.nextId := Window(starts, ends, false, false, false)], nextId := b.nextId + 1)
  }

  /** Announce a window planned for later; `ends` is as read before the transaction. */
  function Publish(b: Board, id: int, ends: int): Board
    requires id in b.rows
  {
    b.(rows := b.rows[id := b.rows[id].(scheduledSent := true)],
       queued := b.queued + [Message(id, Scheduled, b.rows[id].starts, ends)])
  }

  function End(b: Board, id: int, now: int): Board {
    if id in b.rows && b.rows[id].ends > now then b.(rows := b.rows[id := b.rows[id].(ends := now)]) else b
  }

  function StartNews(o: Opening): seq<Kind> {
    if o.ends > o.now && o.enabled then [Started] else []
  }

  function EndNews(c: Closing, starts: int): seq<Kind> {
    if !c.enabled then []
    else if c.ends > starts then [Completed]
    else if c.scheduled then [Cancelled]
    else []
  }

  function Post(queued: seq<Message>, m: Seen, news: seq<Kind>): seq<Message> {
    queued + seq(|news|, i requires 0 <= i < |news| => Message(m.id, news[i], m.starts, m.ends))
  }

  function ClaimStart(b: Board, m: Seen, now: int, enabled: bool): Board {
    if m.id !in b.rows || b.rows[m.id].startedSent then b
    else
      var o := Opening(m.ends, now, enabled);
      b.(rows := b.rows[m.id := b.rows[m.id].(startedSent := true)],
         begun := b.begun[m.id := o],
         queued := Post(b.queued, m, StartNews(o)))
  }

  function ClaimEnd(b: Board, m: Seen, enabled: bool): Board {
    if m.id !in b.rows || b.rows[m.id].completedSent then b
    else
      var c := Closing(m.ends, m.scheduled, enabled);
      b.(rows := b.rows[m.id := b.rows[m.id].(startedSent := true, completedSent := true)],
         closed := b.closed[m.id := c],
         queued := Post(b.queued, m, EndNews(c, m.starts)))
  }

  // ---- The tick's queries ----

  predicate Due(w: Window, now: int) {
    !w.startedSent && w.starts <= now
  }

  predicate Over(w: Window, now: int) {
    !w.completedSent && w.ends <= now
  }

  function See(b: Board, id: int): Seen
    requires id in b.rows
  {
    Seen(id, b.rows[id].starts, b.rows[id].ends, b.rows[id].scheduledSent)
  }

  predicate Has(todo: seq<Seen>, id: int) {
    exists i :: 0 <= i < |todo| && todo[i].id == id
  }

  /** Each listed row is as it stands, and no row is listed twice. */
  ghost predicate Lists(todo: seq<Seen>, b: Board) {
    && (forall i :: 0 <= i < |todo| ==> todo[i].id in b.rows && todo[i] == See(b, todo[i].id))
    && (forall i, j :: 0 <= i < j < |todo| ==> todo[i].id != todo[j].id)
  }

  ghost predicate ListsDue(todo: seq<Seen>, b: Board, now: int) {
    && Lists(todo, b)
    && (forall id :: Has(todo, id) <==> id in b.rows && Due(b.rows[id], now))
    && (forall i, j :: 0 <= i < j < |todo| ==> todo[i].starts <= todo[j].starts)
  }

  ghost predicate ListsOver(todo: seq<Seen>, b: Board, now: int) {
    && Lists(todo, b)
    && (forall id :: Has(todo, id) <==> id in b.rows && Over(b.rows[id], now))
    && (forall i, j :: 0 <= i < j < |todo| ==> todo[i].ends <= todo[j].ends)
  }

  // ---- The machine ----

  /** Where the tick is: its first loop, its second, or between ticks. */
  datatype Tick =
    | Idle
    | Starting(now: int, enabled: bool, todo: seq<Seen>)
    | Ending(now: int, enabled: bool, todo: seq<Seen>)

  /** `planned` holds the windows whose creator has yet to publish them. */
  datatype State = State(board: Board, tick: Tick, planned: set<int>)

  function Start(): State {
    State(Blank(), Idle, {})
  }

  datatype Action =
    | ACreate(starts: int, ends: int, now: int)
    | APublish(id: int, ends: int)
    | AStayQuiet(id: int)
    | AEnd(id: int, now: int)
    | AReadDue(now: int, enabled: bool, todo: seq<Seen>)
    | AClaimStart
    | AReadOver(todo: seq<Seen>)
    | AClaimEnd
    | ADone
    | ACrash

  ghost predicate Enabled(s: State, a: Action) {
    match a
    case ACreate(starts, ends, now) => now <= starts < ends
    // The row was read a moment earlier, when its end was at least this late.
    case APublish(id, ends) => id in s.planned && id in s.board.rows && s.board.rows[id].ends <= ends
    case AStayQuiet(id) => id in s.planned
    case AEnd(_, _) => true
    case AReadDue(now, _, todo) => s.tick.Idle? && ListsDue(todo, s.board, now)
    case AClaimStart => s.tick.Starting? && s.tick.todo != []
    case AReadOver(todo) => s.tick.Starting? && s.tick.todo == [] && ListsOver(todo, s.board, s.tick.now)
    case AClaimEnd => s.tick.Ending? && s.tick.todo != []
    case ADone => s.tick.Ending? && s.tick.todo == []
    case ACrash => true
  }

  function Next(s: State, a: Action): State
    requires Enabled(s, a)
  {
    match a
    case ACreate(starts, ends, now) =>
      s.(board := Create(s.board, starts, ends),
         planned := if starts > now then s.planned + {s.board.nextId} else s.planned)
    case APublish(id, ends) => s.(board := Publish(s.board, id, ends), planned := s.planned - {id})
    case AStayQuiet(id) => s.(planned := s.planned - {id})
    case AEnd(id, now) => s.(board := End(s.board, id, now))
    case AReadDue(now, enabled, todo) => s.(tick := Starting(now, enabled, todo))
    case AClaimStart =>
      s.(board := ClaimStart(s.board, s.tick.todo[0], s.tick.now, s.tick.enabled),
         tick := Starting(s.tick.now, s.tick.enabled, s.tick.todo[1..]))
    case AReadOver(todo) => s.(tick := Ending(s.tick.now, s.tick.enabled, todo))
    case AClaimEnd =>
      s.(board := ClaimEnd(s.board, s.tick.todo[0], s.tick.enabled),
         tick := Ending(s.tick.now, s.tick.enabled, s.tick.todo[1..]))
    case ADone => s.(tick := Idle)
    case ACrash => s.(tick := Idle, planned := {})
  }

  ghost predicate Step(s: State, a: Action, t: State) {
    Enabled(s, a) && t == Next(s, a)
  }

  ghost predicate IsRun(states: seq<State>, actions: seq<Action>) {
    && |states| == |actions| + 1
    && states[0] == Start()
    && forall i :: 0 <= i < |actions| ==> Enabled(states[i], actions[i]) && states[i + 1] == Next(states[i], actions[i])
  }

  // ---- What was queued for one window ----

  /** The kinds queued for a window, oldest first: its announcements, or the others. */
  function Heard(queued: seq<Message>, id: int, announcements: bool): seq<Kind> {
    if queued == [] then []
    else
      var last := queued[|queued| - 1];
      var rest := Heard(queued[..|queued| - 1], id, announcements);
      if last.id == id && last.kind.Scheduled? == announcements then rest + [last.kind] else rest
  }

  function Announcements(queued: seq<Message>, id: int): seq<Kind> {
    Heard(queued, id, true)
  }

  function Progress(queued: seq<Message>, id: int): seq<Kind> {
    Heard(queued, id, false)
  }

  lemma {:induction false} HeardMore(queued: seq<Message>, m: Message, id: int, announcements: bool)
    ensures Heard(queued + [m], id, announcements)
         == if m.id == id && m.kind.Scheduled? == announcements
            then Heard(queued, id, announcements) + [m.kind]
            else Heard(queued, id, announcements)
  {
    assert (queued + [m])[..|queued|] == queued;
  }

  lemma {:induction false} PostHeard(queued: seq<Message>, m: Seen, news: seq<Kind>, id: int)
    requires |news| <= 1 && forall k :: 0 <= k < |news| ==> !news[k].Scheduled?
    ensures Announcements(Post(queued, m, news), id) == Announcements(queued, id)
    ensures Progress(Post(queued, m, news), id) == Progress(queued, id) + (if m.id == id then news else [])
  {
    if news == [] {
      assert Post(queued, m, news) == queued;
    } else {
      var message := Message(m.id, news[0], m.starts, m.ends);
      assert Post(queued, m, news) == queued + [message];
      HeardMore(queued, message, id, true);
      HeardMore(queued, message, id, false);
    }
  }

  /** What the window's claims owe its subscribers. */
  function Owed(b: Board, id: int): seq<Kind>
    requires id in b.rows
  {
    (if id in b.begun then StartNews(b.begun[id]) else [])
    + (if id in b.closed then EndNews(b.closed[id], b.rows[id].starts) else [])
  }

  // ---- The invariant ----

  ghost predicate WindowOk(b: Board, id: int)
    requires id in b.rows
  {
    var w := b.rows[id];
    && Announcements(b.queued, id) == (if w.scheduledSent then [Scheduled] else [])
    && Progress(b.queued, id) == Owed(b, id)
    && (w.startedSent <==> id in b.begun || id in b.closed)
    && (w.completedSent <==> id in b.closed)
    && (id in b.closed ==> w.ends <= b.closed[id].ends && (b.closed[id].scheduled ==> w.scheduledSent))
    && (id in b.begun ==> w.starts <= b.begun[id].now)
  }

  /** A message is about a window there is, shows its start, and an end no earlier than
      the window's. */
  ghost predicate MessageOk(b: Board, j: nat)
    requires j < |b.queued|
  {
    var m := b.queued[j];
    && m.id in b.rows && m.starts == b.rows[m.id].starts && b.rows[m.id].ends <= m.ends
    && (m.kind.Completed? ==> m.ends > m.starts)
    && (m.kind.Cancelled? ==> m.ends <= m.starts && Announcements(b.queued[..j], m.id) != [])
  }

  ghost predicate SeenOk(b: Board, m: Seen) {
    && m.id in b.rows && m.starts == b.rows[m.id].starts && b.rows[m.id].ends <= m.ends
    && (m.scheduled ==> b.rows[m.id].scheduledSent)
  }

  ghost predicate BoardOk(b: Board) {
    && (forall id :: id in b.rows ==> id < b.nextId && WindowOk(b, id))
    && (forall j :: 0 <= j < |b.queued| ==> MessageOk(b, j))
    && b.begun.Keys <= b.rows.Keys && b.closed.Keys <= b.rows.Keys
  }

  ghost predicate TickOk(b: Board, t: Tick) {
    t.Idle? ||
    forall i :: 0 <= i < |t.todo| ==>
      SeenOk(b, t.todo[i]) && (if t.Starting? then t.todo[i].starts <= t.now else t.todo[i].ends <= t.now)
  }

  ghost predicate StateOk(s: State) {
    && BoardOk(s.board)
    && TickOk(s.board, s.tick)
    && forall id :: id in s.planned ==> id in s.board.rows && !s.board.rows[id].scheduledSent
  }

  /** Rows other than `id` are as before, and `id`'s start is. */
  ghost predicate OnlyRow(b: Board, c: Board, id: int) {
    && id in b.rows && id in c.rows && c.rows.Keys == b.rows.Keys
    && (forall x :: x in b.rows && x != id ==> c.rows[x] == b.rows[x])
    && c.rows[id].starts == b.rows[id].starts
    && c.rows[id].ends <= b.rows[id].ends
    && (b.rows[id].scheduledSent ==> c.rows[id].scheduledSent)
  }

  lemma {:induction false} OldMessagesStay(b: Board, c: Board, id: int)
    requires BoardOk(b) && OnlyRow(b, c, id) && b.queued <= c.queued
    ensures forall j :: 0 <= j < |b.queued| ==> MessageOk(c, j)
  {
    forall j | 0 <= j < |b.queued|
      ensures MessageOk(c, j)
    {
      assert MessageOk(b, j);
      assert c.queued[..j] == b.queued[..j];
    }
  }

  lemma {:induction false} NothingHeard(b: Board, queued: seq<Message>, id: int, announcements: bool)
    requires forall j :: 0 <= j < |queued| ==> queued[j].id in b.rows
    requires id !in b.rows
    ensures Heard(queued, id, announcements) == []
  {
    if queued != [] {
      NothingHeard(b, queued[..|queued| - 1], id, announcements);
    }
  }

  lemma {:induction false} CreateKeeps(b: Board, starts: int, ends: int)
    requires BoardOk(b)
    ensures BoardOk(Create(b, starts, ends))
  {
    var c := Create(b, starts, ends);
    forall j | 0 <= j < |c.queued|
      ensures MessageOk(c, j)
    {
      assert MessageOk(b, j);
    }
    forall j | 0 <= j < |b.queued|
      ensures b.queued[j].id in b.rows
    {
      assert MessageOk(b, j);
    }
    NothingHeard(b, b.queued, b.nextId, true);
    NothingHeard(b, b.queued, b.nextId, false);
    forall id | id in c.rows
      ensures WindowOk(c, id)
    {
      assert id in b.rows ==> WindowOk(b, id);
    }
  }

  lemma {:induction false} PublishKeeps(b: Board, id: int, ends: int)
    requires BoardOk(b) && id in b.rows && !b.rows[id].scheduledSent && b.rows[id].ends <= ends
    ensures BoardOk(Publish(b, id, ends))
  {
    var c := Publish(b, id, ends);
    OldMessagesStay(b, c, id);
    forall x | x in c.rows
      ensures WindowOk(c, x)
    {
      assert WindowOk(b, x);
      HeardMore(b.queued, Message(id, Scheduled, b.rows[id].starts, ends), x, true);
      HeardMore(b.queued, Message(id, Scheduled, b.rows[id].starts, ends), x, false);
    }
  }

  lemma {:induction false} EndKeeps(b: Board, id: int, now: int)
    requires BoardOk(b)
    ensures BoardOk(End(b, id, now))
  {
    var c := End(b, id, now);
    if c != b {
      OldMessagesStay(b, c, id);
      forall x | x in c.rows
        ensures WindowOk(c, x)
      {
        assert WindowOk(b, x);
      }
    }
  }

  /** The messages a claim adds are sound, given that the row it claims is. */
  lemma {:induction false} PostedOk(b: Board, c: Board, m: Seen, news: seq<Kind>)
    requires BoardOk(b) && SeenOk(b, m) && OnlyRow(b, c, m.id) && c.rows[m.id].ends == b.rows[m.id].ends
    requires |news| <= 1 && c.queued == Post(b.queued, m, news)
    requires forall k :: 0 <= k < |news| ==>
               (news[k].Completed? ==> m.ends > m.starts) && (news[k].Cancelled? ==> m.ends <= m.starts && m.scheduled)
    ensures forall j :: 0 <= j < |c.queued| ==> MessageOk(c, j)
  {
    OldMessagesStay(b, c, m.id);
    if |news| == 1 {
      var j := |b.queued|;
      assert c.queued[..j] == b.queued;
      assert WindowOk(b, m.id);
      assert MessageOk(c, j);
    }
  }

  lemma {:induction false} ClaimStartKeeps(b: Board, m: Seen, now: int, enabled: bool)
    requires BoardOk(b) && SeenOk(b, m) && m.starts <= now
    ensures BoardOk(ClaimStart(b, m, now, enabled))
  {
    hide MessageOk, Heard, Announcements, Progress, Post;
    var c := ClaimStart(b, m, now, enabled);
    if c != b {
      var news := StartNews(Opening(m.ends, now, enabled));
      PostedOk(b, c, m, news);
      assert WindowOk(b, m.id);
      forall x | x in c.rows
        ensures WindowOk(c, x)
      {
        assert WindowOk(b, x);
        PostHeard(b.queued, m, news, x);
      }
    }
  }

  lemma {:induction false} ClaimEndKeeps(b: Board, m: Seen, enabled: bool)
    requires BoardOk(b) && SeenOk(b, m)
    ensures BoardOk(ClaimEnd(b, m, enabled))
  {
    hide MessageOk, Heard, Announcements, Progress, Post;
    var c := ClaimEnd(b, m, enabled);
    if c != b {
      var news := EndNews(Closing(m.ends, m.scheduled, enabled), m.starts);
      PostedOk(b, c, m, news);
      assert WindowOk(b, m.id);
      forall x | x in c.rows
        ensures WindowOk(c, x)
      {
        assert WindowOk(b, x);
        PostHeard(b.queued, m, news, x);
      }
    }
  }

  lemma {:induction false} NextKeeps(s: State, a: Action)
    requires StateOk(s) && Enabled(s, a)
    ensures StateOk(Next(s, a))
  {
    hide WindowOk, MessageOk;
    var b, c := s.board, Next(s, a).board;
    match a
    case ACreate(starts, ends, now) =>
      CreateKeeps(b, starts, ends);
    case APublish(id, ends) => PublishKeeps(b, id, ends);
    case AEnd(id, now) => EndKeeps(b, id, now);
    case AClaimStart => ClaimStartKeeps(b, s.tick.todo[0], s.tick.now, s.tick.enabled);
    case AClaimEnd => ClaimEndKeeps(b, s.tick.todo[0], s.tick.enabled);
    case AStayQuiet(_) =>
    case AReadDue(now, _, todo) =>
      assert forall i :: 0 <= i < |todo| ==> Has(todo, todo[i].id);
    case AReadOver(todo) =>
      assert forall i :: 0 <= i < |todo| ==> Has(todo, todo[i].id);
    case ADone =>
    case ACrash =>
  }

  lemma {:induction false} RunsAreSound(states: seq<State>, actions: seq<Action>, i: nat)
    requires IsRun(states, actions) && i < |states|
    ensures StateOk(states[i])
  {
    if i > 0 {
      RunsAreSound(states, actions, i - 1);
      NextKeeps(states[i - 1], actions[i - 1]);
    }
  }

  // ---- Claims, on the run itself ----

  /** Action `a` claims the start of window `id`, as `o`. */
  predicate ClaimsStart(s: State, a: Action, id: int, o: Opening) {
    && a.AClaimStart? && s.tick.Starting? && s.tick.todo != [] && s.tick.todo[0].id == id
    && id in s.board.rows && !s.board.rows[id].startedSent
    && o == Opening(s.tick.todo[0].ends, s.tick.now, s.tick.enabled)
  }

  predicate ClaimsEnd(s: State, a: Action, id: int, c: Closing) {
    && a.AClaimEnd? && s.tick.Ending? && s.tick.todo != [] && s.tick.todo[0].id == id
    && id in s.board.rows && !s.board.rows[id].completedSent
    && c == Closing(s.tick.todo[0].ends, s.tick.todo[0].scheduled, s.tick.enabled)
  }

  lemma {:induction false} ClaimStep(s: State, a: Action, id: int, o: Opening, c: Closing)
    requires StateOk(s) && Enabled(s, a)
    ensures var b, b' := s.board, Next(s, a).board;
            && ((id in b'.begun && b'.begun[id] == o) <==>
                ClaimsStart(s, a, id, o) || (id in b.begun && b.begun[id] == o))
            && ((id in b'.closed && b'.closed[id] == c) <==>
                ClaimsEnd(s, a, id, c) || (id in b.closed && b.closed[id] == c))
  {
    assert id in s.board.rows ==> WindowOk(s.board, id);
  }

  /** How a window was claimed is what the actions did, each claim once. */
  lemma {:induction false} ClaimsAreTheRun(
    states: seq<State>, actions: seq<Action>, n: nat, id: int, o: Opening, c: Closing)
    requires IsRun(states, actions) && n <= |actions|
    ensures var b := states[n].board;
            && ((id in b.begun && b.begun[id] == o) <==>
                exists k :: 0 <= k < n && ClaimsStart(states[k], actions[k], id, o))
            && ((id in b.closed && b.closed[id] == c) <==>
                exists k :: 0 <= k < n && ClaimsEnd(states[k], actions[k], id, c))
  {
    if n > 0 {
      ClaimsAreTheRun(states, actions, n - 1, id, o, c);
      RunsAreSound(states, actions, n - 1);
      var s, a := states[n - 1], actions[n - 1];
      assert Step(s, a, states[n - 1 + 1]);
      ClaimStep(s, a, id, o, c);
      hide IsRun, Next, ClaimsStart, ClaimsEnd, StateOk;
    }
  }

  // ---- What every run promises ----

  lemma {:induction false} HeardOne(queued: seq<Message>, j: nat, announcements: bool) returns (p: nat)
    requires j < |queued| && queued[j].kind.Scheduled? == announcements
    ensures var heard := Heard(queued, queued[j].id, announcements); p < |heard| && heard[p] == queued[j].kind
  {
    if j == |queued| - 1 {
      p := |Heard(queued[..j], queued[j].id, announcements)|;
    } else {
      p := HeardOne(queued[..|queued| - 1], j, announcements);
    }
  }

  lemma {:induction false} HeardTwo(queued: seq<Message>, j: nat, k: nat, announcements: bool) returns (p: nat, q: nat)
    requires j < k < |queued| && queued[j].id == queued[k].id
    requires queued[j].kind.Scheduled? == queued[k].kind.Scheduled? == announcements
    ensures var heard := Heard(queued, queued[j].id, announcements);
            p < q < |heard| && heard[p] == queued[j].kind && heard[q] == queued[k].kind
  {
    if k == |queued| - 1 {
      p := HeardOne(queued[..k], j, announcements);
      q := |Heard(queued[..k], queued[j].id, announcements)|;
    } else {
      p, q := HeardTwo(queued[..|queued| - 1], j, k, announcements);
    }
  }

  /** In every run a window's progress messages are exactly what its two claims owe it,
      in that order, and it has been announced exactly if its flag says so. */
  lemma {:induction false} ProgressIsOwed(states: seq<State>, actions: seq<Action>, i: nat, id: int)
    requires IsRun(states, actions) && i < |states| && id in states[i].board.rows
    ensures var b := states[i].board;
            && Progress(b.queued, id) == Owed(b, id)
            && Announcements(b.queued, id) == (if b.rows[id].scheduledSent then [Scheduled] else [])
            && (id in b.closed <==> b.rows[id].completedSent)
  {
    RunsAreSound(states, actions, i);
    assert WindowOk(states[i].board, id);
  }

  /** No message of a window is ever repeated, none follows its end message but a late
      announcement, so it gets at most one of Completed and Cancelled, and never Started
      after it. */
  lemma {:induction false} EndIsLast(states: seq<State>, actions: seq<Action>, i: nat, j: nat, k: nat)
    requires IsRun(states, actions) && i < |states|
    requires j < k < |states[i].board.queued|
    requires states[i].board.queued[j].id == states[i].board.queued[k].id
    ensures var first, second := states[i].board.queued[j].kind, states[i].board.queued[k].kind;
            && first != second
            && (first.Completed? || first.Cancelled? ==> second.Scheduled?)
  {
    RunsAreSound(states, actions, i);
    var b := states[i].board;
    assert MessageOk(b, j);
    assert WindowOk(b, b.queued[j].id);
    if b.queued[j].kind.Scheduled? == b.queued[k].kind.Scheduled? {
      var p, q := HeardTwo(b.queued, j, k, b.queued[j].kind.Scheduled?);
    }
  }

  /** A cancellation goes out only after the announcement did, and only of a window that
      did not outlast its start; a completion shows an end past its start. */
  lemma {:induction false} CancelledWasAnnounced(states: seq<State>, actions: seq<Action>, i: nat, j: nat)
    returns (k: nat)
    requires IsRun(states, actions) && i < |states|
    requires j < |states[i].board.queued| && !states[i].board.queued[j].kind.Scheduled?
    ensures var queued := states[i].board.queued;
            && (queued[j].kind.Completed? ==> queued[j].ends > queued[j].starts)
            && (queued[j].kind.Cancelled? ==>
                  && k < j && queued[k].kind.Scheduled? && queued[k].id == queued[j].id
                  && queued[j].id in states[i].board.rows
                  && states[i].board.rows[queued[j].id].ends <= states[i].board.rows[queued[j].id].starts)
  {
    RunsAreSound(states, actions, i);
    var b := states[i].board;
    assert MessageOk(b, j);
    k := 0;
    if b.queued[j].kind.Cancelled? {
      k := FirstAnnounced(b.queued[..j], b.queued[j].id);
    }
  }

  lemma {:induction false} FirstAnnounced(queued: seq<Message>, id: int) returns (k: nat)
    requires Announcements(queued, id) != []
    ensures k < |queued| && queued[k].kind.Scheduled? && queued[k].id == id
  {
    var last := queued[|queued| - 1];
    if last.id == id && last.kind.Scheduled? {
      k := |queued| - 1;
    } else {
      k := FirstAnnounced(queued[..|queued| - 1], id);
    }
  }

  /** A claimed window whose messages were on gets Completed exactly if it was read as
      ending after its start, and Cancelled exactly if not and it had been announced. */
  lemma {:induction false} ClosingIsTold(states: seq<State>, actions: seq<Action>, i: nat, id: int)
    requires IsRun(states, actions) && i < |states| && id in states[i].board.closed
    ensures var b := states[i].board;
            var c := b.closed[id];
            && id in b.rows && b.rows[id].completedSent
            && (Completed in Progress(b.queued, id) <==> c.enabled && c.ends > b.rows[id].starts)
            && (Cancelled in Progress(b.queued, id) <==> c.enabled && c.ends <= b.rows[id].starts && c.scheduled)
            && (b.rows[id].ends > b.rows[id].starts && c.enabled ==> Completed in Progress(b.queued, id))
  {
    RunsAreSound(states, actions, i);
    assert WindowOk(states[i].board, id);
  }

  /** A window claimed at its start gets Started exactly if messages were on and it was
      read as ending later than that. */
  lemma {:induction false} OpeningIsTold(states: seq<State>, actions: seq<Action>, i: nat, id: int)
    requires IsRun(states, actions) && i < |states| && id in states[i].board.rows
    ensures var b := states[i].board;
            Started in Progress(b.queued, id) <==>
              id in b.begun && b.begun[id].enabled && b.begun[id].ends > b.begun[id].now
  {
    RunsAreSound(states, actions, i);
    assert WindowOk(states[i].board, id);
  }

  /** Started can be the last a window's subscribers hear: it began at 100, was announced
      as started, and was ended within that same second, so its end does not lie past its
      start and there is no completion. Had it been planned ahead, they would hear it
      cancelled instead. */
  lemma {:induction false} StartedMayBeTheLast() returns (states: seq<State>, actions: seq<Action>)
    ensures IsRun(states, actions)
    ensures var b := states[|states| - 1].board;
            && 1 in b.rows && b.rows[1].completedSent && 1 in b.closed && b.closed[1].enabled
            && Progress(b.queued, 1) == [Started]
  {
    var due, over := [Seen(1, 100, 200, false)], [Seen(1, 100, 100, false)];
    var started := [Message(1, Started, 100, 200)];
    var w := Window(100, 200, false, false, false);
    var b1 := Board(map[1 := w], 2, [], map[], map[]);
    var b3 := Board(map[1 := w.(startedSent := true)], 2, started, map[1 := Opening(200, 100, true)], map[]);
    var b4 := b3.(rows := map[1 := w.(startedSent := true, ends := 100)]);
    var b6 := Board(map[1 := Window(100, 100, false, true, true)], 2, started, b3.begun,
        map[1 := Closing(100, false, true)]);
    actions := [ACreate(100, 200, 100), AReadDue(100, true, due), AClaimStart,
                AEnd(1, 100), AReadOver(over), AClaimEnd];
    states := [Start(), State(b1, Idle, {}), State(b1, Starting(100, true, due), {}),
               State(b3, Starting(100, true, []), {}), State(b4, Starting(100, true, []), {}),
               State(b4, Ending(100, true, over), {}), State(b6, Ending(100, true, []), {})];
    forall i | 0 <= i < 6
      ensures Enabled(states[i], actions[i]) && Next(states[i], actions[i]) == states[i + 1]
    {
      assert due[0].id == 1 && Has(due, 1) && due[1..] == [];
      assert over[0].id == 1 && Has(over, 1) && over[1..] == [];
      if i == 2 {
        assert Post([], due[0], [Started]) == started;
      } else if i == 5 {
        assert Post(started, over[0], []) == started;
      }
    }
    hide Enabled, Next;
    HeardMore([], started[0], 1, false);
  }

  // ---- One whole tick ----

  function AfterStarts(b: Board, todo: seq<Seen>, now: int, enabled: bool): Board {
    if todo == [] then b
    else ClaimStart(AfterStarts(b, todo[..|todo| - 1], now, enabled), todo[|todo| - 1], now, enabled)
  }

  function AfterEnds(b: Board, todo: seq<Seen>, enabled: bool): Board {
    if todo == [] then b
    else ClaimEnd(AfterEnds(b, todo[..|todo| - 1], enabled), todo[|todo| - 1], enabled)
  }

  /** A window after an undisturbed tick: claimed if it was due. */
  function Ticked(w: Window, now: int): Window {
    w.(startedSent := w.startedSent || w.starts <= now || Over(w, now),
       completedSent := w.completedSent || w.ends <= now)
  }

  /** What an undisturbed tick owes a window's subscribers. */
  function TickNews(w: Window, now: int, enabled: bool): seq<Kind> {
    if !enabled then []
    else if Over(w, now) then
      if w.ends > w.starts then [Completed] else if w.scheduledSent then [Cancelled] else []
    else if Due(w, now) && w.ends > now then [Started]
    else []
  }

  lemma {:induction false} HasMore(todo: seq<Seen>, id: int)
    requires todo != []
    ensures Has(todo, id) <==> Has(todo[..|todo| - 1], id) || todo[|todo| - 1].id == id
  {
    if Has(todo, id) && todo[|todo| - 1].id != id {
      var i :| 0 <= i < |todo| && todo[i].id == id;
      assert todo[..|todo| - 1][i].id == id;
    }
    if Has(todo[..|todo| - 1], id) {
      var i :| 0 <= i < |todo| - 1 && todo[..|todo| - 1][i].id == id;
      assert todo[i].id == id;
    }
  }

  lemma {:induction false} StartsEffect(b: Board, todo: seq<Seen>, now: int, enabled: bool, id: int)
    requires id in b.rows && Lists(todo, b)
    requires forall i :: 0 <= i < |todo| ==> Due(b.rows[todo[i].id], now)
    ensures var c, w := AfterStarts(b, todo, now, enabled), b.rows[id];
            && c.rows.Keys == b.rows.Keys
            && c.rows[id] == (if Has(todo, id) then w.(startedSent := true) else w)
            && Announcements(c.queued, id) == Announcements(b.queued, id)
            && Progress(c.queued, id)
                 == Progress(b.queued, id) + (if Has(todo, id) && w.ends > now && enabled then [Started] else [])
  {
    if todo != [] {
      var front, m := todo[..|todo| - 1], todo[|todo| - 1];
      var mid := AfterStarts(b, front, now, enabled);
      StartsEffect(b, front, now, enabled, id);
      StartsEffect(b, front, now, enabled, m.id);
      HasMore(todo, id);
      NotTwice(todo);
      PostHeard(mid.queued, m, StartNews(Opening(m.ends, now, enabled)), id);
    }
  }

  lemma {:induction false} NotTwice(todo: seq<Seen>)
    requires todo != [] && forall i, j :: 0 <= i < j < |todo| ==> todo[i].id != todo[j].id
    ensures !Has(todo[..|todo| - 1], todo[|todo| - 1].id)
  {
  }

  lemma {:induction false} EndsEffect(b: Board, todo: seq<Seen>, now: int, enabled: bool, id: int)
    requires id in b.rows && Lists(todo, b)
    requires forall i :: 0 <= i < |todo| ==> Over(b.rows[todo[i].id], now)
    ensures var c, w := AfterEnds(b, todo, enabled), b.rows[id];
            && c.rows.Keys == b.rows.Keys
            && c.rows[id] == (if Has(todo, id) then w.(startedSent := true, completedSent := true) else w)
            && Announcements(c.queued, id) == Announcements(b.queued, id)
            && Progress(c.queued, id)
                 == Progress(b.queued, id) + (if Has(todo, id) then TickNews(w, now, enabled) else [])
  {
    if todo != [] {
      var front, m := todo[..|todo| - 1], todo[|todo| - 1];
      var mid := AfterEnds(b, front, enabled);
      EndsEffect(b, front, now, enabled, id);
      EndsEffect(b, front, now, enabled, m.id);
      HasMore(todo, id);
      NotTwice(todo);
      hide Has, Announcements, Progress, Heard, Post;
      PostHeard(mid.queued, m, EndNews(Closing(m.ends, m.scheduled, enabled), m.starts), id);
    }
  }

  /** An undisturbed tick leaves no due window unclaimed, and queues for each window
      exactly what it is owed. */
  lemma {:induction false} TickIsExact(b: Board, due: seq<Seen>, over: seq<Seen>, now: int, enabled: bool, id: int)
    requires id in b.rows && ListsDue(due, b, now) && ListsOver(over, AfterStarts(b, due, now, enabled), now)
    ensures var c := AfterEnds(AfterStarts(b, due, now, enabled), over, enabled);
            && c.rows.Keys == b.rows.Keys
            && c.rows[id] == Ticked(b.rows[id], now)
            && !Due(c.rows[id], now) && !Over(c.rows[id], now)
            && Announcements(c.queued, id) == Announcements(b.queued, id)
            && Progress(c.queued, id) == Progress(b.queued, id) + TickNews(b.rows[id], now, enabled)
  {
    assert forall i :: 0 <= i < |due| ==> Has(due, due[i].id);
    assert forall i :: 0 <= i < |over| ==> Has(over, over[i].id);
    StartsEffect(b, due, now, enabled, id);
    EndsEffect(AfterStarts(b, due, now, enabled), over, now, enabled, id);
  }

  lemma {:induction false} StartsAreARun(s: State, due: seq<Seen>, now: int, enabled: bool, k: nat)
    returns (actions: seq<Action>)
    requires s.tick.Idle? && ListsDue(due, s.board, now) && k <= |due|
    ensures Leads(Step, s, actions,
            s.(board := AfterStarts(s.board, due[..k], now, enabled), tick := Starting(now, enabled, due[k..])))
  {
    if k == 0 {
      LeadsNowhere(Step, s);
      LeadsOn(Step, s, [], s, AReadDue(now, enabled, due), s.(tick := Starting(now, enabled, due)));
      actions := [] + [AReadDue(now, enabled, due)];
    } else {
      var front := StartsAreARun(s, due, now, enabled, k - 1);
      assert due[..k][..k - 1] == due[..k - 1];
      var mid := s.(board := AfterStarts(s.board, due[..k - 1], now, enabled),
          tick := Starting(now, enabled, due[k - 1..]));
      LeadsOn(Step, s, front, mid, AClaimStart, Next(mid, AClaimStart));
      actions := front + [AClaimStart];
    }
  }

  /** What ending a window comes to: the next undisturbed tick, whenever it is, closes it and
      tells subscribers it is completed exactly if it had begun, cancelled exactly if it
      had not and they knew of it, and never that it started. */
  lemma {:induction false} EndIsHeard(
    b: Board, id: int, now: int, due: seq<Seen>, over: seq<Seen>, later: int, enabled: bool)
    requires id in b.rows && !b.rows[id].completedSent && b.rows[id].ends > now && now <= later
    requires ListsDue(due, End(b, id, now), later)
    requires ListsOver(over, AfterStarts(End(b, id, now), due, later, enabled), later)
    ensures var c, w := AfterEnds(AfterStarts(End(b, id, now), due, later, enabled), over, enabled), b.rows[id];
            && c.rows.Keys == b.rows.Keys
            && c.rows[id] == w.(ends := now, startedSent := true, completedSent := true)
            && Announcements(c.queued, id) == Announcements(b.queued, id)
            && Progress(c.queued, id) == Progress(b.queued, id)
               + (if !enabled then [] else if w.starts < now then [Completed] else if w.scheduledSent then [Cancelled]
                   else [])
  {
    TickIsExact(End(b, id, now), due, over, later, enabled, id);
  }

  /** The tick of `MaintenanceStore` is a path of the machine, so what is proved of runs holds of it. */
  lemma {:induction false} TickIsARun(s: State, due: seq<Seen>, over: seq<Seen>, now: int, enabled: bool, k: nat)
    returns (actions: seq<Action>)
    requires s.tick.Idle? && ListsDue(due, s.board, now)
            && ListsOver(over, AfterStarts(s.board, due, now, enabled), now)
    requires k <= |over|
    ensures var b := AfterEnds(AfterStarts(s.board, due, now, enabled), over[..k], enabled);
            Leads(Step, s, actions, s.(board := b, tick := Ending(now, enabled, over[k..])))
  {
    var mid := AfterStarts(s.board, due, now, enabled);
    if k == 0 {
      var front := StartsAreARun(s, due, now, enabled, |due|);
      assert due[..|due|] == due && due[|due|..] == [] && over[..0] == [];
      var ready := s.(board := mid, tick := Starting(now, enabled, []));
      LeadsOn(Step, s, front, ready, AReadOver(over), Next(ready, AReadOver(over)));
      actions := front + [AReadOver(over)];
    } else {
      var front := TickIsARun(s, due, over, now, enabled, k - 1);
      assert over[..k][..k - 1] == over[..k - 1];
      var before := s.(board := AfterEnds(mid, over[..k - 1], enabled), tick := Ending(now, enabled, over[k - 1..]));
      LeadsOn(Step, s, front, before, AClaimEnd, Next(before, AClaimEnd));
      actions := front + [AClaimEnd];
    }
  }
}
