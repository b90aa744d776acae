// The maintenance table and its tick, statement by statement (src/subscriptions/mod.rs,
// src/db.rs, src/web.rs). `Maintenance` has the transactions as functions and proves
// what they promise.

module MaintenanceStores {
  import opened Basics
  import opened Maintenance
  import M = Maintenance

  /** No window is longer than a year, or starts further out. */
  const MAX_SECS := 366 * 86400

  function Clamp(x: int, low: int, high: int): int {
    Min(Max(x, low), high)
  }

  /** The order of a query: by start for windows due, by end for those over. */
  function Key(m: Seen, over: bool): int {
    if over then m.ends else m.starts
  }

  ghost predicate Sorted(todo: seq<Seen>, over: bool) {
    forall i, j :: 0 <= i < j < |todo| ==> Key(todo[i], over) <= Key(todo[j], over)
  }

  lemma PlacedHas(todo: seq<Seen>, m: Seen, p: nat, b: Board)
    requires p <= |todo| && M.Lists(todo, b) && m.id in b.rows && m == See(b, m.id) && !Has(todo, m.id)
    ensures M.Lists(todo[..p] + [m] + todo[p..], b)
    ensures forall id :: Has(todo[..p] + [m] + todo[p..], id) <==> Has(todo, id) || id == m.id
  {
    var r := todo[..p] + [m] + todo[p..];
    forall id
      ensures Has(r, id) <==> Has(todo, id) || id == m.id
    {
      if Has(todo, id) {
        var i :| 0 <= i < |todo| && todo[i].id == id;
        assert r[if i < p then i else i + 1].id == id;
      }
      assert r[p].id == m.id;
    }
  }

  lemma PlacedSorted(todo: seq<Seen>, m: Seen, p: nat, over: bool)
    requires p <= |todo| && Sorted(todo, over)
    requires forall i :: 0 <= i < p ==> Key(todo[i], over) <= Key(m, over)
    requires p < |todo| ==> Key(m, over) < Key(todo[p], over)
    ensures Sorted(todo[..p] + [m] + todo[p..], over)
  {
  }

  /** A tick changes no time of a window; it is claimed as started once its start has come,
      or its end, and as over once its end has. */
  predicate TickLeaves(w: Window, v: Window, now: int) {
    && v.starts == w.starts && v.ends == w.ends && v.scheduledSent == w.scheduledSent
    && (v.startedSent <==> w.startedSent || w.starts <= now || (w.ends <= now && !w.completedSent))
    && (v.completedSent <==> w.completedSent || w.ends <= now)
  }

  /** What its subscribers hear: that it is over, or was called off, if its end has come and
      was not claimed before; otherwise that it has started, if its start has. */
  function NewsDue(w: Window, now: int, enabled: bool): seq<Kind> {
    if !enabled then []
    else if w.ends <= now then
      if w.completedSent then []
      else if w.starts < w.ends then [Completed]
      else if w.scheduledSent then [Cancelled]
      else []
    else if w.starts <= now && !w.startedSent then [Started]
    else []
  }

  class MaintenanceStore {
    var rows: map<int, Window>
    var nextId: int
    var queued: seq<Message>
    ghost var begun: map<int, Opening>
    ghost var closed: map<int, Closing>

    ghost function Contents(): Board
      reads this
    {
      Board(rows, nextId, queued, begun, closed)
    }

    constructor ()
      ensures Contents() == Blank()
    {
      rows, nextId, queued := map[], 1, [];
      begun, closed := map[], map[];
    }

    /** /manage: a window from the form's times, announced if it is planned for later
        and messages are on. */
    method StartMaintenance(starts: int, minutes: int, now: int, enabled: bool) returns (id: int)
      modifies this
      ensures id == old(nextId) && id in rows
      ensures now <= rows[id].starts <= now + MAX_SECS && 60 <= rows[id].ends - rows[id].starts <= MAX_SECS
      ensures rows[id].starts == if starts < now then now
                                 else if starts > now + MAX_SECS then now + MAX_SECS else starts
      ensures rows[id].ends == rows[id].starts + if minutes < 1 then 60
                                                 else if minutes > MAX_SECS / 60 then MAX_SECS else minutes * 60
      ensures rows[id].scheduledSent <==> enabled && rows[id].starts > now
      ensures !rows[id].startedSent && !rows[id].completedSent
      ensures rows.Keys == old(rows).Keys + {id} && forall x :: x in old(rows) && x != id ==> rows[x] == old(rows)[x]
      ensures queued == old(queued) + if enabled && rows[id].starts > now
                                      then [Message(id, Scheduled, rows[id].starts, rows[id].ends)] else []
      ensures var from, until := Clamp(starts, now, now + MAX_SECS), Clamp(minutes, 1, MAX_SECS / 60) * 60;
              var created := Create(old(Contents()), from, from + until);
              Contents() == if from > now && enabled then Publish(created, id, from + until) else created
    {
      var duration := Clamp(minutes, 1, MAX_SECS / 60) * 60;
      var from := Clamp(starts, now, now + MAX_SECS);
      id := nextId;
      rows := rows[id := Window(from, from + duration, false, false, false)];
      nextId := nextId + 1;
      if from > now && enabled {
        rows := rows[id := rows[id].(scheduledSent := true)];
        queued := queued + [Message(id, Scheduled, from, from + duration)];
      }
    }

    /** From `now` on the window no longer runs; a flag or a time of another never changes. */
    method EndMaintenance(id: int, now: int) returns (ended: bool)
      modifies this
      ensures rows.Keys == old(rows).Keys && queued == old(queued)
      ensures forall x :: x in rows ==>
              rows[x] == old(rows)[x].(ends := if x == id then Min(old(rows)[x].ends, now) else old(rows)[x].ends)
      ensures id in rows ==> rows[id].ends <= now
      ensures Contents() == End(old(Contents()), id, now)
      ensures ended <==> id in old(rows) && old(rows)[id].ends > now
    {
      ended := id in rows && rows[id].ends > now;
      if ended {
        rows := rows[id := rows[id].(ends := now)];
      }
    }

    /** The rows one of the tick's queries returns. */
    method Select(now: int, over: bool) returns (todo: seq<Seen>)
      ensures over ==> ListsOver(todo, Contents(), now)
      ensures !over ==> ListsDue(todo, Contents(), now)
      ensures forall id :: Has(todo, id) <==>
                && id in rows
                && (if over then !rows[id].completedSent && rows[id].ends <= now
                    else !rows[id].startedSent && rows[id].starts <= now)
    {
      var left := set id | id in rows && (if over then Over(rows[id], now) else Due(rows[id], now));
      ghost var all := left;
      todo := [];
      hide Sorted, M.Lists, Has;
      while left != {}
        invariant left <= all && M.Lists(todo, Contents()) && Sorted(todo, over)
        invariant forall id :: Has(todo, id) <==> id in all && id !in left
        decreases left
      {
        assert (forall x :: x !in left) ==> left == {};
        var id :| id in left;
        var m := Seen(id, rows[id].starts, rows[id].ends, rows[id].scheduledSent);
        var p := 0;
        while p < |todo| && Key(todo[p], over) <= Key(m, over)
          invariant p <= |todo|
          invariant forall i :: 0 <= i < p ==> Key(todo[i], over) <= Key(m, over)
        {
          p := p + 1;
        }
        PlacedHas(todo, m, p, Contents());
        PlacedSorted(todo, m, p, over);
        todo := todo[..p] + [m] + todo[p..];
        left := left - {id};
      }
    }

    /** The tick's first loop. */
    method ClaimDue(due: seq<Seen>, now: int, enabled: bool)
      modifies this
      ensures Contents() == AfterStarts(old(Contents()), due, now, enabled) && rows.Keys == old(rows).Keys
    {
      for i := 0 to |due|
        invariant Contents() == AfterStarts(old(Contents()), due[..i], now, enabled) && rows.Keys == old(rows).Keys
      {
        var m := due[i];
        assert due[..i + 1][..i] == due[..i];
        if m.id in rows && !rows[m.id].startedSent {
          rows := rows[m.id := rows[m.id].(startedSent := true)];
          begun := begun[m.id := Opening(m.ends, now, enabled)];
          if m.ends > now && enabled {
            queued := queued + [Message(m.id, Started, m.starts, m.ends)];
          }
        }
      }
      assert due[..|due|] == due;
    }

    /** The tick's second loop. */
    method ClaimOver(over: seq<Seen>, enabled: bool)
      modifies this
      ensures Contents() == AfterEnds(old(Contents()), over, enabled) && rows.Keys == old(rows).Keys
    {
      for i := 0 to |over|
        invariant Contents() == AfterEnds(old(Contents()), over[..i], enabled) && rows.Keys == old(rows).Keys
      {
        var m := over[i];
        assert over[..i + 1][..i] == over[..i];
        if m.id in rows && !rows[m.id].completedSent {
          rows := rows[m.id := rows[m.id].(startedSent := true, completedSent := true)];
          closed := closed[m.id := Closing(m.ends, m.scheduled, enabled)];
          if enabled {
            if m.ends > m.starts {
              queued := queued + [Message(m.id, Completed, m.starts, m.ends)];
            } else if m.scheduled {
              queued := queued + [Message(m.id, Cancelled, m.starts, m.ends)];
            }
          }
        }
      }
      assert over[..|over|] == over;
    }

    /** Claim what is due and what is over, and queue what is owed for it. Every window
        ends up claimed, with exactly the messages `TickNews` names. */
    method Tick(now: int, enabled: bool) returns (due: seq<Seen>, over: seq<Seen>)
      modifies this
      ensures ListsDue(due, old(Contents()), now)
      ensures ListsOver(over, AfterStarts(old(Contents()), due, now, enabled), now)
      ensures Contents() == AfterEnds(AfterStarts(old(Contents()), due, now, enabled), over, enabled)
      ensures rows.Keys == old(rows).Keys
      ensures forall id :: id in rows ==>
                && rows[id] == Ticked(old(rows)[id], now)
                && Announcements(queued, id) == Announcements(old(queued), id)
                && Progress(queued, id) == Progress(old(queued), id) + TickNews(old(rows)[id], now, enabled)
      ensures forall id :: id in rows ==> TickLeaves(old(rows)[id], rows[id], now)
      ensures forall id :: id in rows ==>
                Progress(queued, id) == Progress(old(queued), id) + NewsDue(old(rows)[id], now, enabled)
    {
      due := Select(now, false);
      ClaimDue(due, now, enabled);
      over := Select(now, true);
      ClaimOver(over, enabled);
      forall id | id in rows {
        TickIsExact(old(Contents()), due, over, now, enabled, id);
      }
    }
  }
}
