// Every transaction keeps the tables sound, and none but the dispatcher's own writes
// touches a queued row other than by deleting it.

module LedgerInvariants {
  import opened Basics
  import opened FailureWindow
  import opened Ledger

  /** What a transaction outside the dispatcher may do to the outbox: delete rows and
      add untried ones under new ids. */
  ghost predicate OutboxFrame(a: Db, b: Db) {
    && a.nextRow <= b.nextRow
    && a.nextSub <= b.nextSub
    && (forall r :: r in b.outbox && r < a.nextRow ==> r in a.outbox && b.outbox[r] == a.outbox[r])
    && (forall r :: r in b.outbox && r >= a.nextRow ==> b.outbox[r].attempts == 0 && b.outbox[r].Undelivered())
  }

  lemma {:induction false} RemoveSubsKeeps(db: Db, gone: set<int>)
    requires TablesOk(db)
    ensures TablesOk(RemoveSubs(db, gone))
    ensures OutboxFrame(db, RemoveSubs(db, gone))
  {
  }

  /** Sound but for the link of row `id`, as halfway through a sign-up. */
  ghost predicate SoundButLinkOf(db: Db, id: int) {
    && RefsOk(db) && AddressesUnique(db) && PlaceholdersOwn(db) && PendingIsQuiet(db) && OneConfirmation(db)
    && id in db.subs
    && db.subs[id].unsubHash == UnsubscribeToken(id, db.subs[id].createdAt)
    && (forall j :: j in db.subs && j != id ==> TokensOfRow(j, db.subs[j]))
  }

  lemma {:induction false} IssueLinkKeeps(db: Db, form: SignUpForm, id: int, now: int)
    requires SoundButLinkOf(db, id)
    ensures TablesOk(IssueLink(db, form, id, now))
    ensures OutboxFrame(db, IssueLink(db, form, id, now))
  {
  }

  lemma {:induction false} InsertPendingKeeps(db: Db, form: SignUpForm, now: int)
    requires TablesOk(db) && form.address.Known?
    requires forall j :: !Lives(db.subs, j, form.channel, form.address)
    ensures SoundButLinkOf(InsertPending(db, form, now), db.nextSub)
    ensures OutboxFrame(db, InsertPending(db, form, now))
  {
    var after := InsertPending(db, form, now);
    forall i, j | i in after.subs && j in after.subs && i != j
      ensures !(after.subs[i].channel == after.subs[j].channel && after.subs[i].address == after.subs[j].address)
    {
      assert !Lives(db.subs, i, form.channel, form.address);
      assert !Lives(db.subs, j, form.channel, form.address);
    }
  }

  lemma {:induction false} ResetPendingKeeps(db: Db, form: SignUpForm, id: int)
    requires TablesOk(db) && id in db.subs && !db.subs[id].status.Active?
    ensures SoundButLinkOf(ResetPending(db, form, id), id)
    ensures OutboxFrame(db, ResetPending(db, form, id))
  {
  }

  lemma {:induction false} SignUpKeeps(db: Db, form: SignUpForm, now: int)
    requires TablesOk(db) && form.address.Known?
    ensures TablesOk(SignUp(db, form, now))
    ensures OutboxFrame(db, SignUp(db, form, now))
  {
    match FindAddress(db.subs, form.channel, form.address)
    case None =>
      InsertPendingKeeps(db, form, now);
      IssueLinkKeeps(InsertPending(db, form, now), form, db.nextSub, now);
    case Some(id) =>
      if !Suppressed(db.subs[id], now) {
        ResetPendingKeeps(db, form, id);
        IssueLinkKeeps(ResetPending(db, form, id), form, id, now);
      }
  }

  lemma {:induction false} SignUpByLinkKeeps(db: Db, form: SignUpForm, now: int)
    requires TablesOk(db)
    ensures TablesOk(SignUpByLink(db, form, now))
    ensures OutboxFrame(db, SignUpByLink(db, form, now))
  {
  }

  lemma {:induction false} ConfirmKeeps(db: Db, token: Token, now: int)
    requires TablesOk(db)
    ensures TablesOk(Confirm(db, token, now))
    ensures OutboxFrame(db, Confirm(db, token, now))
  {
  }

  lemma {:induction false} LinkChatKeeps(db: Db, token: Token, chat: string, now: int)
    requires TablesOk(db)
    ensures TablesOk(LinkChat(db, token, chat, now))
    ensures OutboxFrame(db, LinkChat(db, token, chat, now))
  {
    if LinkResult(db, token, now) == Subscribed {
      var p := FindLink(db.subs, token).value;
      match FindAddress(db.subs, TELEGRAM, Known(chat))
      case Some(id) =>
        var s := db.subs[id].(allComponents := db.subs[p].allComponents,
                              maintenance := db.subs[p].maintenance,
                              components := db.subs[p].components,
                              status := Active, confirmedAt := Some(now),
                              window := ZERO, quarantinedAt := None);
        var db1 := db.(subs := db.subs[id := s]);
        assert TablesOk(db1);
        RemoveSubsKeeps(db1, {p});
      case None =>
        assert forall j :: j in db.subs ==> !Lives(db.subs, j, TELEGRAM, Known(chat));
    }
  }

  lemma {:induction false} FanOutRows(db: Db, e: Event, order: seq<int>, now: int)
    requires TablesOk(db) && Lists(order, Recipients(db.subs, e))
    ensures var after := FanOut(db, e, order, now);
            && (forall r :: r in db.outbox ==> r in after.outbox && after.outbox[r] == db.outbox[r])
            && after.nextRow == db.nextRow + |order|
            && (forall r :: db.nextRow <= r < after.nextRow ==> r in after.outbox && r !in db.outbox)
            && (forall r :: r in after.outbox && r !in db.outbox ==>
                  && db.nextRow <= r < after.nextRow
                  && after.outbox[r] == Row(order[r - db.nextRow], News(e), now, now, 0, None, None)
                  && after.outbox[r].sub in db.subs && db.subs[after.outbox[r].sub].status.Active?)
  {
  }

  lemma {:induction false} FanOutKeeps(db: Db, e: Event, order: seq<int>, now: int)
    requires TablesOk(db) && Lists(order, Recipients(db.subs, e))
    ensures TablesOk(FanOut(db, e, order, now))
    ensures OutboxFrame(db, FanOut(db, e, order, now))
  {
    FanOutRows(db, e, order, now);
  }

  lemma {:induction false} PruneKeeps(db: Db, now: int)
    requires TablesOk(db)
    ensures TablesOk(PruneRows(db, now)) && OutboxFrame(db, PruneRows(db, now))
    ensures TablesOk(PrunePending(db, now)) && OutboxFrame(db, PrunePending(db, now))
    ensures TablesOk(PruneQuarantined(db, now)) && OutboxFrame(db, PruneQuarantined(db, now))
  {
    PruneRowsKeeps(db, now);
    hide TablesOk, PruneRows, OutboxFrame;
    RemoveSubsKeeps(db, LapsedSubs(db, now));
    RemoveSubsKeeps(db, ExpelledSubs(db, now));
  }

  lemma {:induction false} PruneRowsKeeps(db: Db, now: int)
    requires TablesOk(db)
    ensures TablesOk(PruneRows(db, now)) && OutboxFrame(db, PruneRows(db, now))
  {
  }

  // ---- The dispatcher's own writes ----

  lemma {:induction false} MarksKeep(db: Db, row: int, attempts: nat, t: int)
    requires TablesOk(db)
    ensures TablesOk(MarkSent(db, row, attempts, t))
    ensures TablesOk(MarkFailed(db, row, attempts, t))
    ensures TablesOk(Reschedule(db, row, attempts, t))
    ensures TablesOk(GiveUp(db, row, t))
  {
  }

  lemma {:induction false} CountersKeep(db: Db, sid: int, now: int)
    requires TablesOk(db)
    ensures TablesOk(Count(db, sid, now))
    ensures TablesOk(Quarantine(db, sid, now))
    ensures TablesOk(ClearFailures(db, sid))
  {
  }

  // ---- What the transactions are for ----

  /** What may still be delivered to the subscriber a link is issued to is the confirmation. */
  lemma {:induction false} OnlyTheConfirmation(db: Db, form: SignUpForm, now: int, r: int)
    requires TablesOk(db) && SignUpTarget(db, form, now).Some?
    ensures var after, id := SignUp(db, form, now), SignUpTarget(db, form, now).value;
            && (r in after.outbox && after.outbox[r].sub == id && after.outbox[r].Undelivered() ==>
                  r == db.nextRow && after.outbox[r].kind.Confirmation?)
            && (r in db.outbox && db.outbox[r].sub != id ==> r in after.outbox && after.outbox[r] == db.outbox[r])
  {
    hide AddressesUnique, TokensOk, PlaceholdersOwn, OneConfirmation;
  }

  /** A sign-up that issues a link leaves exactly one unsent confirmation for that
      subscriber, nothing undelivered from before its quarantine, the new choices, and
      a link good for a day. Any other leaves the tables as they were. */
  lemma {:induction false} SignUpIssues(db: Db, form: SignUpForm, now: int)
    requires TablesOk(db) && form.address.Known?
    ensures var after := SignUp(db, form, now);
            match SignUpTarget(db, form, now)
            case None => after == db
            case Some(id) =>
              && id in after.subs
              && Lives(after.subs, id, form.channel, form.address)
              && after.subs[id].components == form.Chosen()
              && after.subs[id].allComponents == form.allComponents
              && after.subs[id].maintenance == form.maintenance
              && after.subs[id].status.Pending?
              && after.subs[id].window == ZERO
              && Confirmable(after.subs[id], ConfirmToken(id, now + CONFIRM_TTL_SECS), now)
              && (forall r :: r in after.outbox && after.outbox[r].sub == id && after.outbox[r].Undelivered() ==>
                    r == db.nextRow && after.outbox[r].kind.Confirmation?)
              && db.nextRow in after.outbox
              && (forall j :: j in db.subs && j != id ==> j in after.subs && after.subs[j] == db.subs[j])
              && (forall r :: r in db.outbox && db.outbox[r].sub != id ==>
                   r in after.outbox && after.outbox[r] == db.outbox[r])
  {
    hide PendingIsQuiet, AddressesUnique, OneConfirmation, PlaceholdersOwn, TokensOk;
    if SignUpTarget(db, form, now).Some? {
      var after, id := SignUp(db, form, now), SignUpTarget(db, form, now).value;
      forall r
        ensures r in after.outbox && after.outbox[r].sub == id && after.outbox[r].Undelivered() ==>
                  r == db.nextRow && after.outbox[r].kind.Confirmation?
        ensures r in db.outbox && db.outbox[r].sub != id ==> r in after.outbox && after.outbox[r] == db.outbox[r]
      {
        OnlyTheConfirmation(db, form, now, r);
      }
    }
  }

}
