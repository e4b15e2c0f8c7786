/** Whether the audit log, read by id, tells what the bindings table says, over every schedule of
    redeems and everything else. A sign out or a removal of the device that is recorded after a
    redeem's row and before its commit is the one way it can stop to: neither sees the row that the
    redeem is about to turn on. */
module InviteLog {
  import opened Common
  import opened Access
  import opened AuditIds
  import opened Invites
  import AccessProofs
  import Authority
  import Locks

  /** After the redeem's own row the log has one that ends every binding of the device. */
  predicate Swept(ids: Ids, id: nat, device: string) {
    ids != [] &&
    var last := ids[|ids| - 1];
    last.owner != Some(id) && (Sweeps(last, device) || Swept(ids[..|ids| - 1], id, device))
  }

  predicate Sweeps(entry: Entry, device: string) {
    && entry.owner.None? && entry.event.device == device
    && (entry.event.action == DeviceRemoved || entry.event.action == DeviceUnenrolled)
  }

  /** Nothing has ended the bindings of the device since the redeem inserted its row. */
  predicate Timely(s: State, id: nat)
    requires id in s.txs && s.txs[id].pc.Audited?
  {
    !Swept(s.ids, id, s.txs[id].pc.device)
  }

  /** An open redeem's place in the log is its own audit row, and it has one only once it has inserted
      it. */
  ghost predicate Placed(s: State) {
    forall i, id :: 0 <= i < |s.ids| && s.ids[i].owner == Some(id) ==>
      id in s.txs && s.txs[id].pc.Audited? && s.ids[i].event == AuditRow(s.txs[id])
  }

  predicate Bound(s: State, id: nat) {
    id in s.txs && Binds(s.txs[id].pc)
  }

  /** Open redeems have written different binding rows. */
  ghost predicate Apart(s: State) {
    forall x, y :: Bound(s, x) && Bound(s, y) && RowOf(s.txs[x]) == RowOf(s.txs[y]) ==> x == y
  }

  /** What the log will say of its binding once an open redeem has committed. */
  ghost predicate Foretold(uuid: Cast, s: State, id: nat)
    requires id in s.txs && s.txs[id].pc.Audited?
  {
    StandingAfter(uuid, Visible(s.ids, Some(id)), RowOf(s.txs[id])) == Some((s.txs[id].pc.role, Timely(s, id)))
  }

  ghost predicate LogInv(uuid: Cast, s: State) {
    && Inv(uuid, s) && Placed(s) && Apart(s)
    && Agrees(uuid, s.db.bindings, Visible(s.ids, None))
    && forall id :: id in s.txs && s.txs[id].pc.Audited? ==> Foretold(uuid, s, id)
  }

  lemma {:induction false} SweptMore(ids: Ids, entry: Entry, id: nat, device: string)
    ensures Swept(ids + [entry], id, device) <==>
      entry.owner != Some(id) && (Sweeps(entry, device) || Swept(ids, id, device))
  {
    assert (ids + [entry])[..|ids|] == ids;
  }

  /** The commit of a redeem sweeps nothing. */
  lemma {:induction false} SweptPublished(ids: Ids, mine: nat, id: nat, device: string)
    requires mine != id
    requires forall i :: 0 <= i < |ids| && ids[i].owner == Some(mine) ==> ids[i].event.action == InviteRedeemed
    ensures Swept(Published(ids, mine), id, device) == Swept(ids, id, device)
  {
    if ids != [] {
      SweptPublished(ids[..|ids| - 1], mine, id, device);
      assert Published(ids, mine)[..|ids| - 1] == Published(ids[..|ids| - 1], mine);
    }
  }

  lemma {:induction false} SweptDropped(ids: Ids, mine: nat, id: nat, device: string)
    requires mine != id
    ensures Swept(Dropped(ids, mine), id, device) == Swept(ids, id, device)
  {
    if ids != [] {
      var init, last := ids[..|ids| - 1], ids[|ids| - 1];
      SweptDropped(init, mine, id, device);
      if last.owner != Some(mine) {
        SweptMore(Dropped(init, mine), last, id, device);
      }
    }
  }

  // ----- the other handlers

  lemma NewRowIs(uuid: Cast, s: State, req: Request, row: Option<Event>, mine: Option<nat>)
    requires Step(uuid, s.db, req).next.audit == s.db.audit + (if row.Some? then [row.value] else [])
    ensures RunOther(uuid, s, req).ids == if row.Some? then s.ids + [Entry(row.value, None)] else s.ids
    ensures Visible(RunOther(uuid, s, req).ids, mine) ==
      if row.Some? then Visible(s.ids, mine) + [row.value] else Visible(s.ids, mine)
  {
    if row.Some? {
      VisibleMore(s.ids, Entry(row.value, None), mine);
    } else {
      assert s.ids + [] == s.ids;
    }
  }

  lemma OtherAgrees(uuid: Cast, s: State, req: Request, row: Option<Event>)
    requires Agrees(uuid, s.db.bindings, Visible(s.ids, None))
    requires var next := Step(uuid, s.db, req).next;
      && next.audit == s.db.audit + (if row.Some? then [row.value] else [])
      && (row.None? ==> next.bindings == s.db.bindings)
      && (row.Some? ==> next.bindings == AccessProofs.ApplyEvent(uuid, s.db.bindings, row.value, |s.db.audit|))
    ensures var next := RunOther(uuid, s, req); Agrees(uuid, next.db.bindings, Visible(next.ids, None))
  {
    NewRowIs(uuid, s, req, row, None);
    var next := RunOther(uuid, s, req);
    forall r ensures StandingAfter(uuid, Visible(next.ids, None), r) == StandingIn(next.db.bindings, r) {
      if row.Some? {
        StandingMore(uuid, Visible(s.ids, None), row.value, r);
        ApplyIsApplyEvent(uuid, s.db.bindings, row.value, |s.db.audit|, r);
      }
    }
  }

  /** The binding an open redeem has written is locked, so all another handler can record about it is
      that the whole device was ended. */
  lemma OnlySweeps(uuid: Cast, s: State, req: Request, e: Event, id: nat)
    requires Inv(uuid, s) && OtherGoes(uuid, s, req) && Step(uuid, s.db, req).next.audit == s.db.audit + [e]
    requires Authority.Authorised(uuid, s.db.bindings, e)
    requires id in s.txs && s.txs[id].pc.Audited? && Concerns(uuid, e, RowOf(s.txs[id]))
    ensures Sweeps(Entry(e, None), s.txs[id].pc.device)
  {
    var row := RowOf(s.txs[id]);
    assert TxOk(uuid, s, id) && row in HeldRows(s);
    RowSource(uuid, s.db, req, e);
    if e.action == BindingRevoked {
      assert Locks.WouldWrite(s.db, HeldRows(s), row);
      LeaverIsCanonical(uuid, s.db, req);
    } else if e.action == InviteRedeemed {
      Authority.RedeemedRow(uuid, s.db, req, e);
    }
  }

  lemma LeaverIsCanonical(uuid: Cast, t: Tables, req: Request)
    requires AccessProofs.AccountsCanonical(uuid, t)
    ensures req.DoLeave? && Step(uuid, t, req).next != t ==> uuid(req.actor) == Some(req.actor)
  {
  }

  lemma OtherForetells(uuid: Cast, s: State, req: Request, row: Option<Event>, id: nat)
    requires Inv(uuid, s) && OtherGoes(uuid, s, req)
    requires Step(uuid, s.db, req).next.audit == s.db.audit + (if row.Some? then [row.value] else [])
    requires row.Some? ==> Authority.Authorised(uuid, s.db.bindings, row.value)
    requires id in s.txs && s.txs[id].pc.Audited? && Foretold(uuid, s, id)
    ensures Foretold(uuid, RunOther(uuid, s, req), id)
  {
    NewRowIs(uuid, s, req, row, Some(id));
    if row.Some? {
      var r, e := RowOf(s.txs[id]), row.value;
      StandingMore(uuid, Visible(s.ids, Some(id)), e, r);
      SweptMore(s.ids, Entry(e, None), id, s.txs[id].pc.device);
      if Concerns(uuid, e, r) {
        OnlySweeps(uuid, s, req, e, id);
      } else {
        ApplySpares(uuid, StandingAfter(uuid, Visible(s.ids, Some(id)), r), e, r);
      }
    }
  }

  lemma OtherKeepsApart(uuid: Cast, s: State, req: Request, row: Option<Event>)
    requires Apart(s) && Placed(s)
    requires Step(uuid, s.db, req).next.audit == s.db.audit + (if row.Some? then [row.value] else [])
    ensures Apart(RunOther(uuid, s, req)) && Placed(RunOther(uuid, s, req))
  {
    var next := RunOther(uuid, s, req);
    NewRowIs(uuid, s, req, row, None);
    assert forall id :: Bound(next, id) <==> Bound(s, id);
  }

  lemma OtherKeepsLog(uuid: Cast, s: State, req: Request)
    requires LogInv(uuid, s) && OtherGoes(uuid, s, req)
    ensures LogInv(uuid, RunOther(uuid, s, req))
  {
    var next := RunOther(uuid, s, req);
    OtherKeepsInv(uuid, s, req);
    var row := Authority.StepRow(uuid, s.db, req);
    OtherKeepsApart(uuid, s, req, row);
    OtherAgrees(uuid, s, req, row);
    forall id | id in next.txs && next.txs[id].pc.Audited? ensures Foretold(uuid, next, id) {
      OtherForetells(uuid, s, req, row, id);
    }
  }

  // ----- the redeems' own statements

  lemma AuditForetells(uuid: Cast, s: State, id: nat)
    requires LogInv(uuid, s) && id in s.txs && s.txs[id].pc.Upserted? && InsertAudit(s, id).txs[id].pc.Audited?
    ensures Foretold(uuid, InsertAudit(s, id), id)
  {
    InsertedIsSeen(uuid, s.ids, id, s.txs[id]);
  }

  /** Inserted last, a redeem's row turns its binding on, and nothing has swept it yet. */
  lemma InsertedIsSeen(uuid: Cast, ids: Ids, id: nat, tx: Tx)
    requires Holds(tx.pc)
    ensures var next := ids + [Entry(AuditRow(tx), Some(id))];
      && StandingAfter(uuid, Visible(next, Some(id)), RowOf(tx)) == Some((tx.pc.role, true))
      && !Swept(next, id, tx.pc.device)
  {
    SeenMore(uuid, ids, Entry(AuditRow(tx), Some(id)), Some(id), RowOf(tx));
    SweptMore(ids, Entry(AuditRow(tx), Some(id)), id, tx.pc.device);
  }

  lemma AuditForetellsOthers(uuid: Cast, s: State, id: nat, other: nat)
    requires id in s.txs && s.txs[id].pc.Upserted? && other != id
    requires other in s.txs && s.txs[other].pc.Audited? && Foretold(uuid, s, other)
    ensures Foretold(uuid, InsertAudit(s, id), other)
  {
    var entry := Entry(AuditRow(s.txs[id]), Some(id));
    VisibleMore(s.ids, entry, Some(other));
    SweptMore(s.ids, entry, other, s.txs[other].pc.device);
    assert Visible(s.ids, Some(other)) + [] == Visible(s.ids, Some(other));
  }

  lemma AuditKeepsApart(s: State, id: nat)
    requires Apart(s) && Placed(s) && id in s.txs && s.txs[id].pc.Upserted?
    ensures Apart(InsertAudit(s, id)) && Placed(InsertAudit(s, id))
  {
    var next := InsertAudit(s, id);
    forall x, y | Bound(next, x) && Bound(next, y) && RowOf(next.txs[x]) == RowOf(next.txs[y]) ensures x == y {
      assert Bound(s, x) && Bound(s, y);
    }
    forall i, other | 0 <= i < |next.ids| && next.ids[i].owner == Some(other)
      ensures other in next.txs && next.txs[other].pc.Audited? && next.ids[i].event == AuditRow(next.txs[other])
    {
      if i < |s.ids| {
        assert next.ids[i] == s.ids[i] && other != id;
      }
    }
  }

  lemma AuditKeepsLog(uuid: Cast, s: State, id: nat)
    requires LogInv(uuid, s) && id in s.txs && s.txs[id].pc.Upserted?
    ensures LogInv(uuid, InsertAudit(s, id))
  {
    var next := InsertAudit(s, id);
    StatementKeepsInv(uuid, s, Audit(id));
    AuditKeepsApart(s, id);
    VisibleMore(s.ids, Entry(AuditRow(s.txs[id]), Some(id)), None);
    assert Visible(s.ids, None) + [] == Visible(s.ids, None);
    forall other | other in next.txs && next.txs[other].pc.Audited? ensures Foretold(uuid, next, other) {
      if other == id {
        AuditForetells(uuid, s, id);
      } else {
        AuditForetellsOthers(uuid, s, id, other);
      }
    }
  }

  lemma AbortKeepsApart(s: State, id: nat)
    requires Apart(s) && Placed(s) && AtStatement(s, Abort(id))
    ensures Apart(Statement(s, Abort(id))) && Placed(Statement(s, Abort(id)))
  {
    var next := Statement(s, Abort(id));
    forall x, y | Bound(next, x) && Bound(next, y) && RowOf(next.txs[x]) == RowOf(next.txs[y]) ensures x == y {
      assert Bound(s, x) && Bound(s, y);
    }
    forall i, other | 0 <= i < |next.ids| && next.ids[i].owner == Some(other)
      ensures other in next.txs && next.txs[other].pc.Audited? && next.ids[i].event == AuditRow(next.txs[other])
    {
      DroppedIn(s.ids, id, i);
      var j :| 0 <= j < |s.ids| && s.ids[j] == next.ids[i];
    }
  }

  lemma AbortForetells(uuid: Cast, s: State, id: nat, other: nat)
    requires AtStatement(s, Abort(id)) && other != id
    requires other in s.txs && s.txs[other].pc.Audited? && Foretold(uuid, s, other)
    ensures Foretold(uuid, Statement(s, Abort(id)), other)
  {
    VisibleDropped(s.ids, id, Some(other));
    SweptDropped(s.ids, id, other, s.txs[other].pc.device);
  }

  lemma AbortKeepsLog(uuid: Cast, s: State, id: nat)
    requires LogInv(uuid, s) && AtStatement(s, Abort(id))
    ensures LogInv(uuid, Statement(s, Abort(id)))
  {
    var next := Statement(s, Abort(id));
    StatementKeepsInv(uuid, s, Abort(id));
    AbortKeepsApart(s, id);
    VisibleDropped(s.ids, id, None);
    forall other | other in next.txs && next.txs[other].pc.Audited? ensures Foretold(uuid, next, other) {
      AbortForetells(uuid, s, id, other);
    }
  }

  /** The statement writes its own transaction, which neither has an audit row before nor after. */
  ghost predicate Quiet(s: State, next: State, id: nat) {
    && next.ids == s.ids && next.db == s.db && id in next.txs && next.txs == s.txs[id := next.txs[id]]
    && (id in s.txs ==> !s.txs[id].pc.Audited?) && !next.txs[id].pc.Audited?
    && (next.txs[id].pc.Upserted? ==> Holds(next.txs[id].pc) && RowOf(next.txs[id]) !in HeldRows(s))
  }

  lemma SelectIsQuiet(s: State, id: nat)
    requires id in s.txs && s.txs[id].pc.Begun?
    ensures Quiet(s, SelectInvite(s, id), id)
  {
  }

  lemma ConsumeIsQuiet(s: State, id: nat)
    requires id in s.txs && s.txs[id].pc.Selected?
    ensures Quiet(s, ConsumeInvite(s, id), id)
  {
  }

  lemma StatementIsQuiet(s: State, a: Act)
    requires !a.Other? && !a.CommitTx? && !a.Audit? && !a.Abort? && AtStatement(s, a)
    ensures Quiet(s, Statement(s, a), a.id)
  {
    match a
    case Select(id) => SelectIsQuiet(s, id);
    case Consume(id) => ConsumeIsQuiet(s, id);
    case _ =>
  }

  lemma QuietKeepsApart(s: State, next: State, id: nat)
    requires Apart(s) && Placed(s) && Quiet(s, next, id)
    ensures Apart(next) && Placed(next)
  {
    forall x, y | Bound(next, x) && Bound(next, y) && RowOf(next.txs[x]) == RowOf(next.txs[y]) ensures x == y {
      assert x != id ==> Bound(s, x) && RowOf(s.txs[x]) in HeldRows(s);
      assert y != id ==> Bound(s, y) && RowOf(s.txs[y]) in HeldRows(s);
    }
    forall i, other | 0 <= i < |next.ids| && next.ids[i].owner == Some(other)
      ensures other in next.txs && next.txs[other].pc.Audited? && next.ids[i].event == AuditRow(next.txs[other])
    {
      assert other != id;
    }
  }

  lemma QuietForetells(uuid: Cast, s: State, next: State, id: nat, other: nat)
    requires Quiet(s, next, id) && other in next.txs && next.txs[other].pc.Audited?
    requires other in s.txs && s.txs[other].pc.Audited? ==> Foretold(uuid, s, other)
    ensures Foretold(uuid, next, other)
  {
    assert other != id && next.txs[other] == s.txs[other];
  }

  lemma QuietKeepsLog(uuid: Cast, s: State, a: Act)
    requires LogInv(uuid, s) && !a.Other? && !a.CommitTx? && !a.Audit? && !a.Abort? && AtStatement(s, a)
    ensures LogInv(uuid, Statement(s, a))
  {
    var next := Statement(s, a);
    StatementKeepsInv(uuid, s, a);
    StatementIsQuiet(s, a);
    QuietKeepsApart(s, next, a.id);
    forall id | id in next.txs && next.txs[id].pc.Audited? ensures Foretold(uuid, next, id) {
      QuietForetells(uuid, s, next, a.id, id);
    }
  }

  // ----- committing

  /** An open redeem's row is about its own binding. */
  lemma OwnBinding(uuid: Cast, s: State, id: nat, r: Row)
    requires Placed(s) && id in s.txs && s.txs[id].pc.Audited? && r != RowOf(s.txs[id])
    ensures Spares(uuid, s.ids, id, r)
  {
    forall i | 0 <= i < |s.ids| && s.ids[i].owner == Some(id) ensures !Concerns(uuid, s.ids[i].event, r) {
      assert s.ids[i].event == AuditRow(s.txs[id]);
    }
  }

  lemma CommitAgreesAt(uuid: Cast, s: State, id: nat, r: Row)
    requires LogInv(uuid, s) && AtStatement(s, CommitTx(id))
    ensures var next := CommitRedeem(s, id);
      StandingAfter(uuid, Visible(next.ids, None), r) == StandingIn(next.db.bindings, r) <==>
        r != RowOf(s.txs[id]) || Timely(s, id)
  {
    VisiblePublished(s.ids, id);
    assert Foretold(uuid, s, id);
    if r != RowOf(s.txs[id]) {
      OwnBinding(uuid, s, id, r);
      MineSpares(uuid, s.ids, id, r);
    }
  }

  /** After a commit the log and the table agree exactly when the device was not ended in between. */
  lemma CommitAgreesIff(uuid: Cast, s: State, id: nat)
    requires LogInv(uuid, s) && AtStatement(s, CommitTx(id))
    ensures var next := CommitRedeem(s, id);
      Agrees(uuid, next.db.bindings, Visible(next.ids, None)) <==> Timely(s, id)
  {
    CommitAgreesAt(uuid, s, id, RowOf(s.txs[id]));
    forall r ensures var next := CommitRedeem(s, id);
      StandingAfter(uuid, Visible(next.ids, None), r) == StandingIn(next.db.bindings, r) <==>
        r != RowOf(s.txs[id]) || Timely(s, id)
    {
      CommitAgreesAt(uuid, s, id, r);
    }
  }

  lemma CommitForetells(uuid: Cast, s: State, id: nat, other: nat)
    requires LogInv(uuid, s) && AtStatement(s, CommitTx(id))
    requires other in s.txs && other != id && s.txs[other].pc.Audited?
    ensures Foretold(uuid, CommitRedeem(s, id), other)
  {
    assert Bound(s, id) && Bound(s, other);
    assert Foretold(uuid, s, other) && RowOf(s.txs[other]) != RowOf(s.txs[id]);
    OwnBinding(uuid, s, id, RowOf(s.txs[other]));
    PublishedSpares(uuid, s.ids, id, Some(other), RowOf(s.txs[other]));
    SweptPublished(s.ids, id, other, s.txs[other].pc.device);
  }

  lemma CommitKeepsApart(s: State, id: nat)
    requires Apart(s) && Placed(s) && AtStatement(s, CommitTx(id))
    ensures Apart(CommitRedeem(s, id)) && Placed(CommitRedeem(s, id))
  {
    var next := CommitRedeem(s, id);
    forall x, y | Bound(next, x) && Bound(next, y) && RowOf(next.txs[x]) == RowOf(next.txs[y]) ensures x == y {
      assert Bound(s, x) && Bound(s, y);
    }
    forall i, other | 0 <= i < |next.ids| && next.ids[i].owner == Some(other)
      ensures other in next.txs && next.txs[other].pc.Audited? && next.ids[i].event == AuditRow(next.txs[other])
    {
      assert s.ids[i].owner == Some(other) && other != id;
    }
  }

  lemma CommitKeepsLog(uuid: Cast, s: State, id: nat)
    requires LogInv(uuid, s) && AtStatement(s, CommitTx(id)) && Timely(s, id)
    ensures LogInv(uuid, CommitRedeem(s, id))
  {
    var next := CommitRedeem(s, id);
    CommitKeepsInv(uuid, s, id);
    CommitAgreesIff(uuid, s, id);
    CommitKeepsApart(s, id);
    forall other | other in next.txs && next.txs[other].pc.Audited? ensures Foretold(uuid, next, other) {
      CommitForetells(uuid, s, id, other);
    }
  }

  // ----- whole schedules

  ghost predicate AllTimely(uuid: Cast, s: State, actions: seq<Act>)
    requires Schedule(uuid, s, actions)
    decreases |actions|
  {
    actions == [] ||
    (&& (actions[0].CommitTx? ==> Timely(s, actions[0].id))
     && AllTimely(uuid, Next(uuid, s, actions[0]), actions[1..]))
  }

  lemma NextKeepsLog(uuid: Cast, s: State, a: Act)
    requires LogInv(uuid, s) && Enabled(uuid, s, a) && (a.CommitTx? ==> Timely(s, a.id))
    ensures LogInv(uuid, Next(uuid, s, a))
  {
    if a.Other? {
      OtherKeepsLog(uuid, s, a.req);
    } else if a.CommitTx? {
      CommitKeepsLog(uuid, s, a.id);
    } else if a.Audit? {
      AuditKeepsLog(uuid, s, a.id);
    } else if a.Abort? {
      AbortKeepsLog(uuid, s, a.id);
    } else {
      QuietKeepsLog(uuid, s, a);
    }
  }

  lemma {:induction false} LogFrom(uuid: Cast, s: State, actions: seq<Act>)
    requires LogInv(uuid, s) && Schedule(uuid, s, actions) && AllTimely(uuid, s, actions)
    ensures LogInv(uuid, Exec(uuid, s, actions))
    decreases |actions|
  {
    if actions != [] {
      NextKeepsLog(uuid, s, actions[0]);
      LogFrom(uuid, Next(uuid, s, actions[0]), actions[1..]);
    }
  }

  /** In every schedule whose redeems commit in time, the log by id gives every account the role and
      the access that the table gives it. */
  lemma ScheduleIsReplayed(uuid: Cast, actions: seq<Act>)
    requires Schedule(uuid, INIT, actions) && AllTimely(uuid, INIT, actions)
    ensures var s := Exec(uuid, INIT, actions); Agrees(uuid, s.db.bindings, Visible(s.ids, None))
  {
    LogFrom(uuid, INIT, actions);
  }

  /** And the first commit after which it does not is exactly the first that a sign out or a removal of
      its device overtook between its audit row and its commit. */
  lemma CommitIsReplayedIff(uuid: Cast, actions: seq<Act>, id: nat)
    requires Schedule(uuid, INIT, actions) && AllTimely(uuid, INIT, actions)
    requires Enabled(uuid, Exec(uuid, INIT, actions), CommitTx(id))
    ensures var s := Exec(uuid, INIT, actions);
      var next := Next(uuid, s, CommitTx(id));
      Agrees(uuid, next.db.bindings, Visible(next.ids, None)) <==> Timely(s, id)
  {
    LogFrom(uuid, INIT, actions);
    CommitAgreesIff(uuid, Exec(uuid, INIT, actions), id);
  }
}
