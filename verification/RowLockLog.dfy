/** Whether the audit log, read by id, tells what the bindings table says, over every schedule of
    revokes, leaves, removals and everything else. A removal that inserts its row after somebody was
    let back in, and did not revoke them, is the one way it can stop to. */
module RowLockLog {
  import opened Common
  import opened Access
  import opened AuditIds
  import opened RowLock
  import AccessProofs
  import Authority
  import Locks

  /** Everybody active on the device when the transaction inserted its audit row was revoked by it. */
  predicate Timely(s: State, id: nat)
    requires id in s.txs && s.txs[id].pc.Audited?
  {
    s.txs[id].pc.late == {}
  }

  /** An open transaction's place in the log is its own audit row, and it has one only once it has
      inserted it. */
  ghost predicate Placed(s: State) {
    forall i, id :: 0 <= i < |s.ids| && s.ids[i].owner == Some(id) ==>
      id in s.txs && s.txs[id].pc.Audited? && Locking(s.txs[id].req)
      && s.ids[i].event == AuditRow(s.txs[id].req, s.txs[id].pc.role)
  }

  /** What the log will say of a binding once the transaction has committed. */
  function Outcome(b: Bindings, tx: Tx, r: Row): Standing
    requires tx.pc.Audited?
  {
    if r in tx.pc.rows || r in tx.pc.late then AuditIds.Off(StandingIn(b, r)) else StandingIn(b, r)
  }

  ghost predicate Foretold(uuid: Cast, s: State, id: nat)
    requires id in s.txs && s.txs[id].pc.Audited?
  {
    && Locking(s.txs[id].req)
    && s.txs[id].pc.late <= ActiveRows(s.db.bindings, s.txs[id].req.device) - s.txs[id].pc.rows
    && (s.txs[id].pc.late != {} ==> s.txs[id].req.DoRemove? && s.txs[id].pc.rows != {})
    && forall r :: StandingAfter(uuid, Visible(s.ids, Some(id)), r) == Outcome(s.db.bindings, s.txs[id], r)
  }

  ghost predicate LogInv(uuid: Cast, s: State) {
    && Inv(uuid, s) && Placed(s)
    && Agrees(uuid, s.db.bindings, Visible(s.ids, None))
    && forall id :: id in s.txs && s.txs[id].pc.Audited? ==> Foretold(uuid, s, id)
  }

  // ----- the other handlers

  lemma NewRowIs(uuid: Cast, s: State, req: Request, row: Option<Event>, mine: Option<nat>)
    requires Step(uuid, s.db, req).next.audit == s.db.audit + (if row.Some? then [row.value] else [])
    ensures NewRow(s.db, Step(uuid, s.db, req).next) == if row.Some? then [Entry(row.value, None)] else []
    ensures Visible(s.ids + NewRow(s.db, Step(uuid, s.db, req).next), mine) ==
      if row.Some? then Visible(s.ids, mine) + [row.value] else Visible(s.ids, mine)
  {
    if row.Some? {
      VisibleMore(s.ids, Entry(row.value, None), mine);
    } else {
      assert s.ids + [] == s.ids;
    }
  }

  lemma OtherAgrees(uuid: Cast, s: State, req: Request, row: Option<Event>)
    requires Agrees(uuid, s.db.bindings, Visible(s.ids, None))
    requires var next := Step(uuid, s.db, req).next;
      && next.audit == s.db.audit + (if row.Some? then [row.value] else [])
      && (row.None? ==> next.bindings == s.db.bindings)
      && (row.Some? ==> next.bindings == AccessProofs.ApplyEvent(uuid, s.db.bindings, row.value, |s.db.audit|))
    ensures var next := Step(uuid, s.db, req).next;
      Agrees(uuid, next.bindings, Visible(s.ids + NewRow(s.db, next), None))
  {
    NewRowIs(uuid, s, req, row, None);
    var next := Step(uuid, s.db, req).next;
    forall r ensures StandingAfter(uuid, Visible(s.ids + NewRow(s.db, next), None), r) == StandingIn(next.bindings, r) {
      if row.Some? {
        StandingMore(uuid, Visible(s.ids, None), row.value, r);
        ApplyIsApplyEvent(uuid, s.db.bindings, row.value, |s.db.audit|, r);
      }
    }
  }

  /** Nothing another handler records is about a row that an open transaction revokes or has come too
      late for. */
  lemma RowsAreLeftAlone(uuid: Cast, s: State, req: Request, e: Event, id: nat, r: Row)
    requires Inv(uuid, s) && Enabled(uuid, s, Other(req)) && Step(uuid, s.db, req).next.audit == s.db.audit + [e]
    requires id in s.txs && s.txs[id].pc.Audited? && Foretold(uuid, s, id)
    requires r in s.txs[id].pc.rows || r in s.txs[id].pc.late
    ensures !Concerns(uuid, e, r)
  {
    assert TxOk(uuid, s, id);
    RowSource(uuid, s.db, req, e);
    RowsAreHeld(uuid, s, id);
    assert r in ActiveRows(s.db.bindings, s.txs[id].req.device);
    if e.action == InviteRedeemed {
      RedeemSource(uuid, s.db, req, e);
      assert IsActive(s.db.bindings, r.0, r.1);
    }
  }

  lemma OtherForetells(uuid: Cast, s: State, req: Request, row: Option<Event>, id: nat)
    requires Inv(uuid, s) && Enabled(uuid, s, Other(req))
    requires id in s.txs && s.txs[id].pc.Audited? && Foretold(uuid, s, id)
    requires var next := Step(uuid, s.db, req).next;
      && next.audit == s.db.audit + (if row.Some? then [row.value] else [])
      && (row.None? ==> next.bindings == s.db.bindings)
      && (row.Some? ==> next.bindings == AccessProofs.ApplyEvent(uuid, s.db.bindings, row.value, |s.db.audit|))
    ensures Foretold(uuid, Next(uuid, s, Other(req)), id)
  {
    NewRowIs(uuid, s, req, row, Some(id));
    var next := Next(uuid, s, Other(req));
    if row.Some? {
      forall r ensures StandingAfter(uuid, Visible(next.ids, Some(id)), r) == Outcome(next.db.bindings, s.txs[id], r)
        && (r in s.txs[id].pc.late ==> StandingIn(next.db.bindings, r) == StandingIn(s.db.bindings, r))
      {
        OtherForetellsOne(uuid, s, req, row.value, id, r);
      }
    }
    LateStays(s.db.bindings, next.db.bindings, s.txs[id]);
  }

  lemma OtherForetellsOne(uuid: Cast, s: State, req: Request, e: Event, id: nat, r: Row)
    requires Inv(uuid, s) && Enabled(uuid, s, Other(req)) && Step(uuid, s.db, req).next.audit == s.db.audit + [e]
    requires id in s.txs && s.txs[id].pc.Audited? && Foretold(uuid, s, id)
    ensures var b, next := s.db.bindings, AccessProofs.ApplyEvent(uuid, s.db.bindings, e, |s.db.audit|);
      && StandingAfter(uuid, Visible(s.ids, Some(id)) + [e], r) == Outcome(next, s.txs[id], r)
      && (r in s.txs[id].pc.late ==> StandingIn(next, r) == StandingIn(b, r))
  {
    StandingMore(uuid, Visible(s.ids, Some(id)), e, r);
    ApplyIsApplyEvent(uuid, s.db.bindings, e, |s.db.audit|, r);
    if r in s.txs[id].pc.rows || r in s.txs[id].pc.late {
      RowsAreLeftAlone(uuid, s, req, e, id, r);
      ApplySpares(uuid, StandingIn(s.db.bindings, r), e, r);
      ApplySpares(uuid, Outcome(s.db.bindings, s.txs[id], r), e, r);
    }
  }

  lemma LateStays(b: Bindings, next: Bindings, tx: Tx)
    requires Locking(tx.req) && tx.pc.Audited? && tx.pc.late <= ActiveRows(b, tx.req.device) - tx.pc.rows
    requires forall r :: r in tx.pc.late ==> StandingIn(next, r) == StandingIn(b, r)
    ensures tx.pc.late <= ActiveRows(next, tx.req.device) - tx.pc.rows
  {
    forall r | r in tx.pc.late ensures r in ActiveRows(next, tx.req.device) && r !in tx.pc.rows {
      assert r in ActiveRows(b, tx.req.device) - tx.pc.rows;
      assert StandingIn(next, r) == StandingIn(b, r);
    }
  }

  lemma OtherKeepsLog(uuid: Cast, s: State, req: Request)
    requires LogInv(uuid, s) && Enabled(uuid, s, Other(req))
    ensures LogInv(uuid, Next(uuid, s, Other(req)))
  {
    var next := Next(uuid, s, Other(req));
    NextKeepsInv(uuid, s, Other(req));
    var row := Authority.StepRow(uuid, s.db, req);
    NewRowIs(uuid, s, req, row, None);
    OtherAgrees(uuid, s, req, row);
    forall id | id in next.txs && next.txs[id].pc.Audited? ensures Foretold(uuid, next, id) {
      OtherForetells(uuid, s, req, row, id);
    }
  }

  // ----- inserting the audit row

  /** Inserted last, the row says of every binding what the commit will do, but for those it is late
      for. */
  lemma AuditForetells(uuid: Cast, s: State, id: nat)
    requires LogInv(uuid, s) && id in s.txs && Locking(s.txs[id].req) && s.txs[id].pc.Wrote?
    requires InsertAudit(s, id).txs[id].pc.Audited?
    ensures Foretold(uuid, InsertAudit(s, id), id)
  {
    var tx, next := s.txs[id], InsertAudit(s, id);
    var e := AuditRow(tx.req, tx.pc.role);
    assert TxOk(uuid, s, id);
    assert Absent(s.ids, id);
    VisibleAbsent(s.ids, id);
    VisibleMore(s.ids, Entry(e, Some(id)), Some(id));
    forall r ensures StandingAfter(uuid, Visible(next.ids, Some(id)), r) == Outcome(s.db.bindings, next.txs[id], r) {
      StandingMore(uuid, Visible(s.ids, None), e, r);
      EffectOfRow(uuid, s.db, tx, next.txs[id].pc.late, r);
    }
    if tx.pc.rows == {} {
      assert ActiveRows(s.db.bindings, tx.req.device) == {};
    }
  }

  lemma EffectOfRow(uuid: Cast, t: Tables, tx: Tx, late: set<Row>, r: Row)
    requires Locking(tx.req) && tx.pc.Wrote? && FactsOk(uuid, t.bindings, tx) && Admitted(t, tx.req)
    requires AccessProofs.AccountsCanonical(uuid, t)
    requires late == if tx.req.DoRemove? then ActiveRows(t.bindings, tx.req.device) - tx.pc.rows else {}
    ensures Apply(uuid, StandingIn(t.bindings, r), AuditRow(tx.req, tx.pc.role), r) ==
      if r in tx.pc.rows || r in late then AuditIds.Off(StandingIn(t.bindings, r)) else StandingIn(t.bindings, r)
  {
    if tx.req.DoRemove? && r.0 == tx.req.device {
      assert r in ActiveRows(t.bindings, tx.req.device) <==> r in tx.pc.rows || r in late;
    }
  }

  lemma AuditKeepsLog(uuid: Cast, s: State, id: nat)
    requires LogInv(uuid, s) && Enabled(uuid, s, Audit(id))
    ensures LogInv(uuid, Next(uuid, s, Audit(id)))
  {
    NextKeepsInv(uuid, s, Audit(id));
    AuditGoesThrough(uuid, s, id);
    AuditForetells(uuid, s, id);
    var next, entry := InsertAudit(s, id), Entry(AuditRow(s.txs[id].req, s.txs[id].pc.role), Some(id));
    VisibleMore(s.ids, entry, None);
    assert Visible(s.ids, None) + [] == Visible(s.ids, None);
    forall other | other in next.txs && next.txs[other].pc.Audited? ensures Foretold(uuid, next, other) {
      if other != id {
        VisibleMore(s.ids, entry, Some(other));
        assert Visible(s.ids, Some(other)) + [] == Visible(s.ids, Some(other));
        assert Foretold(uuid, s, other);
      }
    }
  }

  /** Every field of the row was checked before the transaction began. */
  lemma AuditGoesThrough(uuid: Cast, s: State, id: nat)
    requires Inv(uuid, s) && id in s.txs && Locking(s.txs[id].req) && s.txs[id].pc.Wrote?
    ensures InsertAudit(s, id).txs[id].pc.Audited?
  {
    assert TxOk(uuid, s, id);
  }

  // ----- rolling back, and the statements that write nothing

  lemma AbortKeepsLog(uuid: Cast, s: State, id: nat)
    requires LogInv(uuid, s) && Enabled(uuid, s, Abort(id))
    ensures LogInv(uuid, Next(uuid, s, Abort(id)))
  {
    var next := Next(uuid, s, Abort(id));
    NextKeepsInv(uuid, s, Abort(id));
    VisibleDropped(s.ids, id, None);
    forall i, other | 0 <= i < |next.ids| && next.ids[i].owner == Some(other)
      ensures other in next.txs && next.txs[other].pc.Audited? && Locking(next.txs[other].req)
        && next.ids[i].event == AuditRow(next.txs[other].req, next.txs[other].pc.role)
    {
      DroppedIn(s.ids, id, i);
      var j :| 0 <= j < |s.ids| && s.ids[j] == next.ids[i];
    }
    forall other | other in next.txs && next.txs[other].pc.Audited? ensures Foretold(uuid, next, other) {
      VisibleDropped(s.ids, id, Some(other));
      assert Foretold(uuid, s, other);
    }
  }

  /** The statement writes its own transaction, which neither has an audit row before nor after. */
  ghost predicate Quiet(s: State, next: State, id: nat) {
    && next.ids == s.ids && next.db == s.db && id in next.txs && next.txs == s.txs[id := next.txs[id]]
    && (id in s.txs ==> !s.txs[id].pc.Audited?) && !next.txs[id].pc.Audited?
  }

  lemma UpdateIsQuiet(uuid: Cast, s: State, id: nat)
    requires id in s.txs && Locking(s.txs[id].req) && !s.txs[id].pc.Audited?
    ensures Quiet(s, UpdateRows(uuid, s, id), id) && Quiet(s, ExplainMiss(uuid, s, id), id)
  {
  }

  lemma StatementIsQuiet(uuid: Cast, s: State, a: Act)
    requires (a.Open? || a.Lock? || a.Check? || a.Update? || a.Explain?) && Ready(s, a)
    ensures Quiet(s, Statement(uuid, s, a), a.id)
  {
    if a.Update? || a.Explain? {
      UpdateIsQuiet(uuid, s, a.id);
    }
  }

  lemma QuietForetells(uuid: Cast, s: State, next: State, id: nat, other: nat)
    requires Quiet(s, next, id) && other in next.txs && next.txs[other].pc.Audited?
    requires other in s.txs && s.txs[other].pc.Audited? ==> Foretold(uuid, s, other)
    ensures Foretold(uuid, next, other)
  {
    assert other != id && next.txs[other] == s.txs[other];
  }

  lemma QuietKeepsLog(uuid: Cast, s: State, a: Act)
    requires LogInv(uuid, s) && Enabled(uuid, s, a)
    requires a.Open? || a.Lock? || a.Check? || a.Update? || a.Explain?
    ensures LogInv(uuid, Next(uuid, s, a))
  {
    var next := Next(uuid, s, a);
    NextKeepsInv(uuid, s, a);
    StatementIsQuiet(uuid, s, a);
    forall i, id | 0 <= i < |next.ids| && next.ids[i].owner == Some(id) ensures id != a.id {
    }
    forall id | id in next.txs && next.txs[id].pc.Audited? ensures Foretold(uuid, next, id) {
      QuietForetells(uuid, s, next, a.id, id);
    }
  }

  // ----- committing

  /** After a commit the log says of every binding what was foretold, which is what the table says
      exactly when the row was inserted in time. */
  lemma CommitAgreesIff(uuid: Cast, s: State, id: nat)
    requires LogInv(uuid, s) && Enabled(uuid, s, CommitTx(id))
    ensures var next := Next(uuid, s, CommitTx(id));
      Agrees(uuid, next.db.bindings, Visible(next.ids, None)) <==> Timely(s, id)
  {
    var tx, next := s.txs[id], Next(uuid, s, CommitTx(id));
    assert TxOk(uuid, s, id) && Foretold(uuid, s, id);
    VisiblePublished(s.ids, id);
    OutcomeIsTable(s.db.bindings, tx);
    if tx.pc.late != {} {
      var r :| r in tx.pc.late;
      assert StandingAfter(uuid, Visible(next.ids, None), r) == Outcome(s.db.bindings, tx, r);
      assert Outcome(s.db.bindings, tx, r) != StandingIn(next.db.bindings, r);
    }
  }

  lemma OutcomeIsTable(b: Bindings, tx: Tx)
    requires Locking(tx.req) && tx.pc.Audited? && tx.pc.late <= ActiveRows(b, tx.req.device) - tx.pc.rows
    ensures forall r :: r !in tx.pc.late ==> Outcome(b, tx, r) == StandingIn(RevokeRows(b, tx.pc.rows), r)
    ensures forall r :: r in tx.pc.late ==> Outcome(b, tx, r) != StandingIn(RevokeRows(b, tx.pc.rows), r)
  {
    forall r | r in tx.pc.late ensures Outcome(b, tx, r) != StandingIn(RevokeRows(b, tx.pc.rows), r) {
      assert r in ActiveRows(b, tx.req.device) && r !in tx.pc.rows;
    }
  }

  /** A transaction's row is about its own device. */
  lemma OwnDevice(uuid: Cast, s: State, id: nat, r: Row)
    requires Placed(s) && id in s.txs && s.txs[id].pc.Audited? && Locking(s.txs[id].req) && r.0 != s.txs[id].req.device
    ensures Spares(uuid, s.ids, id, r)
  {
    forall i | 0 <= i < |s.ids| && s.ids[i].owner == Some(id) ensures !Concerns(uuid, s.ids[i].event, r) {
      assert s.ids[i].event == AuditRow(s.txs[id].req, s.txs[id].pc.role);
    }
  }

  lemma PublishedStillSpares(uuid: Cast, ids: Ids, id: nat, other: nat, r: Row)
    requires id != other && Spares(uuid, ids, other, r)
    ensures Spares(uuid, Published(ids, id), other, r)
  {
    var next := Published(ids, id);
    forall i | 0 <= i < |next| && next[i].owner == Some(other) ensures !Concerns(uuid, next[i].event, r) {
      assert ids[i].owner == Some(other);
    }
  }

  lemma CommitForetells(uuid: Cast, s: State, id: nat, other: nat, r: Row)
    requires LogInv(uuid, s) && Enabled(uuid, s, CommitTx(id)) && Timely(s, id)
    requires other in s.txs && other != id && s.txs[other].pc.Audited?
    ensures var next := Next(uuid, s, CommitTx(id));
      StandingAfter(uuid, Visible(next.ids, Some(other)), r) == Outcome(next.db.bindings, s.txs[other], r)
  {
    var next := Next(uuid, s, CommitTx(id));
    assert TxOk(uuid, s, id) && TxOk(uuid, s, other) && Foretold(uuid, s, id) && Foretold(uuid, s, other);
    OutcomeIsTable(s.db.bindings, s.txs[id]);
    var mine, theirs := s.txs[id].req.device, s.txs[other].req.device;
    assert mine != theirs;
    if r.0 == theirs {
      OwnDevice(uuid, s, id, r);
      PublishedSpares(uuid, s.ids, id, Some(other), r);
      assert StandingIn(next.db.bindings, r) == StandingIn(s.db.bindings, r);
    } else {
      OwnDevice(uuid, s, other, r);
      PublishedStillSpares(uuid, s.ids, id, other, r);
      MineSpares(uuid, next.ids, other, r);
      VisiblePublished(s.ids, id);
    }
  }

  lemma CommitKeepsForetold(uuid: Cast, s: State, id: nat, other: nat)
    requires LogInv(uuid, s) && Enabled(uuid, s, CommitTx(id)) && Timely(s, id)
    requires other in s.txs && other != id && s.txs[other].pc.Audited?
    ensures Foretold(uuid, CommitWrites(s, id), other)
  {
    var next := CommitWrites(s, id);
    assert TxOk(uuid, s, id) && TxOk(uuid, s, other) && Foretold(uuid, s, other);
    assert s.txs[other].req.device != s.txs[id].req.device;
    LateStays(s.db.bindings, next.db.bindings, s.txs[other]);
    forall r
      ensures StandingAfter(uuid, Visible(next.ids, Some(other)), r) == Outcome(next.db.bindings, next.txs[other], r)
    {
      CommitForetells(uuid, s, id, other, r);
    }
  }

  lemma CommitKeepsPlaces(s: State, id: nat)
    requires Placed(s) && Ready(s, CommitTx(id))
    ensures Placed(CommitWrites(s, id))
  {
    var next := CommitWrites(s, id);
    forall i, other | 0 <= i < |next.ids| && next.ids[i].owner == Some(other)
      ensures other in next.txs && next.txs[other].pc.Audited? && Locking(next.txs[other].req)
        && next.ids[i].event == AuditRow(next.txs[other].req, next.txs[other].pc.role)
    {
      assert s.ids[i].owner == Some(other) && other != id;
    }
  }

  lemma CommitKeepsLog(uuid: Cast, s: State, id: nat)
    requires LogInv(uuid, s) && Enabled(uuid, s, CommitTx(id)) && Timely(s, id)
    ensures LogInv(uuid, Next(uuid, s, CommitTx(id)))
  {
    var next := Next(uuid, s, CommitTx(id));
    NextKeepsInv(uuid, s, CommitTx(id));
    CommitAgreesIff(uuid, s, id);
    CommitKeepsPlaces(s, id);
    forall other | other in next.txs && next.txs[other].pc.Audited? ensures Foretold(uuid, next, other) {
      CommitKeepsForetold(uuid, s, id, other);
    }
  }

  // ----- whole schedules

  ghost predicate AllTimely(uuid: Cast, s: State, actions: seq<Act>)
    requires Schedule(uuid, s, actions)
    decreases |actions|
  {
    actions == [] ||
    (&& (actions[0].CommitTx? ==> Timely(s, actions[0].id))
     && AllTimely(uuid, Next(uuid, s, actions[0]), actions[1..]))
  }

  lemma NextKeepsLog(uuid: Cast, s: State, a: Act)
    requires LogInv(uuid, s) && Enabled(uuid, s, a) && (a.CommitTx? ==> Timely(s, a.id))
    ensures LogInv(uuid, Next(uuid, s, a))
  {
    match a
    case Other(req) => OtherKeepsLog(uuid, s, req);
    case CommitTx(id) => CommitKeepsLog(uuid, s, id);
    case Audit(id) => AuditKeepsLog(uuid, s, id);
    case Abort(id) => AbortKeepsLog(uuid, s, id);
    case _ => QuietKeepsLog(uuid, s, a);
  }

  lemma {:induction false} LogFrom(uuid: Cast, s: State, actions: seq<Act>)
    requires LogInv(uuid, s) && Schedule(uuid, s, actions) && AllTimely(uuid, s, actions)
    ensures LogInv(uuid, Exec(uuid, s, actions))
    decreases |actions|
  {
    if actions != [] {
      NextKeepsLog(uuid, s, actions[0]);
      LogFrom(uuid, Next(uuid, s, actions[0]), actions[1..]);
    }
  }

  /** In every schedule whose removals insert their audit rows in time, the log by id gives every
      account the role and the access that the table gives it. */
  lemma ScheduleIsReplayed(uuid: Cast, actions: seq<Act>)
    requires Schedule(uuid, INIT, actions) && AllTimely(uuid, INIT, actions)
    ensures var s := Exec(uuid, INIT, actions); Agrees(uuid, s.db.bindings, Visible(s.ids, None))
  {
    LogFrom(uuid, INIT, actions);
  }

  /** And the first commit after which it does not is exactly the first whose row came late: somebody
      had been let back in between the removal's UPDATE and its audit row. */
  lemma CommitIsReplayedIff(uuid: Cast, actions: seq<Act>, id: nat)
    requires Schedule(uuid, INIT, actions) && AllTimely(uuid, INIT, actions)
    requires Enabled(uuid, Exec(uuid, INIT, actions), CommitTx(id))
    ensures var s := Exec(uuid, INIT, actions);
      var next := Next(uuid, s, CommitTx(id));
      Agrees(uuid, next.db.bindings, Visible(next.ids, None)) <==> Timely(s, id)
  {
    LogFrom(uuid, INIT, actions);
    CommitAgreesIff(uuid, Exec(uuid, INIT, actions), id);
  }
}
