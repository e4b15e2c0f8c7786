/** Revoke, leave and remove, statement by statement, for any number of transactions on any number
    of devices at once. A statement reads what is committed at that moment. A transaction's own write
    stays invisible to the others until it commits. SELECT ... FOR UPDATE on the device row is held
    until the transaction ends. All other handlers but account deletion are taken whole, and commit
    between any two statements unless `Locks` makes them wait. What still gets through to a locked
    device is a sign out on the PC, while no row of it is held, and a redeem that lets an account
    back in on the row it had. */
module RowLock {
  import opened Common
  import opened Access
  import opened AuditIds
  import AccessProofs
  import Locks

  /** Where a transaction stands. `Wrote` and `Audited` hold the rows it has revoked, with the role a
      revoke's UPDATE returned. `late` are the rows a removal did not revoke although they were
      active when it inserted its audit row. `Ended` holds what it answered. */
  datatype Pc =
    | Begun
    | Locked
    | Checked
    | Missed
    | Wrote(rows: set<Row>, role: Option<Role>)
    | Audited(rows: set<Row>, role: Option<Role>, late: set<Row>)
    | Ended(code: Code)

  datatype Tx = Tx(req: Request, pc: Pc)

  /** `done` lists the transactions in the order they committed, and so does `db.audit` the rows.
      `ids` is the log as its readers order it. */
  datatype State = State(db: Tables, locks: map<string, nat>, txs: map<nat, Tx>, done: seq<Request>, ids: Ids)

  const INIT := State(EMPTY, map[], map[], [], [])

  datatype Act =
    | Open(id: nat, req: Request)
    | Lock(id: nat)
    | Check(id: nat)
    | Update(id: nat)
    | Explain(id: nat)
    | Audit(id: nat)
    | CommitTx(id: nat)
    | Abort(id: nat)
    | Other(req: Request)

  predicate Locking(req: Request) {
    req.DoRevoke? || req.DoLeave? || req.DoRemove?
  }

  predicate Past(pc: Pc) {
    pc.Wrote? || pc.Audited?
  }

  /** The binding rows that open transactions have written. */
  function HeldRows(s: State): (rows: set<Row>)
    ensures forall id, r :: id in s.txs && Past(s.txs[id].pc) && r in s.txs[id].pc.rows ==> r in rows
  {
    set id, r | id in s.txs && Past(s.txs[id].pc) && r in s.txs[id].pc.rows :: r
  }

  /** The account whose one row a revoke or a leave is about. */
  function Account(uuid: Cast, req: Request): Option<string>
    requires Locking(req)
  {
    if req.DoRevoke? then uuid(req.target) else Some(req.actor)
  }

  function Move(s: State, id: nat, pc: Pc): State
    requires id in s.txs
  {
    s.(txs := s.txs[id := s.txs[id].(pc := pc)])
  }

  /** Rollback or commit releases the locks the transaction holds. */
  function End(s: State, id: nat, code: Code): State
    requires id in s.txs
  {
    Move(s, id, Ended(code)).(locks := map d | d in s.locks && s.locks[d] != id :: s.locks[d])
  }

  function AuditRow(req: Request, role: Option<Role>): Event
    requires Locking(req)
  {
    if req.DoRemove? then Event(req.device, req.actor, DeviceRemoved, req.actor, None)
    else Event(req.device, req.actor, BindingRevoked, if req.DoRevoke? then req.target else req.actor, role)
  }

  /** The UPDATE's own WHERE clause for one row, on the tables as they are now. */
  predicate Revocable(uuid: Cast, t: Tables, req: Request)
    requires Locking(req)
  {
    var account := Account(uuid, req);
    && account.Some? && IsActive(t.bindings, req.device, account.value)
    && (|| t.bindings[(req.device, account.value)].role != Admin
        || (req.DoRevoke? && |Admins(t.bindings, req.device)| > 1))
  }

  function ActiveRows(b: Bindings, device: string): (rows: set<Row>)
    ensures forall r :: r in rows <==> r in b && r.0 == device && b[r].active
  {
    set r | r in b && r.0 == device && b[r].active
  }

  function RevokeRows(b: Bindings, rows: set<Row>): Bindings {
    map r | r in b :: if r in rows then b[r].(active := false) else b[r]
  }

  ghost predicate Enabled(uuid: Cast, s: State, a: Act) {
    if a.Other? then OtherGoes(uuid, s, a.req) else Ready(s, a)
  }

  /** Another handler's transaction has nothing to wait for. */
  ghost predicate OtherGoes(uuid: Cast, s: State, req: Request) {
    !Locking(req) && !req.DoDelete? && !Locks.Waits(uuid, s.db, s.locks.Keys, {}, HeldRows(s), req)
  }

  predicate Ready(s: State, a: Act)
    requires !a.Other?
  {
    if a.Open? then
      // What the handler checks before it opens the transaction.
      && a.id !in s.txs && Locking(a.req) && a.req.actor in s.db.accounts && SafeToken(a.req.device)
      && (a.req.DoRevoke? ==> SafeToken(a.req.target))
    else
      a.id in s.txs && Locking(s.txs[a.id].req) && AtStatement(s, s.txs[a.id], a)
  }

  /** The transaction has come to the statement. */
  predicate AtStatement(s: State, tx: Tx, a: Act)
    requires !a.Open? && !a.Other? && Locking(tx.req)
  {
    match a
    case Lock(_) => tx.pc.Begun? && tx.req.device !in s.locks
    case Check(_) => tx.pc.Locked? && !tx.req.DoLeave?
    case Update(_) => if tx.req.DoLeave? then tx.pc.Locked? else tx.pc.Checked?
    case Explain(_) => tx.pc.Missed?
    case Audit(_) => tx.pc.Wrote?
    case CommitTx(_) => tx.pc.Audited?
    case Abort(_) => !tx.pc.Ended?
    case _ => false
  }

  function UpdateRows(uuid: Cast, s: State, id: nat): State
    requires id in s.txs && Locking(s.txs[id].req)
  {
    var req, b := s.txs[id].req, s.db.bindings;
    if req.DoRemove? then Move(s, id, Wrote(ActiveRows(b, req.device), None))
    else
      var account := Account(uuid, req);
      if account.None? then End(s, id, NotFound)
      else if Revocable(uuid, s.db, req) then
        Move(s, id, Wrote({(req.device, account.value)}, Some(b[(req.device, account.value)].role)))
      else Move(s, id, Missed)
  }

  function ExplainMiss(uuid: Cast, s: State, id: nat): State
    requires id in s.txs && Locking(s.txs[id].req)
  {
    var req, account := s.txs[id].req, Account(uuid, s.txs[id].req);
    if req.DoLeave? then
      End(s, id, if ActiveAdmin(s.db.bindings, req.device, req.actor) then AdminLeave else NotFound)
    else
      End(s, id, if account.Some? && IsActive(s.db.bindings, req.device, account.value) then LastAdmin else NotFound)
  }

  /** The row takes its place in the log now, and is seen when the transaction commits. */
  function InsertAudit(s: State, id: nat): State
    requires id in s.txs && Locking(s.txs[id].req) && s.txs[id].pc.Wrote?
  {
    var tx := s.txs[id];
    var e := AuditRow(tx.req, tx.pc.role);
    if !Recordable(e) then End(s, id, if tx.req.DoRevoke? then NotFound else ServerError)
    else
      var late := if tx.req.DoRemove? then ActiveRows(s.db.bindings, tx.req.device) - tx.pc.rows else {};
      Move(s, id, Audited(tx.pc.rows, tx.pc.role, late)).(ids := s.ids + [Entry(e, Some(id))])
  }

  /** The tables with a transaction's writes in them. */
  function Written(t: Tables, tx: Tx): Tables
    requires Locking(tx.req) && Past(tx.pc)
  {
    t.(bindings := RevokeRows(t.bindings, tx.pc.rows), audit := t.audit + [AuditRow(tx.req, tx.pc.role)])
  }

  /** A statement that commits nothing. */
  function Statement(uuid: Cast, s: State, a: Act): State
    requires !a.Other? && !a.CommitTx? && Ready(s, a)
  {
    match a
    case Open(id, req) => s.(txs := s.txs[id := Tx(req, Begun)])
    case Lock(id) =>
      if s.txs[id].req.device !in s.db.devices then End(s, id, NotFound)
      else Move(s, id, Locked).(locks := s.locks[s.txs[id].req.device := id])
    case Check(id) =>
      if ActiveAdmin(s.db.bindings, s.txs[id].req.device, s.txs[id].req.actor) then Move(s, id, Checked)
      else End(s, id, NotFound)
    case Update(id) => UpdateRows(uuid, s, id)
    case Explain(id) => ExplainMiss(uuid, s, id)
    case Audit(id) => InsertAudit(s, id)
    case Abort(id) => End(s, id, ServerError).(ids := Dropped(s.ids, id))
  }

  function CommitWrites(s: State, id: nat): State
    requires id in s.txs && Locking(s.txs[id].req) && Past(s.txs[id].pc)
  {
    End(s, id, Ok).(db := Written(s.db, s.txs[id]), done := s.done + [s.txs[id].req], ids := Published(s.ids, id))
  }

  function RunOther(uuid: Cast, s: State, req: Request): State {
    var next := Step(uuid, s.db, req).next;
    s.(db := next, done := s.done + [req], ids := s.ids + NewRow(s.db, next))
  }

  function Next(uuid: Cast, s: State, a: Act): State
    requires Enabled(uuid, s, a)
  {
    if a.Other? then RunOther(uuid, s, a.req)
    else if a.CommitTx? then CommitWrites(s, a.id)
    else Statement(uuid, s, a)
  }

  /** A schedule is any sequence of actions, each enabled where it happens. */
  ghost predicate Schedule(uuid: Cast, s: State, actions: seq<Act>)
    decreases |actions|
  {
    actions == [] || (Enabled(uuid, s, actions[0]) && Schedule(uuid, Next(uuid, s, actions[0]), actions[1..]))
  }

  function Exec(uuid: Cast, s: State, actions: seq<Act>): State
    requires Schedule(uuid, s, actions)
    decreases |actions|
  {
    if actions == [] then s else Exec(uuid, Next(uuid, s, actions[0]), actions[1..])
  }

  lemma {:induction false} ScheduleMore(uuid: Cast, s: State, actions: seq<Act>, a: Act)
    requires Schedule(uuid, s, actions) && Enabled(uuid, Exec(uuid, s, actions), a)
    ensures Schedule(uuid, s, actions + [a])
    ensures Exec(uuid, s, actions + [a]) == Next(uuid, Exec(uuid, s, actions), a)
    decreases |actions|
  {
    if actions == [] {
      assert [] + [a] == [a] && [a][1..] == [];
    } else {
      assert (actions + [a])[1..] == actions[1..] + [a];
      ScheduleMore(uuid, Next(uuid, s, actions[0]), actions[1..], a);
    }
  }

  // ----- what every statement keeps

  /** Between taking the lock and ending. */
  predicate Inside(pc: Pc) {
    !pc.Begun? && !pc.Ended?
  }

  ghost predicate Admitted(db: Tables, req: Request)
    requires Locking(req)
  {
    req.actor in db.accounts && SafeToken(req.device) && (req.DoRevoke? ==> SafeToken(req.target))
  }

  /** The caller administers the device, or the PC has signed out since the check and nobody has
      access to it. */
  ghost predicate AdminOrEmpty(b: Bindings, req: Request)
    requires Locking(req)
  {
    ActiveAdmin(b, req.device, req.actor) || ActiveRows(b, req.device) == {}
  }

  /** A transaction between its UPDATE and its COMMIT: its rows are as it found them. */
  ghost predicate StillGood(uuid: Cast, b: Bindings, req: Request, rows: set<Row>, role: Option<Role>)
    requires Locking(req)
  {
    && rows <= ActiveRows(b, req.device)
    && (!req.DoLeave? ==> if rows == {} then ActiveRows(b, req.device) == {} else ActiveAdmin(b, req.device, req.actor))
    && if req.DoRemove? then role.None?
       else OneRow(uuid, b, req, rows, role)
  }

  ghost predicate OneRow(uuid: Cast, b: Bindings, req: Request, rows: set<Row>, role: Option<Role>)
    requires Locking(req)
  {
    && Account(uuid, req).Some? && rows == {(req.device, Account(uuid, req).value)} && role.Some?
    && IsActive(b, req.device, Account(uuid, req).value)
    && b[(req.device, Account(uuid, req).value)].role == role.value
    && (role == Some(Admin) ==> req.DoRevoke? && |Admins(b, req.device)| > 1)
  }

  ghost predicate FactsOk(uuid: Cast, b: Bindings, tx: Tx)
    requires Locking(tx.req)
  {
    && (tx.pc.Checked? ==> !tx.req.DoLeave?)
    && (tx.pc.Missed? ==> !tx.req.DoRemove? && Account(uuid, tx.req).Some?)
    && ((tx.pc.Checked? || tx.pc.Missed?) && !tx.req.DoLeave? ==> AdminOrEmpty(b, tx.req))
    && (Past(tx.pc) ==> StillGood(uuid, b, tx.req, tx.pc.rows, tx.pc.role))
    && (tx.pc.Audited? ==> Recordable(AuditRow(tx.req, tx.pc.role)))
  }

  ghost predicate TxOk(uuid: Cast, s: State, id: nat)
    requires id in s.txs
  {
    var tx := s.txs[id];
    && Locking(tx.req)
    && (!tx.pc.Ended? ==> Admitted(s.db, tx.req))
    && (Inside(tx.pc) ==> tx.req.device in s.locks && s.locks[tx.req.device] == id && tx.req.device in s.db.devices)
    && FactsOk(uuid, s.db.bindings, tx)
  }

  ghost predicate Inv(uuid: Cast, s: State) {
    (forall id :: id in s.txs ==> TxOk(uuid, s, id)) && AccessProofs.AccountsCanonical(uuid, s.db)
  }

  /** What can happen to the bindings of a locked device: nothing; or the PC signs out, if no row of
      it is held; or a redeem lets one account back in. */
  ghost predicate DeviceAfter(uuid: Cast, s: State, req: Request, device: string) {
    var b, next := s.db.bindings, Step(uuid, s.db, req).next.bindings;
    || (forall a :: StandingIn(next, (device, a)) == StandingIn(b, (device, a)))
    || (&& req == DoUnenrol(device) && !Locks.HoldsActive(s.db, HeldRows(s), device)
        && forall a :: !IsActive(next, device, a))
    || (&& Locks.Readmits(s.db, req, device) && AccessProofs.HasAdmin(b, device)
        && IsActive(next, device, req.actor)
        && forall a :: a != req.actor ==> StandingIn(next, (device, a)) == StandingIn(b, (device, a)))
  }

  lemma EnrolOnLocked(uuid: Cast, s: State, req: Request, device: string)
    requires OtherGoes(uuid, s, req) && device in s.locks && req.DoEnrol?
    ensures DeviceAfter(uuid, s, req, device)
  {
    assert req.device != device;
  }

  lemma RedeemOnLocked(uuid: Cast, s: State, req: Request, device: string)
    requires OtherGoes(uuid, s, req) && device in s.locks && req.DoRedeem?
    ensures DeviceAfter(uuid, s, req, device)
  {
    if Redeem(s.db, req.actor, req.code).code == Ok && s.db.invites[req.code].device == device {
      assert ActiveAdmin(s.db.bindings, device, s.db.invites[req.code].creator);
      assert Locks.Readmits(s.db, req, device);
    }
  }

  lemma OtherOnLocked(uuid: Cast, s: State, req: Request, device: string)
    requires OtherGoes(uuid, s, req) && device in s.locks
    ensures DeviceAfter(uuid, s, req, device)
  {
    if req.DoEnrol? {
      EnrolOnLocked(uuid, s, req, device);
    } else if req.DoRedeem? {
      RedeemOnLocked(uuid, s, req, device);
    } else if !req.DoUnenrol? {
      AccessProofs.QuietStep(uuid, s.db, req);
    }
  }

  // ----- the other handlers keep a transaction's facts

  lemma SameKeepsFacts(uuid: Cast, b: Bindings, next: Bindings, tx: Tx)
    requires Locking(tx.req) && FactsOk(uuid, b, tx)
    requires forall a :: StandingIn(next, (tx.req.device, a)) == StandingIn(b, (tx.req.device, a))
    ensures FactsOk(uuid, next, tx)
  {
    var device := tx.req.device;
    assert forall a :: ActiveAdmin(next, device, a) <==> ActiveAdmin(b, device, a);
    assert Admins(next, device) == Admins(b, device);
    forall r ensures r in ActiveRows(next, device) <==> r in ActiveRows(b, device) {
      if r.0 == device {
        assert StandingIn(next, (device, r.1)) == StandingIn(b, (device, r.1));
      }
    }
    assert ActiveRows(next, device) == ActiveRows(b, device);
  }

  lemma EmptiedKeepsFacts(uuid: Cast, b: Bindings, next: Bindings, tx: Tx)
    requires Locking(tx.req) && FactsOk(uuid, b, tx) && (Past(tx.pc) ==> tx.pc.rows == {})
    requires forall a :: !IsActive(next, tx.req.device, a)
    ensures FactsOk(uuid, next, tx)
  {
    forall r ensures r !in ActiveRows(next, tx.req.device) {
      assert !IsActive(next, tx.req.device, r.1);
    }
    assert ActiveRows(next, tx.req.device) == {};
  }

  lemma ReadmitKeepsFacts(uuid: Cast, b: Bindings, next: Bindings, tx: Tx, account: string)
    requires Locking(tx.req) && FactsOk(uuid, b, tx) && AccessProofs.HasAdmin(b, tx.req.device)
    requires !IsActive(b, tx.req.device, account) && IsActive(next, tx.req.device, account)
    requires forall a :: a != account ==> StandingIn(next, (tx.req.device, a)) == StandingIn(b, (tx.req.device, a))
    ensures FactsOk(uuid, next, tx)
  {
    var device := tx.req.device;
    var admin :| ActiveAdmin(b, device, admin);
    assert (device, admin) in ActiveRows(b, device);
    assert forall a :: ActiveAdmin(b, device, a) ==> ActiveAdmin(next, device, a);
    assert Admins(b, device) <= Admins(next, device);
    SubsetCardinality(Admins(b, device), Admins(next, device));
    forall r | r in ActiveRows(b, device) ensures r in ActiveRows(next, device) {
      assert r == (device, r.1);
      assert r.1 != account;
    }
  }

  lemma OtherKeepsTx(uuid: Cast, s: State, req: Request, id: nat)
    requires OtherGoes(uuid, s, req) && id in s.txs && TxOk(uuid, s, id)
    ensures TxOk(uuid, RunOther(uuid, s, req), id)
  {
    var tx, next := s.txs[id], Step(uuid, s.db, req).next;
    AccessProofs.StepKeepsOwners(uuid, s.db, req);
    if Inside(tx.pc) {
      OtherOnLocked(uuid, s, req, tx.req.device);
      OtherKeepsFacts(uuid, s, req, id);
    }
  }

  /** The rows of an open transaction keep out an UPDATE of the whole device. */
  lemma RowsAreHeld(uuid: Cast, s: State, id: nat)
    requires id in s.txs && TxOk(uuid, s, id)
    ensures Past(s.txs[id].pc) && s.txs[id].pc.rows != {} ==>
      Locks.HoldsActive(s.db, HeldRows(s), s.txs[id].req.device)
  {
    if Past(s.txs[id].pc) && s.txs[id].pc.rows != {} {
      var r :| r in s.txs[id].pc.rows;
      assert r in HeldRows(s) && Locks.WouldWrite(s.db, HeldRows(s), r);
    }
  }

  lemma OtherKeepsFacts(uuid: Cast, s: State, req: Request, id: nat)
    requires id in s.txs && TxOk(uuid, s, id) && DeviceAfter(uuid, s, req, s.txs[id].req.device)
    ensures FactsOk(uuid, Step(uuid, s.db, req).next.bindings, s.txs[id])
  {
    var tx, b, next := s.txs[id], s.db.bindings, Step(uuid, s.db, req).next.bindings;
    if forall a :: StandingIn(next, (tx.req.device, a)) == StandingIn(b, (tx.req.device, a)) {
      SameKeepsFacts(uuid, b, next, tx);
    } else if req == DoUnenrol(tx.req.device) {
      RowsAreHeld(uuid, s, id);
      EmptiedKeepsFacts(uuid, b, next, tx);
    } else {
      ReadmitKeepsFacts(uuid, b, next, tx, req.actor);
    }
  }

  // ----- the transactions themselves

  /** Only the lock holder can be past its lock, so a commit on one device leaves every other
      transaction's facts true: they are on other devices. */
  lemma CommitKeepsOthers(uuid: Cast, s: State, id: nat, other: nat)
    requires Ready(s, CommitTx(id)) && TxOk(uuid, s, id)
    requires other in s.txs && other != id && TxOk(uuid, s, other)
    ensures TxOk(uuid, CommitWrites(s, id), other)
  {
    var tx := s.txs[other];
    if Inside(tx.pc) {
      assert s.txs[id].req.device != tx.req.device;
      SameKeepsFacts(uuid, s.db.bindings, Written(s.db, s.txs[id]).bindings, tx);
    }
  }

  lemma StatementKeepsOthers(uuid: Cast, s: State, a: Act, id: nat)
    requires !a.Other? && !a.CommitTx? && Ready(s, a) && id != a.id
    requires id in s.txs && TxOk(uuid, s, id)
    ensures TxOk(uuid, Statement(uuid, s, a), id)
  {
    var next := Statement(uuid, s, a);
    assert next.db == s.db && next.txs[id] == s.txs[id];
    var device := s.txs[id].req.device;
    assert Inside(s.txs[id].pc) ==> device in next.locks && next.locks[device] == id;
  }

  lemma UpdateKeepsOwn(uuid: Cast, s: State, id: nat)
    requires id in s.txs && TxOk(uuid, s, id)
    requires if s.txs[id].req.DoLeave? then s.txs[id].pc.Locked? else s.txs[id].pc.Checked?
    ensures TxOk(uuid, UpdateRows(uuid, s, id), id)
  {
    var req, b := s.txs[id].req, s.db.bindings;
    if ActiveAdmin(b, req.device, req.actor) {
      assert (req.device, req.actor) in ActiveRows(b, req.device);
    }
    if !req.DoRemove? && Account(uuid, req).Some? && Revocable(uuid, s.db, req) {
      assert (req.device, Account(uuid, req).value) in ActiveRows(b, req.device);
    }
  }

  lemma AuditKeepsOwn(uuid: Cast, s: State, id: nat)
    requires id in s.txs && TxOk(uuid, s, id) && s.txs[id].pc.Wrote?
    ensures TxOk(uuid, InsertAudit(s, id), id)
  {
  }

  /** A statement that commits nothing keeps its own transaction's facts. */
  lemma StatementKeepsOwn(uuid: Cast, s: State, a: Act)
    requires !a.Other? && !a.CommitTx? && Ready(s, a)
    requires a.Open? || TxOk(uuid, s, a.id)
    ensures TxOk(uuid, Statement(uuid, s, a), a.id)
  {
    if a.Update? {
      UpdateKeepsOwn(uuid, s, a.id);
    } else if a.Audit? {
      AuditKeepsOwn(uuid, s, a.id);
    }
  }

  lemma CommitKeepsInv(uuid: Cast, s: State, id: nat)
    requires Inv(uuid, s) && Ready(s, CommitTx(id))
    ensures Inv(uuid, CommitWrites(s, id))
  {
    var next := CommitWrites(s, id);
    forall other | other in next.txs ensures TxOk(uuid, next, other) {
      if other != id {
        CommitKeepsOthers(uuid, s, id, other);
      }
    }
  }

  lemma NextKeepsInv(uuid: Cast, s: State, a: Act)
    requires Inv(uuid, s) && Enabled(uuid, s, a)
    ensures Inv(uuid, Next(uuid, s, a))
  {
    var next := Next(uuid, s, a);
    if a.Other? {
      AccessProofs.StepKeepsCanonical(uuid, s.db, a.req);
      forall id | id in next.txs ensures TxOk(uuid, next, id) {
        OtherKeepsTx(uuid, s, a.req, id);
      }
    } else if a.CommitTx? {
      CommitKeepsInv(uuid, s, a.id);
    } else {
      forall id | id in next.txs ensures TxOk(uuid, next, id) {
        if id == a.id {
          StatementKeepsOwn(uuid, s, a);
        } else {
          StatementKeepsOthers(uuid, s, a, id);
        }
      }
    }
  }

  lemma {:induction false} ScheduleKeepsInv(uuid: Cast, s: State, actions: seq<Act>)
    requires Inv(uuid, s) && Schedule(uuid, s, actions)
    ensures Inv(uuid, Exec(uuid, s, actions))
    decreases |actions|
  {
    if actions != [] {
      NextKeepsInv(uuid, s, actions[0]);
      ScheduleKeepsInv(uuid, Next(uuid, s, actions[0]), actions[1..]);
    }
  }

  /** At most one transaction per device is between taking the lock and ending. */
  lemma OneAtATime(uuid: Cast, actions: seq<Act>, x: nat, y: nat)
    requires Schedule(uuid, INIT, actions)
    requires var s := Exec(uuid, INIT, actions);
      && x in s.txs && y in s.txs && Locking(s.txs[x].req) && Locking(s.txs[y].req)
      && s.txs[x].req.device == s.txs[y].req.device && Inside(s.txs[x].pc) && Inside(s.txs[y].pc)
    ensures x == y
  {
    ScheduleKeepsInv(uuid, INIT, actions);
    var s := Exec(uuid, INIT, actions);
    assert TxOk(uuid, s, x) && TxOk(uuid, s, y);
  }

  // ----- commits against atomic transactions

  /** The rows a commit leaves active on its device that its UPDATE did not see. */
  function Missing(s: State, id: nat): set<Row>
    requires id in s.txs && Locking(s.txs[id].req) && Past(s.txs[id].pc)
  {
    if s.txs[id].req.DoRemove? then ActiveRows(s.db.bindings, s.txs[id].req.device) - s.txs[id].pc.rows else {}
  }

  /** A removal that found its caller still an admin, and after whose UPDATE nobody was let back in. A
      revoke and a leave always are. */
  predicate Undisturbed(s: State, id: nat)
    requires id in s.txs && Locking(s.txs[id].req) && Past(s.txs[id].pc)
  {
    s.txs[id].req.DoRemove? ==> s.txs[id].pc.rows != {} && Missing(s, id) == {}
  }

  lemma RevokeRowsIff(b: Bindings, rows: set<Row>, device: string)
    requires rows <= ActiveRows(b, device)
    ensures RevokeRows(b, rows) == RevokeAll(b, device) <==> ActiveRows(b, device) - rows == {}
  {
    var next, all := RevokeRows(b, rows), RevokeAll(b, device);
    if r :| r in ActiveRows(b, device) - rows {
      assert next[r].active && !all[r].active;
    } else {
      forall r | r in b && r.0 == device && b[r].active ensures r in rows {
        assert r in ActiveRows(b, device) && r !in ActiveRows(b, device) - rows;
      }
      assert next == all;
    }
  }

  lemma RevokeRowsOne(b: Bindings, r: Row)
    ensures RevokeRows(b, {r}) == RevokeRow(b, r)
  {
  }

  lemma RemovalIsAtomicIff(uuid: Cast, t: Tables, tx: Tx)
    requires tx.req.DoRemove? && tx.pc.Audited? && FactsOk(uuid, t.bindings, tx)
    requires Admitted(t, tx.req) && tx.req.device in t.devices
    ensures Step(uuid, t, tx.req) == Reply(Ok, Written(t, tx)) <==>
      tx.pc.rows != {} && ActiveRows(t.bindings, tx.req.device) - tx.pc.rows == {}
  {
    RevokeRowsIff(t.bindings, tx.pc.rows, tx.req.device);
    if ActiveAdmin(t.bindings, tx.req.device, tx.req.actor) {
      assert (tx.req.device, tx.req.actor) in ActiveRows(t.bindings, tx.req.device);
    }
  }

  lemma RevokeIsAtomic(uuid: Cast, t: Tables, tx: Tx)
    requires Locking(tx.req) && !tx.req.DoRemove? && tx.pc.Audited? && FactsOk(uuid, t.bindings, tx)
    requires Admitted(t, tx.req) && tx.req.device in t.devices
    ensures Step(uuid, t, tx.req) == Reply(Ok, Written(t, tx))
  {
    RevokeRowsOne(t.bindings, (tx.req.device, Account(uuid, tx.req).value));
  }

  /** A commit is the atomic transaction, run at that moment, exactly when it is undisturbed. */
  lemma CommitIsAtomicIff(uuid: Cast, s: State, id: nat)
    requires Enabled(uuid, s, CommitTx(id)) && TxOk(uuid, s, id)
    ensures Step(uuid, s.db, s.txs[id].req) == Reply(Ok, Next(uuid, s, CommitTx(id)).db) <==> Undisturbed(s, id)
  {
    if s.txs[id].req.DoRemove? {
      RemovalIsAtomicIff(uuid, s.db, s.txs[id]);
    } else {
      RevokeIsAtomic(uuid, s.db, s.txs[id]);
    }
  }

  ghost predicate AllUndisturbed(uuid: Cast, s: State, actions: seq<Act>)
    requires Schedule(uuid, s, actions)
    decreases |actions|
  {
    actions == [] ||
    (&& (actions[0].CommitTx? ==> Undisturbed(s, actions[0].id))
     && AllUndisturbed(uuid, Next(uuid, s, actions[0]), actions[1..]))
  }

  lemma {:induction false} SerialFrom(uuid: Cast, s: State, actions: seq<Act>)
    requires Inv(uuid, s) && s.db == Run(uuid, s.done)
    requires Schedule(uuid, s, actions) && AllUndisturbed(uuid, s, actions)
    ensures var t := Exec(uuid, s, actions); t.db == Run(uuid, t.done)
    decreases |actions|
  {
    if actions != [] {
      var a, next := actions[0], Next(uuid, s, actions[0]);
      NextKeepsInv(uuid, s, a);
      if a.CommitTx? {
        CommitIsAtomicIff(uuid, s, a.id);
        AccessProofs.RunMore(uuid, s.done, s.txs[a.id].req);
      } else if a.Other? {
        AccessProofs.RunMore(uuid, s.done, a.req);
      } else {
        assert next.db == s.db && next.done == s.done;
      }
      SerialFrom(uuid, next, actions[1..]);
    }
  }

  /** The lock serialises: after any schedule whose removals commit undisturbed, the committed tables
      are those of a serial run of the committed transactions in commit order. */
  lemma ScheduleIsSerial(uuid: Cast, actions: seq<Act>)
    requires Schedule(uuid, INIT, actions) && AllUndisturbed(uuid, INIT, actions)
    ensures var s := Exec(uuid, INIT, actions); s.db == Run(uuid, s.done)
  {
    SerialFrom(uuid, INIT, actions);
  }

  predicate NoRemovals(actions: seq<Act>) {
    forall i :: 0 <= i < |actions| ==> !(actions[i].Open? && actions[i].req.DoRemove?)
  }

  /** A transaction is about the same request from its beginning to its end. */
  lemma RequestsStay(uuid: Cast, s: State, a: Act)
    requires Enabled(uuid, s, a)
    ensures forall id :: id in Next(uuid, s, a).txs ==>
      if id in s.txs then Next(uuid, s, a).txs[id].req == s.txs[id].req
      else a == Open(id, Next(uuid, s, a).txs[id].req)
  {
  }

  lemma {:induction false} NoRemovalsFrom(uuid: Cast, s: State, actions: seq<Act>)
    requires Schedule(uuid, s, actions) && NoRemovals(actions)
    requires forall id :: id in s.txs ==> !s.txs[id].req.DoRemove?
    ensures AllUndisturbed(uuid, s, actions)
    decreases |actions|
  {
    if actions != [] {
      var next := Next(uuid, s, actions[0]);
      RequestsStay(uuid, s, actions[0]);
      assert forall id :: id in next.txs && id !in s.txs ==> actions[0] == Open(id, next.txs[id].req);
      NoRemovalsFrom(uuid, next, actions[1..]);
    }
  }

  /** In particular any schedule of revokes, leaves and other handlers. */
  lemma RevokesAreSerial(uuid: Cast, actions: seq<Act>)
    requires Schedule(uuid, INIT, actions) && NoRemovals(actions)
    ensures var s := Exec(uuid, INIT, actions); s.db == Run(uuid, s.done)
  {
    NoRemovalsFrom(uuid, INIT, actions);
    ScheduleIsSerial(uuid, actions);
  }
}
