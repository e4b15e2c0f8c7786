/** Redeeming an invite, statement by statement. Any number of redeems run at once: each reads the
    invite, then runs the guarded UPDATE, which waits for the row lock and looks at the committed
    row again, then writes the binding, then inserts its audit row, and commits or rolls back. All
    other handlers are taken whole, and commit between any two statements unless `Locks` makes them
    wait. An account deletion waits for the redeems whose rows it would touch. Codes are random, so
    no code is minted twice. The tables keep the audit rows in the order they were committed; `ids`
    is the log as its readers order it. */
module Invites {
  import opened Common
  import opened Access
  import opened AuditIds
  import AccessProofs
  import Authority
  import Locks

  datatype Pc =
    | Begun
    | Selected
    | Consumed(device: string, role: Role)
    | Upserted(device: string, role: Role)
    | Audited(device: string, role: Role)
    | Ended(code: Code)

  /** `looked` is how long the audit log was at the SELECT, and `wrote` the position of the row the
      commit wrote. The server keeps neither: they are what the properties are about. */
  datatype Tx = Tx(actor: string, code: string, pc: Pc, looked: nat, wrote: Option<nat>)

  /** The transaction has written the invite's row, and the binding's. */
  predicate Holds(pc: Pc) {
    pc.Consumed? || Binds(pc)
  }

  predicate Binds(pc: Pc) {
    pc.Upserted? || pc.Audited?
  }

  /** `locks` says which transaction holds an invite's row, `won` which one committed on it, and
      `minted` which codes were ever given out. */
  datatype State = State(
    db: Tables,
    locks: map<string, nat>,
    txs: map<nat, Tx>,
    won: map<string, nat>,
    minted: set<string>,
    ids: Ids)

  const INIT := State(EMPTY, map[], map[], map[], {}, [])

  datatype Act =
    | Open(id: nat, actor: string, code: string)
    | Select(id: nat)
    | Consume(id: nat)
    | Upsert(id: nat)
    | Audit(id: nat)
    | CommitTx(id: nat)
    | Abort(id: nat)
    | Other(req: Request)

  function Move(s: State, id: nat, pc: Pc): State
    requires id in s.txs
  {
    s.(txs := s.txs[id := s.txs[id].(pc := pc)])
  }

  function End(s: State, id: nat, code: Code): State
    requires id in s.txs
  {
    Move(s, id, Ended(code)).(locks := map c | c in s.locks && s.locks[c] != id :: s.locks[c])
  }

  /** The deletion has to wait: an open redeem has written its account id, or holds a row that the
      deletion would remove. */
  predicate DeletionWaits(s: State, account: string) {
    exists id :: id in s.txs && Holds(s.txs[id].pc) &&
      (|| s.txs[id].actor == account
       || (s.txs[id].code in s.db.invites && s.db.invites[s.txs[id].code].creator == account))
  }

  function RowOf(tx: Tx): Row
    requires Holds(tx.pc)
  {
    (tx.pc.device, tx.actor)
  }

  /** The binding rows that open redeems have written, and the devices that new ones refer to. */
  function HeldRows(s: State): (rows: set<Row>)
    ensures forall id :: id in s.txs && Binds(s.txs[id].pc) ==> RowOf(s.txs[id]) in rows
  {
    set id | id in s.txs && Binds(s.txs[id].pc) :: RowOf(s.txs[id])
  }

  function SharedDevices(s: State): (devices: set<string>)
    ensures forall id ::
      id in s.txs && Binds(s.txs[id].pc) && RowOf(s.txs[id]) !in s.db.bindings ==> s.txs[id].pc.device in devices
  {
    set id | id in s.txs && Binds(s.txs[id].pc) && RowOf(s.txs[id]) !in s.db.bindings :: s.txs[id].pc.device
  }

  ghost predicate Enabled(uuid: Cast, s: State, a: Act) {
    if a.Other? then OtherGoes(uuid, s, a.req) else AtStatement(s, a)
  }

  /** Another handler's transaction has nothing to wait for, and makes up no code twice. */
  ghost predicate OtherGoes(uuid: Cast, s: State, req: Request) {
    && !req.DoRedeem?
    && (req.DoCreateInvite? ==> req.code !in s.minted)
    && (req.DoDelete? ==> !DeletionWaits(s, req.actor))
    && !Locks.Waits(uuid, s.db, {}, SharedDevices(s), HeldRows(s), req)
  }

  /** The redeem has come to the statement, and what it locks is free. */
  predicate AtStatement(s: State, a: Act)
    requires !a.Other?
  {
    if a.Open? then a.id !in s.txs && a.actor in s.db.accounts
    else
      a.id in s.txs &&
      var tx := s.txs[a.id];
      match a
      case Select(_) => tx.pc.Begun?
      case Consume(_) => tx.pc.Selected? && tx.code !in s.locks
      case Upsert(_) => tx.pc.Consumed? && RowOf(tx) !in HeldRows(s)
      case Audit(_) => tx.pc.Upserted?
      case CommitTx(_) => tx.pc.Audited? && tx.code in s.db.invites
      case _ => !tx.pc.Ended?
  }

  function AuditRow(tx: Tx): Event
    requires Holds(tx.pc)
  {
    Event(tx.pc.device, tx.actor, InviteRedeemed, tx.actor, Some(tx.pc.role))
  }

  /** The SELECT, and the checks on what it returned. */
  function SelectInvite(s: State, id: nat): State
    requires id in s.txs
  {
    var tx, t := s.txs[id], s.db;
    if tx.code !in t.invites || t.invites[tx.code].used || t.invites[tx.code].expires <= t.clock
       || t.invites[tx.code].device !in t.devices then End(s, id, Invalid)
    else
      var i := t.invites[tx.code];
      if t.devices[i.device] != Active then End(s, id, DeviceOff)
      else if !ActiveAdmin(t.bindings, i.device, i.creator) then End(s, id, CreatorRevoked)
      else if IsActive(t.bindings, i.device, tx.actor) then End(s, id, AlreadyBound)
      else s.(txs := s.txs[id := tx.(pc := Selected, looked := |t.audit|)])
  }

  /** The guarded UPDATE. It looks at used_at again and at nothing else, and used_by has to be an
      account. */
  function ConsumeInvite(s: State, id: nat): State
    requires id in s.txs
  {
    var tx := s.txs[id];
    if tx.code !in s.db.invites || s.db.invites[tx.code].used then End(s, id, Invalid)
    else if tx.actor !in s.db.accounts then End(s, id, ServerError)
    else
      var i := s.db.invites[tx.code];
      Move(s, id, Consumed(i.device, i.role)).(locks := s.locks[tx.code := id])
  }

  /** A statement that commits nothing. */
  function Statement(s: State, a: Act): State
    requires !a.Other? && !a.CommitTx? && AtStatement(s, a)
  {
    match a
    case Open(id, actor, code) => s.(txs := s.txs[id := Tx(actor, code, Begun, 0, None)])
    case Select(id) => SelectInvite(s, id)
    case Consume(id) => ConsumeInvite(s, id)
    case Upsert(id) => Move(s, id, Upserted(s.txs[id].pc.device, s.txs[id].pc.role))
    case Audit(id) => InsertAudit(s, id)
    case Abort(id) => End(s, id, ServerError).(ids := Dropped(s.ids, id))
  }

  function CommitRedeem(s: State, id: nat): State
    requires id in s.txs && s.txs[id].pc.Audited? && s.txs[id].code in s.db.invites
  {
    var tx := s.txs[id];
    s.(db := Redeemed(s.db, tx),
       locks := map c | c in s.locks && s.locks[c] != id :: s.locks[c],
       txs := s.txs[id := tx.(pc := Ended(Ok), wrote := Some(|s.db.audit|))],
       won := s.won[tx.code := id],
       ids := Published(s.ids, id))
  }

  function RunOther(uuid: Cast, s: State, req: Request): State {
    var next := Step(uuid, s.db, req).next;
    s.(db := next, minted := s.minted + (if req.DoCreateInvite? then {req.code} else {}),
       ids := s.ids + NewRow(s.db, next))
  }

  function Next(uuid: Cast, s: State, a: Act): State
    requires Enabled(uuid, s, a)
  {
    if a.Other? then RunOther(uuid, s, a.req)
    else if a.CommitTx? then CommitRedeem(s, a.id)
    else Statement(s, a)
  }

  /** The row takes its place in the log now, and is seen when the redeem commits. */
  function InsertAudit(s: State, id: nat): State
    requires id in s.txs && s.txs[id].pc.Upserted?
  {
    var tx := s.txs[id];
    if !Recordable(AuditRow(tx)) then End(s, id, ServerError)
    else Move(s, id, Audited(tx.pc.device, tx.pc.role)).(ids := s.ids + [Entry(AuditRow(tx), Some(id))])
  }

  /** The tables with a redeem's writes in them. */
  function Redeemed(t: Tables, tx: Tx): Tables
    requires Holds(tx.pc) && tx.code in t.invites
  {
    t.(invites := t.invites[tx.code := t.invites[tx.code].(used := true, usedBy := Some(tx.actor))],
       bindings := Admit(t.bindings, (tx.pc.device, tx.actor), tx.pc.role, |t.audit|),
       audit := t.audit + [AuditRow(tx)])
  }

  ghost predicate Schedule(uuid: Cast, s: State, actions: seq<Act>)
    decreases |actions|
  {
    actions == [] || (Enabled(uuid, s, actions[0]) && Schedule(uuid, Next(uuid, s, actions[0]), actions[1..]))
  }

  function Exec(uuid: Cast, s: State, actions: seq<Act>): State
    requires Schedule(uuid, s, actions)
    decreases |actions|
  {
    if actions == [] then s else Exec(uuid, Next(uuid, s, actions[0]), actions[1..])
  }

  lemma {:induction false} ScheduleMore(uuid: Cast, s: State, actions: seq<Act>, a: Act)
    requires Schedule(uuid, s, actions) && Enabled(uuid, Exec(uuid, s, actions), a)
    ensures Schedule(uuid, s, actions + [a])
    ensures Exec(uuid, s, actions + [a]) == Next(uuid, Exec(uuid, s, actions), a)
    decreases |actions|
  {
    if actions == [] {
      assert [] + [a] == [a] && [a][1..] == [];
    } else {
      assert (actions + [a])[1..] == actions[1..] + [a];
      ScheduleMore(uuid, Next(uuid, s, actions[0]), actions[1..], a);
    }
  }

  // ----- what every statement keeps

  /** What the log said when a redeem looked: it was allowed then, and the device was not off. */
  ghost predicate AllowedThen(uuid: Cast, log: seq<Event>, looked: nat, e: Event) {
    && looked <= |log|
    && Authority.Authorised(uuid, AccessProofs.Replay(uuid, log[..looked]), e)
    && forall i :: 0 <= i < looked ==> !(log[i].action == DeviceDisabled && log[i].device == e.device)
  }

  lemma AllowedThenLasts(uuid: Cast, log: seq<Event>, more: seq<Event>, looked: nat, e: Event)
    requires AllowedThen(uuid, log, looked, e)
    ensures AllowedThen(uuid, log + more, looked, e)
  {
    assert (log + more)[..looked] == log[..looked];
  }

  function RowFor(tx: Tx, i: Invite): Event {
    Event(i.device, tx.actor, InviteRedeemed, tx.actor, Some(i.role))
  }

  /** What a transaction knows, at each of its points. */
  ghost predicate TxOk(uuid: Cast, s: State, id: nat)
    requires id in s.txs
  {
    var tx := s.txs[id];
    match tx.pc
    case Begun => true
    case Selected => SelectedOk(uuid, s.db, s.minted, tx)
    case Consumed(_, _) => HoldsOk(uuid, s, id)
    case Upserted(_, _) => HoldsOk(uuid, s, id)
    case Audited(_, _) => HoldsOk(uuid, s, id) && Recordable(AuditRow(tx))
    case Ended(code) => code == Ok ==> WonOk(uuid, s.db.audit, tx) && tx.code in s.won && s.won[tx.code] == id
  }

  ghost predicate HoldsOk(uuid: Cast, s: State, id: nat)
    requires id in s.txs && Holds(s.txs[id].pc)
  {
    ConsumedOk(uuid, s.db, s.minted, s.txs[id]) && s.txs[id].code in s.locks && s.locks[s.txs[id].code] == id
  }

  ghost predicate SelectedOk(uuid: Cast, t: Tables, minted: set<string>, tx: Tx) {
    && tx.code in minted
    && (tx.code in t.invites ==> AllowedThen(uuid, t.audit, tx.looked, RowFor(tx, t.invites[tx.code])))
  }

  ghost predicate ConsumedOk(uuid: Cast, t: Tables, minted: set<string>, tx: Tx)
    requires Holds(tx.pc)
  {
    && SelectedOk(uuid, t, minted, tx) && tx.actor in t.accounts
    && tx.code in t.invites && !t.invites[tx.code].used
    && t.invites[tx.code].device == tx.pc.device && t.invites[tx.code].role == tx.pc.role
  }

  ghost predicate WonOk(uuid: Cast, log: seq<Event>, tx: Tx) {
    && tx.wrote.Some? && tx.looked <= tx.wrote.value < |log|
    && log[tx.wrote.value].action == InviteRedeemed && log[tx.wrote.value].account == tx.actor
    && AllowedThen(uuid, log, tx.looked, log[tx.wrote.value])
  }

  /** An invite is used exactly when a redeem of it has won, and records that one's account for as
      long as it exists. */
  ghost predicate InviteOk(s: State, c: string) {
    && (c in s.db.invites ==> c in s.minted && (s.db.invites[c].used <==> c in s.won))
    && (c in s.won ==>
          && c in s.minted && s.won[c] in s.txs && s.txs[s.won[c]].pc == Ended(Ok) && s.txs[s.won[c]].code == c
          && Named(s.db.audit, s.txs[s.won[c]].actor)
          && (c in s.db.invites ==> s.db.invites[c].usedBy == KeptBy(s.db, s.txs[s.won[c]].actor)))
  }

  /** Who an invite says redeemed it: the account, until it is deleted. */
  function KeptBy(t: Tables, actor: string): Option<string> {
    if actor in t.accounts then Some(actor) else None
  }

  /** Every row of the log is authorised by the rows before it, or is the row of a redeem that was
      allowed when it looked. */
  ghost predicate RowOk(uuid: Cast, s: State, j: nat)
    requires j < |s.db.audit|
  {
    if s.db.audit[j].action == InviteRedeemed then exists id :: Wrote(s, id, j)
    else Authority.Authorised(uuid, AccessProofs.Replay(uuid, s.db.audit[..j]), s.db.audit[j])
  }

  predicate Wrote(s: State, id: nat, j: nat) {
    id in s.txs && s.txs[id].pc == Ended(Ok) && s.txs[id].wrote == Some(j)
  }

  ghost predicate DbOk(uuid: Cast, t: Tables) {
    && AccessProofs.AccountsCanonical(uuid, t)
    && t.bindings == AccessProofs.Replay(uuid, t.audit)
    && AccessProofs.InviteKeys(t) && Authority.DisabledStay(t)
    && forall c :: c in t.invites ==> Named(t.audit, t.invites[c].creator)
  }

  ghost predicate Inv(uuid: Cast, s: State) {
    && (forall id :: id in s.txs ==> TxOk(uuid, s, id))
    && (forall c :: InviteOk(s, c))
    && (forall j :: 0 <= j < |s.db.audit| ==> RowOk(uuid, s, j))
    && DbOk(uuid, s.db)
  }

  // ----- statements that commit nothing

  lemma StatementKeepsOthers(uuid: Cast, s: State, a: Act, id: nat)
    requires !a.Other? && !a.CommitTx? && AtStatement(s, a) && id != a.id
    requires id in s.txs && TxOk(uuid, s, id)
    ensures TxOk(uuid, Statement(s, a), id)
  {
    StatementFrame(uuid, s, a, id);
  }

  /** What one redeem's statement leaves of another redeem. */
  ghost predicate Untouched(s: State, next: State, id: nat)
    requires id in s.txs
  {
    && next.db == s.db && next.minted == s.minted && next.won == s.won
    && id in next.txs && next.txs[id] == s.txs[id]
    && forall c :: c in s.locks && s.locks[c] == id ==> c in next.locks && next.locks[c] == id
  }

  lemma SelectFrame(s: State, mine: nat, id: nat)
    requires mine in s.txs && id in s.txs && id != mine
    ensures Untouched(s, SelectInvite(s, mine), id)
  {
  }

  lemma ConsumeFrame(s: State, mine: nat, id: nat)
    requires mine in s.txs && id in s.txs && id != mine && s.txs[mine].code !in s.locks
    ensures Untouched(s, ConsumeInvite(s, mine), id)
  {
  }

  lemma AuditFrame(s: State, mine: nat, id: nat)
    requires mine in s.txs && id in s.txs && id != mine && s.txs[mine].pc.Upserted?
    ensures Untouched(s, InsertAudit(s, mine), id)
  {
  }

  /** A statement that commits nothing touches its own transaction and its own lock. */
  lemma StatementFrame(uuid: Cast, s: State, a: Act, id: nat)
    requires !a.Other? && !a.CommitTx? && AtStatement(s, a) && id != a.id && id in s.txs
    ensures Untouched(s, Statement(s, a), id)
  {
    match a
    case Select(mine) => SelectFrame(s, mine, id);
    case Consume(mine) => ConsumeFrame(s, mine, id);
    case Audit(mine) => AuditFrame(s, mine, id);
    case _ =>
  }

  /** A SELECT that goes on has found the redeem allowed, and the device on. */
  lemma SelectAllows(uuid: Cast, s: State, id: nat)
    requires id in s.txs && DbOk(uuid, s.db) && SelectInvite(s, id).txs[id].pc.Selected? && !s.txs[id].pc.Selected?
    ensures var tx := s.txs[id];
      && tx.code in s.db.invites
      && AllowedThen(uuid, s.db.audit, |s.db.audit|, RowFor(tx, s.db.invites[tx.code]))
  {
    assert s.db.audit[..|s.db.audit|] == s.db.audit;
    var i := s.db.invites[s.txs[id].code];
    assert ActiveAdmin(s.db.bindings, i.device, i.creator);
    forall k | 0 <= k < |s.db.audit| && s.db.audit[k].action == DeviceDisabled
      ensures s.db.audit[k].device != i.device
    {
      assert Authority.Off(s.db, s.db.audit[k].device);
    }
  }

  lemma SelectKeepsOwn(uuid: Cast, s: State, id: nat)
    requires id in s.txs && s.txs[id].pc.Begun? && DbOk(uuid, s.db) && InviteOk(s, s.txs[id].code)
    ensures TxOk(uuid, SelectInvite(s, id), id)
  {
    if SelectInvite(s, id).txs[id].pc.Selected? {
      SelectAllows(uuid, s, id);
    }
  }

  lemma ConsumeKeepsOwn(uuid: Cast, s: State, id: nat)
    requires id in s.txs && s.txs[id].pc.Selected? && TxOk(uuid, s, id)
    ensures TxOk(uuid, ConsumeInvite(s, id), id)
  {
  }

  lemma StatementKeepsOwn(uuid: Cast, s: State, a: Act)
    requires Inv(uuid, s) && !a.Other? && !a.CommitTx? && AtStatement(s, a)
    ensures TxOk(uuid, Statement(s, a), a.id)
  {
    if a.Select? {
      assert InviteOk(s, s.txs[a.id].code);
      SelectKeepsOwn(uuid, s, a.id);
    } else if a.Consume? {
      assert TxOk(uuid, s, a.id);
      ConsumeKeepsOwn(uuid, s, a.id);
    } else if a.Upsert? || a.Audit? {
      assert TxOk(uuid, s, a.id);
    }
  }

  lemma StatementKeepsInvite(uuid: Cast, s: State, a: Act, c: string)
    requires !a.Other? && !a.CommitTx? && AtStatement(s, a) && InviteOk(s, c)
    ensures InviteOk(Statement(s, a), c)
  {
    var next := Statement(s, a);
    assert next.db == s.db && next.minted == s.minted && next.won == s.won;
    if c in s.won {
      assert next.txs[s.won[c]] == s.txs[s.won[c]];
    }
  }

  lemma StatementKeepsRow(uuid: Cast, s: State, a: Act, j: nat)
    requires !a.Other? && !a.CommitTx? && AtStatement(s, a) && j < |s.db.audit| && RowOk(uuid, s, j)
    ensures j < |Statement(s, a).db.audit| && RowOk(uuid, Statement(s, a), j)
  {
    var next := Statement(s, a);
    assert next.db == s.db;
    if s.db.audit[j].action == InviteRedeemed {
      var id :| Wrote(s, id, j);
      assert Wrote(next, id, j);
    }
  }

  lemma StatementKeepsTxs(uuid: Cast, s: State, a: Act)
    requires Inv(uuid, s) && !a.Other? && !a.CommitTx? && AtStatement(s, a)
    ensures forall id :: id in Statement(s, a).txs ==> TxOk(uuid, Statement(s, a), id)
  {
    var next := Statement(s, a);
    forall id | id in next.txs ensures TxOk(uuid, next, id) {
      if id == a.id {
        StatementKeepsOwn(uuid, s, a);
      } else {
        StatementKeepsOthers(uuid, s, a, id);
      }
    }
  }

  lemma StatementKeepsInv(uuid: Cast, s: State, a: Act)
    requires Inv(uuid, s) && !a.Other? && !a.CommitTx? && AtStatement(s, a)
    ensures Inv(uuid, Statement(s, a))
  {
    var next := Statement(s, a);
    StatementKeepsTxs(uuid, s, a);
    forall c ensures InviteOk(next, c) {
      StatementKeepsInvite(uuid, s, a, c);
    }
    forall j | 0 <= j < |next.db.audit| ensures RowOk(uuid, next, j) {
      StatementKeepsRow(uuid, s, a, j);
    }
  }

  // ----- commits

  lemma RedeemedKeepsDb(uuid: Cast, t: Tables, minted: set<string>, tx: Tx)
    requires Holds(tx.pc) && DbOk(uuid, t) && ConsumedOk(uuid, t, minted, tx)
    ensures DbOk(uuid, Redeemed(t, tx))
  {
    var next := Redeemed(t, tx);
    assert next.bindings == AccessProofs.ApplyEvent(uuid, t.bindings, AuditRow(tx), |t.audit|);
    AccessProofs.LoggedKeepsReplay(uuid, t, next);
    forall i | 0 <= i < |next.audit| && next.audit[i].action == DeviceDisabled
      ensures Authority.Off(next, next.audit[i].device)
    {
      assert Authority.Off(t, t.audit[i].device);
    }
    forall c | c in next.invites ensures Named(next.audit, next.invites[c].creator) {
      NamedLasts(t.audit, [AuditRow(tx)], t.invites[c].creator);
    }
  }

  lemma NamedLasts(log: seq<Event>, more: seq<Event>, account: string)
    requires Named(log, account)
    ensures Named(log + more, account)
  {
    var i :| 0 <= i < |log| && log[i].account == account;
    assert (log + more)[i].account == account;
  }

  /** What a longer log and other invites leave of a transaction's facts. */
  lemma WonLasts(uuid: Cast, log: seq<Event>, more: seq<Event>, tx: Tx)
    requires WonOk(uuid, log, tx)
    ensures WonOk(uuid, log + more, tx)
  {
    AllowedThenLasts(uuid, log, more, tx.looked, log[tx.wrote.value]);
  }

  lemma SelectedLasts(uuid: Cast, t: Tables, next: Tables, more: seq<Event>,
                      minted: set<string>, added: set<string>, tx: Tx)
    requires SelectedOk(uuid, t, minted, tx) && next.audit == t.audit + more
    requires tx.code in next.invites ==>
      && tx.code in t.invites
      && next.invites[tx.code].device == t.invites[tx.code].device
      && next.invites[tx.code].role == t.invites[tx.code].role
    ensures SelectedOk(uuid, next, minted + added, tx)
  {
    if tx.code in next.invites {
      AllowedThenLasts(uuid, t.audit, more, tx.looked, RowFor(tx, t.invites[tx.code]));
    }
  }

  lemma CommitKeepsOther(uuid: Cast, s: State, id: nat, other: nat)
    requires AtStatement(s, CommitTx(id)) && TxOk(uuid, s, id) && InviteOk(s, s.txs[id].code)
    requires other in s.txs && other != id && TxOk(uuid, s, other)
    ensures TxOk(uuid, CommitRedeem(s, id), other)
  {
    var next, tx := CommitRedeem(s, id), s.txs[other];
    var row := AuditRow(s.txs[id]);
    assert s.minted + {} == s.minted && next.db.audit == s.db.audit + [row];
    if tx.pc.Selected? || Holds(tx.pc) {
      SelectedLasts(uuid, s.db, next.db, [row], s.minted, {}, tx);
    } else if tx.pc == Ended(Ok) {
      WonLasts(uuid, s.db.audit, [row], tx);
    }
  }

  lemma CommitKeepsOwn(uuid: Cast, s: State, id: nat)
    requires AtStatement(s, CommitTx(id)) && TxOk(uuid, s, id)
    ensures TxOk(uuid, CommitRedeem(s, id), id)
  {
    var row := AuditRow(s.txs[id]);
    AllowedThenLasts(uuid, s.db.audit, [row], s.txs[id].looked, row);
    assert (s.db.audit + [row])[|s.db.audit|] == row;
  }

  lemma CommitKeepsInvite(uuid: Cast, s: State, id: nat, c: string)
    requires AtStatement(s, CommitTx(id)) && TxOk(uuid, s, id) && InviteOk(s, c)
    ensures InviteOk(CommitRedeem(s, id), c)
  {
    var next, row := CommitRedeem(s, id), AuditRow(s.txs[id]);
    if c == s.txs[id].code {
      assert next.db.audit[|s.db.audit|] == row;
    } else if c in s.won {
      NamedLasts(s.db.audit, [row], s.txs[s.won[c]].actor);
      assert s.won[c] != id;
    }
  }

  lemma CommitKeepsRow(uuid: Cast, s: State, id: nat, j: nat)
    requires AtStatement(s, CommitTx(id)) && j < |CommitRedeem(s, id).db.audit|
    requires j < |s.db.audit| ==> RowOk(uuid, s, j)
    ensures RowOk(uuid, CommitRedeem(s, id), j)
  {
    var next := CommitRedeem(s, id);
    if j == |s.db.audit| {
      assert Wrote(next, id, j);
    } else {
      assert next.db.audit[j] == s.db.audit[j] && next.db.audit[..j] == s.db.audit[..j];
      if s.db.audit[j].action == InviteRedeemed {
        var other :| Wrote(s, other, j);
        assert Wrote(next, other, j);
      }
    }
  }

  lemma CommitKeepsInv(uuid: Cast, s: State, id: nat)
    requires Inv(uuid, s) && AtStatement(s, CommitTx(id))
    ensures Inv(uuid, CommitRedeem(s, id))
  {
    var next := CommitRedeem(s, id);
    assert TxOk(uuid, s, id) && InviteOk(s, s.txs[id].code);
    forall other | other in next.txs ensures TxOk(uuid, next, other) {
      if other == id {
        CommitKeepsOwn(uuid, s, id);
      } else {
        CommitKeepsOther(uuid, s, id, other);
      }
    }
    forall c ensures InviteOk(next, c) {
      CommitKeepsInvite(uuid, s, id, c);
    }
    forall j | 0 <= j < |next.db.audit| ensures RowOk(uuid, next, j) {
      CommitKeepsRow(uuid, s, id, j);
    }
    RedeemedKeepsDb(uuid, s.db, s.minted, s.txs[id]);
  }

  // ----- the other handlers

  /** What another handler does to the invites: it may add one under a new code, and a deletion
      removes those of its account and takes its name off those it redeemed. */
  ghost predicate InvitesAfter(t: Tables, next: Tables, req: Request) {
    forall c ::
      && (c in t.invites && !(req.DoDelete? && t.invites[c].creator == req.actor && next != t) ==>
            && c in next.invites
            && next.invites[c] == t.invites[c].(usedBy :=
                 if req.DoDelete? && next != t && t.invites[c].usedBy == Some(req.actor) then None
                   else t.invites[c].usedBy))
      && (c in next.invites && c !in t.invites ==> req.DoCreateInvite? && c == req.code && !next.invites[c].used)
      && (c in t.invites && c in next.invites && req.DoDelete? && next != t ==> t.invites[c].creator != req.actor)
  }

  lemma OtherInvites(uuid: Cast, t: Tables, req: Request)
    requires !req.DoRedeem?
    ensures InvitesAfter(t, Step(uuid, t, req).next, req)
  {
    if !AccessProofs.TouchesInvites(req) {
      AccessProofs.InvitesUntouched(uuid, t, req);
    }
  }

  /** An account the log names is there afterwards exactly when it was and was not deleted. */
  lemma OtherAccount(uuid: Cast, t: Tables, req: Request, account: string)
    requires Named(t.audit, account)
    ensures var next := Step(uuid, t, req).next;
      account in next.accounts <==> account in t.accounts && !(req.DoDelete? && req.actor == account && next != t)
  {
    var next := Step(uuid, t, req).next;
    if account in next.accounts && account !in t.accounts {
      Authority.AccountsAreNew(uuid, t, req, account);
    }
    AccessProofs.StepKeepsOwners(uuid, t, req);
    if req.DoDelete? && next != t {
      assert next.accounts == t.accounts - {req.actor};
    }
  }

  function Added(row: Option<Event>): seq<Event> {
    if row.Some? then [row.value] else []
  }

  lemma CreatorIsNamed(uuid: Cast, t: Tables, req: Request, c: string)
    requires req.DoCreateInvite? && c !in t.invites && c in Step(uuid, t, req).next.invites
    ensures Named(Step(uuid, t, req).next.audit, Step(uuid, t, req).next.invites[c].creator)
  {
    var next := Step(uuid, t, req).next;
    assert next.audit[|t.audit|].account == req.actor;
  }

  lemma OtherKeepsDb(uuid: Cast, t: Tables, req: Request, row: Option<Event>)
    requires DbOk(uuid, t) && !req.DoRedeem? && Step(uuid, t, req).next.audit == t.audit + Added(row)
    ensures DbOk(uuid, Step(uuid, t, req).next)
  {
    var next := Step(uuid, t, req).next;
    AccessProofs.StepKeepsCanonical(uuid, t, req);
    AccessProofs.StepIsLogged(uuid, t, req);
    AccessProofs.LoggedKeepsReplay(uuid, t, next);
    AccessProofs.StepKeepsInviteKeys(uuid, t, req);
    Authority.StepKeepsDisabled(uuid, t, req, row);
    OtherInvites(uuid, t, req);
    forall c | c in next.invites ensures Named(next.audit, next.invites[c].creator) {
      if c in t.invites {
        NamedLasts(t.audit, Added(row), t.invites[c].creator);
      } else {
        CreatorIsNamed(uuid, t, req, c);
      }
    }
  }

  lemma OtherKeepsTx(uuid: Cast, s: State, req: Request, row: Option<Event>, id: nat)
    requires OtherGoes(uuid, s, req) && id in s.txs && TxOk(uuid, s, id)
    requires Step(uuid, s.db, req).next.audit == s.db.audit + Added(row)
    ensures TxOk(uuid, RunOther(uuid, s, req), id)
  {
    var next, tx := RunOther(uuid, s, req), s.txs[id];
    OtherInvites(uuid, s.db, req);
    var more, added := Added(row), if req.DoCreateInvite? then {req.code} else {};
    if tx.pc.Selected? || Holds(tx.pc) {
      if Holds(tx.pc) {
        AccessProofs.StepKeepsOwners(uuid, s.db, req);
        assert req.DoDelete? ==> req.actor != tx.actor && req.actor != s.db.invites[tx.code].creator;
      }
      SelectedLasts(uuid, s.db, next.db, more, s.minted, added, tx);
    } else if tx.pc == Ended(Ok) {
      WonLasts(uuid, s.db.audit, more, tx);
    }
  }

  lemma OtherKeepsInvite(uuid: Cast, s: State, req: Request, row: Option<Event>, c: string)
    requires OtherGoes(uuid, s, req) && InviteOk(s, c)
    requires Step(uuid, s.db, req).next.audit == s.db.audit + Added(row)
    ensures InviteOk(RunOther(uuid, s, req), c)
  {
    OtherInvites(uuid, s.db, req);
    if c in s.won {
      var actor := s.txs[s.won[c]].actor;
      NamedLasts(s.db.audit, Added(row), actor);
      OtherAccount(uuid, s.db, req, actor);
    }
  }

  lemma OtherKeepsRow(uuid: Cast, s: State, req: Request, row: Option<Event>, j: nat)
    requires OtherGoes(uuid, s, req) && DbOk(uuid, s.db) && j < |RunOther(uuid, s, req).db.audit|
    requires Step(uuid, s.db, req).next.audit == s.db.audit + Added(row)
    requires row.Some? ==> Authority.Authorised(uuid, s.db.bindings, row.value)
    requires j < |s.db.audit| ==> RowOk(uuid, s, j)
    ensures RowOk(uuid, RunOther(uuid, s, req), j)
  {
    var log, next := s.db.audit, RunOther(uuid, s, req);
    if j < |log| {
      assert next.db.audit[j] == log[j] && next.db.audit[..j] == log[..j];
      if log[j].action == InviteRedeemed {
        var id :| Wrote(s, id, j);
        assert Wrote(next, id, j);
      }
    } else {
      assert next.db.audit[j] == row.value && next.db.audit[..j] == log;
      if row.value.action == InviteRedeemed {
        Authority.RedeemedRow(uuid, s.db, req, row.value);
      }
    }
  }

  lemma OtherKeepsInv(uuid: Cast, s: State, req: Request)
    requires Inv(uuid, s) && OtherGoes(uuid, s, req)
    ensures Inv(uuid, RunOther(uuid, s, req))
  {
    var next := RunOther(uuid, s, req);
    var row := Authority.StepRow(uuid, s.db, req);
    OtherKeepsDb(uuid, s.db, req, row);
    forall id | id in next.txs ensures TxOk(uuid, next, id) {
      OtherKeepsTx(uuid, s, req, row, id);
    }
    forall c ensures InviteOk(next, c) {
      OtherKeepsInvite(uuid, s, req, row, c);
    }
    forall j | 0 <= j < |next.db.audit| ensures RowOk(uuid, next, j) {
      OtherKeepsRow(uuid, s, req, row, j);
    }
  }

  lemma NextKeepsInv(uuid: Cast, s: State, a: Act)
    requires Inv(uuid, s) && Enabled(uuid, s, a)
    ensures Inv(uuid, Next(uuid, s, a))
  {
    if a.Other? {
      OtherKeepsInv(uuid, s, a.req);
    } else if !a.CommitTx? {
      StatementKeepsInv(uuid, s, a);
    } else {
      CommitKeepsInv(uuid, s, a.id);
    }
  }

  lemma {:induction false} ScheduleKeepsInv(uuid: Cast, s: State, actions: seq<Act>)
    requires Inv(uuid, s) && Schedule(uuid, s, actions)
    ensures Inv(uuid, Exec(uuid, s, actions))
    decreases |actions|
  {
    if actions != [] {
      NextKeepsInv(uuid, s, actions[0]);
      ScheduleKeepsInv(uuid, Next(uuid, s, actions[0]), actions[1..]);
    }
  }

  // ----- an invite is redeemed once

  /** Each invite is consumed by at most one committed redeem, and says so for as long as it exists:
      used by that redeem's account, or by nobody once that account is deleted. */
  lemma ConsumedOnce(uuid: Cast, actions: seq<Act>, x: nat, y: nat)
    requires Schedule(uuid, INIT, actions)
    requires var s := Exec(uuid, INIT, actions);
      && x in s.txs && y in s.txs && s.txs[x].code == s.txs[y].code
      && s.txs[x].pc == Ended(Ok) && s.txs[y].pc == Ended(Ok)
    ensures x == y
    ensures var s := Exec(uuid, INIT, actions);
      var tx := s.txs[x];
      tx.code in s.db.invites ==>
        s.db.invites[tx.code].used && s.db.invites[tx.code].usedBy == KeptBy(s.db, tx.actor)
  {
    ScheduleKeepsInv(uuid, INIT, actions);
    var s := Exec(uuid, INIT, actions);
    assert TxOk(uuid, s, x) && TxOk(uuid, s, y) && InviteOk(s, s.txs[x].code);
  }

  /** A refused or aborted redeem burns nothing: an invite is used exactly when some redeem of it
      answered Ok. */
  lemma UsedIffWon(uuid: Cast, actions: seq<Act>, code: string)
    requires Schedule(uuid, INIT, actions)
    requires code in Exec(uuid, INIT, actions).db.invites
    ensures var s := Exec(uuid, INIT, actions);
      s.db.invites[code].used <==> exists id :: id in s.txs && s.txs[id].code == code && s.txs[id].pc == Ended(Ok)
  {
    ScheduleKeepsInv(uuid, INIT, actions);
    var s := Exec(uuid, INIT, actions);
    assert InviteOk(s, code);
    if id :| id in s.txs && s.txs[id].code == code && s.txs[id].pc == Ended(Ok) {
      assert TxOk(uuid, s, id);
    }
  }

  /** An invite as a deletion of its redeemer leaves it. */
  function WithoutGone(t: Tables, i: Invite): Invite {
    if i.usedBy.Some? && i.usedBy.value !in t.accounts then i.(usedBy := None) else i
  }

  /** What becomes of a used invite: it goes with its creator, and loses its redeemer with the
      redeemer's account. Nothing else changes it. */
  ghost predicate UsedAfter(i: Invite, code: string, next: Tables) {
    && (code in next.invites <==> i.creator in next.accounts)
    && (code in next.invites ==> next.invites[code] == WithoutGone(next, i))
  }

  lemma OtherKeepsUsed(uuid: Cast, s: State, req: Request, code: string)
    requires DbOk(uuid, s.db) && Enabled(uuid, s, Other(req)) && code in s.db.invites && s.db.invites[code].used
    ensures UsedAfter(s.db.invites[code], code, Step(uuid, s.db, req).next)
  {
    var i, next := s.db.invites[code], Step(uuid, s.db, req).next;
    OtherInvites(uuid, s.db, req);
    OtherAccount(uuid, s.db, req, i.creator);
    AccessProofs.StepKeepsOwners(uuid, s.db, req);
    if req.DoDelete? && next != s.db {
      assert next.accounts == s.db.accounts - {req.actor};
    }
  }

  lemma NextKeepsUsed(uuid: Cast, s: State, a: Act, code: string)
    requires Inv(uuid, s) && Enabled(uuid, s, a) && code in s.db.invites && s.db.invites[code].used
    ensures UsedAfter(s.db.invites[code], code, Next(uuid, s, a).db)
  {
    if a.Other? {
      OtherKeepsUsed(uuid, s, a.req, code);
    } else if a.CommitTx? {
      assert TxOk(uuid, s, a.id);
      CommitKeepsUsed(uuid, s, a.id, code);
    } else {
      assert Next(uuid, s, a).db == s.db;
    }
  }

  lemma CommitKeepsUsed(uuid: Cast, s: State, id: nat, code: string)
    requires DbOk(uuid, s.db) && Enabled(uuid, s, CommitTx(id)) && TxOk(uuid, s, id)
    requires code in s.db.invites && s.db.invites[code].used
    ensures UsedAfter(s.db.invites[code], code, Next(uuid, s, CommitTx(id)).db)
  {
  }

  /** The log only grows, and an account that it names and that is gone stays gone. */
  lemma AccountStaysGone(uuid: Cast, s: State, a: Act, account: string)
    requires Inv(uuid, s) && Enabled(uuid, s, a) && Named(s.db.audit, account)
    ensures Named(Next(uuid, s, a).db.audit, account)
    ensures account !in s.db.accounts ==> account !in Next(uuid, s, a).db.accounts
  {
    if a.Other? {
      var row := Authority.StepRow(uuid, s.db, a.req);
      NamedLasts(s.db.audit, Added(row), account);
      OtherAccount(uuid, s.db, a.req, account);
    } else if a.CommitTx? {
      NamedLasts(s.db.audit, [AuditRow(s.txs[a.id])], account);
    } else {
      assert Next(uuid, s, a).db == s.db;
    }
  }

  /** A code that was minted and whose invite is gone never names an invite again. */
  lemma InviteStaysGone(uuid: Cast, s: State, a: Act, code: string)
    requires Enabled(uuid, s, a) && code in s.minted && code !in s.db.invites
    ensures code in Next(uuid, s, a).minted && code !in Next(uuid, s, a).db.invites
  {
    if a.Other? {
      OtherInvites(uuid, s.db, a.req);
    }
  }

  lemma {:induction false} AccountGoneFrom(uuid: Cast, s: State, actions: seq<Act>, account: string)
    requires Inv(uuid, s) && Schedule(uuid, s, actions) && Named(s.db.audit, account) && account !in s.db.accounts
    ensures account !in Exec(uuid, s, actions).db.accounts
    decreases |actions|
  {
    if actions != [] {
      NextKeepsInv(uuid, s, actions[0]);
      AccountStaysGone(uuid, s, actions[0], account);
      AccountGoneFrom(uuid, Next(uuid, s, actions[0]), actions[1..], account);
    }
  }

  lemma {:induction false} InviteGoneFrom(uuid: Cast, s: State, actions: seq<Act>, code: string)
    requires Schedule(uuid, s, actions) && code in s.minted && code !in s.db.invites
    ensures code !in Exec(uuid, s, actions).db.invites
    decreases |actions|
  {
    if actions != [] {
      InviteStaysGone(uuid, s, actions[0], code);
      InviteGoneFrom(uuid, Next(uuid, s, actions[0]), actions[1..], code);
    }
  }

  /** The accounts a used invite names are named in the log too. */
  lemma UsedIsNamed(uuid: Cast, s: State, code: string)
    requires Inv(uuid, s) && code in s.db.invites && s.db.invites[code].used
    ensures code in s.minted && Named(s.db.audit, s.db.invites[code].creator)
    ensures s.db.invites[code].usedBy.Some? ==> Named(s.db.audit, s.db.invites[code].usedBy.value)
    ensures UsedAfter(s.db.invites[code], code, s.db)
  {
    assert InviteOk(s, code);
  }

  lemma {:induction false} UsedFrom(uuid: Cast, s: State, actions: seq<Act>, code: string)
    requires Inv(uuid, s) && Schedule(uuid, s, actions) && code in s.db.invites && s.db.invites[code].used
    ensures UsedAfter(s.db.invites[code], code, Exec(uuid, s, actions).db)
    decreases |actions|
  {
    UsedIsNamed(uuid, s, code);
    if actions != [] {
      var i, next := s.db.invites[code], Next(uuid, s, actions[0]);
      NextKeepsInv(uuid, s, actions[0]);
      NextKeepsUsed(uuid, s, actions[0], code);
      AccountStaysGone(uuid, s, actions[0], i.creator);
      if code in next.db.invites {
        UsedFrom(uuid, next, actions[1..], code);
        if i.usedBy.Some? && i.usedBy.value !in next.db.accounts {
          AccountStaysGone(uuid, s, actions[0], i.usedBy.value);
          AccountGoneFrom(uuid, next, actions[1..], i.usedBy.value);
        }
      } else {
        InviteStillMinted(uuid, s, actions[0], code);
        AccountGoneFrom(uuid, next, actions[1..], i.creator);
        InviteGoneFrom(uuid, next, actions[1..], code);
      }
    }
  }

  lemma InviteStillMinted(uuid: Cast, s: State, a: Act, code: string)
    requires Enabled(uuid, s, a) && code in s.minted
    ensures code in Next(uuid, s, a).minted
  {
  }

  /** In every schedule, whatever follows, a used invite stays used. It is there exactly as long as
      its creator's account, used_by is set until the redeemer's account is deleted, and nothing else
      about it changes. */
  lemma UsedByStays(uuid: Cast, actions: seq<Act>, more: seq<Act>, code: string)
    requires Schedule(uuid, INIT, actions) && Schedule(uuid, Exec(uuid, INIT, actions), more)
    requires var now := Exec(uuid, INIT, actions).db.invites; code in now && now[code].used
    ensures var s := Exec(uuid, INIT, actions); UsedAfter(s.db.invites[code], code, Exec(uuid, s, more).db)
  {
    ScheduleKeepsInv(uuid, INIT, actions);
    UsedFrom(uuid, Exec(uuid, INIT, actions), more, code);
  }

  // ----- against the atomic redeem

  ghost predicate Refuses(uuid: Cast, s: State, a: Act) {
    (a.Select? || a.Consume?) && Enabled(uuid, s, a) && Next(uuid, s, a).txs[a.id].pc.Ended?
  }

  /** The statement that refuses answers as the atomic transaction would at that moment, exactly when
      the redeemer's account has not been deleted since the handler looked up its session. */
  lemma RefusalIsAtomicIff(uuid: Cast, actions: seq<Act>, a: Act)
    requires Schedule(uuid, INIT, actions) && Refuses(uuid, Exec(uuid, INIT, actions), a)
    ensures var s := Exec(uuid, INIT, actions);
      var tx := s.txs[a.id];
      Reply(Next(uuid, s, a).txs[a.id].pc.code, Next(uuid, s, a).db) == Redeem(s.db, tx.actor, tx.code) <==>
        tx.actor in s.db.accounts
  {
    var s := Exec(uuid, INIT, actions);
    if a.Select? {
      SelectRefusal(s, a.id);
    } else {
      ConsumeRefusal(s, a.id);
    }
  }

  lemma SelectRefusal(s: State, id: nat)
    requires id in s.txs && s.txs[id].pc.Begun? && SelectInvite(s, id).txs[id].pc.Ended?
    ensures var tx, next := s.txs[id], SelectInvite(s, id);
      && next.db == s.db
      && (Reply(next.txs[id].pc.code, s.db) == Redeem(s.db, tx.actor, tx.code) <==> tx.actor in s.db.accounts)
  {
  }

  lemma ConsumeRefusal(s: State, id: nat)
    requires id in s.txs && s.txs[id].pc.Selected? && ConsumeInvite(s, id).txs[id].pc.Ended?
    ensures var tx, next := s.txs[id], ConsumeInvite(s, id);
      && next.db == s.db
      && (Reply(next.txs[id].pc.code, s.db) == Redeem(s.db, tx.actor, tx.code) <==> tx.actor in s.db.accounts)
  {
  }

  /** What the UPDATE does not look at again: the invite's expiry, the device's status, the creator
      and the redeemer. */
  predicate StillRedeemable(t: Tables, i: Invite, actor: string) {
    && i.expires > t.clock && i.device in t.devices && t.devices[i.device] == Active
    && ActiveAdmin(t.bindings, i.device, i.creator) && !IsActive(t.bindings, i.device, actor)
  }

  lemma RedeemedIsAtomicIff(uuid: Cast, t: Tables, minted: set<string>, tx: Tx)
    requires Holds(tx.pc) && ConsumedOk(uuid, t, minted, tx) && Recordable(AuditRow(tx))
    ensures Reply(Ok, Redeemed(t, tx)) == Redeem(t, tx.actor, tx.code) <==>
      StillRedeemable(t, t.invites[tx.code], tx.actor)
  {
  }

  /** A commit is the atomic redeem exactly when what only the SELECT checked still holds. */
  lemma CommitIsAtomicIff(uuid: Cast, actions: seq<Act>, id: nat)
    requires Schedule(uuid, INIT, actions) && Enabled(uuid, Exec(uuid, INIT, actions), CommitTx(id))
    ensures var s := Exec(uuid, INIT, actions);
      var tx := s.txs[id];
      Reply(Ok, Next(uuid, s, CommitTx(id)).db) == Redeem(s.db, tx.actor, tx.code) <==>
        StillRedeemable(s.db, s.db.invites[tx.code], tx.actor)
  {
    ScheduleKeepsInv(uuid, INIT, actions);
    var s := Exec(uuid, INIT, actions);
    assert TxOk(uuid, s, id);
    RedeemedIsAtomicIff(uuid, s.db, s.minted, s.txs[id]);
  }

  /** A commit on tables where every reachable device has an admin keeps that exactly when the invite
      makes an admin, or somebody other than the redeemer still is one. */
  lemma CommitKeepsAdminsIff(uuid: Cast, s: State, id: nat)
    requires Enabled(uuid, s, CommitTx(id)) && AccessProofs.Administered(s.db.bindings)
    ensures var pc := s.txs[id].pc;
      AccessProofs.Administered(Next(uuid, s, CommitTx(id)).db.bindings) <==>
        pc.role == Admin || exists a :: a != s.txs[id].actor && ActiveAdmin(s.db.bindings, pc.device, a)
  {
    AdmitKeepsAdminsIff(s.db.bindings, s.txs[id].pc.device, s.txs[id].actor, s.txs[id].pc.role, |s.db.audit|);
  }

  lemma AdmitKeepsAdminsIff(b: Bindings, device: string, actor: string, role: Role, now: nat)
    requires AccessProofs.Administered(b)
    ensures AccessProofs.Administered(Admit(b, (device, actor), role, now)) <==>
      role == Admin || exists a :: a != actor && ActiveAdmin(b, device, a)
  {
    var next := Admit(b, (device, actor), role, now);
    assert IsActive(next, device, actor) && (ActiveAdmin(next, device, actor) <==> role == Admin);
    assert forall d, a :: (d, a) != (device, actor) ==> (ActiveAdmin(next, d, a) <==> ActiveAdmin(b, d, a));
    forall d, a | IsActive(next, d, a) && d != device ensures AccessProofs.HasAdmin(next, d) {
      assert IsActive(b, d, a);
      var other :| ActiveAdmin(b, d, other);
      assert ActiveAdmin(next, d, other);
    }
    if a :| a != actor && ActiveAdmin(b, device, a) {
      assert ActiveAdmin(next, device, a);
    }
    if AccessProofs.Administered(next) {
      var a :| ActiveAdmin(next, device, a);
    }
  }

  // ----- what the log says in every such schedule, in the order of the commits

  /** The audit log, read in the order of the commits, still determines the bindings table. By id it
      need not: `InviteLog` says exactly when. */
  lemma CommitOrderIsReplayed(uuid: Cast, actions: seq<Act>)
    requires Schedule(uuid, INIT, actions)
    ensures var t := Exec(uuid, INIT, actions).db; t.bindings == AccessProofs.Replay(uuid, t.audit)
  {
    ScheduleKeepsInv(uuid, INIT, actions);
  }

  /** Every row that is not a redeem's is authorised by the rows committed before it. A redeem's row
      belongs to a committed redeem, and is authorised by the rows committed before that redeem's
      SELECT. */
  lemma EveryRowIsExplained(uuid: Cast, actions: seq<Act>, j: nat) returns (id: nat)
    requires Schedule(uuid, INIT, actions) && j < |Exec(uuid, INIT, actions).db.audit|
    ensures var s := Exec(uuid, INIT, actions);
      var log := s.db.audit;
      if log[j].action != InviteRedeemed then Authority.Authorised(uuid, AccessProofs.Replay(uuid, log[..j]), log[j])
      else Wrote(s, id, j) && s.txs[id].looked <= j && AllowedThen(uuid, log, s.txs[id].looked, log[j])
  {
    ScheduleKeepsInv(uuid, INIT, actions);
    var s := Exec(uuid, INIT, actions);
    assert RowOk(uuid, s, j);
    id := 0;
    if s.db.audit[j].action == InviteRedeemed {
      id :| Wrote(s, id, j);
      assert TxOk(uuid, s, id);
    }
  }

  /** A redeem recorded after its device was disabled looked before the device was disabled. */
  lemma RedeemedAfterDisable(uuid: Cast, actions: seq<Act>, i: nat, j: nat) returns (id: nat)
    requires Schedule(uuid, INIT, actions)
    requires var log := Exec(uuid, INIT, actions).db.audit;
      && i < j < |log| && log[i].action == DeviceDisabled
      && log[j].action == InviteRedeemed && log[j].device == log[i].device
    ensures var s := Exec(uuid, INIT, actions); Wrote(s, id, j) && s.txs[id].looked <= i
  {
    id := EveryRowIsExplained(uuid, actions, j);
  }
}
