/** The handlers as the server runs them: one SQL statement after another on what the open
    transaction sees, and a commit that makes it what everybody sees. Any statement can err, the
    commit included. Each handler is proved to have either the effect and the answer of the atomic
    transaction `Access` gives it, or no effect at all and an error for an answer. */
module ControlPlane {
  import opened Common
  import opened Access

  lemma ForgetCount(b: Bindings, account: string)
    ensures |ForgetAccount(b, account)| == |b| - |set row | row in b && row.1 == account|
  {
    var mine := set row | row in b && row.1 == account;
    assert ForgetAccount(b, account).Keys == b.Keys - mine;
    assert |b.Keys - mine| == |b.Keys| - |mine|;
  }

  /** What a handler may answer. `fault` is the number of the statement that errs, 0 for none, and
      `last` the number of the commit. Without a fault it is the atomic transaction; with one, it is
      that or `error`; one that errs before or at its commit never answers that it went through; and
      an answer that it did not means nothing changed. */
  ghost predicate AllOrNothing(before: Tables, after: Reply, atomic: Reply, fault: nat, last: nat, error: Code) {
    && (after.code != Ok ==> after.next == before)
    && (after == atomic || (1 <= fault <= last && after == Refuse(before, error)))
    && (atomic.code == Ok && atomic.next != before && 1 <= fault <= last ==> after == Refuse(before, error))
  }

  class Server {
    /** What is committed, and what the open transaction sees. */
    var db: Tables
    var tx: Tables
    const uuid: Cast

    constructor (uuid: Cast)
      ensures this.uuid == uuid && db == EMPTY && tx == EMPTY
    {
      this.uuid := uuid;
      db, tx := EMPTY, EMPTY;
    }

    /** Writes exactly one row, or none if a field could carry a path or the INSERT errs. */
    method AppendAudit(e: Event, errs: bool) returns (ok: bool)
      modifies this`tx
      ensures ok == (Recordable(e) && !errs)
      ensures tx == if ok then old(tx).(audit := old(tx).audit + [e]) else old(tx)
    {
      if (e.device != "" && !SafeToken(e.device)) || !SafeToken(e.actor) || (e.account != "" && !SafeToken(e.account)) {
        return false;
      }
      if errs {
        return false;
      }
      tx := tx.(audit := tx.audit + [e]);
      return true;
    }

    /** UPDATE ... WHERE revoked_at IS NULL AND (role <> 'admin' OR count > 1) RETURNING role. */
    method UpdateUnlessLastAdmin(device: string, account: string) returns (role: Option<Role>)
      modifies this`tx
      ensures role.Some? <==>
        && IsActive(old(tx).bindings, device, account)
        && (!ActiveAdmin(old(tx).bindings, device, account) || |Admins(old(tx).bindings, device)| > 1)
      ensures role.Some? ==> role.value == old(tx).bindings[(device, account)].role
      ensures tx ==
        if role.Some? then old(tx).(bindings := RevokeRow(old(tx).bindings, (device, account))) else old(tx)
    {
      var row := (device, account);
      if row !in tx.bindings || !tx.bindings[row].active {
        return None;
      }
      var count := |Admins(tx.bindings, device)|;
      if tx.bindings[row].role != Admin || count > 1 {
        role := Some(tx.bindings[row].role);
        tx := tx.(bindings := tx.bindings[row := tx.bindings[row].(active := false)]);
      } else {
        role := None;
      }
    }

    /** COMMIT, or the rollback that an error in it amounts to. */
    method EndTx(errs: bool, error: Code) returns (code: Code)
      requires error != Ok
      modifies this`db
      ensures code == if errs then error else Ok
      ensures db == if errs then old(db) else tx
    {
      if errs {
        return error;
      }
      db := tx;
      return Ok;
    }

    method RevokeBinding(actor: string, device: string, target: string, fault: nat) returns (code: Code)
      modifies this
      ensures AllOrNothing(old(db), Reply(code, db), Revoke(uuid, old(db), actor, device, target), fault, 5, NotFound)
    {
      if actor !in db.accounts {
        return Unauthorized;
      }
      if !SafeToken(device) || !SafeToken(target) {
        return NotFound;
      }
      tx := db;
      if fault == 1 || device !in tx.devices {
        return NotFound;
      }
      if fault == 2 || !ActiveAdmin(tx.bindings, device, actor) {
        return NotFound;
      }
      var account := uuid(target);
      if fault == 3 || account.None? {
        return NotFound;
      }
      var role := UpdateUnlessLastAdmin(device, account.value);
      if role.None? {
        return if fault != 4 && IsActive(tx.bindings, device, account.value) then LastAdmin else NotFound;
      }
      var ok := AppendAudit(Event(device, actor, BindingRevoked, target, role), fault == 4);
      if !ok {
        return NotFound;
      }
      code := EndTx(fault == 5, NotFound);
    }

    method LeaveDevice(actor: string, device: string, fault: nat) returns (code: Code)
      modifies this
      ensures AllOrNothing(old(db), Reply(code, db), Leave(old(db), actor, device), fault, 4, ServerError)
    {
      if actor !in db.accounts {
        return Unauthorized;
      }
      if !SafeToken(device) {
        return NotFound;
      }
      tx := db;
      if fault == 1 {
        return ServerError;
      }
      if device !in tx.devices {
        return NotFound;
      }
      if fault == 2 {
        return ServerError;
      }
      var row := (device, actor);
      if row in tx.bindings && tx.bindings[row].active && tx.bindings[row].role != Admin {
        var role := tx.bindings[row].role;
        tx := tx.(bindings := tx.bindings[row := tx.bindings[row].(active := false)]);
        var ok := AppendAudit(Event(device, actor, BindingRevoked, actor, Some(role)), fault == 3);
        if !ok {
          return ServerError;
        }
        code := EndTx(fault == 4, ServerError);
        return;
      }
      if fault == 3 {
        return ServerError;
      }
      return if ActiveAdmin(tx.bindings, device, actor) then AdminLeave else NotFound;
    }

    /** An error in the second statement, the admin check, is answered like a caller who is none. */
    method RemoveDevice(actor: string, device: string, fault: nat) returns (code: Code)
      modifies this
      ensures AllOrNothing(old(db), Reply(code, db), Remove(old(db), actor, device), fault, 5,
                           if fault == 2 then NotFound else ServerError)
    {
      if actor !in db.accounts {
        return Unauthorized;
      }
      if !SafeToken(device) {
        return NotFound;
      }
      tx := db;
      if fault == 1 {
        return ServerError;
      }
      if device !in tx.devices || fault == 2 || !ActiveAdmin(tx.bindings, device, actor) {
        return NotFound;
      }
      if fault == 3 {
        return ServerError;
      }
      tx := tx.(bindings := RevokeAll(tx.bindings, device));
      var ok := AppendAudit(Event(device, actor, DeviceRemoved, actor, None), fault == 4);
      if !ok {
        return ServerError;
      }
      code := EndTx(fault == 5, ServerError);
    }

    method EnrolDevice(device: string, token: string, fault: nat) returns (code: Code)
      modifies this
      ensures AllOrNothing(old(db), Reply(code, db), Enrol(old(db), device, token), fault, 5, ServerError)
    {
      tx := db;
      if fault == 1 {
        return ServerError;
      }
      if token !in tx.tokens || tx.tokens[token].used || tx.tokens[token].expires <= tx.clock {
        return Unauthorized;
      }
      var account := tx.tokens[token].account;
      tx := tx.(tokens := tx.tokens[token := tx.tokens[token].(used := true)]);
      if fault == 2 {
        return ServerError;
      }
      if device !in tx.devices {
        tx := tx.(devices := tx.devices[device := Active]);
      }
      if tx.devices[device] != Active {
        return DeviceOff;
      }
      if fault == 3 {
        return ServerError;
      }
      var row := (device, account);
      if row !in tx.bindings {
        tx := tx.(bindings := tx.bindings[row := Binding(Admin, true, |tx.audit|)]);
      } else if !tx.bindings[row].active {
        tx := tx.(bindings := tx.bindings[row := tx.bindings[row].(role := Admin, active := true)]);
      }
      var ok := AppendAudit(Event(device, account, DeviceEnrolled, account, Some(Admin)), fault == 4);
      if !ok {
        return ServerError;
      }
      assert tx.devices == db.devices[device := Active];
      code := EndTx(fault == 5, ServerError);
    }

    method UnenrolDevice(device: string, fault: nat) returns (code: Code)
      modifies this
      ensures AllOrNothing(old(db), Reply(code, db), Unenrol(old(db), device), fault, 4, ServerError)
    {
      tx := db;
      if fault == 1 {
        return ServerError;
      }
      if device !in tx.devices {
        return Ok;
      }
      if fault == 2 {
        return ServerError;
      }
      tx := tx.(bindings := RevokeAll(tx.bindings, device));
      var ok := AppendAudit(Event(device, device, DeviceUnenrolled, "", None), fault == 3);
      if !ok {
        return ServerError;
      }
      code := EndTx(fault == 4, ServerError);
    }

    method RedeemInvite(actor: string, code: string, fault: nat) returns (reply: Code)
      modifies this
      ensures AllOrNothing(old(db), Reply(reply, db), Redeem(old(db), actor, code), fault, 5, ServerError)
    {
      if actor !in db.accounts {
        return Unauthorized;
      }
      tx := db;
      if fault == 1 {
        return ServerError;
      }
      if code !in tx.invites || tx.invites[code].used || tx.invites[code].expires <= tx.clock
         || tx.invites[code].device !in tx.devices {
        return Invalid;
      }
      var i := tx.invites[code];
      if tx.devices[i.device] != Active {
        return DeviceOff;
      }
      if !ActiveAdmin(tx.bindings, i.device, i.creator) {
        return CreatorRevoked;
      }
      if IsActive(tx.bindings, i.device, actor) {
        return AlreadyBound;
      }
      if fault == 2 {
        return ServerError;
      }
      tx := tx.(invites := tx.invites[code := i.(used := true, usedBy := Some(actor))]);
      if fault == 3 {
        return ServerError;
      }
      var row := (i.device, actor);
      if row in tx.bindings {
        tx := tx.(bindings := tx.bindings[row := tx.bindings[row].(role := i.role, active := true)]);
      } else {
        tx := tx.(bindings := tx.bindings[row := Binding(i.role, true, |tx.audit|)]);
      }
      var ok := AppendAudit(Event(i.device, actor, InviteRedeemed, actor, Some(i.role)), fault == 4);
      if !ok {
        return ServerError;
      }
      reply := EndTx(fault == 5, ServerError);
    }

    /** The audit row is written first, and what is returned is how many bindings went. */
    method RunAccountDeletion(account: string, fault: nat) returns (code: Code, removed: nat)
      modifies this
      ensures AllOrNothing(old(db), Reply(code, db), DeleteAccount(old(db), account), fault, 4, ServerError)
      ensures code == Ok ==> removed == |old(db).bindings| - |db.bindings|
    {
      removed := 0;
      if account !in db.accounts {
        code := Unauthorized;
        return;
      }
      tx := db;
      if fault == 1 {
        code := ServerError;
        return;
      }
      removed := |set row | row in tx.bindings && row.1 == account|;
      var ok := AppendAudit(Event("", account, AccountDeleted, account, None), fault == 2);
      if !ok || fault == 3 {
        code := ServerError;
        return;
      }
      ForgetCount(tx.bindings, account);
      tx := tx.(accounts := tx.accounts - {account},
        bindings := ForgetAccount(tx.bindings, account),
        invites := ForgetInvites(tx.invites, account),
        tokens := ForgetTokens(tx.tokens, account),
        suspended := tx.suspended - {account});
      code := EndTx(fault == 4, ServerError);
    }
  }
}
