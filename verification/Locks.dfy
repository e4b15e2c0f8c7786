/** What a transaction waits for while others are open. PostgreSQL's row locks decide: SELECT ... FOR
    UPDATE on a device row keeps out everything that locks that row in any way, a foreign key's
    check of it keeps out only FOR UPDATE, and a written row keeps out everybody else who would
    write it. */
module Locks {
  import opened Common
  import opened Access

  /** A transaction taken whole waits when it would lock a device row or write a binding row that an
      open transaction holds. `exclusive` are the devices held FOR UPDATE, `shared` those that a new
      binding row refers to, and `rows` the binding rows written and not committed. */
  ghost predicate Waits(uuid: Cast, t: Tables, exclusive: set<string>, shared: set<string>,
                          rows: set<Row>, req: Request) {
    match req
    case DoRevoke(_, device, target) =>
      device in exclusive + shared || (uuid(target).Some? && WouldWrite(t, rows, (device, uuid(target).value)))
    case DoLeave(actor, device) => device in exclusive + shared || WouldWrite(t, rows, (device, actor))
    case DoRemove(_, device) => device in exclusive + shared || HoldsActive(t, rows, device)
    case DoUnenrol(device) => HoldsActive(t, rows, device)
    // The status is not part of the key, so writing it does not keep foreign keys out.
    case DoDisable(_, device) => device in exclusive
    // Enrolling writes the device row, its name, and the account's binding row.
    case DoEnrol(device, token) =>
      device in exclusive || (token in t.tokens && (device, t.tokens[token].account) in rows)
    // A new invite, like a new binding, refers to the device. A binding row that is there does not.
    case DoCreateInvite(_, device, _, _, _) => device in exclusive
    case DoRedeem(actor, code) =>
      code in t.invites &&
      var row := (t.invites[code].device, actor);
      row in rows || (row.0 in exclusive && row !in t.bindings)
    case DoDelete(account) => exists r :: r in rows && r.1 == account
    case _ => false
  }

  /** An UPDATE of one active row meets it held. */
  predicate WouldWrite(t: Tables, rows: set<Row>, r: Row) {
    r in rows && r in t.bindings && t.bindings[r].active
  }

  /** An UPDATE of the device's active rows meets one that is held. */
  ghost predicate HoldsActive(t: Tables, rows: set<Row>, device: string) {
    exists r :: WouldWrite(t, rows, r) && r.0 == device
  }

  /** The redeem lets an account that was revoked back in, on the row it had. */
  predicate Readmits(t: Tables, req: Request, device: string) {
    && req.DoRedeem? && req.code in t.invites && t.invites[req.code].device == device
    && (device, req.actor) in t.bindings && !t.bindings[(device, req.actor)].active
  }
}
