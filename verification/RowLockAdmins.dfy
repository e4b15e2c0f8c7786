/** The last admin, over every schedule of revokes, leaves, removals and everything else. */
module RowLockAdmins {
  import opened Common
  import opened Access
  import opened RowLock
  import AccessProofs

  /** The commit misses nobody, or an admin among them. */
  ghost predicate LeavesAdmin(s: State, id: nat)
    requires id in s.txs && Locking(s.txs[id].req) && Past(s.txs[id].pc)
  {
    Missing(s, id) == {} || exists r :: r in Missing(s, id) && r in s.db.bindings && s.db.bindings[r].role == Admin
  }

  lemma RemovalKeepsAdminsIff(b: Bindings, rows: set<Row>, device: string)
    requires AccessProofs.Administered(b) && rows <= ActiveRows(b, device)
    ensures var missing := ActiveRows(b, device) - rows;
      AccessProofs.Administered(RevokeRows(b, rows)) <==>
        missing == {} || exists r :: r in missing && r in b && b[r].role == Admin
  {
    var next, missing := RevokeRows(b, rows), ActiveRows(b, device) - rows;
    assert forall r :: r in missing <==> r in next && r.0 == device && next[r].active;
    forall d, a | IsActive(next, d, a) && d != device ensures AccessProofs.HasAdmin(next, d) {
      assert IsActive(b, d, a);
      var other :| ActiveAdmin(b, d, other);
      assert ActiveAdmin(next, d, other);
    }
    if r :| r in missing && r in b && b[r].role == Admin {
      assert ActiveAdmin(next, device, r.1);
    }
    if AccessProofs.Administered(next) && missing != {} {
      var r :| r in missing;
      assert IsActive(next, device, r.1);
      var a :| ActiveAdmin(next, device, a);
      assert (device, a) in missing;
    }
    forall a | IsActive(next, device, a) ensures (device, a) in missing {
    }
  }

  /** A commit on tables where every reachable device has an admin keeps that exactly when it misses
      nobody, or an admin among them. A revoke and a leave always do. */
  lemma CommitKeepsAdminsIff(uuid: Cast, s: State, id: nat)
    requires Enabled(uuid, s, CommitTx(id)) && TxOk(uuid, s, id) && AccessProofs.Administered(s.db.bindings)
    ensures AccessProofs.Administered(Next(uuid, s, CommitTx(id)).db.bindings) <==> LeavesAdmin(s, id)
  {
    if s.txs[id].req.DoRemove? {
      RemovalKeepsAdminsIff(s.db.bindings, s.txs[id].pc.rows, s.txs[id].req.device);
    } else {
      RevokeIsAtomic(uuid, s.db, s.txs[id]);
      AccessProofs.StepKeepsAdmins(uuid, s.db, s.txs[id].req);
    }
  }

  ghost predicate AllLeaveAdmins(uuid: Cast, s: State, actions: seq<Act>)
    requires Schedule(uuid, s, actions)
    decreases |actions|
  {
    actions == [] ||
    (&& (actions[0].CommitTx? ==> LeavesAdmin(s, actions[0].id))
     && AllLeaveAdmins(uuid, Next(uuid, s, actions[0]), actions[1..]))
  }

  lemma {:induction false} AdministeredFrom(uuid: Cast, s: State, actions: seq<Act>)
    requires Inv(uuid, s) && AccessProofs.Administered(s.db.bindings)
    requires Schedule(uuid, s, actions) && AllLeaveAdmins(uuid, s, actions)
    ensures AccessProofs.Administered(Exec(uuid, s, actions).db.bindings)
    decreases |actions|
  {
    if actions != [] {
      var a := actions[0];
      NextKeepsInv(uuid, s, a);
      if a.CommitTx? {
        assert TxOk(uuid, s, a.id);
        CommitKeepsAdminsIff(uuid, s, a.id);
      } else if a.Other? {
        AccessProofs.StepKeepsAdmins(uuid, s.db, a.req);
      } else {
        assert Next(uuid, s, a).db == s.db;
      }
      AdministeredFrom(uuid, Next(uuid, s, a), actions[1..]);
    }
  }

  /** In every schedule of revokes, leaves, removals, enrolments, redeems and sign outs, every device
      somebody can reach has an admin, as long as no removal misses guests alone. */
  lemma EveryScheduleIsAdministered(uuid: Cast, actions: seq<Act>)
    requires Schedule(uuid, INIT, actions) && AllLeaveAdmins(uuid, INIT, actions)
    ensures AccessProofs.Administered(Exec(uuid, INIT, actions).db.bindings)
  {
    AdministeredFrom(uuid, INIT, actions);
  }

  // ----- one device

  /** The action takes the whole device off everybody. */
  ghost predicate Clears(s: State, a: Act, device: string) {
    || (a.Other? && a.req == DoUnenrol(device))
    || (a.CommitTx? && a.id in s.txs && s.txs[a.id].req.DoRemove? && s.txs[a.id].req.device == device)
  }

  ghost predicate NeverCleared(uuid: Cast, s: State, actions: seq<Act>, device: string)
    requires Schedule(uuid, s, actions)
    decreases |actions|
  {
    actions == [] ||
    (!Clears(s, actions[0], device) && NeverCleared(uuid, Next(uuid, s, actions[0]), actions[1..], device))
  }

  lemma OtherKeepsAdmin(uuid: Cast, t: Tables, req: Request, device: string, admin: string)
    requires !Locking(req) && !req.DoDelete? && req != DoUnenrol(device) && ActiveAdmin(t.bindings, device, admin)
    ensures ActiveAdmin(Step(uuid, t, req).next.bindings, device, admin)
  {
    if !AccessProofs.Touches(req) {
      AccessProofs.QuietStep(uuid, t, req);
    }
  }

  lemma CommitKeepsAdmin(uuid: Cast, s: State, id: nat, device: string)
    requires Enabled(uuid, s, CommitTx(id)) && TxOk(uuid, s, id) && !Clears(s, CommitTx(id), device)
    requires AccessProofs.HasAdmin(s.db.bindings, device)
    ensures AccessProofs.HasAdmin(Written(s.db, s.txs[id]).bindings, device)
  {
    var admin :| ActiveAdmin(s.db.bindings, device, admin);
    var tx, next := s.txs[id], Written(s.db, s.txs[id]).bindings;
    if tx.req.device == device && (device, admin) in tx.pc.rows {
      MoreThanOne(Admins(s.db.bindings, device), admin);
      var other :| other in Admins(s.db.bindings, device) && other != admin;
      assert ActiveAdmin(next, device, other);
    } else {
      assert ActiveAdmin(next, device, admin);
    }
  }

  lemma {:induction false} AdminStaysFrom(uuid: Cast, s: State, actions: seq<Act>, device: string)
    requires Inv(uuid, s) && AccessProofs.HasAdmin(s.db.bindings, device)
    requires Schedule(uuid, s, actions) && NeverCleared(uuid, s, actions, device)
    ensures AccessProofs.HasAdmin(Exec(uuid, s, actions).db.bindings, device)
    decreases |actions|
  {
    if actions != [] {
      var a := actions[0];
      NextKeepsInv(uuid, s, a);
      if a.CommitTx? {
        assert TxOk(uuid, s, a.id);
        CommitKeepsAdmin(uuid, s, a.id, device);
      } else if a.Other? {
        var admin :| ActiveAdmin(s.db.bindings, device, admin);
        OtherKeepsAdmin(uuid, s.db, a.req, device, admin);
      } else {
        assert Next(uuid, s, a).db == s.db;
      }
      AdminStaysFrom(uuid, Next(uuid, s, a), actions[1..], device);
    }
  }

  /** A device that has an active admin at some point of a schedule has one at every later point, until
      it is removed or signs out. */
  lemma LastAdminStays(uuid: Cast, actions: seq<Act>, more: seq<Act>, device: string)
    requires Schedule(uuid, INIT, actions) && Schedule(uuid, Exec(uuid, INIT, actions), more)
    requires NeverCleared(uuid, Exec(uuid, INIT, actions), more, device)
    requires AccessProofs.HasAdmin(Exec(uuid, INIT, actions).db.bindings, device)
    ensures AccessProofs.HasAdmin(Exec(uuid, Exec(uuid, INIT, actions), more).db.bindings, device)
  {
    ScheduleKeepsInv(uuid, INIT, actions);
    AdminStaysFrom(uuid, Exec(uuid, INIT, actions), more, device);
  }
}
