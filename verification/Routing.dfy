/** Remote request routing: the one place the server decides who may reach what. The checks run in
    a fixed order on the tables of `Access` and on the tunnel registry, and the outcome is measured
    once. */
module Routing {
  import opened Common
  import opened Access
  import AccessProofs
  import AppNames

  datatype Reason = NoSession | BadTarget | NoBinding | NoApp | SubscriptionInactive | DeviceOffline

  /** What sending the request down the tunnel came to: the application's answer, a failure before
      any answer, or a body that broke off half way, on which the proxy panics. */
  datatype Proxied = Answered(status: int) | Unsent | BrokenOff

  // ----- who pays

  predicate AdminRow(b: Bindings, device: string, account: string) {
    (device, account) in b && b[(device, account)].role == Admin
  }

  /** SELECT user_id ... WHERE role = 'admin' ORDER BY created_at LIMIT 1: revoked rows count. */
  ghost predicate IsOwner(b: Bindings, device: string, account: string) {
    && AdminRow(b, device, account)
    && forall a :: AdminRow(b, device, a) ==> b[(device, account)].since <= b[(device, a)].since
  }

  lemma {:induction false} LeastExists(rows: set<Row>, b: Bindings) returns (least: Row)
    requires rows != {} && forall r :: r in rows ==> r in b
    ensures least in rows && forall r :: r in rows ==> b[least].since <= b[r].since
    decreases rows
  {
    var r :| r in rows;
    if rows == {r} {
      return r;
    }
    assert rows == (rows - {r}) + {r};
    var other := LeastExists(rows - {r}, b);
    least := if b[r].since <= b[other].since then r else other;
  }

  // ----- the decision

  predicate HasApp(t: Tables, device: string, app: string) {
    device in t.apps && app in t.apps[device]
  }

  function StatusOf(reason: Reason): int {
    match reason
    case NoSession => 401
    case SubscriptionInactive => 402
    case DeviceOffline => 503
    case _ => 404
  }

  ghost predicate Paid(t: Tables, device: string) {
    exists owner :: IsOwner(t.bindings, device, owner) && owner !in t.suspended
  }

  predicate ValidTarget(device: string, app: string) {
    SafeToken(device) && AppNames.Valid(app)
  }

  /** The query that errs is one the request comes to: the first for every valid target, the second,
      for the owner's subscription, when the checks before it pass. */
  ghost predicate Errs(t: Tables, session: Option<string>, device: string, app: string, fault: nat) {
    && session.Some? && ValidTarget(device, app)
    && (|| fault == 1
        || (&& fault == 2 && IsActive(t.bindings, device, session.value) && HasApp(t, device, app)
            && exists a :: AdminRow(t.bindings, device, a)))
  }

  /** Everything that has to hold for a request to go through. */
  ghost predicate Allowed(t: Tables, tunnels: set<string>, session: Option<string>, device: string, app: string) {
    && session.Some? && ValidTarget(device, app)
    && IsActive(t.bindings, device, session.value)
    && HasApp(t, device, app)
    && Paid(t, device)
    && device in tunnels
  }

  /** `since` tells the rows of a device apart, so a device has one owner. */
  ghost predicate DistinctSince(b: Bindings) {
    forall r, q :: r in b && q in b && b[r].since == b[q].since ==> r == q
  }

  class Router {
    var db: Tables
    var tunnels: set<string>
    // The metrics: one sample per request, one count per denial.
    var samples: seq<int>
    var denials: seq<Reason>
    // The handler's own `answered` flag.
    var answered: bool

    constructor (db: Tables, tunnels: set<string>)
      ensures this.db == db && this.tunnels == tunnels && samples == [] && denials == [] && !answered
    {
      this.db, this.tunnels, samples, denials, answered := db, tunnels, [], [], false;
    }

    method Finish(status: int)
      modifies this`samples, this`answered
      ensures answered
      ensures samples == if old(answered) then old(samples) else old(samples) + [status]
    {
      if answered {
        return;
      }
      answered := true;
      samples := samples + [status];
    }

    method Deny(status: int, reason: Reason, actor: Option<string>, device: string)
      modifies this`samples, this`answered, this`denials, this`db
      ensures answered && denials == old(denials) + [reason]
      ensures samples == if old(answered) then old(samples) else old(samples) + [status]
      ensures db == if actor.Some? then Denied(old(db), actor.value, device).next else old(db)
    {
      denials := denials + [reason];
      if actor.Some? {
        var e := Event(device, actor.value, RemoteDenied, actor.value, None);
        // A row that cannot be written is logged and the refusal stands.
        if Recordable(e) {
          db := db.(audit := db.audit + [e]);
        }
      }
      Finish(status);
    }

    /** The account that pays for the device, if it has one. */
    method SelectOwner(device: string) returns (owner: Option<string>)
      ensures owner.Some? ==> IsOwner(db.bindings, device, owner.value)
      ensures owner.None? ==> forall a :: !AdminRow(db.bindings, device, a)
    {
      var rows := set r: Row | r in db.bindings && r.0 == device && db.bindings[r].role == Admin;
      if rows == {} {
        forall a ensures !AdminRow(db.bindings, device, a) {
          assert (device, a) !in rows;
        }
        return None;
      }
      ghost var found := LeastExists(rows, db.bindings);
      var least :| least in rows && forall r :: r in rows ==> db.bindings[least].since <= db.bindings[r].since;
      forall a | AdminRow(db.bindings, device, a) ensures (device, a) in rows {
      }
      return Some(least.1);
    }

    /** The checks on the tables, in order: the first that fails, if one does. `fault` says which of
        the two queries errors, 0 for neither. */
    method FirstRefusal(session: Option<string>, device: string, app: string, fault: nat)
      returns (refusal: Option<Reason>)
      requires DistinctSince(db.bindings)
      ensures refusal.None? <==>
        Allowed(db, tunnels + {device}, session, device, app) && !Errs(db, session, device, app, fault)
      ensures refusal != Some(DeviceOffline)
      ensures refusal == Some(NoSession) <==> session.None?
      ensures refusal == Some(BadTarget) <==>
        session.Some? && (!ValidTarget(device, app) || Errs(db, session, device, app, fault))
      ensures refusal == Some(NoBinding) ==> !IsActive(db.bindings, device, session.value)
      ensures refusal == Some(NoApp) ==> IsActive(db.bindings, device, session.value) && !HasApp(db, device, app)
      ensures refusal == Some(SubscriptionInactive) ==>
        IsActive(db.bindings, device, session.value) && HasApp(db, device, app) && !Paid(db, device)
    {
      if session.None? {
        return Some(NoSession);
      }
      if !SafeToken(device) || !AppNames.Valid(app) {
        return Some(BadTarget);
      }
      // One round trip for the binding, the application and the owner.
      if fault == 1 {
        return Some(BadTarget);
      }
      var bound, hasApp := IsActive(db.bindings, device, session.value), HasApp(db, device, app);
      var owner := SelectOwner(device);
      if !bound {
        return Some(NoBinding);
      }
      if !hasApp {
        return Some(NoApp);
      }
      if owner.None? {
        return Some(SubscriptionInactive);
      }
      assert AdminRow(db.bindings, device, owner.value);
      if fault == 2 {
        return Some(BadTarget);
      }
      OneOwner(db.bindings, device, owner.value);
      return if owner.value in db.suspended then Some(SubscriptionInactive) else None;
    }

    /** One remote request. It goes down the tunnel exactly when everything in `Allowed` holds and
        no query errs, a refusal names the first check that failed, and every request that the proxy
        does not abandon in the middle of a body leaves exactly one sample. A refusal leaves an audit
        row once there is a session and a target to name. */
    method RemoteRequest(session: Option<string>, device: string, app: string, fault: nat, outcome: Proxied)
      returns (forwarded: bool, refusal: Option<Reason>)
      requires DistinctSince(db.bindings)
      modifies this
      ensures forwarded <==>
        Allowed(old(db), tunnels, session, device, app) && !Errs(old(db), session, device, app, fault)
      ensures forwarded || refusal.Some?
      ensures refusal == Some(NoSession) <==> session.None?
      ensures refusal == Some(BadTarget) <==>
        session.Some? && (!ValidTarget(device, app) || Errs(old(db), session, device, app, fault))
      ensures refusal == Some(NoBinding) ==> !IsActive(old(db).bindings, device, session.value)
      ensures refusal == Some(NoApp) ==>
        IsActive(old(db).bindings, device, session.value) && !HasApp(old(db), device, app)
      ensures refusal == Some(SubscriptionInactive) ==>
        IsActive(old(db).bindings, device, session.value) && HasApp(old(db), device, app) && !Paid(old(db), device)
      ensures refusal == Some(DeviceOffline) ==>
        Allowed(old(db), tunnels + {device}, session, device, app) && (device !in tunnels || outcome == Unsent)
      ensures samples == old(samples) +
        if !forwarded then [StatusOf(refusal.value)]
        else match outcome case Answered(status) => [status] case Unsent => [503] case BrokenOff => []
      ensures forwarded ==> (refusal.Some? <==> outcome == Unsent)
      ensures denials == old(denials) + if refusal.Some? then [refusal.value] else []
      ensures db == if refusal.Some? && session.Some? && ValidTarget(device, app)
                    then Denied(old(db), session.value, device).next else old(db)
      ensures tunnels == old(tunnels)
    {
      answered := false;
      refusal := FirstRefusal(session, device, app, fault);
      // A refusal before the target is known writes no audit row.
      var actor := if ValidTarget(device, app) then session else None;
      if refusal.Some? {
        Deny(StatusOf(refusal.value), refusal.value, actor, device);
        return false, refusal;
      }
      if device !in tunnels {
        Deny(503, DeviceOffline, actor, device);
        return false, Some(DeviceOffline);
      }
      assert tunnels + {device} == tunnels;
      forwarded := true;
      match outcome {
        case Answered(status) =>
          Finish(status);
        case Unsent =>
          Deny(503, DeviceOffline, actor, device);
          refusal := Some(DeviceOffline);
          Finish(503);
        case BrokenOff =>
      }
    }
  }

  lemma OneOwner(b: Bindings, device: string, owner: string)
    requires DistinctSince(b) && IsOwner(b, device, owner)
    ensures forall a :: IsOwner(b, device, a) ==> a == owner
  {
    forall a | IsOwner(b, device, a) ensures a == owner {
      assert AdminRow(b, device, owner) && AdminRow(b, device, a);
      assert b[(device, a)].since == b[(device, owner)].since;
    }
  }

  // ----- what the tables behind the decision mean, over every run

  predicate GrantOn(e: Event, device: string) {
    e.device == device && (e.action == DeviceEnrolled || (e.action == InviteRedeemed && e.role.Some?))
  }

  /** A row was created by the grant at the position it is dated by, so no two rows share a date. */
  ghost predicate Dated(b: Bindings, log: seq<Event>) {
    forall r :: r in b ==>
      b[r].since < |log| && GrantOn(log[b[r].since], r.0) && log[b[r].since].account == r.1
  }

  /** An audit event creates at most the row it grants, dated by its own position, changes the date
      of none, and removes only the rows of an account it deletes. */
  lemma EventKeepsRows(uuid: Cast, b: Bindings, e: Event, at: nat)
    ensures var next := AccessProofs.ApplyEvent(uuid, b, e, at);
      && (forall r :: r in b && r in next ==> next[r].since == b[r].since)
      && (forall r :: r in next && r !in b ==> GrantOn(e, r.0) && r.1 == e.account && next[r].since == at)
      && (forall d :: GrantOn(e, d) ==> (d, e.account) in next)
      && (forall r :: r in b && r !in next ==> e.action == AccountDeleted && r.1 == e.account)
  {
  }

  lemma {:induction false} ReplayIsDated(uuid: Cast, log: seq<Event>)
    ensures Dated(AccessProofs.Replay(uuid, log), log)
  {
    if log != [] {
      var init, e := log[..|log| - 1], log[|log| - 1];
      var b, next := AccessProofs.Replay(uuid, init), AccessProofs.Replay(uuid, log);
      ReplayIsDated(uuid, init);
      EventKeepsRows(uuid, b, e, |init|);
      forall r | r in next
        ensures next[r].since < |log| && GrantOn(log[next[r].since], r.0) && log[next[r].since].account == r.1
      {
        if r in b {
          assert log[b[r].since] == init[b[r].since];
        }
      }
    }
  }

  lemma SinceHolds(uuid: Cast, reqs: seq<Request>)
    ensures var t := Run(uuid, reqs); Dated(t.bindings, t.audit) && DistinctSince(t.bindings)
  {
    AccessProofs.BindingsAreTheReplay(uuid, reqs);
    ReplayIsDated(uuid, Run(uuid, reqs).audit);
  }

  /** The last application list the device synced, if it ever did. */
  function LastSync(uuid: Cast, reqs: seq<Request>, device: string): Option<seq<string>> {
    if reqs == [] then None
    else
      var before, req := reqs[..|reqs| - 1], reqs[|reqs| - 1];
      if req.DoSyncApps? && req.device == device && Step(uuid, Run(uuid, before), req).code == Ok then Some(req.names)
      else LastSync(uuid, before, device)
  }

  lemma StepKeepsApps(uuid: Cast, t: Tables, req: Request)
    ensures !req.DoSyncApps? || Step(uuid, t, req).code != Ok ==> Step(uuid, t, req).next.apps == t.apps
  {
  }

  lemma {:induction false} AppsAreTheLastSync(uuid: Cast, reqs: seq<Request>, device: string, app: string)
    ensures var t, last := Run(uuid, reqs), LastSync(uuid, reqs, device);
      (device in t.apps && app in t.apps[device]) <==> (last.Some? && app in last.value)
  {
    if reqs != [] {
      AppsAreTheLastSync(uuid, reqs[..|reqs| - 1], device, app);
      StepKeepsApps(uuid, Run(uuid, reqs[..|reqs| - 1]), reqs[|reqs| - 1]);
    }
  }

  /** Over all runs: a request is let through exactly when the account's newest binding event on
      that device is a grant, the application is in the device's last synced list, the owner is not
      suspended and a tunnel is registered. */
  lemma AllowedMeans(uuid: Cast, reqs: seq<Request>, tunnels: set<string>,
                     session: Option<string>, device: string, app: string)
    ensures DistinctSince(Run(uuid, reqs).bindings)
    ensures var t, last := Run(uuid, reqs), LastSync(uuid, reqs, device);
      Allowed(t, tunnels, session, device, app) <==>
        && session.Some? && ValidTarget(device, app)
        && AccessProofs.LastEventGrants(uuid, t.audit, device, session.value)
        && last.Some? && app in last.value && Paid(t, device) && device in tunnels
  {
    SinceHolds(uuid, reqs);
    AppsAreTheLastSync(uuid, reqs, device, app);
    if session.Some? {
      AccessProofs.ActiveIffLastEventGrants(uuid, reqs, device, session.value);
    }
  }
}
