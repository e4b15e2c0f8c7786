/** Who was allowed to do what: every row of the audit log was written by somebody the log up to
    that row says could do it. */
module Authority {
  import opened Common
  import opened Access
  import AccessProofs

  /** What the bindings just before an event have to say for the event to be legitimate. */
  ghost predicate Authorised(uuid: Cast, b: Bindings, e: Event) {
    match e.action
    case BindingRevoked =>
      && uuid(e.account).Some? && IsActive(b, e.device, uuid(e.account).value)
      && e.role == Some(b[(e.device, uuid(e.account).value)].role)
      && (|| (e.actor == e.account && e.role == Some(Guest))
          || (ActiveAdmin(b, e.device, e.actor) && (e.role == Some(Admin) ==> |Admins(b, e.device)| > 1)))
    case DeviceRemoved => ActiveAdmin(b, e.device, e.actor)
    case DeviceDisabled => ActiveAdmin(b, e.device, e.actor)
    case InviteCreated => ActiveAdmin(b, e.device, e.actor)
    case InviteRedeemed =>
      e.actor == e.account && e.role.Some? && !IsActive(b, e.device, e.account) && AccessProofs.HasAdmin(b, e.device)
    case DeviceEnrolled => e.actor == e.account && e.role == Some(Admin)
    case DeviceUnenrolled => e.actor == e.device
    case AccountDeleted => e.actor == e.account
    case RemoteDenied => e.actor == e.account
    case TunnelConnected => e.actor == e.device
    case TunnelDisconnected => e.actor == e.device
    case _ => true
  }

  /** The request's row, if it wrote one, is legitimate for the bindings it found. */
  ghost predicate WellAuthorised(uuid: Cast, t: Tables, next: Tables) {
    next.audit == t.audit ||
    (|next.audit| == |t.audit| + 1 && Authorised(uuid, t.bindings, next.audit[|t.audit|]))
  }

  lemma RevokeIsAuthorised(uuid: Cast, t: Tables, actor: string, device: string, target: string)
    ensures WellAuthorised(uuid, t, Revoke(uuid, t, actor, device, target).next)
  {
  }

  lemma LeaveIsAuthorised(uuid: Cast, t: Tables, actor: string, device: string)
    requires AccessProofs.AccountsCanonical(uuid, t)
    ensures WellAuthorised(uuid, t, Leave(t, actor, device).next)
  {
  }

  lemma RedeemIsAuthorised(uuid: Cast, t: Tables, actor: string, code: string)
    ensures WellAuthorised(uuid, t, Redeem(t, actor, code).next)
  {
    if Redeem(t, actor, code).code == Ok {
      assert ActiveAdmin(t.bindings, t.invites[code].device, t.invites[code].creator);
    }
  }

  lemma AdminIsAuthorised(uuid: Cast, t: Tables, req: Request)
    requires req.DoRemove? || req.DoDisable? || req.DoCreateInvite?
    ensures WellAuthorised(uuid, t, Step(uuid, t, req).next)
  {
  }

  lemma SelfIsAuthorised(uuid: Cast, t: Tables, req: Request)
    requires req.DoEnrol? || req.DoUnenrol? || req.DoDelete? || req.DoDenied? || req.DoTunnelRow?
    ensures WellAuthorised(uuid, t, Step(uuid, t, req).next)
  {
  }

  /** The row a request writes is authorised by the bindings the request found. */
  lemma StepIsAuthorised(uuid: Cast, t: Tables, req: Request)
    requires AccessProofs.AccountsCanonical(uuid, t)
    ensures WellAuthorised(uuid, t, Step(uuid, t, req).next)
  {
    if req.DoRevoke? {
      RevokeIsAuthorised(uuid, t, req.actor, req.device, req.target);
    } else if req.DoLeave? {
      LeaveIsAuthorised(uuid, t, req.actor, req.device);
    } else if req.DoRedeem? {
      RedeemIsAuthorised(uuid, t, req.actor, req.code);
    } else if req.DoRemove? || req.DoDisable? || req.DoCreateInvite? {
      AdminIsAuthorised(uuid, t, req);
    } else if req.DoEnrol? || req.DoUnenrol? || req.DoDelete? || req.DoDenied? || req.DoTunnelRow? {
      SelfIsAuthorised(uuid, t, req);
    }
  }

  /** In every run, every row of the log is authorised by what the rows before it replay to. */
  lemma {:induction false} EveryEventIsAuthorised(uuid: Cast, reqs: seq<Request>, i: nat)
    requires i < |Run(uuid, reqs).audit|
    ensures var log := Run(uuid, reqs).audit; Authorised(uuid, AccessProofs.Replay(uuid, log[..i]), log[i])
  {
    if reqs != [] {
      var before, req := reqs[..|reqs| - 1], reqs[|reqs| - 1];
      var t, log := Run(uuid, before), Run(uuid, reqs).audit;
      AccessProofs.BindingsAreTheReplay(uuid, before);
      AccessProofs.StepIsLogged(uuid, t, req);
      if i < |t.audit| {
        EveryEventIsAuthorised(uuid, before, i);
        assert log[..i] == t.audit[..i] && log[i] == t.audit[i];
      } else {
        StepIsAuthorised(uuid, t, req);
        assert log[..i] == t.audit;
      }
    }
  }

  // ----- what a request does to the log and the accounts

  /** A request writes one row, or none, and the row says what happened to the bindings. */
  lemma StepRow(uuid: Cast, t: Tables, req: Request) returns (row: Option<Event>)
    requires AccessProofs.AccountsCanonical(uuid, t)
    ensures var next := Step(uuid, t, req).next;
      && next.audit == t.audit + (if row.Some? then [row.value] else [])
      && (row.None? ==> next.bindings == t.bindings)
      && (row.Some? ==> next.bindings == AccessProofs.ApplyEvent(uuid, t.bindings, row.value, |t.audit|))
      && (row.Some? ==> Authorised(uuid, t.bindings, row.value))
  {
    var next := Step(uuid, t, req).next;
    AccessProofs.StepIsLogged(uuid, t, req);
    if next.audit == t.audit {
      return None;
    }
    StepIsAuthorised(uuid, t, req);
    return Some(next.audit[|t.audit|]);
  }

  /** An account appears only when no row of the log names it. */
  lemma AccountsAreNew(uuid: Cast, t: Tables, req: Request, account: string)
    requires account in Step(uuid, t, req).next.accounts && account !in t.accounts
    ensures !Named(t.audit, account) && Step(uuid, t, req).next.audit == t.audit
  {
  }

  /** The account an account.deleted row names is gone. */
  lemma DeletedIsGone(uuid: Cast, t: Tables, req: Request, e: Event)
    requires Step(uuid, t, req).next.audit == t.audit + [e] && e.action == AccountDeleted
    ensures e.account !in Step(uuid, t, req).next.accounts
  {
    assert Step(uuid, t, req).next.audit[|t.audit|] == e;
  }

  /** Only a redeem writes an invite.redeemed row, for the device of its invite. */
  lemma RedeemedRow(uuid: Cast, t: Tables, req: Request, e: Event)
    requires Step(uuid, t, req).next.audit == t.audit + [e] && e.action == InviteRedeemed
    ensures req.DoRedeem? && Redeem(t, req.actor, req.code).code == Ok && e.device == t.invites[req.code].device
  {
    assert Step(uuid, t, req).next.audit[|t.audit|] == e;
  }

  // ----- a disabled device stays off

  predicate Opens(e: Event, device: string) {
    e.device == device &&
      (e.action == DeviceEnrolled || e.action == InviteCreated || e.action == InviteRedeemed || e.action == AppsSynced)
  }

  predicate Off(t: Tables, device: string) {
    device in t.devices && t.devices[device] == Disabled
  }

  /** Whatever the log says was disabled is still disabled. */
  ghost predicate DisabledStay(t: Tables) {
    forall i :: 0 <= i < |t.audit| && t.audit[i].action == DeviceDisabled ==> Off(t, t.audit[i].device)
  }

  /** No request turns a device back on. */
  lemma OffStaysOff(uuid: Cast, t: Tables, req: Request, device: string)
    requires Off(t, device)
    ensures Off(Step(uuid, t, req).next, device)
  {
  }

  /** A row that says a device was disabled finds it off afterwards, and one that opens a device
      found it on. */
  lemma RowRespectsStatus(uuid: Cast, t: Tables, req: Request, e: Event)
    requires Step(uuid, t, req).next.audit == t.audit + [e]
    ensures e.action == DeviceDisabled ==> Off(Step(uuid, t, req).next, e.device)
    ensures Opens(e, e.device) ==> !Off(t, e.device)
  {
    var log := Step(uuid, t, req).next.audit;
    assert log[|t.audit|] == e;
  }

  /** A run's last request wrote one row, or none. */
  lemma LastRow(uuid: Cast, reqs: seq<Request>) returns (row: Option<Event>)
    requires reqs != []
    ensures var t, next := Run(uuid, reqs[..|reqs| - 1]), Run(uuid, reqs);
      next.audit == t.audit + if row.Some? then [row.value] else []
  {
    var before := reqs[..|reqs| - 1];
    AccessProofs.BindingsAreTheReplay(uuid, before);
    row := StepRow(uuid, Run(uuid, before), reqs[|reqs| - 1]);
  }

  lemma StepKeepsDisabled(uuid: Cast, t: Tables, req: Request, row: Option<Event>)
    requires DisabledStay(t) && Step(uuid, t, req).next.audit == t.audit + if row.Some? then [row.value] else []
    ensures DisabledStay(Step(uuid, t, req).next)
  {
    var next := Step(uuid, t, req).next;
    forall i | 0 <= i < |next.audit| && next.audit[i].action == DeviceDisabled ensures Off(next, next.audit[i].device) {
      if i < |t.audit| {
        OffStaysOff(uuid, t, req, t.audit[i].device);
      } else {
        RowRespectsStatus(uuid, t, req, row.value);
      }
    }
  }

  lemma {:induction false} DisabledHolds(uuid: Cast, reqs: seq<Request>)
    ensures DisabledStay(Run(uuid, reqs))
  {
    if reqs != [] {
      DisabledHolds(uuid, reqs[..|reqs| - 1]);
      var row := LastRow(uuid, reqs);
      StepKeepsDisabled(uuid, Run(uuid, reqs[..|reqs| - 1]), reqs[|reqs| - 1], row);
    }
  }

  /** In every run, once a device has been disabled nobody is enrolled on it, invited to it or
      admitted to it again, and it syncs no applications. */
  lemma {:induction false} NothingAfterDisable(uuid: Cast, reqs: seq<Request>, i: nat, j: nat)
    requires i < j < |Run(uuid, reqs).audit| && Run(uuid, reqs).audit[i].action == DeviceDisabled
    ensures !Opens(Run(uuid, reqs).audit[j], Run(uuid, reqs).audit[i].device)
  {
    if reqs != [] {
      var before := reqs[..|reqs| - 1];
      var t := Run(uuid, before);
      var row := LastRow(uuid, reqs);
      if j < |t.audit| {
        NothingAfterDisable(uuid, before, i, j);
      } else {
        DisabledHolds(uuid, before);
        RowRespectsStatus(uuid, t, reqs[|reqs| - 1], row.value);
      }
    }
  }

  // ----- every admission is paid for by an invite

  function Rows(log: seq<Event>, action: Action, device: string, role: Role): nat {
    if log == [] then 0
    else
      var e := log[|log| - 1];
      Rows(log[..|log| - 1], action, device, role) +
        if e.action == action && e.device == device && e.role == Some(role) then 1 else 0
  }

  lemma RowsMore(log: seq<Event>, e: Event, action: Action, device: string, role: Role)
    ensures Rows(log + [e], action, device, role) ==
      Rows(log, action, device, role) +
        if e.action == action && e.device == device && e.role == Some(role) then 1 else 0
  {
    assert (log + [e])[..|log|] == log;
  }

  /** The invites to a device in a role that nobody has redeemed. */
  function Unused(invites: map<string, Invite>, device: string, role: Role): (s: set<string>)
    ensures forall c :: c in s <==>
      c in invites && !invites[c].used && invites[c].device == device && invites[c].role == role
  {
    set c | c in invites && !invites[c].used && invites[c].device == device && invites[c].role == role
  }

  /** Redeemed and still unused together are no more than were ever created. */
  ghost predicate Paid(t: Tables, device: string, role: Role) {
    Rows(t.audit, InviteRedeemed, device, role) + |Unused(t.invites, device, role)| <=
      Rows(t.audit, InviteCreated, device, role)
  }

  /** A new invite is one more to redeem. */
  lemma UnusedCreated(invites: map<string, Invite>, code: string, i: Invite, device: string, role: Role)
    requires code !in invites && !i.used
    ensures |Unused(invites[code := i], device, role)| ==
      |Unused(invites, device, role)| + if i.device == device && i.role == role then 1 else 0
  {
    var before, after := Unused(invites, device, role), Unused(invites[code := i], device, role);
    assert after == if i.device == device && i.role == role then before + {code} else before;
  }

  /** A redeemed one is one less. */
  lemma UnusedRedeemed(invites: map<string, Invite>, code: string, i: Invite, device: string, role: Role)
    requires code in invites && !invites[code].used && i.used
    requires i.device == invites[code].device && i.role == invites[code].role
    ensures |Unused(invites[code := i], device, role)| ==
      |Unused(invites, device, role)| - if i.device == device && i.role == role then 1 else 0
  {
    var before, after := Unused(invites, device, role), Unused(invites[code := i], device, role);
    assert after == if i.device == device && i.role == role then before - {code} else before;
  }

  lemma CreatePays(uuid: Cast, t: Tables, req: Request, device: string, role: Role)
    requires req.DoCreateInvite? && Paid(t, device, role) && Step(uuid, t, req).code == Ok
    ensures Paid(Step(uuid, t, req).next, device, role)
  {
    var next := Step(uuid, t, req).next;
    var e := Event(req.device, req.actor, InviteCreated, req.actor, Some(req.role));
    RowsMore(t.audit, e, InviteCreated, device, role);
    RowsMore(t.audit, e, InviteRedeemed, device, role);
    UnusedCreated(t.invites, req.code, next.invites[req.code], device, role);
  }

  lemma RedeemPays(uuid: Cast, t: Tables, req: Request, device: string, role: Role)
    requires req.DoRedeem? && Paid(t, device, role) && Step(uuid, t, req).code == Ok
    ensures Paid(Step(uuid, t, req).next, device, role)
  {
    var next, i := Step(uuid, t, req).next, t.invites[req.code];
    var e := Event(i.device, req.actor, InviteRedeemed, req.actor, Some(i.role));
    RowsMore(t.audit, e, InviteCreated, device, role);
    RowsMore(t.audit, e, InviteRedeemed, device, role);
    UnusedRedeemed(t.invites, req.code, next.invites[req.code], device, role);
  }

  lemma OtherRow(uuid: Cast, t: Tables, req: Request, e: Event)
    requires !req.DoCreateInvite? && !req.DoRedeem? && Step(uuid, t, req).next.audit == t.audit + [e]
    ensures e.action != InviteCreated && e.action != InviteRedeemed
  {
    assert Step(uuid, t, req).next.audit[|t.audit|] == e;
  }

  lemma OtherInvites(uuid: Cast, t: Tables, req: Request, device: string, role: Role)
    requires !req.DoCreateInvite? && !req.DoRedeem?
    ensures Unused(Step(uuid, t, req).next.invites, device, role) <= Unused(t.invites, device, role)
  {
    if !req.DoDelete? {
      AccessProofs.InvitesUntouched(uuid, t, req);
    }
  }

  lemma StepPays(uuid: Cast, t: Tables, req: Request, row: Option<Event>, device: string, role: Role)
    requires Paid(t, device, role)
    requires Step(uuid, t, req).next.audit == t.audit + if row.Some? then [row.value] else []
    ensures Paid(Step(uuid, t, req).next, device, role)
  {
    var next := Step(uuid, t, req).next;
    if req.DoCreateInvite? && Step(uuid, t, req).code == Ok {
      CreatePays(uuid, t, req, device, role);
    } else if req.DoRedeem? && Step(uuid, t, req).code == Ok {
      RedeemPays(uuid, t, req, device, role);
    } else if req.DoCreateInvite? || req.DoRedeem? {
      assert next == t;
    } else {
      OtherInvites(uuid, t, req, device, role);
      SubsetCardinality(Unused(next.invites, device, role), Unused(t.invites, device, role));
      if row.Some? {
        OtherRow(uuid, t, req, row.value);
        RowsMore(t.audit, row.value, InviteCreated, device, role);
        RowsMore(t.audit, row.value, InviteRedeemed, device, role);
      } else {
        assert next.audit == t.audit;
      }
    }
  }

  /** In every run, no more accounts were admitted to a device in a role than invites to that
      device in that role were created, whoever was deleted since. */
  lemma {:induction false} AdmissionsArePaid(uuid: Cast, reqs: seq<Request>, device: string, role: Role)
    ensures Paid(Run(uuid, reqs), device, role)
  {
    if reqs != [] {
      AdmissionsArePaid(uuid, reqs[..|reqs| - 1], device, role);
      var row := LastRow(uuid, reqs);
      StepPays(uuid, Run(uuid, reqs[..|reqs| - 1]), reqs[|reqs| - 1], row, device, role);
    }
  }
}
