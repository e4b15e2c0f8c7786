/** Who pays for a device: the account the subscription is read from, and the first admin the device
    ever had. */
module Owners {
  import opened Common
  import opened Access
  import opened Routing
  import AccessProofs
  import Authority

  /** The position of the first grant on a device, or the length of the log. */
  function FirstGrant(log: seq<Event>, device: string): (i: nat)
    ensures i <= |log| && (i < |log| ==> GrantOn(log[i], device))
    ensures forall j :: 0 <= j < i ==> !GrantOn(log[j], device)
  {
    if log == [] then 0
    else
      var i := FirstGrant(log[..|log| - 1], device);
      if i < |log| - 1 || GrantOn(log[|log| - 1], device) then i else |log|
  }

  lemma FirstGrantGrows(log: seq<Event>, e: Event, device: string)
    ensures FirstGrant(log + [e], device) ==
      if FirstGrant(log, device) < |log| || GrantOn(e, device) then FirstGrant(log, device) else |log| + 1
  {
    assert (log + [e])[..|log|] == log;
  }

  // ----- a grant is remembered for as long as its account exists

  ghost predicate Kept(t: Tables, j: nat)
    requires j < |t.audit|
  {
    var e := t.audit[j];
    GrantOn(e, e.device) && e.account in t.accounts ==>
      (e.device, e.account) in t.bindings && t.bindings[(e.device, e.account)].since <= j
  }

  ghost predicate AllKept(t: Tables) {
    forall j :: 0 <= j < |t.audit| ==> Kept(t, j)
  }

  lemma StepKeepsGrant(uuid: Cast, t: Tables, req: Request, row: Option<Event>, j: nat)
    requires AccessProofs.AccountsCanonical(uuid, t) && AllKept(t) && j < |Step(uuid, t, req).next.audit|
    requires Step(uuid, t, req).next.audit == t.audit + if row.Some? then [row.value] else []
    requires Dated(Step(uuid, t, req).next.bindings, Step(uuid, t, req).next.audit)
    ensures Kept(Step(uuid, t, req).next, j)
  {
    var next := Step(uuid, t, req).next;
    var e := next.audit[j];
    if GrantOn(e, e.device) && e.account in next.accounts {
      AccessProofs.StepIsLogged(uuid, t, req);
      if row.Some? {
        assert next.audit[|t.audit|] == row.value;
        EventKeepsRows(uuid, t.bindings, row.value, |t.audit|);
        if row.value.action == AccountDeleted {
          Authority.DeletedIsGone(uuid, t, req, row.value);
        }
      }
      if j < |t.audit| {
        assert t.audit[j] == e && Kept(t, j);
        if e.account !in t.accounts {
          Authority.AccountsAreNew(uuid, t, req, e.account);
        }
      }
    }
  }

  lemma {:induction false} GrantsAreKept(uuid: Cast, reqs: seq<Request>)
    ensures AllKept(Run(uuid, reqs))
  {
    if reqs != [] {
      var before := reqs[..|reqs| - 1];
      GrantsAreKept(uuid, before);
      AccessProofs.BindingsAreTheReplay(uuid, before);
      SinceHolds(uuid, reqs);
      var row := Authority.LastRow(uuid, reqs);
      forall j | 0 <= j < |Run(uuid, reqs).audit| ensures Kept(Run(uuid, reqs), j) {
        StepKeepsGrant(uuid, Run(uuid, before), reqs[|reqs| - 1], row, j);
      }
    }
  }

  // ----- the first grant on a device enrolled it

  ghost predicate FirstEnrolled(log: seq<Event>, device: string) {
    FirstGrant(log, device) < |log| ==> log[FirstGrant(log, device)].action == DeviceEnrolled
  }

  /** A redeem needs an admin, and a row comes from a grant, so a redeem is never the first. */
  lemma RedeemIsNotFirst(t: Tables, actor: string, code: string)
    requires Redeem(t, actor, code).code == Ok && Dated(t.bindings, t.audit)
    ensures FirstGrant(t.audit, t.invites[code].device) < |t.audit|
  {
    var i := t.invites[code];
    var at := t.bindings[(i.device, i.creator)].since;
    assert GrantOn(t.audit[at], i.device);
  }

  lemma {:induction false} FirstIsEnrolment(uuid: Cast, reqs: seq<Request>, device: string)
    ensures FirstEnrolled(Run(uuid, reqs).audit, device)
  {
    if reqs != [] {
      var before := reqs[..|reqs| - 1];
      var t, req := Run(uuid, before), reqs[|reqs| - 1];
      FirstIsEnrolment(uuid, before, device);
      SinceHolds(uuid, before);
      var row := Authority.LastRow(uuid, reqs);
      if row.Some? {
        FirstGrantGrows(t.audit, row.value, device);
        if row.value.action == InviteRedeemed {
          Authority.RedeemedRow(uuid, t, req, row.value);
          RedeemIsNotFirst(t, req.actor, req.code);
        }
      } else {
        assert Run(uuid, reqs).audit == t.audit;
      }
    }
  }

  /** In every run, the account the subscription is read from is the first admin the device ever had
      exactly when that account still exists and its row carries the admin role. */
  lemma OwnerIsFirstAdminIff(uuid: Cast, reqs: seq<Request>, device: string)
    requires FirstGrant(Run(uuid, reqs).audit, device) < |Run(uuid, reqs).audit|
    ensures var t := Run(uuid, reqs);
      var e := t.audit[FirstGrant(t.audit, device)];
      && e.action == DeviceEnrolled
      && ((device, e.account) in t.bindings <==> e.account in t.accounts)
      && (IsOwner(t.bindings, device, e.account) <==>
            (device, e.account) in t.bindings && t.bindings[(device, e.account)].role == Admin)
  {
    var t := Run(uuid, reqs);
    FirstIsEnrolment(uuid, reqs, device);
    SinceHolds(uuid, reqs);
    GrantsAreKept(uuid, reqs);
    AccessProofs.ForeignKeysHold(uuid, reqs);
    assert Kept(t, FirstGrant(t.audit, device));
  }

  // It does not always: an admin who was revoked and came back through a guest invite is the first
  // the device ever had, and somebody else pays.

  function Turnover(): seq<Request> {
    [DoCreateInvite("a", "d", "i", Admin, 60), DoRedeem("b", "i"), DoRevoke("b", "d", "a"),
     DoCreateInvite("b", "d", "j", Guest, 60), DoRedeem("a", "j")]
  }

  function Invited(): Tables {
    var t := AccessProofs.Enrolled();
    t.(invites := map["i" := Invite("d", "a", Admin, 60, false, None)],
       audit := t.audit + [Event("d", "a", InviteCreated, "a", Some(Admin))])
  }

  function TwoAdmins(): Tables {
    var t := Invited();
    t.(invites := map["i" := Invite("d", "a", Admin, 60, true, Some("b"))],
       bindings := map[("d", "a") := Binding(Admin, true, 0), ("d", "b") := Binding(Admin, true, 2)],
       audit := t.audit + [Event("d", "b", InviteRedeemed, "b", Some(Admin))])
  }

  function Revoked(): Tables {
    var t := TwoAdmins();
    t.(bindings := map[("d", "a") := Binding(Admin, false, 0), ("d", "b") := Binding(Admin, true, 2)],
       audit := t.audit + [Event("d", "b", BindingRevoked, "a", Some(Admin))])
  }

  function InvitedBack(): Tables {
    var t := Revoked();
    t.(invites := t.invites["j" := Invite("d", "b", Guest, 60, false, None)],
       audit := t.audit + [Event("d", "b", InviteCreated, "b", Some(Guest))])
  }

  function Replaced(): Tables {
    var t := InvitedBack();
    t.(invites := t.invites["j" := Invite("d", "b", Guest, 60, true, Some("a"))],
       bindings := map[("d", "a") := Binding(Guest, true, 0), ("d", "b") := Binding(Admin, true, 2)],
       audit := t.audit + [Event("d", "a", InviteRedeemed, "a", Some(Guest))])
  }

  lemma FirstTurns()
    ensures Step(AccessProofs.FoldB, AccessProofs.Enrolled(), Turnover()[0]).next == Invited()
    ensures Step(AccessProofs.FoldB, Invited(), Turnover()[1]).next == TwoAdmins()
  {
    assert ActiveAdmin(AccessProofs.Enrolled().bindings, "d", "a");
    assert ActiveAdmin(Invited().bindings, "d", "a");
  }

  lemma RevokeTurn()
    ensures Step(AccessProofs.FoldB, TwoAdmins(), Turnover()[2]).next == Revoked()
  {
    var b := TwoAdmins().bindings;
    assert ActiveAdmin(b, "d", "b") && ActiveAdmin(b, "d", "a");
    assert {"a", "b"} <= Admins(b, "d");
    SubsetCardinality({"a", "b"}, Admins(b, "d"));
  }

  lemma InviteBackTurn()
    ensures Step(AccessProofs.FoldB, Revoked(), Turnover()[3]).next == InvitedBack()
  {
    assert ActiveAdmin(Revoked().bindings, "d", "b");
  }

  lemma RedeemBackTurn()
    ensures Step(AccessProofs.FoldB, InvitedBack(), Turnover()[4]).next == Replaced()
  {
    assert ActiveAdmin(InvitedBack().bindings, "d", "b");
  }

  lemma ReplacedRun()
    ensures Run(AccessProofs.FoldB, AccessProofs.OneGuest()[..4] + Turnover()) == Replaced()
  {
    var start, r := AccessProofs.OneGuest()[..4], Turnover();
    AccessProofs.EnrolledRun();
    assert start + r[..0] == start && start + r[..5] == start + r;
    forall i | 0 <= i < 5 ensures (start + r[..i]) + [r[i]] == start + r[..i + 1] {
    }
    AccessProofs.RunMore(AccessProofs.FoldB, start + r[..0], r[0]);
    AccessProofs.RunMore(AccessProofs.FoldB, start + r[..1], r[1]);
    FirstTurns();
    AccessProofs.RunMore(AccessProofs.FoldB, start + r[..2], r[2]);
    RevokeTurn();
    AccessProofs.RunMore(AccessProofs.FoldB, start + r[..3], r[3]);
    AccessProofs.RunMore(AccessProofs.FoldB, start + r[..4], r[4]);
    InviteBackTurn();
    RedeemBackTurn();
  }

  lemma OwnerCanBeSomebodyElse()
    ensures var t := Run(AccessProofs.FoldB, AccessProofs.OneGuest()[..4] + Turnover());
      && FirstGrant(t.audit, "d") < |t.audit| && t.audit[FirstGrant(t.audit, "d")].account == "a"
      && !IsOwner(t.bindings, "d", "a") && IsOwner(t.bindings, "d", "b")
  {
    ReplacedRun();
    var t := Replaced();
    assert GrantOn(t.audit[0], "d");
    assert AdminRow(t.bindings, "d", "b");
  }
}
