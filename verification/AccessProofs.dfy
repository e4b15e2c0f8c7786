/** What every run of the control plane keeps: the bindings table is what the audit log replays
    to, a device somebody can reach has an admin, and an active binding keeps its role. */
module AccessProofs {
  import opened Common
  import opened Access

  // ----- the audit log determines the bindings table

  /** What one audit row says happened to the bindings. `at` is the row's position. */
  function ApplyEvent(uuid: Cast, b: Bindings, e: Event, at: nat): Bindings {
    match e.action
    case DeviceEnrolled =>
      if IsActive(b, e.device, e.account) then b else Admit(b, (e.device, e.account), Admin, at)
    case InviteRedeemed =>
      if e.role.Some? then Admit(b, (e.device, e.account), e.role.value, at) else b
    case BindingRevoked =>
      if uuid(e.account).Some? then RevokeRow(b, (e.device, uuid(e.account).value)) else b
    case DeviceRemoved => RevokeAll(b, e.device)
    case DeviceUnenrolled => RevokeAll(b, e.device)
    case AccountDeleted => ForgetAccount(b, e.account)
    case _ => b
  }

  function Replay(uuid: Cast, log: seq<Event>): Bindings {
    if log == [] then map[]
    else ApplyEvent(uuid, Replay(uuid, log[..|log| - 1]), log[|log| - 1], |log| - 1)
  }

  ghost predicate AccountsCanonical(uuid: Cast, t: Tables) {
    forall a :: a in t.accounts ==> uuid(a) == Some(a) && SafeToken(a)
  }

  lemma StepKeepsCanonical(uuid: Cast, t: Tables, req: Request)
    requires AccountsCanonical(uuid, t)
    ensures AccountsCanonical(uuid, Step(uuid, t, req).next)
  {
  }

  /** The step's one audit row, if it wrote one, alone says what it did to the bindings. */
  ghost predicate Logged(uuid: Cast, t: Tables, next: Tables) {
    || (next.audit == t.audit && next.bindings == t.bindings)
    || exists e :: next.audit == t.audit + [e] && next.bindings == ApplyEvent(uuid, t.bindings, e, |t.audit|)
  }

  /** The requests that can change the bindings table. */
  predicate Touches(req: Request) {
    req.DoEnrol? || req.DoRedeem? || req.DoRevoke? || req.DoLeave? || req.DoRemove? || req.DoUnenrol? || req.DoDelete?
  }

  lemma QuietStep(uuid: Cast, t: Tables, req: Request)
    requires !Touches(req)
    ensures Step(uuid, t, req).next.bindings == t.bindings
    ensures Logged(uuid, t, Step(uuid, t, req).next)
    ensures t.accounts <= Step(uuid, t, req).next.accounts
  {
    var next := Step(uuid, t, req).next;
    if next.audit != t.audit {
      var e := next.audit[|t.audit|];
      assert next.audit == t.audit + [e] && ApplyEvent(uuid, t.bindings, e, |t.audit|) == t.bindings;
    }
  }

  lemma GrantIsLogged(uuid: Cast, t: Tables, req: Request)
    requires req.DoEnrol? || req.DoRedeem?
    ensures Logged(uuid, t, Step(uuid, t, req).next)
  {
    var next := Step(uuid, t, req).next;
    if next.audit != t.audit {
      var e := next.audit[|t.audit|];
      assert next.bindings == ApplyEvent(uuid, t.bindings, e, |t.audit|);
    }
  }

  lemma RevocationIsLogged(uuid: Cast, t: Tables, req: Request)
    requires AccountsCanonical(uuid, t)
    requires req.DoRevoke? || req.DoLeave?
    ensures Logged(uuid, t, Step(uuid, t, req).next)
  {
    var next := Step(uuid, t, req).next;
    if next.audit != t.audit {
      var e := next.audit[|t.audit|];
      assert next.bindings == ApplyEvent(uuid, t.bindings, e, |t.audit|);
    }
  }

  /** Every transaction writes at most one audit row, and that row alone says what it did to the
      bindings. */
  lemma StepIsLogged(uuid: Cast, t: Tables, req: Request)
    requires AccountsCanonical(uuid, t)
    ensures Logged(uuid, t, Step(uuid, t, req).next)
  {
    if !Touches(req) {
      QuietStep(uuid, t, req);
    } else if req.DoEnrol? || req.DoRedeem? {
      GrantIsLogged(uuid, t, req);
    } else if req.DoRevoke? || req.DoLeave? {
      RevocationIsLogged(uuid, t, req);
    } else {
      var next := Step(uuid, t, req).next;
      if next.audit != t.audit {
        var e := next.audit[|t.audit|];
        assert next.bindings == ApplyEvent(uuid, t.bindings, e, |t.audit|);
      }
    }
  }

  lemma LoggedKeepsReplay(uuid: Cast, t: Tables, next: Tables)
    requires Logged(uuid, t, next) && t.bindings == Replay(uuid, t.audit)
    ensures next.bindings == Replay(uuid, next.audit)
  {
    if next.audit != t.audit {
      assert next.audit[..|next.audit| - 1] == t.audit;
    }
  }

  /** In every reachable state the bindings table is the replay of the append-only log. */
  lemma {:induction false} BindingsAreTheReplay(uuid: Cast, reqs: seq<Request>)
    ensures AccountsCanonical(uuid, Run(uuid, reqs))
    ensures Run(uuid, reqs).bindings == Replay(uuid, Run(uuid, reqs).audit)
  {
    if reqs != [] {
      var before, req := reqs[..|reqs| - 1], reqs[|reqs| - 1];
      BindingsAreTheReplay(uuid, before);
      var t := Run(uuid, before);
      StepKeepsCanonical(uuid, t, req);
      StepIsLogged(uuid, t, req);
      LoggedKeepsReplay(uuid, t, Step(uuid, t, req).next);
    }
  }

  /** No request ever rewrites history. */
  lemma {:induction false} AuditOnlyGrows(uuid: Cast, reqs: seq<Request>, n: nat)
    requires n <= |reqs|
    ensures Run(uuid, reqs[..n]).audit <= Run(uuid, reqs).audit
  {
    if n < |reqs| {
      var before := reqs[..|reqs| - 1];
      AuditOnlyGrows(uuid, before, n);
      assert before[..n] == reqs[..n];
      BindingsAreTheReplay(uuid, before);
      StepIsLogged(uuid, Run(uuid, before), reqs[|reqs| - 1]);
    } else {
      assert reqs[..n] == reqs;
    }
  }

  // ----- reading the log without the cast

  /** A reader that compares account ids as text, without the database's cast. */
  function AsText(s: string): Option<string> {
    Some(s)
  }

  /** The foreign keys: a binding, a token and an invite belong to accounts and devices that exist. */
  ghost predicate ForeignKeys(t: Tables) {
    BindingKeys(t) && TokenKeys(t) && InviteKeys(t)
  }

  ghost predicate BindingKeys(t: Tables) {
    forall row :: row in t.bindings ==> row.0 in t.devices && row.1 in t.accounts
  }

  ghost predicate TokenKeys(t: Tables) {
    forall k :: k in t.tokens ==> t.tokens[k].account in t.accounts
  }

  ghost predicate InviteKeys(t: Tables) {
    forall c :: c in t.invites ==>
      && t.invites[c].device in t.devices && t.invites[c].creator in t.accounts
      && (t.invites[c].usedBy.Some? ==> t.invites[c].used && t.invites[c].usedBy.value in t.accounts)
  }

  /** Devices are never removed, and an account only by its own deletion. */
  lemma StepKeepsOwners(uuid: Cast, t: Tables, req: Request)
    ensures t.devices.Keys <= Step(uuid, t, req).next.devices.Keys
    ensures req.DoDelete? || t.accounts <= Step(uuid, t, req).next.accounts
    ensures Step(uuid, t, req).next.accounts >= t.accounts - (if req.DoDelete? then {req.actor} else {})
  {
  }

  lemma StepKeepsTokenKeys(uuid: Cast, t: Tables, req: Request)
    requires TokenKeys(t)
    ensures TokenKeys(Step(uuid, t, req).next)
  {
  }

  /** The requests that can change the invites table. */
  predicate TouchesInvites(req: Request) {
    req.DoCreateInvite? || req.DoRedeem? || req.DoDelete?
  }

  lemma InvitesUntouched(uuid: Cast, t: Tables, req: Request)
    requires !TouchesInvites(req)
    ensures Step(uuid, t, req).next.invites == t.invites
  {
  }

  lemma StepKeepsInviteKeys(uuid: Cast, t: Tables, req: Request)
    requires InviteKeys(t)
    ensures InviteKeys(Step(uuid, t, req).next)
  {
    if !TouchesInvites(req) {
      StepKeepsOwners(uuid, t, req);
      InvitesUntouched(uuid, t, req);
    }
  }

  lemma StepKeepsBindingKeys(uuid: Cast, t: Tables, req: Request)
    requires ForeignKeys(t)
    ensures BindingKeys(Step(uuid, t, req).next)
  {
    if req.DoEnrol? || req.DoRedeem? {
      GrantKeepsBindingKeys(uuid, t, req);
    } else {
      StepKeepsOwners(uuid, t, req);
      NoNewRows(uuid, t, req);
    }
  }

  lemma GrantKeepsBindingKeys(uuid: Cast, t: Tables, req: Request)
    requires ForeignKeys(t) && (req.DoEnrol? || req.DoRedeem?)
    ensures BindingKeys(Step(uuid, t, req).next)
  {
  }

  /** Only grants add rows, and a deletion takes those of its account. */
  lemma NoNewRows(uuid: Cast, t: Tables, req: Request)
    requires !req.DoEnrol? && !req.DoRedeem?
    ensures Step(uuid, t, req).next.bindings.Keys <= t.bindings.Keys
    ensures req.DoDelete? && Step(uuid, t, req).code == Ok ==>
      forall row :: row in Step(uuid, t, req).next.bindings ==> row.1 != req.actor
    ensures req.DoDelete? && Step(uuid, t, req).code != Ok ==> Step(uuid, t, req).next == t
  {
    if !Touches(req) {
      QuietStep(uuid, t, req);
    }
  }

  lemma {:induction false} ForeignKeysHold(uuid: Cast, reqs: seq<Request>)
    ensures ForeignKeys(Run(uuid, reqs))
  {
    if reqs != [] {
      var t, req := Run(uuid, reqs[..|reqs| - 1]), reqs[|reqs| - 1];
      ForeignKeysHold(uuid, reqs[..|reqs| - 1]);
      StepKeepsBindingKeys(uuid, t, req);
      StepKeepsTokenKeys(uuid, t, req);
      StepKeepsInviteKeys(uuid, t, req);
    }
  }

  /** revokeBinding records the target as the caller spelled it, so after any run that the text
      reader followed, it follows one more committed revoke exactly when that spelling was the
      canonical one. */
  lemma TextReplayFollowsRevoke(uuid: Cast, reqs: seq<Request>, actor: string, device: string, target: string)
    requires var t := Run(uuid, reqs);
      t.bindings == Replay(AsText, t.audit) && Revoke(uuid, t, actor, device, target).code == Ok
    ensures var next := Revoke(uuid, Run(uuid, reqs), actor, device, target).next;
      next.bindings == Replay(AsText, next.audit) <==> uuid(target) == Some(target)
  {
    var t := Run(uuid, reqs);
    ForeignKeysHold(uuid, reqs);
    BindingsAreTheReplay(uuid, reqs);
    var next := Revoke(uuid, t, actor, device, target).next;
    assert next.audit[..|next.audit| - 1] == t.audit;
    assert Replay(AsText, next.audit) == RevokeRow(t.bindings, (device, target));
    SameRevoke(t.bindings, device, uuid(target).value, target);
  }

  /** Revoking an active row and revoking another is the same only if the other is the same row. */
  lemma SameRevoke(b: Bindings, device: string, account: string, target: string)
    requires IsActive(b, device, account)
    ensures RevokeRow(b, (device, account)) == RevokeRow(b, (device, target)) <==> account == target
  {
    if account != target {
      assert !RevokeRow(b, (device, account))[(device, account)].active;
    }
  }

  /** A cast that folds one letter's case, enough to spell one account two ways. */
  function FoldB(s: string): Option<string> {
    if s == "B" then Some("b") else Some(s)
  }

  /** "a" and "b" sign up, "a" enrols device "d" and invites "b" as a guest. */
  function OneGuest(): seq<Request> {
    [DoSignUp("a"), DoSignUp("b"), DoMintToken("a", "t"), DoEnrol("d", "t"),
     DoCreateInvite("a", "d", "c", Guest, 60), DoRedeem("b", "c")]
  }

  lemma {:induction false} RunMore(uuid: Cast, reqs: seq<Request>, req: Request)
    ensures Run(uuid, reqs + [req]) == Step(uuid, Run(uuid, reqs), req).next
  {
    assert (reqs + [req])[..|reqs|] == reqs;
  }

  function Enrolled(): Tables {
    EMPTY.(accounts := {"a", "b"}, devices := map["d" := Active], tokens := map["t" := Token("a", 600, true)],
           bindings := map[("d", "a") := Binding(Admin, true, 0)],
             audit := [Event("d", "a", DeviceEnrolled, "a", Some(Admin))])
  }

  function Invited(): Tables {
    Enrolled().(invites := map["c" := Invite("d", "a", Guest, 60, false, None)],
                audit := Enrolled().audit + [Event("d", "a", InviteCreated, "a", Some(Guest))])
  }

  function Joined(): Tables {
    Invited().(invites := map["c" := Invite("d", "a", Guest, 60, true, Some("b"))],
               bindings := Enrolled().bindings[("d", "b") := Binding(Guest, true, 2)],
               audit := Invited().audit + [Event("d", "b", InviteRedeemed, "b", Some(Guest))])
  }

  lemma EnrolledRun()
    ensures Run(FoldB, OneGuest()[..4]) == Enrolled()
  {
    var r := OneGuest();
    assert r[..0] + [r[0]] == r[..1] && r[..1] + [r[1]] == r[..2] &&
      r[..2] + [r[2]] == r[..3] && r[..3] + [r[3]] == r[..4];
    RunMore(FoldB, r[..0], r[0]);
    RunMore(FoldB, r[..1], r[1]);
    assert Run(FoldB, r[..2]) == EMPTY.(accounts := {"a", "b"});
    RunMore(FoldB, r[..2], r[2]);
    assert Run(FoldB, r[..3]) == EMPTY.(accounts := {"a", "b"}, tokens := map["t" := Token("a", 600, false)]);
    RunMore(FoldB, r[..3], r[3]);
  }

  lemma InvitedStep()
    ensures Step(FoldB, Enrolled(), DoCreateInvite("a", "d", "c", Guest, 60)).next == Invited()
  {
    assert ActiveAdmin(Enrolled().bindings, "d", "a");
  }

  lemma JoinedStep()
    ensures Step(FoldB, Invited(), DoRedeem("b", "c")).next == Joined()
  {
    assert ActiveAdmin(Invited().bindings, "d", "a");
  }

  lemma JoinedRun()
    ensures Run(FoldB, OneGuest()) == Joined()
  {
    var r := OneGuest();
    assert r[..4] + [r[4]] == r[..5] && r[..5] + [r[5]] == r;
    EnrolledRun();
    RunMore(FoldB, r[..4], r[4]);
    InvitedStep();
    RunMore(FoldB, r[..5], r[5]);
    JoinedStep();
  }

  /** Then the admin revokes "b" under the spelling "B", and a reader that compares text still
      believes "b" has access. */
  lemma TextReplayCanDisagree()
    ensures Canonicalises(FoldB)
    ensures var r := Revoke(FoldB, Run(FoldB, OneGuest()), "a", "d", "B");
      && r.code == Ok
      && !IsActive(r.next.bindings, "d", "b")
      && LastEventGrants(AsText, r.next.audit, "d", "b")
  {
    JoinedRun();
    RespelledRevoke();
    RespelledLog();
  }

  function Respelled(): Event {
    Event("d", "a", BindingRevoked, "B", Some(Guest))
  }

  lemma RespelledRevoke()
    ensures var r := Revoke(FoldB, Joined(), "a", "d", "B");
      r.code == Ok && !IsActive(r.next.bindings, "d", "b") && r.next.audit == Joined().audit + [Respelled()]
  {
    assert ActiveAdmin(Joined().bindings, "d", "a") && IsActive(Joined().bindings, "d", "b");
  }

  lemma RespelledLog()
    ensures LastEventGrants(AsText, Joined().audit + [Respelled()], "d", "b")
  {
    var log := Joined().audit;
    assert (log + [Respelled()])[..|log|] == log;
    assert Grants(log[|log| - 1], "d", "b");
  }

  // ----- who the log says has access

  predicate Grants(e: Event, device: string, account: string) {
    && e.device == device && e.account == account
    && (e.action == DeviceEnrolled || (e.action == InviteRedeemed && e.role.Some?))
  }

  predicate Ends(uuid: Cast, e: Event, device: string, account: string) {
    || (e.action == BindingRevoked && e.device == device && uuid(e.account) == Some(account))
    || ((e.action == DeviceRemoved || e.action == DeviceUnenrolled) && e.device == device)
    || (e.action == AccountDeleted && e.account == account)
  }

  /** Scanning back from the newest row: was the last event about this binding a grant? */
  predicate LastEventGrants(uuid: Cast, log: seq<Event>, device: string, account: string) {
    if log == [] then false
    else
      var e := log[|log| - 1];
      if Grants(e, device, account) then true
      else if Ends(uuid, e, device, account) then false
      else LastEventGrants(uuid, log[..|log| - 1], device, account)
  }

  lemma {:induction false} ReplayIsLastEvent(uuid: Cast, log: seq<Event>, device: string, account: string)
    ensures IsActive(Replay(uuid, log), device, account) <==> LastEventGrants(uuid, log, device, account)
  {
    if log != [] {
      ReplayIsLastEvent(uuid, log[..|log| - 1], device, account);
    }
  }

  /** A binding is active exactly when the newest audit row about it is a grant. */
  lemma ActiveIffLastEventGrants(uuid: Cast, reqs: seq<Request>, device: string, account: string)
    ensures var t := Run(uuid, reqs);
      IsActive(t.bindings, device, account) <==> LastEventGrants(uuid, t.audit, device, account)
  {
    BindingsAreTheReplay(uuid, reqs);
    ReplayIsLastEvent(uuid, Run(uuid, reqs).audit, device, account);
  }

  // ----- a device somebody can reach has an admin

  ghost predicate HasAdmin(b: Bindings, device: string) {
    exists a :: ActiveAdmin(b, device, a)
  }

  ghost predicate Administered(b: Bindings) {
    forall device, account :: IsActive(b, device, account) ==> HasAdmin(b, device)
  }

  lemma AdmitKeepsAdmins(b: Bindings, device: string, account: string, role: Role, now: nat)
    requires Administered(b) && !IsActive(b, device, account) && (role == Admin || HasAdmin(b, device))
    ensures Administered(Admit(b, (device, account), role, now))
  {
    var next := Admit(b, (device, account), role, now);
    assert forall d, a :: ActiveAdmin(b, d, a) ==> ActiveAdmin(next, d, a);
    assert role == Admin ==> ActiveAdmin(next, device, account);
    forall d, a | IsActive(next, d, a) ensures HasAdmin(next, d) {
      if (d, a) != (device, account) {
        assert IsActive(b, d, a);
        var other :| ActiveAdmin(b, d, other);
        assert ActiveAdmin(next, d, other);
      }
    }
  }

  lemma GrantKeepsAdmins(uuid: Cast, t: Tables, req: Request)
    requires req.DoEnrol? || req.DoRedeem?
    requires Administered(t.bindings)
    ensures Administered(Step(uuid, t, req).next.bindings)
  {
    if Step(uuid, t, req).code == Ok {
      if req.DoRedeem? {
        var i := t.invites[req.code];
        assert ActiveAdmin(t.bindings, i.device, i.creator);
        AdmitKeepsAdmins(t.bindings, i.device, req.actor, i.role, |t.audit|);
      } else if !IsActive(t.bindings, req.device, t.tokens[req.token].account) {
        AdmitKeepsAdmins(t.bindings, req.device, t.tokens[req.token].account, Admin, |t.audit|);
      }
    }
  }

  lemma RevokeRowKeepsAdmins(b: Bindings, device: string, account: string, admin: string)
    requires Administered(b)
    requires ActiveAdmin(b, device, admin) && admin != account
    ensures Administered(RevokeRow(b, (device, account)))
  {
    var next := RevokeRow(b, (device, account));
    assert ActiveAdmin(next, device, admin);
    forall d, a | IsActive(next, d, a) && d != device ensures HasAdmin(next, d) {
      assert IsActive(b, d, a);
      var other :| ActiveAdmin(b, d, other);
      assert ActiveAdmin(next, d, other);
    }
  }

  lemma RevokeAllKeepsAdmins(b: Bindings, device: string)
    requires Administered(b)
    ensures Administered(RevokeAll(b, device))
  {
    var next := RevokeAll(b, device);
    forall d, a | IsActive(next, d, a) ensures HasAdmin(next, d) {
      assert IsActive(b, d, a);
      var other :| ActiveAdmin(b, d, other);
      assert ActiveAdmin(next, d, other);
    }
  }

  lemma RevokeKeepsAdmins(uuid: Cast, t: Tables, actor: string, device: string, target: string)
    requires Administered(t.bindings)
    ensures Administered(Revoke(uuid, t, actor, device, target).next.bindings)
  {
    var b := t.bindings;
    if Revoke(uuid, t, actor, device, target).code == Ok {
      var account := uuid(target).value;
      if ActiveAdmin(b, device, account) {
        MoreThanOne(Admins(b, device), account);
        var other :| other in Admins(b, device) && other != account;
        RevokeRowKeepsAdmins(b, device, account, other);
      } else {
        RevokeRowKeepsAdmins(b, device, account, actor);
      }
    }
  }

  lemma LeaveKeepsAdmins(t: Tables, actor: string, device: string)
    requires Administered(t.bindings)
    ensures Administered(Leave(t, actor, device).next.bindings)
  {
    if Leave(t, actor, device).code == Ok {
      var admin :| ActiveAdmin(t.bindings, device, admin);
      RevokeRowKeepsAdmins(t.bindings, device, actor, admin);
    }
  }

  lemma StepKeepsAdmins(uuid: Cast, t: Tables, req: Request)
    requires !req.DoDelete?
    requires Administered(t.bindings)
    ensures Administered(Step(uuid, t, req).next.bindings)
  {
    if !Touches(req) {
      QuietStep(uuid, t, req);
    } else if req.DoEnrol? || req.DoRedeem? {
      GrantKeepsAdmins(uuid, t, req);
    } else if req.DoRevoke? {
      RevokeKeepsAdmins(uuid, t, req.actor, req.device, req.target);
    } else if req.DoLeave? {
      LeaveKeepsAdmins(t, req.actor, req.device);
    } else {
      RevokeAllKeepsAdmins(t.bindings, req.device);
    }
  }

  ghost predicate NoDeletions(reqs: seq<Request>) {
    forall i :: 0 <= i < |reqs| ==> !reqs[i].DoDelete?
  }

  /** In every run without account deletions, every device with an active binding has an active
      admin. */
  lemma {:induction false} EveryRunIsAdministered(uuid: Cast, reqs: seq<Request>)
    requires NoDeletions(reqs)
    ensures Administered(Run(uuid, reqs).bindings)
  {
    if reqs != [] {
      EveryRunIsAdministered(uuid, reqs[..|reqs| - 1]);
      StepKeepsAdmins(uuid, Run(uuid, reqs[..|reqs| - 1]), reqs[|reqs| - 1]);
    }
  }

  /** Deleting an account keeps that exactly when, on every device the account administers and
      somebody else can reach, it is not the only admin. */
  lemma DeletionKeepsAdminsIff(t: Tables, actor: string)
    requires Administered(t.bindings)
    requires DeleteAccount(t, actor).code == Ok
    ensures Administered(DeleteAccount(t, actor).next.bindings) <==>
      forall device, other ::
        ActiveAdmin(t.bindings, device, actor) && IsActive(t.bindings, device, other) && other != actor
        ==> |Admins(t.bindings, device)| > 1
  {
    var b, next := t.bindings, DeleteAccount(t, actor).next.bindings;
    assert forall d, a :: IsActive(next, d, a) <==> IsActive(b, d, a) && a != actor;
    assert forall d, a :: ActiveAdmin(next, d, a) <==> ActiveAdmin(b, d, a) && a != actor;
    forall device, other |
      ActiveAdmin(b, device, actor) && IsActive(b, device, other) && other != actor
      ensures HasAdmin(next, device) <==> |Admins(b, device)| > 1
    {
      MoreThanOne(Admins(b, device), actor);
      if HasAdmin(next, device) {
        var a :| ActiveAdmin(next, device, a);
        assert a in Admins(b, device) && a != actor;
      }
      if |Admins(b, device)| > 1 {
        var a :| a in Admins(b, device) && a != actor;
        assert ActiveAdmin(next, device, a);
      }
    }
    forall device, other | IsActive(next, device, other) && !ActiveAdmin(b, device, actor)
      ensures HasAdmin(next, device)
    {
      assert HasAdmin(b, device);
      var a :| ActiveAdmin(b, device, a);
      assert ActiveAdmin(next, device, a);
    }
    if Administered(next) {
      forall device, other |
        ActiveAdmin(b, device, actor) && IsActive(b, device, other) && other != actor
        ensures |Admins(b, device)| > 1
      {
        assert IsActive(next, device, other);
      }
    }
  }

  /** It can fail: there "a" deletes its account and "b" is left on a device nobody administers. */
  lemma DeletionCanStrand()
    ensures var r := DeleteAccount(Run(FoldB, OneGuest()), "a");
      r.code == Ok && IsActive(r.next.bindings, "d", "b") && !HasAdmin(r.next.bindings, "d")
  {
    JoinedRun();
    var b := Joined().bindings;
    assert b == map[("d", "a") := Binding(Admin, true, 0), ("d", "b") := Binding(Guest, true, 2)];
  }

  // ----- an active binding keeps its role

  lemma StepKeepsRole(uuid: Cast, t: Tables, req: Request, device: string, account: string)
    requires IsActive(t.bindings, device, account)
    requires IsActive(Step(uuid, t, req).next.bindings, device, account)
    ensures Step(uuid, t, req).next.bindings[(device, account)] == t.bindings[(device, account)]
  {
  }

  /** While a binding stays active, whatever else happens, its role does not change. */
  lemma {:induction false} RoleIsStable(uuid: Cast, reqs: seq<Request>, from: nat, device: string, account: string)
    requires from <= |reqs|
    requires forall n :: from <= n <= |reqs| ==> IsActive(Run(uuid, reqs[..n]).bindings, device, account)
    ensures IsActive(Run(uuid, reqs[..from]).bindings, device, account)
    ensures IsActive(Run(uuid, reqs).bindings, device, account)
    ensures Run(uuid, reqs).bindings[(device, account)] == Run(uuid, reqs[..from]).bindings[(device, account)]
  {
    assert reqs[..|reqs|] == reqs;
    if from < |reqs| {
      var before := reqs[..|reqs| - 1];
      forall n | from <= n <= |before|
        ensures IsActive(Run(uuid, before[..n]).bindings, device, account)
      {
        assert before[..n] == reqs[..n];
      }
      RoleIsStable(uuid, before, from, device, account);
      assert before[..from] == reqs[..from];
      StepKeepsRole(uuid, Run(uuid, before), reqs[|reqs| - 1], device, account);
    }
  }
}
