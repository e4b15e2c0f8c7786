/** Schedules of redeems, from an empty database, that show their races are real. In all of them "a"
    has enrolled device "d" and invited a guest, and "b" redeems while something else happens. */
module RedeemRaces {
  import opened Common
  import opened Access
  import opened AuditIds
  import AccessProofs
  import Authority
  import Locks
  import Invites
  import InviteLog

  function Others(reqs: seq<Request>): seq<Invites.Act> {
    seq(|reqs|, i requires 0 <= i < |reqs| => Invites.Other(reqs[i]))
  }

  function Entries(log: seq<Event>): Ids {
    seq(|log|, i requires 0 <= i < |log| => Entry(log[i], None))
  }

  function Idle(db: Tables, minted: set<string>): Invites.State {
    Invites.State(db, map[], map[], map[], minted, Entries(db.audit))
  }

  /** With nothing open nobody waits. */
  lemma OtherRuns(db: Tables, minted: set<string>, req: Request)
    requires !req.DoRedeem? && AccessProofs.AccountsCanonical(AccessProofs.FoldB, db)
    requires req.DoCreateInvite? ==> req.code !in minted
    ensures var next := Step(AccessProofs.FoldB, db, req).next;
      && Invites.OtherGoes(AccessProofs.FoldB, Idle(db, minted), req)
      && Invites.RunOther(AccessProofs.FoldB, Idle(db, minted), req) ==
           Idle(next, minted + if req.DoCreateInvite? then {req.code} else {})
  {
    var s, next := Idle(db, minted), Step(AccessProofs.FoldB, db, req).next;
    assert Invites.HeldRows(s) == {} && Invites.SharedDevices(s) == {};
    var row := Authority.StepRow(AccessProofs.FoldB, db, req);
    assert Entries(db.audit) + NewRow(db, next) == Entries(next.audit);
  }

  lemma OneMore(before: seq<Request>, req: Request)
    requires !AccessProofs.TouchesInvites(req)
    requires Invites.Schedule(AccessProofs.FoldB, Invites.INIT, Others(before))
    requires Invites.Exec(AccessProofs.FoldB, Invites.INIT, Others(before)) == Idle(Run(AccessProofs.FoldB, before), {})
    ensures Invites.Schedule(AccessProofs.FoldB, Invites.INIT, Others(before + [req]))
    ensures Invites.Exec(AccessProofs.FoldB, Invites.INIT, Others(before + [req])) ==
      Idle(Run(AccessProofs.FoldB, before + [req]), {})
  {
    AccessProofs.BindingsAreTheReplay(AccessProofs.FoldB, before);
    OtherRuns(Run(AccessProofs.FoldB, before), {}, req);
    assert Others(before + [req]) == Others(before) + [Invites.Other(req)];
    Invites.ScheduleMore(AccessProofs.FoldB, Invites.INIT, Others(before), Invites.Other(req));
    AccessProofs.RunMore(AccessProofs.FoldB, before, req);
  }

  lemma NoneRun()
    ensures Invites.Schedule(AccessProofs.FoldB, Invites.INIT, Others([]))
    ensures Invites.Exec(AccessProofs.FoldB, Invites.INIT, Others([])) == Idle(Run(AccessProofs.FoldB, []), {})
  {
    assert Entries([]) == [] && Others([]) == [];
  }

  lemma {:induction false} OthersRun(reqs: seq<Request>)
    requires forall i :: 0 <= i < |reqs| ==> !AccessProofs.TouchesInvites(reqs[i])
    ensures Invites.Schedule(AccessProofs.FoldB, Invites.INIT, Others(reqs))
    ensures Invites.Exec(AccessProofs.FoldB, Invites.INIT, Others(reqs)) == Idle(Run(AccessProofs.FoldB, reqs), {})
  {
    if reqs == [] {
      NoneRun();
    } else {
      var before, req := reqs[..|reqs| - 1], reqs[|reqs| - 1];
      OthersRun(before);
      OneMore(before, req);
      assert before + [req] == reqs;
    }
  }

  // ----- as far as the SELECT

  /** "b" looks up the guest invite of `AccessProofs.Invited`. */
  function Looked(): seq<Invites.Act> {
    Others(AccessProofs.OneGuest()[..4]) + [Invites.Other(AccessProofs.OneGuest()[4])]
    + [Invites.Open(0, "b", "c")] + [Invites.Select(0)]
  }

  function Redeeming(db: Tables, pc: Invites.Pc, looked: nat, ids: Ids): Invites.State {
    Invites.State(db, if Invites.Holds(pc) then map["c" := 0] else map[],
                  map[0 := Invites.Tx("b", "c", pc, looked, None)], map[], {"c"}, ids)
  }

  lemma SelectsInvite(ids: Ids)
    ensures var s := Redeeming(AccessProofs.Invited(), Invites.Begun, 0, ids);
      && Invites.Enabled(AccessProofs.FoldB, s, Invites.Select(0))
      && Invites.Next(AccessProofs.FoldB, s, Invites.Select(0)) ==
           Redeeming(AccessProofs.Invited(), Invites.Selected, 2, ids)
  {
    assert ActiveAdmin(AccessProofs.Invited().bindings, "d", "a");
  }

  lemma InvitedIdle()
    ensures var so := Others(AccessProofs.OneGuest()[..4]) + [Invites.Other(AccessProofs.OneGuest()[4])];
      && Invites.Schedule(AccessProofs.FoldB, Invites.INIT, so)
      && Invites.Exec(AccessProofs.FoldB, Invites.INIT, so) == Idle(AccessProofs.Invited(), {"c"})
  {
    var uuid, reqs := AccessProofs.FoldB, AccessProofs.OneGuest();
    OthersRun(reqs[..4]);
    AccessProofs.EnrolledRun();
    AccessProofs.BindingsAreTheReplay(uuid, reqs[..4]);
    OtherRuns(AccessProofs.Enrolled(), {}, reqs[4]);
    AccessProofs.InvitedStep();
    Invites.ScheduleMore(uuid, Invites.INIT, Others(reqs[..4]), Invites.Other(reqs[4]));
    assert {} + {"c"} == {"c"};
  }

  lemma LookedRun()
    ensures Invites.Schedule(AccessProofs.FoldB, Invites.INIT, Looked())
    ensures Invites.Exec(AccessProofs.FoldB, Invites.INIT, Looked()) ==
      Redeeming(AccessProofs.Invited(), Invites.Selected, 2, Entries(AccessProofs.Invited().audit))
  {
    var uuid, reqs := AccessProofs.FoldB, AccessProofs.OneGuest();
    var so := Others(reqs[..4]) + [Invites.Other(reqs[4])];
    InvitedIdle();
    Invites.ScheduleMore(uuid, Invites.INIT, so, Invites.Open(0, "b", "c"));
    so := so + [Invites.Open(0, "b", "c")];
    assert Invites.Exec(uuid, Invites.INIT, so) ==
      Redeeming(AccessProofs.Invited(), Invites.Begun, 0, Entries(AccessProofs.Invited().audit));
    SelectsInvite(Entries(AccessProofs.Invited().audit));
    Invites.ScheduleMore(uuid, Invites.INIT, so, Invites.Select(0));
  }

  // ----- as far as the audit row

  function Writing(): seq<Invites.Act> {
    [Invites.Consume(0), Invites.Upsert(0), Invites.Audit(0)]
  }

  function RedeemedRow(): Event {
    Event("d", "b", InviteRedeemed, "b", Some(Guest))
  }

  lemma ConsumesInvite(db: Tables, ids: Ids)
    requires db.invites == AccessProofs.Invited().invites && "b" in db.accounts
    ensures var s := Redeeming(db, Invites.Selected, 2, ids);
      && Invites.Enabled(AccessProofs.FoldB, s, Invites.Consume(0))
      && Invites.Next(AccessProofs.FoldB, s, Invites.Consume(0)) == Redeeming(db, Invites.Consumed("d", Guest), 2, ids)
  {
  }

  lemma WritesBinding(db: Tables, ids: Ids)
    ensures var s := Redeeming(db, Invites.Consumed("d", Guest), 2, ids);
      && Invites.Enabled(AccessProofs.FoldB, s, Invites.Upsert(0))
      && Invites.Next(AccessProofs.FoldB, s, Invites.Upsert(0)) == Redeeming(db, Invites.Upserted("d", Guest), 2, ids)
  {
    assert Invites.HeldRows(Redeeming(db, Invites.Consumed("d", Guest), 2, ids)) == {};
  }

  lemma InsertsRow(db: Tables, ids: Ids)
    ensures var s := Redeeming(db, Invites.Upserted("d", Guest), 2, ids);
      && Invites.Enabled(AccessProofs.FoldB, s, Invites.Audit(0))
      && Invites.Next(AccessProofs.FoldB, s, Invites.Audit(0)) ==
           Redeeming(db, Invites.Audited("d", Guest), 2, ids + [Entry(RedeemedRow(), Some(0))])
  {
  }

  lemma WritingRun(so: seq<Invites.Act>, db: Tables, ids: Ids)
    requires Invites.Schedule(AccessProofs.FoldB, Invites.INIT, so)
    requires Invites.Exec(AccessProofs.FoldB, Invites.INIT, so) == Redeeming(db, Invites.Selected, 2, ids)
    requires db.invites == AccessProofs.Invited().invites && "b" in db.accounts
    ensures Invites.Schedule(AccessProofs.FoldB, Invites.INIT, so + Writing())
    ensures Invites.Exec(AccessProofs.FoldB, Invites.INIT, so + Writing()) ==
      Redeeming(db, Invites.Audited("d", Guest), 2, ids + [Entry(RedeemedRow(), Some(0))])
  {
    var uuid := AccessProofs.FoldB;
    ConsumesInvite(db, ids);
    WritesBinding(db, ids);
    InsertsRow(db, ids);
    Invites.ScheduleMore(uuid, Invites.INIT, so, Invites.Consume(0));
    Invites.ScheduleMore(uuid, Invites.INIT, so + [Invites.Consume(0)], Invites.Upsert(0));
    Invites.ScheduleMore(uuid, Invites.INIT, so + [Invites.Consume(0)] + [Invites.Upsert(0)], Invites.Audit(0));
    assert so + Writing() == so + [Invites.Consume(0)] + [Invites.Upsert(0)] + [Invites.Audit(0)];
  }

  /** What the commit will leave of the tables. */
  function Committed(db: Tables): Tables
    requires "c" in db.invites
  {
    Invites.Redeemed(db, Invites.Tx("b", "c", Invites.Audited("d", Guest), 2, None))
  }

  // ----- something commits between the SELECT and the UPDATE

  /** `req` commits after "b" has looked, and then "b" redeems. */
  function Interrupted(req: Request): seq<Invites.Act> {
    Looked() + [Invites.Other(req)] + Writing() + [Invites.CommitTx(0)]
  }

  /** Nothing is held at the SELECT, so nobody waits for it. */
  lemma InterruptsLooked(req: Request)
    requires !AccessProofs.TouchesInvites(req)
    ensures var s := Redeeming(AccessProofs.Invited(), Invites.Selected, 2, Entries(AccessProofs.Invited().audit));
      var next := Step(AccessProofs.FoldB, AccessProofs.Invited(), req).next;
      && Invites.Enabled(AccessProofs.FoldB, s, Invites.Other(req))
      && Invites.Next(AccessProofs.FoldB, s, Invites.Other(req)) ==
           Redeeming(next, Invites.Selected, 2,
                      Entries(AccessProofs.Invited().audit) + NewRow(AccessProofs.Invited(), next))
  {
    var s := Redeeming(AccessProofs.Invited(), Invites.Selected, 2, Entries(AccessProofs.Invited().audit));
    assert Invites.HeldRows(s) == {} && Invites.SharedDevices(s) == {};
    assert {"c"} + {} == {"c"};
  }

  lemma InterruptedRun(req: Request)
    requires !AccessProofs.TouchesInvites(req)
    requires "b" in Step(AccessProofs.FoldB, AccessProofs.Invited(), req).next.accounts
    ensures Invites.Schedule(AccessProofs.FoldB, Invites.INIT, Interrupted(req))
    ensures var db := Step(AccessProofs.FoldB, AccessProofs.Invited(), req).next;
      "c" in db.invites && Invites.Exec(AccessProofs.FoldB, Invites.INIT, Interrupted(req)).db == Committed(db)
  {
    var uuid := AccessProofs.FoldB;
    var db := Step(uuid, AccessProofs.Invited(), req).next;
    LookedRun();
    InterruptsLooked(req);
    Invites.ScheduleMore(uuid, Invites.INIT, Looked(), Invites.Other(req));
    AccessProofs.InvitesUntouched(uuid, AccessProofs.Invited(), req);
    WritingRun(Looked() + [Invites.Other(req)], db,
               Entries(AccessProofs.Invited().audit) + NewRow(AccessProofs.Invited(), db));
    Invites.ScheduleMore(uuid, Invites.INIT, Looked() + [Invites.Other(req)] + Writing(), Invites.CommitTx(0));
  }

  /** A disable between the SELECT and the UPDATE: the redeem is recorded after it. */
  lemma RedeemCanFollowDisable()
    ensures Invites.Schedule(AccessProofs.FoldB, Invites.INIT, Interrupted(DoDisable("a", "d")))
    ensures var log := Invites.Exec(AccessProofs.FoldB, Invites.INIT, Interrupted(DoDisable("a", "d"))).db.audit;
      && |log| == 4 && log[2].action == DeviceDisabled && log[3].action == InviteRedeemed
      && log[2].device == "d" && log[3].device == "d"
  {
    DisableCommits();
    InterruptedRun(DoDisable("a", "d"));
  }

  lemma DisableCommits()
    ensures var t := AccessProofs.Invited();
      Step(AccessProofs.FoldB, t, DoDisable("a", "d")).next ==
        t.(devices := map["d" := Disabled], audit := t.audit + [Event("d", "a", DeviceDisabled, "a", None)])
  {
    assert ActiveAdmin(AccessProofs.Invited().bindings, "d", "a");
  }

  /** A removal there: the redeemer is left an active guest on a device with no admin. */
  lemma RedeemCanStrand()
    ensures Invites.Schedule(AccessProofs.FoldB, Invites.INIT, Interrupted(DoRemove("a", "d")))
    ensures var b := Invites.Exec(AccessProofs.FoldB, Invites.INIT, Interrupted(DoRemove("a", "d"))).db.bindings;
      IsActive(b, "d", "b") && !AccessProofs.HasAdmin(b, "d")
  {
    RemovalCommits();
    InterruptedRun(DoRemove("a", "d"));
  }

  lemma RemovalCommits()
    ensures var t := AccessProofs.Invited();
      Step(AccessProofs.FoldB, t, DoRemove("a", "d")).next ==
        t.(bindings := map[("d", "a") := Binding(Admin, false, 0)],
           audit := t.audit + [Event("d", "a", DeviceRemoved, "a", None)])
  {
    assert ActiveAdmin(AccessProofs.Invited().bindings, "d", "a");
  }

  // ----- the PC signs out between the audit row and the commit

  function SignOut(): Request {
    DoUnenrol("d")
  }

  function Swept(): seq<Invites.Act> {
    Looked() + Writing() + [Invites.Other(SignOut())]
  }

  function SignedOut(): Tables {
    var t := AccessProofs.Invited();
    t.(bindings := map[("d", "a") := Binding(Admin, false, 0)],
       audit := t.audit + [Event("d", "d", DeviceUnenrolled, "", None)])
  }

  /** The sign out takes no lock of the device and does not see the row that is being written. */
  lemma SignOutDoesNotWait(ids: Ids)
    ensures var s := Redeeming(AccessProofs.Invited(), Invites.Audited("d", Guest), 2, ids);
      && Invites.Enabled(AccessProofs.FoldB, s, Invites.Other(SignOut()))
      && Invites.Next(AccessProofs.FoldB, s, Invites.Other(SignOut())) ==
           Redeeming(SignedOut(), Invites.Audited("d", Guest), 2,
                     ids + [Entry(Event("d", "d", DeviceUnenrolled, "", None), None)])
  {
    var s := Redeeming(AccessProofs.Invited(), Invites.Audited("d", Guest), 2, ids);
    assert forall r :: r in Invites.HeldRows(s) ==> r == ("d", "b");
    assert Step(AccessProofs.FoldB, AccessProofs.Invited(), SignOut()).next == SignedOut();
    assert {"c"} + {} == {"c"};
    assert SignedOut().audit[|AccessProofs.Invited().audit|] == Event("d", "d", DeviceUnenrolled, "", None);
  }

  function SweptIds(): Ids {
    Entries(AccessProofs.Invited().audit) + [Entry(RedeemedRow(), Some(0))]
    + [Entry(Event("d", "d", DeviceUnenrolled, "", None), None)]
  }

  lemma SweptRun()
    ensures Invites.Schedule(AccessProofs.FoldB, Invites.INIT, Swept())
    ensures Invites.Exec(AccessProofs.FoldB, Invites.INIT, Swept()) ==
      Redeeming(SignedOut(), Invites.Audited("d", Guest), 2, SweptIds())
  {
    var ids := Entries(AccessProofs.Invited().audit);
    LookedRun();
    WritingRun(Looked(), AccessProofs.Invited(), ids);
    SignOutDoesNotWait(ids + [Entry(RedeemedRow(), Some(0))]);
    Invites.ScheduleMore(AccessProofs.FoldB, Invites.INIT, Looked() + Writing(), Invites.Other(SignOut()));
  }

  /** It is about to commit, "b" will have access, and the log by id will say "b" has none. */
  ghost predicate LogMisses(s: Invites.State) {
    && Invites.Enabled(AccessProofs.FoldB, s, Invites.CommitTx(0))
    && var next := Invites.Next(AccessProofs.FoldB, s, Invites.CommitTx(0));
    && IsActive(next.db.bindings, "d", "b")
    && !Agrees(AccessProofs.FoldB, next.db.bindings, Visible(next.ids, None))
  }

  predicate NoCommits(actions: seq<Invites.Act>) {
    forall i :: 0 <= i < |actions| ==> !actions[i].CommitTx?
  }

  lemma {:induction false} NoCommitIsTimely(s: Invites.State, actions: seq<Invites.Act>)
    requires Invites.Schedule(AccessProofs.FoldB, s, actions) && NoCommits(actions)
    ensures InviteLog.AllTimely(AccessProofs.FoldB, s, actions)
    decreases |actions|
  {
    if actions != [] {
      NoCommitIsTimely(Invites.Next(AccessProofs.FoldB, s, actions[0]), actions[1..]);
    }
  }

  lemma NoneInSwept()
    ensures NoCommits(Swept())
  {
    assert NoCommits(Others(AccessProofs.OneGuest()[..4]));
    assert NoCommits(Looked());
    assert NoCommits(Writing());
  }

  lemma MissesWhenSwept(actions: seq<Invites.Act>, s: Invites.State)
    requires Invites.Schedule(AccessProofs.FoldB, Invites.INIT, actions) && NoCommits(actions)
    requires Invites.Exec(AccessProofs.FoldB, Invites.INIT, actions) == s
    requires Invites.Enabled(AccessProofs.FoldB, s, Invites.CommitTx(0)) && !InviteLog.Timely(s, 0)
    requires s.txs[0].actor == "b" && s.txs[0].pc.device == "d"
    ensures LogMisses(s)
  {
    NoCommitIsTimely(Invites.INIT, actions);
    InviteLog.CommitIsReplayedIff(AccessProofs.FoldB, actions, 0);
  }

  lemma SweptIsLate()
    ensures InviteLog.Swept(SweptIds(), 0, "d")
  {
    var last := Entry(Event("d", "d", DeviceUnenrolled, "", None), None);
    assert SweptIds()[|SweptIds()| - 1] == last && InviteLog.Sweeps(last, "d");
  }

  lemma SignOutCanMissOne()
    ensures Invites.Schedule(AccessProofs.FoldB, Invites.INIT, Swept())
    ensures LogMisses(Invites.Exec(AccessProofs.FoldB, Invites.INIT, Swept()))
  {
    SweptRun();
    SweptIsLate();
    NoneInSwept();
    MissesWhenSwept(Swept(), Invites.Exec(AccessProofs.FoldB, Invites.INIT, Swept()));
  }
}
