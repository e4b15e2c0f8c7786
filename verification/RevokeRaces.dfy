/** Schedules of revokes and removals, from an empty database, that show their races are real. In all
    of them "b" had access to device "d", lost it when the PC signed out, and comes back on the row it
    had while "a" is at work. */
module RevokeRaces {
  import opened Common
  import opened Access
  import opened AuditIds
  import AccessProofs
  import Authority
  import Locks
  import RowLock
  import RowLockAnswers
  import RowLockLog

  // ----- where they start

  function Start(role: Role): seq<Request> {
    AccessProofs.OneGuest() + [DoUnenrol("d")] + [DoMintToken("a", "u")] + [DoEnrol("d", "u")]
    + [DoCreateInvite("a", "d", "k", role, 60)]
  }

  function SignedOut(): Tables {
    var t := AccessProofs.Joined();
    t.(bindings := map[("d", "a") := Binding(Admin, false, 0), ("d", "b") := Binding(Guest, false, 2)],
       audit := t.audit + [Event("d", "d", DeviceUnenrolled, "", None)])
  }

  function Minted(): Tables {
    SignedOut().(tokens := SignedOut().tokens["u" := Token("a", 600, false)])
  }

  function SignedIn(): Tables {
    var t := Minted();
    t.(tokens := t.tokens["u" := Token("a", 600, true)],
       bindings := map[("d", "a") := Binding(Admin, true, 0), ("d", "b") := Binding(Guest, false, 2)],
       audit := t.audit + [Event("d", "a", DeviceEnrolled, "a", Some(Admin))])
  }

  function AskedBack(role: Role): Tables {
    var t := SignedIn();
    t.(invites := t.invites["k" := Invite("d", "a", role, 60, false, None)],
       audit := t.audit + [Event("d", "a", InviteCreated, "a", Some(role))])
  }

  function CameBack(role: Role): Tables {
    var t := AskedBack(role);
    t.(invites := t.invites["k" := Invite("d", "a", role, 60, true, Some("b"))],
       bindings := map[("d", "a") := Binding(Admin, true, 0), ("d", "b") := Binding(role, true, 2)],
       audit := t.audit + [Event("d", "b", InviteRedeemed, "b", Some(role))])
  }

  function Back(): Request {
    DoRedeem("b", "k")
  }

  lemma SignOutStep()
    ensures Step(AccessProofs.FoldB, AccessProofs.Joined(), DoUnenrol("d")).next == SignedOut()
    ensures Step(AccessProofs.FoldB, SignedOut(), DoMintToken("a", "u")).next == Minted()
  {
  }

  lemma SignInStep()
    ensures Step(AccessProofs.FoldB, Minted(), DoEnrol("d", "u")).next == SignedIn()
  {
    assert Minted().devices["d" := Active] == Minted().devices;
  }

  lemma InviteStep(role: Role)
    ensures Step(AccessProofs.FoldB, SignedIn(), DoCreateInvite("a", "d", "k", role, 60)).next == AskedBack(role)
  {
    assert ActiveAdmin(SignedIn().bindings, "d", "a");
  }

  lemma BackStep(role: Role)
    ensures Step(AccessProofs.FoldB, AskedBack(role), Back()) == Reply(Ok, CameBack(role))
  {
    assert ActiveAdmin(AskedBack(role).bindings, "d", "a");
  }

  lemma StartRun(role: Role)
    ensures Run(AccessProofs.FoldB, Start(role)) == AskedBack(role)
  {
    var r := AccessProofs.OneGuest();
    AccessProofs.JoinedRun();
    SignOutStep();
    AccessProofs.RunMore(AccessProofs.FoldB, r, DoUnenrol("d"));
    AccessProofs.RunMore(AccessProofs.FoldB, r + [DoUnenrol("d")], DoMintToken("a", "u"));
    SignInStep();
    r := r + [DoUnenrol("d")] + [DoMintToken("a", "u")];
    AccessProofs.RunMore(AccessProofs.FoldB, r, DoEnrol("d", "u"));
    InviteStep(role);
    AccessProofs.RunMore(AccessProofs.FoldB, r + [DoEnrol("d", "u")], DoCreateInvite("a", "d", "k", role, 60));
  }

  // ----- the same start in the machine

  function Others(reqs: seq<Request>): seq<RowLock.Act> {
    seq(|reqs|, i requires 0 <= i < |reqs| => RowLock.Other(reqs[i]))
  }

  function Entries(log: seq<Event>): Ids {
    seq(|log|, i requires 0 <= i < |log| => Entry(log[i], None))
  }

  function Idle(db: Tables, done: seq<Request>): RowLock.State {
    RowLock.State(db, map[], map[], done, Entries(db.audit))
  }

  /** With nothing open nobody waits. */
  lemma NobodyWaits(db: Tables, done: seq<Request>, req: Request)
    requires !RowLock.Locking(req) && !req.DoDelete?
    ensures RowLock.Enabled(AccessProofs.FoldB, Idle(db, done), RowLock.Other(req))
  {
    assert RowLock.HeldRows(Idle(db, done)) == {};
  }

  lemma OtherRuns(db: Tables, done: seq<Request>, req: Request)
    requires !RowLock.Locking(req) && !req.DoDelete? && AccessProofs.AccountsCanonical(AccessProofs.FoldB, db)
    ensures RowLock.RunOther(AccessProofs.FoldB, Idle(db, done), req) ==
      Idle(Step(AccessProofs.FoldB, db, req).next, done + [req])
  {
    var next := Step(AccessProofs.FoldB, db, req).next;
    var row := Authority.StepRow(AccessProofs.FoldB, db, req);
    assert Entries(db.audit) + NewRow(db, next) == Entries(next.audit);
  }

  lemma OneMore(before: seq<Request>, req: Request)
    requires !RowLock.Locking(req) && !req.DoDelete?
    requires RowLock.Schedule(AccessProofs.FoldB, RowLock.INIT, Others(before))
    requires RowLock.Exec(AccessProofs.FoldB, RowLock.INIT, Others(before)) ==
      Idle(Run(AccessProofs.FoldB, before), before)
    ensures RowLock.Schedule(AccessProofs.FoldB, RowLock.INIT, Others(before + [req]))
    ensures RowLock.Exec(AccessProofs.FoldB, RowLock.INIT, Others(before + [req])) ==
      Idle(Run(AccessProofs.FoldB, before + [req]), before + [req])
  {
    AccessProofs.BindingsAreTheReplay(AccessProofs.FoldB, before);
    NobodyWaits(Run(AccessProofs.FoldB, before), before, req);
    OtherRuns(Run(AccessProofs.FoldB, before), before, req);
    assert Others(before + [req]) == Others(before) + [RowLock.Other(req)];
    RowLock.ScheduleMore(AccessProofs.FoldB, RowLock.INIT, Others(before), RowLock.Other(req));
    AccessProofs.RunMore(AccessProofs.FoldB, before, req);
  }

  lemma NoneRun()
    ensures RowLock.Schedule(AccessProofs.FoldB, RowLock.INIT, Others([]))
    ensures RowLock.Exec(AccessProofs.FoldB, RowLock.INIT, Others([])) == Idle(Run(AccessProofs.FoldB, []), [])
  {
    assert Entries([]) == [] && Others([]) == [];
  }

  lemma {:induction false} OthersRun(reqs: seq<Request>)
    requires forall i :: 0 <= i < |reqs| ==> !RowLock.Locking(reqs[i]) && !reqs[i].DoDelete?
    ensures RowLock.Schedule(AccessProofs.FoldB, RowLock.INIT, Others(reqs))
    ensures RowLock.Exec(AccessProofs.FoldB, RowLock.INIT, Others(reqs)) == Idle(Run(AccessProofs.FoldB, reqs), reqs)
  {
    if reqs == [] {
      NoneRun();
    } else {
      var before, req := reqs[..|reqs| - 1], reqs[|reqs| - 1];
      OthersRun(before);
      OneMore(before, req);
      assert before + [req] == reqs;
    }
  }

  lemma StartOthers(role: Role)
    ensures RowLock.Schedule(AccessProofs.FoldB, RowLock.INIT, Others(Start(role)))
    ensures RowLock.Exec(AccessProofs.FoldB, RowLock.INIT, Others(Start(role))) == Idle(AskedBack(role), Start(role))
  {
    StartRun(role);
    StartIsOthers(role);
    OthersRun(Start(role));
  }

  lemma StartIsOthers(role: Role)
    ensures forall i :: 0 <= i < |Start(role)| ==> !RowLock.Locking(Start(role)[i]) && !Start(role)[i].DoDelete?
  {
  }

  /** One transaction of "a" on the device. */
  function During(req: Request, db: Tables, done: seq<Request>, pc: RowLock.Pc, ids: Ids): RowLock.State {
    RowLock.State(db, if pc.Begun? then map[] else map["d" := 0], map[0 := RowLock.Tx(req, pc)], done, ids)
  }

  lemma Opens(req: Request, db: Tables, done: seq<Request>, ids: Ids)
    requires req == DoRevoke("a", "d", "a") || req == DoRemove("a", "d")
    requires "a" in db.accounts && "d" in db.devices && ActiveAdmin(db.bindings, "d", "a")
    ensures var s := RowLock.State(db, map[], map[], done, ids);
      && RowLock.Enabled(AccessProofs.FoldB, s, RowLock.Open(0, req))
      && RowLock.Next(AccessProofs.FoldB, s, RowLock.Open(0, req)) == During(req, db, done, RowLock.Begun, ids)
    ensures var s := During(req, db, done, RowLock.Begun, ids);
      && RowLock.Enabled(AccessProofs.FoldB, s, RowLock.Lock(0))
      && RowLock.Next(AccessProofs.FoldB, s, RowLock.Lock(0)) == During(req, db, done, RowLock.Locked, ids)
    ensures var s := During(req, db, done, RowLock.Locked, ids);
      && RowLock.Enabled(AccessProofs.FoldB, s, RowLock.Check(0))
      && RowLock.Next(AccessProofs.FoldB, s, RowLock.Check(0)) == During(req, db, done, RowLock.Checked, ids)
  {
  }

  /** The start and the statements as far as the UPDATE. */
  function Checked(req: Request, role: Role): seq<RowLock.Act> {
    Others(Start(role)) + [RowLock.Open(0, req)] + [RowLock.Lock(0)] + [RowLock.Check(0)]
  }

  lemma CheckedRun(req: Request, role: Role)
    requires req == DoRevoke("a", "d", "a") || req == DoRemove("a", "d")
    ensures RowLock.Schedule(AccessProofs.FoldB, RowLock.INIT, Checked(req, role))
    ensures var t := AskedBack(role);
      RowLock.Exec(AccessProofs.FoldB, RowLock.INIT, Checked(req, role)) ==
        During(req, t, Start(role), RowLock.Checked, Entries(t.audit))
  {
    var uuid, t, so := AccessProofs.FoldB, AskedBack(role), Others(Start(role));
    StartOthers(role);
    Opens(req, t, Start(role), Entries(t.audit));
    RowLock.ScheduleMore(uuid, RowLock.INIT, so, RowLock.Open(0, req));
    so := so + [RowLock.Open(0, req)];
    RowLock.ScheduleMore(uuid, RowLock.INIT, so, RowLock.Lock(0));
    so := so + [RowLock.Lock(0)];
    RowLock.ScheduleMore(uuid, RowLock.INIT, so, RowLock.Check(0));
  }

  /** "b" needs no lock of the device to come back on its row. */
  lemma ComesBack(req: Request, role: Role, done: seq<Request>, pc: RowLock.Pc, ids: Ids)
    requires RowLock.Past(pc) ==> pc.rows == {("d", "a")}
    ensures var s := During(req, AskedBack(role), done, pc, ids);
      && RowLock.Enabled(AccessProofs.FoldB, s, RowLock.Other(Back()))
      && RowLock.Next(AccessProofs.FoldB, s, RowLock.Other(Back())) ==
           During(req, CameBack(role), done + [Back()], pc,
                  ids + [Entry(Event("d", "b", InviteRedeemed, "b", Some(role)), None)])
  {
    BackStep(role);
    BackDoesNotWait(role, During(req, AskedBack(role), done, pc, ids));
    assert CameBack(role).audit[|AskedBack(role).audit|] == Event("d", "b", InviteRedeemed, "b", Some(role));
  }

  lemma BackDoesNotWait(role: Role, s: RowLock.State)
    requires s.db == AskedBack(role) && s.txs.Keys == {0}
    requires RowLock.Past(s.txs[0].pc) ==> s.txs[0].pc.rows == {("d", "a")}
    ensures RowLock.OtherGoes(AccessProofs.FoldB, s, Back())
  {
    assert forall r :: r in RowLock.HeldRows(s) ==> r == ("d", "a");
    assert ("d", "b") in AskedBack(role).bindings;
  }

  // ----- a revoke told "last admin" when it no longer is

  function Self(): Request {
    DoRevoke("a", "d", "a")
  }

  /** "a" starts to revoke itself, and its UPDATE finds the last admin. Then "b" comes back as one. */
  function Overtaken(): seq<RowLock.Act> {
    Checked(Self(), Admin) + [RowLock.Update(0)] + [RowLock.Other(Back())]
  }

  function RedeemedRow(role: Role): Entry {
    Entry(Event("d", "b", InviteRedeemed, "b", Some(role)), None)
  }

  lemma UpdateMisses(done: seq<Request>, ids: Ids)
    ensures var s := During(Self(), AskedBack(Admin), done, RowLock.Checked, ids);
      && RowLock.Enabled(AccessProofs.FoldB, s, RowLock.Update(0))
      && RowLock.Next(AccessProofs.FoldB, s, RowLock.Update(0)) ==
           During(Self(), AskedBack(Admin), done, RowLock.Missed, ids)
  {
    assert Admins(AskedBack(Admin).bindings, "d") == {"a"};
  }

  lemma OvertakenRun()
    ensures RowLock.Schedule(AccessProofs.FoldB, RowLock.INIT, Overtaken())
    ensures RowLock.Exec(AccessProofs.FoldB, RowLock.INIT, Overtaken()) ==
      During(Self(), CameBack(Admin), Start(Admin) + [Back()], RowLock.Missed,
             Entries(AskedBack(Admin).audit) + [RedeemedRow(Admin)])
  {
    var uuid, so, ids := AccessProofs.FoldB, Checked(Self(), Admin), Entries(AskedBack(Admin).audit);
    CheckedRun(Self(), Admin);
    UpdateMisses(Start(Admin), ids);
    RowLock.ScheduleMore(uuid, RowLock.INIT, so, RowLock.Update(0));
    ComesBack(Self(), Admin, Start(Admin), RowLock.Missed, ids);
    RowLock.ScheduleMore(uuid, RowLock.INIT, so + [RowLock.Update(0)], RowLock.Other(Back()));
  }

  /** The second look answers "last admin" where the atomic revoke would go through. */
  ghost predicate ToldWrongly(s: RowLock.State) {
    && RowLockAnswers.Refuses(AccessProofs.FoldB, s, RowLock.Explain(0))
    && RowLock.Next(AccessProofs.FoldB, s, RowLock.Explain(0)).txs[0].pc == RowLock.Ended(LastAdmin)
    && Step(AccessProofs.FoldB, s.db, s.txs[0].req).code == Ok
  }

  lemma ExplainIsWrong(done: seq<Request>, ids: Ids)
    ensures ToldWrongly(During(Self(), CameBack(Admin), done, RowLock.Missed, ids))
  {
    TwoAdmins();
    ToldLastOfTwo(CameBack(Admin), done, ids);
  }

  lemma ToldLastOfTwo(db: Tables, done: seq<Request>, ids: Ids)
    requires "a" in db.accounts && "d" in db.devices && ActiveAdmin(db.bindings, "d", "a")
    requires |Admins(db.bindings, "d")| > 1
    ensures ToldWrongly(During(Self(), db, done, RowLock.Missed, ids))
  {
  }

  lemma TwoAdmins()
    ensures var b := CameBack(Admin).bindings;
      ActiveAdmin(b, "d", "a") && ActiveAdmin(b, "d", "b") && |Admins(b, "d")| > 1
  {
    var b := CameBack(Admin).bindings;
    assert ActiveAdmin(b, "d", "a") && ActiveAdmin(b, "d", "b");
    SubsetCardinality({"a", "b"}, Admins(b, "d"));
  }

  lemma ExplanationCanBeOvertaken()
    ensures RowLock.Schedule(AccessProofs.FoldB, RowLock.INIT, Overtaken())
    ensures ToldWrongly(RowLock.Exec(AccessProofs.FoldB, RowLock.INIT, Overtaken()))
  {
    OvertakenRun();
    ExplainIsWrong(Start(Admin) + [Back()], Entries(AskedBack(Admin).audit) + [RedeemedRow(Admin)]);
  }

  // ----- a removal that misses somebody

  function All(): Request {
    DoRemove("a", "d")
  }

  function OnlyA(): set<Row> {
    {("d", "a")}
  }

  function RemovedRow(): Entry {
    Entry(Event("d", "a", DeviceRemoved, "a", None), Some(0))
  }

  /** "b" comes back between the removal's UPDATE and its audit row, or between that and its commit. */
  function Late(): seq<RowLock.Act> {
    Checked(All(), Guest) + [RowLock.Update(0)] + [RowLock.Other(Back())] + [RowLock.Audit(0)]
  }

  function InTime(): seq<RowLock.Act> {
    Checked(All(), Guest) + [RowLock.Update(0)] + [RowLock.Audit(0)] + [RowLock.Other(Back())]
  }

  lemma UpdateRevokesA(done: seq<Request>, ids: Ids)
    ensures var s := During(All(), AskedBack(Guest), done, RowLock.Checked, ids);
      && RowLock.Enabled(AccessProofs.FoldB, s, RowLock.Update(0))
      && RowLock.Next(AccessProofs.FoldB, s, RowLock.Update(0)) ==
           During(All(), AskedBack(Guest), done, RowLock.Wrote(OnlyA(), None), ids)
  {
    assert RowLock.ActiveRows(AskedBack(Guest).bindings, "d") == OnlyA();
  }

  lemma AuditInserts(db: Tables, done: seq<Request>, ids: Ids)
    ensures var s := During(All(), db, done, RowLock.Wrote(OnlyA(), None), ids);
      && RowLock.Enabled(AccessProofs.FoldB, s, RowLock.Audit(0))
      && RowLock.Next(AccessProofs.FoldB, s, RowLock.Audit(0)) ==
           During(All(), db, done,
                  RowLock.Audited(OnlyA(), None, RowLock.ActiveRows(db.bindings, "d") - OnlyA()), ids + [RemovedRow()])
  {
  }

  lemma LateRun()
    ensures RowLock.Schedule(AccessProofs.FoldB, RowLock.INIT, Late())
    ensures RowLock.Exec(AccessProofs.FoldB, RowLock.INIT, Late()) ==
      During(All(), CameBack(Guest), Start(Guest) + [Back()],
             RowLock.Audited(OnlyA(), None, RowLock.ActiveRows(CameBack(Guest).bindings, "d") - OnlyA()),
             Entries(AskedBack(Guest).audit) + [RedeemedRow(Guest)] + [RemovedRow()])
  {
    var uuid, so, ids := AccessProofs.FoldB, Checked(All(), Guest), Entries(AskedBack(Guest).audit);
    CheckedRun(All(), Guest);
    UpdateRevokesA(Start(Guest), ids);
    RowLock.ScheduleMore(uuid, RowLock.INIT, so, RowLock.Update(0));
    so := so + [RowLock.Update(0)];
    ComesBack(All(), Guest, Start(Guest), RowLock.Wrote(OnlyA(), None), ids);
    RowLock.ScheduleMore(uuid, RowLock.INIT, so, RowLock.Other(Back()));
    so := so + [RowLock.Other(Back())];
    AuditInserts(CameBack(Guest), Start(Guest) + [Back()], ids + [RedeemedRow(Guest)]);
    RowLock.ScheduleMore(uuid, RowLock.INIT, so, RowLock.Audit(0));
  }

  lemma InTimeRun()
    ensures RowLock.Schedule(AccessProofs.FoldB, RowLock.INIT, InTime())
    ensures RowLock.Exec(AccessProofs.FoldB, RowLock.INIT, InTime()) ==
      During(All(), CameBack(Guest), Start(Guest) + [Back()], RowLock.Audited(OnlyA(), None, {}),
             Entries(AskedBack(Guest).audit) + [RemovedRow()] + [RedeemedRow(Guest)])
  {
    var uuid, so, ids := AccessProofs.FoldB, Checked(All(), Guest), Entries(AskedBack(Guest).audit);
    CheckedRun(All(), Guest);
    UpdateRevokesA(Start(Guest), ids);
    RowLock.ScheduleMore(uuid, RowLock.INIT, so, RowLock.Update(0));
    so := so + [RowLock.Update(0)];
    AuditInserts(AskedBack(Guest), Start(Guest), ids);
    assert RowLock.ActiveRows(AskedBack(Guest).bindings, "d") - OnlyA() == {};
    RowLock.ScheduleMore(uuid, RowLock.INIT, so, RowLock.Audit(0));
    so := so + [RowLock.Audit(0)];
    ComesBack(All(), Guest, Start(Guest), RowLock.Audited(OnlyA(), None, {}), ids + [RemovedRow()]);
    RowLock.ScheduleMore(uuid, RowLock.INIT, so, RowLock.Other(Back()));
  }

  /** What the commit will leave of the bindings. */
  function LeftBy(s: RowLock.State): Bindings
    requires 0 in s.txs && RowLock.Past(s.txs[0].pc)
  {
    RowLock.RevokeRows(s.db.bindings, s.txs[0].pc.rows)
  }

  /** It is about to commit, and leaves "b" alone on the device, whatever the log says of it. */
  ghost predicate LeavesGuest(s: RowLock.State) {
    && RowLock.Enabled(AccessProofs.FoldB, s, RowLock.CommitTx(0))
    && IsActive(LeftBy(s), "d", "b") && !AccessProofs.HasAdmin(LeftBy(s), "d")
  }

  lemma GuestIsLeft()
    ensures var b := RowLock.RevokeRows(CameBack(Guest).bindings, OnlyA());
      IsActive(b, "d", "b") && !AccessProofs.HasAdmin(b, "d")
    ensures ("d", "b") in RowLock.ActiveRows(CameBack(Guest).bindings, "d") - OnlyA()
  {
    var b := RowLock.RevokeRows(CameBack(Guest).bindings, OnlyA());
    assert b == map[("d", "a") := Binding(Admin, false, 0), ("d", "b") := Binding(Guest, true, 2)];
  }

  lemma CommitLeavesGuest(db: Tables, done: seq<Request>, late: set<Row>, ids: Ids)
    requires var b := RowLock.RevokeRows(db.bindings, OnlyA()); IsActive(b, "d", "b") && !AccessProofs.HasAdmin(b, "d")
    ensures LeavesGuest(During(All(), db, done, RowLock.Audited(OnlyA(), None, late), ids))
  {
  }

  predicate NoCommits(actions: seq<RowLock.Act>) {
    forall i :: 0 <= i < |actions| ==> !actions[i].CommitTx?
  }

  lemma NoneInChecked()
    ensures NoCommits(Checked(All(), Guest))
  {
    assert NoCommits(Others(Start(Guest)));
  }

  /** Three more statements that are not commits. */
  lemma NoneInMore(actions: seq<RowLock.Act>, a: RowLock.Act, b: RowLock.Act, c: RowLock.Act)
    requires NoCommits(actions) && !a.CommitTx? && !b.CommitTx? && !c.CommitTx?
    ensures NoCommits(actions + [a] + [b] + [c])
  {
  }

  lemma {:induction false} NoCommitIsTimely(s: RowLock.State, actions: seq<RowLock.Act>)
    requires RowLock.Schedule(AccessProofs.FoldB, s, actions) && NoCommits(actions)
    ensures RowLockLog.AllTimely(AccessProofs.FoldB, s, actions)
    decreases |actions|
  {
    if actions != [] {
      NoCommitIsTimely(RowLock.Next(AccessProofs.FoldB, s, actions[0]), actions[1..]);
    }
  }

  /** What the log says after the commit. */
  ghost predicate LogAgrees(s: RowLock.State) {
    && RowLock.Enabled(AccessProofs.FoldB, s, RowLock.CommitTx(0))
    && var next := RowLock.Next(AccessProofs.FoldB, s, RowLock.CommitTx(0));
    Agrees(AccessProofs.FoldB, next.db.bindings, Visible(next.ids, None))
  }

  lemma AgreesWhenTimely(actions: seq<RowLock.Act>, s: RowLock.State)
    requires RowLock.Schedule(AccessProofs.FoldB, RowLock.INIT, actions) && NoCommits(actions)
    requires RowLock.Exec(AccessProofs.FoldB, RowLock.INIT, actions) == s
    requires RowLock.Enabled(AccessProofs.FoldB, s, RowLock.CommitTx(0))
    ensures LogAgrees(s) <==> RowLockLog.Timely(s, 0)
  {
    NoCommitIsTimely(RowLock.INIT, actions);
    RowLockLog.CommitIsReplayedIff(AccessProofs.FoldB, actions, 0);
  }

  lemma LateAtCommit(s: RowLock.State, late: set<Row>, ids: Ids)
    requires s == During(All(), CameBack(Guest), Start(Guest) + [Back()], RowLock.Audited(OnlyA(), None, late), ids)
    ensures LeavesGuest(s) && (RowLockLog.Timely(s, 0) <==> late == {})
  {
    GuestIsLeft();
    CommitLeavesGuest(CameBack(Guest), Start(Guest) + [Back()], late, ids);
  }

  /** The removal's row came late: "b" keeps access that the log says is gone. */
  lemma RemovalCanMissOne()
    ensures RowLock.Schedule(AccessProofs.FoldB, RowLock.INIT, Late())
    ensures var s := RowLock.Exec(AccessProofs.FoldB, RowLock.INIT, Late()); LeavesGuest(s) && !LogAgrees(s)
  {
    LateRun();
    GuestIsLeft();
    var s := RowLock.Exec(AccessProofs.FoldB, RowLock.INIT, Late());
    LateAtCommit(s, RowLock.ActiveRows(CameBack(Guest).bindings, "d") - OnlyA(), s.ids);
    NoneInChecked();
    NoneInMore(Checked(All(), Guest), RowLock.Update(0), RowLock.Other(Back()), RowLock.Audit(0));
    AgreesWhenTimely(Late(), s);
  }

  /** The row was in time and the commit was not: the log agrees that "b" has access, and "b" is alone. */
  lemma RemovalCanMissOneOnRecord()
    ensures RowLock.Schedule(AccessProofs.FoldB, RowLock.INIT, InTime())
    ensures var s := RowLock.Exec(AccessProofs.FoldB, RowLock.INIT, InTime()); LeavesGuest(s) && LogAgrees(s)
  {
    InTimeRun();
    var s := RowLock.Exec(AccessProofs.FoldB, RowLock.INIT, InTime());
    LateAtCommit(s, {}, s.ids);
    NoneInChecked();
    NoneInMore(Checked(All(), Guest), RowLock.Update(0), RowLock.Audit(0), RowLock.Other(Back()));
    AgreesWhenTimely(InTime(), s);
  }
}
