/** What a revoke or a leave that does not go through is told, and who can make that wrong; and who can
    make a removal miss somebody. */
module RowLockAnswers {
  import opened Common
  import opened Access
  import opened AuditIds
  import opened RowLock
  import AccessProofs
  import Locks

  ghost predicate Refuses(uuid: Cast, s: State, a: Act) {
    && (a.Lock? || a.Check? || a.Update? || a.Explain? || a.Audit?)
    && Enabled(uuid, s, a) && Next(uuid, s, a).txs[a.id].pc.Ended?
  }

  /** The statement answers what the atomic transaction would answer now. */
  ghost predicate AnswersAtomically(uuid: Cast, s: State, a: Act)
    requires Refuses(uuid, s, a)
  {
    Next(uuid, s, a).txs[a.id].pc.code == Step(uuid, s.db, s.txs[a.id].req).code
  }

  lemma RevokeRefusal(uuid: Cast, s: State, a: Act)
    requires Refuses(uuid, s, a) && TxOk(uuid, s, a.id) && s.txs[a.id].req.DoRevoke?
    requires AccessProofs.AccountsCanonical(uuid, s.db)
    ensures AnswersAtomically(uuid, s, a) <==> !(a.Explain? && Revocable(uuid, s.db, s.txs[a.id].req))
  {
    var req := s.txs[a.id].req;
    if a.Explain? && ActiveRows(s.db.bindings, req.device) == {} && Account(uuid, req).Some? {
      assert (req.device, Account(uuid, req).value) !in ActiveRows(s.db.bindings, req.device);
    }
  }

  lemma LeaveRefusal(uuid: Cast, s: State, a: Act)
    requires Refuses(uuid, s, a) && TxOk(uuid, s, a.id) && s.txs[a.id].req.DoLeave?
    requires AccessProofs.AccountsCanonical(uuid, s.db)
    ensures AnswersAtomically(uuid, s, a) <==> !(a.Explain? && Revocable(uuid, s.db, s.txs[a.id].req))
  {
  }

  lemma RemoveRefusal(uuid: Cast, s: State, a: Act)
    requires Refuses(uuid, s, a) && TxOk(uuid, s, a.id) && s.txs[a.id].req.DoRemove?
    requires AccessProofs.AccountsCanonical(uuid, s.db)
    ensures !a.Explain? && AnswersAtomically(uuid, s, a)
  {
  }

  /** A statement that refuses gives the answer the atomic transaction would give at that moment, with
      one exception: the second look that explains an UPDATE which found no row is wrong exactly when
      the UPDATE would find it now. */
  lemma RefusalIsAtomicIff(uuid: Cast, actions: seq<Act>, a: Act)
    requires Schedule(uuid, INIT, actions) && Refuses(uuid, Exec(uuid, INIT, actions), a)
    ensures var s := Exec(uuid, INIT, actions);
      && Locking(s.txs[a.id].req)
      && (AnswersAtomically(uuid, s, a) <==> !(a.Explain? && Revocable(uuid, s.db, s.txs[a.id].req)))
  {
    ScheduleKeepsInv(uuid, INIT, actions);
    RefusalAt(uuid, Exec(uuid, INIT, actions), a);
  }

  lemma RefusalAt(uuid: Cast, s: State, a: Act)
    requires Inv(uuid, s) && Refuses(uuid, s, a)
    ensures AnswersAtomically(uuid, s, a) <==> !(a.Explain? && Revocable(uuid, s.db, s.txs[a.id].req))
  {
    assert TxOk(uuid, s, a.id);
    if s.txs[a.id].req.DoRevoke? {
      RevokeRefusal(uuid, s, a);
    } else if s.txs[a.id].req.DoLeave? {
      LeaveRefusal(uuid, s, a);
    } else {
      RemoveRefusal(uuid, s, a);
    }
  }

  // ----- who gets through to a locked device

  /** The action lets an account back in to the device. */
  ghost predicate LetsBack(uuid: Cast, s: State, a: Act, device: string) {
    a.Other? && Locks.Readmits(s.db, a.req, device) && Step(uuid, s.db, a.req).code == Ok
  }

  /** None of the actions does. */
  ghost predicate NobodyBack(uuid: Cast, s: State, actions: seq<Act>, device: string)
    requires Schedule(uuid, s, actions)
    decreases |actions|
  {
    actions == [] ||
    (!LetsBack(uuid, s, actions[0], device) && NobodyBack(uuid, Next(uuid, s, actions[0]), actions[1..], device))
  }

  /** What happens to a device that another transaction has locked, when nobody is let back in: its
      rows stay as they are, or it is signed out and none is active. */
  lemma WithoutReadmission(uuid: Cast, s: State, a: Act, id: nat)
    requires Inv(uuid, s) && Enabled(uuid, s, a) && id in s.txs && Inside(s.txs[id].pc)
    requires !LetsBack(uuid, s, a, s.txs[id].req.device) && !(a.CommitTx? && a.id == id)
    ensures var device, b, next := s.txs[id].req.device, s.db.bindings, Next(uuid, s, a).db.bindings;
      || (forall x :: StandingIn(next, (device, x)) == StandingIn(b, (device, x)))
      || (forall x :: !IsActive(next, device, x))
  {
    var device, next := s.txs[id].req.device, Next(uuid, s, a);
    assert TxOk(uuid, s, id);
    if a.Other? {
      OtherWithoutReadmission(uuid, s, a.req, device);
    } else if a.CommitTx? {
      assert TxOk(uuid, s, a.id);
      assert s.txs[a.id].req.device != device;
    } else {
      assert next.db == s.db;
    }
  }

  lemma OtherWithoutReadmission(uuid: Cast, s: State, req: Request, device: string)
    requires Enabled(uuid, s, Other(req)) && device in s.locks && !LetsBack(uuid, s, Other(req), device)
    ensures var b, next := s.db.bindings, Step(uuid, s.db, req).next.bindings;
      || (forall x :: StandingIn(next, (device, x)) == StandingIn(b, (device, x)))
      || (forall x :: !IsActive(next, device, x))
  {
    OtherOnLocked(uuid, s, req, device);
    if req.DoRedeem? && Step(uuid, s.db, req).code != Ok {
      assert Step(uuid, s.db, req).next == s.db;
    }
  }

  // ----- the second look

  /** The transaction has missed its row and still would, or it is over. */
  ghost predicate MissedOrOver(uuid: Cast, s: State, id: nat) {
    && id in s.txs && Locking(s.txs[id].req)
    && (s.txs[id].pc.Ended? || (s.txs[id].pc.Missed? && !Revocable(uuid, s.db, s.txs[id].req)))
  }

  lemma StaysIrrevocable(uuid: Cast, t: Tables, next: Tables, req: Request)
    requires Locking(req) && !Revocable(uuid, t, req)
    requires (forall x :: StandingIn(next.bindings, (req.device, x)) == StandingIn(t.bindings, (req.device, x)))
      || (forall x :: !IsActive(next.bindings, req.device, x))
    ensures !Revocable(uuid, next, req)
  {
    if forall x :: StandingIn(next.bindings, (req.device, x)) == StandingIn(t.bindings, (req.device, x)) {
      assert forall x :: ActiveAdmin(next.bindings, req.device, x) <==> ActiveAdmin(t.bindings, req.device, x);
      assert Admins(next.bindings, req.device) == Admins(t.bindings, req.device);
    }
  }

  /** A transaction that has missed its row stays there or ends, and commits nothing. */
  lemma MissedPc(uuid: Cast, s: State, a: Act, id: nat)
    requires Enabled(uuid, s, a) && id in s.txs && Locking(s.txs[id].req)
    requires (s.txs[id].pc.Missed? || s.txs[id].pc.Ended?)
    ensures var next := Next(uuid, s, a);
      && id in next.txs && next.txs[id].req == s.txs[id].req
      && (next.txs[id].pc == s.txs[id].pc || next.txs[id].pc.Ended?)
    ensures !(a.CommitTx? && a.id == id)
  {
  }

  lemma NextKeepsMissed(uuid: Cast, s: State, a: Act, id: nat)
    requires Inv(uuid, s) && Enabled(uuid, s, a) && MissedOrOver(uuid, s, id)
    requires !LetsBack(uuid, s, a, s.txs[id].req.device)
    ensures MissedOrOver(uuid, Next(uuid, s, a), id)
    ensures Next(uuid, s, a).txs[id].req == s.txs[id].req
  {
    MissedPc(uuid, s, a, id);
    if s.txs[id].pc.Missed? {
      WithoutReadmission(uuid, s, a, id);
      StaysIrrevocable(uuid, s.db, Next(uuid, s, a).db, s.txs[id].req);
    }
  }

  lemma {:induction false} StaysMissed(uuid: Cast, s: State, actions: seq<Act>, id: nat)
    requires Inv(uuid, s) && Schedule(uuid, s, actions) && MissedOrOver(uuid, s, id)
    requires NobodyBack(uuid, s, actions, s.txs[id].req.device)
    ensures MissedOrOver(uuid, Exec(uuid, s, actions), id)
    decreases |actions|
  {
    if actions != [] {
      NextKeepsInv(uuid, s, actions[0]);
      NextKeepsMissed(uuid, s, actions[0], id);
      StaysMissed(uuid, Next(uuid, s, actions[0]), actions[1..], id);
    }
  }

  /** The answer of a transaction that has just missed its row, and later looks a second time, is
      right unless somebody is let back in between, whatever else happens there. */
  lemma OnlyReadmissionsMislead(uuid: Cast, before: seq<Act>, between: seq<Act>, id: nat)
    requires Schedule(uuid, INIT, before) && Enabled(uuid, Exec(uuid, INIT, before), Update(id))
    requires Next(uuid, Exec(uuid, INIT, before), Update(id)).txs[id].pc.Missed?
    requires Schedule(uuid, Next(uuid, Exec(uuid, INIT, before), Update(id)), between)
    requires var s := Exec(uuid, INIT, before);
      NobodyBack(uuid, Next(uuid, s, Update(id)), between, s.txs[id].req.device)
    requires var s := Exec(uuid, Next(uuid, Exec(uuid, INIT, before), Update(id)), between);
      Refuses(uuid, s, Explain(id))
    ensures var s := Exec(uuid, Next(uuid, Exec(uuid, INIT, before), Update(id)), between);
      AnswersAtomically(uuid, s, Explain(id))
  {
    var s0 := Exec(uuid, INIT, before);
    ScheduleKeepsInv(uuid, INIT, before);
    MisledFrom(uuid, s0, between, id);
  }

  lemma MisledFrom(uuid: Cast, s: State, between: seq<Act>, id: nat)
    requires Inv(uuid, s) && Enabled(uuid, s, Update(id)) && Next(uuid, s, Update(id)).txs[id].pc.Missed?
    requires Schedule(uuid, Next(uuid, s, Update(id)), between)
    requires NobodyBack(uuid, Next(uuid, s, Update(id)), between, s.txs[id].req.device)
    requires Refuses(uuid, Exec(uuid, Next(uuid, s, Update(id)), between), Explain(id))
    ensures AnswersAtomically(uuid, Exec(uuid, Next(uuid, s, Update(id)), between), Explain(id))
  {
    var s1 := Next(uuid, s, Update(id));
    NextKeepsInv(uuid, s, Update(id));
    StaysMissed(uuid, s1, between, id);
    ScheduleKeepsInv(uuid, s1, between);
    RefusalAt(uuid, Exec(uuid, s1, between), Explain(id));
  }

  // ----- whom a removal misses

  /** The transaction is past its UPDATE and has missed nobody, or it is over. */
  ghost predicate MissesNobody(s: State, id: nat) {
    && id in s.txs && Locking(s.txs[id].req) && (Past(s.txs[id].pc) || s.txs[id].pc.Ended?)
    && (Past(s.txs[id].pc) ==> Missing(s, id) == {})
    && (s.txs[id].pc.Audited? ==> s.txs[id].pc.late == {})
  }

  lemma MissingStays(b: Bindings, next: Bindings, device: string, rows: set<Row>)
    requires ActiveRows(b, device) - rows == {}
    requires (forall x :: StandingIn(next, (device, x)) == StandingIn(b, (device, x)))
      || (forall x :: !IsActive(next, device, x))
    ensures ActiveRows(next, device) - rows == {}
  {
    forall r | r in ActiveRows(next, device) ensures r in rows {
      assert IsActive(next, device, r.1);
      assert StandingIn(next, (device, r.1)) == StandingIn(b, (device, r.1));
      assert r in ActiveRows(b, device) && r !in ActiveRows(b, device) - rows;
    }
  }

  /** Past its UPDATE a transaction stays as it is, inserts its audit row, or ends. */
  lemma PcAfter(uuid: Cast, s: State, a: Act, id: nat)
    requires Enabled(uuid, s, a) && id in s.txs && Locking(s.txs[id].req) && Past(s.txs[id].pc)
    ensures var next := Next(uuid, s, a);
      && id in next.txs && next.txs[id].req == s.txs[id].req
      && (|| next.txs[id].pc == s.txs[id].pc || next.txs[id].pc.Ended?
          || (&& next.txs[id].pc == Audited(s.txs[id].pc.rows, s.txs[id].pc.role, Missing(s, id))
              && next.db == s.db))
      && (a.CommitTx? && a.id == id ==> next.txs[id].pc.Ended?)
  {
  }

  lemma NextMissesNobody(uuid: Cast, s: State, a: Act, id: nat)
    requires Inv(uuid, s) && Enabled(uuid, s, a) && MissesNobody(s, id) && Past(s.txs[id].pc)
    requires !LetsBack(uuid, s, a, s.txs[id].req.device)
    ensures MissesNobody(Next(uuid, s, a), id) && Next(uuid, s, a).txs[id].req == s.txs[id].req
  {
    PcAfter(uuid, s, a, id);
    var next := Next(uuid, s, a);
    if !next.txs[id].pc.Ended? && s.txs[id].req.DoRemove? {
      WithoutReadmission(uuid, s, a, id);
      MissingStays(s.db.bindings, next.db.bindings, s.txs[id].req.device, s.txs[id].pc.rows);
    }
  }

  lemma EndedStays(uuid: Cast, s: State, a: Act, id: nat)
    requires Enabled(uuid, s, a) && id in s.txs && s.txs[id].pc.Ended?
    ensures id in Next(uuid, s, a).txs && Next(uuid, s, a).txs[id] == s.txs[id]
  {
  }

  lemma {:induction false} StillMissesNobody(uuid: Cast, s: State, actions: seq<Act>, id: nat)
    requires Inv(uuid, s) && Schedule(uuid, s, actions) && MissesNobody(s, id)
    requires NobodyBack(uuid, s, actions, s.txs[id].req.device)
    ensures MissesNobody(Exec(uuid, s, actions), id)
    decreases |actions|
  {
    if actions != [] {
      NextKeepsInv(uuid, s, actions[0]);
      if Past(s.txs[id].pc) {
        NextMissesNobody(uuid, s, actions[0], id);
      } else {
        EndedStays(uuid, s, actions[0], id);
      }
      StillMissesNobody(uuid, Next(uuid, s, actions[0]), actions[1..], id);
    }
  }

  /** A removal misses nobody, at its audit row or at its commit, unless somebody is let back in after
      its UPDATE, whatever else happens there. */
  lemma OnlyReadmissionsAreMissed(uuid: Cast, before: seq<Act>, between: seq<Act>, id: nat)
    requires Schedule(uuid, INIT, before) && Enabled(uuid, Exec(uuid, INIT, before), Update(id))
    requires Exec(uuid, INIT, before).txs[id].req.DoRemove?
    requires Schedule(uuid, Next(uuid, Exec(uuid, INIT, before), Update(id)), between)
    requires var s := Exec(uuid, INIT, before);
      NobodyBack(uuid, Next(uuid, s, Update(id)), between, s.txs[id].req.device)
    ensures MissesNobody(Exec(uuid, Next(uuid, Exec(uuid, INIT, before), Update(id)), between), id)
  {
    var s := Exec(uuid, INIT, before);
    ScheduleKeepsInv(uuid, INIT, before);
    NextKeepsInv(uuid, s, Update(id));
    StillMissesNobody(uuid, Next(uuid, s, Update(id)), between, id);
  }
}
