/** The audit log as its readers order it: by id, which a row is given when it is inserted, while it
    becomes visible only when its transaction commits. A transaction that is still open holds a place
    in the log that nobody sees, and one that rolls back leaves a gap. */
module AuditIds {
  import opened Common
  import opened Access
  import AccessProofs

  /** A row with the open transaction that inserted it, or none once it is committed. */
  datatype Entry = Entry(event: Event, owner: Option<nat>)
  type Ids = seq<Entry>

  /** What a reader sees, by id. With `mine` it is what a reader would see if that transaction had
      committed. */
  function Visible(ids: Ids, mine: Option<nat>): seq<Event> {
    if ids == [] then []
    else
      var before, last := Visible(ids[..|ids| - 1], mine), ids[|ids| - 1];
      if last.owner.None? || last.owner == mine then before + [last.event] else before
  }

  function Published(ids: Ids, id: nat): Ids {
    seq(|ids|, i requires 0 <= i < |ids| => if ids[i].owner == Some(id) then Entry(ids[i].event, None) else ids[i])
  }

  /** A rollback: the places stay empty. */
  function Dropped(ids: Ids, id: nat): Ids {
    if ids == [] then []
    else
      var before, last := Dropped(ids[..|ids| - 1], id), ids[|ids| - 1];
      if last.owner == Some(id) then before else before + [last]
  }

  /** The row another handler wrote, if it wrote one. */
  function NewRow(t: Tables, next: Tables): Ids {
    if |next.audit| > |t.audit| then [Entry(next.audit[|t.audit|], None)] else []
  }

  /** No row of the transaction is in the log. */
  predicate Absent(ids: Ids, id: nat) {
    forall i :: 0 <= i < |ids| ==> ids[i].owner != Some(id)
  }

  lemma VisibleMore(ids: Ids, entry: Entry, mine: Option<nat>)
    ensures Visible(ids + [entry], mine) ==
      Visible(ids, mine) + if entry.owner.None? || entry.owner == mine then [entry.event] else []
  {
    assert (ids + [entry])[..|ids|] == ids;
  }

  lemma {:induction false} VisiblePublished(ids: Ids, id: nat)
    ensures Visible(Published(ids, id), None) == Visible(ids, Some(id))
  {
    if ids != [] {
      VisiblePublished(ids[..|ids| - 1], id);
      assert Published(ids, id)[..|ids| - 1] == Published(ids[..|ids| - 1], id);
    }
  }

  lemma {:induction false} VisibleAbsent(ids: Ids, id: nat)
    requires Absent(ids, id)
    ensures Visible(ids, Some(id)) == Visible(ids, None)
  {
    if ids != [] {
      VisibleAbsent(ids[..|ids| - 1], id);
    }
  }

  lemma {:induction false} VisibleDropped(ids: Ids, id: nat, mine: Option<nat>)
    requires mine != Some(id)
    ensures Visible(Dropped(ids, id), mine) == Visible(ids, mine)
  {
    if ids != [] {
      var init, last := ids[..|ids| - 1], ids[|ids| - 1];
      VisibleDropped(init, id, mine);
      if last.owner != Some(id) {
        VisibleMore(Dropped(init, id), last, mine);
      }
    }
  }

  // ----- replaying the log for one binding

  /** What the table or the log says of one account on one device: its role and whether it is on. */
  type Standing = Option<(Role, bool)>

  function StandingIn(b: Bindings, r: Row): Standing {
    if r in b then Some((b[r].role, b[r].active)) else None
  }

  function Apply(uuid: Cast, s: Standing, e: Event, r: Row): Standing {
    match e.action
    case DeviceEnrolled =>
      if r == (e.device, e.account) && !(s.Some? && s.value.1) then Some((Admin, true)) else s
    case InviteRedeemed => if r == (e.device, e.account) && e.role.Some? then Some((e.role.value, true)) else s
    case BindingRevoked => if r.0 == e.device && uuid(e.account) == Some(r.1) then Off(s) else s
    case DeviceRemoved => if r.0 == e.device then Off(s) else s
    case DeviceUnenrolled => if r.0 == e.device then Off(s) else s
    case AccountDeleted => if r.1 == e.account then None else s
    case _ => s
  }

  function Off(s: Standing): Standing {
    if s.Some? then Some((s.value.0, false)) else None
  }

  function StandingAfter(uuid: Cast, log: seq<Event>, r: Row): Standing {
    if log == [] then None else Apply(uuid, StandingAfter(uuid, log[..|log| - 1], r), log[|log| - 1], r)
  }

  lemma StandingMore(uuid: Cast, log: seq<Event>, e: Event, r: Row)
    ensures StandingAfter(uuid, log + [e], r) == Apply(uuid, StandingAfter(uuid, log, r), e, r)
  {
    assert (log + [e])[..|log|] == log;
  }

  /** One event for one binding is the event on the whole table. */
  lemma ApplyIsApplyEvent(uuid: Cast, b: Bindings, e: Event, at: nat, r: Row)
    ensures StandingIn(AccessProofs.ApplyEvent(uuid, b, e, at), r) == Apply(uuid, StandingIn(b, r), e, r)
  {
  }

  /** So replaying binding by binding is replaying the table. */
  lemma {:induction false} StandingIsReplay(uuid: Cast, log: seq<Event>, r: Row)
    ensures StandingAfter(uuid, log, r) == StandingIn(AccessProofs.Replay(uuid, log), r)
  {
    if log != [] {
      var init := log[..|log| - 1];
      StandingIsReplay(uuid, init, r);
      ApplyIsApplyEvent(uuid, AccessProofs.Replay(uuid, init), log[|log| - 1], |init|, r);
    }
  }

  /** The log, read by id, gives every account the role and the access that the table gives it. */
  ghost predicate Agrees(uuid: Cast, b: Bindings, log: seq<Event>) {
    forall r :: StandingAfter(uuid, log, r) == StandingIn(b, r)
  }

  /** The bindings an event can change. */
  predicate Concerns(uuid: Cast, e: Event, r: Row) {
    match e.action
    case DeviceEnrolled => r == (e.device, e.account)
    case InviteRedeemed => r == (e.device, e.account)
    case BindingRevoked => r.0 == e.device && uuid(e.account) == Some(r.1)
    case DeviceRemoved => r.0 == e.device
    case DeviceUnenrolled => r.0 == e.device
    case AccountDeleted => r.1 == e.account
    case _ => false
  }

  /** Whatever one transaction has inserted leaves a binding alone. */
  ghost predicate Spares(uuid: Cast, ids: Ids, id: nat, r: Row) {
    forall i :: 0 <= i < |ids| && ids[i].owner == Some(id) ==> !Concerns(uuid, ids[i].event, r)
  }

  /** One more row matters only if it is seen. */
  lemma SeenMore(uuid: Cast, ids: Ids, entry: Entry, mine: Option<nat>, r: Row)
    ensures var before, after := StandingAfter(uuid, Visible(ids, mine), r),
                                 StandingAfter(uuid, Visible(ids + [entry], mine), r);
      after == if entry.owner.None? || entry.owner == mine then Apply(uuid, before, entry.event, r) else before
  {
    VisibleMore(ids, entry, mine);
    if entry.owner.None? || entry.owner == mine {
      StandingMore(uuid, Visible(ids, mine), entry.event, r);
    } else {
      assert Visible(ids, mine) + [] == Visible(ids, mine);
    }
  }

  /** Then its commit changes nothing for that binding, whoever else is still open. */
  lemma {:induction false} PublishedSpares(uuid: Cast, ids: Ids, id: nat, mine: Option<nat>, r: Row)
    requires Spares(uuid, ids, id, r)
    ensures StandingAfter(uuid, Visible(Published(ids, id), mine), r) == StandingAfter(uuid, Visible(ids, mine), r)
  {
    if ids != [] {
      var init, last := ids[..|ids| - 1], ids[|ids| - 1];
      PublishedSpares(uuid, init, id, mine, r);
      var other := if last.owner == Some(id) then Entry(last.event, None) else last;
      assert Published(ids, id) == Published(init, id) + [other] && ids == init + [last];
      SeenMore(uuid, init, last, mine, r);
      SeenMore(uuid, Published(init, id), other, mine, r);
      if last.owner == Some(id) {
        ApplySpares(uuid, StandingAfter(uuid, Visible(init, mine), r), last.event, r);
      }
    }
  }

  /** And so does the place it holds. */
  lemma MineSpares(uuid: Cast, ids: Ids, id: nat, r: Row)
    requires Spares(uuid, ids, id, r)
    ensures StandingAfter(uuid, Visible(ids, Some(id)), r) == StandingAfter(uuid, Visible(ids, None), r)
  {
    VisiblePublished(ids, id);
    PublishedSpares(uuid, ids, id, None, r);
  }

  lemma ApplySpares(uuid: Cast, s: Standing, e: Event, r: Row)
    requires !Concerns(uuid, e, r)
    ensures Apply(uuid, s, e, r) == s
  {
  }

  /** A rollback keeps the other rows. */
  lemma {:induction false} DroppedIn(ids: Ids, id: nat, i: nat)
    requires i < |Dropped(ids, id)|
    ensures Dropped(ids, id)[i] in ids && Dropped(ids, id)[i].owner != Some(id)
  {
    var init := ids[..|ids| - 1];
    if i < |Dropped(init, id)| {
      DroppedIn(init, id, i);
    } else {
      assert ids[|ids| - 1] in ids;
    }
  }

  /** Which request wrote a row that can change a binding. */
  lemma RowSource(uuid: Cast, t: Tables, req: Request, e: Event)
    requires Step(uuid, t, req).next.audit == t.audit + [e]
    ensures e.action == DeviceEnrolled ==> req.DoEnrol? && req.device == e.device
    ensures e.action == DeviceEnrolled ==> req.token in t.tokens && t.tokens[req.token].account == e.account
    ensures e.action == BindingRevoked ==>
      || (req.DoRevoke? && req.device == e.device && req.target == e.account)
      || (req.DoLeave? && req.device == e.device && req.actor == e.account)
    ensures e.action == DeviceRemoved ==> req.DoRemove? && req.device == e.device
    ensures e.action == DeviceUnenrolled ==> req == DoUnenrol(e.device)
    ensures e.action == AccountDeleted ==> req == DoDelete(e.account)
  {
    assert Step(uuid, t, req).next.audit[|t.audit|] == e;
  }

  /** A redeem's row is for its caller, who had no access, on its invite's device. */
  lemma RedeemSource(uuid: Cast, t: Tables, req: Request, e: Event)
    requires Step(uuid, t, req).next.audit == t.audit + [e] && e.action == InviteRedeemed
    ensures req.DoRedeem? && req.code in t.invites && e.device == t.invites[req.code].device && e.account == req.actor
    ensures !IsActive(t.bindings, e.device, e.account)
  {
    assert Step(uuid, t, req).next.audit[|t.audit|] == e;
  }
}
