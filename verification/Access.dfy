/** The control plane's tables and its transactions, each as one atomic step.

    A handler runs inside one database transaction: it either commits all its writes together
    with one audit row, or changes nothing. Here a transaction is a function from the tables to
    a reply and the tables after it. `ControlPlane` runs the same handlers statement by
    statement, and `RowLock` and `Invites` interleave their statements. */
module Access {
  import opened Common
  import AppNames

  /** PostgreSQL's text to uuid cast. Several spellings name one account, and the canonical
      spelling names itself. */
  type Cast = string -> Option<string>

  ghost predicate Canonicalises(uuid: Cast) {
    forall s :: uuid(s).Some? ==> uuid(uuid(s).value) == uuid(s)
  }

  datatype Role = Admin | Guest
  datatype Status = Active | Disabled

  /** A device_users row. `since` is the position in the audit log of the event that created the
      row. It stands for created_at, which the row keeps when it is re-admitted. */
  datatype Binding = Binding(role: Role, active: bool, since: nat)
  type Row = (string, string)  // device, account
  type Bindings = map<Row, Binding>

  datatype Invite = Invite(
    device: string, creator: string, role: Role, expires: int, used: bool, usedBy: Option<string>)
  datatype Token = Token(account: string, expires: int, used: bool)

  datatype Action =
    | AccountDeleted | DeviceEnrolled | DeviceDisabled | DeviceUnenrolled | BindingRevoked
    | DeviceRemoved | AppsSynced | InviteCreated | InviteRedeemed | SubscriptionChanged
    | TunnelConnected | TunnelDisconnected | RemoteDenied

  datatype Event = Event(device: string, actor: string, action: Action, account: string, role: Option<Role>)

  datatype Tables = Tables(
    accounts: set<string>,
    devices: map<string, Status>,
    bindings: Bindings,
    invites: map<string, Invite>,
    tokens: map<string, Token>,
    apps: map<string, set<string>>,
    suspended: set<string>,
    audit: seq<Event>,
    clock: int)

  const EMPTY := Tables({}, map[], map[], map[], map[], map[], {}, [], 0)

  datatype Code =
    | Ok | Unauthorized | BadRequest | NotFound | LastAdmin | AdminLeave | DeviceOff
    | Invalid | CreatorRevoked | AlreadyBound | ServerError

  datatype Reply = Reply(code: Code, next: Tables)

  const ENROL_TOKEN_TTL := 600
  const MAX_INVITE_TTL := 7 * 24 * 3600

  // ----- reading the tables

  predicate IsActive(b: Bindings, device: string, account: string) {
    (device, account) in b && b[(device, account)].active
  }

  predicate ActiveAdmin(b: Bindings, device: string, account: string) {
    IsActive(b, device, account) && b[(device, account)].role == Admin
  }

  function Admins(b: Bindings, device: string): (s: set<string>)
    ensures forall a :: a in s <==> ActiveAdmin(b, device, a)
  {
    set r: Row | r in b && r.0 == device && ActiveAdmin(b, device, r.1) :: r.1
  }

  // ----- writing them

  /** INSERT ... ON CONFLICT DO UPDATE on device_users: the row keeps its creation time. */
  function Admit(b: Bindings, row: Row, role: Role, now: nat): Bindings {
    b[row := Binding(role, true, if row in b then b[row].since else now)]
  }

  function RevokeRow(b: Bindings, row: Row): Bindings {
    if row in b then b[row := b[row].(active := false)] else b
  }

  function RevokeAll(b: Bindings, device: string): Bindings {
    map row | row in b :: if row.0 == device then b[row].(active := false) else b[row]
  }

  function ForgetAccount(b: Bindings, account: string): Bindings {
    map row | row in b && row.1 != account :: b[row]
  }

  function ForgetInvites(invites: map<string, Invite>, account: string): map<string, Invite> {
    map c | c in invites && invites[c].creator != account ::
      if invites[c].usedBy == Some(account) then invites[c].(usedBy := None) else invites[c]
  }

  function ForgetTokens(tokens: map<string, Token>, account: string): map<string, Token> {
    map k | k in tokens && tokens[k].account != account :: tokens[k]
  }

  // ----- the audit log

  predicate SafeToken(s: string) {
    s != "" && forall i :: 0 <= i < |s| ==> s[i] != '/' && s[i] != '\\' && s[i] != '\0'
  }

  /** What appendAudit accepts: no field can carry a path. */
  predicate Recordable(e: Event) {
    && (e.device == "" || SafeToken(e.device))
    && SafeToken(e.actor)
    && (e.account == "" || SafeToken(e.account))
  }

  function Refuse(t: Tables, code: Code): Reply {
    Reply(code, t)
  }

  /** The end of a transaction: the audit row is written last, and failing to write it rolls
      everything back. */
  function Commit(before: Tables, after: Tables, e: Event, onError: Code): Reply {
    if Recordable(e) then Reply(Ok, after.(audit := before.audit + [e])) else Refuse(before, onError)
  }

  // ----- the handlers

  function Revoke(uuid: Cast, t: Tables, actor: string, device: string, target: string): Reply {
    if actor !in t.accounts then Refuse(t, Unauthorized)
    else if !SafeToken(device) || !SafeToken(target) || device !in t.devices then Refuse(t, NotFound)
    else if !ActiveAdmin(t.bindings, device, actor) then Refuse(t, NotFound)
    else match uuid(target)
      case None => Refuse(t, NotFound)
      case Some(account) =>
        if !IsActive(t.bindings, device, account) then Refuse(t, NotFound)
        else
          var role := t.bindings[(device, account)].role;
          if role == Admin && |Admins(t.bindings, device)| <= 1 then Refuse(t, LastAdmin)
          else Commit(t, t.(bindings := RevokeRow(t.bindings, (device, account))),
                      Event(device, actor, BindingRevoked, target, Some(role)), NotFound)
  }

  function Leave(t: Tables, actor: string, device: string): Reply {
    if actor !in t.accounts then Refuse(t, Unauthorized)
    else if !SafeToken(device) || device !in t.devices then Refuse(t, NotFound)
    else if !IsActive(t.bindings, device, actor) then Refuse(t, NotFound)
    else if t.bindings[(device, actor)].role == Admin then Refuse(t, AdminLeave)
    else Commit(t, t.(bindings := RevokeRow(t.bindings, (device, actor))),
                Event(device, actor, BindingRevoked, actor, Some(Guest)), ServerError)
  }

  function Remove(t: Tables, actor: string, device: string): Reply {
    if actor !in t.accounts then Refuse(t, Unauthorized)
    else if !SafeToken(device) || device !in t.devices then Refuse(t, NotFound)
    else if !ActiveAdmin(t.bindings, device, actor) then Refuse(t, NotFound)
    else Commit(t, t.(bindings := RevokeAll(t.bindings, device)),
                Event(device, actor, DeviceRemoved, actor, None), ServerError)
  }

  /** `device` is the id the schema derives from the key that signed the request. */
  function Enrol(t: Tables, device: string, token: string): Reply {
    if token !in t.tokens || t.tokens[token].used || t.tokens[token].expires <= t.clock then Refuse(t, Unauthorized)
    else if device in t.devices && t.devices[device] == Disabled then Refuse(t, DeviceOff)
    else
      var account := t.tokens[token].account;
      var row := (device, account);
      Commit(t,
             t.(tokens := t.tokens[token := t.tokens[token].(used := true)],
                devices := t.devices[device := Active],
                bindings := if IsActive(t.bindings, device, account) then t.bindings
                            else Admit(t.bindings, row, Admin, |t.audit|)),
             Event(device, account, DeviceEnrolled, account, Some(Admin)), ServerError)
  }

  function Unenrol(t: Tables, device: string): Reply {
    if device !in t.devices then Reply(Ok, t)
    else Commit(t, t.(bindings := RevokeAll(t.bindings, device)),
                Event(device, device, DeviceUnenrolled, "", None), ServerError)
  }

  function Disable(t: Tables, actor: string, device: string): Reply {
    if actor !in t.accounts then Refuse(t, Unauthorized)
    else if !SafeToken(device) || device !in t.devices || !ActiveAdmin(t.bindings, device, actor)
      then Refuse(t, NotFound)
    else Commit(t, t.(devices := t.devices[device := Disabled]),
                Event(device, actor, DeviceDisabled, actor, None), ServerError)
  }

  function CreateInvite(t: Tables, actor: string, device: string, code: string, role: Role, ttl: int): Reply {
    if actor !in t.accounts then Refuse(t, Unauthorized)
    else if !SafeToken(device) then Refuse(t, NotFound)
    else if !(0 < ttl <= MAX_INVITE_TTL) then Refuse(t, BadRequest)
    else if device !in t.devices || !ActiveAdmin(t.bindings, device, actor) then Refuse(t, NotFound)
    else if t.devices[device] != Active then Refuse(t, DeviceOff)
    else if code in t.invites then Refuse(t, ServerError)
    else Commit(t, t.(invites := t.invites[code := Invite(device, actor, role, t.clock + ttl, false, None)]),
                Event(device, actor, InviteCreated, actor, Some(role)), ServerError)
  }

  function Redeem(t: Tables, actor: string, code: string): Reply {
    if actor !in t.accounts then Refuse(t, Unauthorized)
    else if code !in t.invites || t.invites[code].used || t.invites[code].expires <= t.clock
            || t.invites[code].device !in t.devices then Refuse(t, Invalid)
    else
      var i := t.invites[code];
      if t.devices[i.device] != Active then Refuse(t, DeviceOff)
      else if !ActiveAdmin(t.bindings, i.device, i.creator) then Refuse(t, CreatorRevoked)
      else if IsActive(t.bindings, i.device, actor) then Refuse(t, AlreadyBound)
      else Commit(t,
                  t.(invites := t.invites[code := i.(used := true, usedBy := Some(actor))],
                     bindings := Admit(t.bindings, (i.device, actor), i.role, |t.audit|)),
                  Event(i.device, actor, InviteRedeemed, actor, Some(i.role)), ServerError)
  }

  /** The cascades of the accounts table's foreign keys: bindings, tokens and the invites the
      account created go, and an invite it redeemed forgets who did. */
  function DeleteAccount(t: Tables, actor: string): Reply {
    if actor !in t.accounts then Refuse(t, Unauthorized)
    else Commit(t,
                t.(accounts := t.accounts - {actor},
                   bindings := ForgetAccount(t.bindings, actor),
                   invites := ForgetInvites(t.invites, actor),
                   tokens := ForgetTokens(t.tokens, actor),
                   suspended := t.suspended - {actor}),
                Event("", actor, AccountDeleted, actor, None), ServerError)
  }

  predicate ValidAppList(names: seq<string>) {
    |names| <= AppNames.MAX_APPS && AppNames.Distinct(names) && forall n :: n in names ==> AppNames.Valid(n)
  }

  function SyncApps(t: Tables, device: string, names: seq<string>): Reply {
    if !ValidAppList(names) then Refuse(t, BadRequest)
    else if device !in t.devices then Refuse(t, NotFound)
    else if t.devices[device] != Active then Refuse(t, DeviceOff)
    else Commit(t, t.(apps := t.apps[device := set n | n in names]),
                Event(device, device, AppsSynced, "", None), ServerError)
  }

  function SetSubscription(uuid: Cast, t: Tables, target: string, active: bool): Reply {
    match uuid(target)
    case None => Refuse(t, NotFound)
    case Some(account) =>
      if account !in t.accounts then Refuse(t, NotFound)
      else Commit(t, t.(suspended := if active then t.suspended - {account} else t.suspended + {account}),
                  Event("", target, SubscriptionChanged, target, None), NotFound)
  }

  /** A refused remote request. A row that cannot be written is logged, and the refusal stands. */
  function Denied(t: Tables, actor: string, device: string): Reply {
    Commit(t, t, Event(device, actor, RemoteDenied, actor, None), ServerError)
  }

  /** The record of a tunnel that came up or went down. */
  function TunnelRow(t: Tables, device: string, up: bool): Reply {
    Commit(t, t, Event(device, device, if up then TunnelConnected else TunnelDisconnected, "", None), ServerError)
  }

  /** Some row of the log names the account. */
  predicate Named(log: seq<Event>, account: string) {
    exists i :: 0 <= i < |log| && log[i].account == account
  }

  // ----- runs

  datatype Request =
    | DoSignUp(account: string)
    | DoMintToken(actor: string, token: string)
    | DoEnrol(device: string, token: string)
    | DoUnenrol(device: string)
    | DoDisable(actor: string, device: string)
    | DoRevoke(actor: string, device: string, target: string)
    | DoLeave(actor: string, device: string)
    | DoRemove(actor: string, device: string)
    | DoCreateInvite(actor: string, device: string, code: string, role: Role, ttl: int)
    | DoRedeem(actor: string, code: string)
    | DoSyncApps(device: string, names: seq<string>)
    | DoSetSubscription(target: string, active: bool)
    | DoDelete(actor: string)
    | DoDenied(actor: string, device: string)
    | DoTunnelRow(device: string, up: bool)
    | DoTick(seconds: nat)

  function Step(uuid: Cast, t: Tables, req: Request): Reply {
    match req
    case DoSignUp(account) =>
      // The database picks the id at random, so it is a canonical uuid that no account has or had.
      if account in t.accounts || Named(t.audit, account) || uuid(account) != Some(account) || !SafeToken(account)
      then Refuse(t, ServerError)
      else Reply(Ok, t.(accounts := t.accounts + {account}))
    case DoMintToken(actor, token) =>
      if actor !in t.accounts then Refuse(t, Unauthorized)
      else if token in t.tokens then Refuse(t, ServerError)
      else Reply(Ok, t.(tokens := t.tokens[token := Token(actor, t.clock + ENROL_TOKEN_TTL, false)]))
    case DoEnrol(device, token) => Enrol(t, device, token)
    case DoUnenrol(device) => Unenrol(t, device)
    case DoDisable(actor, device) => Disable(t, actor, device)
    case DoRevoke(actor, device, target) => Revoke(uuid, t, actor, device, target)
    case DoLeave(actor, device) => Leave(t, actor, device)
    case DoRemove(actor, device) => Remove(t, actor, device)
    case DoCreateInvite(actor, device, code, role, ttl) => CreateInvite(t, actor, device, code, role, ttl)
    case DoRedeem(actor, code) => Redeem(t, actor, code)
    case DoSyncApps(device, names) => SyncApps(t, device, names)
    case DoSetSubscription(target, active) => SetSubscription(uuid, t, target, active)
    case DoDelete(actor) => DeleteAccount(t, actor)
    case DoDenied(actor, device) =>
      if actor !in t.accounts then Refuse(t, Unauthorized) else Denied(t, actor, device)
    case DoTunnelRow(device, up) => TunnelRow(t, device, up)
    case DoTick(seconds) => Reply(Ok, t.(clock := t.clock + seconds))
  }

  /** The tables after a run of requests on a new database. */
  function Run(uuid: Cast, reqs: seq<Request>): Tables {
    if reqs == [] then EMPTY
    else Step(uuid, Run(uuid, reqs[..|reqs| - 1]), reqs[|reqs| - 1]).next
  }
}
