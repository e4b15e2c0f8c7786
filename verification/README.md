# Anywhere-File: a Dafny model of its access protocol and its agent

A PC runs an agent that shares applications. A control plane lets accounts reach that PC from
elsewhere. This project models the parts of both where correctness is hard to see from one function
at a time, and proves what they keep over every run and every interleaving.

`dafny verify dfyconfig.toml` checks the whole project.

## How it is laid out

| file | what it models |
|---|---|
| `Access.dfy`, `AccessProofs.dfy` | the server's tables, each transaction as one atomic step, and what every run keeps |
| `Authority.dfy` | who was allowed to do what the audit log records, over every run |
| `ControlPlane.dfy` | the same handlers as an object that runs SQL statements one after another, any of which can err |
| `RowLock.dfy`, `Invites.dfy` | the statements of revoke, leave and remove, and of redeem, interleaved freely with everything else under READ COMMITTED |
| `RowLockAnswers.dfy`, `RowLockAdmins.dfy` | what those schedules answer, whom a removal misses, and the last admin |
| `Locks.dfy`, `AuditIds.dfy` | who waits for whose row locks, and the audit log in the order its readers see |
| `RowLockLog.dfy`, `InviteLog.dfy` | when that log tells what the bindings table says |
| `RevokeRaces.dfy`, `RedeemRaces.dfy` | schedules, from an empty database, that show the races are real |
| `Enrolment.dfy`, `Login.dfy`, `EnrolmentTables.dfy` | browser enrolment, the agent's sign in composed with it over a network that loses requests and replies, and its tie to the tables |
| `Routing.dfy`, `Owners.dfy`, `Tunnels.dfy` | who a remote request is let through for, who pays for the device, and the registry of live tunnels |
| `Reports.dfy`, `ReportFlow.dfy`, `ReportBytes.dfy` | the agent's error report queue: its bytes, its lines under concurrency, and that the first follow the second |
| `RateLimiter.dfy`, `DeviceSig.dfy`, `LogFile.dfy` | the sliding window limiter, signed requests and their nonces, the rotating log |
| `Shares.dfy`, `Supervisor.dfy` | the registry of shares, how a folder gets a name, and the children the registry keeps running |
| `DnsNames.dfy`, `Discovery.dfy` | the client's DNS name reader, the TXT record from agent to client, and the device list |
| `Common.dfy`, `AppNames.dfy` | shared vocabulary |

Code that changes things in place is a class whose methods are proved against specification functions.
Transactions, handlers and goroutines that interleave are state machines: a schedule is any sequence
of enabled actions, and results hold after every schedule.

## What the proofs found

Each of these is a place where the code does less than its comments or its neighbours suggest. The
code is modelled as it is, and the exact condition is proved.

- `revokeBinding` records its target as the caller spelled it (`hosted/control-plane/bindings.go:185-186`)
  while the UPDATE casts it to a uuid. Replaying the log with the cast always gives the bindings table
  (`AccessProofs.BindingsAreTheReplay`). A reader that compares text follows a committed revoke exactly
  when the spelling was canonical (`TextReplayFollowsRevoke`), and `TextReplayCanDisagree` is a run where
  it does not.
- Deleting an account keeps an admin on every reachable device exactly when the account is not the only
  admin of a device somebody else can reach (`DeletionKeepsAdminsIff`, `DeletionCanStrand`). The page that
  offers the deletion says so (`hosted/control-plane/web.go:235-238`); nothing in the handler checks it.
- The comment on `remoteRequest` calls the paying account the first admin the device ever had. The query
  picks the oldest row whose role is admin now. The two agree exactly while the first admin's account
  exists and its row still has that role (`Owners.OwnerIsFirstAdminIff`), and
  `Owners.OwnerCanBeSomebodyElse` is a run where they do not.
- Every remote request leaves one sample, unless the response body breaks off half way: the reverse proxy
  then panics, which skips the final `finish` (`Routing.Router.RemoteRequest`). A refusal caused by a
  failing query is counted as a bad target, and unlike other bad targets it is audited.
- The second look that explains a revoke or leave which found no row is wrong exactly when the UPDATE
  would find the row now (`RowLockAnswers.RefusalIsAtomicIff`). The device row's lock keeps everybody out
  but a redeem that lets a revoked account back in on the row it had, so only that can make it wrong
  (`RowLockAnswers.OnlyReadmissionsMislead`). `RevokeRaces.ExplanationCanBeOvertaken` is a schedule where
  "last admin" is answered and the atomic revoke would go through.
- A removal revokes the rows that are active at its UPDATE, and misses whoever is let back in after that,
  and nobody else (`RowLockAnswers.OnlyReadmissionsAreMissed`). What it leaves keeps an admin on the
  device exactly when nobody was missed or an admin was (`RowLockAdmins.CommitKeepsAdminsIff`).
- Read by id, which a row is given when it is inserted, the log goes on telling what the table says after
  a removal exactly when nobody who was let back in before the removal's audit row was missed
  (`RowLockLog.CommitIsReplayedIff`). `RevokeRaces.RemovalCanMissOne` is a schedule where the log says
  that "b" has no access, and it has. Letting "b" back in after the audit row leaves the log right, and
  "b" alone on the device (`RevokeRaces.RemovalCanMissOneOnRecord`).
- After a redeem the log by id goes on telling what the table says exactly when no sign out and no removal
  of the device was recorded between the redeem's audit row and its commit (`InviteLog.CommitIsReplayedIff`).
  Neither sees the row that is about to be turned on, and `RedeemRaces.SignOutCanMissOne` is a schedule.
- A redeem's UPDATE looks at `used_at` again and at nothing else, so its commit is the atomic redeem
  exactly when the invite's expiry, the device's status, the creator and the redeemer are still as its
  SELECT wants them (`Invites.CommitIsAtomicIff`). Two schedules show what follows. A redeem can be
  recorded after its device was disabled (`RedeemRaces.RedeemCanFollowDisable`), and then its SELECT came
  before the disable (`Invites.RedeemedAfterDisable`). A redeem can leave a guest on a device with no
  admin (`RedeemRaces.RedeemCanStrand`), exactly when the invite is for a guest and nobody but the
  redeemer administers the device any more (`Invites.CommitKeepsAdminsIff`). The redeemer counts as nobody
  because a guest invite takes the admin role from an account that enrolled the device after the SELECT.
- A refused redeem is answered as the atomic one exactly when the redeemer's account was not deleted after
  its session was looked up (`Invites.RefusalIsAtomicIff`).
- A signed request can be accepted twice exactly when it is first accepted at the first instant its
  timestamp allows and again at the last (`DeviceSig.ReplayRefused`, `BoundaryReplay`).
- With a limit of zero or less the rate limiter stores an empty list for a key it has just refused, so a
  stored key has a hit less than two windows old exactly when the limit is positive
  (`RateLimiter.Limiter.Allow`).
- A log file outgrows its limit for more than one write only after the rename of the current file has
  failed, and a write that fills up behind such a rename does outgrow it (`LogFile.Log.WriteLog`).
- The client's name reader takes length bytes 64 to 191 for labels, which section 4.1.4 of RFC 1035
  reserves. `DnsNames` describes what it reads, reserved lengths included.

## Model

| member | source | states |
|---|---|---|
| `AccessProofs.BindingsAreTheReplay` | hosted/control-plane/audit.go:98-130 | after every run the bindings table, with role, active flag and creation order, is the replay of the audit log |
| `AccessProofs.StepIsLogged` | hosted/control-plane/bindings.go:154-187 | every transaction writes at most one audit row, and that row alone says what it did to the bindings |
| `AccessProofs.AuditOnlyGrows` | hosted/control-plane/audit.go:95-98 | the log after a prefix of a run is a prefix of the log after the run |
| `AccessProofs.ReplayIsLastEvent` | hosted/control-plane/audit.go:98-130 | for every log, replaying it forwards and scanning it backwards for the last grant or end agree on who is active |
| `AccessProofs.ActiveIffLastEventGrants` | hosted/control-plane/audit.go:98-130 | in every run a binding is active exactly when the newest audit row about it is a grant |
| `AccessProofs.TextReplayFollowsRevoke` | hosted/control-plane/bindings.go:162-186 | a reader without the uuid cast follows a committed revoke if and only if the target was spelled canonically |
| `AccessProofs.TextReplayCanDisagree` | hosted/control-plane/bindings.go:162-186 | a reachable state and a revoke after which the text reader still grants access that is gone |
| `AccessProofs.EveryRunIsAdministered` | hosted/control-plane/bindings.go:162-167 | without account deletions every device with an active binding has an active admin, in every run |
| `AccessProofs.RevokeKeepsAdmins` | hosted/control-plane/bindings.go:154-187 | a revoke, refused or committed, never leaves guests without an admin |
| `AccessProofs.LeaveKeepsAdmins` | hosted/control-plane/bindings.go:224-253 | a leave never leaves guests without an admin |
| `AccessProofs.GrantKeepsAdmins` | hosted/control-plane/invite.go:181-208 | an atomic enrol or redeem only binds accounts to a device that then has an admin |
| `AccessProofs.DeletionKeepsAdminsIff` | hosted/control-plane/delete.go:56-71 | account deletion keeps that property if and only if the account is not the only admin of a device others can reach |
| `AccessProofs.DeletionCanStrand` | hosted/control-plane/web.go:235-238 | a reachable state where deletion leaves a guest on a device with no admin |
| `AccessProofs.RoleIsStable` | hosted/control-plane/enrol.go:153-161 | while a binding stays active its role and creation order do not change, whatever runs |
| `AccessProofs.ForeignKeysHold` | hosted/control-plane/migrations/0001_schema.up.sql:76-103 | in every run bindings, tokens and invites belong to accounts and devices that exist, and only a used invite names a redeemer |
| `Authority.EveryEventIsAuthorised` | hosted/control-plane/bindings.go:159-186 | in every run of atomic transactions each audit row was written by somebody the rows before it give that right: an active admin, a guest about itself, an account about itself, and a revoked admin was not the last |
| `Authority.StepIsAuthorised` | hosted/control-plane/enrol.go:199-214 | a request writes at most one row, legitimate for the bindings the request found |
| `Authority.NothingAfterDisable` | hosted/control-plane/enrol.go:150-152 | in every run of atomic transactions, after a device is disabled no enrolment, invite, redeem or sync of it is recorded |
| `Authority.OffStaysOff` | hosted/control-plane/enrol.go:186-214 | no request turns a disabled device back on |
| `Authority.AdmissionsArePaid` | hosted/control-plane/invite.go:96-117 | conservation: redeems of a device in a role, plus its unused invites in that role, never exceed the invites created for it |
| `ControlPlane.Server.AppendAudit` | hosted/control-plane/audit.go:98-130 | appends exactly one row, or nothing when a field could carry a path or the INSERT errs |
| `ControlPlane.Server.UpdateUnlessLastAdmin` | hosted/control-plane/bindings.go:162-167 | revokes an active binding unless it is the last admin's, and returns its role |
| `ControlPlane.Server.RevokeBinding` | hosted/control-plane/bindings.go:140-203 | whichever statement errs, either the atomic revoke, answer and tables, or a 404 and nothing changed, and never "ok" after an error |
| `ControlPlane.Server.LeaveDevice` | hosted/control-plane/bindings.go:210-268 | whichever statement errs, either the atomic leave or a 500 and nothing changed |
| `ControlPlane.Server.RemoveDevice` | hosted/control-plane/bindings.go:275-311 | whichever statement errs, either the atomic removal or an error and nothing changed; an error in the admin check is a 404 |
| `ControlPlane.Server.EnrolDevice` | hosted/control-plane/enrol.go:132-177 | whichever statement errs, the token is spent with the binding and the audit row written, or all three stay as they were |
| `ControlPlane.Server.UnenrolDevice` | hosted/control-plane/enrol.go:427-460 | whichever statement errs, either the atomic unenrol or a 500 and nothing changed |
| `ControlPlane.Server.RedeemInvite` | hosted/control-plane/invite.go:163-228 | whichever statement errs, the invite is consumed with the binding and the audit row written, or all three stay as they were |
| `ControlPlane.Server.RunAccountDeletion` | hosted/control-plane/delete.go:56-71 | whichever statement errs, the audit row and all cascades or nothing, and the count of bindings that went |
| `RowLock.ScheduleIsSerial` | hosted/control-plane/bindings.go:154-187 | after every statement-level schedule of revokes, leaves, removals and other handlers whose removals commit undisturbed, the tables are those of a serial run in commit order |
| `RowLock.RevokesAreSerial` | hosted/control-plane/bindings.go:154-187 | in particular after every schedule without removals |
| `RowLock.OneAtATime` | hosted/control-plane/bindings.go:155-158 | at most one transaction per device is between taking the row lock and ending |
| `RowLock.CommitIsAtomicIff` | hosted/control-plane/bindings.go:288-303 | a commit has the effect and the answer of the atomic transaction at that moment, if and only if it is no removal that found the device emptied or missed somebody |
| `RowLockAdmins.EveryScheduleIsAdministered` | hosted/control-plane/bindings.go:162-167 | in every schedule, sign outs and removals included, every device somebody can reach has an admin, as long as no removal misses guests alone |
| `RowLockAdmins.CommitKeepsAdminsIff` | hosted/control-plane/bindings.go:288-303 | a commit keeps that if and only if it misses nobody or an admin; a revoke and a leave always do |
| `RowLockAdmins.LastAdminStays` | hosted/control-plane/bindings.go:162-167 | a device that has an active admin has one at every later point, until it is removed or signs out |
| `RowLockAnswers.RefusalIsAtomicIff` | hosted/control-plane/bindings.go:168-181 | a refusal gives the atomic transaction's answer if and only if it is not the second look while the UPDATE's WHERE clause holds now |
| `RowLockAnswers.OnlyReadmissionsMislead` | hosted/control-plane/bindings.go:168-181 | unless somebody is let back in between the UPDATE and the second look, whatever else happens there, the answer is the atomic one |
| `RowLockAnswers.OnlyReadmissionsAreMissed` | hosted/control-plane/bindings.go:288-303 | unless somebody is let back in after its UPDATE, a removal misses nobody, at its audit row and at its commit |
| `RowLockLog.ScheduleIsReplayed` | hosted/control-plane/audit.go:122-128 | in every schedule whose removals insert their audit rows in time, the log by id gives every account the role and the access that the table gives it |
| `RowLockLog.CommitIsReplayedIff` | hosted/control-plane/bindings.go:297-302 | up to there, a commit keeps that if and only if everybody active at its audit row was revoked by it |
| `AuditIds.StandingIsReplay` | hosted/control-plane/audit.go:98-130 | replaying the log binding by binding is replaying the table |
| `AuditIds.PublishedSpares` | hosted/control-plane/migrations/0001_schema.up.sql:142-149 | a commit changes nothing the log says of a binding its rows are not about, whoever else holds a place in the log |
| `RevokeRaces.ExplanationCanBeOvertaken` | hosted/control-plane/bindings.go:168-181 | a schedule whose second look answers "last admin" where the atomic revoke goes through |
| `RevokeRaces.RemovalCanMissOne` | hosted/control-plane/bindings.go:297-302 | a schedule after which a re-admitted guest has access that the log by id says is gone |
| `RevokeRaces.RemovalCanMissOneOnRecord` | hosted/control-plane/bindings.go:297-302 | a schedule after which the log is right and the re-admitted guest is alone on the device |
| `Invites.ConsumedOnce` | hosted/control-plane/invite.go:195-200 | in every schedule, account deletions included, at most one redeem of an invite commits, and used_by is its account until that is deleted |
| `Invites.UsedIffWon` | hosted/control-plane/invite.go:187-200 | an invite is used if and only if some redeem of it answered ok, so refusals and aborts burn nothing |
| `Invites.UsedByStays` | hosted/control-plane/migrations/0003_invite_used_by_release.up.sql:1-18 | a used invite is there exactly as long as its creator, names its redeemer exactly as long as that account exists, and changes in nothing else |
| `Invites.RefusalIsAtomicIff` | hosted/control-plane/invite.go:168-200 | the statement that refuses answers as the atomic redeem if and only if the redeemer's account still exists |
| `Invites.CommitIsAtomicIff` | hosted/control-plane/invite.go:168-211 | a commit is the atomic redeem if and only if what only the SELECT checked still holds |
| `Invites.CommitKeepsAdminsIff` | hosted/control-plane/invite.go:195-208 | a commit keeps an admin on every reachable device if and only if it makes one or somebody other than the redeemer is one |
| `Invites.EveryRowIsExplained` | hosted/control-plane/invite.go:165-211 | in every schedule each row is authorised by the rows committed before it, a redeem's by the rows committed before that redeem's SELECT |
| `Invites.RedeemedAfterDisable` | hosted/control-plane/invite.go:168-183 | a redeem committed after its device was disabled made its SELECT before that |
| `RedeemRaces.RedeemCanFollowDisable` | hosted/control-plane/invite.go:168-211 | a schedule that records a redeem after the device was disabled |
| `RedeemRaces.RedeemCanStrand` | hosted/control-plane/invite.go:168-211 | a schedule that leaves a guest on a device with no admin |
| `Invites.CommitOrderIsReplayed` | hosted/control-plane/invite.go:201-211 | in every such schedule the rows in the order of their commits determine the bindings table |
| `InviteLog.ScheduleIsReplayed` | hosted/control-plane/invite.go:209-211 | in every schedule whose redeems commit in time, the log by id gives every account the role and the access that the table gives it |
| `InviteLog.CommitIsReplayedIff` | hosted/control-plane/invite.go:201-211 | up to there, a redeem's commit keeps that if and only if no sign out or removal of the device was recorded after its audit row |
| `RedeemRaces.SignOutCanMissOne` | hosted/control-plane/enrol.go:440-446 | a schedule after which a guest has access that the log by id says is gone, because a sign out came between |
| `Enrolment.AnsweredOnce` | hosted/control-plane/enrol.go:406-417 | a code leaves pending at most once and keeps its answer for ever, and its row says so as long as there is one |
| `Enrolment.MintedForTheAsker` | hosted/control-plane/enrol.go:354-373 | an approval mints one token, collected by the key that asked, for the account that answered, whatever rows are deleted later |
| `Enrolment.SpentOnce` | hosted/control-plane/enrol.go:134-142 | a token enrols one key for its own account and is refused ever after |
| `Enrolment.NoTokenFromRefusedOrExpired` | hosted/control-plane/enrol.go:328-360 | a code that was refused, or expired or was deleted uncollected, never yields a token |
| `Enrolment.NothingAfterDeletion` | hosted/control-plane/migrations/0002_enrolment_tokens.up.sql:3-10 | once an account is deleted no token minted for it enrols anything |
| `Enrolment.CallsEvolve` | hosted/control-plane/migrations/0004_device_enrolments.up.sql:8-18 | over any calls by anybody, account deletion included, what was asked, answered, minted and enrolled is permanent, and rows that went stay gone |
| `EnrolmentTables.EnrolIsTheTransaction` | hosted/control-plane/enrol.go:132-177 | spending a token in the protocol is the enrol transaction, and leaves the account bound in the tables |
| `EnrolmentTables.CollectIsTheTransaction` | hosted/control-plane/enrol.go:368-372 | collecting writes the token that minting for the approving account writes |
| `EnrolmentTables.DeleteIsTheTransaction` | hosted/control-plane/delete.go:67-68 | deleting an account takes the same tokens along in the protocol and in the tables |
| `Login.PollUntilAnswered` | device/agent/login.go:134-169 | stops at the first answer that is not "ask again", asks nothing after it, and waits the longest interval it was told so far |
| `Login.EnrolledMeansApproved` | device/agent/login.go:62-175 | in every run, with any calls by others and account deletion among them, an enrolled agent holds its own id, and the server committed an enrolment of its key for the account that approved its code |
| `Login.NoPollAfterFinalAnswer` | device/agent/login.go:147-151 | no schedule makes a sign in poll again after a 4xx other than 429 |
| `Login.OnlyFinalAnswersStop` | device/agent/login.go:152-168 | a lost reply, a rate limit, a server error and "pending" lead back to polling |
| `Routing.Router.Finish` | hosted/control-plane/routing.go:49-56 | a request is measured at most once |
| `Routing.Router.Deny` | hosted/control-plane/routing.go:58-75 | one denial, at most one sample, and the audit row of a refused request when there is somebody to name |
| `Routing.Router.SelectOwner` | hosted/control-plane/routing.go:102-107 | the oldest row with the admin role, if there is one |
| `Routing.Router.FirstRefusal` | hosted/control-plane/routing.go:77-133 | no refusal if and only if the tables allow the request and no query errs, else the first check that fails |
| `Routing.Router.RemoteRequest` | hosted/control-plane/routing.go:38-177 | forwards if and only if everything holds and no query errs, with exactly one sample except when the body breaks off, and with the audit row exactly for refusals that have a session and a valid target |
| `Routing.AllowedMeans` | hosted/control-plane/routing.go:95-138 | over all runs, denials and tunnel records included, a request passes if and only if the newest binding event is a grant, the app is in the last sync, the owner is not suspended and a tunnel is up |
| `Routing.AppsAreTheLastSync` | hosted/control-plane/apps.go:105-116 | in every run the apps of a device are those of its last accepted sync |
| `Routing.SinceHolds` | hosted/control-plane/routing.go:102-107 | in every run each row is dated by the grant that created it, so a device has one owner |
| `Owners.OwnerIsFirstAdminIff` | hosted/control-plane/routing.go:95-107 | in every run, deletions included, the owner is the first admin ever if and only if that account's row is still there with the admin role |
| `Owners.FirstIsEnrolment` | hosted/control-plane/enrol.go:153-161 | in every run the first grant on a device is an enrolment |
| `Owners.OwnerCanBeSomebodyElse` | hosted/control-plane/routing.go:95-107 | a run after which the first admin is not the owner |
| `Tunnels.Registry.Put` | hosted/control-plane/tunnel.go:83-89 | registers a tunnel and returns the one it displaced |
| `Tunnels.Registry.Drop` | hosted/control-plane/tunnel.go:94-102 | removes a tunnel only if it is still the live one |
| `Tunnels.Registry.CloseDevice` | hosted/control-plane/bindings.go:312-316 | closes the device's live tunnel and no other |
| `Tunnels.OneFateEach` | hosted/control-plane/tunnel.go:229-245 | in every interleaving each tunnel is exactly one of live, displaced or dropped, with at most one record of each kind |
| `Tunnels.DisplacedDropKeepsReplacement` | hosted/control-plane/tunnel.go:91-102 | a displaced tunnel's drop leaves the registry as it was |
| `Tunnels.FateIsFinal` | hosted/control-plane/tunnel.go:83-102 | displaced stays displaced by the same tunnel, dropped stays dropped |
| `Tunnels.ConnectsMinusDisconnects` | hosted/control-plane/tunnel.go:117-121 | with no record outstanding, connects minus disconnects is the count, and every ended tunnel has one disconnect |
| `Reports.TrimBytes` | device/agent/reports.go:95-109 | the byte loop drops whole lines from the front until three quarters of the cap |
| `Reports.TrimmedIsLongest` | device/agent/reports.go:93-107 | what is kept is the longest line-aligned suffix that fits |
| `Reports.BatchIsLongest` | device/agent/reports.go:139-147 | a batch is the longest line-aligned prefix within one upload, and not empty when the file is not |
| `Reports.BatchLines` | device/agent/reports.go:139-147 | the batch cut out of the bytes is the lines that fit |
| `Reports.PrefixIffLines` | device/agent/reports.go:172-174 | a batch is a prefix of the bytes if and only if it is a prefix of the lines, and removing either is the same |
| `Reports.LinesFlat` | device/agent/reports.go:149-154 | lines written one after another are read back as those lines |
| `Reports.Queue.Add` | device/agent/reports.go:66-91 | the file stays whole lines within the cap: the new line at the end, the oldest gone when it was full |
| `Reports.Queue.Flush` | device/agent/reports.go:120-177 | what was posted followed by what is left is what was there, and an accepting server empties the file |
| `ReportFlow.NothingGoesMissing` | device/agent/reports.go:66-177 | in every interleaving what was queued is, in order, what left and what is in the file; what left was trimmed, sent or discarded; what the server accepted is what left as sent, what is about to and what goes again; nothing goes again without a trim |
| `ReportFlow.CutOnlyResends` | device/agent/reports.go:169-175 | at every moment of a post the batch is what was cut of it, in order, followed by lines at the front of the file; a batch that cannot be removed was cut, and exactly its uncut rest goes again |
| `ReportBytes.BytesAreTheLines` | device/agent/reports.go:66-177 | after every interleaving the file's bytes are those lines, within the cap, and the batch on its way is that batch |
| `RateLimiter.NoWindowOverLimit` | hosted/control-plane/ratelimit.go:33-56 | no window, wherever it ends, holds more than the limit of admitted hits of a key |
| `RateLimiter.LiveLater` | hosted/control-plane/ratelimit.go:44-49 | forgetting what no longer counts changes no later count |
| `RateLimiter.CountLive` | hosted/control-plane/ratelimit.go:66-71 | the sweep's loop counts the hits that still count |
| `RateLimiter.FilterLive` | hosted/control-plane/ratelimit.go:44-49 | the filter keeps those hits in order |
| `RateLimiter.Limiter.Sweep` | hosted/control-plane/ratelimit.go:60-76 | drops idle keys at most once per window and changes no count |
| `RateLimiter.Limiter.Allow` | hosted/control-plane/ratelimit.go:38-56 | answers as the limiter with the whole history, keeps at most the limit of hits a key, and none two windows old if and only if the limit is positive |
| `DeviceSig.JoinInjective` | internal/devicesig/devicesig.go:93-96 | joining newline-free fields with newlines loses nothing |
| `DeviceSig.PayloadInjective` | internal/devicesig/devicesig.go:93-96 | a payload determines every field it covers, up to the hash of the body |
| `DeviceSig.VerifiedMeansSigned` | internal/devicesig/devicesig.go:61-91 | a request that verifies under a signature is the request that was signed, timestamp text included |
| `DeviceSig.SignedVerifies` | internal/devicesig/devicesig.go:49-57 | a request signed at a time verifies if and only if that time is within the skew |
| `DeviceSig.ParseFormat` | internal/devicesig/devicesig.go:80-83 | the timestamp the agent writes is read back, for every 64-bit number |
| `DeviceSig.ClaimLasts` | hosted/control-plane/agent.go:26-33 | an accepted nonce stays claimed for its lifetime, whether or not the sweep goes through |
| `DeviceSig.AcceptancesAreApart` | hosted/control-plane/agent.go:16-38 | two acceptances of a nonce are at least its lifetime apart |
| `DeviceSig.ReplayRefused` | hosted/control-plane/agent.go:16-38 | a request accepted twice was accepted first and last at the two ends of its skew window |
| `DeviceSig.BoundaryReplay` | internal/devicesig/devicesig.go:84-86 | at those two instants it is accepted twice |
| `LogFile.RotationKeepsOrder` | device/agent/logfile.go:62-65 | a rotation keeps the order of what is on disk and loses at most the oldest file, whole |
| `LogFile.Rotate` | device/agent/logfile.go:62-65 | the rename loop does that rotation |
| `LogFile.Log.MakeRoom` | device/agent/logfile.go:56-66 | a full file is put aside, or left in place when its rename fails |
| `LogFile.Log.Reopen` | device/agent/logfile.go:39-51 | the recorded size is the length of the file that is opened |
| `LogFile.Log.WriteLog` | device/agent/logfile.go:53-75 | the files are the stream minus whole oldest files, each within the limit or one write unless a rename of the current file failed |
| `Shares.Validate` | device/agent/state.go:108-161 | accepts exactly the valid states |
| `Shares.Hyphenate` | device/agent/settings.go:482-490 | keeps the letters and digits in order, starts with one, and leaves a valid name alone |
| `Shares.BaseName` | device/agent/settings.go:491-497 | a valid name with room for a suffix, made of a prefix of the folder's letters and digits, "share" when there are none |
| `Shares.TriedCount` | device/agent/settings.go:501-504 | the names tried are all different |
| `Shares.FirstFree` | device/agent/settings.go:498-505 | the search ends by pigeonhole at a free name all of whose predecessors are taken |
| `Shares.ShareName` | device/agent/settings.go:481-506 | returns an unused name, valid with up to 98 names taken |
| `Shares.NewShare` | device/agent/settings.go:436-477 | refuses in exactly the listed cases and otherwise returns a valid, unused entry |
| `Shares.NewShareFits` | device/agent/settings.go:436-477 | adding such an entry to a valid registry with room leaves it valid |
| `Supervisor.Children.Start` | device/agent/supervisor.go:104-114 | a loop starts only under a name no live loop has |
| `Supervisor.Children.StopAll` | device/agent/supervisor.go:97-102 | every stale child has returned |
| `Supervisor.Divide` | device/agent/supervisor.go:86-94 | which children have to go and which entries are left to start |
| `Supervisor.Wanted` | device/agent/supervisor.go:76-81 | the entries with a command, by name |
| `Supervisor.Children.Set` | device/agent/supervisor.go:75-115 | runs exactly the entries with a command, keeps unchanged children, starts the rest anew, never two loops of one name |
| `Supervisor.Agent.SetApps` | device/agent/enrol.go:72-100 | file, memory, routes and children change together or not at all, exactly when the list is valid and saved, and unchanged children stay the same ones |
| `Supervisor.Agent.MoveApp` | device/agent/enrol.go:104-114 | goes through exactly when the list with the moved entry is valid and saved, and then replaces that entry and keeps all four in step |
| `Supervisor.MovedIsReplaced` | device/agent/supervisor.go:130-138 | after a move the child of that name is a new one, started with the address the old one moved to |
| `Supervisor.RoutesAreTheRegistry` | device/agent/gateway.go:54-83 | in a valid registry every application has its own route and, with a command, is the one wanted |
| `Supervisor.ChildHasItsRoute` | device/agent/gateway.go:54-83 | a running child was started with the address its route leads to |
| `DnsNames.ReadsWhatIsWritten` | client/common/src/desktopMain/kotlin/io/anywherefile/client/LanDiscovery.kt:178-205 | labels and pointers are read back as the dotted name, cursor just past it in place, if and only if there are fewer than 64 pointers |
| `DnsNames.ReadsOnlyWhatIsWritten` | client/common/src/desktopMain/kotlin/io/anywherefile/client/LanDiscovery.kt:178-205 | whatever is read is laid out in the packet, in fewer than 64 pointers |
| `DnsNames.ReadName` | client/common/src/desktopMain/kotlin/io/anywherefile/client/LanDiscovery.kt:178-205 | the loop ends on every packet and returns that name, lowered |
| `Discovery.AppsTxt` | device/agent/mdns.go:126-140 | the joined names are the longest whole-name prefix within the budget |
| `Discovery.StringsReadBack` | client/common/src/desktopMain/kotlin/io/anywherefile/client/LanDiscovery.kt:207-217 | character-strings are read back as they were written |
| `Discovery.TxtStrings` | client/common/src/desktopMain/kotlin/io/anywherefile/client/LanDiscovery.kt:207-217 | the loop's map holds every string's entry, and a length past the packet is an error |
| `Discovery.SplitJoin` | client/common/src/commonMain/kotlin/io/anywherefile/client/Device.kt:42-42 | splitting at commas undoes joining names that hold none |
| `Discovery.RecordReadBack` | device/agent/mdns.go:117-124 | for every valid state the client reads the same id, name and longest fitting prefix of the apps |
| `Discovery.AnswersAreShown` | client/common/src/commonMain/kotlin/io/anywherefile/client/Device.kt:32-34 | after every history the device shown is its last answer since it was lost, if it has answered |
| `Discovery.Devices.SeenDevice` | client/common/src/commonMain/kotlin/io/anywherefile/client/Device.kt:56-62 | the list stays one entry per device the history owes one |
| `Discovery.Devices.LostDevice` | client/common/src/commonMain/kotlin/io/anywherefile/client/Device.kt:64-66 | the same, for a device that is gone |

## Left out

Assumptions:

- Transactions in `Access` are atomic. Statement-level schedules are proved for revokes, leaves and removals together (`RowLock`) and for redeems (`Invites`), each against the other handlers taken whole, so a redeem and a removal are not both split in one schedule. `createInvite` and `syncApps`, which also read the device's status without a lock, are taken whole everywhere.
- `Tables.audit` holds the rows in the order of their commits. The log by id is `ids` in the two machines, and is the same in runs of atomic transactions.
- Account deletion is in every atomic run except those of the admin property, and in the schedules of `Invites`, `Enrolment` and `Login`. It is not in those of `RowLock`, where it would take the last admin away.
- Account ids and invite codes are random, so an id that a row of the log names is never given out again, and neither is a code or a token.
- The uuid cast is a parameter. Sessions are the account they belong to. Codes, tokens and nonces stand for their hashes. Signatures are ideal and SHA-256 has no collisions.
- created_at is the position in the audit log of the event that created the row. Two rows with one creation time, where the database may pick either owner, are not modelled.
- The clock is monotone, and calls of the rate limiter and of the nonce check take effect in clock order.
- Bytes are characters below 256. UTF-8 decoding and lowercasing beyond A to Z are not modelled.

Weaker than the code in one respect:

- LogFile.Log.WriteLog: a rename of an old file fails only because the file is missing. One that fails for another reason could be overwritten by the next.
- Reports.Queue.Flush: no report is added while it posts. `ReportFlow` has the concurrent case on lines.
- Supervisor.Agent.SetApps: calls run one at a time. The lock is released before the children and routes are changed, so overlapping calls are not modelled.
- RateLimiter.FilterLive: filters a sequence. That the kept slice shares the old slice's memory is not modelled.
- Authority.NothingAfterDisable: holds of atomic transactions. `Invites.RedeemedAfterDisable` has the case where a redeem overlaps the disable; `createInvite` and `syncApps` can overlap it too.
- Authority.EveryEventIsAuthorised: holds of atomic transactions. `Invites.EveryRowIsExplained` has the case where redeems overlap everything else.
- Tunnels.Registry.CloseDevice: looking up the tunnel and closing it are one step.

Not modelled:

- Request body limits and their 400 answers, rate limiting of the routes, and audit details other than the account and the role.
- `newUserCode`, `normalizeUserCode`, `cleanServerURL`, `clientIP`, `stripSessionCookie` and `sharedPath`: each only adds an easy member.
- The ping loop of `watch`, and the tunnels_live gauge, which is set from a count read earlier.
- `superviseApp`'s backoff and its search for a new port, the time between a child's move and the registry change that follows it, `appLog`, and child processes.
- The record loop of the client's `parse`, its QUERY packet, and the timing of `browse`.
- JSON encoding of reports beyond "a line holds no newline", and failing reads and writes of the queue file.
- TLS, HTTP proxying, certificates, keystores, SMTP, Prometheus, the web pages and the Compose screens.
