# Verification model of Cairn MDM

Cairn is an MDM server around NanoMDM. Nearly all of its own state sits in small SQL tables that are driven by
events (check-ins, command results, administrators' edits, logins) and by a clock. This project models those state
machines in Dafny, with the branches, comparisons and constants of the Go code, and proves what they keep over
whole runs. `dafny verify dfyconfig.toml` checks everything.

| file | what it models |
|---|---|
| `wrappers.dfy` | `Option`, and instants in nanoseconds against whole seconds |
| `deploy_tables.dfy` | the profile library, groups and deploy tracking tables, one function per SQL statement |
| `deploy_protocol.dfy` | the profile deployment protocol: every statement and every commander call is one step, and steps of reconciles, saves, deletes, group edits and command results interleave freely |
| `deploy_safety.dfy` | what every interleaving keeps: no saved version is lost |
| `deploy_provenance.dfy`, `deploy_reports.dfy` | where a deploy row's status comes from, what it says of the device's answers, and exactly when it is the last one |
| `deploy_bounds.dfy`, `deploy_overlap.dfy` | how often a version is sent, and exactly which overlapping reconciles and which repeated stamps break the bound |
| `deploy_continuations.dfy`, `deploy_gaps.dfy` | ways on from a state, exactly which saves can be lost, and runs that show what the protocol does not give |
| `reconciler.dfy`, `reconciler_run.dfy` | the storage methods, the commander and the reconciler as classes over the same tables, and that each reconcile is a run of the protocol |
| `throttle.dfy`, `throttle_history.dfy` | the login throttle, its cleanup, its rate bound and its relocking, and what callers see of it told from the history alone |
| `time_text.dfy` | timestamps as text, bytewise order against time order, and reading them back |
| `sessions.dfy` | the session store: sliding expiry under a cap, stored in whole seconds, one request at a time |
| `session_races.dfy`, `session_race_runs.dfy` | requests of one session that overlap, statement by statement: what every interleaving keeps, exactly which statements break the idle rule, and runs that do |
| `grants.dfy` | enrollment grants: bounded use, expiry, revocation, purge |
| `import_rules.dfy`, `importer.dfy` | the migration importer and its verifier |
| `search.dfy` | the device search: LIKE escaping against a LIKE matcher |
| `inventory.dfy` | the device inventory as check-in events write it |
| `migrations.dfy` | the schema runner under failures and crashes |
| `proxy.dfy` | trusted proxies and the X-Forwarded-For walk |
| `wifi_profile.dfy` | Wi-Fi profile assembly, `slugify`, and reading a profile's metadata |

The usual shape is a specification module of functions and runs, a class whose methods update their fields step by
step and are proved against those functions, and lemmas about all runs.

Conventions: a table is a map from its primary key, or a set of rows; one SQL statement is one atomic step; time is
an integer; a call that can fail gets a flag, or a function that decides it, as a parameter. Random tokens and UUIDs
are fresh values, hashes stand for what they hash, and decoders (property lists, X.509, IP addresses) are parameters.

Where the code and what is said about it disagree, the model follows the code:

- `internal/auth/throttle.go` speaks of a sliding window; the code's window is a tumbling one.
- A remark there takes `lockout >= window` to be enough for a full set of new failures after a lockout. It is not at
  equality (`ThrottleLimits.RelockTakesMaxExactly`).
- The session documentation promises an idle timeout under an absolute cap. The stored expiry drops fractions of a
  second, so a cap that is not a whole number of seconds can end a session up to a second early
  (`SessionRules.IdleRuleExactly` says exactly when). Only a caller of the package can set such a cap: the program
  passes whole minutes (`cmd/cairn/serve.go:73-74`), so a configured server keeps the promise as long as the requests
  of a session do not overlap (`SessionRules.ConfiguredServersKeepTheRule`).
- Requests of one session do overlap. Then a session is still never accepted beyond its idle timeout or its cap
  (`SessionRaces.GrantedOnlyWhenActive`), but it can end too early: a renewal that lands after a newer one moves the
  expiry back, and a delete can remove a row that was renewed meanwhile (`SessionRaceRuns.LateRenewalMovesBack`,
  `SessionRaceRuns.LateDeleteEndsSession`; `SessionRaces.InTurnExactly` says exactly which statements do this).
- `verify` compares every enabled enrollment with the last row of its id. With duplicate ids an earlier row may
  disagree unnoticed (`ImportRules.VerifiesEveryRowExactly`). This too takes a source of the caller's own: the
  shipped one reads a table with one row per enrollment id.
- A command acknowledged before its deploy row is marked leaves the row `sent`
  (`DeployGaps.EarlyAnswerLeavesRowSent`). A result is handled by two statements, so a report received before the
  mark can also resolve the row after it, and of two reports the earlier can be resolved last
  (`DeployGaps.ReportAcrossTheMarkCounts`, `DeployGaps.OvertakenReportWins`; `DeployReports.PromptExactly` says
  exactly which steps make a row mislead).
- A re-upload is taken to re-arm every deploy. One that repeats a stamp is lost if a deploy row, or a reconcile that
  has already listed the profile, bears that stamp over other bytes (`DeployGaps.SaveIsSafeExactly`).
- Reconciles of one device overlap, since each token update starts one in a goroutine of its own; two that listed the
  same profile can both send it (`DeployOverlap.TwoReconcilesSendTwice`, `DeployOverlap.InTurnExactly`).
- `clientIP` is meant to take the rightmost untrusted hop. It reads only the first X-Forwarded-For line, so when a
  proxy adds a line of its own the one the client sent decides (`Proxy.FirstLineDecides` says exactly when it matters).

## Model

| member | source | states |
|---|---|---|
| `DeploySafety.NoUpdateIsLost` | internal/assign/assign.go:43-62 | in every interleaving of reconciles, saves, deletes, group edits and results in which each save's stamp is clear, an assigned (device, profile) pair is still to be sent, or the command its deploy row names was enqueued to that device with exactly the current version's bytes |
| `DeploySafety.StepKeepsSound` | internal/storage/sqlite/groups.go:192-229 | every single step keeps the invariant that a deploy row names a command enqueued to its device, and that a row or a listed profile that bears the current stamp stands for the current bytes |
| `DeploySafety.RunKeepsSound` | internal/storage/sqlite/profiles.go:33-51 | so does every run in which each save's stamp is clear for its row, as any new stamp is, and each command gets a new UUID |
| `DeployGaps.SaveIsSafeExactly` | internal/storage/sqlite/profiles.go:33-51 | a save can be lost by some lawful continuation if and only if its stamp is not clear: a deploy row of the profile, or a running reconcile that listed it and has not come to it, bears the stamp over other bytes |
| `DeployGaps.InFlightSaveIsLost` | internal/assign/assign.go:44-58 | a run in which no deploy row exists yet and the save is lost to a reconcile under way |
| `DeployGaps.MarkedSaveIsLost` | internal/storage/sqlite/groups.go:192-201 | a run in which the save is lost at once to the stamp of the deploy row |
| `DeployProvenance.RowsComeFromMarks` | internal/storage/sqlite/groups.go:217-229 | a deploy row exists exactly while some mark of the pair is neither overwritten nor dropped with its profile |
| `DeployProvenance.StatusFollowsResolution` | internal/storage/sqlite/commands.go:41-65 | the row a mark wrote shows exactly the last report of its own command resolved after the mark, and sent if there was none |
| `DeployReports.ReceivedIsAStep` | internal/storage/sqlite/commands.go:37-51 | a report on record as received is a terminal answer of that device to that command that got past the first statement |
| `DeployReports.EveryAnswerIsReceived` | internal/storage/sqlite/commands.go:41-56 | the converse: each Acknowledged, Error or CommandFormatError that gets past the first statement is on record, and no other answer ever is |
| `DeployReports.RunKeepsHeard` | internal/storage/sqlite/commands.go:37-65 | every resolved report, and every one between its two statements, was received before from the device it names, with the same verdict |
| `DeployReports.StatusProvenance` | internal/storage/sqlite/commands.go:41-65 | in every interleaving a row is installed only if its device acknowledged the row's own command and failed only if the device reported Error or CommandFormatError for it, and it shows the last such report resolved after the mark; the report may have been received before the mark |
| `DeployReports.PromptStatusIsLastAnswer` | internal/storage/sqlite/commands.go:41-65 | when reports are handled promptly (none of a command is under way as its row is marked, and the last one is neither overtaken nor lost), a row with no report under way shows the device's last terminal answer received since the mark, or sent if there is none |
| `DeployReports.PromptExactly` | internal/storage/sqlite/commands.go:41-65 | a step is prompt if and only if no prompt continuation ends in a row that shows something else than its device's last answer |
| `DeployGaps.ReportAcrossTheMarkCounts` | internal/storage/sqlite/groups.go:217-229 | a run in which a report received before the mark resolves the row after it |
| `DeployGaps.OvertakenReportWins` | internal/storage/sqlite/commands.go:41-65 | a run in which an error is resolved after the acknowledgement that followed it, and the row stays failed |
| `DeployGaps.EarlyAnswerLeavesRowSent` | internal/assign/assign.go:49-58 | a run in which the device acknowledges before the mark: the row stays sent, nothing is pending and nothing is left to resolve |
| `DeployProvenance.UuidResolvesOneRow` | internal/mdmcore/commands.go:157-166 | no two deploy rows name the same command, so one report resolves at most one row |
| `DeployProvenance.SupersededResultChangesNothing` | internal/storage/sqlite/commands.go:41-65 | once a mark was overwritten or its profile deleted, a result for its command changes no deploy row, however late it arrives |
| `DeployBounds.AcceptedAtMostOnce` | internal/assign/assign.go:48-58 | the accepted sends of one version of a profile to one device are at most one more than the marks that failed, in every run in which a reconcile lists no profile that an earlier one of the device still holds, and a stamp comes back only while each device that was sent it still shows it |
| `DeployOverlap.InTurnExactly` | internal/assign/assign.go:79-87 | a reconcile may begin if and only if no orderly continuation exceeds that bound |
| `DeployOverlap.SafeStampExactly` | internal/storage/sqlite/profiles.go:33-51 | a save keeps that bound if and only if its stamp was never marked for this row, or every device it was marked for still shows it in its deploy row with no running reconcile that holds the profile; otherwise some orderly continuation exceeds the bound |
| `DeployBounds.NewStampIsSafe` | internal/storage/sqlite/profiles.go:33-51 | a stamp its row never bore is always safe |
| `DeployOverlap.OverlapExceeds` | internal/assign/assign.go:43-62 | a reconcile that lists a profile another one still holds has an orderly continuation that sends a version twice without a further failed mark |
| `DeployOverlap.TwoReconcilesSendTwice` | internal/assign/assign.go:43-62 | a run in which two reconciles of one device both send the version they listed, and both marks succeed |
| `ReconcileRun.ReconcileIsARun` | internal/assign/assign.go:43-62 | any reconcile of the class, as its lines tell it, is a lawful run of the step machine from any world over the same tables: begin, one round a line, end |
| `ReconcileRun.ReconcileAfterRun` | internal/assign/assign.go:43-62 | the reconciler on the tables of any lawful run leaves the tables of a longer one, in which every assigned pair is pending or went out with the current bytes |
| `Reconcile.Db.SaveProfile` | internal/storage/sqlite/profiles.go:33-51 | the upsert keeps the row of a known identifier and stamps it, inserts otherwise, touches no other profile and keeps all keys intact |
| `Reconcile.Db.DeleteProfile` | internal/storage/sqlite/profiles.go:89-98 | reports whether the profile was there and takes its assignments and deploy rows along |
| `Reconcile.Db.DeleteGroup` | internal/storage/sqlite/groups.go:60-70 | reports whether the group was there and takes its memberships and assignments along, not the deploy rows |
| `Reconcile.Db.AssignProfile` | internal/storage/sqlite/groups.go:88-94 | an assignment is added once, or refused when group or profile is missing |
| `Reconcile.Db.GroupDeviceIDs` | internal/storage/sqlite/groups.go:168-187 | lists exactly the pushable members of a group, each once |
| `Reconcile.Db.ProfilesToDeploy` | internal/storage/sqlite/groups.go:189-215 | lists the current row of every profile of the union over the device's groups that is missing or stale, exactly once however many groups share it, and no other |
| `Reconcile.Db.MarkDeploySent` | internal/storage/sqlite/groups.go:217-229 | the upsert of a deploy row, refused for a deleted profile |
| `Reconcile.Db.CommandResult` | internal/storage/sqlite/commands.go:37-65 | resolves the history row and, for a terminal answer, exactly the deploy rows of that device naming that command |
| `Reconcile.ResultDecides` | internal/storage/sqlite/commands.go:41-65 | by the answer: a row of that device naming that command becomes installed for Acknowledged, failed for Error or CommandFormatError, and stays as it was for any other; its history row shows the answer; nothing else changes |
| `ReconcileRun.ResultIsTwoSteps` | internal/storage/sqlite/commands.go:41-65 | a result taken alone is the two steps of the protocol one after the other |
| `Reconcile.Db.GroupDeployStatus` | internal/storage/sqlite/deploys.go:86-114 | one rollup per assigned profile; installed, pending and failed count the members by row status, and with the members without a row they add up to the members |
| `Reconcile.RollupAddsUp` | internal/storage/sqlite/deploys.go:86-114 | the four groups of members partition the membership in every state of the tables |
| `Reconcile.Commander.SendInstallProfileUUID` | internal/mdmcore/commands.go:123-166 | enqueue, then push, then record, under a UUID used for nothing else; a failed push leaves the command queued, a failed record is only logged |
| `Reconcile.Reconciler.ReconcileDevice` | internal/assign/assign.go:43-62 | sends every pending profile once; what stays pending is exactly what could not be pushed or marked |
| `Reconcile.TablesAfterHistory` | internal/storage/sqlite/commands.go:28-35 | after the rounds of a reconcile the history holds exactly the rows from before, unchanged, and a new unanswered one for each command that got past the push and was recorded |
| `Reconcile.Reconciler.ReconcileGroup` | internal/assign/assign.go:64-77 | every pushable member is settled by its own lines, a device whose listing failed and every device outside the fan-out keep what they had pending |
| `Reconcile.PushableExactly` | internal/storage/sqlite/groups.go:168-187 | a device can be pushed to if and only if it enrolled, sent a TokenUpdate later, and its latest Authenticate, TokenUpdate or CheckOut is no CheckOut |
| `Reconcile.ResultKeepsPending` | internal/storage/sqlite/commands.go:37-65 | no result, good or bad, arms or disarms a deploy |
| `Reconcile.CleanReconcileIsFinal` | internal/assign/assign.go:43-62 | after a clean reconcile the next one sends nothing, whatever results come in between, failed installs included |
| `Throttle.LoginThrottle.Allowed` | internal/auth/throttle.go:49-61 | an attempt is refused exactly before the end of a lockout, and told how long that is |
| `Throttle.LoginThrottle.RecordFailure` | internal/auth/throttle.go:65-90 | a failure opens, fills or locks the key's window, and is not counted while the key is locked |
| `Throttle.LoginThrottle.Cleanup` | internal/auth/throttle.go:101-110 | removes exactly the entries that are neither locked nor seen within the window |
| `ThrottleHistory.HistoryDecides` | internal/auth/throttle.go:49-90 | in every timely run each attempt is refused exactly while a filled window's lockout lasts, for exactly what is left of it, and let through otherwise; a failure is counted exactly when an attempt at that instant would be let through; windows and lockouts are told from the times of the failures alone |
| `ThrottleHistory.FilledIsRefused` | internal/auth/throttle.go:57-59 | once failures fill a window at t0, every attempt at t before t0 + lockout is refused with t0 + lockout - t left, whatever else happens but a success of the key |
| `ThrottleHistory.BruteForceIsRefused` | internal/auth/throttle.go:49-90 | after n failures at one instant an attempt is refused if and only if n reached max and the lockout is not over |
| `ThrottleCleanup.SweepsDoNotShow` | internal/auth/throttle.go:101-110 | a run and the same run without its cleanups, from simulated states, give the same answers and counts |
| `ThrottleCleanup.CleanupIsInvisible` | internal/auth/throttle.go:49-110 | two runs that differ only in where Cleanup is called are seen alike by every caller |
| `ThrottleRate.RateBound` | internal/auth/throttle.go:65-90 | with lockout > window, any closed span of one window holds at most 2 * max - 2 counted failures of a key (one if max is one), in every stretch without a success of the key of every run, whatever came before it, with a clock that does not run back |
| `ThrottleLimits.RateBoundExactly` | internal/auth/throttle.go:65-90 | that bound holds in every such stretch of every run if and only if lockout > window |
| `ThrottleLimits.RateBoundIsSharp` | internal/auth/throttle.go:65-90 | some run that the bound covers, with a clock that does not run back and no success, reaches it |
| `ThrottleLimits.RelockTakesMaxExactly` | internal/auth/throttle.go:65-90 | after a lockout has expired it takes max new failures to lock the key again, in every run, if and only if lockout > window or max is one |
| `TimeText.TextOrderIsTimeOrder` | internal/auth/session.go:157-163 | timestamps of one style compare bytewise exactly as their instants do, for the years 0 to 9999 |
| `TimeText.ParseText` | internal/auth/session.go:137-148 | reading a stored timestamp back gives the second it was written for |
| `TimeText.TextShape` | internal/auth/session.go:68 | RFC 3339 text has its fields of digits, separators, T and Z in their places, SQLite's a blank for the T and no Z |
| `SessionRules.SessionFollowsActivity` | internal/auth/session.go:74-132 | in every run of non-overlapping gets, purges and sign-outs with any lost writes and deletes, a session is accepted at t exactly as its last activity says; purges and lost deletes never change an answer |
| `SessionRules.IdleRuleExactly` | internal/auth/session.go:33-52 | "t is within ttl of the last activity, floored to the second, and not past the cap" holds in every run of non-overlapping requests if and only if the cap is whole seconds, the ttl is under a second, or the first expiry already outlasts the cap |
| `SessionRules.ConfiguredServersKeepTheRule` | cmd/cairn/serve.go:73-74 | with a timeout and a cap in whole minutes, as the program sets them, the documented rule holds in every run of every session whose requests do not overlap |
| `SessionRules.RoundedCapBreaksTheRule` | internal/auth/session.go:111-123 | otherwise the run with one access per second up to the cap is turned away before its cap |
| `SessionRules.ExpiryNeverMovesBack` | internal/auth/session.go:113-123 | while a row exists and requests do not overlap, its stored expiry only moves forward, and its creation time stays |
| `SessionRaces.EveryInterleaving` | internal/auth/session.go:74-132 | whatever order the statements of overlapping gets, purges and sign-outs fall in: the creation time stays, the stored expiry is that of the creation or of some accepted access, every accepted access is under the cap and at most ttl after the creation or an earlier accepted one, and a signed-out session never has a row again |
| `SessionRaces.GrantedOnlyWhenActive` | internal/auth/session.go:81-109 | in every interleaving a get is let in only if the documented rule allows it, counting the accesses that were through before its SELECT; never if it read after a sign-out |
| `SessionRaces.GrantedExactlyWhenActive` | internal/auth/session.go:81-109 | after any overlapping run in which every renewal and delete was in turn, a get is let in exactly by the last activity before its SELECT, whatever falls between its statements |
| `SessionRaces.InTurnKeepsIdleRule` | internal/auth/session.go:111-124 | after such a run the session answers exactly by the documented rule wherever rounding the cap cannot matter, as on every configured server |
| `SessionRaces.InTurnExactly` | internal/auth/session.go:93-124 | a step is in turn if and only if no continuation in turn ends with an answer that differs from the last activity; out of turn are exactly the renewal that cuts a good row short, the one that still counted when its row was gone, and the delete of a row that is still good |
| `SessionRaces.UndisturbedIsInTurn` | internal/auth/session.go:93-124 | a renewal or delete that finds the row as its request read it is in turn, so being out of turn takes another statement on the row since that read |
| `SessionRaces.ExpiryMovesBackExactly` | internal/auth/session.go:117-124 | the stored expiry moves back exactly when a renewal lands on a row that another renewal, written since its request's read, had moved further |
| `SessionRaceRuns.LateRenewalMovesBack` | internal/auth/session.go:117-124 | a run in which two renewals land in the other order than their reads and a get 55 s after the last counted access is refused under an idle timeout of 60 s |
| `SessionRaceRuns.LateDeleteEndsSession` | internal/auth/session.go:93-96 | a run in which the delete of a refused request removes the row that another request has just renewed |
| `SessionRaceRuns.LateRenewalFindsNothing` | internal/auth/session.go:117-124 | a run in which that delete comes first and the renewal of an accepted request finds no row |
| `SessionRaceRuns.SerialRuns` | internal/auth/session.go:74-132 | requests that do not overlap are in turn throughout, and their rows are those of the runs of `SessionRules` |
| `SessionStatements.StatementsAreSteps` | internal/auth/session.go:119-174 | each statement on the table of all sessions does to the row of its token what its step does; the UPDATE and the DELETE leave every other one alone |
| `Sessions.PurgeSparesTheLive` | internal/auth/session.go:157-163 | the cleanup job never removes or changes a session that Get would accept then or later |
| `Sessions.TextPurgeIsTimePurge` | internal/auth/session.go:157-163 | the purge by text removes exactly the sessions whose expiry lies before the current second |
| `Sessions.SweepsAreEvents` | internal/auth/session.go:157-174 | a purge or a forced sign-out of a user acts on every session as the event of its run does |
| `Sessions.SessionStore.constructor` | internal/auth/session.go:36-52 | a ttl of zero or less becomes twelve hours, a negative cap no cap |
| `Sessions.SessionStore.Create` | internal/auth/session.go:54-71 | inserts a row with the identity, a blank provider as local, and the CSRF token, expiring at now + ttl in whole seconds, unless the insert fails, and returns the session |
| `Sessions.Judge` | internal/auth/session.go:91-117 | the checks of Get on the stored texts decide as the rule on instants does, and renew to the right instant |
| `Sessions.SessionStore.Get` | internal/auth/session.go:74-132 | its statements with no other between them: found exactly when the session is accepted, with the stored identity and CSRF token; the table changes by the session's own step and no other row is touched; the expiry returned is the stored one but for its fraction of a second |
| `Sessions.SessionStore.Delete` | internal/auth/session.go:150-154 | removes that session only |
| `Sessions.SessionStore.DeleteExpired` | internal/auth/session.go:156-163 | leaves exactly the sessions not expired before the current second and counts the others |
| `Sessions.SessionStore.DeleteByUsername` | internal/auth/session.go:165-174 | ends exactly that user's sessions and counts them |
| `GrantRules.GrantsNeverOverspend` | internal/storage/sqlite/grants.go:96-114 | in every interleaving of create, redeem, revoke and purge: a redeem succeeds exactly when one is owed (created, not revoked, not used up, not expired); use_count is the number of successes; a token never succeeds more often than it was created for, not even after its row is purged |
| `GrantRules.NoneAfterTheEnd` | internal/storage/sqlite/grants.go:98-104 | once a grant is revoked or its expiry second has begun, nothing redeems it again in any further run |
| `GrantRules.RevokeEnds` | internal/storage/sqlite/grants.go:152-166 | revoking by id ends the very grant whose row shows that id |
| `GrantRules.SuccessesInTime` | internal/storage/sqlite/grants.go:98-104 | every success on record came before the expiry its token was created with |
| `GrantRules.ActiveButForOneInstant` | internal/storage/sqlite/grants.go:35-46 | a redeemable grant shows active; a live grant shows active without being redeemable only at the instant now = expires_at |
| `GrantRules.StatusBranches` | internal/storage/sqlite/grants.go:35-46 | revoked, else used up, else expired, else active, each by its own columns |
| `GrantRules.PurgeSparesRedeemable` | internal/storage/sqlite/grants.go:171-179 | the purge spares every redeemable grant if and only if its cutoff is no later than the next second, which any olderThan >= 0 gives |
| `Grants.MatchesIsRedeemable` | internal/storage/sqlite/grants.go:98-104 | the text comparison of the redeeming UPDATE decides as the instants do |
| `Grants.GrantTable.CreateGrant` | internal/storage/sqlite/grants.go:75-91 | no uses become one use, no platform becomes any, a known token hash is refused, the expiry text is stored as given; when it is the text of an instant, as every caller writes it, the table means the created grant |
| `Grants.GrantTable.RedeemGrant` | internal/storage/sqlite/grants.go:96-114 | consumes one use exactly when the grant is redeemable, returns that grant's fields and changes nothing else |
| `Grants.GrantTable.RevokeGrant` | internal/storage/sqlite/grants.go:152-166 | marks the grant of that id, is idempotent, and is refused exactly when there is none |
| `Grants.GrantTable.DeleteExpiredGrants` | internal/storage/sqlite/grants.go:171-179 | leaves exactly the grants not expired before the cutoff and counts the others |
| `Grants.GrantTable.Status` | internal/storage/sqlite/grants.go:35-46 | the status read from the stored texts is the status by the instants |
| `ImportRules.DryPredictsReal` | internal/importer/importer.go:303-437 | reports of a dry and a live run of one source have equal counts and tallies, and the dry skips are the live ones without the bootstrap-token ones, in order |
| `ImportRules.SourceRowsAddUp` | internal/importer/importer.go:297-394 | in each run, source rows are processed rows plus rows rejected by a listed skip |
| `ImportRules.VerifiesEveryRowExactly` | internal/importer/importer.go:462-493 | comparing with the last row of an id agrees with comparing every enabled row, for every destination, if and only if rows that share an id route alike |
| `ImportRules.DistinctIDsRouteAlike` | internal/importer/importer.go:462-469 | which they do when the ids are distinct |
| `ImportRules.AcceptedExactly` | internal/importer/importer.go:189-213 | all skips are accepted if and only if every row with an unreadable Authenticate, TokenUpdate, UserAuthenticate, digest or (live) bootstrap token has its id among the exceptions |
| `ImportRules.DeviceSkipsAreFaults` | internal/importer/importer.go:304-352 | the skips of the devices are exactly the rows at fault, each with its id, the first fault as reason, and accepted exactly when excepted |
| `ImportRules.UserSkipsAreFaults` | internal/importer/importer.go:365-386 | the same for users |
| `ImportRules.PlanStoresExactly` | internal/importer/importer.go:276-410 | a run stores exactly the certificates, messages, well-formed bootstrap tokens and associations of its readable rows, each under its own id, a user's on the user channel of its device |
| `ImportRules.RowOrder` | internal/importer/importer.go:304-386 | within a row Authenticate comes before TokenUpdate and that before the bootstrap token |
| `ImportRules.PlanInPhases` | internal/importer/importer.go:276-410 | certificates, then devices, then users, then associations |
| `ImportRules.DisablesExactly` | internal/importer/importer.go:76-82 | the disabled rows and no others are disabled, a User row or one with a user id on the user channel of its device, any other on the device channel |
| `ImportRules.FailedDisablesAre` | internal/importer/importer.go:438-451 | the listed disable failures are exactly the disabled rows whose own call failed |
| `ImportRules.OccurrencesCount` | internal/importer/importer.go:412-430 | a tally is the number of rows with that type, an empty one being Device, or that topic |
| `ImportRules.NoFailedDisable` | internal/importer/importer.go:438-451 | there is no disable failure exactly when the destination took every disable, in order |
| `Importer.Destination.Store` | internal/storage/sqlite/certauth.go:29-34 | a successful association only ever adds its hash to the enrollment's set |
| `Importer.ImportPushCerts` | internal/importer/importer.go:276-295 | every certificate must validate, a live run stores each in order, and the evidence lists them all |
| `Importer.ImportDevices` | internal/importer/importer.go:297-356 | the loop makes exactly the planned calls of every row in order until one fails, a dry run makes none, and the counts and skips are those of the rows |
| `Importer.ImportUsers` | internal/importer/importer.go:358-394 | the same for users: a bad authentication round is skipped but its user is not |
| `Importer.ImportAssocs` | internal/importer/importer.go:396-410 | a finished loop has added every association and nothing else |
| `Importer.TallyEnrollments` | internal/importer/importer.go:412-430 | each type and topic is tallied with its number of rows, an empty type as Device |
| `Importer.DisableRows` | internal/importer/importer.go:438-451 | every source-disabled row is tried in its own request shape; failures are listed, the others counted, and the two add up |
| `Importer.Verify` | internal/importer/importer.go:461-500 | no mismatch exactly when push info was retrieved, agrees for every enabled id, and every association reads back |
| `Importer.Run` | internal/importer/importer.go:203-455 | a run fails exactly when the source is unusable or (live) a store call fails; a finished live run made the planned calls and disables, holds every association, and is Ok exactly when the id of every unreadable row is an exception, every disable took effect and the destination answers as the source routes, for every enabled row when ids are distinct or route alike |
| `Importer.DryThenLive` | internal/importer/importer.go:253-455 | a dry run fails only where the live one does, predicts all its figures, and its disabled count is the live one plus the disable failures |
| `Search.SearchIsLiteral` | internal/storage/sqlite/devices.go:146-155 | the LIKE clause with ESCAPE matches exactly when the lower-cased query is a contiguous part of the lower-cased column, for all texts |
| `Search.SearchIgnoresCase` | internal/storage/sqlite/devices.go:146-155 | so a column matches exactly when the query stands somewhere in it, letter for letter up to the case of ASCII letters |
| `Search.EscapedMatches` | internal/storage/sqlite/devices.go:186-189 | an escaped text followed by any rest matches exactly the texts that begin with it |
| `Search.ListDevicesFiltered` | internal/storage/sqlite/devices.go:139-182 | lists exactly the devices one of whose four columns holds the query, all for an empty one, and the enrolled ones if asked, latest last_seen first and those without one last |
| `InventoryRules.InventoryIsLastOffer` | internal/storage/sqlite/devices.go:59-126 | after any run of events each guarded column is the last non-empty value offered since the first enrollment, whose time is kept; the udid is the last one; the device is checked out exactly when the latest Authenticate, TokenUpdate or CheckOut is a CheckOut; the times of the last sighting, token and inventory are those of the last message since that brought one |
| `InventoryRules.StepGuards` | internal/mdmcore/events.go:132-161 | each message leaves a guarded column alone or puts its own non-empty offer there; a report without QueryResponses offers nothing |
| `InventoryRules.UnknownUntilEnrolled` | internal/storage/sqlite/devices.go:79-97 | messages before the first enrollment make no row |
| `Inventory.DeviceTable.DeviceEnrolled` | internal/storage/sqlite/devices.go:59-76 | the upsert guards every column but udid, keeps enrolled_at and clears a checkout |
| `Inventory.DeviceTable.Handle` | internal/mdmcore/events.go:84-161 | a handler's projections change the device's own row by the event's step and no other row |
| `Inventory.HandleAll` | internal/mdmcore/events.go:84-161 | messages handled in turn leave the row the run of events says |
| `Migrations.Database.Migrate` | internal/storage/sqlite/sqlite.go:94-159 | wherever a run fails or dies, the missing bodies were committed in order up to some point, each at most once and recorded exactly when committed; a successful run committed all of them; a failed run stops exactly at the first due file that does not commit, which is in only if the process died after its commit |
| `Migrations.CatchesUpExactly` | internal/storage/sqlite/sqlite.go:121-158 | a successful run ends in the schema of one uninterrupted run if and only if the bodies committed before are the first ones of the list |
| `Migrations.StartRepeatedly` | internal/storage/sqlite/sqlite.go:94-159 | over any sequence of failing starts of an append-only schema that is always so, and the last start, if it succeeds, leaves the whole list committed in order |
| `Proxy.App.ClientIP` | internal/web/proxy.go:58-79 | an untrusted peer's header is ignored; behind a trusted one the answer is the rightmost hop of the first header line that is neither blank nor trusted, or the peer |
| `Proxy.RightmostNames` | internal/web/proxy.go:70-78 | the walk ends at the rightmost part that, trimmed, is neither blank nor an address in a configured network, every part to its right being one of these; it ends at the peer only if all parts are |
| `Proxy.TrimSpaceTrims` | internal/web/proxy.go:72 | trimming takes exactly the white space at both ends |
| `Proxy.PrependedTextMatters` | internal/web/proxy.go:66-79 | text put before the first header line with a comma changes the answer if and only if the header named no such hop of its own and the text names one other than the peer |
| `Proxy.FirstLineDecides` | internal/web/proxy.go:66-79 | of several header lines only the first is read; the answer is the one the right end of all lines gives if and only if the later lines name no stranger or end in that very answer |
| `Proxy.App.IsTrustedProxy` | internal/web/proxy.go:39-50 | exactly the texts that parse to an address in a configured network |
| `Proxy.ParseTrustedProxies` | internal/web/proxy.go:13-35 | the loop builds the networks of its entries in order, or refuses |
| `Proxy.NetworksMean` | internal/web/proxy.go:13-35 | a list is refused exactly when an entry is neither blank, a network nor an address; its networks are exactly those its entries stand for |
| `Proxy.TrustedExactly` | internal/web/proxy.go:13-50 | with a list configured, a text is trusted exactly when it parses to an address that some entry's network holds or that an entry, being no network, is itself |
| `Proxy.SplitJoins` | internal/web/proxy.go:70 | splitting at commas loses nothing and leaves no comma in a part |
| `Slug.SlugsAreTheFixedPoints` | internal/profile/payloads.go:208-227 | slugify lands in the non-empty texts of a-z, 0-9 and dash without an edge dash, leaves exactly those alone, and is idempotent |
| `Slug.WhatCharactersBecome` | internal/profile/payloads.go:209-227 | small letters and digits stay, capitals become small, a blank, dash, underscore or dot becomes a dash, nothing else is left |
| `Slug.SlugIsTrimmed` | internal/profile/payloads.go:209-227 | the slug is what the characters become without the dashes at the ends, or network if nothing is left |
| `WiFiProfile.BuildAnchors` | internal/profile/payloads.go:71-84 | one root payload per certificate, in order, each under the UUID the configuration will name |
| `WiFiProfile.BuildWiFi` | internal/profile/payloads.go:33-136 | every refusal exactly by its condition; a built profile's network payload refers, in order, to the UUIDs of all its other payloads (the anchors, then the identity), and all UUIDs of the profile differ |
| `ProfileInfo.ParseInfo` | internal/profile/parse.go:48-75 | the listed types are strictly sorted and exactly the non-empty ones present; the name falls back to the identifier |
| `ProfileInfo.SortedUnique` | internal/profile/parse.go:55-63 | so the listing is determined by the set of types present |
| `ProfileInfo.BuildAndRead` | internal/profile/parse.go:24-76 | a built Wi-Fi profile read back lists exactly root, scep and wifi types, or wifi alone for a personal network |

## Left out

- HTTP handlers, templates, cookies, CSRF, security headers, the login sequence around the throttle: input, output and presentation.
- X.509, PKCS7, SCEP, TLS, argon2, SHA-256, property lists, TOML: library behaviour; decoders are parameters and hashes stand for what they hash.
- NanoMDM storage and APNs push: calls that succeed or fail, any way they like, with the calls before them.
- SQLite: each statement and each migration transaction is atomic, with the keys, UNIQUE columns and cascades of the schema files; query plans, its limit on the length of a LIKE pattern and texts containing NUL are not modelled.
- CLI commands, backup, configuration, audit log, settings, certificate renewal tiers, role ranking, authentication chain, Kerberos profiles: plumbing, or members that would be easy.
- Console queries that only list rows (groups, grants, deploy history): easy members.
- Liveness: nothing is claimed about a device ever answering, nor that the last command in the queue is the newest version under concurrent reconciles.
- DeployBounds.AcceptedAtMostOnce: a version is a stamp of a profile row, so it counts per stamp; two saves under one stamp are one version.
- DeployReports.PromptStatusIsLastAnswer: a report counts as received once the first statement of CommandResult went through; one that fails there is only logged and leaves no trace in the tables.
- Reconcile: the classes run one reconcile at a time; interleavings are those of the step machine in DeployProtocol, whose steps are single statements and calls.
- Throttle: the policy is the one after defaults, with positive numbers; the mutex makes each method one step.
- TimeText.ParseText: reads texts the program wrote, in years up to 9999; a text in neither layout, which the code refuses, cannot come from its own columns.
- Sessions: a created_at that does not parse cannot arise from the column's default; a SELECT that fails starts no request.
- Grants.GrantTable: after a grant with an expiry in another layout than the console's, which no caller writes, the other statements are not modelled.
- Grants: label, creator and last use are not modelled; an id is any number no row has, which allows the reuse of ids that the schema allows.
- Importer: the device projector's writes, whose failures are only logged, are not modelled; the report is a value that the loops replace step by step.
- Inventory: a report's two statements are also reports of their own (`ReportIsItsStatements`), so interleaved messages are runs of events; numbers formatted as text are offers like any other.
- Migrations: reading the embedded files and the table of recorded versions is taken to succeed; a failure there changes nothing.
- Proxy: reading an address or a network out of text is a parameter; a network is a contiguous range of addresses of one family.
- ProfileInfo: unwrapping a signed profile and decoding it come before the model starts.
