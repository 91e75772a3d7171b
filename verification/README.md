# Tenant-forge: verified models

Dafny models of the parts of the tenant-forge back end that carry invariants, and proofs of what they keep.
The database is a few maps of rows, a statement is its effect on the rows, and time is a number handed to each
step. `dfyconfig.toml` names the whole project.

Code that changes state step by step is a class whose methods follow the source statement by statement; each
method is proved equal to a transition function (`Step`, `Deliver`, `Execute`, ...), and the theorems are about
runs of that function. What such a function answers and writes is stated once more on the rows or numbers alone,
without it: `BucketLedger.Runs`, `SessionAnswers.RotationAnswers`, `SessionAnswers.ConfirmAnswers`,
`Webhooks.DeliveryAnswers`, `Webhooks.ProcessedRows` and `StatementAnswers.StatementAnswers` are the ones the methods
promise. Several theorems hold only when one handler runs at a time. For these, a run with
overlapping handlers in which the property fails, and the exact condition under which it holds over whole runs:

| serial theorem | fails in | holds exactly when |
|---|---|---|
| SessionRuns.RunKeepsInv, SessionRuns.ReplayKillsFamily (families revoked all or nothing) | RotationRaces.RevivedFamily | RotationRaces.RunKeepsWholeIff |
| SessionRuns.OverlapNeverExtends | EndedSessions.LateRotation | EndedSessions.OverlapKeptIff |
| SessionRuns.CancelledTenantNeverServed | EndedSessions.LoginOutlivesCancel | EndedSessions.CancelledStaysEndedIff |
| SessionRuns.ResetLeavesOnlyNewLogins | EndedSessions.LoginOutlivesReset | EndedSessions.ResetStaysEndedIff |
| SessionRuns.ResetTokensAreSingleUse | ResetRaces.TwoConfirmations | ResetRaces.RunSingleUseIff |
| WebhookRuns.StoredIsLastSync (newest refetch stored) | WebhookRaces.StaleCommitWins | WebhookRaces.FreshIff |
| TeamOwners.SerialRunsKeepOwners | TeamOwners.MutualDemotion | TeamOwners.OwnedThroughoutIff |
| TeamOwners.ReachableTenantsOwned | src/team/team.service.ts:90-118 | so it holds in every state such runs reach from the empty database |

`WebhookRuns.Converges`, `WebhookOrders.OrderDoesNotMatterIff` and the billing-state theorems are serial and have no
such counterpart of their own; what overlapping handlers store is `WebhookRaces.StoredIsLastCommitted`.

| file | subject | runs | visibility of rows |
|---|---|---|---|
| `token_bucket.dfy`, `bucket_ledger.dfy`, `rate_limiter.dfy` | token bucket script, script loading | any sequence of calls on a key, any clock where stated | - |
| `row_security.dfy` | row-level-security script and what its policies allow | - | by role, policies and tenant setting |
| `isolation.dfy`, `statement_answers.dfy`, `durability.dfy` | requests of many tenants on one pool; what statements answer; what a success answer is worth | interleaved | filtered by tenant (application role) |
| `connection.dfy`, `tenant_middleware.dfy` | the hooks command by command, with a fault for each | interleaved | filtered by tenant (application role) |
| `sessions.dfy`, `session_answers.dfy`, `session_runs.dfy`, `session_store.dfy` | refresh-token families | serial | parameter `rls`: all results hold for both values |
| `rotation_races.dfy`, `ended_sessions.dfy` | the same, read and transaction of a rotation and of a login apart | interleaved | parameter `rls`: both |
| `reset_races.dfy` | overlapping confirmations of a password reset | interleaved | by primary key only |
| `webhooks.dfy`, `webhook_runs.dfy`, `webhook_orders.dfy`, `billing_clashes.dfy` | webhook deliveries and the billing state | serial | parameter `rls`: both; the read of the billing state has a parameter of its own |
| `webhook_races.dfy` | the same, refetch and transaction apart | interleaved | parameter `rls`: both |
| `ensure_customer.dfy` | the row-lock protocol around Stripe customers | interleaved | global table |
| `team.dfy`, `team_store.dfy` | signup, invitations, roles | interleaved | parameter `rls`: both |
| `team_owners.dfy` | the last-owner rule | interleaved | parameter `rls`: exact condition for both; unconditional results for `true` |
| `uuid_text.dfy`, `page_walk.dfy`, `list_projects.dfy` | keyset pages and the cursor | table changes between requests | rows of one tenant |

`rls` says whether row security filters the statements inside a tenant transaction of the owner pool. Lookups
made before any tenant is set are taken to see every row, as the handlers expect. `RowSecurity.NoRoleServesBothUses`
shows that with the policies of the script no single database role gives both. The owner pool uses the
migration role (`src/server.ts:11-14`), and `src/db/migrate.ts:7-8` says that this role never runs with row
security active: that deployment is `rls = false`. It is the value for which
`SessionRuns.CancelSparesOthersIff`, `TeamOwners.UnfilteredGuardKeepsOwnersIff`, `TeamOwners.ChangesForeignerIff` and
`BillingClashes.BillingReadsBackIff` say what goes wrong and exactly when. `TeamOwners.EveryTenantKeepsAnOwner` and
`TeamOwners.SerialRunsKeepOwners` assume `rls = true`, a filtered owner pool, which that file rules out;
`TeamOwners.OwnedThroughoutIff` holds for both.

## Where the code and its documentation differ

- Revoking a family "entirely" (`docs/adr/ADR-002-auth-design.md`, `src/auth/refresh.service.ts:40-41`) holds for
  handlers that do not overlap. A rotation that read its token before a revocation and commits after it puts a live
  token into the revoked family: `RotationRaces.RevivedFamily`. Families stay whole throughout a run exactly when no
  rotation does that: `RotationRaces.RunKeepsWholeIff`.
- Cancelling a tenant is said to stop existing sessions (`src/tenants/lifecycle.service.ts:3-7`), and a password reset
  to revoke all of the user's (`src/auth/password-reset.service.ts:62-65`). A login that looked the user up before and
  inserts its token after (`src/auth/login.service.ts:35-81`) outlives both: `EndedSessions.LoginOutlivesCancel`,
  `EndedSessions.LoginOutlivesReset`. So may a rotation. Sessions stay ended throughout a run exactly under the
  conditions of `EndedSessions.CancelledStaysEndedIff` and `EndedSessions.ResetStaysEndedIff`.
- The overlap window after a rotation (`src/auth/refresh.service.ts:40-41`) is checked at the read only. A handler that
  read the token in time may issue from it at any later time: `EndedSessions.LateRotation`, `EndedSessions.OverlapKeptIff`.
- A reset token is "single-use" (`src/auth/password-reset.service.ts:33`) for confirmations that do not overlap; two
  that looked it up before either committed both change the password: `ResetRaces.TwoConfirmations`, with the exact
  condition `ResetRaces.RunSingleUseIff`.
- The refetch "tolerates out-of-order delivery" (`src/billing/webhook.service.ts:28-29`) for deliveries handled one
  after the other. Two overlapping handlers can commit in the opposite order of their refetches:
  `WebhookRaces.StaleCommitWins`; the stored row is fresh exactly under the condition of `WebhookRaces.FreshIff`. With
  several subscriptions of one customer the order matters even serially, exactly when they say different plans:
  `WebhookOrders.OrderDoesNotMatterIff`.
- The last-owner guard (`src/team/team.service.ts:103-109`) does not stop two owners who demote each other at the same
  time: `TeamOwners.MutualDemotion`. Without row security it counts the owners of all tenants, and one demotion can
  empty a tenant: `TeamOwners.UnfilteredDemotion`.
- Cancelling a tenant relies on row security to confine its UPDATE (`src/tenants/lifecycle.service.ts:4-7`,
  `src/tenants/lifecycle.service.ts:20-22`); without it every live session of every tenant is revoked:
  `SessionRuns.CancelSparesOthersIff`.
- Without row security a role change reaches users of other tenants (`src/team/team.service.ts:98-111`):
  `TeamOwners.ChangesForeignerIff`; and a refetch that names another organization's customer updates a row it does not
  own, so that a past-due organization may keep writing: `BillingClashes.ClashHidesStatus`, `BillingClashes.ClashIff`.
- The billing state is read with no tenant set (`src/billing/enforcement.service.ts:26-31`). A filtered read finds no
  subscription and always says "active": `WebhookRuns.BillingStateIsLastSync`.
- The conflict of signup (`src/auth/signup.service.ts:24`, `src/auth/signup.service.ts:58-60`) speaks of a registered
  email; in a tenant that is just being created no email can clash, and it always means a taken slug:
  `Team.SignupIsAllOrNothing`.
- The page cursor (`src/projects/projects.service.ts:97`) prints `created_at` through a template literal. A walk lists
  every row of every table exactly when a timestamp survives that text: `PageWalk.WalksCompleteIffTextIsExact`.
- The commit hook (`src/middleware/tenant.ts:69-72`) promises durability before the response, but a COMMIT that fails is
  swallowed and the COMMIT of an aborted transaction rolls back without an error, and the payload is sent either way:
  `Durability.FailedCommitAnswersSent`, `Durability.AbortedCommitAnswersSent`, with the exact condition
  `Durability.SuccessIsDurableIff`.
- "RESET, release - guaranteed cleanup" (`src/middleware/tenant.ts:44`): the RESET never removes a tenant
  (`Connection.ResetIsRedundant`); it is the ROLLBACK that must get through (`Connection.HooksCleanIff`). A request
  opened twice leaks its first connection (`TenantMiddleware.LeaksIff`).

Two of these inputs need code the repository does not contain today: no handler swallows a failed statement on
`req.db`, as `Durability.AbortedCommitAnswersSent` does, and no route registers the open hook twice
(`src/routes/v1/projects.routes.ts:46-54`), as a leak in `TenantMiddleware.LeaksIff` does.

## Model

| member | source | states |
|---|---|---|
| TokenBucket.GrantedWithinContent | src/ratelimit/limiter.ts:22-44 | tokens granted over any run of calls never exceed what the bucket held plus what drips in between |
| TokenBucket.RateBound | src/ratelimit/limiter.ts:22-44 | over any window of calls, from any bucket, with any plans and any clock: at most one full bucket plus refill over the forward clock movement |
| TokenBucket.DripOverWindow | src/ratelimit/limiter.ts:30-32 | with a clock that never goes back the drips of a window add up to refill times elapsed time |
| TokenBucket.RateBoundSteadyClock | src/ratelimit/limiter.ts:22-44 | burst capacity plus sustained rate times elapsed time bounds what is granted |
| TokenBucket.RateBoundIsReached | src/ratelimit/limiter.ts:22-44 | two calls reach the bound, so it cannot be lowered |
| BucketLedger.TokensConserved | src/ratelimit/limiter.ts:30-44 | over any run what is left plus what was granted equals what was there plus what dripped in, less what overflowed at the cap |
| BucketLedger.DeniedIff | src/ratelimit/limiter.ts:36-42 | a call is denied iff that balance is short of its request |
| BucketLedger.ScriptOnNumbers | src/ratelimit/limiter.ts:22-49 | one run of the script on numbers: content capped at the capacity, allowed iff it holds the request, charged exactly the request, remaining its floor, the least sufficient wait after a denial, the clock stored, the least time to live |
| TokenBucket.ExpiryUnobservableFrom | src/ratelimit/limiter.ts:45-47 | from any stored bucket, deletion after its time to live shows every later call the same tokens as no deletion, if each configuration outlasts the one before |
| TokenBucket.ExpiryUnobservable | src/ratelimit/limiter.ts:45-47 | the same from a missing key |
| TokenBucket.ExpiryObservableOtherwise | src/ratelimit/limiter.ts:45-47 | the condition is exact: for every pair of configurations that violates it two calls tell the deletion |
| TokenBucket.FillsInAMinute | src/ratelimit/plans.ts:4-18 | every plan and route class refills an empty bucket in exactly 60 s |
| BucketLedger.PlanTable | src/ratelimit/plans.ts:4-18 | burst and calls per minute of each plan and route class; an unknown plan counts as free |
| TokenBucket.PlansOutlastEachOther | src/ratelimit/plans.ts:4-12 | every plan refills fully within the time to live any plan sets, also after a plan change |
| TokenBucket.TenantBucketExpirySafe | src/ratelimit/middleware.ts:32-33 | for any plan changes between a tenant's calls expiry is unobservable, and the rate bound holds of the expiring key |
| TokenBucket.IpBucketExpirySafe | src/ratelimit/middleware.ts:57-62 | the bucket of an address and route class, whose configuration is fixed, may expire too, and grants at most a burst plus the sustained rate |
| TokenBucket.WaitCoversDeficit | src/ratelimit/limiter.ts:40-41 | a wait of p ms covers a deficit iff p reaches the rounded-up wait reported |
| TokenBucket.PollingIsFree | src/ratelimit/limiter.ts:30-44 | polls in vain neither delay nor hasten the grant: each is told what is left, and the first call at the deadline is granted |
| TokenBucket.RetryAfterIsExact | src/ratelimit/limiter.ts:30-44 | after a denial reporting r ms a request d ms later is granted iff d >= r, whatever polls of the same size come in between |
| TokenBucket.RetryAfterHeaderSuffices | src/ratelimit/middleware.ts:34-37 | waiting the whole seconds of the Retry-After header is enough |
| TokenBucket.RetryAfterHeaderIsLeast | src/ratelimit/middleware.ts:34-37 | the header is the least number of whole seconds that covers the reported wait |
| TokenBucket.GrantableIff | src/ratelimit/limiter.ts:36-42 | some wait gets a request granted iff it fits the bucket at all |
| TokenBucket.ResetMsSuffices | src/ratelimit/limiter.ts:98-105 | after resetMs a whole burst is granted |
| BucketLedger.ResetOnNumbers | src/ratelimit/limiter.ts:99-105 | resetMs is the least wait that fills the bucket from the remainder reported |
| RateLimiting.Redis.RunScript | src/ratelimit/limiter.ts:15-50 | the script, variable by variable: the reply and the new key are as the numbers demand, and no other key changes |
| RateLimiting.Redis.EvalSha | src/ratelimit/limiter.ts:80-92 | with the script cached one run of it; NOSCRIPT changes no key |
| RateLimiting.RateLimiter.Consume | src/ratelimit/limiter.ts:70-106 | however often the script cache is lost, the key is charged exactly once, by the numbers, with the clock as read on the last retry; the result reports that run, the capacity and the least reset wait |
| RowSecurity.RlsPolicyScript | src/db/rls.ts:15-33 | the loop emits six statements per tenant-scoped table in order |
| RowSecurity.ScriptProtects | src/db/rls.ts:15-33 | from any catalog that has the tables, migrated before or not, the script succeeds, protects exactly the listed tables and leaves the others alone |
| RowSecurity.ScriptIsRerunnable | src/db/rls.ts:20-30 | running it again succeeds and changes nothing |
| RowSecurity.ProtectedTableAdmits | src/db/rls.ts:15-33 | after the script a row is read, changed, removed or stored iff it is the current tenant's or an older policy still on the table, for whichever commands, lets it through |
| RowSecurity.ProtectedTableIsConfinedIff | src/db/rls.ts:8-13 | a table is confined to the current tenant for every access iff no older policy lets a foreign row through; a table without older policies always is, and an unset or empty tenant then gets at nothing |
| Isolation.FilterIsThePolicy | src/db/rls.ts:20-30 | the filter the requests see is the policy: the rows kept are those the application role may access on the migrated table |
| RowSecurity.OlderPolicyStaysOpen | src/db/rls.ts:20-30 | an older USING (true) policy survives the script and opens the table |
| RowSecurity.NoRoleServesBothUses | src/auth/refresh.service.ts:34-36 | a role both sees all tenants with no tenant set and is confined with one set iff an older policy opens the table just while none is set; with the script's policies alone no role does |
| Isolation.ExecuteKeepsOwnership | src/projects/projects.service.ts:24-138 | whatever statement a handler runs, its writes are rows of its own tenant under ids of its own tenant |
| Isolation.ForeignProjectNotRead | src/projects/projects.service.ts:45-53 | a foreign project id reads like an unknown one |
| Isolation.ForeignProjectNotWritten | src/projects/projects.service.ts:103-138 | update and delete of a foreign id find no row, change nothing and never wait for its lock |
| StatementAnswers.StatementOnRows | src/projects/projects.service.ts:24-138 | on a live transaction a read gets exactly the rows the tenant has, an insert is refused, waits, collides or adds, and an update or delete reports and rewrites exactly the own rows it hits, or waits, or is refused; nothing else changes |
| StatementAnswers.ReadById | src/projects/projects.service.ts:45-53 | a read by id returns the row iff the tenant has it: its own write, or its row in the table not overwritten |
| StatementAnswers.CommitOnRows | src/middleware/tenant.ts:81-82 | a COMMIT that takes effect writes to the table exactly what the transaction wrote |
| StatementAnswers.InsertedIsReadNext | src/projects/projects.service.ts:29-53 | what one request of a tenant inserts and commits the next one reads, whatever other tenants' requests do in between |
| StatementAnswers.FailureStoresNothing | src/middleware/tenant.ts:82-103 | an error answer or a thrown handler leaves the table as it was |
| Isolation.StepKeepsInv | src/middleware/tenant.ts:47-106 | every step, a lost connection and a second open included, keeps: idle connections are clean, those in use are distinct, with their own tenant set and only their own tenant's writes |
| Isolation.ForeignStepInvisible | src/middleware/tenant.ts:47-106 | a step of another tenant's request changes nothing tenant t can see |
| Isolation.OwnStepSame | src/middleware/tenant.ts:47-106 | a step of t's request gets the same result whether or not other tenants are there |
| Isolation.SimulationHolds | src/middleware/tenant.ts:47-106 | any interleaved run simulates the run of t's requests alone |
| Isolation.Noninterference | src/middleware/tenant.ts:48-103 | every result returned to t and every committed row of t are as in the run with all other tenants' requests removed |
| Durability.ExecuteWrites | src/projects/projects.service.ts:29-138 | a statement adds to its transaction just what it says of the rows its tenant sees, and only if it is answered as done |
| Durability.AbortedIff | src/middleware/tenant.ts:48-90 | between open and answer, whatever others do, a transaction is aborted iff one of its own statements failed or its connection was lost; until then its writes are the fold of its statements' own effects |
| Durability.SuccessIsDurableIff | src/middleware/tenant.ts:69-90 | after a success answer the table shows the writes of the request's statements iff COMMIT took effect and none of its statements failed, or it showed them before; the answer is the same either way |
| Durability.FailedCommitAnswersSent | src/middleware/tenant.ts:81-89 | a run whose COMMIT fails: answered as sent, nothing stored |
| Durability.AbortedCommitAnswersSent | src/middleware/tenant.ts:81-89 | a run whose statement failed: COMMIT succeeds, answered as sent, nothing stored |
| Connection.HooksCleanIff | src/middleware/tenant.ts:62-103 | for each hook, whatever command fails: the connection goes back without transaction and tenant iff a ROLLBACK or COMMIT got through, or it was lost |
| Connection.SecondRollbackNeeded | src/middleware/tenant.ts:83-84 | after a refused COMMIT the second ROLLBACK cleans the connection, and without it transaction, tenant and locks go back into the pool |
| Connection.ResetIsRedundant | src/middleware/tenant.ts:86 | RESET leaves every connection as it would be without it |
| TenantMiddleware.Server.Send | src/middleware/tenant.ts:53-59 | no other connection is touched and a lost one does nothing; rows change only when a COMMIT takes effect on a live, unaborted transaction; a COMMIT or ROLLBACK that succeeds leaves neither transaction nor tenant |
| TenantMiddleware.Server.Open | src/middleware/tenant.ts:48-67 | acquire, BEGIN, set tenant, lookup, each with its fault; a refused request holds nothing, and its connection goes back clean iff the ROLLBACK got through or there was nothing to roll back |
| TenantMiddleware.Server.EnterTenant | src/middleware/tenant.ts:53-60 | the try block: it succeeds iff all three commands do, and then the tenant is set in a fresh transaction |
| TenantMiddleware.OpensIff | src/middleware/tenant.ts:48-61 | a request is opened iff all three commands succeed and its tenant is not deleted, and then holds the connection in a fresh transaction of its tenant |
| TenantMiddleware.Server.CloseClient | src/middleware/tenant.ts:81-88 | COMMIT or ROLLBACK, ROLLBACK again on an error, RESET, one release; the connection goes back clean iff CloseCleans |
| TenantMiddleware.Server.Query | src/projects/projects.service.ts:29-138 | the statement answers and writes what the tenant's rows say, on the request's own connection only, and keeps its transaction and tenant; a lost connection loses its writes |
| TenantMiddleware.Server.AbandonClient | src/middleware/tenant.ts:97-102 | ROLLBACK, RESET, one release; nothing is committed, and the connection goes back clean iff ErrorCleans |
| TenantMiddleware.Server.OnError | src/middleware/tenant.ts:93-103 | the request holds nothing afterwards, and an error is thrown on iff the ROLLBACK failed |
| TenantMiddleware.Server.CancelTenant | src/tenants/lifecycle.service.ts:17-19 | a tenant marks itself deleted, and no other |
| TenantMiddleware.CancelledIsRefused | src/middleware/tenant.ts:55-65 | the open hook refuses a deleted tenant, and the request holds nothing |
| Isolation.CancelledStaysOut | src/middleware/tenant.ts:55-60 | in no run is a request of a deleted tenant opened again |
| TenantMiddleware.OpenRefines | src/middleware/tenant.ts:48-67 | an open that succeeds or cleans is a step of the pool of the isolation model and keeps its books; a refused one cleans iff OpenCleans |
| TenantMiddleware.CloseRefines | src/middleware/tenant.ts:73-90 | the onSend hook is a commit or rollback step of the pool whenever it cleans, and cleans iff CloseCleans |
| TenantMiddleware.ErrorRefines | src/middleware/tenant.ts:93-103 | the same of the onError hook |
| TenantMiddleware.StatementRefines | src/projects/projects.service.ts:29-138 | a statement, or a connection lost during one, is a step of the pool |
| TenantMiddleware.HandledRefines | src/middleware/tenant.ts:48-103 | the pool stays in order after a hook iff the hook cleans |
| TenantMiddleware.BooksKept | src/middleware/tenant.ts:48-103 | for every run, whatever command fails: each acquisition is matched by one release or a holder, and a holder that can never release appears iff a request is opened while it is open |
| TenantMiddleware.AllReleasedIff | src/middleware/tenant.ts:48-103 | with no request open each connection has been released as often as acquired iff none was lost sight of |
| TenantMiddleware.LeaksIff | src/middleware/tenant.ts:61 | over every run from an idle pool that leaves no request open, some acquired connection is never released iff a request was opened while it was open |
| TenantMiddleware.Serve | src/middleware/tenant.ts:48-103 | the server on mutable state computes the run of the hooks, for any calls and faults |
| TenantMiddleware.ServedIsolated | src/middleware/tenant.ts:48-103 | hooks and statements in any order, opening twice included, with any faults that are cleaned up, compute a run of the isolation model and keep every idle connection clean |
| Sessions.RotationKeepsWholeIff | src/auth/refresh.service.ts:104-114 | a rotation keeps its family all-or-nothing exactly when the presented row is not revoked at commit time |
| Sessions.StepKeepsWhole | src/auth/refresh.service.ts:75-114 | login, rotation, reuse detection, reset and cancellation keep each family one user's and revoked all or nothing |
| Sessions.StepEvolves | src/auth/refresh.service.ts:81-113 | rows keep their identity, used_at and revoked_at are written at most once, and each new token comes from a login or a parent |
| Sessions.StepKeepsDeadRevoked | src/tenants/lifecycle.service.ts:15-28 | a deleted tenant has no live token, in every reachable state |
| Sessions.StepKeepsInv | src/auth/password-reset.service.ts:80-93 | every handler keeps the whole session invariant |
| SessionRuns.RunKeepsInv | src/auth/refresh.service.ts:43-117 | every run keeps it, and no row ever loses its identity, used_at or revoked_at |
| SessionRuns.ReachableIsGood | src/auth/refresh.service.ts:43-117 | so it holds in every state reached from the empty database |
| SessionRuns.UpheldForever | src/auth/refresh.service.ts:75-93 | a barred kind of token (of a family, a user's old families, a tenant) that is all revoked is never issued again by any run |
| SessionRuns.ReplayKillsFamily | src/auth/refresh.service.ts:75-93 | an unexpired replay after the overlap is detected, and no later presentation of any token of that family yields a token |
| SessionRuns.OverlapNeverExtends | src/auth/refresh.service.ts:77-79 | every token issued from a parent is issued within the overlap of the parent's single used_at |
| SessionRuns.CancelledTenantNeverServed | src/tenants/lifecycle.service.ts:15-28 | after cancellation no run issues a token of the tenant, by login or rotation |
| SessionRuns.FamiliesStartWithLogin | src/auth/login.service.ts:62-75 | a family that was not there before was started by a successful login of its user |
| SessionRuns.ResetLeavesOnlyNewLogins | src/auth/password-reset.service.ts:83-87 | after a reset every token issued to the user belongs to a family started by a later login |
| SessionRuns.ResetTokensAreSingleUse | src/auth/password-reset.service.ts:71-82 | in a serial run a reset token changes a password at most once |
| SessionRuns.CancelSparesOthersIff | src/tenants/lifecycle.service.ts:20-22 | the unqualified UPDATE leaves other tenants' tokens alone iff row security filters it or none of them is live |
| SessionAnswers.RefreshOnRows | src/auth/refresh.service.ts:69-114 | the rotation step gives those answers and changes no user, organization or reset |
| SessionAnswers.ExpiredNeverRotates | src/auth/refresh.service.ts:71-73 | in no run is a token issued for a row past its expiry |
| SessionAnswers.ConfirmOnRows | src/auth/password-reset.service.ts:71-93 | the confirmation step gives those answers |
| SessionAnswers.LoginOnRows | src/auth/login.service.ts:41-75 | a login is answered with a token iff the email finds a user of a live organization with that password |
| SessionAnswers.CancelOnRows | src/tenants/lifecycle.service.ts:15-28 | the cancellation step gives those answers |
| SessionAnswers.OnlyTheNewPassword | src/auth/password-reset.service.ts:81 | over serial runs, until the user's next reset, a login of the user succeeds with the new password only |
| SessionStore.Store.LogIn | src/auth/login.service.ts:30-91 | a token is added iff it is issued: unused, unrevoked, of a family of its own, to a user with that email and password whose organization is not deleted |
| SessionStore.Store.RotateRefreshToken | src/auth/refresh.service.ts:43-117 | each answer goes to exactly its rows: issued iff stored, unexpired, unrevoked, unused or within the overlap, fresh and committed; the token added, the stamp of the presented row, the family revoked, and every other row are pinned |
| SessionStore.Store.RequestPasswordReset | src/auth/password-reset.service.ts:36-60 | at most one unconsumed token is added, only for a user with that email whose organization is not deleted, and no other token changes |
| SessionStore.Store.ConfirmPasswordReset | src/auth/password-reset.service.ts:66-94 | answered iff the reset is there, unconsumed and unexpired, its user exists and the commit succeeds; then the password and nothing else of any user, the consumption and the revocations, or no change at all |
| SessionStore.Store.CancelTenant | src/tenants/lifecycle.service.ts:9-36 | the organization stamped deleted and the reached tokens revoked now, together or not at all |
| RotationRaces.RotationConserves | src/auth/refresh.service.ts:104-114 | one committed rotation adds one token and uses one up unless its mark-used update matched no row |
| RotationRaces.TokensConserved | src/auth/refresh.service.ts:104-114 | every interleaved run keeps the token balance of all families |
| RotationRaces.EveryFamilyConserved | src/auth/refresh.service.ts:104-114 | from an empty store: total is one plus rotations, unused is one plus missed mark-used updates, and used_at is written once for a used token and never for another |
| RotationRaces.LateCommitKeepsWholeIff | src/auth/refresh.service.ts:52-114 | a commit after its read keeps families whole iff no revocation came in between |
| RotationRaces.RunKeepsWholeIff | src/auth/refresh.service.ts:52-114 | families are whole in every state of an interleaved run iff each rotation that commits finds its presented token unrevoked |
| RotationRaces.RevivedFamily | src/auth/refresh.service.ts:52-114 | a run of login, read, reset, commit that leaves a live token in a revoked family |
| EndedSessions.CancelledStaysEndedIff | src/tenants/lifecycle.service.ts:15-28 | however logins, rotations and cancellations overlap, a deleted tenant has no live token in any state of a run iff no login or rotation commits for a tenant that is deleted by then |
| EndedSessions.DeletedSinceLookup | src/auth/login.service.ts:41-46 | such a tenant was not deleted when the handler looked or read |
| EndedSessions.LoginOutlivesCancel | src/auth/login.service.ts:35-81 | lookup, cancellation, commit leaves a live token of a deleted tenant |
| EndedSessions.ResetStaysEndedIff | src/auth/password-reset.service.ts:80-87 | in every state of a run each live session stems from a login that looked the user up after the last reset, iff no login or rotation commits whose lookup or read precedes that reset |
| EndedSessions.LoginOutlivesReset | src/auth/login.service.ts:35-81 | a login with the old password commits after the reset, and its session lives |
| EndedSessions.OverlapKeptIff | src/auth/refresh.service.ts:52-114 | over an interleaved run every token is issued within the overlap of its parent's used_at iff each rotation that commits for a used parent still does so within it |
| EndedSessions.LateRotation | src/auth/refresh.service.ts:52-114 | two handlers read an unused token, and the second issues from it long after the first |
| EndedSessions.UninterruptedRotation | src/auth/refresh.service.ts:52-114 | a rotation that nothing interrupts leaves the rows of the serial step |
| EndedSessions.UninterruptedLogin | src/auth/login.service.ts:35-81 | the same of a login |
| EndedSessions.UninterruptedEnds | src/tenants/lifecycle.service.ts:15-28 | the same of a cancellation and of a confirmed reset |
| ResetRaces.RunSingleUseIff | src/auth/password-reset.service.ts:70-82 | however confirmations overlap, every reset token changes a password at most once iff none commits for a token consumed since its lookup; consumed always means it changed one |
| ResetRaces.TwoConfirmations | src/auth/password-reset.service.ts:70-82 | two overlapping confirmations both change the password |
| ResetRaces.UninterruptedConfirmation | src/auth/password-reset.service.ts:70-82 | a confirmation that nothing interrupts writes the passwords and resets of the serial step |
| Webhooks.DeliveryIsRetryable | src/billing/webhook.service.ts:61-128 | a failed delivery leaves no trace, a first faultless one commits, a later one is a duplicate that changes nothing |
| Webhooks.DeliverOnRows | src/billing/webhook.service.ts:41-128 | a new faultless event is processed iff it is of the five kinds, names a subscription and its refetched customer is known and not refused, ignored otherwise; the row and plan written are given per Stripe status |
| Webhooks.StatusTable | src/billing/webhook.service.ts:8-22 | the internal status and forced plan of each Stripe status |
| Webhooks.BillingStore.RecordEvent | src/billing/webhook.service.ts:134-144 | records once, reports a duplicate, or fails without a trace |
| Webhooks.BillingStore.SyncSubscription | src/billing/webhook.service.ts:71-127 | ledger entry, subscription and plan change together or not at all, wherever the transaction fails |
| Webhooks.BillingStore.ProcessWebhookEvent | src/billing/webhook.service.ts:36-128 | the handler on mutable rows gives those answers and writes exactly those rows |
| WebhookRaces.StepKeepsInv | src/billing/webhook.service.ts:71-128 | each interleaved step keeps ledger and answers in agreement and syncs only by answering "processed" |
| WebhookRaces.ExactlyOnce | src/billing/webhook.service.ts:49-144 | under redelivery, overlap and failures an event is answered "processed" at most once, and its id is in the ledger iff exactly one delivery committed |
| WebhookRaces.StoredIsLastCommitted | src/billing/webhook.service.ts:61-128 | however handlers overlap, status, plan and period stored are those of the last handler to answer "processed" for the subscription |
| WebhookRaces.FreshIff | src/billing/webhook.service.ts:63-75 | the row says what the newest processed refetch wrote iff no handler that refetched earlier committed later, or the last of those wrote the same |
| WebhookRaces.StaleCommitWins | src/billing/webhook.service.ts:63-75 | two overlapping handlers leave the older refetch in the row |
| WebhookRaces.UninterruptedDelivery | src/billing/webhook.service.ts:61-128 | a handler that nothing interrupts leaves the rows and gives the answer of the delivery alone |
| WebhookRuns.UnsyncedUntouched | src/billing/webhook.service.ts:76-101 | a run in which no delivery syncs a subscription leaves its row alone |
| WebhookRuns.StoredIsLastSync | src/billing/webhook.service.ts:61-113 | after any reordered, duplicated, partly failing deliveries a stored subscription is what its last processed refetch maps to |
| WebhookRuns.Converges | src/billing/webhook.service.ts:61-113 | with Stripe unchanged and one subscription per customer, subscription and plan are as after a single delivery, or untouched if none was processed |
| WebhookRuns.TwoSubscriptionsDisagree | src/billing/webhook.service.ts:99-113 | two subscriptions of one customer do not converge |
| WebhookOrders.PlanIsLastSaid | src/billing/webhook.service.ts:99-113 | after any run the plan is what the last synced subscription that says a plan said, or unchanged |
| WebhookOrders.SetsSomeIff | src/billing/webhook.service.ts:61-113 | whether any delivery sets the plan does not depend on the order |
| WebhookOrders.OrderDoesNotMatterIff | src/billing/webhook.service.ts:99-113 | with Stripe unchanged, permuting the deliveries in any way leaves an organization's plan the same iff its subscriptions that say a plan all say the same |
| WebhookRuns.BillingStateIsLastSync | src/billing/enforcement.service.ts:18-43 | for both kinds of upsert: an unfiltered read gets the status and plan the tenant's last synced event wrote together, canceled comes with plan free, and writes are refused iff that refetch said past_due, unpaid, canceled or incomplete_expired; a filtered read gets the plan and "active" |
| WebhookRuns.OneOwnerNoClash | src/billing/webhook.service.ts:104-111 | no delivery meets a row of another tenant if Stripe never moves a subscription to another organization |
| BillingClashes.BillingStateSplits | src/billing/enforcement.service.ts:18-33 | after any run, clashes included, the status read is that of the last delivery to write one of the tenant's rows, and the plan that of the last to sync the tenant |
| BillingClashes.BillingReadsBackIff | src/billing/webhook.service.ts:103-113 | the billing state is what the tenant's last synced event wrote iff the last delivery to write one of its rows wrote the same status |
| BillingClashes.ClashIff | src/billing/webhook.service.ts:104-111 | for one delivery: iff it meets no row of another tenant, or the status read so far is the refetched one anyway |
| BillingClashes.ClashHidesStatus | src/billing/webhook.service.ts:104-111 | a clash after which a past-due organization reads "active" |
| WebhookRuns.NeverSubscribedIff | src/billing/enforcement.service.ts:26-31 | the tenant is active on its own plan without a subscription row, and an unfiltered read finds a row iff there is one |
| EnsureCustomer.StepKeepsExclusive | src/billing/billing.service.ts:21-27 | the row lock gives one call per tenant between read and commit, and that tenant has no customer yet |
| EnsureCustomer.StepAccountsFor | src/billing/billing.service.ts:39-57 | every customer created is stored, orphaned by a call that failed at the gateway or at COMMIT, or still in flight |
| EnsureCustomer.OneCustomerPerTenant | src/billing/billing.service.ts:18-58 | all successful callers of a tenant get the stored id, and customers created number at most one plus the calls that created one and failed, a timed-out gateway call included |
| EnsureCustomer.StoredIdNeverChanges | src/billing/billing.service.ts:45-49 | once stored, the id is the same in every later state |
| EnsureCustomer.UncontendedSucceeds | src/billing/billing.service.ts:20-51 | a call that need not wait, whose gateway and commit succeed, ends in success with the stored id |
| EnsureCustomer.Billing.LockAndRead | src/billing/billing.service.ts:20-37 | a call that need not wait is answered by the row: not found, the stored customer, nobody to bill; it goes on with the lock iff there is a customer to create |
| EnsureCustomer.Billing.CreateCustomer | src/billing/billing.service.ts:39-44 | a gateway failure, whether or not it made a customer, releases the lock and stores nothing |
| EnsureCustomer.Billing.StoreCustomer | src/billing/billing.service.ts:45-51 | after a successful commit the id returned is the id stored |
| Team.StepEvolves | src/team/team.service.ts:34-118 | rows stay with their tenant and address; at most one user enters per step, with an address of its own |
| Team.EmailsStayDifferent | src/db/schema/users.ts:21 | at most one user per tenant and address |
| Team.StepKeepsAccepts | src/team/team.service.ts:73-86 | every acceptance is backed by its user and its consumed invitation, and no two name the same user |
| Team.RunKeepsInv | src/team/team.service.ts:34-118 | every interleaved run keeps unique slugs and addresses, known tenants and accounted acceptances |
| Team.InvitationsAreSingleUse | src/team/team.service.ts:60-87 | however accepts overlap, at most one user is ever created from an invitation, and from all invitations of a tenant to one address |
| Team.ConsumedMeansAccepted | src/team/team.service.ts:79 | an invitation is marked consumed iff an accept of it succeeded |
| Team.SignupIsAllOrNothing | src/auth/signup.service.ts:26-67 | organization and owner appear together or not at all, a failed signup changes no row, and its conflict always means a taken slug |
| TeamOwners.TwoOwners | src/team/team.service.ts:104-109 | a filtered count above one leaves another owner |
| TeamOwners.SoleOwner | src/team/team.service.ts:104-109 | and a count of at most one means the target is the last |
| TeamOwners.WriteKeepsOwnedIff | src/team/team.service.ts:111 | a role update leaves every tenant an owner iff it does not demote the target's tenant's only owner, whatever happened since the guard |
| TeamOwners.OwnedThroughoutIff | src/team/team.service.ts:90-118 | with or without row security and however calls overlap, every tenant has an owner in every state of a run iff each role update that commits finds another owner left |
| TeamOwners.EveryTenantKeepsAnOwner | src/team/team.service.ts:90-118 | under row security every tenant has an owner in every state of a run in which two role changes of one tenant never overlap, whatever else does |
| TeamOwners.SerialRunsKeepOwners | src/team/team.service.ts:90-118 | hence, under row security, in every state reached by signup, invitations, accepts and role changes one at a time |
| TeamOwners.GuardIsExact | src/team/team.service.ts:103-111 | alone, a demotion is refused iff it would take the last owner, and otherwise changes just that role |
| TeamOwners.UnfilteredGuardKeepsOwnersIff | src/team/team.service.ts:105-107 | without row security: iff another owner is left in the target's tenant or the target is the only owner anywhere |
| TeamOwners.UnfilteredDemotion | src/team/team.service.ts:105-107 | two tenants with one owner each: a demotion passes and empties one |
| TeamOwners.ChangesForeignerIff | src/team/team.service.ts:96-111 | a role change, alone, changes a user of another tenant iff row security is off, the actor is at least admin, names one whose role differs, the guard passes and the commit succeeds |
| TeamOwners.MutualDemotion | src/team/team.service.ts:98-111 | two overlapping demotions leave a tenant without owner |
| TeamStore.Store.ProvisionTenant | src/auth/signup.service.ts:26-67 | the transaction on mutable rows: both rows or neither |
| TeamStore.Store.CreateInvitation | src/team/team.service.ts:35-57 | a member stores nothing; otherwise at most one open invitation of the actor's tenant is added and none replaced |
| TeamStore.Store.LookUpInvitation | src/team/team.service.ts:64-71 | the call goes on iff the invitation is there, not consumed and not expired; otherwise it is gone |
| TeamStore.Store.AcceptInvitation | src/team/team.service.ts:73-86 | user and mark together, or neither; it succeeds iff the address is still free and the commit does |
| TeamStore.Store.ReadRole | src/team/team.service.ts:96-104 | members are refused, unseen targets are not found, and the guard is entered iff an owner would be demoted |
| TeamStore.Store.CountOwnersSeen | src/team/team.service.ts:105-107 | the loop counts the owners the transaction sees |
| TeamStore.Store.GuardLastOwner | src/team/team.service.ts:104-109 | the demotion goes on iff the transaction sees two different owners, and is a conflict otherwise |
| TeamStore.Store.UpdateRole | src/team/team.service.ts:111 | the target's role and nothing else of any row changes; a failed transaction changes nothing |
| PageWalk.PageIsTop | src/projects/projects.service.ts:83-99 | a page is a descending run of the rows below the bound; it holds all of them, or it is full and every row left out comes after its last |
| PageWalk.WalkDescends | src/projects/projects.service.ts:61-101 | whatever is inserted and deleted between pages, the rows listed strictly descend, so none comes twice, if text never moves a timestamp forward |
| PageWalk.ForwardTextRepeatsARow | src/projects/projects.service.ts:97 | if a timestamp moves forward in text, a row is listed twice |
| PageWalk.WalksDescendIffTextNeverForward | src/projects/projects.service.ts:97 | no walk over any tables lists a row twice iff no timestamp moves forward in text |
| PageWalk.WalkListsIff | src/projects/projects.service.ts:61-101 | of the rows present at every request a finished walk lists exactly those that no turn steps over, between the cursor as read back and the row it was made from |
| PageWalk.TimestampsSurvive | src/projects/projects.service.ts:61-101 | with exact timestamps a finished walk lists every row present throughout |
| PageWalk.WalkEnds | src/projects/projects.service.ts:94-99 | a walk over tables drawn from a finite stock of rows ends |
| PageWalk.FixedWalkIsSorted | src/projects/projects.service.ts:86-100 | on a fixed table the pages join to the whole list, newest first |
| PageWalk.FixedWalkEndsIff | src/projects/projects.service.ts:94-99 | and it is finished after n pages iff n pages have room for the rows |
| PageWalk.LossyTextLosesARow | src/projects/projects.service.ts:97 | if a timestamp moves back in text, two rows of that instant lose the second |
| PageWalk.WalksCompleteIffTextIsExact | src/projects/projects.service.ts:97 | every finished walk on a fixed table is complete iff no timestamp changes in text |
| ListProjects.ReadCursor | src/projects/projects.service.ts:65-84 | an empty cursor starts the list; another is refused iff it is no timestamp, bar and id shape, fails iff a cast does, and else bounds the page by what it says |
| UuidText.ShowReads | src/projects/projects.service.ts:79 | the text of every id passes the shape guard and reads back as the id |
| ListProjects.SoundCodecsExist | src/projects/projects.service.ts:97 | the laws assumed of the text conversions are met by an exact codec and by one that loses digits of timestamps |
| ListProjects.CursorRoundTrip | src/projects/projects.service.ts:74-77 | a cursor is read back as the row it was made from, up to what its timestamp loses in text, however many bars the timestamp contains |
| ListProjects.RejectedIff | src/projects/projects.service.ts:75-81 | the cursors that pass the guards are exactly the texts of a parseable timestamp, a bar and 36 hexadecimal digits or dashes |
| ListProjects.HandleList | src/projects/projects.service.ts:61-101 | one request: the page below the bound with the rows as they stand and the cursor of its last row, or the refusal of a bad cursor |
| ListProjects.OneMoreRow | src/projects/projects.service.ts:85-99 | asking for one row more than the page tells whether another page follows |
| ListProjects.FollowIsWalk | src/projects/projects.service.ts:61-101 | a client following next_cursor is never refused and sees the walk on keys |
| ListProjects.NothingListedTwice | src/projects/projects.service.ts:61-101 | no project is listed twice and newer ones come first, while projects are created, changed and deleted |
| ListProjects.EveryLastingProjectListedOnce | src/projects/projects.service.ts:61-101 | a completed visit lists every project present throughout exactly once, if timestamps survive their text |
| ListProjects.VisitEnds | src/projects/projects.service.ts:94-99 | with rows from a finite stock a client comes to its last page and is never refused |
| ListProjects.FixedTableVisit | src/projects/projects.service.ts:61-101 | on a fixed table a client with exact timestamps is done iff its requests have room for the rows, and has then listed all of them, newest first |

## Left out

- Foreign code: Argon2, SHA-256, random bytes, JWT signing, base64url and timestamp text are fresh or injective values, or parameters with the laws used stated (`ListProjects.Sound`).
- Random values: row ids of different tenants, family ids and Stripe customers never collide; this is a hypothesis wherever it is needed (`Isolation.AllFresh`, `Sessions.Plausible`, `RotationRaces.FreshFamilies`).
- Fastify wiring, Zod schemas, response envelopes and header formatting other than Retry-After. The limit of a page is at least 1, as `src/routes/v1/projects.schemas.ts:19` demands.
- SQL text, the Stripe SDK and the Redis client: each statement or call is its effect on rows or keys. Emails are taken as already lower-cased.
- Audit rows, the project quota (`src/billing/enforcement.service.ts:50-61`), API keys, redirect allow-lists and slug generation: small or without lasting state.
- Floating-point rounding in the script, and data lost by a Redis restart; the limiter's fail-open and fail-closed branches.
- Pool waiting and exhaustion. The pool library is taken to discard a lost connection on release and to put a new one in its place.
- Restrictive policies: those on a table are taken to be permissive, as the script's are.
- Isolation.Noninterference: about rows and results, not about timing; the pool is taken to hand out idle connections only.
- TenantMiddleware.ServedIsolated: for runs in which every hook that gives a connection back gives it back clean; `Connection.HooksCleanIff` says exactly when that is, and `TenantMiddleware.HandledRefines` that the pool is out of order otherwise.
- SessionRuns.UpheldForever: serial; the interleaved conditions are `RotationRaces.RunKeepsWholeIff` for families, `EndedSessions.CancelledStaysEndedIff` for tenants and `EndedSessions.ResetStaysEndedIff` for users.
- SessionRuns.OverlapNeverExtends: serial; `EndedSessions.OverlapKeptIff` has the interleaved condition.
- SessionRuns.ResetTokensAreSingleUse: serial; `ResetRaces.RunSingleUseIff` has the interleaved condition.
- WebhookRuns.BillingStateIsLastSync: serial, with strictly increasing transaction times; with `rls = false` for deliveries that meet no row of another tenant; `BillingClashes.BillingReadsBackIff` is exact without that.
- WebhookRuns.Converges: needs one subscription per customer and one customer per organization; `WebhookOrders.OrderDoesNotMatterIff` is exact for the plan.
- TeamOwners.EveryTenantKeepsAnOwner: for row security on and no two role changes of one tenant overlapping; `TeamOwners.OwnedThroughoutIff` is exact without either.
- TokenBucket.ExpiryUnobservable: needs a clock that does not go back; the rate bound does not.
- One clock reading per rotation where the source takes two (`src/auth/refresh.service.ts:71-78`).
- Which of several users with one email a lookup picks (`src/auth/login.service.ts:41-47`) is a parameter, and a pick that matches nobody stands for finding nobody.
