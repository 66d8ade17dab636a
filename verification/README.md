# Verification of nats-admin

This project models the stateful core of nats-admin in Dafny and proves what holds of it over
whole runs. `dafny verify dfyconfig.toml` checks all of it.

## What is modelled

**Tenants, credentials and the resolver.** A tenant's account token lives twice: in its
Postgres row and in the NATS resolver. Nothing makes the two change together. `Protocol`
states every operation of the tenant and credential services as a program of single
statements: read a row, decode and re-sign a token, write a row, push or delete at the
resolver. Each statement can succeed, fail without effect, or take effect and lose its reply.
Operations keep what they have read in local variables, so they can write back something
stale. A machine interleaves any number of operations with crashes, with the passing of time
and with a resolver that loses entries.

- `Domain` has keys, tokens, boxes and rows; `Slug` has the slug pattern.
- `Effects` and `History` prove, by rely and guarantee over single statements, what holds in
  every interleaving; `Spared` adds that revocation strikes nobody it was not asked for.
- `StaleWrites` proves exactly which stale write-backs make a row's token accept a revoked
  user again or part it from its columns. `Revocations` proves that a run without stale
  write-backs does no such harm to a row, and that there are none when no two
  read-modify-write windows overlap on one tenant, and so when requests are served one at a
  time, whatever fails and wherever they are cut off.
- `Rejection` adds the resolver, which the NATS server asks and which can lag behind the row:
  exactly when row and resolver reject a user for good.
- `Recovery`, `RevokeRetry`, `Lifecycle`, `Deletion`, `Undeletion`, `Creation`, `Seeds`,
  `Synchrony` and `Replies` prove recovery by ReconcileAll, convergence under retry, suspension, deletion,
  all-or-nothing creation, stored seeds, a resolver that needs no reconciling, and what each
  success reply means. `Answers` proves the converse: exactly when each reply comes, and what it
  leaves behind whatever fails.
- `Races` describes a request that straddles another; `Interference` gives what that undoes.
- `Services` writes the operations as methods of objects that change tables and resolver in
  place, and proves each equal to its program. `Alone` proves that executing a program from
  start to end is a run of the machine.

**The JetStream connection cache.** `ConnCache` interleaves goroutines inside GetConn, the
closed-handler and Close, statement by statement, with a read-write lock and connections that
drop, recover and die. `ConnManager` has the same methods on an object, with an arbitrary
change by others between the two looks at the map.

**Single-flight re-authentication.** `Reauth` is an event machine: requests that fail with an
expired session, the bus, the modal and the stored token. A macrotask starts only when every queued
microtask has been executed, as a browser's event loop does it. `Logins` proves which replies lead
to a wait, which token a request carries, and what the modal's logins and refusals do.

**Smaller parts.** `Monitor` has the server list, `ApiKeys` the API keys.

## Assumptions

- Cryptography is symbolic. A public key is the image of its seed; a box opens only under its
  own key and nonce, as an AEAD does in the sense of section 2 of RFC 5116; a token is its
  claims and its signer; a digest is never shared by two raw keys. Encoding a token stamps the
  time and keeps every other claim.
- Nkeys, row ids, nonces and raw API keys come from counters, so each is new.
- The clock counts seconds and never goes back.
- Revoking a key in a list keeps the later time, and a user is rejected when its time of issue
  is at or before the entry; both are the NATS JWT library's rules.
- A statement of the database is atomic. A push overwrites the entry of its subject.
- The provider of the modal is mounted and does not complete a round while the event that
  raises it is still being handled. React has rendered before the next event arrives.

## Where a plausible claim is false

- A credential marked as revoked is not always rejected by its row's token: an overlapping
  UpdateLimits (`RaceForgetsRevocation`) or the overlapping Revoke of another credential
  (`RevokesForgetEachOther`) makes row and resolver accept its user. `AlwaysRejectedIff` is the
  exact condition for the row; a stale write-back alone does the row no harm, as when two
  UpdateLimits overlap.
- Nor is it always rejected by the resolver when the row's token rejects it: a push that comes
  late serves an older token (`LatePushServesRevoked`). `ShutOutForGoodIff` is the exact
  condition for row and resolver together.
- A token does not always carry its row's columns: `RevokeRestoresLimits`, with the exact
  condition in `AlwaysMatchingIff`.
- Deletion is not always final: `SuspendRevivesDeleted`, with the exact condition in
  `RevivalIff`. A deleted tenant's data are not always left alone, nor does its account always
  stay absent: `UpdateServesDeleted`, with the exact conditions in `FrozenIff` and
  `ReappearanceIff`.
- A Create that does not succeed, or is cut off, is invisible exactly under the condition of
  `CutCreateIsInvisible`; a row it has inserted keeps its name and slug even so:
  `TakenNamesStayTaken`.
- A repeated Revoke does not repeat a lost push: `RevokingAgainDoesNothing`. ReconcileAll does.
- The design document of the session modal says that the promise rejects after three failures
  (`docs/superpowers/specs/2026-06-08-session-expired-modal-design.md`, line 48 and following).
  In the code it stays pending: `FallbackSettlesNobody`.
- `docs/nats-auth.md` shows revocation as push first, then database. The code writes the
  database first and pushes last; the model follows the code.

## Model

| member | source | states |
|---|---|---|
| History.ResolverNeverAhead | backend/internal/tenant/service.go:89-108 | In every interleaving of all operations, with failures, lost replies, crashes and a resolver that loses entries, each resolver entry sits under the account key of one tenant and is a token that tenant's row carries or carried before |
| History.AccountKeysAreDistinct | backend/internal/tenant/service.go:50-55 | In every interleaving no two tenants, deleted ones included, share an account key |
| History.TokensKeepIdentity | backend/internal/tenant/service.go:118-135 | In every interleaving every token a row ever carried is signed by the operator, names the same account, keeps the expiry of creation, and revokes only users of credentials of that same tenant |
| History.SigningChain | backend/internal/credential/service.go:52-84 | In every interleaving each issued user token is signed by and names its own tenant's account, its sealed seed opens to its own key, and each stored account seed opens to the seed of its tenant's key |
| Seeds.VisibleTenantsAreSeeded | backend/internal/tenant/service.go:93-101 | In serial runs whose Creates are compensated, every visible tenant that is not still being created has a stored seed that opens to the seed of its own account key |
| Spared.UserKeysAreDistinct | backend/internal/credential/service.go:63-68 | In every interleaving no two credentials of any tenants share a user key |
| Spared.OnlyTheAskedAreRejected | backend/internal/credential/service.go:152-161 | In every interleaving a token that a row carries or ever carried rejects a user only if a Revoke of that very credential was requested |
| StaleWrites.AlwaysRejectedIff | backend/internal/credential/service.go:143-166 | The exact condition over any interleaved run: every credential with revoked_at set is rejected by its tenant's token at every moment if and only if each write-back that took effect was computed from a token rejecting every marked credential of the tenant, apart from a Revoke's own, and each revoked_at was set under a token rejecting that credential |
| StaleWrites.MarksKeptIff | backend/internal/tenant/service.go:114-143 | The same for one event: from every reachable state in which marked credentials are rejected, the event keeps that if and only if the statement it executes with effect meets this condition |
| StaleWrites.AlwaysMatchingIff | backend/internal/credential/service.go:143-161 | The exact condition over any interleaved run: every row's token carries the row's own columns at every moment if and only if each Revoke that wrote back carried limits matching the columns of that moment |
| StaleWrites.LimitsStayIff | backend/internal/credential/service.go:143-161 | The same for one event: of all statements only a Revoke's write-back can break it, and does exactly when the limits it has read do not match the row's columns |
| StaleWrites.WriteBackKeepsExactlyWhatWasRead | backend/internal/credential/service.go:148-161 | For any in-flight write-back of UpdateLimits or Revoke, stale or not: afterwards a credential's user is rejected if and only if the token that was read rejects it, or the write is of the Revoke of that very credential |
| StaleWrites.RevokedIsRejected | backend/internal/credential/service.go:148-166 | If no statement harmed the marks, every credential with revoked_at set is rejected by its tenant's current token |
| StaleWrites.TokenCarriesColumns | backend/internal/tenant/service.go:122-143 | If no Revoke wrote back foreign limits, each row's token carries exactly its four JetStream columns, and its connection and subscription limits, or the no-limit default where the column is zero or less |
| StaleWrites.FreshWritesDoNoHarm | backend/internal/tenant/service.go:114-143 | A run without stale write-backs meets both conditions, so its rows' tokens reject every marked credential and carry their columns; what the resolver serves is another matter |
| Interference.RaceForgetsRevocation | backend/internal/tenant/service.go:114-143 | With a resolver configured, from every idle state and for every live credential that the row's token does not reject yet, an UpdateLimits that straddles a successful Revoke leaves the credential marked as revoked and accepted by row and resolver |
| Interference.LatePushServesRevoked | backend/internal/tenant/service.go:143-150 | With a resolver configured, from every idle state and for every live credential that the row's token does not reject yet: an UpdateLimits that has written its row and has its push to come straddles a whole successful Revoke, and then the row rejects the user while the resolver serves the older token, which does not |
| Rejection.ShutOutForGoodIff | backend/internal/credential/service.go:148-170 | The exact condition for row and resolver together, in every interleaving: both reject a user through whatever follows if and only if both do now and no operation in flight will write or push a token of the tenant that does not reject the user |
| Rejection.RevokedForGood | backend/internal/credential/service.go:124-171 | A Revoke that succeeds while nothing else is in flight is final: whatever is requested afterwards and whatever fails, neither row nor resolver accepts the user again |
| Interference.RevokesForgetEachOther | backend/internal/credential/service.go:143-161 | With a resolver configured, from every idle state with two live credentials of a tenant, a Revoke of one that straddles the Revoke of the other, which the row's token does not reject yet, leaves that one marked as revoked and accepted by row and resolver |
| Interference.RevokeRestoresLimits | backend/internal/credential/service.go:143-161 | With a resolver configured, from every idle state a Revoke that straddles an UpdateLimits puts the old limits back under the new columns; the row is consistent then if and only if the old limits match the new columns |
| Revocations.RevocationsOnlyGrow | backend/internal/tenant/service.go:118-143 | If no token write-back was stale, a revocation that a row's token ever held is still there, at no earlier time |
| Revocations.DisjointWindowsAreFresh | backend/internal/tenant/service.go:114-143 | If no two read-modify-write windows overlap on one tenant, no write-back is stale |
| Revocations.SerialIsFresh | backend/internal/credential/service.go:143-161 | Requests served one at a time, whatever fails and wherever they are cut off, never write back a stale token |
| Recovery.Recovers | backend/internal/tenant/service.go:236-260 | End-to-end recovery: after any run whose write-backs did no harm to the marks, stale or not, one failure-free ReconcileAll leaves a resolver that holds every active tenant's current token and rejects every user of an active tenant whose credential is marked as revoked |
| Recovery.ReconcileRefinesOverride | backend/internal/tenant/service.go:240-260 | ReconcileAll from any reachable state, each push ok, failed or with a lost reply: the resolver is overridden by exactly the pushes that took effect, all other keys are untouched, pushed counts good replies, and pushed plus failed is the number of active tenants |
| Recovery.LoopIsOverride | backend/internal/tenant/service.go:248-258 | The loop over any listing overrides the resolver by what was pushed and counts every active row once |
| Recovery.OrderIsIrrelevant | backend/internal/tenant/repository.go:79-86 | Whatever pushes fail or lose their reply, when every row meets the same outcome in either order the loop leaves the same resolver and reports the same counts |
| Recovery.CleanReconcileRestores | backend/internal/tenant/service.go:240-260 | A failure-free ReconcileAll from any reachable state brings the resolver up to date and reports every active tenant as pushed, none as failed |
| Synchrony.IdleIsUpToDate | backend/internal/tenant/service.go:143-150 | In serial runs in which no operation is stopped between its change of the database and its change of the resolver, and the resolver loses no account in use, the resolver holds every active tenant's current token whenever nothing is in flight, without any ReconcileAll |
| Recovery.SecondReconcileChangesNothing | backend/internal/tenant/service.go:236-239 | A second failure-free ReconcileAll changes nothing |
| Recovery.ReconcileKeepsCurrent | backend/internal/tenant/service.go:236-239 | Over an up-to-date resolver a failure-free ReconcileAll changes nothing; over an empty one it leaves the keys of active tenants only |
| RevokeRetry.RetryConverges | backend/internal/credential/service.go:124-171 | After a Revoke cut off or failing anywhere before revoked_at is set, a failure-free retry leaves exactly the stores of one failure-free Revoke, up to the times recorded |
| RevokeRetry.CleanRevoke | backend/internal/credential/service.go:124-171 | A Revoke of a live credential in which nothing fails has the effect RevokeEffect describes: token, mark and resolver entry, nothing else |
| Lifecycle.SuspensionHolds | backend/internal/tenant/service.go:248-251 | In every interleaving, a tenant that is inactive, absent from the resolver and threatened by nothing in flight stays so until a request to activate it, update its limits, revoke one of its credentials or reseed it is admitted |
| Lifecycle.SuspendBars | backend/internal/tenant/service.go:154-165 | A Suspend that reports success with a resolver present has removed the account and set the status, and changed nothing else |
| Lifecycle.SuspendedStaysOut | backend/internal/tenant/service.go:154-165 | After a Suspend that succeeds with nothing else in flight, the account stays out of the resolver through everything that follows, ReconcileAll included, until the next request that targets the tenant |
| Deletion.RevivalIff | backend/internal/tenant/repository.go:132-144 | The exact condition, in every interleaving: a deleted tenant can become visible again if and only if an operation that found it visible earlier is in flight to set its status |
| Deletion.DeletedStaysDeleted | backend/internal/tenant/repository.go:132-144 | In every interleaving, with no such operation in flight, a deleted tenant stays deleted through whatever follows |
| Undeletion.FrozenIff | backend/internal/tenant/repository.go:57-77 | The exact condition, in every interleaving: a deleted tenant's row with its token, its seed and its credentials never change again, whatever follows, if and only if no operation in flight is about to change them, write-backs that repeat the row and Issues that find no seed or break a constraint not counted |
| Undeletion.ReappearanceIff | backend/internal/tenant/repository.go:57-77 | The exact condition, with a resolver configured: a deleted tenant's absent account can come back to the resolver if and only if an operation in flight will push it or will set the tenant's status |
| Deletion.FrozenInSerialRuns | backend/internal/tenant/repository.go:57-77 | In serial runs, whatever fails, no such operation is ever in flight for a deleted tenant, so its row, seed and credentials never change again |
| Interference.SuspendRevivesDeleted | backend/internal/tenant/repository.go:132-137 | From every idle state a Suspend that straddles a successful Delete of the same visible tenant makes it visible again, for the status update has no guard |
| Interference.UpdateServesDeleted | backend/internal/tenant/service.go:113-152 | With a resolver configured, from every idle state an UpdateLimits that straddles a Delete rewrites the deleted row and has its account served again |
| Creation.CreatedIsComplete | backend/internal/tenant/service.go:45-111 | A Create that succeeds has added one active row with the requested name, slug, columns, limits (minus one where the column is not positive) and an expiry 31536000 seconds after issue, a seed that opens to its key, and its token at the resolver, touching no other row |
| Creation.CutCreateIsInvisible | backend/internal/tenant/service.go:89-108 | The exact condition for a Create, however its statements fare and after whichever of them it is cut off, to leave Get and List as they were: its INSERT has not taken effect, or its soft delete has |
| Creation.FailedCreateIsInvisible | backend/internal/tenant/service.go:89-108 | A Create that executes to its end without finishing reports a failure, and leaves Get and List as they were if and only if its INSERT had no effect, or the INSERT replied ok and the soft delete took effect |
| Creation.RowsPersist | backend/internal/tenant/repository.go:139-144 | In every interleaving rows are never removed and keep their name and slug |
| Creation.ListIsNewestFirst | backend/internal/tenant/repository.go:79-109 | In every interleaving List returns each visible row once, newest first: of two rows in it the earlier one was never there without the later one |
| Creation.TakenNamesStayTaken | backend/internal/db/migrations/000001_init.up.sql:11-12 | Once a row has taken a name or slug, be it soft-deleted by its own failed Create, no later Create with that name or slug inserts a row: a compensated Create cannot be retried |
| Slug.PatternAcceptsExactlySlugs | backend/internal/tenant/service.go:16 | For every string, the pattern accepts exactly those of length 1 to 50 over lower-case letters, digits and hyphen that neither start nor end with a hyphen |
| Replies.UpdatedIsInForce | backend/internal/tenant/service.go:113-152 | An UpdateLimits that succeeds from any reachable state has the new columns in the row, a token that enforces exactly them and keeps identity, expiry and revocations, and that token at the resolver; nothing else differs |
| Replies.ActivatedIsServed | backend/internal/tenant/service.go:167-178 | An Activate that succeeds has made the tenant active and its row's token served, and nothing else |
| Replies.DeletedIsHidden | backend/internal/tenant/service.go:180-189 | A Delete that succeeds has hidden exactly this tenant, and has removed the account unless the removal, whose error is dropped, had no effect |
| Replies.IssuedIsUsable | backend/internal/credential/service.go:46-122 | An Issue that succeeds has added one credential under a fresh id and key, signed by and naming its tenant's account, and the tenant's token does not reject it |
| Replies.RevokedIsOut | backend/internal/credential/service.go:124-171 | A Revoke that succeeds on an unmarked credential has marked it, and row and resolver now reject its user and all they rejected before, nobody else |
| Answers.UpdateLimitsAnswers | backend/internal/tenant/service.go:113-152 | From every reachable state, with and without a resolver and whatever fails: UpdateLimits succeeds if and only if the tenant is visible and every statement it executes replies ok, and otherwise the first thing to go wrong names the error |
| Answers.UpdateLimitsLeaves | backend/internal/tenant/service.go:139-150 | Whatever UpdateLimits replies: the row has new columns and a token that enforces them if and only if the write is reached and takes effect, and the resolver's entry is that token if and only if the push is and does; nothing else changes |
| Answers.ActivateAnswers | backend/internal/tenant/service.go:167-178 | From every state and whatever fails: Activate completes if and only if the tenant is visible and read, push (with a resolver) and update reply ok; the exact error otherwise, and exactly how far row and resolver have changed |
| Answers.SuspendAnswers | backend/internal/tenant/service.go:154-165 | The same for Suspend: success, error and effect from the outcomes of read, removal (with a resolver) and update |
| Answers.DeleteAnswers | backend/internal/tenant/service.go:180-189 | The same for Delete, which no outcome of the removal stops |
| Answers.ReseedAnswers | backend/cmd/nats-admin/server.go:101-107 | The same for a reseed, which without a resolver never succeeds |
| Answers.PushAnswers | backend/internal/tenant/service.go:229-234 | The push that ends a Revoke completes if and only if there is a resolver and it replies ok, and writes the entry if and only if it takes effect |
| Answers.ReconcileAnswers | backend/internal/tenant/service.go:240-260 | ReconcileAll without a resolver or with a failed listing says so and changes neither store; in every other case it reports counts, whatever pushes fail |
| Answers.IssueAnswers | backend/internal/credential/service.go:46-122 | From every reachable state and whatever fails: Issue succeeds if and only if the tenant is visible and has a stored seed, it has no credential of that name, and every statement replies ok; the exact error otherwise, and exactly when the row is inserted |
| Answers.RevokeAnswers | backend/internal/credential/service.go:124-171 | From every reachable state and whatever fails: Revoke succeeds if and only if it finds the tenant's credential, and this is marked already or the tenant is visible, every statement replies ok and there is a resolver; the exact error otherwise, that of an unknown or foreign credential included |
| Answers.RevokeLeaves | backend/internal/credential/service.go:161-169 | Whatever Revoke replies: the row's token, then the mark, then the resolver's entry change, each if and only if its statement is reached and takes effect; nothing else changes |
| Answers.CreateAnswers | backend/internal/tenant/service.go:45-111 | From every reachable state and whatever fails: Create succeeds if and only if slug, name and lengths are admissible and every statement replies ok; a bad slug has an error of its own |
| Alone.ExecIsRun | backend/internal/tenant/service.go:113-152 | An operation executed from start to end is a run of the interleaved machine in which nothing else moves |
| Alone.ServedAlone | backend/internal/tenant/service.go:113-152 | A request served while nothing interferes takes the machine to the state the big-step semantics computes |
| Services.TenantService.Create | backend/internal/tenant/service.go:45-111 | Create leaves stores and result exactly as its statement-by-statement program prescribes, for every outcome of every statement |
| Services.TenantService.UpdateLimits | backend/internal/tenant/service.go:113-152 | UpdateLimits leaves stores and result exactly as its statement-by-statement program prescribes, for every outcome of every statement |
| Services.TenantService.Suspend | backend/internal/tenant/service.go:154-165 | Suspend leaves stores and result exactly as its statement-by-statement program prescribes, for every outcome of every statement |
| Services.TenantService.Activate | backend/internal/tenant/service.go:167-178 | Activate leaves stores and result exactly as its statement-by-statement program prescribes, for every outcome of every statement |
| Services.TenantService.Delete | backend/internal/tenant/service.go:180-189 | Delete leaves stores and result exactly as its statement-by-statement program prescribes, for every outcome of every statement |
| Services.TenantService.ReconcileAll | backend/internal/tenant/service.go:240-260 | ReconcileAll, a loop over the listing, leaves stores and result exactly as its statement-by-statement program prescribes, for every outcome of every statement |
| Services.TenantService.PushAccountJwt | backend/internal/tenant/service.go:228-234 | PushAccountJWT leaves stores and result exactly as its statement-by-statement program prescribes, for every outcome of every statement |
| Services.TenantService.AccountSeedForSigning | backend/internal/tenant/service.go:199-209 | The stored seed, opened with the master key; a missing row and a box that does not open are told apart |
| Services.TenantService.Reseed | backend/cmd/nats-admin/server.go:101-107 | The reseed closure leaves stores and result exactly as its statement-by-statement program prescribes, for every outcome of every statement |
| Services.CredentialService.Issue | backend/internal/credential/service.go:46-122 | Issue leaves stores and result exactly as its statement-by-statement program prescribes, for every outcome of every statement |
| Services.CredentialService.Revoke | backend/internal/credential/service.go:124-171 | Revoke leaves stores and result exactly as its statement-by-statement program prescribes, for every outcome of every statement |
| Services.Database.GetTenant | backend/internal/tenant/repository.go:57-77 | Finds the row unless it is deleted |
| Services.Database.List | backend/internal/tenant/repository.go:79-108 | The loop returns the visible rows, newest first |
| Services.Database.UpdateJwtAndLimits | backend/internal/tenant/repository.go:110-130 | Writes token and columns of an existing row atomically, whatever its status; fails when there is none |
| Services.Database.UpdateStatus | backend/internal/tenant/repository.go:132-144 | Sets the status whatever it was, for SetStatus and SoftDelete |
| Services.Database.InsertTenant | backend/internal/db/migrations/000001_init.up.sql:9-25 | Inserts unless name or slug is taken by any row, deleted ones included, or too long |
| Services.Database.UpdateJwt | backend/internal/tenant/service.go:222-226 | Overwrites the token column with no guard and no complaint about a missing row |
| Services.Database.SaveEncryptedSeed | backend/internal/tenant/repository.go:146-158 | Upserts the sealed seed and counts its version |
| Services.Database.InsertCredential | backend/internal/credential/repository.go:38-51 | Inserts unless the tenant already has a credential of that name |
| Services.Database.RevokeCredential | backend/internal/credential/repository.go:97-102 | Sets revoked_at whatever it was |
| Services.Resolver.Push | backend/internal/tenant/resolver.go:27-47 | Overwrites the entry of the token's subject: applied with a good reply, not applied, or applied with a lost reply |
| Services.Resolver.Delete | backend/internal/tenant/resolver.go:49-69 | Removes the entry, with the same three outcomes |
| ConnCache.ConnectsAreBounded | backend/internal/jetstream/manager.go:26-58 | In every interleaving of GetConn calls, Close, drops, recoveries and closed-handlers, the connects made for a tenant are at most one plus its drops plus its cache deletions |
| ConnCache.CallersShare | backend/internal/jetstream/manager.go:26-58 | Without drops or deletions for a tenant, all callers were handed one connection, the cached one if any |
| ConnCache.QuietCallersShare | backend/internal/jetstream/manager.go:26-58 | While connections neither drop nor close and nobody calls Close, every GetConn for a tenant returns the same connection |
| ConnCache.ConnectionsBelong | backend/internal/jetstream/manager.go:53-57 | In every interleaving a connection cached or returned for a tenant was made by a connect for that tenant |
| ConnCache.OnlyTheWriterWrites | backend/internal/jetstream/manager.go:34-57 | In every interleaving the map changes only at a statement of the goroutine that holds the write lock, while nobody else holds the lock in any mode |
| ConnCache.NeverUpgrades | backend/internal/jetstream/manager.go:27-35 | Nobody waits for the write lock while holding the lock in any mode |
| ConnCache.SomebodyCanMove | backend/internal/jetstream/manager.go:26-58 | No deadlock: while a call is unfinished some goroutine can take its next statement, even if new readers stand back for waiting writers |
| ConnCache.EveryCallEnds | backend/internal/jetstream/manager.go:26-75 | However goroutines are scheduled once calls stop arriving and connections stop changing, only boundedly many statements remain, and a schedule that cannot be extended has finished every call |
| ConnCache.HandlerEvictsWhateverIsCached | backend/internal/jetstream/manager.go:43-51 | A closed-handler deletes by tenant: whichever connection closed, the one cached now leaves the map and itself stays as it was |
| ConnManager.FastPath | backend/internal/jetstream/manager.go:27-32 | Undisturbed, the read-locked part returns the cached connection exactly when it is connected, and changes nothing |
| ConnManager.SlowPath | backend/internal/jetstream/manager.go:34-57 | Undisturbed, the write-locked part of the machine does what Fetched says: reuse, replace after a successful connect, or fail and change nothing |
| ConnManager.HandlerPath | backend/internal/jetstream/manager.go:43-48 | Undisturbed, the machine's closed-handler deletes the tenant's entry, whichever of its connections closed, as the method OnClosed does |
| ConnManager.ClosePath | backend/internal/jetstream/manager.go:68-75 | Undisturbed, and in whatever order the map yields its entries, the machine's Close leaves every cached connection closed, every other one as it was, and the map empty, as the method Close does |
| ConnManager.Manager.GetConn | backend/internal/jetstream/manager.go:26-58 | The method, with whatever other goroutines do between its two looks at the map, returns and leaves what Fetched says |
| ConnManager.Manager.Close | backend/internal/jetstream/manager.go:68-75 | Every cached connection ends up closed, every other one stays as it was, and the map is empty |
| Reauth.SingleFlight | frontend/src/lib/auth-events.ts:3-18 | Over every event sequence, rounds raised equal completions plus one exactly while a re-authentication is in flight, which is exactly while one handler is registered and the modal is open |
| Reauth.FirstCompletionDecides | frontend/src/api/client.ts:13-31 | Over every event sequence, a request that fails with an expired session continues exactly when a completion after it joined exists, and gets the outcome of the first one: it is sent again with exactly that login's token, or its caller gets the original failure |
| Reauth.LoginNeverWaits | frontend/src/api/client.ts:15 | The login request a re-authentication depends on never waits for a re-authentication |
| Reauth.FallbackSettlesNobody | frontend/src/components/auth/reauth-modal.tsx:41-46 | After the third failed login the round stays pending for good: no waiter is told anything, unlike the design document's promise of a rejection |
| Reauth.WaitersCanBeReleased | frontend/src/components/auth/reauth-modal.tsx:32-50 | Unless the fallback was taken, a waiter can always still be released, by the answer to the login in flight or by cancelling |
| Reauth.StepKeeps | frontend/src/components/auth/reauth-provider.tsx:10-31 | Every event keeps the page's invariant: one pending round at most, earlier rounds settled by the completion of their number, and the stored token equal to the token any woken waiter is about to use |
| Logins.ReplyDecides | frontend/src/api/client.ts:13-31 | Over every event sequence: a refusal with status 401 and the SessionExpired header, of anything but the login, leads to a wait for the round in flight or a new one; every other refusal reaches its caller unchanged, an accepted reply answers it, and neither raises a round |
| Logins.SentWithStoredToken | frontend/src/api/client.ts:7-11 | Over every event sequence: a new request carries the token stored at that moment |
| Logins.SubmittedWithStoredToken | frontend/src/components/auth/reauth-modal.tsx:32-36 | So does the modal's login, which then is the one the modal waits for |
| Logins.LoginTokenIsCarried | frontend/src/api/client.ts:7-11 | Over every event sequence: once a login has been answered with a token, every request sent afterwards, new or repeated, carries it, until another login is answered or another page changes the storage |
| Logins.LoginReleases | frontend/src/components/auth/reauth-modal.tsx:36-38 | Over every event sequence: a login answered with a token closes the modal, stores the token and lets every waiter be sent again with it |
| Logins.CancelReleases | frontend/src/components/auth/reauth-provider.tsx:27-30 | Over every event sequence: cancelling gives every waiter its own original error and leaves the stored token alone |
| Logins.ThreeRefusalsRedirect | frontend/src/components/auth/reauth-modal.tsx:39-46 | Over every event sequence: the browser has been sent away if and only if three logins were refused under one opening of the modal |
| Logins.RefusalDecides | frontend/src/components/auth/reauth-modal.tsx:39-49 | A refused login clears the stored token and redirects if it is the third of its opening; otherwise token and round stay and the modal takes the next attempt |
| Reauth.Tab.RequestReauth | frontend/src/lib/auth-events.ts:3-18 | Joins the round in flight or raises one and opens the modal |
| Reauth.Tab.CompleteReauth | frontend/src/lib/auth-events.ts:20-22 | The dispatch settles, unregisters and clears exactly as Complete says for any set of registered handlers |
| Reauth.Tab.OnReply | frontend/src/api/client.ts:13-23 | The response interceptor up to its await |
| Reauth.Tab.Resume | frontend/src/api/client.ts:18-30 | The response interceptor after its await: sent again through the request interceptor, or the original error |
| Reauth.Tab.StartSubmit | frontend/src/components/auth/reauth-modal.tsx:32-36 | Submit up to its await issues one login request, which by SubmittedWithStoredToken carries the stored token, and keeps the page's invariant |
| Reauth.Tab.EndSubmit | frontend/src/components/auth/reauth-modal.tsx:36-49 | Submit after its await: the token is stored before the round is settled, a failure counts, the third one clears the token and redirects |
| Reauth.Tab.OnArrive | frontend/src/api/client.ts:13-31 | A reply handled by interceptor and modal together is one step of the machine and keeps the page's invariant |
| Reauth.Tab.OnCancelled | frontend/src/components/auth/reauth-provider.tsx:26-29 | Cancelling is one step of the machine and keeps the page's invariant |
| Monitor.ListRefinesMap | backend/internal/monitor/sysaccount.go:88-100 | After any messages the list holds, for exactly the servers heard of, the last stats received, without duplicate IDs and in order of first appearance |
| Monitor.Monitor.OnStatsz | backend/internal/monitor/sysaccount.go:88-100 | The search loop overwrites the entry with this ID or appends one |
| Monitor.Monitor.OnMessage | backend/internal/monitor/sysaccount.go:54-125 | One more message keeps the list what all messages make it, and updates the account map |
| Monitor.Monitor.Servers | backend/internal/monitor/sysaccount.go:147-153 | The snapshot a caller gets holds, for exactly the servers heard of, what was last heard, in order of first appearance |
| Monitor.LastIsLast | backend/internal/monitor/sysaccount.go:90-100 | The independent reading of the messages used above: the stats of the last message about a server |
| ApiKeys.OneRevokeSucceeds | backend/internal/apikey/repository.go:104-112 | However many calls race to revoke a key, at most one reports success, and it was made by the key's owner |
| ApiKeys.RevocationIsFinal | backend/internal/apikey/repository.go:104 | A revoked key is never un-revoked and the moment recorded never changes |
| ApiKeys.ValidationIsSound | backend/internal/apikey/service.go:80-89 | A validation names the one key made from that raw key, and its owner |
| ApiKeys.RevokedNeverValidates | backend/internal/apikey/repository.go:43-60 | Once a key is revoked, no call that had not looked it up before validates with it |
| ApiKeys.RevocationComes | backend/internal/apikey/service.go:66-78 | In every interleaving: the owner's update of a key, whenever it comes, succeeds if and only if it replies ok and the key is live then, is told NotActive if it replies ok and the key is not, and sets revoked_at of that key alone if and only if it takes effect on a live key |
| ApiKeys.StrangersAreRefused | backend/internal/apikey/repository.go:91-102 | In every interleaving: a call for a key that does not exist or belongs to another admin is refused and changes nothing |
| ApiKeys.CreationComes | backend/internal/apikey/service.go:40-60 | In every interleaving: a creation succeeds if and only if its INSERT replies ok and its owner has no key of that name, and adds one live key under an unused id and a raw key never drawn before |
| ApiKeys.ValidationComes | backend/internal/apikey/service.go:80-89 | In every interleaving: the raw key of a created key validates, naming key and owner, if and only if the lookup replies ok and the key is not revoked at that moment |
| ApiKeys.Service.Create | backend/internal/apikey/service.go:40-60 | Succeeds if and only if the INSERT replies ok and the admin has no key of that name; the one new key holds the hash of the fresh raw key, and a conflict is reported and changes no key |
| ApiKeys.Service.Revoke | backend/internal/apikey/service.go:66-78 | Succeeds if and only if both statements reply ok and the key is the owner's and live, and then sets its revoked_at and nothing else; the exact error otherwise |
| ApiKeys.Service.Validate | backend/internal/apikey/service.go:80-89 | Finds an unrevoked key with this hash if and only if there is one |

## Left out

- Create, Issue and the other operations fold purely local work (decoding, signing, minting, sealing) into one statement with a failure outcome; such work changes nothing either store holds.
- Rows carry no created_at and updated_at; List's order by creation is order by id, and `OrderIsIrrelevant` shows that no result depends on it.
- Publish and subscribe permissions, the credentials file text and zeroing of buffers are not part of this model.
- Integer columns are unbounded: the source only widens them from 32 to 64 bits.
- The NATS server, which consumes the tokens, is modelled by its rejection rule only; the expiry of users and accounts is not compared with the clock.
- GetJS and the retry in js of backend/internal/jetstream/admin.go: one branch around GetConn and the reseed, which are both modelled.
- SetOnClose's callback runs after the map entry is gone and touches nothing modelled.
- ConnCache grants the lock to any waiter; Go's writer preference is covered by `SomebodyCanMove`, which asks the strictest admission rule.
- Monitor parses messages as given; RequestServerStats, RequestAccountStats and the account list order add only easy members.
- Other tabs change the stored token only between macrotasks; the page's own logout and login page are the event Elsewhere.
- The browser leaves the page after the fallback; the model lets the page go on instead, which proves more.
- API keys have no prefix, no listing and no last-used time; deletion of an admin, which removes its keys, is not modelled.
- HTTP handlers, middleware, the WebSocket hub, configuration, bootstrap, migrations and the system account: plumbing without state of their own.
