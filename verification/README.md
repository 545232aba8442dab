# PixelGo state machines, verified

PixelGo moves files and notes between a user's devices. This project models the parts of its Go
backend where several actors share state, the token refresh of its two mobile clients, and its
analytics ingest, and proves what each of them keeps over every run:

- retry coordination across replicas through Redis (`RedisIdempotency`, `RedisReplies`, `RedisCoordinator`)
  and inside one process (`LocalIdempotency`, `LocalReplies`), and how requests are named in it (`RequestKeys`);
- refresh-token families with revocation on reuse (`RefreshFamilies`, `RefreshLedger`), and the clients' single-flight
  refresh composed with them (`TokenPairs`, `SessionFamilies`, `AndroidSingleFlight`, `AndroidSessions`,
  `AndroidReports`, `IosSingleFlight`, `IosSessions`, `IosResumptions`, `IosReports`);
- the durable push outbox (`Outbox`, `OutboxRetries`, `OutboxLeases`, `OutboxWorker`), and the transfer lifecycle that
  feeds it (`Transfers`, `TransferAccess`, `TransferEvents`, `TransferOrder`, `TransferService`, `TransferLinks`);
- stored payloads (`Blobs`) and owner-scoped repositories (`Tenants`, `PrivateStores`, `Repositories`);
- the fixed-window request limiter (`RateLimit`, `RateLimitClients`), printed and parsed formats (`Encodings`,
  `TextForms`, `Password`, `SignedUrls`), and the event ingest (`Analytics`, `AnalyticsRows`).

A protocol is a `State` (or `World`, `Client`) datatype, a total `Step` over its atomic actions and a `Run`
over any sequence of them; a main result speaks about every such sequence. An action that does not
apply leaves the state alone, so interleavings are unrestricted. Where the source updates fields, a class
does the same, and its methods' contracts say that the state they leave is the one `Step` computes.
History fields record what happened for the statements; nothing that the source does depends on them.

What the statements take for granted:

- Hashes, MACs and PBKDF2 are arbitrary functions, injective only where a lemma's `requires` says so.
  Random ids, lock owners, hashes and family ids are fresh.
- A method under one mutex, one SQL statement and one Redis command or script is one atomic step. A
  refresh rotation on Postgres is one serial transaction: at the default isolation level the revoking
  update need not see a row that another transaction is still inserting.
- Redis answers for a key until its expiry; `RateLimit` has the extra millisecond that a server may
  grant as a parameter.

Where code and documentation disagree the code is followed: passwords are PBKDF2 records
(server/internal/auth/password.go:15-18), not bcrypt. Strings are sequences of characters, each standing for a byte
where the source works on bytes.

Some properties fail without a side condition that the code does not establish. Each has a concrete run and the
exact condition, for all states or runs, under which the step in question does harm:

- at most once: `StaleMissRunsTwice`, `ExpiredLockRunsTwice`; `WinRepeatsIffResultLive`, `WinRepeatsIffRunUnexpired`,
  `TwoLeadersRepeatIffBothSucceed`, `SettlesIffLastInTime`;
- once per entry lifetime: `SkewRunsEarly`; `RunsEarlyIffReadPastExpiry`;
- no replayed refresh token on Android: `LostAnswerCausesReuse`, `SecondInstanceCausesReuse`;
  `ReportedIffLoadedWhileStored`, `ReportedIffLoadedBeforeSettled`;
- and on iOS: `ReorderingCausesReuse`, `SignOutInFlightCausesReuse`, `LostAnswerCausesReuse`;
  `ReportedIffResumedAlone`, `ResumptionHarmsIffOvertakes`;
- one outcome and a bounded number of attempts per push: `LateWriteBreaksOutcome`; `WriteKeepsBudgetIff`;
- one live lease per row: `LateRetryBreaksExclusivity`; `LetsInIffUnlocksUnder` for a write, `ExclusiveUntilUnlocked` for runs;
- an ordered lifecycle: `OverlapReopens`, `ReadyAfterCompleted`; `LifecycleKeptIffNoneHarmful` for status and events,
  `CommitAdvancesIffUnchanged` for the status, `PublishKeepsIffNotOvertaken` for the events;
- unique fingerprints and signed messages: `NulInPathCollides`, `BreakInActionCollides`; `TwinIffSecondMark`,
  `SignedAlikeIffBreak`;
- the request bound: `StaleReadingBreaksBound`; `BoundIffOneTick`, and `AnyClockBound`, which counts what exceeds it;
- equal limiters: `BoundaryMillisecond`; `SameIffNoneInGap`;
- separate tenants: `InvisibleIffNotOverwriting`.

`dafny verify dfyconfig.toml` checks everything.

## Model

| member | source | states |
|---|---|---|
| RedisIdempotency.AtMostOnce | server/internal/httpapi/idempotency_redis.go:75-91 | every interleaving of single Redis commands by any number of requests: if every leader settles before its lock expires (or dies before its handler returns) and no commit falls between a miss and the SETNX it wins, of two handler runs below 500 one had its record published and expired before the other took the lock |
| RedisIdempotency.WinRepeatsIffResultLive | server/internal/httpapi/idempotency_redis.go:118-149 | the result is not re-read after SETNX; in a run whose leases were kept so far, a winner that goes on to succeed repeats a successful run within its record's lifetime if and only if a second read would have found a result |
| RedisIdempotency.WinRepeatsIffRunUnexpired | server/internal/httpapi/idempotency_redis.go:118-149 | no assumption about leases or misses: in every run that kept once-only so far, a winner that goes on to succeed breaks it if and only if some successful run's record is not published and expired by then |
| RedisIdempotency.SettlesIffLastInTime | server/internal/httpapi/idempotency_redis.go:195-234 | no timing assumption, both directions: a commit publishes and a release frees the lock if and only if nobody won the lock later and it has not run out |
| RedisIdempotency.TwoLeadersRepeatIffBothSucceed | server/internal/httpapi/idempotency_redis.go:17-91 | when two requests lead at once, then, whatever happens next, the mutation has been repeated within a record lifetime if and only if both handlers have returned below 500 |
| RedisIdempotency.SecondLeaderOutlivedLock | server/internal/httpapi/idempotency_redis.go:143-149 | two requests lead at once only after the lock of one of them ran out |
| RedisIdempotency.HistoryImpliesGuard | server/internal/httpapi/idempotency_redis.go:119-149 | no commit since the miss implies that the result is still missing when SETNX wins |
| RedisIdempotency.LaterCallersReplay | server/internal/httpapi/idempotency_redis.go:119-149 | in a well-behaved run, a request that ends while a record lives gets that record if it bears its fingerprint, conflicts only with a stored or running request of another fingerprint, fails only by its own failure, and never leads |
| RedisIdempotency.FaithfulReplay | server/internal/httpapi/idempotency_redis.go:66-92 | no timing assumption: every replayed record was produced by a handler run with the same fingerprint and a status below 500 |
| RedisReplies.SameRequestNeverConflicts | server/internal/httpapi/idempotency_redis.go:123-128 | no timing assumption: in every run in which all requests for a key bear one fingerprint, none ends in a conflict |
| RedisReplies.ConflictIffDiffers | server/internal/httpapi/idempotency_redis.go:123-165 | in every state, a request ends in a conflict exactly when it reads a live result, or a live lock, with another fingerprint |
| RedisReplies.UnavailableOnlyOnFailure | server/internal/httpapi/idempotency_redis.go:59-65 | in every run, a request ends unavailable only if Redis failed it, it was cancelled, or the answer to its SETNX was lost |
| RedisReplies.FailsClosed | server/internal/httpapi/idempotency_redis.go:59-65 | in every state, a request ends unavailable exactly when it gives up before it leads or wins a SETNX whose answer is lost |
| RedisReplies.RetryGetsStoredResponse | server/internal/httpapi/idempotency_redis.go:119-128 | in a well-behaved run of one request, whoever ends while the record is live and does not fail itself gets exactly that record |
| RedisReplies.NewRetryGetsStoredResponse | server/internal/httpapi/idempotency_redis.go:119-127 | in every state, a request that arrives and reads while a record with its fingerprint is live gets that record |
| RedisReplies.FirstRequestLeads | server/internal/httpapi/idempotency_redis.go:119-149 | in every state without live record and lock, a request that arrives runs its handler, under a lock of 60 s |
| RedisReplies.LeaderGetsOwnResponse | server/internal/httpapi/idempotency_redis.go:75-91 | in every run, a request that led is answered with the response of its own handler, published or not |
| RedisIdempotency.FencedOut | server/internal/httpapi/idempotency_redis.go:195-234 | no timing assumption: once the lock ran out or somebody else won it, commit and release change neither lock nor result |
| RedisIdempotency.SettleTouchesOnlyOwn | server/internal/httpapi/idempotency_redis.go:195-234 | settling one request leaves a different lock owner's lock, phase and the result alone |
| RedisIdempotency.StaleMissRunsTwice | server/internal/httpapi/idempotency_redis.go:119-149 | a run in which all leases are kept, yet a stale miss wins a freed lock and the handler succeeds twice in one record lifetime |
| RedisIdempotency.ExpiredLockRunsTwice | server/internal/httpapi/idempotency_redis.go:17-17 | a run with no commit between miss and win in which a leader slower than 60 s lets the handler succeed twice |
| RequestKeys.ScopedKeyUnique | server/internal/httpapi/idempotency.go:140-142 | users never share a storage key and one user's keys stay apart, whatever bytes a key contains |
| RequestKeys.FingerprintUnique | server/internal/httpapi/idempotency.go:128-138 | without NUL in method, path and user, equal fingerprints mean the same method, path, user and body |
| RequestKeys.TwinIffSecondMark | server/internal/httpapi/idempotency.go:128-138 | the exact condition: another request of the same user has the same fingerprint input if and only if the NUL-delimited user name occurs in the request at a second place |
| RequestKeys.NulInPathCollides | server/internal/httpapi/idempotency.go:128-138 | two different requests with one fingerprint, when a path contains NUL |
| RequestKeys.RedisKeysApart | server/internal/httpapi/idempotency_redis.go:252-256 | lock and result keys differ and belong to one scoped key each |
| LocalIdempotency.OneHandlerPerKey | server/internal/httpapi/idempotency.go:69-93 | every order of arrivals, completions and prunes: at most one handler in flight per key |
| LocalIdempotency.FinishTouchesOwnEntry | server/internal/httpapi/idempotency.go:98-106 | an in-flight entry is still under its key when its leader finishes; the leader fills its own entry, and the key is emptied exactly at 500 and above |
| LocalIdempotency.WaiterGetsLeadersResponse | server/internal/httpapi/idempotency.go:77-86 | a waiter is answered with the response of a leader with its key and fingerprint |
| LocalReplies.SameRequestNeverConflicts | server/internal/httpapi/idempotency.go:70-76 | in every run in which each key is used for one fingerprint, no call ends in a conflict |
| LocalReplies.ArrivalDecided | server/internal/httpapi/idempotency.go:69-93 | in every run, a new call leads exactly when no unexpired entry is under its key, and otherwise conflicts exactly when the fingerprints differ |
| LocalReplies.RetryGetsStoredResponse | server/internal/httpapi/idempotency.go:77-86 | in every run, a call that finds a finished entry with its fingerprint gets exactly its response |
| LocalIdempotency.ClosedMeansReadable | server/internal/httpapi/idempotency.go:80-108 | once its leader has closed the channel, a waiter's read succeeds |
| LocalIdempotency.OncePerLifetime | server/internal/httpapi/idempotency.go:65-113 | clock monotone in lock order: a new run for a key starts only after the earlier one finished, and after a non-5xx one only when its entry has expired |
| LocalIdempotency.RunsEarlyIffReadPastExpiry | server/internal/httpapi/idempotency.go:65-93 | any clock readings: after a handler finished below 500, and as long as it has not run again, a new call reading a clock before the expiry runs it again if and only if some arrival since then, for whatever key, read a clock at or past that expiry |
| LocalIdempotency.FinishedIsThere | server/internal/httpapi/idempotency.go:98-106 | right after such a finish the entry is under its key |
| LocalIdempotency.SkewRunsEarly | server/internal/httpapi/idempotency.go:67-71 | clock readings out of lock order let a handler run again before its entry expires |
| RefreshFamilies.FamilyShape | server/internal/auth/memory_repository.go:61-94 | every run with fresh hashes and families: a family has one user, exactly one unused token, and is revoked as a whole or not at all |
| RefreshFamilies.RotatesAtMostOnce | server/internal/auth/memory_repository.go:70-94 | no token rotates successfully twice |
| RefreshFamilies.RotatesIffNewest | server/internal/auth/memory_repository.go:74-93 | a refresh succeeds exactly for the family's newest token while it is neither expired nor revoked |
| RefreshFamilies.ReuseFreezesFamily | server/internal/auth/memory_repository.go:78-86 | after reuse every token of that family is revoked, other families are untouched, and no later action adds to or changes the family |
| RefreshFamilies.ExpiryNeverDecreases | server/internal/auth/service.go:95-129 | monotone clock: a replacement never expires before the token it came from |
| RefreshFamilies.PostgresAgreesWithMemory | server/internal/auth/postgres_repository.go:89-181 | one Postgres transaction and the memory repository compute the same table and outcome when the replacement hash is new |
| RefreshLedger.AnswersFromLedger | server/internal/auth/memory_repository.go:70-94 | after every run, a refresh is answered by a ledger of when tokens were handed out, which were spent and which families were revoked: invalid if unknown, revoked or 30 days old, reuse if spent, and otherwise rotated for its user; in memory and on Postgres |
| TokenPairs.UnusedStep | server/internal/auth/memory_repository.go:78-93 | a server step leaves a token unused unless that very token is presented |
| AndroidSingleFlight.NeverReplaysConsumedToken | android/app/src/main/java/com/armaabetancourtt/pixelgo/network/ApiClient.kt:381-430 | any number of concurrent 401s, logins and sign-outs of any number of `ApiClient` instances over one stored session, composed with the server's families and other clients that do not hold this session's tokens: if every committed refresh is answered and no two instances are inside their mutexes at once, the server never reports reuse and no access token is refreshed twice |
| AndroidSingleFlight.PostsUnusedToken | android/app/src/main/java/com/armaabetancourtt/pixelgo/network/ApiClient.kt:417-429 | under the same conditions the token posted inside the mutex is always the family's unused one |
| AndroidSingleFlight.OneInstanceSuffices | android/app/src/main/java/com/armaabetancourtt/pixelgo/network/ApiClient.kt:25-25 | with one instance per stored session the second condition always holds |
| AndroidSessions.NobodyIsSignedOut | android/app/src/main/java/com/armaabetancourtt/pixelgo/network/ApiClient.kt:381-430 | in every orderly run without sign-out, lost request or refresh of an expired token, whatever calls are rejected at once: no call ever fails, and once a session is stored one is stored ever after |
| AndroidSessions.LateCallRetries | android/app/src/main/java/com/armaabetancourtt/pixelgo/network/ApiClient.kt:417-422 | a call that enters the mutex and finds another session than the one it failed with posts nothing, changes nothing and goes on to its second attempt |
| AndroidSessions.FirstCallPosts | android/app/src/main/java/com/armaabetancourtt/pixelgo/network/ApiClient.kt:417-428 | one that finds the session it failed with posts that session's refresh token |
| AndroidSessions.FailsIff | android/app/src/main/java/com/armaabetancourtt/pixelgo/network/ApiClient.kt:400-430 | in every state, a call fails exactly when there is no session to refresh, its request is lost or it cannot use the answer; and a session ends exactly by the clearing of such a call or by a sign-out |
| AndroidReports.ReportedIffLoadedWhileStored | android/app/src/main/java/com/armaabetancourtt/pixelgo/network/ApiClient.kt:400-429 | the exact condition, in every run and over any further steps of any number of instances: once a session's token has been used, a refresh on behalf of its access token that arrives while the family is neither expired nor revoked is reported as reuse if and only if its call, inside its mutex, loaded the session while it was stored |
| AndroidReports.ReportedIffLoadedBeforeSettled | android/app/src/main/java/com/armaabetancourtt/pixelgo/network/ApiClient.kt:400-429 | after a committed refresh of the stored session, answered or lost, and with no other write to it: a rival's refresh, whenever it arrives, is reported if and only if the rival loaded the session before the first call had saved the answer or, outside the mutex, cleared the session, be it before or after the commit |
| AndroidSingleFlight.LostAnswerCausesReuse | android/app/src/main/java/com/armaabetancourtt/pixelgo/network/ApiClient.kt:400-429 | one instance: one committed refresh whose answer is lost is enough for a reuse report |
| AndroidSingleFlight.SecondInstanceCausesReuse | android/app/src/main/java/com/armaabetancourtt/pixelgo/push/PixelGoMessagingService.kt:22-30 | every answer delivered: a second instance over the same session, as the messaging service builds one, posts the token that the first has just consumed |
| IosSingleFlight.NeverReplaysConsumedToken | ios/PixelGo/APIClient.swift:565-595 | the reentrant actor: the same, if every committed refresh is answered, no sign-out forgets a refresh in flight, and no owner of a refresh resumes from its save before a call that holds the session it replaced; all other resumptions may come in any order |
| IosSessions.NobodyIsSignedOut | ios/PixelGo/APIClient.swift:431-595 | in every run without overtaking, forgotten tasks, sign-out, lost request or refresh of an expired token, in which joined refreshes and second attempts succeed: no refresh is rejected, no call fails, and once a session is stored one is stored ever after |
| IosSessions.LateCallRetries | ios/PixelGo/APIClient.swift:568-574 | a call that resumes with another session than the one it failed with sends nothing and goes on to its second attempt |
| IosSessions.SameSessionRefreshes | ios/PixelGo/APIClient.swift:572-584 | one that resumes with the session it failed with joins the task in flight, or starts one with that session's refresh token |
| IosSessions.RejectedIff | ios/PixelGo/APIClient.swift:580-594 | in every state, a refresh is rejected exactly when its request is lost or the call cannot use the answer |
| IosSessions.FailsIff | ios/PixelGo/APIClient.swift:450-463 | in every state, a call fails exactly when it resumes without a session, the refresh it owns or joined is rejected, or its second attempt fails |
| IosSessions.SessionEndsIff | ios/PixelGo/APIClient.swift:459-462 | in every state, a stored session ends exactly by the clearing of a failed call or by a sign-out |
| IosResumptions.InOrderNeverOvertakes | ios/PixelGo/APIClient.swift:568-595 | resumptions in the order in which the session store finished never overtake |
| IosResumptions.ResumptionHarmsIffOvertakes | ios/PixelGo/APIClient.swift:568-589 | the exact condition: after a resumption at any position of the queue some call would post a used token if and only if the one resumed is a saved owner and overtook a call that loaded the session it replaced |
| IosResumptions.OwnersForgetTheirOwn | ios/PixelGo/APIClient.swift:586-593 | which, whatever is lost or reordered, happens only after a sign-out forgot a refresh in flight |
| IosReports.ReportedIffResumedAlone | ios/PixelGo/APIClient.swift:565-595 | the exact condition, in every run and over any further steps, be they sign-outs, logins, late owners, lost answers or resumptions in any order: once a session's token has been used, a refresh on behalf of its access token that arrives while the family is neither expired nor revoked is reported as reuse if and only if its call loaded the session while it was stored and resumed while no task was set |
| IosReports.StoredUntilSaved | ios/PixelGo/APIClient.swift:587-588 | with no other write the session stays stored until the refreshing call has saved its replacement |
| IosReports.AloneOnlyAfterNil | ios/PixelGo/APIClient.swift:72-77 | a call resumes while no task is set only after a sign-out or some call's finishing step set it to nil |
| IosReports.LostAnswerCausesReuse | ios/PixelGo/APIClient.swift:586-593 | in order, without a sign-out and without overtaking: one committed refresh whose answer is lost leads to a reuse report |
| IosSingleFlight.ReorderingCausesReuse | ios/PixelGo/APIClient.swift:568-589 | one resumption out of order leads to a reuse report |
| IosSingleFlight.SignOutInFlightCausesReuse | ios/PixelGo/APIClient.swift:72-77 | a sign-out during a refresh, then a new login, leads to a reuse report with every answer delivered and every resumption in order |
| Outbox.RetryBudget | server/internal/notifications/worker.go:126-200 | if workers write within five minutes of claiming or not at all: an unfailed row has at most 7 attempts, a failed one at most 8 and is not also sent, and the scheduled delays of a row total at most 127 s |
| OutboxRetries.NotGivenUpEarly | server/internal/notifications/worker.go:139-141 | in every run, late writes included: a row to which no permanent answer was written has failed only after at least eight attempts, and after exactly eight when all writes are prompt |
| OutboxRetries.FailsOnEighth | server/internal/notifications/worker.go:126-172 | a write fails the row exactly on a permanent answer or the eighth counted attempt, sends it exactly on success, and counts an attempt exactly on failure |
| OutboxRetries.RetryWaits | server/internal/notifications/worker.go:143-164 | in every run, a retry written after n earlier attempts by a worker that is not shutting down is claimed by nobody before 2^n seconds have passed, unless the row is written again |
| OutboxRetries.BackoffTable | server/internal/notifications/worker.go:190-200 | the seven delays are 1, 2, 4, 8, 16, 32 and 64 s; a worker that is shutting down waits not at all |
| OutboxRetries.BackoffAt | server/internal/notifications/worker.go:190-200 | for any attempt number: one second up to the first, then doubling, 256 s at the ninth and five minutes from the tenth on |
| OutboxRetries.CancelledRetryIsDue | server/internal/notifications/worker.go:146-156 | a row handed back by a worker that is shutting down is due at once |
| OutboxRetries.SentMeansOnlineOrAccepted | server/internal/notifications/worker.go:44-52 | a row is sent exactly when its device was read as online or the provider accepted the push; a failed presence read is not online |
| OutboxRetries.ClaimableMeans | server/internal/notifications/postgres_repository.go:28-41 | a row can be claimed exactly when it is neither sent nor failed, is due, and no lock is younger than five minutes |
| OutboxRetries.ErrorKept | server/internal/notifications/postgres_repository.go:91-142 | in every run, no more than 2000 characters of an error are kept; a failed write keeps the beginning of its error, a successful one clears it, and both unlock |
| Outbox.LeaseExclusive | server/internal/notifications/postgres_repository.go:28-48 | same condition: at most one worker holds a live lease on a row, and its copy is current |
| OutboxLeases.LetsInIffUnlocksUnder | server/internal/notifications/postgres_repository.go:28-41 | the exact condition, per row and in every state that kept leases exclusive so far, whatever other late writes did: a write lets a second worker in on its row, now or later, if and only if it is a non-final retry of an unfinished row on which another worker's live lease outlasts the delay the retry schedules |
| OutboxLeases.ExclusiveUntilUnlocked | server/internal/notifications/postgres_repository.go:28-41 | every run without such a write keeps leases exclusive, however late its other writes are |
| OutboxLeases.SteadyWorkersArePrompt | server/internal/notifications/worker.go:106-188 | any number of workers, each claiming 50 rows when it is through with the last and writing at most six seconds after its claim or previous write, make prompt runs in every interleaving, so that leases are exclusive and the retry budget holds |
| Outbox.LateRetryBreaksExclusivity | server/internal/notifications/postgres_repository.go:129-140 | such a run: a late retry unlocks the row under a live lease and a third worker claims it |
| OutboxWorker.BatchPromptIff | server/internal/notifications/worker.go:108-119 | one claim gives one lease to a whole batch: with at most `pace` between writes all of them are within the lease for certain if and only if size times pace is at most five minutes |
| OutboxWorker.FullBatchPromptIff | server/internal/notifications/worker.go:85-85 | for a batch of 50, at six seconds a delivery and no slower |
| Outbox.TerminalForever | server/internal/notifications/postgres_repository.go:28-41 | every interleaving, late writes included: sent and failed are never cleared and no later claim returns the row |
| Outbox.LateWriteBreaksOutcome | server/internal/notifications/postgres_repository.go:91-142 | the writes check no owner: with one late write a row ends up both sent and failed |
| Outbox.WriteKeepsBudgetIff | server/internal/notifications/postgres_repository.go:91-142 | the exact condition, in every run: a write keeps a row within its attempts, its delays and its one outcome if and only if the row still admits it |
| Outbox.PickExact | server/internal/notifications/postgres_repository.go:28-41 | a claim returns exactly the claimable, unlocked rows with fewer than `limit` such rows before them in id order |
| Outbox.AbandonedRowReturns | server/internal/notifications/postgres_repository.go:34-37 | a row abandoned under a lease is handed out again after five minutes |
| Outbox.BackoffFits | server/internal/notifications/worker.go:190-200 | each scheduled delay fits what doubling leaves of the budget; a shutdown schedules none |
| OutboxWorker.Worker.Drain | server/internal/notifications/worker.go:106-124 | terminates for every finite outbox whatever the clock and the provider answer, after at most as many sends as there were deliveries left; rows claimable at the start have spent an attempt or are finished, finished rows are untouched, no lease is left |
| OutboxWorker.BatchOutcome | server/internal/notifications/worker.go:117-119 | after a batch, picked rows have spent work and all others are as before the claim |
| OutboxWorker.ShortPickTakesAll | server/internal/notifications/worker.go:120-122 | a batch below the batch size took every claimable row, so the loop may stop |
| Transfers.DownloadsMatchDeclaration | server/internal/httpapi/server.go:297-374 | every interleaving of upload, lifecycle, device and worker steps: who finds a transfer can download it exactly while it is ready, downloading or completed, and the bytes have the declared size and SHA-256 (hex compared ignoring case) |
| Transfers.IdentityNeverChanges | server/internal/transfers/postgres_repository.go:128-165 | identity, endpoints, kind, names, size, checksum, creation time and owner never change, and no signed URL is stored |
| TransferAccess.OwnerFinds | server/internal/transfers/postgres_repository.go:111-126 | in every run, the owner and a caller without authentication find the transfer |
| TransferAccess.StrangerFindsNothing | server/internal/transfers/postgres_repository.go:111-126 | a signed-in user other than the owner downloads nothing, and each of its confirmations, completions and uploads ends as not found |
| TransferAccess.StrangersChangeNothing | server/internal/transfers/postgres_repository.go:128-165 | in every interleaving: as long as only signed-in users other than its owner call on a transfer, its row, bytes, events and wake-ups stay as they are |
| TransferAccess.CallsAdmittedIff | server/internal/transfers/service.go:138-190 | in every run, a caller who finds a transfer may upload to it and confirm it exactly while it is uploading and complete it exactly while it is ready or downloading; the confirmation goes through exactly if bytes are stored, none of which ever fail the check |
| TransferAccess.CreatedIffChecked | server/internal/transfers/service.go:67-114 | a transfer is created exactly when its endpoints exist and are the caller's, its size is at most 1 GiB, names and type are short enough, the checksum is 64 hexadecimal digits and the kind is one of five; and it then waits for its upload |
| TransferAccess.StoredTransfersAreChecked | server/internal/transfers/postgres_repository.go:20-78 | in every run, every stored transfer passes these checks still, its devices included |
| TransferAccess.StoredPayloadsFit | server/internal/httpapi/server.go:306-328 | in every run, no stored payload exceeds 64 MiB |
| TransferAccess.WakeUpsNeedToken | server/internal/platform/postgresdb/schema.sql:101-123 | in every run, a row is added to the outbox only by a step that turns a transfer ready that was not, for its destination, which has a push token that is not empty |
| TransferAccess.MatchingUploadGoesThrough | server/internal/transfers/service.go:138-214 | undisturbed, an upload with declared size and checksum, its confirmation and its completion all go through: both events are published, to destination and source, and the bytes can be downloaded |
| Transfers.RepositoriesAgree | server/internal/transfers/memory_repository.go:68-83 | on every write that can be pending, however stale, replacing the record and updating the listed columns give the same row |
| TransferEvents.WakeUpAtMostOnce | server/internal/platform/postgresdb/schema.sql:91-134 | stale writes included: a transfer has at most one wake-up row, none before it was ever ready, exactly one if its destination had a token when it first turned ready; the row is a transfer.ready for that destination |
| TransferEvents.FirstReadyIsFirst | server/internal/platform/postgresdb/schema.sql:98-123 | the history used above is set once, when the transfer first turns ready, to whether a non-empty token was there |
| TransferEvents.LifecycleOrdered | server/internal/transfers/service.go:138-214 | calls on one transfer not overlapping: status only moves uploading, ready, completed, and the ready and completed events are published at most once each, in that order, to destination and source |
| TransferEvents.CommitAdvancesIffUnchanged | server/internal/transfers/service.go:164-205 | of the status alone: the update carries no status check, and a commit is the lifecycle's next step if and only if the row still has the status the call read |
| TransferOrder.LifecycleKeptIffNoneHarmful | server/internal/transfers/service.go:138-214 | the exact condition, over every run and however calls overlap: statuses only move forward and each transfer's events come at most once and in order if and only if no confirmation commits over a completed row and no event is published after itself or after its successor |
| TransferOrder.PublishKeepsIffNotOvertaken | server/internal/transfers/service.go:169-178 | when every commit found the status its call read: a publication keeps the events in order if and only if it is not the ready event of a transfer whose completed event is already out |
| TransferOrder.ReadyAfterCompleted | server/internal/transfers/service.go:169-211 | such a run: every commit advances, and the ready event follows the completed one |
| TransferEvents.OverlapReopens | server/internal/transfers/service.go:138-214 | two overlapping confirmations and a completion take a completed transfer back to ready and publish the ready event twice |
| TransferLinks.AnswerOpensOneRoute | server/internal/transfers/service.go:216-239 | a transfer is answered with an upload link exactly while uploading and a download link exactly when downloadable; until it expires the link opens its own route for its own transfer and nothing else |
| Blobs.BuffersStayPrivate | server/internal/files/service.go:239-253 | after any number of downloads, of writes into arrays held outside and of uploads under other ids, a download still returns the uploaded bytes |
| SignedUrls.IssuedUntilExpiry | server/internal/files/service.go:218-237 | for every 64-bit expiry an issued expiry and signature are accepted up to and including that second, and expired after it |
| SignedUrls.NoOtherUse | server/internal/files/service.go:283-287 | with an injective MAC an issued signature opens no other newline-free action, transfer or expiry, whatever the transfer id contains |
| SignedUrls.MessageUnique | server/internal/files/service.go:283-287 | the signed message determines action, id and expiry for every id |
| SignedUrls.SignedAlikeIffBreak | server/internal/files/service.go:285-285 | if actions were free: a message has a second reading if and only if its action or id contains a line break |
| SignedUrls.BreakInActionCollides | server/internal/files/service.go:285-285 | such a pair |
| SignedUrls.VerifyExact | server/internal/files/service.go:218-237 | a request is accepted exactly with the issued signature for what it asks, letter case aside, until the expiry it names |
| TextForms.HexText | server/internal/files/service.go:283-287 | two lower-case digits for each byte, the high one first |
| TextForms.Base64Text | server/internal/auth/password.go:43-49 | each character is the letter of its six bits in its group of three bytes, as in section 4 of RFC 4648, without padding |
| TextForms.DecimalText | server/internal/auth/password.go:43-49 | the decimal digits of a number, without leading zeros |
| Password.RecordText | server/internal/auth/password.go:22-50 | the record names the algorithm, 600000 iterations, the salt and a key of 32 bytes |
| Encodings.DecodeHexIff | server/internal/files/service.go:228-232 | a string decodes to some bytes exactly when in lower case it is what those bytes encode to |
| Encodings.DecodeEncodeHex | server/internal/files/service.go:228-232 | hex (section 8 of RFC 4648): every byte string is read back |
| Encodings.ParsePrint | server/internal/files/service.go:219-222 | every 64-bit integer is read back as printed in decimal |
| Password.VerifyHashed | server/internal/auth/password.go:24-82 | for every password and 16-byte salt the printed record parses back, and it accepts an attempt exactly when the attempt derives the stored key |
| Password.ComparedIffWellFormed | server/internal/auth/password.go:50-68 | a stored string is compared at all exactly when it is a dollar-separated record with a positive count, a salt of at least 8 and a key of at least 16 bytes; anything else is an invalid hash |
| Encodings.JoinSplit | server/internal/auth/password.go:51-51 | splitting loses nothing and leaves no separator in a part |
| Password.RecordSplits | server/internal/auth/password.go:41-54 | a printed record splits at the dollar signs into the empty string and its four fields |
| Encodings.DecodeEncodeBase64 | server/internal/auth/password.go:45-68 | unpadded base64 (sections 3.2 and 4 of RFC 4648): every byte string is read back, and only the 64 characters are printed |
| RateLimit.FixedWindowBound | server/internal/ratelimit/limiter.go:36-64 | clock monotone in lock order: a half-open interval as long as the window holds at most 2 * limit - 1 allowed calls for a key |
| RateLimit.BoundReached | server/internal/ratelimit/limiter.go:36-64 | and for every limit and every window of at least two ticks that many are reached |
| RateLimit.AnyClockBound | server/internal/ratelimit/limiter.go:42-50 | the clock is read before the lock is taken: whatever order the readings come in, an interval as long as the window holds at most 2 * limit - 1 allowed calls beside the late ones, which a window counts that was opened at or after the interval's end |
| RateLimit.BoundIffOneTick | server/internal/ratelimit/limiter.go:42-50 | the exact condition, for limits and windows of two and more: over all sequences whose readings are out of lock order by at most a given skew, the bound of 2 * limit - 1 holds if and only if that skew is at most one tick; at two ticks 3 * limit - 2 calls pass |
| RateLimit.InOrderNeverLate | server/internal/ratelimit/limiter.go:42-50 | readings in lock order are never late |
| RateLimit.StaleReadingBreaksBound | server/internal/ratelimit/limiter.go:42-50 | a sequence with one late reading exceeds the bound by one |
| RateLimit.RedisAnswersAsMemory | server/internal/ratelimit/limiter.go:78-115 | on every call sequence the script allows and counts down as the in-process limiter does for a window longer by the time Redis keeps answering for an expired key |
| RateLimit.RedisWindowBound | server/internal/ratelimit/limiter.go:78-115 | the bound of 2 * limit - 1 for the script too, however long Redis keeps answering for an expired key |
| RateLimit.SameWithoutGrace | server/internal/ratelimit/limiter.go:78-115 | with none, the same Allowed and Remaining |
| RateLimit.SameIffNoneInGap | server/internal/ratelimit/limiter.go:46-84 | for any such time, the answers on a sequence of calls are the same if and only if no call falls between its key's expiry and the end of it |
| RateLimit.BoundaryMillisecond | server/internal/ratelimit/limiter.go:46-46 | with one millisecond, the two differ at the boundary |
| RateLimit.KeyFixesLimit | server/internal/httpapi/ratelimit.go:26-71 | a limiter key names one host and one scope, hence always carries one limit |
| RateLimit.MinuteBound | server/internal/httpapi/ratelimit.go:13-71 | however requests arrive, in any minute one client gets at most 479 reads and 239 mutations served |
| RateLimitClients.SharedBudgetIff | server/internal/httpapi/ratelimit.go:57-71 | two requests share a budget exactly when both or neither reads and they come from one host, whatever their ports; an address that does not split stands for itself, and callers without one share a budget |
| RateLimitClients.HostMinuteBound | server/internal/httpapi/ratelimit.go:19-71 | over however many connections, in any minute one host gets at most 479 reads and 239 mutations under /v1/ served, in process and over Redis |
| RateLimitClients.WithinBudgetServed | server/internal/httpapi/ratelimit.go:19-71 | of a minute in which a host whose window is over sends at most 240 reads, or 120 mutations, all of these are served, whatever other hosts send |
| Analytics.ExactlyOnceEffect | analytics/kafka_consumer.py:6-20 | any schedule of crashes, redeliveries and lost offsets: the table is one uninterrupted first-wins pass over a prefix of the log that reaches the committed offset; with no offset lost, exactly that far or one message further |
| Analytics.FirstWins | analytics/pipeline.py:17-24 | the table holds exactly the rows of the messages that were first with their event id |
| AnalyticsRows.StoredRowsTellEvents | analytics/pipeline.py:11-24 | after any schedule, from the fields of the messages: the table has one row for each event id of a prefix of accepted messages, with the transfer id, UTC day and status of the first message with that id, and no other row; the prefix reaches the committed offset, and with no offset lost at most one message further |
| AnalyticsRows.ReadIff | analytics/pipeline.py:11-16 | a message is accepted exactly when it decodes, its status is one of the six, both ids have a character that is no white space and its time is a UTC day; and it ends the consumer uncaught exactly when only its time is at fault, being no text or beyond the calendar |
| AnalyticsRows.RecoveryReaches | analytics/kafka_consumer.py:6-20 | whatever happened before, one undisturbed consumer brings the committed offset exactly to the first message that is not accepted, and the table tells every message before it |
| Analytics.StoredDailyCounts | analytics/pipeline.py:6-10 | after any schedule the daily counts of the table add up to the number of distinct event ids of the prefix it holds |
| Analytics.DailyCountsEvents | analytics/pipeline.py:6-10 | however the daily view of a pass is listed, its counts add up to the number of distinct event ids |
| Analytics.HaltsAtBadMessage | analytics/kafka_consumer.py:12-18 | the committed offset never passes a message that is rejected, cannot be decoded or raises |
| Analytics.StoredStays | analytics/pipeline.py:21-21 | stored rows are never changed, moved or removed |
| Analytics.Consume | analytics/kafka_consumer.py:6-20 | whole rounds of the run above until the limit is reached for the first time, the log ends or a bad message stops it with its offset uncommitted |
| Tenants.NonInterference | server/internal/transfers/memory_repository.go:25-83 | whatever other authenticated users do in between, with fresh ids, a user gets the answers, and ends with the records, of a run in which nobody else did anything |
| PrivateStores.AnsweredAsAlone | server/internal/transfers/memory_repository.go:25-83 | with fresh ids, a user is answered, whatever other authenticated users do in between, as by a plain store that holds its own records only; without authentication everybody shares one such store |
| PrivateStores.OwnerStays | server/internal/transfers/memory_repository.go:68-83 | whoever acts, a record appears only by a creation under its id and never changes its owner without one |
| Tenants.InvisibleIffNotOverwriting | server/internal/devices/memory_repository.go:25-33 | Create does not check the id: an action of another user is invisible if and only if it is not the creation of a record under an id the user has |
| Tenants.OneListing | server/internal/transfers/memory_repository.go:47-50 | with distinct creation times a sorted listing is unique |
| RedisCoordinator.Redis.SetNX | server/internal/httpapi/idempotency_redis.go:143-149 | acquires exactly when no live lock is stored, with the 60 s expiry |
| RedisCoordinator.Redis.CommitScript | server/internal/httpapi/idempotency_redis.go:195-202 | publishes the record and deletes the lock only while the caller's exact lock value is stored, and otherwise changes nothing |
| RedisCoordinator.Redis.ReleaseScript | server/internal/httpapi/idempotency_redis.go:229-234 | deletes the lock only while the caller's exact value is stored |
| RedisCoordinator.Coordinator.ReadResult | server/internal/httpapi/idempotency_redis.go:119-128 | replay, conflict or miss, as one protocol step |
| RedisCoordinator.Coordinator.TryLock | server/internal/httpapi/idempotency_redis.go:130-149 | one SETNX, as one protocol step |
| RedisCoordinator.Coordinator.ReadLock | server/internal/httpapi/idempotency_redis.go:151-165 | lock gone: start over; other fingerprint: conflict; same: wait |
| RedisCoordinator.Coordinator.FailClosed | server/internal/httpapi/idempotency_redis.go:59-65 | an error while acquiring answers unavailable and runs nothing |
| RedisCoordinator.Coordinator.HandlerReturned | server/internal/httpapi/idempotency_redis.go:75-83 | the handler's response is recorded with the leader's fingerprint |
| RedisCoordinator.Coordinator.WriteBack | server/internal/httpapi/idempotency_redis.go:85-91 | release at 500 and above, commit below, and the leader is answered either way |
| LocalIdempotency.Store.PruneExpired | server/internal/httpapi/idempotency.go:144-150 | removes exactly the filled entries whose expiry has passed |
| LocalIdempotency.Store.Admit | server/internal/httpapi/idempotency.go:69-93 | the first critical section: conflict, wait or lead |
| LocalIdempotency.Store.Complete | server/internal/httpapi/idempotency.go:98-106 | the second critical section: fill the entry, delete the key at 500 and above |
| LocalIdempotency.Store.CloseReady | server/internal/httpapi/idempotency.go:108-108 | the channel is closed after the entry is filled |
| LocalIdempotency.Store.WaiterReads | server/internal/httpapi/idempotency.go:80-85 | the waiter copies the leader's entry |
| RefreshFamilies.MemoryRepository.CreateRefresh | server/internal/auth/memory_repository.go:61-68 | stores one unused, unrevoked token under its hash |
| RefreshFamilies.MemoryRepository.RotateRefresh | server/internal/auth/memory_repository.go:70-94 | invalid, reuse with family revocation, or rotation, each with its whole effect on the table |
| RefreshFamilies.MemoryRepository.RevokeAll | server/internal/auth/memory_repository.go:79-84 | the loop revokes every unrevoked token of the family and nothing else |
| AndroidSingleFlight.ApiClient.BeginRequest | android/app/src/main/java/com/armaabetancourtt/pixelgo/network/ApiClient.kt:387-394 | the first attempt uses the stored access token |
| AndroidSingleFlight.ApiClient.LockMutex | android/app/src/main/java/com/armaabetancourtt/pixelgo/network/ApiClient.kt:418-418 | one call at a time is inside an instance's mutex |
| AndroidSingleFlight.ApiClient.CheckCurrent | android/app/src/main/java/com/armaabetancourtt/pixelgo/network/ApiClient.kt:419-426 | no session fails, a different access token returns at once, the same one posts its refresh token |
| AndroidSingleFlight.ApiClient.SaveReplacement | android/app/src/main/java/com/armaabetancourtt/pixelgo/network/ApiClient.kt:428-429 | the replacement is stored before the mutex is left |
| AndroidSingleFlight.ApiClient.RefreshThrew | android/app/src/main/java/com/armaabetancourtt/pixelgo/network/ApiClient.kt:424-427 | a failed refresh leaves the mutex without touching the session |
| AndroidSingleFlight.ApiClient.ClearSession | android/app/src/main/java/com/armaabetancourtt/pixelgo/network/ApiClient.kt:402-405 | and then the session is cleared |
| IosSingleFlight.ApiClient.LoadSession | ios/PixelGo/APIClient.swift:568-568 | the session load finishes and its resumption is queued |
| IosSingleFlight.ApiClient.ResumeFirst | ios/PixelGo/APIClient.swift:568-593 | what runs between two awaits: no session, already refreshed, join the task, start a task, or forget the finished task |
| IosSingleFlight.ApiClient.SaveReplacement | ios/PixelGo/APIClient.swift:587-588 | the replacement is saved before the task is forgotten |
| IosSingleFlight.ApiClient.ForgetTask | ios/PixelGo/APIClient.swift:591-593 | a failed task is forgotten and the error rethrown |
| IosSingleFlight.ApiClient.ClearSession | ios/PixelGo/APIClient.swift:459-461 | the session is cleared after a failed refresh |
| OutboxWorker.Worker.DrainBatch | server/internal/notifications/worker.go:108-122 | each batch spends at least one attempt per claimed row, and a short batch took every claimable row |
| OutboxWorker.Worker.DeliverAll | server/internal/notifications/worker.go:117-119 | delivers a batch in order and touches only its rows |
| OutboxWorker.Worker.DeliverOne | server/internal/notifications/worker.go:126-188 | one delivery under an arbitrary answer strictly decreases the attempts left |
| OutboxWorker.Worker.Deliver | server/internal/notifications/worker.go:126-171 | mark sent, or retry with the attempt count read at claim time, final on a permanent error or the eighth attempt |
| OutboxWorker.Repository.Select | server/internal/notifications/postgres_repository.go:28-41 | the scan loop picks what `PickExact` characterises |
| OutboxWorker.Repository.Lock | server/internal/notifications/postgres_repository.go:42-48 | stamps exactly the picked rows |
| OutboxWorker.Repository.Claim | server/internal/notifications/postgres_repository.go:18-89 | a limit of zero or less means 50; deliveries carry the attempts before the claim, in id order |
| OutboxWorker.Repository.MarkSent | server/internal/notifications/postgres_repository.go:91-105 | sets sent_at, clears the lock and the error, nothing else |
| OutboxWorker.Repository.Retry | server/internal/notifications/postgres_repository.go:107-142 | one more attempt; failed_at if final, otherwise the new available_at; the error cut to 2000 characters |
| TransferService.Server.Get | server/internal/transfers/postgres_repository.go:111-126 | missing and foreign transfers are both not found |
| TransferService.Server.Update | server/internal/transfers/postgres_repository.go:128-165 | the columns the statement sets, and the trigger behind it |
| TransferService.Server.InspectUploaded | server/internal/files/service.go:176-187 | size and digest of the stored bytes, or not found |
| TransferService.Server.Admit | server/internal/transfers/service.go:139-145 | Get and status check as one step |
| TransferService.Server.CheckPayload | server/internal/transfers/service.go:147-157 | missing, size mismatch, checksum mismatch, or accepted |
| TransferService.Server.WriteBack | server/internal/transfers/service.go:164-172 | the stale copy is restamped and written back |
| TransferService.Server.PublishToDevices | server/internal/transfers/service.go:174-179 | one event for the written status |
| TransferService.Server.MarkUploaded | server/internal/transfers/service.go:138-181 | a confirmation nobody interrupts: one answer per failed check with no effect, otherwise the updated row and one ready event to the destination |
| TransferService.Server.ReceiveBody | server/internal/httpapi/server.go:306-326 | a body is accepted only with the declared size and checksum, within 64 MiB |
| TransferService.Server.Put | server/internal/httpapi/server.go:328-329 | the checked body is stored |
| Blobs.Store.Put | server/internal/files/service.go:239-243 | stores a copy: the stored contents gain the caller's bytes, and no caller's array becomes part of the store |
| Blobs.Store.Get | server/internal/files/service.go:245-253 | a new array with the stored bytes, or not found |
| Blobs.Store.Exists | server/internal/files/service.go:255-260 | whether the id has bytes |
| Blobs.Store.InspectUploaded | server/internal/files/service.go:176-187 | length and hex digest of what a download returns |
| Blobs.KeepUsing | server/internal/files/service.go:239-253 | any number of such uses changes stored bytes only by upload |
| RateLimit.MemoryLimiter.Allow | server/internal/ratelimit/limiter.go:36-64 | counts in the open window or opens a new one; the decision follows the new count |
| RateLimit.RedisLimiter.Allow | server/internal/ratelimit/limiter.go:78-115 | INCR, PEXPIRE on the first, PTTL, as one command: the decision follows the new count and the reset is the remaining time to live |
| RateLimit.RedisLimiter.Incr | server/internal/ratelimit/limiter.go:79-79 | increments a live counter and keeps its expiry, or starts one without an expiry |
| RateLimit.RedisLimiter.PExpire | server/internal/ratelimit/limiter.go:80-82 | sets the expiry of a live key |
| RateLimit.Filter | server/internal/httpapi/ratelimit.go:32-53 | a limiter error lets the request pass; otherwise the decision decides, and a refused request is told to wait the nearest whole second to the reset, at least one |
| RateLimit.WithRedisRateLimit | server/internal/httpapi/ratelimit.go:19-55 | the same over Redis, with calls that never arrive or whose reply is lost |
| RateLimit.WithRateLimit | server/internal/httpapi/ratelimit.go:19-55 | paths outside /v1/ pass uncounted; a request passes exactly when its call is allowed; a refused one is told to wait the nearest whole second to the reset, at least one |
| Analytics.Load | analytics/pipeline.py:17-24 | a batch is inserted event by event and committed with its counts; an uncaught error stores nothing of it |
| Analytics.Ingest | analytics/pipeline.py:31-32 | a file is one transaction: an uncaught error rolls all of it back |
| Analytics.Handle | analytics/kafka_consumer.py:8-18 | the table is committed before the offset; a bad message commits neither a row nor an offset |
| Analytics.Database.InsertOrIgnore | analytics/pipeline.py:21-21 | one row unless its event id is there, and the row count says which |
| Tenants.SortByRank | server/internal/transfers/memory_repository.go:47-49 | a sorted permutation |
| Repositories.Collect | server/internal/transfers/memory_repository.go:39-46 | each record the user sees, once, and nothing else |
| Repositories.DeviceRepository.Create | server/internal/devices/memory_repository.go:25-33 | one step of the run above |
| Repositories.DeviceRepository.List | server/internal/devices/memory_repository.go:35-51 | exactly the user's devices, oldest first |
| Repositories.DeviceRepository.Get | server/internal/devices/memory_repository.go:53-66 | missing and foreign devices are both not found |
| Repositories.DeviceRepository.UpdatePushToken | server/internal/devices/memory_repository.go:68-87 | changes only the token of a device the user sees |
| Repositories.DeviceRepository.Delete | server/internal/devices/memory_repository.go:89-103 | removes only a device the user sees |
| Repositories.TransferRepository.Create | server/internal/transfers/memory_repository.go:25-33 | one step of the run above |
| Repositories.TransferRepository.List | server/internal/transfers/memory_repository.go:35-51 | exactly the user's transfers, newest first |
| Repositories.TransferRepository.Get | server/internal/transfers/memory_repository.go:53-66 | missing and foreign transfers are both not found |
| Repositories.TransferRepository.Update | server/internal/transfers/memory_repository.go:68-83 | replaces only a transfer the user sees and keeps its owner |

## Left out

- RedisIdempotency.AtMostOnce: a handler that dies before it returns is not counted as a run, although its mutation may have happened; handler panics are not modelled.
- RedisCoordinator.Coordinator.TryLock: the acquisition loop is split at every Redis command and may go round forever; the 25 ms pause and JSON encoding of the records are not modelled, and a lock or record that does not parse counts as an error (`FailClosed`).
- RefreshFamilies.PostgresAgreesWithMemory: interleaved transactions on one family, at the default isolation level, are not modelled.
- AndroidSingleFlight.NeverReplaysConsumedToken: nobody outside the app presents this session's refresh tokens; access tokens expire, and answers are 401, at arbitrary moments; token contents, storage failures and cancelled coroutines are not modelled.
- IosSingleFlight.NeverReplaysConsumedToken: the actor runtime promises no resumption order, so that no owner overtakes is a hypothesis; there is one `APIClient`; keychain failures are not modelled.
- OutboxWorker.Worker.Drain: database errors, which end the loop early or leave a lease to expire, and rows added while it drains are not modelled there; `Outbox` has them as `Drop` and `Enqueue`.
- OutboxWorker.Repository.Claim: a delivery here carries no platform, push token or payload; the join that reads them finds every device, by the foreign key.
- Outbox.PickExact: row ids are positions; gaps in the sequence and the payload column are not modelled.
- Transfers.DownloadsMatchDeclaration: local storage only; presigned S3 uploads and the metadata they are inspected by are not modelled.
- TransferEvents.LifecycleOrdered: an abandoned call may leave its event unpublished; who is connected when an event is published is not modelled.
- TransferLinks.AnswerOpensOneRoute: the URL around the query, its escaping and its host are not modelled.
- SignedUrls.IssuedUntilExpiry: the clock is a parameter in whole seconds.
- Password.VerifyHashed: the salt is a parameter, comparison time is not modelled, and an error of the key derivation itself cannot occur.
- RateLimit.MinuteBound: stated of the in-process limiter, which cannot fail; requests are in the order of the clock readings the limiter makes.
- RateLimitClients.HostMinuteBound: over Redis it speaks of calls that are all answered; an error lets a request pass (`WithRedisRateLimit`).
- AndroidSessions.NobodyIsSignedOut: the outcome of the second attempt does not touch the session and is not modelled.
- RateLimit.WithRateLimit: splitting the remote address is a parameter; header text is not modelled.
- Analytics.ExactlyOnceEffect: one partition and one consumer at a time; field values are taken after `str`, and the date library's verdict on an event time is a parameter.
- Tenants.SortByRank: the library's sorting algorithm is not modelled, an insertion sort with the same contract stands in for it.
- Repositories.DeviceRepository.Create: what the service checks before it stores a device is not modelled.
- Account deletion and its cascades, users and credentials, JWT access tokens, presence storage, WebSocket hub and Redis publish/subscribe: no shared-state property beyond the ones above.
- APNs and FCM: a send is delivered, fails for now, or fails for good.
- Which requests are coordinated or limited by their headers and body size (POST with a key of at most 128 bytes outside /v1/auth/, bodies of at most 1 MiB) and other HTTP parsing, JSON, logging, metrics, configuration, user interface and platform storage.
