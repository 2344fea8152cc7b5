# Verification model of the RL arena backend

A Dafny model of the stateful core of the backend, with proofs about whole runs of it:

* **Work queue** (`RedisQueue`, `QueueRuns`, `QueueTheorems`, `QueueItems`, `QueueRace`): the sorted set, the hash of
  items in processing and the dead-letter list, the Go client that moves items between them, and what
  holds after any sequence of operations of any number of clients.
* **Lease lock and coordinator** (`RedisLock`, `LeaseRuns`, `Coordinator`, `CoordinatorRuns`, `CoordinatorProgress`): SET NX with
  an expiry, the two compare scripts, the retry loop, and the sequential event loop of each instance. Runs
  interleave instances, clock, expiry, evictions and crashes.
* **Token buckets** (`TokenBucket`, `BucketRuns`, `BucketExact`, `RedisRateLimit`, `RateRuns`, `RateExact`): integer nanoseconds in
  memory, exact reals in the Redis script, the admission bounds of both, and exactly which calls each
  admits.
* **Matchmaking** (`MatchGate`, `Matchmaking`): the daily counter and cooldown of an agent, the widening
  opponent search and one greedy pairing pass.
* **Match results** (`EloService`, `MatchBook`, `BookRuns`, `RatingRuns`, `ExecutionRuns`): rating
  changes, the clamped stored rating, the counters, the match log and what agrees with what.

`Options`, `Durations` and `FiniteSums` are helpers. Each component has two layers. Classes update fields as the Go
structs, Redis keys and SQL rows are updated, and their contracts equate the new state with a function of
the old one. The `...Runs` and theorem modules then prove properties of those functions over arbitrary
runs. Where a promise fails, the lemma says exactly when it holds, and a run shows the failure.

Conventions: a Redis script, a Redis command or an SQL statement is one atomic step; every call takes the
reading of the clock it acts on as a parameter; JSON texts are the records they encode (equal records are
equal texts); numbers are unbounded and floating point is exact.

## Where the code differs from its comments or promises

* `elo_service.go` lines 20-21 speak of 10 to 20 and of more than 20 matches; the code gives an agent with exactly
  20 matches the established K-factor. The model follows the code.
* `migrations/008_add_matchmaking.sql` line 27 calls priority 1 the highest; both queries sort descending,
  so 10 comes first. The model follows the queries.
* The cleanup of the in-memory limiter is meant to remove inactive buckets. It tests for a full bucket,
  and a bucket is only filled by a call that then takes from it, so under ordinary calls it removes
  nothing (`BucketRuns.CleanupReclaimsNothing`).
* A bounded work queue loses the item it retries when it is full; some run loses an item exactly when there
  is a size limit (`QueueTheorems.ItemsCanBeLostExactlyWhenBounded`).
* A retry by a worker whose item is no longer in processing, or by a recovery that a Complete has overtaken,
  duplicates or revives the item (`QueueTheorems.RetryKeepsAccountsExactlyWhen`).
* The coordinator's lock makes handlers exclusive exactly when they return in less than its five seconds
  (`CoordinatorRuns.HandlersExclusiveExactlyWhenPrompt`); nothing in the code makes them.
* A match whose execution fails, or whose winner is no agent and so is refused by the foreign key on
  `matches.winner_id`, stays pending. Its two agents never initiate a match again
  (`ExecutionRuns.StrandedForever`), though the search still offers their waiting rows to others until those
  expire (`ExecutionRuns.StrandedIsStillAnOpponent`).
* A winner that is an agent but played no part is scored as a win of agent 2, which the log does not show
  (`BookRuns.WatcherBreaksTally`); that is the only way counters and log come apart
  (`BookRuns.CountersAgreeExactlyWhenUnskewed`).

## Model

| member | source | states |
|---|---|---|
| `RedisQueue.RedisQueue.Enqueue` | pkg/distributed/redis_queue.go:50-88 | A full bounded queue refuses and changes nothing; otherwise the item, stamped in place, is stored once with its negated priority as score. |
| `RedisQueue.RedisQueue.Dequeue` | pkg/distributed/redis_queue.go:91-129 | Empty is an error and changes nothing; otherwise some item of the highest priority leaves the set and enters the hash with its timestamp. |
| `RedisQueue.RedisQueue.Complete` | pkg/distributed/redis_queue.go:132-143 | Exactly the two hash fields of the ID go. |
| `RedisQueue.RedisQueue.Retry` | pkg/distributed/redis_queue.go:146-165 | Used-up retries become a dead letter; otherwise the item leaves processing first and then tries to get back into the queue, ten points lower. |
| `RedisQueue.RedisQueue.MoveToDLQ` | pkg/distributed/redis_queue.go:168-193 | One entry is put in front of the dead letters and the item leaves processing. |
| `RedisQueue.RedisQueue.RecoverStale` | pkg/distributed/redis_queue.go:196-242 | For every iteration order of the snapshot: each stale key is retried once, no other key is touched, and the successes are counted. |
| `QueueRuns.StepKeepsInv` | pkg/distributed/redis_queue.go:50-286 | Every operation keeps the invariant that ties queue, hash and dead letters to the history of each ID: its one place, its budget, its two fields. |
| `QueueRuns.RunKeepsInv` | pkg/distributed/redis_queue.go:50-286 | Every run keeps it. |
| `QueueRuns.RecoverIsRetries` | pkg/distributed/redis_queue.go:207-239 | Working on an old snapshot is the same as retrying items in hand one after the other; nothing outside the snapshot's stale keys moves. |
| `QueueRuns.Conservation` | pkg/distributed/redis_queue.go:50-257 | After any run, for any size limit, each accepted ID is in exactly one of queue, processing, dead letters and departed; the hash has two fields for each held item, so half its length, which ProcessingCount returns, is the number of items in processing; and the sizes add up to the number accepted. |
| `QueueTheorems.UnboundedDropsNothing` | pkg/distributed/redis_queue.go:146-165 | Without a size limit no run loses an item. |
| `QueueTheorems.ItemsCanBeLostExactlyWhenBounded` | pkg/distributed/redis_queue.go:50-165 | Some run loses an item if and only if the queue has a size limit. |
| `QueueTheorems.RetryKeepsAccountsExactlyWhen` | pkg/distributed/redis_queue.go:146-165 | A retry of any record of an accepted ID keeps the accounts if and only if the item is in processing or the retry puts nothing back. |
| `QueueTheorems.RetryKeepsTheItemExactlyWhen` | pkg/distributed/redis_queue.go:157-164 | A retry keeps its item exactly when the queue is not full or the retries are used up. |
| `QueueTheorems.BoundedQueueCanLose` | pkg/distributed/redis_queue.go:157-164 | For every size limit, a run that loses an item. |
| `QueueTheorems.LiveItemsAreWithinBudget` | pkg/distributed/redis_queue.go:146-165 | A queued or processed item has retries left, and its retries and priority are the first ones plus n and minus 10 n after n retries. |
| `QueueTheorems.LastRetryBuries` | pkg/distributed/redis_queue.go:151-154 | An item becomes a dead letter by the retry that spends its budget and by no other retry. |
| `QueueTheorems.DrainEnds` | pkg/distributed/redis_queue.go:91-242 | Without producers the dequeues of any run, with any recoveries and retries between, are at most what the budgets still allow. |
| `QueueTheorems.FreshDrainEnds` | pkg/distributed/redis_queue.go:91-242 | From items never retried that is the sum of their budgets. |
| `QueueTheorems.RecoverIsExact` | pkg/distributed/redis_queue.go:196-242 | On an unbounded queue exactly the stale items leave processing, each becomes one queued item (one retry more, ten points less) or one dead letter, all else is unchanged, and the count is theirs. |
| `QueueTheorems.RecoverTakesExactlyWhen` | pkg/distributed/redis_queue.go:207-225 | An item in processing is recovered if and only if its stored timestamp is old enough and its ID does not itself end like a timestamp field. |
| `QueueItems.RecoveredExactlyWhenDequeuedLongAgo` | pkg/distributed/redis_queue.go:91-225 | An item dequeued at t and in processing ever since, whatever else happened, is recovered at now if and only if now - t is more than the timeout's whole seconds and its ID does not look like a timestamp field. |
| `QueueItems.RecoveredCountIsKept` | pkg/distributed/redis_queue.go:196-242 | With any size limit the count a recovery returns is the number of its items that are still queued or dead letters. |
| `QueueItems.SkippedAreTimestampFields` | pkg/distributed/redis_queue.go:208-211 | The keys skipped are exactly the timestamp fields of IDs that are not empty. |
| `QueueItems.ItemsKeepTheirContent` | pkg/distributed/redis_queue.go:50-242 | Over any run in which workers hand items back as they got them, every stored item has the data and creation time its producer gave it. |
| `QueueItems.HeadHasHighestPriority` | pkg/distributed/redis_queue.go:78-105 | A dequeue hands out an item of the highest priority queued. |
| `QueueTheorems.TimestampLikeIdIsNeverRecovered` | pkg/distributed/redis_queue.go:208-211 | An item in processing whose ID ends like a timestamp field stays there through any number of recoveries. |
| `QueueRace.EnqueueIsCheckThenInsert` | pkg/distributed/redis_queue.go:50-88 | An Enqueue nobody interrupts is the two steps of the race model. |
| `QueueRace.SizeLimitUnderRace` | pkg/distributed/redis_queue.go:52-62 | However k clients interleave check and insert, the queue never exceeds the limit by more than k - 1. |
| `QueueRace.OvershootIsReached` | pkg/distributed/redis_queue.go:52-85 | For every limit and k some run exceeds it by exactly k - 1. |
| `Durations.WholeSecondsFit` | pkg/ratelimit/ratelimit.go:48-62 | Whole seconds of a duration of either sign, truncated toward zero. |
| `RedisLock.RedisLockManager.AcquireLock` | pkg/distributed/redis_lock.go:37-54 | The key is written exactly when no live entry is there. |
| `RedisLock.RedisLockManager.TryLockWithRetry` | pkg/distributed/redis_lock.go:57-85 | All attempts but a last successful one met a live key; on success the last was free; it stops early only on a cancelled wait, and the world moves during every wait. |
| `RedisLock.RedisLock.Release` | pkg/distributed/redis_lock.go:88-108 | The key is deleted exactly while it lives and stores the caller's value. |
| `RedisLock.RedisLock.Extend` | pkg/distributed/redis_lock.go:111-133 | The same condition re-expires the key and updates the ttl. |
| `RedisLock.RedisLock.IsHeld` | pkg/distributed/redis_lock.go:136-146 | True exactly under that condition. |
| `RedisLock.ReleaseFreesOwnKey` | pkg/distributed/redis_lock.go:88-108 | After a release the key is gone exactly if it lived with the caller's value, and nothing else changed. |
| `RedisLock.LivesForItsTime` | pkg/distributed/redis_lock.go:37-54 | An acquired lock lives for exactly its time, for ever if that is zero. |
| `RedisLock.ExtensionStartsAnew` | pkg/distributed/redis_lock.go:111-133 | After an extension it lives for exactly the new time. |
| `LeaseRuns.StepKeepsInv` | pkg/distributed/redis_lock.go:37-133 | Acquire, extend, release, crash, time and eviction keep the tie between what holders believe and what Redis stores. |
| `LeaseRuns.LeaseExclusion` | pkg/distributed/redis_lock.go:37-133 | With distinct values every run has at most one holder of an unexpired lease a key, the key stores its value and deadline, and a release deletes only the entry of its own acquisition. |
| `LeaseRuns.SharedValueBreaks` | pkg/distributed/redis_lock.go:88-108 | With a shared value a run ends where a release would delete another's entry. |
| `LeaseRuns.SafeExactlyWhenDistinct` | pkg/distributed/redis_lock.go:37-133 | The guarantees hold over all runs if and only if the values are distinct. |
| `Coordinator.MatchmakingCoordinator.HandleEventWithLock` | pkg/distributed/matchmaking_coordinator.go:129-169 | The handler runs exactly when the last of at most three attempts finds the environment's key free, and the key is then released by comparison. |
| `Coordinator.MatchmakingCoordinator.Start` | pkg/distributed/matchmaking_coordinator.go:49-98 | Events are handled one after the other, in order, skipping what cannot be decoded, until stopped; between two of them anything may happen in Redis. |
| `Coordinator.EveryEventHasItsPlace` | pkg/distributed/matchmaking_coordinator.go:66-97 | Each event that arrives before the loop ends is handled, at the place its arrival gives it, whatever else arrives; nothing else is. |
| `Coordinator.LockKeysApart` | pkg/distributed/matchmaking_coordinator.go:130-131 | Different environments have different keys. |
| `CoordinatorRuns.StepRefines` | pkg/distributed/matchmaking_coordinator.go:49-169 | Each step of a cluster of loops is at most one enabled step of the lease protocol. |
| `CoordinatorRuns.RunRefines` | pkg/distributed/matchmaking_coordinator.go:49-169 | Every run of the cluster is a run of the lease protocol. |
| `CoordinatorRuns.RoundIsRun` | pkg/distributed/matchmaking_coordinator.go:129-169 | What the loop does for one event, in a world moved by steps of the others and the clock, is a run of the cluster that ends in the same Redis state with the instance idle. |
| `CoordinatorRuns.ReturnDeletesOwnEntry` | pkg/distributed/matchmaking_coordinator.go:129-169 | In any interleaving a deferred release deletes the key only if its own acquisition wrote the entry. |
| `CoordinatorRuns.HandlersOverlapOnlyPastTheLease` | pkg/distributed/matchmaking_coordinator.go:129-169 | Two instances handle one environment at once only after one of them outlived its lease. |
| `CoordinatorRuns.HandlersCanOverlap` | pkg/distributed/matchmaking_coordinator.go:129-169 | From any state with the key free there is a run where they do. |
| `CoordinatorRuns.HandlersExclusiveExactlyWhenPrompt` | pkg/distributed/matchmaking_coordinator.go:129-169 | For two or more instances, every run whose handlers all return within t milliseconds is free of overlaps if and only if t is less than 5000. |
| `CoordinatorProgress.HandoverIsImmediate` | pkg/distributed/matchmaking_coordinator.go:129-169 | When a handler returns before its lease ends, the key leaves Redis and the next ready instance's attempt at that instant gets the lock. |
| `CoordinatorProgress.SkippedOnlyWhenBusy` | pkg/distributed/redis_lock.go:57-85 | In any run an event is skipped only by a third attempt, a second or more after it came, that finds the key live; a wait is given up only after ten seconds. |
| `CoordinatorProgress.AttemptsUntilFree` | pkg/distributed/redis_lock.go:57-85 | An attempt handles the event if and only if the key is free, and skips it if and only if it is the third and the key is not. |
| `TokenBucket.TokenBucket.Refill` | pkg/ratelimit/ratelimit.go:48-62 | Whole seconds times rate, capped; the time moves only when something was added. |
| `TokenBucket.TokenBucket.AllowN` | pkg/ratelimit/ratelimit.go:33-45 | Granted and charged exactly when the refilled bucket holds n. |
| `TokenBucket.RateLimiter.GetBucket` | pkg/ratelimit/ratelimit.go:102-123 | The key's own bucket, or a new full one that no other key shares. |
| `TokenBucket.RateLimiter.AllowN` | pkg/ratelimit/ratelimit.go:96-99 | Only the key's bucket changes. |
| `TokenBucket.RateLimiter.Cleanup` | pkg/ratelimit/ratelimit.go:136-154 | Exactly the full buckets idle past the interval go, in whatever order they are met. |
| `TokenBucket.RateLimiter.Reset` | pkg/ratelimit/ratelimit.go:157-161 | Exactly the key's bucket goes. |
| `BucketRuns.AdmissionFromCreation` | pkg/ratelimit/ratelimit.go:18-62 | Units granted since creation are at most capacity + rate * floor(elapsed seconds). |
| `BucketRuns.AdmissionInWindow` | pkg/ratelimit/ratelimit.go:33-62 | Units granted in any later window are at most capacity + rate * ceil(its seconds). |
| `BucketExact.GrantedExactlyWhenPaidFor` | pkg/ratelimit/ratelimit.go:18-62 | A call of any run is granted if and only if, since the start and since each earlier call, the amounts granted and its own fit into the capacity and the refills. |
| `BucketExact.BurstIsExact` | pkg/ratelimit/ratelimit.go:33-45 | Of k calls for one unit at one instant a new bucket grants exactly the first min(k, capacity). |
| `BucketExact.AmountsAreGranted` | pkg/ratelimit/ratelimit.go:33-45 | Those amounts are what the admission bounds count. |
| `BucketRuns.EarnsAtLeastHalfTheRate` | pkg/ratelimit/ratelimit.go:48-62 | Although each refill forgets a fraction of a second, a bucket that is never full earns at least half its nominal rate. |
| `BucketRuns.LatePollsEarnHalf` | pkg/ratelimit/ratelimit.go:48-62 | Polls just short of two seconds apart earn one second's tokens each, for any number of polls. |
| `BucketRuns.CleanupIsUnobservable` | pkg/ratelimit/ratelimit.go:101-154 | With cleanups at arbitrary points every answer is the one of a limiter that never cleans up, for any capacity, rate and amounts. |
| `BucketRuns.FreshCleanupIsUnobservable` | pkg/ratelimit/ratelimit.go:75-154 | The same from a new limiter. |
| `BucketRuns.ReclaimedExactlyWhen` | pkg/ratelimit/ratelimit.go:136-154 | A bucket is later deletable exactly after a call that took nothing from a full bucket and a long enough pause. |
| `BucketRuns.CleanupReclaimsNothing` | pkg/ratelimit/ratelimit.go:136-154 | If every call asks for between 1 and the capacity, no cleanup of any run deletes anything. |
| `BucketExact.CleanupForgetsExactly` | pkg/ratelimit/ratelimit.go:136-154 | A cleanup drops exactly the full buckets not refilled for more than ten minutes and changes no other. |
| `BucketExact.UnusedKeyIsNewBucket` | pkg/ratelimit/ratelimit.go:91-123 | A key never used is answered, call by call, like a new bucket made at its first call. |
| `BucketExact.KeysAreIndependent` | pkg/ratelimit/ratelimit.go:96-161 | Whatever is asked, reset or cleaned up, a key's answers depend on the calls for that key alone. |
| `BucketExact.ResetStartsAnew` | pkg/ratelimit/ratelimit.go:157-161 | After a reset a key is answered like one never used, and no other key notices. |
| `RedisRateLimit.RedisRateLimiter.RunScript` | pkg/ratelimit/redis_ratelimit.go:76-113 | Answer and both stored keys follow from what the keys held, expired keys counting as absent; both expire together. |
| `RedisRateLimit.RedisRateLimiter.Allow` | pkg/ratelimit/redis_ratelimit.go:59-131 | Defaults, the sub-second window that Redis refuses, the decision, and every other key unchanged. |
| `RedisRateLimit.RedisRateLimiter.AllowWithInfo` | pkg/ratelimit/redis_ratelimit.go:134-199 | The same with remaining count and reset time. |
| `RedisRateLimit.RedisRateLimiter.Reset` | pkg/ratelimit/redis_ratelimit.go:202-217 | The key is as if never used, every other key unchanged. |
| `RateRuns.AdmissionsArePaid` | pkg/ratelimit/redis_ratelimit.go:94-105 | Admissions and tokens left are at most tokens before plus what the time between the stamps is worth. |
| `RateRuns.AdmissionBound` | pkg/ratelimit/redis_ratelimit.go:76-113 | Between a first and a last admitted call at most limit + (tn - t1) * limit / window are admitted, even when stamps in between go backwards. |
| `RateExact.AdmittedExactlyWhenPaidFor` | pkg/ratelimit/redis_ratelimit.go:76-113 | On a new key the m-th call is admitted if and only if for every earlier call j the calls admitted since j and this one are at most limit + (tm - tj) * limit / window, whichever way the timestamps move. |
| `RateExact.RemainingIsWhatABurstGets` | pkg/ratelimit/redis_ratelimit.go:98-113 | The remaining count of an answer is exactly how many more calls at that second are admitted. |
| `RateExact.FullByResetTime` | pkg/ratelimit/redis_ratelimit.go:94-113 | By the reset time the bucket the call found would be full, and an empty one not before. |
| `RateExact.KeysLiveTwoWindows` | pkg/ratelimit/redis_ratelimit.go:108-110 | Keys live for exactly two windows. |
| `RateRuns.BurstIsExact` | pkg/ratelimit/redis_ratelimit.go:88-105 | A burst on a new key is admitted up to the limit, to the call. |
| `RateRuns.PacedCallsAreAdmitted` | pkg/ratelimit/redis_ratelimit.go:94-105 | Calls that leave a token's time between them are all admitted. |
| `RateRuns.ForgettingIsHarmless` | pkg/ratelimit/redis_ratelimit.go:82-111 | Once two windows have passed, an absent and a present bucket answer alike. |
| `RateRuns.ExpiryIsUnobservable` | pkg/ratelimit/redis_ratelimit.go:82-111 | On one clock a whole run shows the same flags, counts and stored values as if keys never expired. |
| `RateRuns.AdmissionBoundWithExpiry` | pkg/ratelimit/redis_ratelimit.go:76-113 | On one clock, with keys expiring as they may, any stretch of calls admits at most limit + (tn - t1) * limit / window. |
| `RateRuns.FreshExpiryIsUnobservable` | pkg/ratelimit/redis_ratelimit.go:82-111 | The same from a new key. |
| `RateRuns.ResetTimeShowsExpiry` | pkg/ratelimit/redis_ratelimit.go:82-113 | The reset time does differ, by at least two windows. |
| `EloService.ChangesAreBounded` | internal/service/elo_service.go:22-79 | No change exceeds the agent's K-factor; a winner never loses points and a loser never gains any. |
| `EloService.ChangesAreDue` | internal/service/elo_service.go:22-79 | Each change is within half a point of 40, 32 or 24 times the points scored beyond the expected ones, by the agent's number of matches. |
| `EloService.WinAmongEquals` | internal/service/elo_service.go:22-79 | A win among equals moves both by exactly 20, 16 or 12 points, and by 16 with the default K-factor. |
| `EloService.ChangesNearlyCancel` | internal/service/elo_service.go:55-79 | The two changes sum to at most the difference of the K-factors plus one. |
| `EloService.DefaultZeroSumExactlyWhen` | internal/service/elo_service.go:34-50 | With the default K-factor and any expected score the two changes sum to zero, unless exactly half a point is due and both unclamped ratings have the same sign, when they sum to plus or minus one. For the expected score the service computes from integer ratings half a point is never due in exact arithmetic, so there the sum is zero. |
| `EloService.EqualKFactorsZeroSumExactlyWhen` | internal/service/elo_service.go:55-79 | The same for any equal K-factors and any expected score. |
| `EloService.EqualDrawChangesNothing` | internal/service/elo_service.go:55-79 | A draw of equals moves nobody. |
| `MatchGate.AgentMatchStatsRepository.GetOrCreate` | internal/repository/agent_match_stats_repository.go:20-61 | The row is returned, created with the schema's defaults if missing. |
| `MatchGate.AgentMatchStatsRepository.IncrementMatchCount` | internal/repository/agent_match_stats_repository.go:65-108 | Counter, reset time, last match and total of this agent; the day's counter restarts once its reset time is reached. |
| `MatchGate.AgentMatchStatsRepository.CanMatch` | internal/repository/agent_match_stats_repository.go:111-137 | The verdict, the daily limit before the cooldown, and the row it may create. |
| `MatchGate.RowIsFaithful` | internal/repository/agent_match_stats_repository.go:65-108 | After any history the counter is the number of matches of the day that ends at the reset time, and no match was counted later. |
| `MatchGate.DailyGateCountsToday` | internal/repository/matchmaking_repository.go:117-122 | The gate's daily condition asks exactly whether today's matches are below the limit. |
| `MatchGate.GatesAgreeOnTheDay` | internal/repository/agent_match_stats_repository.go:118-121 | CanMatch and the waiting-list query agree on the daily limit. |
| `MatchGate.CanMatchExactlyWhen` | internal/repository/agent_match_stats_repository.go:111-137 | After any history CanMatch allows an agent if and only if it has played fewer matches on this UTC day than the limit and has rested for the cooldown; each of its refusals has its exact condition. |
| `MatchGate.FilterPassesExactlyWhen` | internal/repository/matchmaking_repository.go:100-125 | The query lists an agent by its gate row if and only if it has matches of today left and its last one is more than the cooldown's whole minutes ago. |
| `MatchGate.DefaultCanMatchExactlyWhen` | internal/models/agent_match_stats.go:23-31 | With the default configuration: fewer than 100 today, none in the last five minutes. |
| `MatchGate.DailyLimitExactlyWhenGated` | internal/repository/agent_match_stats_repository.go:65-137 | No UTC day exceeds the limit if and only if each match passed the daily condition at its instant. |
| `MatchGate.CooldownExactlyWhenGated` | internal/repository/agent_match_stats_repository.go:65-137 | All matches are the cooldown apart if and only if each one waited for it since the row's last match. |
| `MatchGate.FilterHonoursCooldownExactlyWhen` | internal/service/matchmaking_service.go:240-262 | The query, which is told whole minutes, keeps the cooldown if and only if no seconds are cut off. |
| `MatchGate.DailyAndCooldownSafety` | internal/repository/agent_match_stats_repository.go:65-137 | Matches that each directly follow a passed gate keep the daily limit and the cooldown, which must be whole minutes only where a match passed the query's filter alone. |
| `MatchGate.DefaultConfigIsSafe` | internal/models/agent_match_stats.go:23-31 | With the default configuration at most 100 matches between two UTC midnights, any two at least five minutes apart. |
| `Matchmaking.MatchmakingRepository.EnqueueAgent` | internal/repository/matchmaking_repository.go:22-35 | Upsert: a row already there keeps its ID and matched time and waits again; all other rows stay. |
| `Matchmaking.MatchmakingRepository.FindOpponent` | internal/repository/matchmaking_repository.go:38-80 | Some best row by gap, priority and time among the waiting ones in range, nothing exactly when there is none. |
| `Matchmaking.BestStaysBest` | internal/service/matchmaking_service.go:304-329 | A best row of one range is a best row of every wider one. |
| `Matchmaking.MatchmakingService.FindOpponentWithExpandingRange` | internal/service/matchmaking_service.go:304-329 | The whole widening loop answers like one query of the widest range: a free best row of it, or nothing if it is empty or a best row of it is taken. |
| `Matchmaking.SearchIsOneQuery` | internal/service/matchmaking_service.go:304-329 | With a total tie-break the answer is determined: the best row if free, else nothing. |
| `Matchmaking.NobodyIsNearer` | internal/repository/matchmaking_repository.go:38-80 | No waiting agent of the environment, at any distance, is strictly nearer than the one returned. |
| `Matchmaking.GivesUpExactlyWhen` | internal/service/matchmaking_service.go:304-329 | With somebody free in range the search still gives up exactly when the best row is taken. |
| `Matchmaking.SearchReaches` | internal/service/matchmaking_service.go:304-329 | For any start and maximum, everybody within the maximum less 99 points is in reach and nobody beyond the maximum is. |
| `Matchmaking.FindsNobodyExactlyWhen` | internal/service/matchmaking_service.go:304-329 | With the service's ranges and nobody taken, the search finds nobody if and only if no other waiting agent of the environment is within 500 points. |
| `Matchmaking.FoundIsFirstInLine` | internal/repository/matchmaking_repository.go:38-80 | Whoever is found waits in the environment, is another agent, free and within 500 points, and comes first by priority and waiting time among those as near. |
| `Matchmaking.MatchmakingService.MatchEnvironment` | internal/service/matchmaking_service.go:240-301 | Every row's turn is accounted for; the pairs made are a matching, processed is its set of agents and matched twice its size, whatever creations fail and however the table changes between them. |
| `Matchmaking.AddPair` | internal/service/matchmaking_service.go:272-296 | Adding a pair of two different free agents keeps the matching. |
| `Matchmaking.MatchedIsTwice` | internal/service/matchmaking_service.go:292-294 | The pairs hold twice as many distinct agents. |
| `Matchmaking.LeftOverOnlyWhen` | internal/service/matchmaking_service.go:262-299 | When every match tried is created, an agent left over had nobody within 500 points at its turn, or a nearest opponent that the pass has paired. |
| `Matchmaking.EarlierInListIsMoreUrgent` | internal/repository/matchmaking_repository.go:123-124 | Higher priority, and then longer wait, comes earlier in the waiting list. |
| `Matchmaking.InitiatorsPassedTheGate` | internal/repository/matchmaking_repository.go:100-148 | Every initiator was waiting in the environment, in no open match and within its limits by the snapshot. |
| `MatchBook.AgentRepository.UpdateStats` | internal/repository/agent_repository.go:311-340 | The row of an existing agent: clamped rating, one counter, one match more; nothing for an unknown one. |
| `MatchBook.MatchRepository.Create` | internal/repository/match_repository.go:20-42 | One pending row more, under the new ID the database makes. |
| `MatchBook.MatchRepository.UpdateResult` | internal/repository/match_repository.go:45-83 | Winner and changes are logged and the match is completed; nothing for an unknown match; an error and nothing for a winner no agent row has. |
| `MatchBook.MatchService.ProcessMatchResult` | internal/service/match_service.go:169-271 | Log, ratings and counters, both agents' gate rows, and both agents waiting again with their new ratings, nobody else touched; if the log refuses the result, nothing at all. |
| `MatchBook.MatchService.CreateAndExecute` | internal/service/match_service.go:56-166 | The first failing check decides the error and changes nothing; otherwise the match is opened and, on a success the log takes only, settled, counted by both gates and followed by both agents waiting again. |
| `BookRuns.CountersAgreeExactlyWhenUnskewed` | internal/service/match_service.go:169-227 | After any run the counters of all agents equal the log's counts if and only if no result named an existing agent that did not play. |
| `BookRuns.WatcherBreaksTally` | internal/service/match_service.go:216-227 | Three agents join, two play, the third is named the winner: counters and log disagree. |
| `BookRuns.OpponentRowsSumToCounters` | internal/repository/agent_repository.go:394-440 | Each counter of an agent is the sum of its column over the rows of its opponents. |
| `BookRuns.OpponentRowsMirror` | internal/repository/agent_repository.go:394-440 | Two agents' rows about each other swap wins and losses. |
| `BookRuns.TotalsAreTwice` | internal/service/match_service.go:169-227 | Over all agents the totals are twice the completed matches. |
| `BookRuns.BookAgreesWithLog` | internal/service/match_service.go:169-227 | From an empty book every run without such a result keeps counters, log, opponent rows and totals in agreement, all wins being all losses. |
| `RatingRuns.StoredIsGreatest` | internal/repository/agent_repository.go:311-340 | Clamping step by step equals one maximum over the unclamped sums and their tails. |
| `RatingRuns.StoredIsLedgerExactlyWhen` | internal/repository/agent_repository.go:311-340 | The stored rating is the unclamped ledger if and only if the ledger never went below zero. |
| `RatingRuns.LiftNeverShrinks` | internal/repository/agent_repository.go:311-340 | Points given by the clamp are never taken back. |
| `RatingRuns.RatingAgainstLog` | internal/repository/agent_repository.go:311-340 | Over runs of the bookkeeping the rating is that maximum of the start and the changes logged for the agent, never negative and never below their sum. |
| `ExecutionRuns.CallIsRun` | internal/service/match_service.go:56-166 | Every call of the service is a legal run of zero, one or two bookkeeping steps, the second of which the log may refuse. |
| `ExecutionRuns.CallsAgreeExactlyWhenUnskewed` | internal/service/match_service.go:56-227 | After any calls, whatever was refused or failed, the counters agree with the log if and only if no executor named an existing agent that did not play. |
| `ExecutionRuns.OpenExactlyWhenStranded` | internal/service/match_service.go:141-219 | An agent is in an open match if and only if it was before or some call for it reached the executor and came back without a result the log takes. |
| `ExecutionRuns.StrandedForever` | internal/service/match_service.go:151-163 | Such an agent is in no later waiting list. |
| `ExecutionRuns.StrandedIsStillAnOpponent` | internal/repository/matchmaking_repository.go:38-55 | Its waiting row is still a candidate for every other agent in range, and the best one when it is the only one. |
| `ExecutionRuns.CallMovesRatings` | internal/service/match_service.go:56-227 | A call moves no stored rating by more than the K-factor, only those of its two agents on a result the log takes, up for the agent scored as the winner and down for the other. |
| `ExecutionRuns.CallPaysWhatIsDue` | internal/service/match_service.go:183-227 | The row a result leaves in the log and both stored ratings: each change within half a point of K-factor times score beyond expectation, a draw scoring one half, and the rating their sum as far as that stays above zero. |
| `ExecutionRuns.DrawHelpsTheWeaker` | internal/service/match_service.go:186-204 | A draw moves ratings only towards the agent that was expected to score less than half, and none where half was expected. |
| `ExecutionRuns.CallGoesExactlyWhen` | internal/service/match_service.go:56-118 | A call reaches the executor if and only if the agents are two, exist, share an environment and have each something to run; and when each of the first four refusals is given. |
| `ExecutionRuns.BothWaitAndRest` | internal/service/match_service.go:229-262 | After a saved result both agents wait again with their stored ratings at priority 5, are counted one match more, and pass no gate until the cooldown is over; nobody else's rows change. |
| `ExecutionRuns.RefusedLeavesAll` | internal/service/match_service.go:216-219 | After a refused one queue and gate are as before. |

## Left out

- Network, Redis and SQL failures, JSON encoding and decoding errors, logging and metrics.
- 64-bit wrap-around, the rounding of floating-point seconds, Lua numbers and the power in the expected score, which is an input between 0 and 1.
- QueueRuns.Conservation: for IDs that are new, and none of which is another's ID followed by `:timestamp`; retries and burials are of items in processing (`QueueTheorems.RetryKeepsAccountsExactlyWhen` says what any other retry does). Operations are atomic there; only the size check of Enqueue is split, in `QueueRace`.
- QueueRuns.StepKeepsInv: the caller may have edited the data of an item in hand, not its ID, priority or retry counters.
- RateRuns.ExpiryIsUnobservable: for one limit and window a key.
- RedisRateLimit.RedisRateLimiter.Reset: the two deletes of the pipeline are one step, so an Allow between them, which could leave tokens without a timestamp, is not modelled.
- RateRuns.AdmissionBound: for calls none of which finds the keys expired; `RateRuns.AdmissionBoundWithExpiry` covers those that do, on one clock.
- TokenBucket.RateLimiter.AllowN: finding the bucket and charging it share one reading of the clock, and no cleanup comes between.
- BucketRuns.CleanupIsUnobservable: finding the bucket and charging it are one step with one reading of the clock.
- MatchGate.DailyAndCooldownSafety: for matches that passed a gate; an opponent passes none, so nothing is claimed of it, nor that an agent is in one unfinished match only.
- BookRuns.BookAgreesWithLog: a result is one step; a database failure between its statements is not modelled, nor is a second result for a completed match. A winner the foreign key refuses is.
- IDs are compared as text; that the database reads two spellings of one UUID as equal is not modelled.
- CoordinatorRuns.RoundIsRun: a context is cancelled by its ten seconds only.
- First-in-first-out order among equal priorities: Redis breaks ties by the bytes of the member, so Dequeue may return any of them; the SQL queries leave full ties open too.
- The order of the rows of GetOpponentStats and the opponents' names.
- MarkAsMatched, RecordMatch, CleanupExpired and RemoveFromQueue: single statements; what a creation does to the table is arbitrary in the model of a pass.
- PeekDLQ and both GetStats: plain reads.
- ResetDailyStats and ResetELO: administrative resets that deliberately break the run-long bounds.
- Agent deletion and profile changes, submissions beyond what a match would run, scores and replay addresses.
- The WebSocket hub, the build monitor and builder, HTTP handlers, authentication, storage and configuration.
