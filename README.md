# uid-pool: a lazy-refill identifier pool on a Redis list

This project models `pool.go` of the uid-pool package. The package keeps ready-made unique
ids in a Redis list under `CacheKey`. `GetUid` takes ids from the tail of the list with RPOP.
When a pop finds nothing, `maintain` refills the list. `maintain` reads the list's length and
does nothing while it is strictly above `Threshold`. Otherwise it takes a lock key with SETNX,
calls the `GetUidList` callback, LPUSHes every returned id and deletes the lock key.
`GetUid` retries up to `RetryTimes` times. `Flush` deletes the list.

The model has three modules:

- `PoolModel` (pool_model.dfy) holds the two Redis keys as a value `Store(pool, locked)`.
  Each Go function is a total function from the old store to the new store and the Go
  return values: `PopStep`, `LockStep`, `UnlockStep`, `FlushStep`, `FillStep`,
  `MaintainStep`, `AttemptStep` (getUid) and `GetUidFrom` (GetUid's loop from attempt `i`).
  The outside world is an explicit record per call. `MaintainEnv` says which of LLEN, SETNX
  and DEL report an error, and which ids `GetUidList` returns. `AttemptEnv` adds the two RPOP
  calls. `GetUid` receives one `AttemptEnv` per attempt, as a function `envs: nat -> AttemptEnv`.
- `PoolProperties` (pool_properties.dfy) holds the lemmas about those functions.
- `Pool` (pool.dfy) holds the class `UidPool`. Its fields `pool: seq<int>` and
  `locked: bool` are the two keys. Its constants are the `Config` fields the logic reads.
  Each method updates the fields in place and is proved to produce exactly what the matching
  `PoolModel` function gives. `FillUidPool` and `GetUid` keep the Go loops, with their invariants.

Two quirks of the code are modelled as written:

- A stored `0` cannot be told apart from an empty list. `getUid` pops it, drops it and goes
  on to `maintain` (`AttemptDropsStoredZero`).
- `GetUid` drops `getUid`'s error. A failed RPOP, a failed LLEN or "lock failed" only costs
  one attempt: pool.go:27 discards the error and the loop moves on. The caller sees a
  non-zero id or "get uid failed" and nothing else (`GetUidFrom`, `GetUidRetriesStoreFailure`).

Two further behaviours of the code are worth stating outright:

- The batch is not one atomic write. pool.go:111-116 queues one LPUSH per id in a pipeline,
  ignores the result of `Exec` and always returns nil. Because each LPUSH goes to the head,
  the batch ends up reversed in front of the old contents, so on an empty list the first
  generated id is served first (`RefillOrder`, `RefillServesFirstGeneratedFirst`).
- The configuration is never checked (pool.go:26, 65). With `RetryTimes <= 0` `GetUid` fails
  at once (`GetUidWithoutRetries`). With a negative `Threshold` even an empty list counts as
  "above the threshold", so the pool is never refilled (`AttemptNegativeThresholdNeverRefills`).

## Model

| member | source | states |
|---|---|---|
| PoolModel.Reversed | pool.go:111-113 | the list the per-id LPUSH loop builds from a batch has exactly the batch's length (its order is stated by ReversedAt and ReversedCons) |
| PoolModel.ReversedKeepsIds | pool.go:111-113 | pushing the batch keeps every id as often as it occurs in the batch (multiset equality) |
| PoolModel.Refill | pool.go:108-116 | the list after fillUidPool grows by exactly the batch size, keeps the old list as its tail, and holds the old ids plus the batch's ids |
| PoolModel.PopStep | pool.go:38-42 | RPOP.Int(): nil error exactly when the call works and the list is non-empty; then the list minus its tail plus the returned id is the old list; otherwise 0 and nothing changes, the error being a store error when the call fails and redis.Nil when the list is empty; the lock is never touched |
| PoolModel.LockStep | pool.go:80-86 | lock() acquires exactly when SETNX works and the key is absent; the key is held afterwards if it was held before or was acquired; the list is untouched |
| PoolModel.UnlockStep | pool.go:88-91 | Unlock returns nil exactly when its DEL works; the lock stays held only if the DEL failed and it was held; the list is untouched |
| PoolModel.FlushStep | pool.go:94-97 | Flush returns nil exactly when its DEL works, and then the list is empty; a failed DEL leaves it; the lock is untouched |
| PoolModel.FillStep | pool.go:108-116 | fillUidPool always returns nil, keeps the lock, grows the list by the batch size with the old list as its tail, and adds exactly the batch's ids |
| PoolModel.MaintainStep | pool.go:57-77 | maintain returns nil, a store error or "lock failed"; a store error exactly when LLEN fails; "lock failed" exactly when the length is at or below Threshold and SETNX fails or the lock is held; on any error the list and lock are unchanged |
| PoolModel.AttemptStep | pool.go:36-54 | getUid returns a non-zero id only with a nil error and an error only with 0; it never returns "get uid failed"; a held lock stays held, and a free lock is free again unless the deferred DEL fails |
| PoolModel.GetUidFrom | pool.go:25-34 | GetUid returns either a non-zero id with a nil error or 0 with "get uid failed"; store errors and "lock failed" never reach the caller |
| PoolProperties.ReversedSnoc | pool.go:111-113 | one more LPUSH puts the newest id in front of the earlier ones |
| PoolProperties.ReversedCons | pool.go:111-113 | the first id pushed ends up at the tail, behind all later ones |
| PoolProperties.ReversedAt | pool.go:111-113 | position k of the pushed batch holds the id k places from the batch's end |
| PoolProperties.RefillOrder | pool.go:108-116 | after fillUidPool the head holds the batch in reverse order and the old list follows unchanged |
| PoolProperties.PushFrontStep | pool.go:111-113 | one iteration of the push loop extends the reversed prefix by the next id |
| PoolProperties.RefillServesFirstGeneratedFirst | pool.go:53 | after a refill of an empty list, RPOP returns the first generated id and leaves the rest of the batch in push order |
| PoolProperties.LockSetsOnlyWhenFree | pool.go:80-86 | lock() succeeds exactly when SETNX works and the lock key is absent; on success the key is set and the list is untouched; on failure nothing changes |
| PoolProperties.UnlockIdempotent | pool.go:88-91 | Unlock frees the lock whoever set it, leaves the list alone, and a second Unlock changes nothing |
| PoolProperties.FlushIdempotent | pool.go:94-97 | Flush empties the list, leaves the lock alone, and a second Flush changes nothing |
| PoolProperties.FillPrependsReversedBatch | pool.go:108-116 | fillUidPool returns nil, leaves reverse(batch) + old list, grows the list by the batch size, and is a no-op for an empty batch |
| PoolProperties.MaintainAboveThreshold | pool.go:64-67 | with the length strictly above Threshold, maintain returns nil and changes neither the list nor the lock |
| PoolProperties.MaintainRefillsAtThreshold | pool.go:65-76 | at or below Threshold (equality included), with the lock free and no store error, maintain pushes the whole batch, returns nil, and the lock is free again unless its DEL failed |
| PoolProperties.MaintainContended | pool.go:68-71 | with the lock already held, maintain returns "lock failed", changes nothing, and its result does not depend on the generated batch |
| PoolProperties.MaintainReleasesLock | pool.go:72-76 | maintain never leaves held a lock it found free unless the deferred DEL fails; it never frees a lock held by someone else; the list is either unchanged or refilled with exactly the batch, and then the error is nil |
| PoolProperties.MaintainConserves | pool.go:57-77 | after maintain the list holds only the old ids and at most the generated batch |
| PoolProperties.PopConserves | pool.go:38 | a successful RPOP moves exactly the returned id out of the list; a failed one moves nothing |
| PoolProperties.AttemptPopsTail | pool.go:38-47 | getUid on a list whose tail id is non-zero returns that id with a nil error and removes exactly it |
| PoolProperties.AttemptReturnsPopFailure | pool.go:38-42 | a failed first RPOP makes getUid return (0, err) with the store unchanged |
| PoolProperties.AttemptReturnsMaintainError | pool.go:48-52 | on an empty list, an error from maintain is returned as (0, err), and no id is added |
| PoolProperties.AttemptRefillsEmptyList | pool.go:48-53 | on an empty list with Threshold >= 0, a free lock and no store error, getUid refills and returns the batch's first id, leaving the rest of the batch and a free lock |
| PoolProperties.AttemptNegativeThresholdNeverRefills | pool.go:59-67 | with Threshold < 0, getUid on an empty list never refills and returns (0, redis.Nil) |
| PoolProperties.AttemptConserves | pool.go:36-54 | the ids left after getUid plus the id it returns come from the old list and the generated batch; a non-zero id always comes with a nil error |
| PoolProperties.AttemptDropsStoredZero | pool.go:44-49 | a stored 0 is removed by getUid and never handed out: it is lost on top of the conservation bound |
| PoolProperties.GetUidWithoutRetries | pool.go:26-33 | with RetryTimes <= 0, GetUid fails with "get uid failed" and leaves the store untouched |
| PoolProperties.GetUidRetriesStoreFailure | pool.go:27-31 | a failed pop in one attempt is not reported: GetUid continues with the next attempt from the same store |
| PoolProperties.GetUidRetryBound | pool.go:26 | GetUid runs at most RetryTimes attempts: two worlds that agree on attempts 0 to RetryTimes-1 give the same result |
| PoolProperties.GetUidExhausts | pool.go:26-33 | when the pop of every remaining attempt fails, GetUid ends with "get uid failed" on an unchanged store |
| PoolProperties.GetUidReachesLastAttempt | pool.go:26-33 | the attempt numbered RetryTimes - 1 is really made: when all earlier pops fail and that one works on a non-zero tail id, GetUid returns that id and removes exactly it |
| PoolProperties.GetUidServesTail | pool.go:26-29 | when the first pop works on a non-zero tail id, GetUid returns it and removes exactly it |
| PoolProperties.GetUidConserves | pool.go:25-34 | the id GetUid returns and the ids left all come from the list before the call or from batches generated during its attempts, so no id is invented or served twice |
| Pool.UidPool.constructor | pool.go:13-22 | a pool over the given configuration and the given contents of the two keys |
| Pool.UidPool.RPop | pool.go:38 | the list, lock and return values are those of PopStep |
| Pool.UidPool.Lock | pool.go:80-86 | acquired exactly when SETNX works and the key was absent; the lock is held afterwards if it was held before or was acquired; the list is unchanged |
| Pool.UidPool.Unlock | pool.go:88-91 | a working DEL clears the lock and returns nil; the list is never touched |
| Pool.UidPool.ExpireLock | pool.go:81 | the lock key's expiry frees the lock and leaves the list alone |
| Pool.UidPool.Flush | pool.go:94-97 | a working DEL empties the list and returns nil; the lock is never touched |
| Pool.UidPool.FillUidPool | pool.go:108-116 | the per-id push loop leaves reverse(batch) + old list, leaves the lock alone and returns nil |
| Pool.UidPool.Maintain | pool.go:57-77 | the new list, lock and error are those of MaintainStep, whose properties are the Maintain* lemmas |
| Pool.UidPool.GetUidOnce | pool.go:36-54 | the new list, lock and return values are those of AttemptStep, whose properties are the Attempt* lemmas |
| Pool.UidPool.GetUid | pool.go:25-34 | the retry loop gives the result of GetUidFrom from attempt 0: a non-zero id with nil, or 0 with "get uid failed" |

## Left out

- The go-redis client, `context.Background()` and the network (pool.go:38, 59, 81, 89, 95, 109-115). The store is two in-memory keys, and each call's failure is a boolean chosen by the caller of the model.
- A SETNX that reports an error after setting the key, and a pipeline whose Exec fails partway (pool.go:81, 115). In the model a failed SETNX sets nothing and the pipeline always applies the whole batch, because these semantics belong to the client library.
- `.Int()` failing on a value that is not a number (pool.go:38, 53). The model's list holds only integers.
- `time.Sleep` between attempts, `RetryTimeSleep`, `CronTimeDuration` and the 60-second TTL (pool.go:31, 81, 103). Wall-clock time is not modelled. Expiry is the explicit step `ExpireLock`.
- `BgMaintain` (pool.go:100-105). It is a non-terminating timer loop that only calls maintain and drops its error.
- Concurrent clients. The model checks the sequential behaviour of the lock flag only. It does not check mutual exclusion between processes, overlapping refills after an expiry, or the race in which one client deletes a lock another client holds.
- The package-level `Conf` (pool.go:11), `CacheKey`, `LockKey` and `Rdb`. They are replaced by one object per pool. The lock's stored value `1` is not modelled.
- The generator callback is not a function in the model. It is the `batch` of each call's environment, so the model places no uniqueness assumption on the ids.
