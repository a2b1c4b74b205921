/**
 * Value-level model of the identifier pool of pool.go.
 *
 * The pool lives in two Redis keys: a list under CacheKey (ids are pushed at
 * the head with LPUSH and taken from the tail with RPOP) and a lock flag under
 * LockKey. `Store` holds both. Whatever the outside world decides during a
 * call (which Redis call reports an error, which ids the GetUidList callback
 * hands back) is an explicit environment record, so that every operation is a
 * total function from the old store to the new store and the Go return values.
 */
module PoolModel {

  datatype Option<T> = None | Some(value: T)

  /** The error values the Go functions can return. */
  datatype Error =
    | RedisNil       // redis.Nil: RPOP on an empty or missing list
    | StoreFailure   // any other error reported by the Redis client
    | LockFailed     // "lock failed", returned by maintain
    | GetUidFailed   // "get uid failed", returned by GetUid

  /** The list under CacheKey (a missing key reads as the empty list) and whether LockKey is set. */
  datatype Store = Store(pool: seq<int>, locked: bool)

  /** The fields of Config that the logic reads; the others are timing, key names and handles. */
  datatype Config = Config(retryTimes: int, threshold: int)

  /**
   * The outside world during one call of maintain: whether LLEN, SETNX and the
   * deferred DEL of the lock key report an error, and the ids GetUidList returns.
   */
  datatype MaintainEnv = MaintainEnv(lenFails: bool, setNXFails: bool, batch: seq<int>, delFails: bool)

  /**
   * The outside world during one call of getUid: whether the first RPOP fails,
   * what happens inside maintain, and whether the RPOP after the refill fails.
   */
  datatype AttemptEnv = AttemptEnv(popFails: bool, maintain: MaintainEnv, refillPopFails: bool)

  /** An operation returning Go's (int, error) pair, with the store it leaves behind. */
  datatype Reply = Reply(store: Store, uid: int, err: Option<Error>)

  /** An operation returning a Go error alone, with the store it leaves behind. */
  datatype Status = Status(store: Store, err: Option<Error>)

  /** The result of SETNX on the lock key: the new store and whether the key was set. */
  datatype Acquired = Acquired(store: Store, acquired: bool)

  /** The ids an operation handed out, as a multiset: empty when it returned 0. */
  function Served(uid: int): multiset<int>
  {
    if uid != 0 then multiset{uid} else multiset{}
  }

  /**
   * `s` back to front: the list that pushing the ids of `s` one at a time at
   * the head of an empty list produces (the last one pushed ends up first).
   */
  function Reversed(s: seq<int>): (r: seq<int>)
    ensures |r| == |s|
  {
    if s == [] then [] else [s[|s| - 1]] + Reversed(s[..|s| - 1])
  }

  /** Reversing keeps every id, as often as it occurred. */
  lemma {:induction false} ReversedKeepsIds(s: seq<int>)
    ensures multiset(Reversed(s)) == multiset(s)
  {
    if s != [] {
      assert s == s[..|s| - 1] + [s[|s| - 1]];
      ReversedKeepsIds(s[..|s| - 1]);
    }
  }

  /**
   * The list after fillUidPool(batch) on `pool`: every LPUSH puts its id at
   * the head, so the batch ends up reversed in front of the old contents.
   */
  function Refill(pool: seq<int>, batch: seq<int>): (r: seq<int>)
    ensures |r| == |pool| + |batch|
    ensures r[|batch|..] == pool
    ensures multiset(r) == multiset(pool) + multiset(batch)
  {
    ReversedKeepsIds(batch);
    Reversed(batch) + pool
  }

  /** maintain's early exit: the list is long enough only when strictly longer than Threshold. */
  predicate AboveThreshold(len: int, threshold: int)
  {
    len > threshold
  }

  /**
   * RPOP CacheKey followed by .Int(): the tail element is removed and returned;
   * an empty list gives (0, redis.Nil); a failed call changes nothing.
   */
  function PopStep(st: Store, fails: bool): (r: Reply)
    ensures r.store.locked == st.locked
    ensures r.err == None <==> !fails && st.pool != []
    ensures r.err == None ==> r.store.pool + [r.uid] == st.pool
    ensures r.err != None ==> r.store == st && r.uid == 0
    ensures fails ==> r.err == Some(StoreFailure)
    ensures !fails && st.pool == [] ==> r.err == Some(RedisNil)
  {
    if fails then Reply(st, 0, Some(StoreFailure))
    else if st.pool == [] then Reply(st, 0, Some(RedisNil))
    else Reply(st.(pool := st.pool[..|st.pool| - 1]), st.pool[|st.pool| - 1], None)
  }

  /** lock(): SETNX LockKey; an error from SETNX reads as "not acquired". */
  function LockStep(st: Store, fails: bool): (r: Acquired)
    ensures r.acquired <==> !fails && !st.locked
    ensures r.store.locked == (st.locked || r.acquired)
    ensures r.store.pool == st.pool
  {
    if fails || st.locked then Acquired(st, false)
    else Acquired(st.(locked := true), true)
  }

  /** Unlock(): DEL LockKey, whoever set it. */
  function UnlockStep(st: Store, fails: bool): (r: Status)
    ensures r.err == None <==> !fails
    ensures r.store.locked == (fails && st.locked)
    ensures r.store.pool == st.pool
  {
    if fails then Status(st, Some(StoreFailure))
    else Status(st.(locked := false), None)
  }

  /** Flush(): DEL CacheKey. */
  function FlushStep(st: Store, fails: bool): (r: Status)
    ensures r.err == None <==> !fails
    ensures r.store.pool == (if fails then st.pool else [])
    ensures r.store.locked == st.locked
  {
    if fails then Status(st, Some(StoreFailure))
    else Status(st.(pool := []), None)
  }

  /** fillUidPool(batch): the pipelined pushes, whose outcome the function never inspects. */
  function FillStep(st: Store, batch: seq<int>): (r: Status)
    ensures r.err == None && r.store.locked == st.locked
    ensures |r.store.pool| == |st.pool| + |batch| && r.store.pool[|batch|..] == st.pool
    ensures multiset(r.store.pool) == multiset(st.pool) + multiset(batch)
  {
    Status(st.(pool := Refill(st.pool, batch)), None)
  }

  /**
   * maintain(): read the length; stop if it is above Threshold; otherwise take
   * the lock, push the generated batch, release the lock (deferred, its error
   * dropped) and return what fillUidPool returned.
   */
  function MaintainStep(st: Store, threshold: int, env: MaintainEnv): (r: Status)
    ensures r.err == None || r.err == Some(StoreFailure) || r.err == Some(LockFailed)
    ensures r.err == Some(StoreFailure) <==> env.lenFails
    ensures r.err == Some(LockFailed) <==>
              !env.lenFails && !AboveThreshold(|st.pool|, threshold) && (env.setNXFails || st.locked)
    ensures r.err != None ==> r.store == st
  {
    if env.lenFails then Status(st, Some(StoreFailure))
    else if AboveThreshold(|st.pool|, threshold) then Status(st, None)
    else
      var taken := LockStep(st, env.setNXFails);
      if !taken.acquired then Status(taken.store, Some(LockFailed))
      else
        var filled := FillStep(taken.store, env.batch);
        var released := UnlockStep(filled.store, env.delFails);
        Status(released.store, filled.err)
  }

  /**
   * getUid(): pop; a store error is returned; a non-zero id is returned; a zero
   * (empty list, or a stored 0) runs maintain and, if that succeeds, returns
   * whatever a second pop gives.
   */
  function AttemptStep(st: Store, threshold: int, env: AttemptEnv): (r: Reply)
    ensures r.uid != 0 ==> r.err == None
    ensures r.err != None ==> r.uid == 0
    ensures r.err != Some(GetUidFailed)
    ensures st.locked ==> r.store.locked
    ensures !st.locked && !env.maintain.delFails ==> !r.store.locked
  {
    var first := PopStep(st, env.popFails);
    if first.err.Some? && first.err.value != RedisNil then Reply(first.store, 0, first.err)
    else if first.uid != 0 then Reply(first.store, first.uid, None)
    else
      var maintained := MaintainStep(first.store, threshold, env.maintain);
      if maintained.err.Some? then Reply(maintained.store, 0, maintained.err)
      else PopStep(maintained.store, env.refillPopFails)
  }

  /**
   * GetUid() from attempt `i` on: attempt `i` runs getUid in environment
   * envs(i), drops its error and keeps a non-zero id; after RetryTimes attempts
   * the result is "get uid failed". Store errors and "lock failed" never reach
   * the caller: the only outcomes are a non-zero id with nil, or 0 with "get uid failed".
   */
  function GetUidFrom(st: Store, conf: Config, envs: nat -> AttemptEnv, i: nat): (r: Reply)
    ensures (r.uid != 0 && r.err == None) || (r.uid == 0 && r.err == Some(GetUidFailed))
    decreases conf.retryTimes - i
  {
    if i >= conf.retryTimes then Reply(st, 0, Some(GetUidFailed))
    else
      var attempt := AttemptStep(st, conf.threshold, envs(i));
      if attempt.uid != 0 then Reply(attempt.store, attempt.uid, None)
      else GetUidFrom(attempt.store, conf, envs, i + 1)
  }

  /** Every id the generator may hand over in attempts `i` up to (not including) `n`. */
  function Supplied(envs: nat -> AttemptEnv, i: nat, n: int): multiset<int>
    decreases n - i
  {
    if i >= n then multiset{} else multiset(envs(i).maintain.batch) + Supplied(envs, i + 1, n)
  }
}
