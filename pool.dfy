/**
 * The identifier pool of pool.go as an object: the Redis list under CacheKey
 * and the lock key are fields that the operations update in place, and the
 * read-only Config fields are constants. Every method is proved to leave the
 * store, and to return, exactly what the matching function of PoolModel says;
 * PoolProperties states what those functions guarantee.
 */
module Pool {
  import opened PoolModel
  import PoolProperties

  class UidPool {
    const conf: Config
    var pool: seq<int>
    var locked: bool

    /** The two Redis keys as a value. */
    function Snapshot(): Store
      reads this
    {
      Store(pool, locked)
    }

    /** A pool over a Redis list and lock key in the given state. */
    constructor (conf: Config, pool: seq<int>, locked: bool)
      ensures this.conf == conf && Snapshot() == Store(pool, locked)
    {
      this.conf := conf;
      this.pool := pool;
      this.locked := locked;
    }

    /** Rdb.RPop(CacheKey).Int(). */
    method RPop(fails: bool) returns (uid: int, err: Option<Error>)
      modifies this
      ensures Reply(Snapshot(), uid, err) == PopStep(old(Snapshot()), fails)
    {
      if fails {
        return 0, Some(StoreFailure);
      }
      if pool == [] {
        return 0, Some(RedisNil);
      }
      uid := pool[|pool| - 1];
      pool := pool[..|pool| - 1];
      err := None;
    }

    /** lock(): SETNX on the lock key; a failed SETNX counts as not acquired. */
    method Lock(fails: bool) returns (acquired: bool)
      modifies this
      ensures Acquired(Snapshot(), acquired) == LockStep(old(Snapshot()), fails)
      ensures acquired <==> !fails && !old(locked)
      ensures locked == (old(locked) || acquired) && pool == old(pool)
    {
      if fails || locked {
        return false;
      }
      locked := true;
      return true;
    }

    /** Unlock(): DEL on the lock key, whoever holds it. */
    method Unlock(fails: bool) returns (err: Option<Error>)
      modifies this
      ensures Status(Snapshot(), err) == UnlockStep(old(Snapshot()), fails)
      ensures !fails ==> !locked && err == None
      ensures pool == old(pool)
    {
      if fails {
        return Some(StoreFailure);
      }
      locked := false;
      return None;
    }

    /** The lock key's 60-second expiry, as an explicit step: the key disappears. */
    method ExpireLock()
      modifies this
      ensures !locked && pool == old(pool)
    {
      locked := false;
    }

    /** Flush(): DEL on the cache key. */
    method Flush(fails: bool) returns (err: Option<Error>)
      modifies this
      ensures Status(Snapshot(), err) == FlushStep(old(Snapshot()), fails)
      ensures !fails ==> pool == [] && err == None
      ensures locked == old(locked)
    {
      if fails {
        return Some(StoreFailure);
      }
      pool := [];
      return None;
    }

    /** fillUidPool(uidList): one LPUSH per id, in the order of the batch. */
    method FillUidPool(uidList: seq<int>) returns (err: Option<Error>)
      modifies this
      ensures Status(Snapshot(), err) == FillStep(old(Snapshot()), uidList)
      ensures pool == Reversed(uidList) + old(pool) && locked == old(locked) && err == None
    {
      for i := 0 to |uidList|
        invariant pool == Reversed(uidList[..i]) + old(pool)
        invariant locked == old(locked)
      {
        PoolProperties.PushFrontStep(uidList, i, old(pool));
        pool := [uidList[i]] + pool;
      }
      assert uidList[..|uidList|] == uidList;
      return None;
    }

    /**
     * maintain(): a no-op strictly above Threshold; otherwise lock, push the
     * batch the generator returned, and unlock (deferred, its error dropped).
     */
    method Maintain(env: MaintainEnv) returns (err: Option<Error>)
      modifies this
      ensures Status(Snapshot(), err) == MaintainStep(old(Snapshot()), conf.threshold, env)
    {
      if env.lenFails {
        return Some(StoreFailure);
      }
      var l := |pool|;
      if AboveThreshold(l, conf.threshold) {
        return None;
      }
      var acquired := Lock(env.setNXFails);
      if !acquired {
        return Some(LockFailed);
      }
      err := FillUidPool(env.batch);
      var _ := Unlock(env.delFails);
    }

    /** getUid(): pop; on a zero, run maintain and pop once more. */
    method GetUidOnce(env: AttemptEnv) returns (uid: int, err: Option<Error>)
      modifies this
      ensures Reply(Snapshot(), uid, err) == AttemptStep(old(Snapshot()), conf.threshold, env)
    {
      uid, err := RPop(env.popFails);
      if err.Some? && err.value != RedisNil {
        return 0, err;
      }
      if uid != 0 {
        return uid, None;
      }
      err := Maintain(env.maintain);
      if err.Some? {
        return 0, err;
      }
      uid, err := RPop(env.refillPopFails);
    }

    /**
     * GetUid(): up to RetryTimes calls of getUid, whose errors are dropped; the
     * first non-zero id wins. envs(i) is the outside world during attempt i.
     */
    method GetUid(envs: nat -> AttemptEnv) returns (uid: int, err: Option<Error>)
      modifies this
      ensures Reply(Snapshot(), uid, err) == GetUidFrom(old(Snapshot()), conf, envs, 0)
      ensures (uid != 0 && err == None) || (uid == 0 && err == Some(GetUidFailed))
    {
      var i: nat := 0;
      while i < conf.retryTimes
        invariant GetUidFrom(Snapshot(), conf, envs, i) == GetUidFrom(old(Snapshot()), conf, envs, 0)
        decreases conf.retryTimes - i
      {
        var id, _ := GetUidOnce(envs(i));
        if id != 0 {
          return id, None;
        }
        i := i + 1;
      }
      return 0, Some(GetUidFailed);
    }
  }
}
