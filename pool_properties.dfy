/**
 * What pool.go promises, stated over the value-level model: the threshold
 * boundary, the lock discipline around a refill, the order a refill leaves
 * behind, conservation of ids and the bound on GetUid's retries.
 */
module PoolProperties {
  import opened PoolModel

  // ----- refill order -----

  /** One more LPUSH: pushing `x` after the ids of `s` puts it in front of their reversal. */
  lemma ReversedSnoc(s: seq<int>, x: int)
    ensures Reversed(s + [x]) == [x] + Reversed(s)
  {
    assert (s + [x])[..|s|] == s;
  }

  /** The first id pushed ends up last, behind the reversal of the others. */
  lemma {:induction false} ReversedCons(s: seq<int>)
    requires s != []
    ensures Reversed(s) == Reversed(s[1..]) + [s[0]]
  {
    if |s| > 1 {
      var n := |s|;
      var mid := s[1..n - 1];
      assert Reversed(s) == [s[n - 1]] + (Reversed(mid) + [s[0]]) by {
        var init := s[..n - 1];
        assert init[1..] == mid && init[0] == s[0];
        ReversedCons(init);
      }
      assert Reversed(s[1..]) == [s[n - 1]] + Reversed(mid) by {
        var tail := s[1..];
        assert tail[..|tail| - 1] == mid && tail[|tail| - 1] == s[n - 1];
      }
      assert [s[n - 1]] + (Reversed(mid) + [s[0]]) == ([s[n - 1]] + Reversed(mid)) + [s[0]];
    }
  }

  /** Position `k` of the reversal holds the element `k` places from the end. */
  lemma {:induction false} ReversedAt(s: seq<int>, k: nat)
    requires k < |s|
    ensures Reversed(s)[k] == s[|s| - 1 - k]
  {
    if k > 0 {
      ReversedAt(s[..|s| - 1], k - 1);
    }
  }

  /** After fillUidPool the batch sits at the head in reverse order, followed by the old list. */
  lemma RefillOrder(pool: seq<int>, batch: seq<int>)
    ensures forall k :: 0 <= k < |batch| ==> Refill(pool, batch)[k] == batch[|batch| - 1 - k]
    ensures Refill(pool, batch)[|batch|..] == pool
  {
    forall k | 0 <= k < |batch|
      ensures Refill(pool, batch)[k] == batch[|batch| - 1 - k]
    {
      ReversedAt(batch, k);
    }
  }

  /** The loop of fillUidPool after `i` pushes, one push further: LPUSH of batch[i]. */
  lemma PushFrontStep(batch: seq<int>, i: nat, rest: seq<int>)
    requires i < |batch|
    ensures [batch[i]] + (Reversed(batch[..i]) + rest) == Reversed(batch[..i + 1]) + rest
  {
    assert batch[..i + 1][..i] == batch[..i];
  }

  /**
   * On an empty list, the first id the generator produced is the first one
   * RPOP serves, and the rest of the batch is left in the same order behind it.
   */
  lemma RefillServesFirstGeneratedFirst(batch: seq<int>)
    requires batch != []
    ensures PopStep(Store(Refill([], batch), false), false)
         == Reply(Store(Refill([], batch[1..]), false), batch[0], None)
  {
    ReversedCons(batch);
    assert Refill([], batch) == Refill([], batch[1..]) + [batch[0]];
  }

  // ----- lock, unlock, flush -----

  /** lock() succeeds exactly when SETNX works and the key is absent, and then the lock is held. */
  lemma LockSetsOnlyWhenFree(st: Store, fails: bool)
    ensures LockStep(st, fails).acquired <==> !fails && !st.locked
    ensures LockStep(st, fails).acquired ==> LockStep(st, fails).store == st.(locked := true)
    ensures !LockStep(st, fails).acquired ==> LockStep(st, fails).store == st
  {
  }

  /** Unlock() frees the lock whoever holds it, leaves the list alone and is idempotent. */
  lemma UnlockIdempotent(st: Store)
    ensures UnlockStep(st, false) == Status(Store(st.pool, false), None)
    ensures UnlockStep(UnlockStep(st, false).store, false) == UnlockStep(st, false)
  {
  }

  /** Flush() empties the list, leaves the lock alone and is idempotent. */
  lemma FlushIdempotent(st: Store)
    ensures FlushStep(st, false) == Status(Store([], st.locked), None)
    ensures FlushStep(FlushStep(st, false).store, false) == FlushStep(st, false)
  {
  }

  /** fillUidPool returns nil; the batch lands reversed in front; an empty batch changes nothing. */
  lemma FillPrependsReversedBatch(st: Store, batch: seq<int>)
    ensures FillStep(st, batch).err == None
    ensures FillStep(st, batch).store == Store(Reversed(batch) + st.pool, st.locked)
    ensures |FillStep(st, batch).store.pool| == |st.pool| + |batch|
    ensures batch == [] ==> FillStep(st, batch).store == st
  {
  }

  // ----- maintain -----

  /** Strictly above Threshold, maintain returns nil and touches neither the list nor the lock. */
  lemma MaintainAboveThreshold(st: Store, threshold: int, env: MaintainEnv)
    requires !env.lenFails && |st.pool| > threshold
    ensures MaintainStep(st, threshold, env) == Status(st, None)
  {
  }

  /**
   * At or below Threshold (equality included), with the lock free and no store
   * error, maintain pushes the whole batch and the lock is free again unless
   * its DEL failed.
   */
  lemma MaintainRefillsAtThreshold(st: Store, threshold: int, env: MaintainEnv)
    requires !env.lenFails && !env.setNXFails && !st.locked && |st.pool| <= threshold
    ensures MaintainStep(st, threshold, env)
         == Status(Store(Refill(st.pool, env.batch), env.delFails), None)
  {
  }

  /**
   * With the lock already held, maintain below Threshold answers "lock failed",
   * changes nothing and does not depend on what the generator would return.
   */
  lemma MaintainContended(st: Store, threshold: int, env: MaintainEnv, other: seq<int>)
    requires !env.lenFails && st.locked && |st.pool| <= threshold
    ensures MaintainStep(st, threshold, env) == Status(st, Some(LockFailed))
    ensures MaintainStep(st, threshold, env.(batch := other)) == MaintainStep(st, threshold, env)
  {
  }

  /**
   * maintain never leaves held a lock it found free, whatever fillUidPool
   * returns, unless the deferred DEL fails; and it either leaves the list as it
   * was or pushes exactly the batch, the latter only when it returns nil.
   */
  lemma MaintainReleasesLock(st: Store, threshold: int, env: MaintainEnv)
    ensures !st.locked && !env.delFails ==> !MaintainStep(st, threshold, env).store.locked
    ensures st.locked ==> MaintainStep(st, threshold, env).store.locked
    ensures var r := MaintainStep(st, threshold, env);
            r.store.pool == st.pool || (r.store.pool == Refill(st.pool, env.batch) && r.err == None)
  {
  }

  // ----- getUid -----

  /** A non-zero tail id is returned and removed; nothing else changes. */
  lemma AttemptPopsTail(st: Store, threshold: int, env: AttemptEnv)
    requires !env.popFails && st.pool != [] && st.pool[|st.pool| - 1] != 0
    ensures AttemptStep(st, threshold, env)
         == Reply(st.(pool := st.pool[..|st.pool| - 1]), st.pool[|st.pool| - 1], None)
  {
  }

  /** A failed first RPOP is returned as (0, err) with nothing changed. */
  lemma AttemptReturnsPopFailure(st: Store, threshold: int, env: AttemptEnv)
    requires env.popFails
    ensures AttemptStep(st, threshold, env) == Reply(st, 0, Some(StoreFailure))
  {
  }

  /** On an empty list, an error from maintain is returned as (0, err), and the list holds no new ids. */
  lemma AttemptReturnsMaintainError(st: Store, threshold: int, env: AttemptEnv)
    requires !env.popFails && st.pool == []
    requires MaintainStep(st, threshold, env.maintain).err.Some?
    ensures AttemptStep(st, threshold, env)
         == Reply(MaintainStep(st, threshold, env.maintain).store, 0, MaintainStep(st, threshold, env.maintain).err)
    ensures AttemptStep(st, threshold, env).store.pool == []
  {
  }

  /**
   * On an empty list with a non-negative Threshold, a free lock and no store
   * error, getUid refills and serves the first id of the batch.
   */
  lemma AttemptRefillsEmptyList(st: Store, threshold: int, env: AttemptEnv)
    requires st == Store([], false) && 0 <= threshold && env.maintain.batch != []
    requires !env.popFails && !env.refillPopFails
    requires !env.maintain.lenFails && !env.maintain.setNXFails && !env.maintain.delFails
    ensures AttemptStep(st, threshold, env)
         == Reply(Store(Refill([], env.maintain.batch[1..]), false), env.maintain.batch[0], None)
  {
    var m := MaintainStep(st, threshold, env.maintain);
    MaintainRefillsAtThreshold(st, threshold, env.maintain);
    assert m == Status(Store(Refill([], env.maintain.batch), false), None);
    RefillServesFirstGeneratedFirst(env.maintain.batch);
  }

  /**
   * With a negative Threshold even an empty list counts as above it, so getUid
   * on an empty list never refills and answers redis.Nil.
   */
  lemma AttemptNegativeThresholdNeverRefills(st: Store, threshold: int, env: AttemptEnv)
    requires st.pool == [] && threshold < 0
    requires !env.popFails && !env.maintain.lenFails && !env.refillPopFails
    ensures AttemptStep(st, threshold, env) == Reply(st, 0, Some(RedisNil))
  {
  }

  /** Conservation for one RPOP: a successful pop moves the tail id out of the list, a failed one moves nothing. */
  lemma PopConserves(st: Store, fails: bool)
    ensures var r := PopStep(st, fails);
            multiset(st.pool) == multiset(r.store.pool) + (if r.err == None then multiset{r.uid} else multiset{})
  {
    var r := PopStep(st, fails);
    if r.err == None {
      assert st.pool == r.store.pool + [r.uid];
    }
  }

  /** Conservation for maintain: the list afterwards holds the old ids and at most the generated batch. */
  lemma MaintainConserves(st: Store, threshold: int, env: MaintainEnv)
    ensures multiset(MaintainStep(st, threshold, env).store.pool) <= multiset(st.pool) + multiset(env.batch)
  {
    MaintainReleasesLock(st, threshold, env);
  }

  /**
   * Conservation for one getUid: the ids left in the list together with the id
   * served come from the list before the call and the generated batch. A
   * non-zero id always comes with a nil error.
   */
  lemma AttemptConserves(st: Store, threshold: int, env: AttemptEnv)
    ensures var r := AttemptStep(st, threshold, env);
            multiset(r.store.pool) + Served(r.uid) <= multiset(st.pool) + multiset(env.maintain.batch)
    ensures AttemptStep(st, threshold, env).uid != 0 ==> AttemptStep(st, threshold, env).err == None
  {
    var r := AttemptStep(st, threshold, env);
    var batch := multiset(env.maintain.batch);
    var first := PopStep(st, env.popFails);
    PopConserves(st, env.popFails);
    if first.err.Some? && first.err.value != RedisNil {
      assert r == Reply(st, 0, first.err);
    } else if first.uid != 0 {
      assert r == Reply(first.store, first.uid, None);
      assert multiset(r.store.pool) + Served(r.uid) == multiset(st.pool);
    } else {
      var m := MaintainStep(first.store, threshold, env.maintain);
      MaintainConserves(first.store, threshold, env.maintain);
      assert multiset(first.store.pool) <= multiset(st.pool);
      if m.err.Some? {
        assert r == Reply(m.store, 0, m.err);
      } else {
        assert r == PopStep(m.store, env.refillPopFails);
        PopConserves(m.store, env.refillPopFails);
        assert multiset(r.store.pool) + Served(r.uid) <= multiset(m.store.pool);
      }
    }
  }

  /**
   * A stored 0 cannot be told from an empty list: getUid removes it, never
   * hands it out, and runs maintain on what remains.
   */
  lemma AttemptDropsStoredZero(st: Store, threshold: int, env: AttemptEnv)
    requires !env.popFails && st.pool != [] && st.pool[|st.pool| - 1] == 0
    ensures var r := AttemptStep(st, threshold, env);
            multiset(r.store.pool) + Served(r.uid) + multiset{0}
              <= multiset(st.pool) + multiset(env.maintain.batch)
  {
    var r := AttemptStep(st, threshold, env);
    var first := PopStep(st, env.popFails);
    PopConserves(st, env.popFails);
    assert first.err == None && first.uid == 0;
    assert multiset(st.pool) == multiset(first.store.pool) + multiset{0};
    var m := MaintainStep(first.store, threshold, env.maintain);
    MaintainConserves(first.store, threshold, env.maintain);
    if m.err.Some? {
      assert r == Reply(m.store, 0, m.err);
    } else {
      assert r == PopStep(m.store, env.refillPopFails);
      PopConserves(m.store, env.refillPopFails);
      assert multiset(r.store.pool) + Served(r.uid) <= multiset(m.store.pool);
    }
  }

  // ----- GetUid -----

  /** With RetryTimes <= 0, GetUid fails at once without touching the store. */
  lemma GetUidWithoutRetries(st: Store, conf: Config, envs: nat -> AttemptEnv)
    requires conf.retryTimes <= 0
    ensures GetUidFrom(st, conf, envs, 0) == Reply(st, 0, Some(GetUidFailed))
  {
  }

  /** A failed pop in attempt `i` is not reported: GetUid goes on with attempt `i + 1`. */
  lemma GetUidRetriesStoreFailure(st: Store, conf: Config, envs: nat -> AttemptEnv, i: nat)
    requires i < conf.retryTimes && envs(i).popFails
    ensures GetUidFrom(st, conf, envs, i) == GetUidFrom(st, conf, envs, i + 1)
  {
  }

  /**
   * The retry bound: GetUid runs at most RetryTimes attempts, so the outside
   * world from attempt RetryTimes on has no influence on its result.
   */
  lemma {:induction false} GetUidRetryBound(st: Store, conf: Config, envs: nat -> AttemptEnv, envs': nat -> AttemptEnv, i: nat)
    requires forall j: nat :: i <= j < conf.retryTimes ==> envs(j) == envs'(j)
    ensures GetUidFrom(st, conf, envs, i) == GetUidFrom(st, conf, envs', i)
    decreases conf.retryTimes - i
  {
    if i < conf.retryTimes {
      var attempt := AttemptStep(st, conf.threshold, envs(i));
      if attempt.uid == 0 {
        GetUidRetryBound(attempt.store, conf, envs, envs', i + 1);
      }
    }
  }

  /**
   * When every remaining attempt's first pop fails, GetUid uses up all its
   * attempts and ends with "get uid failed" on an unchanged store.
   */
  lemma {:induction false} GetUidExhausts(st: Store, conf: Config, envs: nat -> AttemptEnv, i: nat)
    requires forall j: nat :: i <= j < conf.retryTimes ==> envs(j).popFails
    ensures GetUidFrom(st, conf, envs, i) == Reply(st, 0, Some(GetUidFailed))
    decreases conf.retryTimes - i
  {
    if i < conf.retryTimes {
      GetUidExhausts(st, conf, envs, i + 1);
    }
  }

  /**
   * The last attempt is really made: when the pops of attempts i to
   * RetryTimes - 2 all fail and the pop of attempt RetryTimes - 1 works on a
   * non-zero tail id, GetUid returns that id from that last attempt.
   */
  lemma {:induction false} GetUidReachesLastAttempt(st: Store, conf: Config, envs: nat -> AttemptEnv, i: nat)
    requires i < conf.retryTimes
    requires forall j: nat :: i <= j < conf.retryTimes - 1 ==> envs(j).popFails
    requires !envs(conf.retryTimes - 1).popFails
    requires st.pool != [] && st.pool[|st.pool| - 1] != 0
    ensures GetUidFrom(st, conf, envs, i)
         == Reply(st.(pool := st.pool[..|st.pool| - 1]), st.pool[|st.pool| - 1], None)
    decreases conf.retryTimes - i
  {
    if i < conf.retryTimes - 1 {
      GetUidReachesLastAttempt(st, conf, envs, i + 1);
    } else {
      AttemptPopsTail(st, conf.threshold, envs(i));
    }
  }

  /** A non-zero tail id is what GetUid returns when its first pop works. */
  lemma GetUidServesTail(st: Store, conf: Config, envs: nat -> AttemptEnv)
    requires 0 < conf.retryTimes && !envs(0).popFails
    requires st.pool != [] && st.pool[|st.pool| - 1] != 0
    ensures GetUidFrom(st, conf, envs, 0)
         == Reply(st.(pool := st.pool[..|st.pool| - 1]), st.pool[|st.pool| - 1], None)
  {
    AttemptPopsTail(st, conf.threshold, envs(0));
  }

  /**
   * Conservation for GetUid: the id it returns and the ids left in the list
   * all come from the list before the call or from batches generated during
   * its attempts; none is invented and none is served twice.
   */
  lemma {:induction false} GetUidConserves(st: Store, conf: Config, envs: nat -> AttemptEnv, i: nat)
    ensures var r := GetUidFrom(st, conf, envs, i);
            multiset(r.store.pool) + Served(r.uid) <= multiset(st.pool) + Supplied(envs, i, conf.retryTimes)
    decreases conf.retryTimes - i
  {
    var r := GetUidFrom(st, conf, envs, i);
    if i < conf.retryTimes {
      var attempt := AttemptStep(st, conf.threshold, envs(i));
      AttemptConserves(st, conf.threshold, envs(i));
      var supplied := Supplied(envs, i, conf.retryTimes);
      assert supplied == multiset(envs(i).maintain.batch) + Supplied(envs, i + 1, conf.retryTimes);
      if attempt.uid != 0 {
        assert r == Reply(attempt.store, attempt.uid, None);
      } else {
        assert r == GetUidFrom(attempt.store, conf, envs, i + 1);
        GetUidConserves(attempt.store, conf, envs, i + 1);
        assert multiset(attempt.store.pool) <= multiset(st.pool) + multiset(envs(i).maintain.batch);
      }
    }
  }
}
