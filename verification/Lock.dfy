/** internal/repository/redis/lock.go: an owner-tagged lock with a time to live. */
module Lock {
  import opened Domain

  /** How long the dispatcher asks for. */
  const LOCK_TTL := 300 * SECOND

  /** The value stored under a lock key and when Redis drops it. */
  datatype Lease = Lease(token: nat, expires: int)

  type Locks = map<string, Lease>

  predicate Held(locks: Locks, key: string, now: int) {
    key in locks && now < locks[key].expires
  }

  /** SET NX with a TTL. */
  function AfterAcquire(locks: Locks, key: string, token: nat, now: int, ttl: int): Locks {
    if Held(locks, key, now) then locks else locks[key := Lease(token, now + ttl)]
  }

  /** The comparison made by Release, after its GET. */
  predicate Owns(locks: Locks, key: string, token: nat, now: int) {
    Held(locks, key, now) && locks[key].token == token
  }

  class LockRepo {
    var locks: Locks

    constructor ()
      ensures locks == map[]
    {
      locks := map[];
    }

    method Acquire(key: string, token: nat, now: int, ttl: int, fails: bool) returns (ok: bool)
      modifies this
      ensures ok <==> !fails && !(key in old(locks) && now < old(locks)[key].expires)
      ensures locks == if ok then old(locks)[key := Lease(token, now + ttl)] else old(locks)
      ensures locks == if fails then old(locks) else AfterAcquire(old(locks), key, token, now, ttl)
      ensures ok && ttl > 0 ==> Owns(locks, key, token, now)
    {
      if fails {
        return false;
      }
      if key in locks && now < locks[key].expires {
        return false;
      }
      locks := locks[key := Lease(token, now + ttl)];
      return true;
    }

    /** GET and DEL with nothing in between; Redis may drop the DEL without the caller noticing. */
    method Release(key: string, token: nat, now: int, getFails: bool, delLost: bool) returns (ok: bool)
      modifies this
      ensures ok <==> !getFails && key in old(locks) && now < old(locks)[key].expires && old(locks)[key].token == token
      ensures locks == if ok && !delLost then old(locks) - {key} else old(locks)
    {
      if getFails || key !in locks || now >= locks[key].expires {
        return false;
      }
      if locks[key].token == token {
        if !delLost {
          locks := locks - {key};
        }
        return true;
      }
      return false;
    }
  }
}
