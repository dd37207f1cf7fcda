/** The in-memory named lock (mutex/default/mutex.go): a map from the
    prefixed key to the Unix second at which the lock lapses. */
module MemoryMutex {
  import opened Common

  /** Three seconds, as a Go time.Duration. */
  const DefaultExpiry: int := 3 * Second

  /** The lock lifetime: the configured expiry when it parses, otherwise three seconds. */
  function ResolveExpiry(configured: string, parsed: Parsed): (d: int)
    ensures configured != "" && !parsed.failed ==> d == parsed.duration
    ensures configured == "" || parsed.failed ==> d == 3 * Second
  {
    ConfiguredDuration(configured, parsed, DefaultExpiry)
  }

  /** An unexpired lock is held under `rk` at second `now`. */
  predicate Held(locks: map<string, int>, rk: string, now: int) {
    rk in locks && locks[rk] > now
  }

  /** One `Lock` attempt as a transition on the lock table: it fails and
      changes nothing while the lock is held, and otherwise takes the lock
      until `now` plus the lifetime `d`. */
  function LockStep(locks: map<string, int>, rk: string, d: int, now: int): (r: (Outcome, map<string, int>))
    ensures Held(locks, rk, now) <==> r.0 == Fail(LockExists)
    ensures Held(locks, rk, now) ==> r.1 == locks
    ensures !Held(locks, rk, now) ==> r.0 == Pass && rk in r.1 && r.1[rk] == ExpiryAt(now, d)
    ensures forall k :: k != rk ==> (k in r.1 <==> k in locks) && (k in locks ==> r.1[k] == locks[k])
  {
    if Held(locks, rk, now) then (Fail(LockExists), locks) else (Pass, locks[rk := ExpiryAt(now, d)])
  }

  /** After a successful lock with a lifetime of at least a second, a
      second attempt in the same second fails and leaves the lock alone. */
  lemma RelockSameSecondFails(locks: map<string, int>, rk: string, d: int, d2: int, now: int)
    requires !Held(locks, rk, now) && d >= Second
    ensures var after := LockStep(locks, rk, d, now).1;
      LockStep(after, rk, d2, now) == (Fail(LockExists), after)
  {
  }

  /** A lifetime below a second does not exclude anyone, even in the same second. */
  lemma ShortLockExcludesNobody(locks: map<string, int>, rk: string, d: int, d2: int, now: int)
    requires !Held(locks, rk, now) && d < Second
    ensures LockStep(LockStep(locks, rk, d, now).1, rk, d2, now).0 == Pass
  {
    assert ExpiryAt(now, d) <= now;
  }

  /** Unlocking makes the next attempt succeed, whatever the lock's state was. */
  lemma UnlockThenLock(locks: map<string, int>, rk: string, d: int, now: int)
    ensures LockStep(locks - {rk}, rk, d, now).0 == Pass
  {
  }

  /** Taking, failing to take or releasing one key never changes whether
      another key is held. */
  lemma KeysIndependent(locks: map<string, int>, rk: string, other: string, d: int, now: int)
    requires rk != other
    ensures Held(LockStep(locks, rk, d, now).1, other, now) == Held(locks, other, now)
    ensures Held(locks - {rk}, other, now) == Held(locks, other, now)
  {
  }

  class DefaultMutexConnect {
    const name: string
    const prefix: string
    /** The default lock lifetime (a time.Duration). */
    const expiry: int
    var locks: map<string, int>

    constructor Connect(name: string, prefix: string, configured: string, parsed: Parsed)
      ensures this.name == name && this.prefix == prefix
      ensures expiry == ResolveExpiry(configured, parsed) && locks == map[]
    {
      this.name, this.prefix := name, prefix;
      expiry := ResolveExpiry(configured, parsed);
      locks := map[];
    }

    /** Fails with `LockExists` while an unexpired lock is held; otherwise
        takes the lock for the explicit or the default lifetime. */
    method Lock(key: string, expires: seq<int>, now: int) returns (err: Outcome)
      modifies this`locks
      ensures (err, locks) == LockStep(old(locks), prefix + key, if |expires| > 0 then expires[0] else expiry, now)
    {
      var rk := prefix + key;
      if rk in locks {
        if locks[rk] > now {
          return Fail(LockExists);
        }
      }
      var value := ExpiryAt(now, expiry);
      if |expires| > 0 {
        value := ExpiryAt(now, expires[0]);
      }
      locks := locks[rk := value];
      err := Pass;
    }

    /** Releases the lock; releasing one not held changes nothing. */
    method Unlock(key: string) returns (err: Outcome)
      modifies this`locks
      ensures err == Pass && locks == old(locks) - {prefix + key}
    {
      locks := locks - {prefix + key};
      err := Pass;
    }
  }

  /** Lock, contend, unlock, lock again. */
  method MutexScenario(now: int)
  {
    var m := new DefaultMutexConnect.Connect("default", "lock:", "", Parsed(0, true));
    var a := m.Lock("order", [], now);
    assert a == Pass;
    var b := m.Lock("order", [], now);
    assert b == Fail(LockExists);
    assert "lock:" + "other" != "lock:" + "order" by {
      assert ("lock:" + "other")[6] != ("lock:" + "order")[6];
    }
    var c := m.Lock("other", [], now);
    assert c == Pass;
    var _ := m.Unlock("order");
    var d := m.Lock("order", [], now);
    assert d == Pass;
  }
}
