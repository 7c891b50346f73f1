/** The in-memory failure limiter: a dictionary of queues and a dictionary of
    locks, changed in place. Its lock makes every call atomic, so calls are
    modelled one after the other; `clock` is the latest time a call has read. */
module FailureLimiters {
  import opened Wrappers
  import opened Clock
  import opened LimiterModel

  lemma {:induction false} WithoutTwice(order: seq<string>, a: set<string>, b: set<string>)
    ensures Without(Without(order, a), b) == Without(order, a + b)
    decreases |order|
  {
    if order != [] {
      WithoutTwice(order[1..], a, b);
      if order[0] !in a {
        var rest := Without(order[1..], a);
        assert Without(order, a)[0] == order[0] && Without(order, a)[1..] == rest;
      }
    }
  }

  lemma DropTwice(l: Limiter, a: set<string>, b: set<string>)
    ensures Drop(Drop(l, a), b) == Drop(l, a + b)
  {
    WithoutTwice(l.order, a, b);
  }

  lemma OrderIsComplete(c: Config, l: Limiter, clock: Time)
    requires Sound(c, l, clock)
    ensures l.order == [] ==> |l.failures| == 0
  {
    assert forall k :: k in l.failures ==> k in l.order;
  }

  class FailureLimiter {
    const config: Config
    var failures: map<string, seq<Time>>
    var order: seq<string>
    var lockedUntil: map<string, Time>
    ghost var clock: Time

    function Tables(): Limiter
      reads this
    {
      Limiter(failures, order, lockedUntil)
    }

    /** Without room for a single key the tables stay empty. */
    ghost predicate Valid()
      reads this
    {
      && Checked(config) && clock >= 0
      && if config.maxKeys >= 1 then Sound(config, Tables(), clock) else Tables() == NOTHING
    }

    constructor (c: Config)
      requires Checked(c)
      ensures Valid() && config == c && Tables() == NOTHING && clock == 0
    {
      config := c;
      failures, order, lockedUntil := map[], [], map[];
      clock := 0;
    }

    /** The checked constructor: a threshold, window or lockout below one is
        refused; any capacity is taken. */
    static method Create(c: Config) returns (r: Option<FailureLimiter>)
      ensures r.Some? <==> Checked(c)
      ensures r.Some? ==> fresh(r.value) && r.value.Valid() && r.value.config == c && r.value.Tables() == NOTHING
    {
      if c.maxFailures < 1 || c.window < SECOND || c.lockout < SECOND { return None; }
      var limiter := new FailureLimiter(c);
      return Some(limiter);
    }

    /** A limiter without room for a key never holds anyone back. */
    lemma NoRoomNoLimit(key: string, now: Time)
      requires Valid() && config.maxKeys < 1
      ensures Wait(Tables(), key, now) == 0
    {
    }

    /** Pop `key` from both dictionaries. */
    method Forget(key: string)
      modifies this`failures, this`order, this`lockedUntil
      ensures Tables() == Drop(old(Tables()), {key})
    {
      failures := map k | k in failures && k !in {key} :: failures[k];
      order := Without(order, {key});
      lockedUntil := map k | k in lockedUntil && k !in {key} :: lockedUntil[k];
    }

    /** Seconds until `key` may try again; 0 when it is not locked out. */
    method RetryAfter(key: string, now: Time) returns (wait: int)
      requires Valid() && clock <= now
      modifies this
      ensures Valid() && clock == now
      ensures wait == Wait(old(Tables()), key, now) && Tables() == Probed(old(Tables()), key, now)
      ensures Covers(wait, LockLeft(old(Tables()), key, now))
    {
      if config.maxKeys >= 1 {
        ProbeSound(config, Tables(), key, clock, now);
        LaterSound(config, Tables(), clock, now);
      }
      clock := now;
      WaitCovers(Tables(), key, now);
      if key !in lockedUntil {
        return 0;
      }
      var remaining := lockedUntil[key] - now;
      if remaining <= 0 {
        Forget(key);
        return 0;
      }
      return CeilSeconds(remaining);
    }

    /** Count one failure of `key`, locking it out at the threshold. It raises, and
        counts nothing, exactly when there is no room for a single key: the eviction
        then asks an empty dictionary for its oldest key. */
    method RecordFailure(key: string, now: Time) returns (raised: bool)
      requires Valid() && clock <= now
      modifies this
      ensures Valid() && clock == now
      ensures raised <==> config.maxKeys < 1
      ensures Tables() == if raised then old(Tables()) else Recorded(config, old(Tables()), key, now)
    {
      ghost var before := Tables();
      if config.maxKeys >= 1 {
        RecordSound(config, before, key, clock, now);
        LaterSound(config, before, clock, now);
      }
      clock := now;
      if |failures| >= config.maxKeys && key !in failures {
        raised := Prune(now);
        if raised {
          return;
        }
      }
      Append(key, now);
      raised := false;
    }

    /** Add a hit to the queue of `key`, drop the ones outside the window, and
        lock the key at the threshold. */
    method Append(key: string, now: Time)
      modifies this`failures, this`order, this`lockedUntil
      ensures Tables() == Hit(config, old(Tables()), key, now)
    {
      if key !in failures {
        failures, order := failures[key := []], order + [key];
      }
      failures := failures[key := failures[key] + [now]];
      ghost var hits := failures[key];
      var cutoff := now - config.window;
      while failures[key] != [] && failures[key][0] <= cutoff
        invariant key in failures && failures == old(failures)[key := failures[key]]
        invariant Recent(failures[key], cutoff) == Recent(hits, cutoff)
        invariant order == (if key in old(failures) then old(order) else old(order) + [key])
        invariant lockedUntil == old(lockedUntil)
        decreases |failures[key]|
      {
        failures := failures[key := failures[key][1..]];
      }
      assert failures[key] == Recent(hits, cutoff);
      if |failures[key]| >= config.maxFailures {
        lockedUntil := lockedUntil[key := now + config.lockout];
      }
    }

    /** Forget `key` entirely. */
    method Clear(key: string)
      requires Valid()
      modifies this
      ensures Valid() && clock == old(clock)
      ensures Tables() == Drop(old(Tables()), {key})
    {
      if config.maxKeys >= 1 {
        DropSound(config, Tables(), {key}, clock);
      }
      Forget(key);
    }

    method Reset()
      requires Valid()
      modifies this
      ensures Valid() && clock == old(clock) && Tables() == NOTHING
    {
      failures, order, lockedUntil := map[], [], map[];
    }

    method TrackedKeys() returns (n: nat)
      requires Valid()
      ensures n == |Tables().failures| && (config.maxKeys >= 1 ==> n <= config.maxKeys)
    {
      n := |failures|;
    }

    /** Drop expired entries; if still at capacity, evict the oldest keys. It raises
        when there is no oldest key to evict. */
    method Prune(now: Time) returns (raised: bool)
      requires Checked(config) && |failures| >= config.maxKeys
      requires if config.maxKeys >= 1 then Sound(config, Tables(), now) else Tables() == NOTHING
      modifies this`failures, this`order, this`lockedUntil
      ensures raised <==> config.maxKeys < 1
      ensures raised ==> Tables() == NOTHING
      ensures !raised ==> Tables() == Pruned(config, old(Tables()), now)
      ensures !raised ==> Sound(config, Tables(), now) && |failures| < config.maxKeys
    {
      ghost var before := Tables();
      if config.maxKeys >= 1 {
        PruneMakesRoom(config, before, now);
        DropSound(config, before, Stale(config, before, now), now);
      }
      Sweep(now);
      ghost var swept := Tables();
      DropNothing(swept);
      while |failures| >= config.maxKeys
        invariant config.maxKeys < 1 ==> Tables() == NOTHING
        invariant config.maxKeys >= 1 ==> Sound(config, Tables(), now)
        invariant Tables() == swept || (|failures| < config.maxKeys && Tables() == Pruned(config, before, now))
        decreases |failures|
      {
        assert Tables() == swept;
        if config.maxKeys >= 1 {
          OrderIsComplete(config, Tables(), now);
        }
        if order == [] {
          return true;
        }
        var oldest := order[0];
        DropSound(config, Tables(), {oldest}, now);
        assert oldest in failures;
        Forget(oldest);
      }
      return false;
    }

    /** The keys, in order, whose last hit has left the window. */
    method Expired(cutoff: Time) returns (expired: seq<string>)
      requires NoDuplicates(order) && forall k :: k in order <==> k in failures
      ensures NoDuplicates(expired)
      ensures forall k :: k in expired <==> k in failures && (failures[k] == [] || Last(failures[k]) <= cutoff)
    {
      expired := [];
      for i := 0 to |order|
        invariant forall k :: k in expired <==>
                    k in order[..i] && (failures[k] == [] || Last(failures[k]) <= cutoff)
        invariant NoDuplicates(expired)
      {
        var k := order[i];
        assert order[..i + 1] == order[..i] + [k];
        assert k !in order[..i];
        if failures[k] == [] || failures[k][|failures[k]| - 1] <= cutoff {
          expired := expired + [k];
        }
      }
      assert order[..|order|] == order;
    }

    method SweepKey(k: string, now: Time)
      modifies this`failures, this`order, this`lockedUntil
      ensures Tables() == if Unlocked(old(Tables()), k, now) then Drop(old(Tables()), {k}) else old(Tables())
    {
      if (if k in lockedUntil then lockedUntil[k] else 0) <= now {
        Forget(k);
      }
    }

    /** The first loop of the pruning: forget the expired keys without a lock in force. */
    method Sweep(now: Time)
      requires NoDuplicates(order) && forall k :: k in order <==> k in failures
      modifies this`failures, this`order, this`lockedUntil
      ensures Tables() == Swept(config, old(Tables()), now)
    {
      ghost var before := Tables();
      var expired := Expired(now - config.window);
      ghost var gone: set<string> := {};
      DropNothing(before);
      for i := 0 to |expired|
        invariant forall k :: k in gone <==> k in expired[..i] && Unlocked(before, k, now)
        invariant Tables() == Drop(before, gone)
      {
        var k := expired[i];
        assert expired[..i + 1] == expired[..i] + [k];
        assert k !in gone;
        SweepKey(k, now);
        if Unlocked(before, k, now) {
          DropTwice(before, gone, {k});
          gone := gone + {k};
        }
      }
      assert expired[..|expired|] == expired;
      assert gone == Stale(config, before, now);
    }
  }
}
