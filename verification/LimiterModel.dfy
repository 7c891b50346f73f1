/** The failure limiter's tables as one value, and what each call makes of them.
    The class in FailureLimiter.dfy reaches the same results with its loops. */
module LimiterModel {
  import opened Clock

  /** The constructor's arguments, times in microseconds. */
  datatype Config = Config(maxFailures: int, window: Time, lockout: Time, maxKeys: int)

  /** What the constructor checks. */
  predicate Checked(c: Config) {
    c.maxFailures >= 1 && c.window >= SECOND && c.lockout >= SECOND
  }

  /** And the capacity, which it does not check. */
  predicate Sensible(c: Config) {
    Checked(c) && c.maxKeys >= 1
  }

  /** `order` is the insertion order of the keys of `failures`. */
  datatype Limiter = Limiter(failures: map<string, seq<Time>>, order: seq<string>, lockedUntil: map<string, Time>)

  const NOTHING := Limiter(map[], [], map[])

  function Last(s: seq<Time>): Time
    requires s != []
  {
    s[|s| - 1]
  }

  /** The hits left after dropping those at or before `cutoff` from the front. */
  function Recent(hits: seq<Time>, cutoff: Time): seq<Time> {
    if hits == [] then [] else if hits[0] <= cutoff then Recent(hits[1..], cutoff) else hits
  }

  /** `math.ceil` of a span in seconds. */
  function CeilSeconds(span: Time): int {
    (span + SECOND - 1) / SECOND
  }

  function Without(order: seq<string>, gone: set<string>): seq<string> {
    if order == [] then []
    else if order[0] in gone then Without(order[1..], gone)
    else [order[0]] + Without(order[1..], gone)
  }

  /** Forget every key of `gone`, its hits and its lock. */
  function Drop(l: Limiter, gone: set<string>): Limiter {
    Limiter(map k | k in l.failures && k !in gone :: l.failures[k],
            Without(l.order, gone),
            map k | k in l.lockedUntil && k !in gone :: l.lockedUntil[k])
  }

  // ---- calls -----------------------------------------------------------------

  function Wait(l: Limiter, key: string, now: Time): int {
    if key !in l.lockedUntil || l.lockedUntil[key] <= now then 0 else CeilSeconds(l.lockedUntil[key] - now)
  }

  /** `wait` is the least number of whole seconds that covers the span. */
  predicate Covers(wait: int, span: Time) {
    if span <= 0 then wait == 0 else (wait - 1) * SECOND < span <= wait * SECOND
  }

  /** What is left of the lock of `key`, if there is one. */
  function LockLeft(l: Limiter, key: string, now: Time): Time {
    if key in l.lockedUntil then l.lockedUntil[key] - now else 0
  }

  lemma WaitCovers(l: Limiter, key: string, now: Time)
    ensures Covers(Wait(l, key, now), LockLeft(l, key, now))
  {
  }

  lemma CoversOnce(wait: int, other: int, span: Time)
    requires Covers(wait, span) && Covers(other, span)
    ensures wait == other
  {
  }

  /** `retry_after` also forgets a key whose lock has run out. */
  function Probed(l: Limiter, key: string, now: Time): Limiter {
    if key in l.lockedUntil && l.lockedUntil[key] <= now then Drop(l, {key}) else l
  }

  /** `_locked_until.get(k, 0) <= now`. */
  predicate Unlocked(l: Limiter, k: string, now: Time) {
    (if k in l.lockedUntil then l.lockedUntil[k] else 0) <= now
  }

  /** The keys the expiry sweep forgets: last hit outside the window, no lock in force. */
  function Stale(c: Config, l: Limiter, now: Time): set<string> {
    set k | k in l.failures
            && (l.failures[k] == [] || Last(l.failures[k]) <= now - c.window)
            && Unlocked(l, k, now)
  }

  function Swept(c: Config, l: Limiter, now: Time): Limiter {
    Drop(l, Stale(c, l, now))
  }

  /** The key that gives way when the sweep freed nothing. */
  function Evicted(c: Config, l: Limiter): set<string> {
    if |l.failures| >= c.maxKeys && l.order != [] then {l.order[0]} else {}
  }

  predicate NeedsRoom(c: Config, l: Limiter, key: string) {
    |l.failures| >= c.maxKeys && key !in l.failures
  }

  function Pruned(c: Config, l: Limiter, now: Time): Limiter {
    Drop(Swept(c, l, now), Evicted(c, Swept(c, l, now)))
  }

  function Hit(c: Config, l: Limiter, key: string, now: Time): Limiter {
    var hits := (if key in l.failures then l.failures[key] else []) + [now];
    var kept := Recent(hits, now - c.window);
    Limiter(l.failures[key := kept],
            if key in l.failures then l.order else l.order + [key],
            if |kept| >= c.maxFailures then l.lockedUntil[key := now + c.lockout] else l.lockedUntil)
  }

  function Recorded(c: Config, l: Limiter, key: string, now: Time): Limiter {
    Hit(c, if NeedsRoom(c, l, key) then Pruned(c, l, now) else l, key, now)
  }

  /** The key, if any, that recording a failure of `key` evicts. */
  function EvictedBy(c: Config, l: Limiter, key: string, now: Time): set<string> {
    if NeedsRoom(c, l, key) then Evicted(c, Swept(c, l, now)) else {}
  }

  // ---- the invariant of the tables --------------------------------------------

  predicate Sorted(s: seq<Time>) {
    forall i, j :: 0 <= i < j < |s| ==> s[i] <= s[j]
  }

  predicate NoDuplicates(s: seq<string>) {
    forall i, j :: 0 <= i < j < |s| ==> s[i] != s[j]
  }

  /** Every tracked key has a sorted, non-empty queue inside one window, and one
      without a lock entry is below the threshold. */
  predicate QueueOk(c: Config, l: Limiter, k: string, clock: Time)
    requires k in l.failures
  {
    var q := l.failures[k];
    && q != [] && Sorted(q) && Last(q) <= clock && q[0] > Last(q) - c.window
    && (k !in l.lockedUntil ==> |q| < c.maxFailures)
  }

  ghost predicate Sound(c: Config, l: Limiter, clock: Time) {
    && NoDuplicates(l.order) && (forall k :: k in l.order <==> k in l.failures)
    && |l.failures| <= c.maxKeys
    && (forall k :: k in l.lockedUntil ==> k in l.failures)
    && (forall k :: k in l.failures ==> QueueOk(c, l, k, clock))
  }

  // ---- facts about the queues ----------------------------------------------------

  /** On a sorted queue, `Recent` is the suffix of the hits after the cutoff. */
  lemma {:induction false} RecentIsSuffix(s: seq<Time>, cutoff: Time)
    requires Sorted(s)
    ensures var r := Recent(s, cutoff);
            && |r| <= |s| && r == s[|s| - |r|..]
            && (forall i :: 0 <= i < |s| ==> (s[i] > cutoff <==> i >= |s| - |r|))
    decreases |s|
  {
    if s != [] {
      if s[0] <= cutoff {
        RecentIsSuffix(s[1..], cutoff);
        var r := Recent(s, cutoff);
        assert s[1..][|s| - 1 - |r|..] == s[|s| - |r|..];
        forall i | 0 <= i < |s| ensures s[i] > cutoff <==> i >= |s| - |r| {
          if i > 0 {
            assert s[i] == s[1..][i - 1];
          }
        }
      }
    }
  }

  /** Trimming twice, the second time further, is trimming once. */
  lemma {:induction false} RecentTwice(s: seq<Time>, x: Time, early: Time, late: Time)
    requires early <= late
    ensures Recent(Recent(s, early) + [x], late) == Recent(s + [x], late)
    decreases |s|
  {
    if s != [] {
      assert (s + [x])[1..] == s[1..] + [x];
      if s[0] <= early {
        RecentTwice(s[1..], x, early, late);
      }
    }
  }

  lemma {:induction false} WithoutMembers(order: seq<string>, gone: set<string>)
    ensures forall k :: k in Without(order, gone) <==> k in order && k !in gone
    ensures NoDuplicates(order) ==> NoDuplicates(Without(order, gone))
    decreases |order|
  {
    if order != [] {
      var rest := Without(order[1..], gone);
      WithoutMembers(order[1..], gone);
      assert forall k :: k in order <==> k == order[0] || k in order[1..];
      if NoDuplicates(order) {
        assert NoDuplicates(order[1..]);
        assert order[0] !in order[1..];
        assert NoDuplicates([order[0]] + rest);
      }
    }
  }

  lemma DropSound(c: Config, l: Limiter, gone: set<string>, clock: Time)
    requires Sound(c, l, clock)
    ensures Sound(c, Drop(l, gone), clock)
    ensures |Drop(l, gone).failures| <= |l.failures|
    ensures (exists k :: k in gone && k in l.failures) ==> |Drop(l, gone).failures| < |l.failures|
  {
    var l' := Drop(l, gone);
    WithoutMembers(l.order, gone);
    assert l'.failures.Keys <= l.failures.Keys;
    SmallerKeys(l'.failures.Keys, l.failures.Keys);
    forall k | k in l'.failures ensures QueueOk(c, l', k, clock) {
      assert QueueOk(c, l, k, clock);
    }
  }

  lemma SmallerKeys(a: set<string>, b: set<string>)
    requires a <= b
    ensures |a| <= |b| && (a != b ==> |a| < |b|)
  {
    assert b == a + (b - a) && |b| == |a| + |b - a|;
  }

  lemma ProbeSound(c: Config, l: Limiter, key: string, clock: Time, now: Time)
    requires Sound(c, l, clock) && clock <= now
    ensures Sound(c, Probed(l, key, now), now)
  {
    LaterSound(c, l, clock, now);
    DropSound(c, l, {key}, now);
  }

  lemma LaterSound(c: Config, l: Limiter, clock: Time, now: Time)
    requires Sound(c, l, clock) && clock <= now
    ensures Sound(c, l, now)
  {
    forall k | k in l.failures ensures QueueOk(c, l, k, now) {
      assert QueueOk(c, l, k, clock);
    }
  }

  /** Pruning a full table makes room, and evicts only when the sweep freed nothing. */
  lemma PruneMakesRoom(c: Config, l: Limiter, now: Time)
    requires Sensible(c) && Sound(c, l, now) && |l.failures| >= c.maxKeys
    ensures Sound(c, Pruned(c, l, now), now) && |Pruned(c, l, now).failures| < c.maxKeys
    ensures Evicted(c, Swept(c, l, now)) != {} <==> Stale(c, l, now) == {}
    ensures Stale(c, l, now) == {} ==> l.order != [] && Pruned(c, l, now) == Drop(l, {l.order[0]})
    ensures Stale(c, l, now) != {} ==> Pruned(c, l, now) == Swept(c, l, now)
  {
    var stale := Stale(c, l, now);
    var swept := Swept(c, l, now);
    DropSound(c, l, stale, now);
    DropNothing(swept);
    if stale == {} {
      DropNothing(l);
      assert swept == l;
      var k :| k in l.failures;
      assert k in l.order;
      DropSound(c, l, {l.order[0]}, now);
      assert l.order[0] in l.failures;
    } else {
      var k :| k in stale;
      assert k in l.failures;
    }
  }

  lemma {:induction false} WithoutNothing(order: seq<string>)
    ensures Without(order, {}) == order
    decreases |order|
  {
    if order != [] {
      WithoutNothing(order[1..]);
    }
  }

  lemma DropNothing(l: Limiter)
    ensures Drop(l, {}) == l
  {
    WithoutNothing(l.order);
  }

  /** The queue of a key that has just failed. */
  lemma KeptQueue(queue: seq<Time>, window: Time, now: Time)
    requires window > 0 && Sorted(queue) && (queue != [] ==> Last(queue) <= now)
    ensures var kept := Recent(queue + [now], now - window);
            kept != [] && Sorted(kept) && Last(kept) == now && kept[0] > now - window
  {
    var hits := queue + [now];
    assert Sorted(hits) && hits[|hits| - 1] == now > now - window;
    RecentIsSuffix(hits, now - window);
  }

  lemma HitQueue(c: Config, l: Limiter, key: string, now: Time)
    requires Sensible(c) && (key in l.failures ==> QueueOk(c, l, key, now))
    ensures QueueOk(c, Hit(c, l, key, now), key, now)
  {
    KeptQueue(if key in l.failures then l.failures[key] else [], c.window, now);
  }

  lemma HitSound(c: Config, l: Limiter, key: string, now: Time)
    requires Sensible(c) && Sound(c, l, now) && (key in l.failures || |l.failures| < c.maxKeys)
    ensures Sound(c, Hit(c, l, key, now), now)
  {
    var l' := Hit(c, l, key, now);
    HitQueue(c, l, key, now);
    forall k | k in l'.failures ensures QueueOk(c, l', k, now) {
      if k != key {
        assert QueueOk(c, l, k, now);
      }
    }
    assert l'.failures.Keys == l.failures.Keys + {key};
    if key !in l.failures {
      assert key !in l.order;
    }
  }

  lemma RecordSound(c: Config, l: Limiter, key: string, clock: Time, now: Time)
    requires Sensible(c) && Sound(c, l, clock) && clock <= now
    ensures Sound(c, Recorded(c, l, key, now), now)
  {
    LaterSound(c, l, clock, now);
    if NeedsRoom(c, l, key) {
      PruneMakesRoom(c, l, now);
    }
    HitSound(c, if NeedsRoom(c, l, key) then Pruned(c, l, now) else l, key, now);
  }
}
