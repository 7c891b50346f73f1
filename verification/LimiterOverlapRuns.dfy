/** Runs of overlapping requests of one key: the bound for `p` of them is reached, so
    the serial bound fails as soon as two requests overlap. */
module LimiterOverlapRuns {
  import opened Clock
  import opened LimiterModel
  import opened LimiterHistory
  import opened LimiterRate
  import opened LimiterOverlap

  function Times(n: nat, t: Time): seq<Time> {
    seq(n, _ => t)
  }

  lemma TimesSnoc(n: nat, t: Time)
    ensures Times(n, t) + [t] == Times(n + 1, t)
    ensures [t] + Times(n, t) == Times(n + 1, t)
  {
  }

  // ---- one move of the only key ---------------------------------------------------------

  function QueueOf(s: Hall, key: string): seq<Time> {
    if key in s.l.failures then s.l.failures[key] else []
  }

  /** No other key is tracked. */
  predicate Solo(s: Hall, key: string, all: seq<Time>, inside: nat) {
    && s.l.failures.Keys <= {key} && (key in s.l.lockedUntil ==> key in s.l.failures)
    && TrailOf(s.trails, key).all == all && InsideOf(s.inside, key) == inside
  }

  lemma GateMove(c: Config, p: nat, s: Hall, key: string, now: Time, all: seq<Time>, inside: nat)
    requires Sensible(c) && Solo(s, key, all, inside) && inside < p
    requires key in s.l.lockedUntil ==> s.l.lockedUntil[key] <= now
    ensures Allowed(s, p, Gate(key, now))
    ensures var s' := Moved(c, s, p, Gate(key, now));
            && Solo(s', key, all, inside + 1) && key !in s'.l.lockedUntil
            && QueueOf(s', key) == if key in s.l.lockedUntil then [] else QueueOf(s, key)
  {
  }

  lemma RecordMove(c: Config, p: nat, s: Hall, key: string, now: Time, all: seq<Time>, inside: nat)
    requires Sensible(c) && Solo(s, key, all, inside) && inside > 0
    ensures Allowed(s, p, Record(key, now))
    ensures var s' := Moved(c, s, p, Record(key, now));
            && Solo(s', key, all + [now], inside - 1)
            && QueueOf(s', key) == Recent(QueueOf(s, key) + [now], now - c.window)
            && (if |QueueOf(s', key)| >= c.maxFailures
                then key in s'.l.lockedUntil && s'.l.lockedUntil[key] == now + c.lockout
                else s'.l.lockedUntil == s.l.lockedUntil)
  {
    HasRoom(c, s.l, key);
  }

  lemma HasRoom(c: Config, l: Limiter, key: string)
    requires Sensible(c) && l.failures.Keys <= {key}
    ensures !NeedsRoom(c, l, key)
  {
    if key !in l.failures {
      assert l.failures.Keys == {};
    }
  }

  // ---- joining runs -------------------------------------------------------------------------

  /** The run is possible from `s` and ends in `s'`. */
  predicate Leads(c: Config, p: nat, s: Hall, clock: Time, moves: seq<Move>, s': Hall, end: Time) {
    Orderly(c, p, s, clock, moves) && After(c, p, s, clock, moves) == s' && EndTime(clock, moves) == end
  }

  lemma LeadsNowhere(c: Config, p: nat, s: Hall, clock: Time)
    ensures Leads(c, p, s, clock, [], s, clock)
  {
  }

  lemma LeadsOne(c: Config, p: nat, s: Hall, clock: Time, move: Move)
    requires clock <= move.now && Allowed(s, p, move)
    ensures Leads(c, p, s, clock, [move], Moved(c, s, p, move), move.now)
  {
    assert [move][1..] == [];
  }

  lemma {:induction false} LeadsJoin(c: Config, p: nat, s: Hall, clock: Time, a: seq<Move>, s1: Hall, t1: Time,
                                     b: seq<Move>, s2: Hall, t2: Time)
    requires Leads(c, p, s, clock, a, s1, t1) && Leads(c, p, s1, t1, b, s2, t2)
    ensures Leads(c, p, s, clock, a + b, s2, t2)
    decreases |a|
  {
    if a == [] {
      assert a + b == b;
    } else {
      assert (a + b)[1..] == a[1..] + b;
      LeadsJoin(c, p, Moved(c, s, p, a[0]), a[0].now, a[1..], s1, t1, b, s2, t2);
    }
  }

  // ---- many moves at one moment -----------------------------------------------------------------

  /** Some run of moves from `s` at `clock` ends in `s'` at `t`. */
  ghost predicate Reaches(c: Config, p: nat, s: Hall, clock: Time, s': Hall, t: Time) {
    exists moves :: Leads(c, p, s, clock, moves, s', t)
  }

  lemma ReachesStill(c: Config, p: nat, s: Hall, clock: Time)
    ensures Reaches(c, p, s, clock, s, clock)
  {
    LeadsNowhere(c, p, s, clock);
  }

  lemma ReachesOne(c: Config, p: nat, s: Hall, clock: Time, move: Move)
    requires clock <= move.now && Allowed(s, p, move)
    ensures Reaches(c, p, s, clock, Moved(c, s, p, move), move.now)
  {
    LeadsOne(c, p, s, clock, move);
  }

  lemma ReachesJoin(c: Config, p: nat, s: Hall, clock: Time, s1: Hall, t1: Time, s2: Hall, t2: Time)
    requires Reaches(c, p, s, clock, s1, t1) && Reaches(c, p, s1, t1, s2, t2)
    ensures Reaches(c, p, s, clock, s2, t2)
  {
    var a :| Leads(c, p, s, clock, a, s1, t1);
    var b :| Leads(c, p, s1, t1, b, s2, t2);
    LeadsJoin(c, p, s, clock, a, s1, t1, b, s2, t2);
  }

  /** `n` requests pass the gate. */
  lemma {:induction false} Enter(c: Config, p: nat, s: Hall, key: string, t: Time, all: seq<Time>, inside: nat, n: nat)
    returns (s': Hall)
    requires Sensible(c) && Solo(s, key, all, inside) && inside + n <= p && key !in s.l.lockedUntil
    ensures Reaches(c, p, s, t, s', t)
    ensures Solo(s', key, all, inside + n) && key !in s'.l.lockedUntil && QueueOf(s', key) == QueueOf(s, key)
    decreases n
  {
    s' := s;
    ReachesStill(c, p, s, t);
    if n > 0 {
      GateMove(c, p, s, key, t, all, inside);
      ReachesOne(c, p, s, t, Gate(key, t));
      var s1 := Moved(c, s, p, Gate(key, t));
      s' := Enter(c, p, s1, key, t, all, inside + 1, n - 1);
      ReachesJoin(c, p, s, t, s1, t, s', t);
    }
  }

  /** `n` of the requests inside record. */
  lemma {:induction false} RecordAll(c: Config, p: nat, s: Hall, key: string, t: Time, all: seq<Time>, inside: nat,
                                     n: nat)
    returns (s': Hall)
    requires Sensible(c) && Solo(s, key, all, inside) && n <= inside
    ensures Reaches(c, p, s, t, s', t) && Solo(s', key, all + Times(n, t), inside - n)
    decreases n
  {
    s' := s;
    ReachesStill(c, p, s, t);
    assert all + Times(0, t) == all;
    if n > 0 {
      RecordMove(c, p, s, key, t, all, inside);
      ReachesOne(c, p, s, t, Record(key, t));
      var s1 := Moved(c, s, p, Record(key, t));
      s' := RecordAll(c, p, s1, key, t, all + [t], inside - 1, n - 1);
      ReachesJoin(c, p, s, t, s1, t, s', t);
      TimesSnoc(n - 1, t);
      assert (all + [t]) + Times(n - 1, t) == all + Times(n, t);
    }
  }

  /** `n` requests, one after the other, fail below the threshold. */
  lemma {:induction false} FailInTurn(c: Config, p: nat, s: Hall, key: string, t: Time, all: seq<Time>, inside: nat,
                                      n: nat)
    returns (s': Hall)
    requires Sensible(c) && Solo(s, key, all, inside) && inside < p && key !in s.l.lockedUntil
    requires |QueueOf(s, key)| + n < c.maxFailures && (QueueOf(s, key) != [] ==> QueueOf(s, key)[0] > t - c.window)
    ensures Reaches(c, p, s, t, s', t)
    ensures Solo(s', key, all + Times(n, t), inside) && key !in s'.l.lockedUntil
    ensures QueueOf(s', key) == QueueOf(s, key) + Times(n, t)
    decreases n
  {
    s' := s;
    ReachesStill(c, p, s, t);
    assert all + Times(0, t) == all && QueueOf(s, key) + Times(0, t) == QueueOf(s, key);
    if n > 0 {
      var s2 := FailOnce(c, p, s, key, t, all, inside);
      s' := FailInTurn(c, p, s2, key, t, all + [t], inside, n - 1);
      ReachesJoin(c, p, s, t, s2, t, s', t);
      TimesSnoc(n - 1, t);
      assert (all + [t]) + Times(n - 1, t) == all + Times(n, t);
      assert (QueueOf(s, key) + [t]) + Times(n - 1, t) == QueueOf(s, key) + Times(n, t);
    }
  }

  lemma FailOnce(c: Config, p: nat, s: Hall, key: string, t: Time, all: seq<Time>, inside: nat) returns (s': Hall)
    requires Sensible(c) && Solo(s, key, all, inside) && inside < p && key !in s.l.lockedUntil
    requires |QueueOf(s, key)| + 1 < c.maxFailures && (QueueOf(s, key) != [] ==> QueueOf(s, key)[0] > t - c.window)
    ensures Reaches(c, p, s, t, s', t) && Solo(s', key, all + [t], inside)
    ensures key !in s'.l.lockedUntil && QueueOf(s', key) == QueueOf(s, key) + [t]
  {
    GateMove(c, p, s, key, t, all, inside);
    ReachesOne(c, p, s, t, Gate(key, t));
    var s1 := Moved(c, s, p, Gate(key, t));
    RecordMove(c, p, s1, key, t, all, inside + 1);
    ReachesOne(c, p, s1, t, Record(key, t));
    s' := Moved(c, s1, p, Record(key, t));
    ReachesJoin(c, p, s, t, s1, t, s', t);
    assert (QueueOf(s, key) + [t])[0] > t - c.window;
  }

  // ---- what bounds every run ---------------------------------------------------------------

  lemma VacantIsSolo(key: string)
    ensures Solo(VACANT, key, [], 0) && QueueOf(VACANT, key) == [] && key !in VACANT.l.lockedUntil
  {
  }

  /** With at most `p` requests of a key at a time, no window ever holds more than
      `most` recorded failures. */
  ghost predicate Bounds(c: Config, p: nat, most: int) {
    forall moves, key, from :: Orderly(c, p, VACANT, 0, moves) ==> HoldsAtMost(c, p, moves, key, from, most)
  }

  ghost predicate HoldsAtMost(c: Config, p: nat, moves: seq<Move>, key: string, from: Time, most: int)
    requires Orderly(c, p, VACANT, 0, moves)
  {
    CountIn(RecordedBy(c, p, moves, key), from, from + c.window) <= most
  }

  lemma OverlapMaxBounds(c: Config, p: nat, most: int)
    requires Sensible(c) && c.lockout >= c.window && p >= 1 && OverlapMax(c, p) <= most
    ensures Bounds(c, p, most)
  {
    forall moves, key, from | Orderly(c, p, VACANT, 0, moves)
      ensures HoldsAtMost(c, p, moves, key, from, most)
    {
      OverlappingRateIsBounded(c, p, moves, key, from, 0);
    }
  }

  // ---- the overlapping bound is reached --------------------------------------------------

  lemma {:induction false} RecentShrinks(s: seq<Time>, cutoff: Time)
    ensures |Recent(s, cutoff)| <= |s|
  {
    if s != [] && s[0] <= cutoff {
      RecentShrinks(s[1..], cutoff);
    }
  }

  lemma {:induction false} OldDrops(n: nat, t: Time, cutoff: Time)
    requires 0 <= cutoff < t
    ensures Recent(Times(n, 0) + [t], cutoff) == [t]
  {
    var s := Times(n, 0) + [t];
    if n > 0 {
      assert s[1..] == Times(n - 1, 0) + [t];
      OldDrops(n - 1, t, cutoff);
    }
  }

  predicate LockedUntil(s: Hall, key: string, until: Time) {
    key in s.l.lockedUntil && s.l.lockedUntil[key] == until
  }

  /** A straggler records below the threshold: the lock stays as it is. */
  lemma StraggleOnce(c: Config, p: nat, s: Hall, key: string, clock: Time, t: Time, all: seq<Time>, inside: nat,
                     until: Time)
    returns (s': Hall)
    requires Sensible(c) && Solo(s, key, all, inside) && inside > 0 && LockedUntil(s, key, until) && clock <= t
    requires |Recent(QueueOf(s, key) + [t], t - c.window)| < c.maxFailures
    ensures Reaches(c, p, s, clock, s', t)
    ensures Solo(s', key, all + [t], inside - 1) && LockedUntil(s', key, until)
    ensures QueueOf(s', key) == Recent(QueueOf(s, key) + [t], t - c.window)
  {
    RecordMove(c, p, s, key, t, all, inside);
    ReachesOne(c, p, s, clock, Record(key, t));
    s' := Moved(c, s, p, Record(key, t));
  }

  lemma {:induction false} Straggle(c: Config, p: nat, s: Hall, key: string, t: Time, all: seq<Time>, inside: nat,
                                    n: nat, until: Time)
    returns (s': Hall)
    requires Sensible(c) && Solo(s, key, all, inside) && LockedUntil(s, key, until)
    requires n <= inside && |QueueOf(s, key)| + n < c.maxFailures
    ensures Reaches(c, p, s, t, s', t) && Solo(s', key, all + Times(n, t), inside - n) && LockedUntil(s', key, until)
    decreases n
  {
    s' := s;
    ReachesStill(c, p, s, t);
    assert all + Times(0, t) == all;
    if n > 0 {
      RecentShrinks(QueueOf(s, key) + [t], t - c.window);
      var s1 := StraggleOnce(c, p, s, key, t, t, all, inside, until);
      s' := Straggle(c, p, s1, key, t, all + [t], inside - 1, n - 1, until);
      ReachesJoin(c, p, s, t, s1, t, s', t);
      TimesSnoc(n - 1, t);
      assert (all + [t]) + Times(n - 1, t) == all + Times(n, t);
    }
  }

  /** `p` requests enter below the threshold; the first to record sets the lock. */
  lemma FirstLock(c: Config, p: nat, key: string) returns (s': Hall)
    requires Sensible(c) && p >= 1
    ensures Reaches(c, p, VACANT, 0, s', 0)
    ensures Solo(s', key, Times(c.maxFailures, 0), p - 1) && LockedUntil(s', key, c.lockout)
    ensures QueueOf(s', key) == Times(c.maxFailures, 0)
  {
    VacantIsSolo(key);
    var n := c.maxFailures - 1;
    var s1 := FailInTurn(c, p, VACANT, key, 0, [], 0, n);
    assert [] + Times(n, 0) == Times(n, 0);
    var s2 := Enter(c, p, s1, key, 0, Times(n, 0), 0, p);
    ReachesJoin(c, p, VACANT, 0, s1, 0, s2, 0);
    s' := RecordLocks(c, p, s2, key, 0, Times(n, 0), p);
    ReachesJoin(c, p, VACANT, 0, s2, 0, s', 0);
    TimesSnoc(n, 0);
    assert (Times(n, 0) + [0])[0] > -c.window;
  }

  lemma RecordLocks(c: Config, p: nat, s: Hall, key: string, t: Time, all: seq<Time>, inside: nat) returns (s': Hall)
    requires Sensible(c) && Solo(s, key, all, inside) && inside > 0
    requires |QueueOf(s, key)| + 1 >= c.maxFailures && (QueueOf(s, key) + [t])[0] > t - c.window
    ensures Reaches(c, p, s, t, s', t) && Solo(s', key, all + [t], inside - 1)
    ensures LockedUntil(s', key, t + c.lockout) && QueueOf(s', key) == QueueOf(s, key) + [t]
  {
    RecordMove(c, p, s, key, t, all, inside);
    ReachesOne(c, p, s, t, Record(key, t));
    s' := Moved(c, s, p, Record(key, t));
  }

  /** `n` of the others record at the last moment of the lock. */
  lemma Stragglers(c: Config, p: nat, s: Hall, key: string, all: seq<Time>, inside: nat, n: nat)
    returns (s': Hall, t: Time)
    requires Sensible(c) && c.lockout >= c.window && n <= inside && n < c.maxFailures
    requires Solo(s, key, all, inside) && QueueOf(s, key) == Times(c.maxFailures, 0) && LockedUntil(s, key, c.lockout)
    ensures t <= c.lockout && Reaches(c, p, s, 0, s', t)
    ensures Solo(s', key, all + Times(n, c.lockout), inside - n) && LockedUntil(s', key, c.lockout)
  {
    s', t := s, 0;
    ReachesStill(c, p, s, 0);
    assert all + Times(0, c.lockout) == all;
    if n > 0 {
      t := c.lockout;
      OldDrops(c.maxFailures, t, t - c.window);
      var s1 := StraggleOnce(c, p, s, key, 0, t, all, inside, t);
      s' := Straggle(c, p, s1, key, t, all + [t], inside - 1, n - 1, t);
      ReachesJoin(c, p, s, 0, s1, t, s', t);
      TimesSnoc(n - 1, t);
      assert (all + [t]) + Times(n - 1, t) == all + Times(n, t);
    }
  }

  /** A request that fails nothing finds the lock run out, and with it the count. */
  lemma LockEnds(c: Config, p: nat, s: Hall, key: string, clock: Time, t: Time, all: seq<Time>, inside: nat)
    returns (s': Hall)
    requires Sensible(c) && inside < p && Solo(s, key, all, inside) && LockedUntil(s, key, t) && clock <= t
    ensures Reaches(c, p, s, clock, s', t)
    ensures Solo(s', key, all, inside) && key !in s'.l.lockedUntil && QueueOf(s', key) == []
  {
    GateMove(c, p, s, key, t, all, inside);
    ReachesOne(c, p, s, clock, Gate(key, t));
    var s1 := Moved(c, s, p, Gate(key, t));
    ReachesOne(c, p, s1, t, Leave(key, t, false));
    s' := Moved(c, s1, p, Leave(key, t, false));
    ReachesJoin(c, p, s, clock, s1, t, s', t);
  }

  /** From an open gate: all but one failure in turn, then as many more as may overlap. */
  lemma Burst(c: Config, p: nat, s: Hall, key: string, t: Time, all: seq<Time>, inside: nat) returns (s': Hall)
    requires Sensible(c) && inside < p && Solo(s, key, all, inside)
    requires key !in s.l.lockedUntil && QueueOf(s, key) == []
    ensures Reaches(c, p, s, t, s', t) && Solo(s', key, all + Times(c.maxFailures - 1 + p, t), 0)
  {
    var n := c.maxFailures - 1;
    var s1 := FailInTurn(c, p, s, key, t, all, inside, n);
    var s2 := Enter(c, p, s1, key, t, all + Times(n, t), inside, p - inside);
    s' := RecordAll(c, p, s2, key, t, all + Times(n, t), p, p);
    ReachesJoin(c, p, s, t, s1, t, s2, t);
    ReachesJoin(c, p, s, t, s2, t, s', t);
    TimesJoin(all, n, p, t);
  }

  lemma TimesJoin(all: seq<Time>, m: nat, n: nat, t: Time)
    ensures all + Times(m, t) + Times(n, t) == all + Times(m + n, t)
  {
  }

  /** A lock that begins and ends with `p` requests inside. */
  lemma LockToLock(c: Config, p: nat, key: string) returns (moves: seq<Move>)
    requires Sensible(c) && c.lockout >= c.window && p >= 1
    ensures Orderly(c, p, VACANT, 0, moves)
    ensures RecordedBy(c, p, moves, key) == Times(c.maxFailures, 0) + Times(OverlapMax(c, p), c.lockout)
  {
    var s1 := FirstLock(c, p, key);
    var s2, t2 := Stragglers(c, p, s1, key, Times(c.maxFailures, 0), p - 1, Spill(c, p) - 1);
    var s4 := NextLock(c, p, s2, key, t2, Times(c.maxFailures, 0) + Times(Spill(c, p) - 1, c.lockout), p - Spill(c, p));
    ReachesJoin(c, p, VACANT, 0, s1, 0, s2, t2);
    ReachesJoin(c, p, VACANT, 0, s2, t2, s4, c.lockout);
    TimesJoin(Times(c.maxFailures, 0), Spill(c, p) - 1, c.maxFailures - 1 + p, c.lockout);
    moves :| Leads(c, p, VACANT, 0, moves, s4, c.lockout);
  }

  lemma NextLock(c: Config, p: nat, s: Hall, key: string, clock: Time, all: seq<Time>, inside: nat) returns (s': Hall)
    requires Sensible(c) && inside < p && Solo(s, key, all, inside)
    requires LockedUntil(s, key, c.lockout) && clock <= c.lockout
    ensures Reaches(c, p, s, clock, s', c.lockout)
    ensures Solo(s', key, all + Times(c.maxFailures - 1 + p, c.lockout), 0)
  {
    var s1 := LockEnds(c, p, s, key, clock, c.lockout, all, inside);
    s' := Burst(c, p, s1, key, c.lockout, all, inside);
    ReachesJoin(c, p, s, clock, s1, c.lockout, s', c.lockout);
  }

  lemma LateCount(m: nat, n: nat, t: Time, window: Time)
    requires 0 < t && 0 < window
    ensures CountIn(Times(m, 0) + Times(n, t), t, t + window) == n
  {
    var s := Times(m, 0) + Times(n, t);
    RangeSize(m, m + n);
    assert (set i | 0 <= i < |s| && t <= s[i] < t + window) == Range(m, m + n);
  }

  /** The overlapping bound is exact: it is the least number that bounds every window
      of every run. */
  lemma OverlapBoundIsExact(c: Config, p: nat, most: int)
    requires Sensible(c) && c.lockout >= c.window && p >= 1
    ensures Bounds(c, p, most) <==> OverlapMax(c, p) <= most
  {
    if OverlapMax(c, p) <= most {
      OverlapMaxBounds(c, p, most);
    } else {
      var moves := LockToLock(c, p, "key");
      LateCount(c.maxFailures, OverlapMax(c, p), c.lockout, c.window);
      assert !HoldsAtMost(c, p, moves, "key", c.lockout, most);
    }
  }

  /** The serial bound holds over all runs if and only if requests do not overlap,
      whatever the threshold. */
  lemma SerialBoundNeedsSerialRequests(c: Config, p: nat)
    requires Sensible(c) && c.lockout >= c.window && p >= 1
    ensures Bounds(c, p, c.maxFailures) <==> p == 1
  {
    OverlapBoundIsExact(c, p, c.maxFailures);
  }
}
