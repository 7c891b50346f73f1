/** The limiter when requests of one key overlap: several may pass the gate before
    the first of them records its failure. With at most `p` such requests of a key
    at a time, a window holds at most `maxFailures + p - 1` recorded failures after a
    lock ended and `min(p, maxFailures) - 1` before: stragglers may record under the
    old lock and again under the next one. */
module LimiterOverlap {
  import opened Clock
  import opened LimiterModel
  import opened LimiterHistory
  import opened LimiterRate

  /** The failures of a key since it was last forgotten. Those from `cut` on are
      counted by the limiter: they came since it last dropped an expired lock. The
      last `late` of them were recorded by requests that had passed the gate before
      the lock in place was set. */
  datatype Trail = Trail(all: seq<Time>, cut: nat, late: nat)

  const CLEAN := Trail([], 0, 0)

  datatype Move =
    | Gate(key: string, now: Time)
    | Record(key: string, now: Time)                // by a request that its gate let in
    | Leave(key: string, now: Time, clears: bool)   // it ends without a failure, or with a clear

  /** `inside` counts the requests of a key between their gate and their end. */
  datatype Hall = Hall(l: Limiter, trails: map<string, Trail>, inside: map<string, nat>)

  const VACANT := Hall(NOTHING, map[], map[])

  function TrailOf(trails: map<string, Trail>, key: string): Trail {
    if key in trails then trails[key] else CLEAN
  }

  function InsideOf(inside: map<string, nat>, key: string): nat {
    if key in inside then inside[key] else 0
  }

  /** An expired lock is dropped, and with it the count. */
  function Closed(tr: Trail): Trail {
    Trail(tr.all, |tr.all|, 0)
  }

  function Swelled(tr: Trail, locked: bool, now: Time): Trail {
    Trail(tr.all + [now], tr.cut, if locked then tr.late + 1 else 0)
  }

  /** The trails after the expiry sweep, which drops expired locks too. */
  function SweptTrails(c: Config, l: Limiter, trails: map<string, Trail>, now: Time): map<string, Trail> {
    map k | k in trails ::
      if k in Stale(c, l, now) && k in l.lockedUntil then Closed(trails[k]) else trails[k]
  }

  /** The trails as the recording of a failure of `key` finds them. */
  function RoomyTrails(c: Config, l: Limiter, trails: map<string, Trail>, key: string, now: Time): map<string, Trail> {
    if NeedsRoom(c, l, key) then SweptTrails(c, l, trails, now) - Evicted(c, Swept(c, l, now)) else trails
  }

  /** At most `p` requests of a key are between gate and end. */
  predicate Allowed(s: Hall, p: nat, move: Move) {
    match move
    case Gate(key, now) => Wait(s.l, key, now) == 0 ==> InsideOf(s.inside, key) < p
    case Record(key, _) => InsideOf(s.inside, key) > 0
    case Leave(key, _, _) => InsideOf(s.inside, key) > 0
  }

  function Entered(s: Hall, key: string, now: Time): Hall {
    var tr := TrailOf(s.trails, key);
    Hall(Probed(s.l, key, now), s.trails[key := if key in s.l.lockedUntil then Closed(tr) else tr],
         s.inside[key := InsideOf(s.inside, key) + 1])
  }

  function Moved(c: Config, s: Hall, p: nat, move: Move): Hall
    requires Allowed(s, p, move)
  {
    match move
    case Gate(key, now) => if Wait(s.l, key, now) != 0 then s else Entered(s, key, now)
    case Record(key, now) =>
      var trails := RoomyTrails(c, s.l, s.trails, key, now);
      Hall(Recorded(c, s.l, key, now),
           trails[key := Swelled(TrailOf(trails, key), key in s.l.lockedUntil, now)],
           s.inside[key := InsideOf(s.inside, key) - 1])
    case Leave(key, _, clears) =>
      var inside := s.inside[key := InsideOf(s.inside, key) - 1];
      if clears then Hall(Drop(s.l, {key}), s.trails - {key}, inside) else s.(inside := inside)
  }

  /** Requests one after the other are the gated calls of `LimiterHistory`: one that is
      held back, one that fails, and one that succeeds and clears or does not. */
  lemma SerialMovesAreCalls(c: Config, p: nat, s: Hall, key: string, gate: Time, at: Time, clears: bool)
    requires InsideOf(s.inside, key) < p
    ensures Wait(s.l, key, gate) != 0 ==> Moved(c, s, p, Gate(key, gate)).l == LimiterStep(c, s.l, Fail(key, gate, at))
    ensures Wait(s.l, key, gate) == 0 ==>
              var inside := Moved(c, s, p, Gate(key, gate));
              var probed := LimiterStep(c, s.l, Probe(key, gate));
              && InsideOf(inside.inside, key) == InsideOf(s.inside, key) + 1
              && Moved(c, inside, p, Record(key, at)).l == LimiterStep(c, s.l, Fail(key, gate, at))
              && Moved(c, inside, p, Leave(key, at, clears)).l
                 == if clears then LimiterStep(c, probed, Forget(key, at)) else probed
  {
  }

  // ---- what a trail keeps ------------------------------------------------------------

  /** One more than the stragglers that fit behind a lock without renewing it. */
  function Spill(c: Config, p: nat): int {
    if p <= c.maxFailures then p else c.maxFailures
  }

  /** What a window can hold when at most `p` requests of a key overlap. */
  function OverlapMax(c: Config, p: nat): int {
    c.maxFailures + p - 1 + Spill(c, p) - 1
  }

  /** From position `lo` up to `hi` every failure is a window after the one `max` back. */
  predicate SpacedIn(s: seq<Time>, lo: int, hi: int, max: int, window: Time)
    requires 1 <= max <= lo && hi <= |s|
  {
    forall j :: lo <= j < hi ==> Apart(s, max, window, j)
  }

  predicate TrailOk(c: Config, p: nat, tr: Trail, clock: Time)
    requires c.maxFailures >= 1 && p >= 1
  {
    && Sorted(tr.all) && (tr.all != [] ==> Last(tr.all) <= clock)
    && Spaced(tr.all, OverlapMax(c, p), c.window)
    && tr.cut + tr.late <= |tr.all|
    && SpacedIn(tr.all, tr.cut + c.maxFailures, |tr.all| - tr.late, c.maxFailures, c.window)
    && (tr.cut >= Spill(c, p) ==> tr.all[tr.cut - Spill(c, p)] + c.window <= clock)
  }

  /** A key with a lock entry: the lock runs at least from its first failure, and
      the stragglers recorded and still inside are fewer than `p`. */
  predicate LockOk(c: Config, p: nat, until: Time, tr: Trail, inside: nat) {
    && tr.late + inside < p && tr.cut + tr.late < |tr.all|
    && until >= tr.all[|tr.all| - 1 - tr.late] + c.lockout
  }

  /** Of the counted failures, the last `max` are less than a window apart. */
  predicate Full(tr: Trail, max: int, window: Time) {
    1 <= max <= |tr.all| - tr.cut && tr.all[|tr.all| - max] > Last(tr.all) - window
  }

  /** A failure that finds the window full renews the lock. */
  predicate LockRenewed(c: Config, until: Time, tr: Trail) {
    tr.cut + c.maxFailures <= |tr.all| && (Full(tr, c.maxFailures, c.window) ==> until >= Last(tr.all) + c.lockout)
  }

  predicate QueueShows(c: Config, l: Limiter, key: string, tr: Trail, clock: Time)
    requires tr.cut <= |tr.all|
  {
    if key in l.failures then
      tr.cut < |tr.all| && l.failures[key] == Recent(tr.all[tr.cut..], Last(tr.all) - c.window)
    else
      tr.cut < |tr.all| ==> Last(tr.all) + c.window <= clock
  }

  predicate LockShows(c: Config, p: nat, l: Limiter, key: string, tr: Trail, inside: nat) {
    if key in l.lockedUntil then
      && key in l.failures && LockOk(c, p, l.lockedUntil[key], tr, inside)
      && LockRenewed(c, l.lockedUntil[key], tr)
    else tr.late == 0 && (key in l.failures ==> |l.failures[key]| < c.maxFailures)
  }

  predicate Tracks(c: Config, p: nat, l: Limiter, key: string, tr: Trail, inside: nat, clock: Time)
    requires c.maxFailures >= 1 && p >= 1
  {
    TrailOk(c, p, tr, clock) && QueueShows(c, l, key, tr, clock) && LockShows(c, p, l, key, tr, inside) && inside <= p
  }

  ghost predicate Inv(c: Config, p: nat, s: Hall, clock: Time)
    requires c.maxFailures >= 1 && p >= 1
  {
    && Sound(c, s.l, clock)
    && forall key :: Tracks(c, p, s.l, key, TrailOf(s.trails, key), InsideOf(s.inside, key), clock)
  }

  lemma SortedAt(s: seq<Time>, i: int, j: int)
    requires Sorted(s) && 0 <= i <= j < |s|
    ensures s[i] <= s[j]
  {
  }

  lemma SortedSnoc(s: seq<Time>, now: Time)
    requires Sorted(s) && (s != [] ==> Last(s) <= now)
    ensures Sorted(s + [now])
  {
  }

  lemma SuffixIsSorted(s: seq<Time>, cut: nat)
    requires Sorted(s) && cut <= |s|
    ensures Sorted(s[cut..]) && (cut < |s| ==> Last(s[cut..]) == Last(s))
  {
  }

  lemma TrailLater(c: Config, p: nat, tr: Trail, clock: Time, now: Time)
    requires c.maxFailures >= 1 && p >= 1 && TrailOk(c, p, tr, clock) && clock <= now
    ensures TrailOk(c, p, tr, now)
  {
  }

  lemma TracksLater(c: Config, p: nat, l: Limiter, key: string, tr: Trail, inside: nat, clock: Time, now: Time)
    requires c.maxFailures >= 1 && p >= 1 && Tracks(c, p, l, key, tr, inside, clock) && clock <= now
    ensures Tracks(c, p, l, key, tr, inside, now)
  {
    TrailLater(c, p, tr, clock, now);
  }

  /** Dropping a lock that has run out leaves fewer than `Spill(c, p)` failures less
      than a window old. */
  lemma CloseKeeps(c: Config, p: nat, until: Time, tr: Trail, inside: nat, clock: Time, now: Time)
    requires Sensible(c) && c.lockout >= c.window && p >= 1 && clock <= now
    requires TrailOk(c, p, tr, clock) && LockOk(c, p, until, tr, inside) && LockRenewed(c, until, tr) && until <= now
    ensures TrailOk(c, p, Closed(tr), now)
  {
    var n := |tr.all|;
    if p <= c.maxFailures {
      if n >= p {
        SortedAt(tr.all, n - p, n - 1 - tr.late);
      }
    } else {
      SortedAt(tr.all, n - c.maxFailures, n - 1);
    }
  }

  /** Behind stragglers, the failure `m + p - 1` back in the count is a window old. */
  lemma StragglersAreFar(s: seq<Time>, cut: nat, late: nat, m: int, p: nat, window: Time, now: Time)
    requires m >= 1 && p >= 1 && Sorted(s) && cut + late < |s| && late + 1 < p && Last(s) <= now
    requires SpacedIn(s, cut + m, |s| - late, m, window) && |s| - cut >= m + p - 1
    ensures now >= s[|s| - (m + p - 1)] + window
  {
    var first := |s| - 1 - late;
    assert Apart(s, m, window, first);
    SortedAt(s, |s| - (m + p - 1), first - m);
    SortedAt(s, first, |s| - 1);
  }

  /** With fewer than `m` hits in the window, the failure `m` back is a window old. */
  lemma FewAreFar(c: Config, l: Limiter, key: string, tr: Trail, clock: Time)
    requires Sensible(c) && Sorted(tr.all) && tr.cut + c.maxFailures <= |tr.all| && Last(tr.all) <= clock
    requires QueueShows(c, l, key, tr, clock) && (key in l.failures ==> |l.failures[key]| < c.maxFailures)
    ensures tr.all[|tr.all| - c.maxFailures] + c.window <= clock
  {
    var back := |tr.all| - c.maxFailures;
    if key in l.failures {
      var fails := tr.all[tr.cut..];
      SuffixIsSorted(tr.all, tr.cut);
      RecentIsSuffix(fails, Last(fails) - c.window);
      assert tr.all[back] == fails[back - tr.cut];
    } else {
      SortedAt(tr.all, back, |tr.all| - 1);
    }
  }

  lemma SegmentIsFar(c: Config, p: nat, l: Limiter, key: string, tr: Trail, inside: nat, clock: Time)
    requires Sensible(c) && p >= 1 && inside >= 1 && Tracks(c, p, l, key, tr, inside, clock)
    ensures |tr.all| - tr.cut >= c.maxFailures + p - 1 ==>
              clock >= tr.all[|tr.all| - (c.maxFailures + p - 1)] + c.window
  {
    if |tr.all| - tr.cut >= c.maxFailures + p - 1 {
      if key in l.lockedUntil {
        StragglersAreFar(tr.all, tr.cut, tr.late, c.maxFailures, p, c.window, clock);
      } else {
        FewAreFar(c, l, key, tr, clock);
        SortedAt(tr.all, |tr.all| - (c.maxFailures + p - 1), |tr.all| - c.maxFailures);
      }
    }
  }

  /** Over all failures: those behind a cut and those before it together. */
  lemma AllAreFar(s: seq<Time>, cut: nat, far: int, spill: int, window: Time, now: Time)
    requires far >= 1 && spill >= 1 && Sorted(s) && cut <= |s| && |s| >= far + spill - 1
    requires cut >= spill ==> s[cut - spill] + window <= now
    requires |s| - cut >= far ==> now >= s[|s| - far] + window
    ensures now >= s[|s| - (far + spill - 1)] + window
  {
    var back := |s| - (far + spill - 1);
    if |s| - cut >= far {
      SortedAt(s, back, |s| - far);
    } else {
      SortedAt(s, back, cut - spill);
    }
  }

  // ---- one move -----------------------------------------------------------------------

  lemma SpacedInSnoc(s: seq<Time>, lo: int, hi: int, max: int, window: Time, now: Time)
    requires 1 <= max <= lo && hi <= |s| && SpacedIn(s, lo, hi, max, window)
    ensures SpacedIn(s + [now], lo, hi, max, window)
    ensures hi == |s| && (|s| >= lo ==> now >= s[|s| - max] + window) ==>
              SpacedIn(s + [now], lo, hi + 1, max, window)
  {
    forall j | lo <= j < hi ensures Apart(s + [now], max, window, j) {
      assert Apart(s, max, window, j);
    }
    if hi == |s| && |s| >= lo && now >= s[|s| - max] + window {
      assert Apart(s + [now], max, window, |s|);
    }
  }

  lemma SwelledIsSpaced(c: Config, p: nat, l: Limiter, key: string, tr: Trail, inside: nat, now: Time)
    requires Sensible(c) && p >= 1 && inside >= 1 && Tracks(c, p, l, key, tr, inside, now)
    ensures Sorted(tr.all + [now]) && Spaced(tr.all + [now], OverlapMax(c, p), c.window)
  {
    SegmentIsFar(c, p, l, key, tr, inside, now);
    TrailIsFar(c, p, tr, now);
    SpacedSnoc(tr.all, OverlapMax(c, p), c.window, now);
  }

  lemma TrailIsFar(c: Config, p: nat, tr: Trail, now: Time)
    requires Sensible(c) && p >= 1 && TrailOk(c, p, tr, now)
    requires |tr.all| - tr.cut >= c.maxFailures + p - 1 ==>
               now >= tr.all[|tr.all| - (c.maxFailures + p - 1)] + c.window
    ensures |tr.all| >= OverlapMax(c, p) ==> now >= tr.all[|tr.all| - OverlapMax(c, p)] + c.window
  {
    if |tr.all| >= OverlapMax(c, p) {
      AllAreFar(tr.all, tr.cut, c.maxFailures + p - 1, Spill(c, p), c.window, now);
    }
  }

  lemma SwelledSegment(c: Config, p: nat, l: Limiter, key: string, tr: Trail, inside: nat, now: Time)
    requires Sensible(c) && p >= 1 && inside >= 1 && Tracks(c, p, l, key, tr, inside, now)
    ensures var tr' := Swelled(tr, key in l.lockedUntil, now);
            && tr'.cut + tr'.late <= |tr'.all|
            && SpacedIn(tr'.all, tr'.cut + c.maxFailures, |tr'.all| - tr'.late, c.maxFailures, c.window)
  {
    if key !in l.lockedUntil && |tr.all| >= tr.cut + c.maxFailures {
      FewAreFar(c, l, key, tr, now);
    }
    SpacedInSnoc(tr.all, tr.cut + c.maxFailures, |tr.all| - tr.late, c.maxFailures, c.window, now);
  }

  lemma SwellKeeps(c: Config, p: nat, l: Limiter, key: string, tr: Trail, inside: nat, now: Time)
    requires Sensible(c) && p >= 1 && inside >= 1 && Tracks(c, p, l, key, tr, inside, now)
    ensures TrailOk(c, p, Swelled(tr, key in l.lockedUntil, now), now)
  {
    SwelledIsSpaced(c, p, l, key, tr, inside, now);
    SwelledSegment(c, p, l, key, tr, inside, now);
  }

  /** The queue of the key after its hit. */
  lemma HitQueueShows(c: Config, l: Limiter, key: string, tr: Trail, locked: bool, now: Time)
    requires Sensible(c) && Sorted(tr.all) && tr.cut <= |tr.all| && QueueShows(c, l, key, tr, now)
    requires tr.all != [] ==> Last(tr.all) <= now
    ensures QueueShows(c, Hit(c, l, key, now), key, Swelled(tr, locked, now), now)
  {
    SuffixQueue(tr.all, tr.cut, key in l.failures, if key in l.failures then l.failures[key] else [], c.window, now);
    HitQueueIs(c, l, key, tr, locked, now);
  }

  lemma HitQueueIs(c: Config, l: Limiter, key: string, tr: Trail, locked: bool, now: Time)
    requires tr.cut <= |tr.all|
    requires Recent((if key in l.failures then l.failures[key] else []) + [now], now - c.window)
          == Recent((tr.all + [now])[tr.cut..], now - c.window)
    ensures QueueShows(c, Hit(c, l, key, now), key, Swelled(tr, locked, now), now)
  {
  }

  lemma SuffixQueue(all: seq<Time>, cut: nat, tracked: bool, queue: seq<Time>, window: Time, now: Time)
    requires window > 0 && Sorted(all) && cut <= |all| && (all != [] ==> Last(all) <= now)
    requires if tracked then cut < |all| && queue == Recent(all[cut..], Last(all) - window)
             else queue == [] && (cut < |all| ==> Last(all) + window <= now)
    ensures Recent(queue + [now], now - window) == Recent((all + [now])[cut..], now - window)
  {
    SuffixIsSorted(all, cut);
    QueueAfterHit(all[cut..], tracked, queue, window, now);
    SuffixAfterHit(all, cut, now);
  }

  lemma SuffixAfterHit(s: seq<Time>, cut: nat, now: Time)
    requires cut <= |s|
    ensures (s + [now])[cut..] == s[cut..] + [now] && Last(s + [now]) == now
  {
  }

  lemma QueueAfterHit(fails: seq<Time>, tracked: bool, queue: seq<Time>, window: Time, now: Time)
    requires window > 0 && Sorted(fails) && (fails != [] ==> Last(fails) <= now)
    requires if tracked then fails != [] && queue == Recent(fails, Last(fails) - window)
             else queue == [] && (fails != [] ==> Last(fails) + window <= now)
    ensures Recent(queue + [now], now - window) == Recent(fails + [now], now - window)
  {
    if tracked {
      RecentTwice(fails, now, Last(fails) - window, now - window);
    } else if fails != [] {
      AllOld(fails, now - window);
      RecentTwice(fails, now, now - window, now - window);
    }
  }

  /** And its lock. */
  lemma HitLockShows(c: Config, p: nat, l: Limiter, key: string, tr: Trail, inside: nat, now: Time)
    requires Sensible(c) && p >= 1 && 1 <= inside <= p && LockShows(c, p, l, key, tr, inside)
    requires Sorted(tr.all) && tr.cut <= |tr.all| && (tr.all != [] ==> Last(tr.all) <= now)
    requires QueueShows(c, Hit(c, l, key, now), key, Swelled(tr, key in l.lockedUntil, now), now)
    ensures LockShows(c, p, Hit(c, l, key, now), key, Swelled(tr, key in l.lockedUntil, now), inside - 1)
  {
    var tr' := Swelled(tr, key in l.lockedUntil, now);
    SortedSnoc(tr.all, now);
    HitRenews(c, l, key, tr', now);
    LockFollows(c, p, l, Hit(c, l, key, now), key, tr, inside, now);
  }

  /** The tables `l'` lock `key` from now on if its window is full. */
  predicate Renews(c: Config, l: Limiter, l': Limiter, key: string, full: bool, now: Time) {
    && key in l'.failures
    && if full then key in l'.lockedUntil && l'.lockedUntil[key] == now + c.lockout
       else l'.lockedUntil == l.lockedUntil && |l'.failures[key]| < c.maxFailures
  }

  lemma LockFollows(c: Config, p: nat, l: Limiter, l': Limiter, key: string, tr: Trail, inside: nat, now: Time)
    requires Sensible(c) && p >= 1 && 1 <= inside <= p && LockShows(c, p, l, key, tr, inside)
    requires Sorted(tr.all) && tr.cut <= |tr.all| && (tr.all != [] ==> Last(tr.all) <= now)
    requires var tr' := Swelled(tr, key in l.lockedUntil, now);
             Renews(c, l, l', key, Full(tr', c.maxFailures, c.window), now)
    ensures LockShows(c, p, l', key, Swelled(tr, key in l.lockedUntil, now), inside - 1)
  {
    if key in l.lockedUntil {
      StragglerLock(c, p, l.lockedUntil[key], l'.lockedUntil[key], tr, inside, now);
    } else if Full(Swelled(tr, false, now), c.maxFailures, c.window) {
      FreshLock(c, p, tr, inside, now);
    }
  }

  /** A straggler's failure extends the lock or leaves it, and is one more behind it. */
  lemma StragglerLock(c: Config, p: nat, until: Time, until': Time, tr: Trail, inside: nat, now: Time)
    requires Sensible(c) && inside >= 1 && Sorted(tr.all) && (tr.all != [] ==> Last(tr.all) <= now)
    requires LockOk(c, p, until, tr, inside) && LockRenewed(c, until, tr)
    requires until' == if Full(Swelled(tr, true, now), c.maxFailures, c.window) then now + c.lockout else until
    ensures LockOk(c, p, until', Swelled(tr, true, now), inside - 1)
    ensures LockRenewed(c, until', Swelled(tr, true, now))
  {
    SortedAt(tr.all, |tr.all| - 1 - tr.late, |tr.all| - 1);
  }

  lemma FreshLock(c: Config, p: nat, tr: Trail, inside: nat, now: Time)
    requires Sensible(c) && 1 <= inside <= p && tr.cut <= |tr.all|
    requires Full(Swelled(tr, false, now), c.maxFailures, c.window)
    ensures LockOk(c, p, now + c.lockout, Swelled(tr, false, now), inside - 1)
    ensures LockRenewed(c, now + c.lockout, Swelled(tr, false, now))
  {
  }

  /** A hit locks, from now on, exactly when it finds the window full. */
  lemma HitRenews(c: Config, l: Limiter, key: string, tr: Trail, now: Time)
    requires Sensible(c) && Sorted(tr.all) && tr.cut < |tr.all| && Last(tr.all) == now
    requires QueueShows(c, Hit(c, l, key, now), key, tr, now)
    ensures Renews(c, l, Hit(c, l, key, now), key, Full(tr, c.maxFailures, c.window), now)
  {
    SuffixIsSorted(tr.all, tr.cut);
    FullIsCounted(tr.all[tr.cut..], c.maxFailures, c.window);
  }

  /** The queue reaches the threshold exactly when the window is full. */
  lemma FullIsCounted(fails: seq<Time>, max: int, window: Time)
    requires Sorted(fails) && fails != [] && max >= 1
    ensures |Recent(fails, Last(fails) - window)| >= max
       <==> max <= |fails| && fails[|fails| - max] > Last(fails) - window
  {
    RecentIsSuffix(fails, Last(fails) - window);
  }

  lemma HitTracks(c: Config, p: nat, l: Limiter, key: string, tr: Trail, inside: nat, now: Time)
    requires Sensible(c) && p >= 1 && inside >= 1 && Tracks(c, p, l, key, tr, inside, now)
    ensures Tracks(c, p, Hit(c, l, key, now), key, Swelled(tr, key in l.lockedUntil, now), inside - 1, now)
  {
    SwellKeeps(c, p, l, key, tr, inside, now);
    HitQueueShows(c, l, key, tr, key in l.lockedUntil, now);
    HitLockShows(c, p, l, key, tr, inside, now);
  }

  /** A key that the sweep drops loses nothing that counts. */
  lemma SweptTracks(c: Config, p: nat, l: Limiter, key: string, tr: Trail, inside: nat, now: Time)
    requires Sensible(c) && c.lockout >= c.window && p >= 1 && Tracks(c, p, l, key, tr, inside, now)
    ensures Tracks(c, p, Swept(c, l, now), key,
                   if key in Stale(c, l, now) && key in l.lockedUntil then Closed(tr) else tr, inside, now)
  {
    if key in Stale(c, l, now) {
      SuffixIsSorted(tr.all, tr.cut);
      RecentKeepsLast(tr.all[tr.cut..], c.window);
      if key in l.lockedUntil {
        CloseKeeps(c, p, l.lockedUntil[key], tr, inside, now, now);
      }
    }
  }

  lemma CleanTracks(c: Config, p: nat, l: Limiter, key: string, inside: nat, now: Time)
    requires c.maxFailures >= 1 && p >= 1 && inside <= p && key !in l.failures && key !in l.lockedUntil
    ensures Tracks(c, p, l, key, CLEAN, inside, now)
  {
  }

  /** The key of another request, swept, evicted or left alone. */
  lemma RoomyTracks(c: Config, p: nat, s: Hall, key: string, now: Time, k: string)
    requires Sensible(c) && c.lockout >= c.window && p >= 1
    requires Tracks(c, p, s.l, k, TrailOf(s.trails, k), InsideOf(s.inside, k), now)
    ensures var l := if NeedsRoom(c, s.l, key) then Pruned(c, s.l, now) else s.l;
            Tracks(c, p, l, k, TrailOf(RoomyTrails(c, s.l, s.trails, key, now), k), InsideOf(s.inside, k), now)
  {
    if NeedsRoom(c, s.l, key) {
      SweptTracks(c, p, s.l, k, TrailOf(s.trails, k), InsideOf(s.inside, k), now);
      var gone := Evicted(c, Swept(c, s.l, now));
      if k in gone {
        CleanTracks(c, p, Pruned(c, s.l, now), k, InsideOf(s.inside, k), now);
      } else {
        assert Tracks(c, p, Swept(c, s.l, now), k, TrailOf(SweptTrails(c, s.l, s.trails, now), k),
                      InsideOf(s.inside, k), now) by {
          SweptTrailOf(c, s.l, s.trails, now, k);
        }
        DropOther(c, p, Swept(c, s.l, now), gone, k, TrailOf(SweptTrails(c, s.l, s.trails, now), k),
                  InsideOf(s.inside, k), now);
      }
    }
  }

  lemma SweptTrailOf(c: Config, l: Limiter, trails: map<string, Trail>, now: Time, k: string)
    ensures TrailOf(SweptTrails(c, l, trails, now), k)
         == (if k in Stale(c, l, now) && k in l.lockedUntil then Closed(TrailOf(trails, k)) else TrailOf(trails, k))
  {
  }

  lemma DropOther(c: Config, p: nat, l: Limiter, gone: set<string>, k: string, tr: Trail, inside: nat, now: Time)
    requires c.maxFailures >= 1 && p >= 1 && k !in gone && Tracks(c, p, l, k, tr, inside, now)
    ensures Tracks(c, p, Drop(l, gone), k, tr, inside, now)
  {
  }

  lemma EnterKeeps(c: Config, p: nat, s: Hall, key: string, now: Time, k: string)
    requires Sensible(c) && c.lockout >= c.window && p >= 1
    requires Tracks(c, p, s.l, k, TrailOf(s.trails, k), InsideOf(s.inside, k), now)
    requires Wait(s.l, key, now) == 0 && InsideOf(s.inside, key) < p
    ensures var s' := Entered(s, key, now);
            Tracks(c, p, s'.l, k, TrailOf(s'.trails, k), InsideOf(s'.inside, k), now)
  {
    var tr := TrailOf(s.trails, k);
    if k != key {
      if key in s.l.lockedUntil {
        DropOther(c, p, s.l, {key}, k, tr, InsideOf(s.inside, k), now);
      }
    } else if key in s.l.lockedUntil {
      CloseKeeps(c, p, s.l.lockedUntil[key], tr, InsideOf(s.inside, k), now, now);
    }
  }

  lemma RecordKeeps(c: Config, p: nat, s: Hall, key: string, now: Time, k: string)
    requires Sensible(c) && c.lockout >= c.window && p >= 1 && Sound(c, s.l, now)
    requires Tracks(c, p, s.l, k, TrailOf(s.trails, k), InsideOf(s.inside, k), now)
    requires InsideOf(s.inside, key) > 0
    ensures var s' := Moved(c, s, p, Record(key, now));
            Tracks(c, p, s'.l, k, TrailOf(s'.trails, k), InsideOf(s'.inside, k), now)
  {
    var roomy := if NeedsRoom(c, s.l, key) then Pruned(c, s.l, now) else s.l;
    var tr := TrailOf(RoomyTrails(c, s.l, s.trails, key, now), k);
    RoomyTracks(c, p, s, key, now, k);
    UnlockedIfUntracked(c, s.l, key, now);
    HitKeeps(c, p, roomy, key, k, tr, InsideOf(s.inside, k), now);
    RecordTrail(c, s, p, key, now, k);
  }

  lemma HitKeeps(c: Config, p: nat, l: Limiter, key: string, k: string, tr: Trail, inside: nat, now: Time)
    requires Sensible(c) && p >= 1 && Tracks(c, p, l, k, tr, inside, now) && (k == key ==> inside > 0)
    ensures Tracks(c, p, Hit(c, l, key, now), k,
                   if k == key then Swelled(tr, key in l.lockedUntil, now) else tr,
                   if k == key then inside - 1 else inside, now)
  {
    if k == key {
      HitTracks(c, p, l, key, tr, inside, now);
    } else {
      HitOther(c, p, l, key, k, tr, inside, now);
    }
  }

  lemma RecordTrail(c: Config, s: Hall, p: nat, key: string, now: Time, k: string)
    requires InsideOf(s.inside, key) > 0
    ensures var s' := Moved(c, s, p, Record(key, now));
            var tr := TrailOf(RoomyTrails(c, s.l, s.trails, key, now), k);
            && s'.l == Hit(c, if NeedsRoom(c, s.l, key) then Pruned(c, s.l, now) else s.l, key, now)
            && TrailOf(s'.trails, k) == (if k == key then Swelled(tr, key in s.l.lockedUntil, now) else tr)
            && InsideOf(s'.inside, k) == if k == key then InsideOf(s.inside, k) - 1 else InsideOf(s.inside, k)
  {
  }

  lemma HitOther(c: Config, p: nat, l: Limiter, key: string, k: string, tr: Trail, inside: nat, now: Time)
    requires c.maxFailures >= 1 && p >= 1 && k != key && Tracks(c, p, l, k, tr, inside, now)
    ensures Tracks(c, p, Hit(c, l, key, now), k, tr, inside, now)
  {
  }

  lemma UnlockedIfUntracked(c: Config, l: Limiter, key: string, now: Time)
    requires Sound(c, l, now)
    ensures var roomy := if NeedsRoom(c, l, key) then Pruned(c, l, now) else l;
            key in roomy.lockedUntil <==> key in l.lockedUntil
  {
  }

  lemma LeaveKeeps(c: Config, p: nat, s: Hall, key: string, now: Time, clears: bool, k: string)
    requires Sensible(c) && p >= 1 && InsideOf(s.inside, key) > 0
    requires Tracks(c, p, s.l, k, TrailOf(s.trails, k), InsideOf(s.inside, k), now)
    ensures var s' := Moved(c, s, p, Leave(key, now, clears));
            Tracks(c, p, s'.l, k, TrailOf(s'.trails, k), InsideOf(s'.inside, k), now)
  {
    if clears {
      if k == key {
        CleanTracks(c, p, Drop(s.l, {key}), k, InsideOf(s.inside, k) - 1, now);
      } else {
        DropOther(c, p, s.l, {key}, k, TrailOf(s.trails, k), InsideOf(s.inside, k), now);
      }
    }
  }

  lemma MoveSound(c: Config, p: nat, s: Hall, clock: Time, move: Move)
    requires Sensible(c) && clock <= move.now && Sound(c, s.l, clock) && Allowed(s, p, move)
    ensures Sound(c, Moved(c, s, p, move).l, move.now)
  {
    LaterSound(c, s.l, clock, move.now);
    match move
    case Gate(key, now) => ProbeSound(c, s.l, key, clock, now);
    case Record(key, now) => RecordSound(c, s.l, key, clock, now);
    case Leave(key, now, _) => DropSound(c, s.l, {key}, now);
  }

  lemma MoveTracks(c: Config, p: nat, s: Hall, move: Move, k: string)
    requires Sensible(c) && c.lockout >= c.window && p >= 1 && Allowed(s, p, move) && Sound(c, s.l, move.now)
    requires Tracks(c, p, s.l, k, TrailOf(s.trails, k), InsideOf(s.inside, k), move.now)
    ensures var s' := Moved(c, s, p, move);
            Tracks(c, p, s'.l, k, TrailOf(s'.trails, k), InsideOf(s'.inside, k), move.now)
  {
    match move
    case Gate(key, now) =>
      if Wait(s.l, key, now) == 0 {
        EnterKeeps(c, p, s, key, now, k);
      }
    case Record(key, now) => RecordKeeps(c, p, s, key, now, k);
    case Leave(key, now, clears) => LeaveKeeps(c, p, s, key, now, clears, k);
  }

  lemma MoveKeeps(c: Config, p: nat, s: Hall, clock: Time, move: Move)
    requires Sensible(c) && c.lockout >= c.window && p >= 1 && clock <= move.now
    requires Inv(c, p, s, clock) && Allowed(s, p, move)
    ensures Inv(c, p, Moved(c, s, p, move), move.now)
  {
    var s' := Moved(c, s, p, move);
    LaterSound(c, s.l, clock, move.now);
    MoveSound(c, p, s, clock, move);
    forall k ensures Tracks(c, p, s'.l, k, TrailOf(s'.trails, k), InsideOf(s'.inside, k), move.now) {
      TracksLater(c, p, s.l, k, TrailOf(s.trails, k), InsideOf(s.inside, k), clock, move.now);
      MoveTracks(c, p, s, move, k);
    }
  }

  // ---- every run ---------------------------------------------------------------------------

  predicate Orderly(c: Config, p: nat, s: Hall, clock: Time, moves: seq<Move>)
    decreases |moves|
  {
    moves != [] ==>
      && clock <= moves[0].now && Allowed(s, p, moves[0])
      && Orderly(c, p, Moved(c, s, p, moves[0]), moves[0].now, moves[1..])
  }

  function After(c: Config, p: nat, s: Hall, clock: Time, moves: seq<Move>): Hall
    requires Orderly(c, p, s, clock, moves)
    decreases |moves|
  {
    if moves == [] then s else After(c, p, Moved(c, s, p, moves[0]), moves[0].now, moves[1..])
  }

  function EndTime(clock: Time, moves: seq<Move>): Time
    decreases |moves|
  {
    if moves == [] then clock else EndTime(moves[0].now, moves[1..])
  }

  lemma {:induction false} RunKeeps(c: Config, p: nat, s: Hall, clock: Time, moves: seq<Move>)
    requires Sensible(c) && c.lockout >= c.window && p >= 1
    requires Inv(c, p, s, clock) && Orderly(c, p, s, clock, moves)
    ensures Inv(c, p, After(c, p, s, clock, moves), EndTime(clock, moves))
    decreases |moves|
  {
    if moves != [] {
      MoveKeeps(c, p, s, clock, moves[0]);
      RunKeeps(c, p, Moved(c, s, p, moves[0]), moves[0].now, moves[1..]);
    }
  }

  /** The failures of `key` that a run of moves records, since it was last forgotten. */
  function RecordedBy(c: Config, p: nat, moves: seq<Move>, key: string): seq<Time>
    requires Orderly(c, p, VACANT, 0, moves)
  {
    TrailOf(After(c, p, VACANT, 0, moves).trails, key).all
  }

  lemma OverlappingIsSpaced(c: Config, p: nat, moves: seq<Move>, key: string)
    requires Sensible(c) && c.lockout >= c.window && p >= 1 && Orderly(c, p, VACANT, 0, moves)
    ensures var recorded := RecordedBy(c, p, moves, key);
            Sorted(recorded) && Spaced(recorded, OverlapMax(c, p), c.window)
  {
    VacantKeeps(c, p);
    RunKeeps(c, p, VACANT, 0, moves);
    var s := After(c, p, VACANT, 0, moves);
    TracksSpaced(c, p, s.l, key, TrailOf(s.trails, key), InsideOf(s.inside, key), EndTime(0, moves));
  }

  lemma TracksSpaced(c: Config, p: nat, l: Limiter, key: string, tr: Trail, inside: nat, clock: Time)
    requires c.maxFailures >= 1 && p >= 1 && Tracks(c, p, l, key, tr, inside, clock)
    ensures Sorted(tr.all) && Spaced(tr.all, OverlapMax(c, p), c.window)
  {
  }

  /** The rate bound for overlapping requests: with at most `p` requests of a key at
      a time between gate and end, no window holds more than
      `OverlapMax(c, p)` recorded failures of it, and no span more than that many for
      each window it starts. With `p == 1` it is the serial bound. */
  lemma OverlappingRateIsBounded(c: Config, p: nat, moves: seq<Move>, key: string, from: Time, span: Time)
    requires Sensible(c) && c.lockout >= c.window && p >= 1 && span >= 0 && Orderly(c, p, VACANT, 0, moves)
    ensures var recorded := RecordedBy(c, p, moves, key);
            && CountIn(recorded, from, from + c.window) <= OverlapMax(c, p)
            && CountIn(recorded, from, from + span) <= OverlapMax(c, p) * (span / c.window + 1)
  {
    OverlappingIsSpaced(c, p, moves, key);
    SpacedRate(RecordedBy(c, p, moves, key), OverlapMax(c, p), c.window, from, span);
  }

  lemma VacantKeeps(c: Config, p: nat)
    requires Sensible(c) && p >= 1
    ensures Inv(c, p, VACANT, 0)
  {
    forall key ensures Tracks(c, p, VACANT.l, key, TrailOf(VACANT.trails, key), InsideOf(VACANT.inside, key), 0) {
      CleanTracks(c, p, NOTHING, key, 0, 0);
    }
  }
}
