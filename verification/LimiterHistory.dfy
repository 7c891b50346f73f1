/** The limiter explained by the plain history of each key, under the callers'
    order: a failure is recorded only after `retry_after` answered 0.

    A key's history holds every failure recorded since the key was last cleared,
    reset or evicted. Sweeps, and the lazy forgetting of an expired lock, are
    not part of it: they turn out to change no verdict. */
module LimiterHistory {
  import opened Clock
  import opened LimiterModel

  /** `fails` are the failures since the last lock ran out, `before` the older ones. */
  datatype Past = Past(before: seq<Time>, fails: seq<Time>)

  const BLANK := Past([], [])

  /** The last failure brought its window to the threshold. */
  predicate Earned(c: Config, fails: seq<Time>) {
    fails != [] && |Recent(fails, Last(fails) - c.window)| >= c.maxFailures
  }

  /** What `retry_after` has to answer, from the history alone. */
  function Verdict(c: Config, p: Past, now: Time): int {
    if Earned(c, p.fails) && now < Last(p.fails) + c.lockout then CeilSeconds(Last(p.fails) + c.lockout - now) else 0
  }

  /** One more failure; it starts a new count when the previous one earned a lock. */
  function Failed(c: Config, p: Past, now: Time): Past {
    if Earned(c, p.fails) then Past(p.before + p.fails, [now]) else Past(p.before, p.fails + [now])
  }

  /** What a request handler does with one limiter. */
  datatype Call =
    | Probe(key: string, gate: Time)             // gate only
    | Fail(key: string, gate: Time, at: Time)    // gate, then record a failure if it let the caller in
    | Forget(key: string, gate: Time)            // clear after a success
    | ForgetAll(gate: Time)

  function LimiterStep(c: Config, l: Limiter, call: Call): Limiter {
    match call
    case Probe(key, gate) => Probed(l, key, gate)
    case Fail(key, gate, at) =>
      if Wait(l, key, gate) != 0 then Probed(l, key, gate) else Recorded(c, Probed(l, key, gate), key, at)
    case Forget(key, _) => Drop(l, {key})
    case ForgetAll(_) => NOTHING
  }

  type History = map<string, Past>

  function PastOf(h: History, key: string): Past {
    if key in h then h[key] else BLANK
  }

  /** The history after a call; `evicted` is the key that the call pushed out, if any. */
  function HistoryStep(c: Config, h: History, call: Call, evicted: set<string>): History {
    match call
    case Probe(_, _) => h
    case Fail(key, gate, at) =>
      if Verdict(c, PastOf(h, key), gate) != 0 then h
      else (h - evicted)[key := Failed(c, PastOf(h, key), at)]
    case Forget(key, _) => h - {key}
    case ForgetAll(_) => map[]
  }

  function EvictedIn(c: Config, l: Limiter, call: Call): set<string> {
    if call.Fail? && Wait(l, call.key, call.gate) == 0
    then EvictedBy(c, Probed(l, call.key, call.gate), call.key, call.at)
    else {}
  }

  predicate InTime(clock: Time, call: Call) {
    clock <= call.gate && (call.Fail? ==> call.gate <= call.at)
  }

  function EndOf(call: Call): Time {
    if call.Fail? then call.at else call.gate
  }

  // ---- the tables represent the history -------------------------------------------

  /** A tracked key shows its window; an untracked one has nothing that matters. */
  ghost predicate Shows(c: Config, l: Limiter, key: string, p: Past, clock: Time) {
    && Sorted(p.fails) && (p.fails != [] ==> Last(p.fails) <= clock)
    && (if key in l.failures then
          && p.fails != [] && l.failures[key] == Recent(p.fails, Last(p.fails) - c.window)
          && (key in l.lockedUntil <==> Earned(c, p.fails))
          && (key in l.lockedUntil ==> l.lockedUntil[key] == Last(p.fails) + c.lockout)
        else
          && key !in l.lockedUntil
          && (p.fails != [] ==> Last(p.fails) + (if Earned(c, p.fails) then c.lockout else c.window) <= clock))
  }

  ghost predicate Represents(c: Config, l: Limiter, h: History, clock: Time) {
    forall key :: Shows(c, l, key, PastOf(h, key), clock)
  }

  /** How long the last failure of the history still locks the key out. */
  function SpanLeft(c: Config, p: Past, now: Time): Time {
    if Earned(c, p.fails) then Last(p.fails) + c.lockout - now else 0
  }

  /** The answer of `retry_after`, for every key at every later moment, is the
      verdict of the history: the whole seconds, rounded up, until a lockout has
      passed since the failure that earned it. */
  lemma VerdictIsHistory(c: Config, l: Limiter, h: History, clock: Time, key: string, now: Time)
    requires Represents(c, l, h, clock) && clock <= now
    ensures Wait(l, key, now) == Verdict(c, PastOf(h, key), now)
    ensures Covers(Wait(l, key, now), SpanLeft(c, PastOf(h, key), now))
  {
    WaitCovers(l, key, now);
    assert Shows(c, l, key, PastOf(h, key), clock);
  }

  lemma ProbeShows(c: Config, l: Limiter, h: History, clock: Time, key: string, now: Time)
    requires Represents(c, l, h, clock) && clock <= now
    ensures Represents(c, Probed(l, key, now), h, now)
  {
    forall k ensures Shows(c, Probed(l, key, now), k, PastOf(h, k), now) {
      assert Shows(c, l, k, PastOf(h, k), clock);
    }
  }

  /** The expiry sweep forgets only what can no longer matter. */
  lemma SweepShows(c: Config, l: Limiter, h: History, now: Time)
    requires Sensible(c) && Represents(c, l, h, now)
    ensures Represents(c, Swept(c, l, now), h, now)
  {
    forall k ensures Shows(c, Swept(c, l, now), k, PastOf(h, k), now) {
      var p := PastOf(h, k);
      assert Shows(c, l, k, p, now);
      if k in l.failures {
        RecentKeepsLast(p.fails, c.window);
      }
    }
  }

  lemma RecentKeepsLast(s: seq<Time>, window: Time)
    requires Sorted(s) && s != [] && window > 0
    ensures Recent(s, Last(s) - window) != [] && Last(Recent(s, Last(s) - window)) == Last(s)
  {
    RecentIsSuffix(s, Last(s) - window);
  }

  lemma DropShows(c: Config, l: Limiter, h: History, clock: Time, gone: set<string>)
    requires Represents(c, l, h, clock)
    ensures Represents(c, Drop(l, gone), h - gone, clock)
  {
    forall k ensures Shows(c, Drop(l, gone), k, PastOf(h - gone, k), clock) {
      assert Shows(c, l, k, PastOf(h, k), clock);
    }
  }

  lemma LaterShows(c: Config, l: Limiter, h: History, clock: Time, now: Time)
    requires Represents(c, l, h, clock) && clock <= now
    ensures Represents(c, l, h, now)
  {
    forall k ensures Shows(c, l, k, PastOf(h, k), now) {
      assert Shows(c, l, k, PastOf(h, k), clock);
    }
  }

  lemma HitShowsKey(c: Config, l: Limiter, p: Past, key: string, now: Time)
    requires Sensible(c) && Shows(c, l, key, p, now) && key !in l.lockedUntil
    ensures Shows(c, Hit(c, l, key, now), key, Failed(c, p, now), now)
  {
    var queue := if key in l.failures then l.failures[key] else [];
    var fails' := Failed(c, p, now).fails;
    assert Sorted(fails') && fails' != [] && Last(fails') == now by {
      FailedIsSorted(c, p, now);
    }
    assert Recent(queue + [now], now - c.window) == Recent(fails', now - c.window) by {
      if key in l.failures {
        RecentKeepsLast(p.fails, c.window);
      }
      HitWindow(c, p.fails, now, queue);
    }
    HitIs(c, l, key, now, queue, Recent(fails', now - c.window));
  }

  lemma FailedIsSorted(c: Config, p: Past, now: Time)
    requires Sorted(p.fails) && (p.fails != [] ==> Last(p.fails) <= now)
    ensures var fails' := Failed(c, p, now).fails; Sorted(fails') && fails' != [] && Last(fails') == now
  {
  }

  lemma HitIs(c: Config, l: Limiter, key: string, now: Time, queue: seq<Time>, kept: seq<Time>)
    requires queue == if key in l.failures then l.failures[key] else []
    requires kept == Recent(queue + [now], now - c.window) && key !in l.lockedUntil
    ensures var l' := Hit(c, l, key, now);
            && key in l'.failures && l'.failures[key] == kept
            && (key in l'.lockedUntil <==> |kept| >= c.maxFailures)
            && (key in l'.lockedUntil ==> l'.lockedUntil[key] == now + c.lockout)
  {
  }

  /** Recording a failure of an unlocked key. */
  lemma HitShows(c: Config, l: Limiter, h: History, key: string, now: Time)
    requires Sensible(c) && Represents(c, l, h, now) && key !in l.lockedUntil
    ensures Represents(c, Hit(c, l, key, now), h[key := Failed(c, PastOf(h, key), now)], now)
  {
    var h' := h[key := Failed(c, PastOf(h, key), now)];
    var l' := Hit(c, l, key, now);
    forall k ensures Shows(c, l', k, PastOf(h', k), now) {
      assert Shows(c, l, k, PastOf(h, k), now);
      if k == key {
        HitShowsKey(c, l, PastOf(h, key), key, now);
      }
    }
  }

  /** The queue of a key just hit is the window of its new history. */
  lemma HitWindow(c: Config, fails: seq<Time>, now: Time, queue: seq<Time>)
    requires Sensible(c) && Sorted(fails) && (fails != [] ==> Last(fails) <= now)
    requires queue != [] ==> fails != [] && queue == Recent(fails, Last(fails) - c.window) && !Earned(c, fails)
    requires queue == [] && fails != [] ==> Last(fails) + (if Earned(c, fails) then c.lockout else c.window) <= now
    ensures Recent(queue + [now], now - c.window)
         == Recent(if Earned(c, fails) then [now] else fails + [now], now - c.window)
  {
    if queue != [] {
      RecentTwice(fails, now, Last(fails) - c.window, now - c.window);
    } else if fails != [] && !Earned(c, fails) {
      AllOld(fails, now - c.window);
      RecentTwice(fails, now, now - c.window, now - c.window);
    }
  }

  lemma AllOld(s: seq<Time>, cutoff: Time)
    requires Sorted(s) && s != [] && Last(s) <= cutoff
    ensures Recent(s, cutoff) == []
  {
    RecentIsSuffix(s, cutoff);
  }

  lemma RecordShows(c: Config, l: Limiter, h: History, key: string, now: Time)
    requires Sensible(c) && Sound(c, l, now) && Represents(c, l, h, now) && key !in l.lockedUntil
    ensures Represents(c, Recorded(c, l, key, now),
                       (h - EvictedBy(c, l, key, now))[key := Failed(c, PastOf(h, key), now)], now)
  {
    var gone := EvictedBy(c, l, key, now);
    var roomy := if NeedsRoom(c, l, key) then Pruned(c, l, now) else l;
    if NeedsRoom(c, l, key) {
      SweepShows(c, l, h, now);
      DropShows(c, Swept(c, l, now), h, now, gone);
      NotEvictedItself(c, l, key, now);
    } else {
      assert h - gone == h;
    }
    HitShows(c, roomy, h - gone, key, now);
  }

  lemma NotEvictedItself(c: Config, l: Limiter, key: string, now: Time)
    requires Sound(c, l, now) && NeedsRoom(c, l, key)
    ensures key !in EvictedBy(c, l, key, now)
    ensures key !in l.lockedUntil ==> key !in Pruned(c, l, now).lockedUntil
  {
    DropSound(c, l, Stale(c, l, now), now);
  }

  /** Every call, in the callers' order, keeps the tables faithful to the history. */
  lemma StepShows(c: Config, l: Limiter, h: History, clock: Time, call: Call)
    requires Sensible(c) && Sound(c, l, clock) && Represents(c, l, h, clock) && InTime(clock, call)
    ensures Represents(c, LimiterStep(c, l, call), HistoryStep(c, h, call, EvictedIn(c, l, call)), EndOf(call))
  {
    match call
    case Probe(key, gate) => ProbeShows(c, l, h, clock, key, gate);
    case Forget(key, gate) => LaterShows(c, l, h, clock, gate); DropShows(c, l, h, gate, {key});
    case ForgetAll(gate) =>
    case Fail(key, gate, at) =>
      VerdictIsHistory(c, l, h, clock, key, gate);
      ProbeShows(c, l, h, clock, key, gate);
      LaterShows(c, Probed(l, key, gate), h, gate, at);
      if Wait(l, key, gate) == 0 {
        ZeroMeansUnlocked(l, key, gate);
        ProbeSound(c, l, key, clock, gate);
        LaterSound(c, Probed(l, key, gate), gate, at);
        RecordShows(c, Probed(l, key, gate), h, key, at);
      }
  }

  lemma ZeroMeansUnlocked(l: Limiter, key: string, now: Time)
    requires Wait(l, key, now) == 0
    ensures key !in Probed(l, key, now).lockedUntil
  {
  }
}
