/** What the limiter guarantees over any run of gated calls: its answers are
    those of the plain history, its tables stay small, and no key records
    failures faster than the configured rate. */
module LimiterRate {
  import opened Clock
  import opened LimiterModel
  import opened LimiterHistory

  // ---- runs --------------------------------------------------------------------

  datatype Tracked = Tracked(l: Limiter, h: History)

  const START := Tracked(NOTHING, map[])

  function TrackedStep(c: Config, tr: Tracked, call: Call): Tracked {
    Tracked(LimiterStep(c, tr.l, call), HistoryStep(c, tr.h, call, EvictedIn(c, tr.l, call)))
  }

  function TrackedRun(c: Config, tr: Tracked, calls: seq<Call>): Tracked
    decreases |calls|
  {
    if calls == [] then tr else TrackedRun(c, TrackedStep(c, tr, calls[0]), calls[1..])
  }

  predicate RunInTime(clock: Time, calls: seq<Call>)
    decreases |calls|
  {
    calls == [] || (InTime(clock, calls[0]) && RunInTime(EndOf(calls[0]), calls[1..]))
  }

  function RunEnd(clock: Time, calls: seq<Call>): Time
    decreases |calls|
  {
    if calls == [] then clock else RunEnd(EndOf(calls[0]), calls[1..])
  }

  ghost predicate Faithful(c: Config, tr: Tracked, clock: Time) {
    Sound(c, tr.l, clock) && Represents(c, tr.l, tr.h, clock)
  }

  lemma StepFaithful(c: Config, tr: Tracked, clock: Time, call: Call)
    requires Sensible(c) && Faithful(c, tr, clock) && InTime(clock, call)
    ensures Faithful(c, TrackedStep(c, tr, call), EndOf(call))
  {
    StepShows(c, tr.l, tr.h, clock, call);
    match call
    case Probe(key, gate) => ProbeSound(c, tr.l, key, clock, gate);
    case Forget(key, gate) => LaterSound(c, tr.l, clock, gate); DropSound(c, tr.l, {key}, gate);
    case ForgetAll(_) =>
    case Fail(key, gate, at) =>
      ProbeSound(c, tr.l, key, clock, gate);
      LaterSound(c, Probed(tr.l, key, gate), gate, at);
      RecordSound(c, Probed(tr.l, key, gate), key, gate, at);
  }

  lemma {:induction false} RunFaithful(c: Config, tr: Tracked, clock: Time, calls: seq<Call>)
    requires Sensible(c) && Faithful(c, tr, clock) && RunInTime(clock, calls)
    ensures Faithful(c, TrackedRun(c, tr, calls), RunEnd(clock, calls))
    decreases |calls|
  {
    if calls != [] {
      StepFaithful(c, tr, clock, calls[0]);
      RunFaithful(c, TrackedStep(c, tr, calls[0]), EndOf(calls[0]), calls[1..]);
    }
  }

  /** After any run, every key at every later moment gets the answer of its
      history: sweeping and lazy unlocking are invisible. */
  lemma AnswersAreHistory(c: Config, calls: seq<Call>, key: string, now: Time)
    requires Sensible(c) && RunInTime(0, calls) && RunEnd(0, calls) <= now
    ensures var tr := TrackedRun(c, START, calls);
            && Wait(tr.l, key, now) == Verdict(c, PastOf(tr.h, key), now)
            && Covers(Wait(tr.l, key, now), SpanLeft(c, PastOf(tr.h, key), now))
  {
    RunFaithful(c, START, 0, calls);
    var tr := TrackedRun(c, START, calls);
    VerdictIsHistory(c, tr.l, tr.h, RunEnd(0, calls), key, now);
  }

  /** The answer is a promise and an exact one: a caller that waits so many whole seconds,
      while nothing else is recorded, is let in, and one that waits fewer is not. */
  lemma WaitIsExact(c: Config, calls: seq<Call>, key: string, now: Time, n: nat)
    requires Sensible(c) && RunInTime(0, calls) && RunEnd(0, calls) <= now
    ensures var l := TrackedRun(c, START, calls).l;
            Wait(l, key, now + n * SECOND) == 0 <==> n >= Wait(l, key, now)
  {
    var tr := TrackedRun(c, START, calls);
    AnswersAreHistory(c, calls, key, now);
    AnswersAreHistory(c, calls, key, now + n * SECOND);
    ShorterSpan(Wait(tr.l, key, now), SpanLeft(c, PastOf(tr.h, key), now), n);
  }

  lemma ShorterSpan(wait: int, span: Time, n: nat)
    requires Covers(wait, span)
    ensures span - n * SECOND <= 0 <==> n >= wait
  {
    if n < wait {
      assert n * SECOND <= (wait - 1) * SECOND;
    } else if span > 0 {
      assert n * SECOND >= wait * SECOND;
    }
  }

  /** Memory stays bounded, whatever keys turn up. */
  lemma TablesStayBounded(c: Config, calls: seq<Call>)
    requires Sensible(c) && RunInTime(0, calls)
    ensures var l := TrackedRun(c, START, calls).l;
            && |l.failures| <= c.maxKeys && l.lockedUntil.Keys <= l.failures.Keys
  {
    RunFaithful(c, START, 0, calls);
  }

  // ---- the rate --------------------------------------------------------------------

  function All(p: Past): seq<Time> {
    p.before + p.fails
  }

  /** The failures of `key` recorded by a run of calls, since it was last forgotten. */
  function RecordedIn(c: Config, calls: seq<Call>, key: string): seq<Time> {
    All(PastOf(TrackedRun(c, START, calls).h, key))
  }

  /** Any `maxFailures + 1` consecutive failures take at least one window. */
  predicate Spaced(s: seq<Time>, max: int, window: Time)
    requires max >= 1
  {
    forall j :: max <= j < |s| ==> Apart(s, max, window, j)
  }

  predicate Apart(s: seq<Time>, max: int, window: Time, j: int)
    requires 1 <= max <= j < |s|
  {
    s[j] >= s[j - max] + window
  }

  predicate Spread(c: Config, p: Past)
    requires c.maxFailures >= 1
  {
    && Sorted(All(p)) && Spaced(All(p), c.maxFailures, c.window)
    && (p.before != [] ==> p.fails != []) && Gap(p.before, p.fails, c.window)
  }

  /** Everything in `later` is a window after everything in `earlier`. */
  predicate Gap(earlier: seq<Time>, later: seq<Time>, window: Time) {
    forall i, j :: 0 <= i < |earlier| && 0 <= j < |later| ==> later[j] >= earlier[i] + window
  }

  lemma SpacedSnoc(s: seq<Time>, max: int, window: Time, now: Time)
    requires max >= 1 && Sorted(s) && Spaced(s, max, window) && (s != [] ==> Last(s) <= now)
    requires |s| >= max ==> now >= s[|s| - max] + window
    ensures Sorted(s + [now]) && Spaced(s + [now], max, window)
  {
    forall j | max <= j < |s + [now]| ensures Apart(s + [now], max, window, j) {
      assert j < |s| ==> Apart(s, max, window, j);
    }
  }

  lemma FailsAreSorted(p: Past)
    requires Sorted(All(p))
    ensures Sorted(p.fails)
    ensures p.fails != [] ==> Last(p.fails) == Last(All(p))
    ensures forall i :: 0 <= i < |p.fails| ==> All(p)[|p.before| + i] == p.fails[i]
    ensures forall i :: 0 <= i < |p.before| ==> All(p)[i] == p.before[i]
  {
    forall i, j | 0 <= i < j < |p.fails| ensures p.fails[i] <= p.fails[j] {
      assert All(p)[|p.before| + i] <= All(p)[|p.before| + j];
    }
  }

  /** After a lock every older failure is at least a lockout, so a window, away. */
  lemma EarnedSpread(c: Config, p: Past, now: Time)
    requires Sensible(c) && c.lockout >= c.window && Spread(c, p)
    requires Earned(c, p.fails) && Last(p.fails) + c.lockout <= now
    ensures Spread(c, Past(All(p), [now])) && All(Past(All(p), [now])) == All(p) + [now]
  {
    var all := All(p);
    FailsAreSorted(p);
    LockoutIsGap(all, now, c.window);
    SpacedSnoc(all, c.maxFailures, c.window, now);
  }

  lemma LockoutIsGap(all: seq<Time>, now: Time, window: Time)
    requires Sorted(all) && all != [] && Last(all) + window <= now && window >= 0
    ensures Gap(all, [now], window) && forall i :: 0 <= i < |all| ==> now >= all[i] + window
  {
    forall i | 0 <= i < |all| ensures now >= all[i] + window {
      assert all[i] <= all[|all| - 1];
    }
  }

  /** Below the threshold, the failure `maxFailures` back is a window old. */
  lemma UnearnedIsOld(c: Config, fails: seq<Time>)
    requires Sensible(c) && Sorted(fails) && fails != [] && !Earned(c, fails)
    ensures |fails| >= c.maxFailures ==> fails[|fails| - c.maxFailures] <= Last(fails) - c.window
  {
    RecentIsSuffix(fails, Last(fails) - c.window);
  }

  lemma UnearnedHasRoom(c: Config, p: Past, now: Time)
    requires Sensible(c) && Sorted(All(p)) && Gap(p.before, p.fails, c.window) && (p.before != [] ==> p.fails != [])
    requires !Earned(c, p.fails) && (All(p) != [] ==> Last(All(p)) <= now)
    ensures |All(p)| >= c.maxFailures ==> now >= All(p)[|All(p)| - c.maxFailures] + c.window
  {
    var all, i := All(p), |All(p)| - c.maxFailures;
    FailsAreSorted(p);
    GapGrows(p.before, p.fails, c.window, now);
    if i >= 0 {
      if i >= |p.before| {
        UnearnedIsOld(c, p.fails);
        assert all[i] == p.fails[|p.fails| - c.maxFailures];
      } else {
        assert all[i] == p.before[i];
      }
    }
  }

  lemma UnearnedSpread(c: Config, p: Past, now: Time)
    requires Sensible(c) && Spread(c, p) && !Earned(c, p.fails)
    requires All(p) != [] ==> Last(All(p)) <= now
    ensures Spread(c, Past(p.before, p.fails + [now])) && All(Past(p.before, p.fails + [now])) == All(p) + [now]
  {
    assert All(Past(p.before, p.fails + [now])) == All(p) + [now];
    UnearnedHasRoom(c, p, now);
    SpacedSnoc(All(p), c.maxFailures, c.window, now);
    FailsAreSorted(p);
    GapGrows(p.before, p.fails, c.window, now);
  }

  lemma GapGrows(before: seq<Time>, fails: seq<Time>, window: Time, now: Time)
    requires Gap(before, fails, window) && (before != [] ==> fails != []) && (fails != [] ==> Last(fails) <= now)
    ensures Gap(before, fails + [now], window)
    ensures forall i :: 0 <= i < |before| ==> now >= before[i] + window
  {
    forall i | 0 <= i < |before| ensures now >= before[i] + window {
      assert fails[|fails| - 1] >= before[i] + window;
    }
  }

  /** A failure accepted while no lock is in force keeps the spacing. */
  lemma FailedSpread(c: Config, p: Past, now: Time)
    requires Sensible(c) && c.lockout >= c.window && Spread(c, p)
    requires All(p) != [] ==> Last(All(p)) <= now
    requires Earned(c, p.fails) ==> Last(p.fails) + c.lockout <= now
    ensures Spread(c, Failed(c, p, now)) && All(Failed(c, p, now)) == All(p) + [now]
  {
    if Earned(c, p.fails) {
      EarnedSpread(c, p, now);
    } else {
      UnearnedSpread(c, p, now);
    }
  }

  predicate SpreadBy(c: Config, p: Past, clock: Time)
    requires c.maxFailures >= 1
  {
    Spread(c, p) && (All(p) != [] ==> Last(All(p)) <= clock)
  }

  ghost predicate AllSpread(c: Config, h: History, clock: Time)
    requires c.maxFailures >= 1
  {
    forall key :: SpreadBy(c, PastOf(h, key), clock)
  }

  lemma AcceptedSpread(c: Config, p: Past, clock: Time, gate: Time, at: Time)
    requires Sensible(c) && c.lockout >= c.window && SpreadBy(c, p, clock) && clock <= gate <= at
    requires Verdict(c, p, gate) == 0
    ensures SpreadBy(c, Failed(c, p, at), at)
  {
    ZeroVerdict(c, p, gate);
    FailedSpread(c, p, at);
  }

  lemma KeySpread(c: Config, h: History, clock: Time, call: Call, gone: set<string>, key: string)
    requires Sensible(c) && c.lockout >= c.window && InTime(clock, call)
    requires SpreadBy(c, PastOf(h, key), clock)
    ensures SpreadBy(c, PastOf(HistoryStep(c, h, call, gone), key), EndOf(call))
  {
    var p := PastOf(h, key);
    assert SpreadBy(c, p, EndOf(call)) && SpreadBy(c, BLANK, EndOf(call));
    if call.Fail? && call.key == key && Verdict(c, p, call.gate) == 0 {
      AcceptedSpread(c, p, clock, call.gate, call.at);
    } else {
      var p' := PastOf(HistoryStep(c, h, call, gone), key);
      assert p' == p || p' == BLANK;
    }
  }

  lemma HistorySpread(c: Config, h: History, clock: Time, call: Call, gone: set<string>)
    requires Sensible(c) && c.lockout >= c.window && AllSpread(c, h, clock) && InTime(clock, call)
    ensures AllSpread(c, HistoryStep(c, h, call, gone), EndOf(call))
  {
    forall key ensures SpreadBy(c, PastOf(HistoryStep(c, h, call, gone), key), EndOf(call)) {
      assert SpreadBy(c, PastOf(h, key), clock);
      KeySpread(c, h, clock, call, gone, key);
    }
  }

  lemma ZeroVerdict(c: Config, p: Past, now: Time)
    requires Verdict(c, p, now) == 0
    ensures Earned(c, p.fails) ==> Last(p.fails) + c.lockout <= now
  {
  }

  lemma {:induction false} RunSpread(c: Config, tr: Tracked, clock: Time, calls: seq<Call>)
    requires Sensible(c) && c.lockout >= c.window && AllSpread(c, tr.h, clock) && RunInTime(clock, calls)
    ensures AllSpread(c, TrackedRun(c, tr, calls).h, RunEnd(clock, calls))
    decreases |calls|
  {
    if calls != [] {
      HistorySpread(c, tr.h, clock, calls[0], EvictedIn(c, tr.l, calls[0]));
      RunSpread(c, TrackedStep(c, tr, calls[0]), EndOf(calls[0]), calls[1..]);
    }
  }

  // ---- counting in intervals -------------------------------------------------------------

  /** How many failures fall in the half-open interval [from, to). */
  function CountIn(s: seq<Time>, from: Time, to: Time): nat {
    |set i | 0 <= i < |s| && from <= s[i] < to|
  }

  lemma {:induction false} SpacedFar(s: seq<Time>, max: int, window: Time, i: int, n: nat)
    requires max >= 1 && Spaced(s, max, window) && 0 <= i && i + n * max < |s|
    ensures s[i + n * max] >= s[i] + n * window
    decreases n
  {
    if n > 0 {
      assert i + n * max == i + (n - 1) * max + max && n * window == (n - 1) * window + window;
      assert 0 <= (n - 1) * max;
      assert Apart(s, max, window, i + n * max);
      SpacedFar(s, max, window, i, n - 1);
    }
  }

  ghost function Range(lo: int, hi: int): set<int>
    decreases hi - lo
  {
    if lo >= hi then {} else Range(lo, hi - 1) + {hi - 1}
  }

  lemma {:induction false} RangeSize(lo: int, hi: int)
    ensures forall i :: i in Range(lo, hi) <==> lo <= i < hi
    ensures |Range(lo, hi)| == if lo >= hi then 0 else hi - lo
    decreases hi - lo
  {
    if lo < hi {
      RangeSize(lo, hi - 1);
    }
  }

  lemma SubsetSize(a: set<int>, b: set<int>)
    requires a <= b
    ensures |a| <= |b|
  {
    assert b == a + (b - a);
  }

  /** The first position at or after `from`. */
  function FirstAt(s: seq<Time>, from: Time): nat
    ensures FirstAt(s, from) <= |s|
  {
    if s == [] || s[0] >= from then 0 else 1 + FirstAt(s[1..], from)
  }

  lemma {:induction false} FirstAtIsFirst(s: seq<Time>, from: Time)
    requires Sorted(s)
    ensures forall i :: 0 <= i < |s| ==> (s[i] >= from <==> i >= FirstAt(s, from))
    decreases |s|
  {
    if s != [] && s[0] < from {
      FirstAtIsFirst(s[1..], from);
      forall i | 0 <= i < |s| ensures s[i] >= from <==> i >= FirstAt(s, from) {
        if i > 0 {
          assert s[i] == s[1..][i - 1];
        }
      }
    }
  }

  lemma SpacedCount(s: seq<Time>, max: int, window: Time, from: Time, n: nat)
    requires max >= 1 && Sorted(s) && Spaced(s, max, window)
    ensures CountIn(s, from, from + n * window) <= n * max
  {
    var first := FirstAt(s, from);
    var found := set i | 0 <= i < |s| && from <= s[i] < from + n * window;
    FirstAtIsFirst(s, from);
    assert 0 <= n * max;
    RangeSize(first, first + n * max);
    forall i | i in found ensures i in Range(first, first + n * max) {
      if first + n * max <= i {
        SpacedFar(s, max, window, first, n);
        assert false;
      }
    }
    SubsetSize(found, Range(first, first + n * max));
  }

  lemma RecordedIsSpaced(c: Config, calls: seq<Call>, key: string)
    requires Sensible(c) && c.lockout >= c.window && RunInTime(0, calls)
    ensures Sorted(RecordedIn(c, calls, key)) && Spaced(RecordedIn(c, calls, key), c.maxFailures, c.window)
  {
    RunSpread(c, START, 0, calls);
    var p := PastOf(TrackedRun(c, START, calls).h, key);
    assert SpreadBy(c, p, RunEnd(0, calls));
  }

  lemma SpacedRate(s: seq<Time>, max: int, window: Time, from: Time, span: Time)
    requires max >= 1 && window >= 1 && span >= 0 && Sorted(s) && Spaced(s, max, window)
    ensures CountIn(s, from, from + window) <= max
    ensures CountIn(s, from, from + span) <= max * (span / window + 1)
  {
    SpacedCount(s, max, window, from, 1);
    SpanCount(s, max, window, from, span);
  }

  /** The rate bound. When a lockout lasts at least a window, no window of time
      holds more than `maxFailures` recorded failures of a key, and no span more
      than that many for each window it starts. */
  lemma RateIsBounded(c: Config, calls: seq<Call>, key: string, from: Time, span: Time)
    requires Sensible(c) && c.lockout >= c.window && RunInTime(0, calls) && span >= 0
    ensures var recorded := RecordedIn(c, calls, key);
            && CountIn(recorded, from, from + c.window) <= c.maxFailures
            && CountIn(recorded, from, from + span) <= c.maxFailures * (span / c.window + 1)
  {
    RecordedIsSpaced(c, calls, key);
    SpacedRate(RecordedIn(c, calls, key), c.maxFailures, c.window, from, span);
  }

  lemma SpanCount(s: seq<Time>, max: int, window: Time, from: Time, span: Time)
    requires max >= 1 && window >= 1 && span >= 0 && Sorted(s) && Spaced(s, max, window)
    ensures CountIn(s, from, from + span) <= max * (span / window + 1)
  {
    var n := span / window + 1;
    SpacedCount(s, max, window, from, n);
    assert span < n * window;
    assert n * max == max * n;
    SubsetSize(set i | 0 <= i < |s| && from <= s[i] < from + span,
               set i | 0 <= i < |s| && from <= s[i] < from + n * window);
  }

  // ---- and only then --------------------------------------------------------------------

  /** The history of one key after failures at the given times, each let in by the gate. */
  function PastAfter(c: Config, p: Past, times: seq<Time>): Past
    decreases |times|
  {
    if times == [] then p else PastAfter(c, Failed(c, p, times[0]), times[1..])
  }

  predicate LetIn(c: Config, p: Past, clock: Time, times: seq<Time>)
    decreases |times|
  {
    times == [] ||
    (clock <= times[0] && Verdict(c, p, times[0]) == 0 && LetIn(c, Failed(c, p, times[0]), times[0], times[1..]))
  }

  /** No run of calls on the limiter records more than `maxFailures` failures of a
      key in any window of time. */
  ghost predicate KeepsRate(c: Config) {
    forall calls, key, from :: RunInTime(0, calls) ==> RateHolds(c, calls, key, from)
  }

  predicate RateHolds(c: Config, calls: seq<Call>, key: string, from: Time) {
    CountIn(RecordedIn(c, calls, key), from, from + c.window) <= c.maxFailures
  }

  /** One attempt of `key` at each of the given times, each of them failing. */
  function Attempts(key: string, times: seq<Time>): seq<Call>
    decreases |times|
  {
    if times == [] then [] else [Fail(key, times[0], times[0])] + Attempts(key, times[1..])
  }

  /** Attempts that the history lets in are let in by the tables, recorded, and
      evict nobody. */
  lemma {:induction false} AttemptsAreRecorded(c: Config, tr: Tracked, clock: Time, key: string, times: seq<Time>)
    requires Sensible(c) && Faithful(c, tr, clock) && LetIn(c, PastOf(tr.h, key), clock, times)
    requires tr.l.failures.Keys <= {key}
    ensures var tr' := TrackedRun(c, tr, Attempts(key, times));
            RunInTime(clock, Attempts(key, times)) && PastOf(tr'.h, key) == PastAfter(c, PastOf(tr.h, key), times)
    decreases |times|
  {
    if times != [] {
      var call := Fail(key, times[0], times[0]);
      var tr' := TrackedStep(c, tr, call);
      assert Attempts(key, times)[1..] == Attempts(key, times[1..]);
      VerdictIsHistory(c, tr.l, tr.h, clock, key, times[0]);
      StepFaithful(c, tr, clock, call);
      LoneKeyStays(c, tr.l, key, times[0]);
      assert PastOf(tr'.h, key) == Failed(c, PastOf(tr.h, key), times[0]);
      AttemptsAreRecorded(c, tr', times[0], key, times[1..]);
    }
  }

  lemma LoneKeyStays(c: Config, l: Limiter, key: string, now: Time)
    requires Sensible(c) && l.failures.Keys <= {key}
    ensures LimiterStep(c, l, Fail(key, now, now)).failures.Keys <= {key}
  {
    var probed := Probed(l, key, now);
    assert probed.failures.Keys <= {key};
    assert Pruned(c, probed, now).failures.Keys <= {key};
  }

  /** `n` failures at time zero, all before the threshold, then one more later. */
  lemma {:induction false} Burst(c: Config, n: nat, i: nat, later: Time)
    requires Sensible(c) && n == c.maxFailures && i <= n && later >= 0 && later >= c.lockout
    ensures var times := seq(n - i, _ => 0) + [later];
            var p := Past([], seq(i, _ => 0));
            && LetIn(c, p, 0, times)
            && All(PastAfter(c, p, times)) == seq(n, _ => 0) + [later]
    decreases n - i
  {
    var p := Past([], seq(i, _ => 0));
    var times := seq(n - i, _ => 0) + [later];
    RecentIsSuffix(p.fails, -c.window);
    assert i > 0 ==> Recent(p.fails, Last(p.fails) - c.window) == p.fails;
    if i < n {
      assert !Earned(c, p.fails);
      assert times[1..] == seq(n - (i + 1), _ => 0) + [later];
      assert Failed(c, p, 0) == Past([], seq(i + 1, _ => 0)) by {
        assert seq(i, _ => 0) + [0] == seq(i + 1, _ => 0);
      }
      Burst(c, n, i + 1, later);
    } else {
      assert Earned(c, p.fails) && times == [later] && times[1..] == [];
      assert Failed(c, p, later) == Past(p.before + p.fails, [later]);
      assert PastAfter(c, p, times) == Past(p.before + p.fails, [later]);
      assert [] + seq(n, _ => 0) + [later] == seq(n, _ => 0) + [later];
    }
  }

  /** The bound holds for a configuration, over all runs of calls on the limiter,
      exactly when its lockout is no shorter than its window. */
  lemma RateNeedsLongLockout(c: Config)
    requires Sensible(c)
    ensures KeepsRate(c) <==> c.lockout >= c.window
  {
    if c.lockout >= c.window {
      forall calls, key, from | RunInTime(0, calls) ensures RateHolds(c, calls, key, from) {
        RateIsBounded(c, calls, key, from, 0);
      }
    } else {
      ShortLockoutBreaksRate(c, "key");
    }
  }

  /** With a shorter lockout: `maxFailures` attempts at once and one more as soon
      as the lock runs out are all recorded within one window. */
  lemma ShortLockoutBreaksRate(c: Config, key: string)
    requires Sensible(c) && c.lockout < c.window
    ensures var calls := Attempts(key, seq(c.maxFailures, _ => 0) + [c.lockout]);
            RunInTime(0, calls) && !RateHolds(c, calls, key, 0)
  {
    var n := c.maxFailures;
    var times := seq(n, _ => 0) + [c.lockout];
    Burst(c, n, 0, c.lockout);
    assert Past([], seq(0, _ => 0)) == BLANK;
    StartIsFaithful(c);
    AttemptsAreRecorded(c, START, 0, key, times);
    assert RecordedIn(c, Attempts(key, times), key) == times;
    RangeSize(0, n + 1);
    assert (set i | 0 <= i < |times| && 0 <= times[i] < 0 + c.window) == Range(0, n + 1);
  }

  lemma StartIsFaithful(c: Config)
    requires Sensible(c)
    ensures Faithful(c, START, 0)
  {
  }
}
