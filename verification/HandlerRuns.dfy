/** The request handlers as the failure limiters see them, over every run: gate
    first, then the check, then a recorded failure or a clear. Which check a
    request passes is left open, so the limits hold whatever callers present. */
module HandlerRuns {
  import opened Clock
  import opened LimiterModel
  import opened LimiterHistory
  import opened LimiterRate

  datatype Which = ByEmail | ByIp | ByActivation

  datatype Configs = Configs(email: Config, ip: Config, activation: Config)

  /** The tables of the limiters that the handlers share. */
  datatype Doors = Doors(email: Limiter, ip: Limiter, activation: Limiter)

  const UNUSED := Doors(NOTHING, NOTHING, NOTHING)

  /** `ok` is what the check behind the gate answers, should it be reached: the
      credentials of a login, the password of a deletion, the token of an activation. */
  datatype Request =
    | LoginTry(email: string, ip: string, ok: bool, gate: Time, at: Time)
    | DeleteTry(email: string, ip: string, ok: bool, gate: Time, at: Time)
    | ActivateTry(ip: string, ok: bool, gate: Time, at: Time)

  datatype Ending = TurnedAway | Denied | Passed

  function ConfigOf(cs: Configs, w: Which): Config {
    match w
    case ByEmail => cs.email
    case ByIp => cs.ip
    case ByActivation => cs.activation
  }

  function TablesOf(d: Doors, w: Which): Limiter {
    match w
    case ByEmail => d.email
    case ByIp => d.ip
    case ByActivation => d.activation
  }

  /** Whether no limiter asked by the request holds it back. */
  predicate IsOpen(d: Doors, r: Request) {
    if r.ActivateTry? then Wait(d.activation, r.ip, r.gate) == 0
    else Wait(d.email, r.email, r.gate) == 0 && Wait(d.ip, r.ip, r.gate) == 0
  }

  function EndingOf(d: Doors, r: Request): Ending {
    if !IsOpen(d, r) then TurnedAway else if r.ok then Passed else Denied
  }

  /** A limiter's tables after a caller was let in and failed. */
  function Counted(c: Config, l: Limiter, key: string, gate: Time, at: Time): Limiter {
    Recorded(c, Probed(l, key, gate), key, at)
  }

  /** What a handler does to the limiters: a caller turned away is counted nowhere,
      a failure is counted by every limiter asked, and a login that succeeds forgets
      the e-mail but not the address. */
  function Serve(cs: Configs, d: Doors, r: Request): Doors {
    var ending := EndingOf(d, r);
    match r
    case ActivateTry(ip, _, gate, at) =>
      d.(activation := if ending == Denied then Counted(cs.activation, d.activation, ip, gate, at)
                       else Probed(d.activation, ip, gate))
    case LoginTry(email, ip, _, gate, at) =>
      if ending == Denied then
        d.(email := Counted(cs.email, d.email, email, gate, at), ip := Counted(cs.ip, d.ip, ip, gate, at))
      else
        d.(email := if ending == Passed then Drop(Probed(d.email, email, gate), {email})
                    else Probed(d.email, email, gate),
           ip := Probed(d.ip, ip, gate))
    case DeleteTry(email, ip, _, gate, at) =>
      if ending == Denied then
        d.(email := Counted(cs.email, d.email, email, gate, at), ip := Counted(cs.ip, d.ip, ip, gate, at))
      else
        d.(email := Probed(d.email, email, gate), ip := Probed(d.ip, ip, gate))
  }

  function ServeAll(cs: Configs, d: Doors, rs: seq<Request>): Doors
    decreases |rs|
  {
    if rs == [] then d else ServeAll(cs, Serve(cs, d, rs[0]), rs[1..])
  }

  /** Requests are served one after the other. */
  predicate InTurn(clock: Time, rs: seq<Request>)
    decreases |rs|
  {
    rs == [] || (clock <= rs[0].gate <= rs[0].at && InTurn(rs[0].at, rs[1..]))
  }

  // ---- the calls a request makes on each limiter ----------------------------------------

  predicate Asks(r: Request, w: Which) {
    r.ActivateTry? <==> w == ByActivation
  }

  function KeyOn(r: Request, w: Which): string
    requires Asks(r, w)
  {
    if w == ByEmail then r.email else r.ip
  }

  /** The calls on a limiter, for its key and the ending of the request. */
  function CallsFor(r: Request, key: string, ending: Ending, forgets: bool): seq<Call> {
    match ending
    case Denied => [Fail(key, r.gate, r.at)]
    case TurnedAway => [Probe(key, r.gate)]
    case Passed => if forgets then [Probe(key, r.gate), Forget(key, r.at)] else [Probe(key, r.gate)]
  }

  function CallsOn(d: Doors, r: Request, w: Which): seq<Call> {
    if !Asks(r, w) then [] else CallsFor(r, KeyOn(r, w), EndingOf(d, r), r.LoginTry? && w == ByEmail)
  }

  function AllCallsOn(cs: Configs, d: Doors, rs: seq<Request>, w: Which): seq<Call>
    decreases |rs|
  {
    if rs == [] then [] else CallsOn(d, rs[0], w) + AllCallsOn(cs, Serve(cs, d, rs[0]), rs[1..], w)
  }

  lemma {:induction false} TrackedRunJoins(c: Config, tr: Tracked, a: seq<Call>, b: seq<Call>)
    ensures TrackedRun(c, tr, a + b) == TrackedRun(c, TrackedRun(c, tr, a), b)
    decreases |a|
  {
    if a == [] {
      assert a + b == b;
    } else {
      assert (a + b)[1..] == a[1..] + b;
      TrackedRunJoins(c, TrackedStep(c, tr, a[0]), a[1..], b);
    }
  }

  lemma {:induction false} RunInTimeJoins(clock: Time, a: seq<Call>, later: Time, b: seq<Call>)
    requires RunInTime(clock, a) && RunEnd(clock, a) <= later && RunInTime(later, b)
    ensures RunInTime(clock, a + b)
    decreases |a|
  {
    if a == [] {
      assert a + b == b;
    } else {
      assert (a + b)[1..] == a[1..] + b;
      RunInTimeJoins(EndOf(a[0]), a[1..], later, b);
    }
  }

  /** What a request leaves in a limiter is what its calls leave there. */
  lemma ServeIsCalls(cs: Configs, d: Doors, r: Request, w: Which, tr: Tracked, clock: Time)
    requires tr.l == TablesOf(d, w) && clock <= r.gate <= r.at
    ensures TrackedRun(ConfigOf(cs, w), tr, CallsOn(d, r, w)).l == TablesOf(Serve(cs, d, r), w)
    ensures RunInTime(clock, CallsOn(d, r, w)) && RunEnd(clock, CallsOn(d, r, w)) <= r.at
  {
    var c := ConfigOf(cs, w);
    if Asks(r, w) {
      var key := KeyOn(r, w);
      var first := CallsOn(d, r, w)[0];
      OneCall(c, tr, first);
      if r.LoginTry? && w == ByEmail && EndingOf(d, r) == Passed {
        TwoCalls(c, tr, Probe(key, r.gate), Forget(key, r.at), clock);
      }
    }
  }

  lemma OneCall(c: Config, tr: Tracked, call: Call)
    ensures TrackedRun(c, tr, [call]) == TrackedStep(c, tr, call)
  {
    assert [call][1..] == [];
  }

  lemma TwoCalls(c: Config, tr: Tracked, a: Call, b: Call, clock: Time)
    requires InTime(clock, a) && InTime(EndOf(a), b)
    ensures TrackedRun(c, tr, [a, b]) == TrackedStep(c, TrackedStep(c, tr, a), b)
    ensures RunInTime(clock, [a, b]) && RunEnd(clock, [a, b]) == EndOf(b)
  {
    assert [a, b][1..] == [b] && [b][1..] == [];
    assert RunEnd(EndOf(a), [b]) == RunEnd(EndOf(b), []);
    assert RunInTime(EndOf(b), []) && RunInTime(EndOf(a), [b]);
    OneCall(c, TrackedStep(c, tr, a), b);
  }

  /** Over a run, each limiter ends where the gated calls of the handlers take it. */
  lemma {:induction false} ServeAllIsCalls(cs: Configs, d: Doors, rs: seq<Request>, w: Which, tr: Tracked, clock: Time)
    requires tr.l == TablesOf(d, w) && InTurn(clock, rs)
    ensures TrackedRun(ConfigOf(cs, w), tr, AllCallsOn(cs, d, rs, w)).l == TablesOf(ServeAll(cs, d, rs), w)
    ensures RunInTime(clock, AllCallsOn(cs, d, rs, w))
    decreases |rs|
  {
    if rs != [] {
      var c, calls, d' := ConfigOf(cs, w), CallsOn(d, rs[0], w), Serve(cs, d, rs[0]);
      var tr' := TrackedRun(c, tr, calls);
      ServeIsCalls(cs, d, rs[0], w, tr, clock);
      ServeAllIsCalls(cs, d', rs[1..], w, tr', rs[0].at);
      TrackedRunJoins(c, tr, calls, AllCallsOn(cs, d', rs[1..], w));
      RunInTimeJoins(clock, calls, rs[0].at, AllCallsOn(cs, d', rs[1..], w));
    }
  }

  // ---- the failures that callers see -----------------------------------------------------

  /** The failures of `key` over a run, those of an e-mail since its last login. */
  function FailedTimes(cs: Configs, d: Doors, rs: seq<Request>, w: Which, key: string, earlier: seq<Time>): seq<Time>
    decreases |rs|
  {
    if rs == [] then earlier
    else FailedTimes(cs, Serve(cs, d, rs[0]), rs[1..], w, key, FailedAfter(d, rs[0], w, key, earlier))
  }

  function FailedAfter(d: Doors, r: Request, w: Which, key: string, earlier: seq<Time>): seq<Time> {
    if !Asks(r, w) || KeyOn(r, w) != key then earlier
    else if EndingOf(d, r) == Denied then earlier + [r.at]
    else if EndingOf(d, r) == Passed && r.LoginTry? && w == ByEmail then []
    else earlier
  }

  /** Counting the failure of this request does not push `key` out of the limiter. */
  predicate KeepsKey(cs: Configs, d: Doors, r: Request, w: Which, key: string) {
    Asks(r, w) && EndingOf(d, r) == Denied ==>
      key !in EvictedBy(ConfigOf(cs, w), Probed(TablesOf(d, w), KeyOn(r, w), r.gate), KeyOn(r, w), r.at)
  }

  predicate NeverEvicted(cs: Configs, d: Doors, rs: seq<Request>, w: Which, key: string)
    decreases |rs|
  {
    rs != [] ==> KeepsKey(cs, d, rs[0], w, key) && NeverEvicted(cs, Serve(cs, d, rs[0]), rs[1..], w, key)
  }

  lemma AllFailed(c: Config, p: Past, now: Time)
    ensures All(Failed(c, p, now)) == All(p) + [now]
  {
    assert (p.before + p.fails) + [now] == p.before + (p.fails + [now]);
  }

  lemma RequestFaithful(cs: Configs, d: Doors, r: Request, w: Which, tr: Tracked, clock: Time)
    requires Sensible(ConfigOf(cs, w)) && Faithful(ConfigOf(cs, w), tr, clock) && clock <= r.gate <= r.at
    requires tr.l == TablesOf(d, w)
    ensures Faithful(ConfigOf(cs, w), TrackedRun(ConfigOf(cs, w), tr, CallsOn(d, r, w)), r.at)
  {
    var c, calls := ConfigOf(cs, w), CallsOn(d, r, w);
    ServeIsCalls(cs, d, r, w, tr, clock);
    RunFaithful(c, tr, clock, calls);
    FaithfulLater(c, TrackedRun(c, tr, calls), RunEnd(clock, calls), r.at);
  }

  /** The history of `key`, while the key is not evicted. */
  predicate ShowsFailures(h: History, key: string, failed: seq<Time>) {
    All(PastOf(h, key)) == failed
  }

  lemma LoginShowsFailures(c: Config, tr: Tracked, asked: string, gate: Time, at: Time, key: string,
                           failed: seq<Time>)
    requires ShowsFailures(tr.h, key, failed) && gate <= at
    ensures ShowsFailures(TrackedRun(c, tr, [Probe(asked, gate), Forget(asked, at)]).h, key,
                          if key == asked then [] else failed)
  {
    TwoCalls(c, tr, Probe(asked, gate), Forget(asked, at), gate);
    assert BLANK.before + BLANK.fails == [];
  }

  /** One request that keeps the key: the limiter's history is the list of failures
      that the callers saw. */
  lemma RequestShows(cs: Configs, d: Doors, r: Request, w: Which, tr: Tracked, clock: Time, key: string,
                     failed: seq<Time>)
    requires Faithful(ConfigOf(cs, w), tr, clock) && clock <= r.gate <= r.at
    requires tr.l == TablesOf(d, w) && KeepsKey(cs, d, r, w, key) && ShowsFailures(tr.h, key, failed)
    ensures ShowsFailures(TrackedRun(ConfigOf(cs, w), tr, CallsOn(d, r, w)).h, key, FailedAfter(d, r, w, key, failed))
  {
    if Asks(r, w) {
      DeniedWasOpen(d, r, w);
      AskShows(ConfigOf(cs, w), tr, clock, r, KeyOn(r, w), EndingOf(d, r), r.LoginTry? && w == ByEmail, key, failed);
    }
  }

  lemma DeniedWasOpen(d: Doors, r: Request, w: Which)
    requires Asks(r, w)
    ensures EndingOf(d, r) != TurnedAway ==> Wait(TablesOf(d, w), KeyOn(r, w), r.gate) == 0
    ensures CallsOn(d, r, w) == CallsFor(r, KeyOn(r, w), EndingOf(d, r), r.LoginTry? && w == ByEmail)
  {
  }

  lemma AskShows(c: Config, tr: Tracked, clock: Time, r: Request, asked: string, ending: Ending, forgets: bool,
                 key: string, failed: seq<Time>)
    requires Faithful(c, tr, clock) && clock <= r.gate <= r.at && ShowsFailures(tr.h, key, failed)
    requires ending != TurnedAway ==> Wait(tr.l, asked, r.gate) == 0
    requires ending == Denied ==> key !in EvictedBy(c, Probed(tr.l, asked, r.gate), asked, r.at)
    ensures ShowsFailures(TrackedRun(c, tr, CallsFor(r, asked, ending, forgets)).h, key,
                          if asked != key then failed
                          else if ending == Denied then failed + [r.at]
                          else if ending == Passed && forgets then [] else failed)
  {
    match ending
    case Denied => FailureShows(c, tr, clock, asked, r.gate, r.at, key, failed);
    case TurnedAway => OneCall(c, tr, Probe(asked, r.gate));
    case Passed =>
      if forgets {
        LoginShowsFailures(c, tr, asked, r.gate, r.at, key, failed);
      } else {
        OneCall(c, tr, Probe(asked, r.gate));
      }
  }

  lemma FaithfulLater(c: Config, tr: Tracked, clock: Time, now: Time)
    requires Faithful(c, tr, clock) && clock <= now
    ensures Faithful(c, tr, now)
  {
    LaterSound(c, tr.l, clock, now);
    LaterShows(c, tr.l, tr.h, clock, now);
  }

  lemma FailureShows(c: Config, tr: Tracked, clock: Time, asked: string, gate: Time, at: Time, key: string,
                     failed: seq<Time>)
    requires Faithful(c, tr, clock) && clock <= gate <= at && Wait(tr.l, asked, gate) == 0
    requires ShowsFailures(tr.h, key, failed) && key !in EvictedBy(c, Probed(tr.l, asked, gate), asked, at)
    ensures ShowsFailures(TrackedRun(c, tr, [Fail(asked, gate, at)]).h, key,
                          if key == asked then failed + [at] else failed)
  {
    OneCall(c, tr, Fail(asked, gate, at));
    VerdictIsHistory(c, tr.l, tr.h, clock, asked, gate);
    AllFailed(c, PastOf(tr.h, asked), at);
  }

  lemma {:induction false} RunShows(cs: Configs, d: Doors, rs: seq<Request>, w: Which, tr: Tracked, clock: Time,
                                    key: string, earlier: seq<Time>)
    requires Sensible(ConfigOf(cs, w)) && Faithful(ConfigOf(cs, w), tr, clock) && InTurn(clock, rs)
    requires tr.l == TablesOf(d, w) && NeverEvicted(cs, d, rs, w, key) && ShowsFailures(tr.h, key, earlier)
    ensures All(PastOf(TrackedRun(ConfigOf(cs, w), tr, AllCallsOn(cs, d, rs, w)).h, key))
         == FailedTimes(cs, d, rs, w, key, earlier)
    decreases |rs|
  {
    if rs != [] {
      var c, calls, d' := ConfigOf(cs, w), CallsOn(d, rs[0], w), Serve(cs, d, rs[0]);
      var tr' := TrackedRun(c, tr, calls);
      ServeIsCalls(cs, d, rs[0], w, tr, clock);
      RequestFaithful(cs, d, rs[0], w, tr, clock);
      RequestShows(cs, d, rs[0], w, tr, clock, key, earlier);
      RunShows(cs, d', rs[1..], w, tr', rs[0].at, key, FailedAfter(d, rs[0], w, key, earlier));
      TrackedRunJoins(c, tr, calls, AllCallsOn(cs, d', rs[1..], w));
    }
  }

  // ---- when nothing is evicted -------------------------------------------------------------

  /** How long after its last failure a key can be tracked. */
  function Memory(c: Config): Time {
    if c.window <= c.lockout then c.lockout else c.window
  }

  /** The keys that last failed after `since`. */
  function FailedSince(last: map<string, Time>, since: Time): set<string> {
    set k | k in last && last[k] > since
  }

  /** The latest failure of each key, after a request. */
  function LastAfter(d: Doors, r: Request, w: Which, last: map<string, Time>): map<string, Time> {
    if Asks(r, w) && EndingOf(d, r) == Denied then last[KeyOn(r, w) := r.at] else last
  }

  predicate Fits(c: Config, last: map<string, Time>, asked: string, now: Time) {
    |FailedSince(last, now - Memory(c)) + {asked}| <= c.maxKeys
  }

  /** Whenever a failure is counted, the keys that failed within the limiter's memory
      fit into it. Keys of longer ago do not matter, however many they are. */
  predicate Uncrowded(cs: Configs, d: Doors, rs: seq<Request>, w: Which, last: map<string, Time>)
    decreases |rs|
  {
    rs != [] ==>
      && RequestFits(cs, d, rs[0], w, last)
      && Uncrowded(cs, Serve(cs, d, rs[0]), rs[1..], w, LastAfter(d, rs[0], w, last))
  }

  predicate RequestFits(cs: Configs, d: Doors, r: Request, w: Which, last: map<string, Time>) {
    Asks(r, w) && EndingOf(d, r) == Denied ==> Fits(ConfigOf(cs, w), last, KeyOn(r, w), r.at)
  }

  /** Every tracked key was last hit when it last failed. */
  ghost predicate Logged(l: Limiter, last: map<string, Time>) {
    forall k :: k in l.failures ==> HitLast(l.failures[k], k, last)
  }

  predicate HitLast(queue: seq<Time>, k: string, last: map<string, Time>) {
    queue != [] && k in last && last[k] == Last(queue)
  }

  /** What the sweep leaves failed within the limiter's memory. */
  lemma SweptIsRecent(c: Config, l: Limiter, h: History, last: map<string, Time>, now: Time)
    requires Sensible(c) && Represents(c, l, h, now) && Logged(l, last) && now >= 0
    ensures Swept(c, l, now).failures.Keys <= FailedSince(last, now - Memory(c))
  {
    forall k | k in Swept(c, l, now).failures ensures k in FailedSince(last, now - Memory(c)) {
      assert Shows(c, l, k, PastOf(h, k), now) && HitLast(l.failures[k], k, last);
      RecentKeepsLast(PastOf(h, k).fails, c.window);
    }
  }

  /** With room for the keys of recent failures, nothing is evicted. */
  lemma RoomForRecent(c: Config, l: Limiter, h: History, last: map<string, Time>, asked: string, now: Time)
    requires Sensible(c) && Represents(c, l, h, now) && Logged(l, last) && now >= 0
    requires Fits(c, last, asked, now)
    ensures EvictedBy(c, l, asked, now) == {}
  {
    if NeedsRoom(c, l, asked) {
      var left := Swept(c, l, now).failures;
      SweptIsRecent(c, l, h, last, now);
      SmallerKeys(left.Keys + {asked}, FailedSince(last, now - Memory(c)) + {asked});
      assert asked !in left && |left.Keys + {asked}| == |left| + 1;
    }
  }

  lemma DropLogged(l: Limiter, gone: set<string>, last: map<string, Time>)
    requires Logged(l, last)
    ensures Logged(Drop(l, gone), last)
  {
  }

  lemma RecordedLogged(c: Config, l: Limiter, key: string, clock: Time, now: Time, last: map<string, Time>)
    requires Sensible(c) && Sound(c, l, clock) && clock <= now && Logged(l, last)
    ensures Logged(Recorded(c, l, key, now), last[key := now])
  {
    var roomy := if NeedsRoom(c, l, key) then Pruned(c, l, now) else l;
    if NeedsRoom(c, l, key) {
      DropLogged(l, Stale(c, l, now), last);
      DropLogged(Swept(c, l, now), Evicted(c, Swept(c, l, now)), last);
    }
    HitLogged(c, roomy, key, now, last);
  }

  lemma HitLogged(c: Config, l: Limiter, key: string, now: Time, last: map<string, Time>)
    requires Sensible(c) && Logged(l, last)
    requires key in l.failures ==> Sorted(l.failures[key]) && Last(l.failures[key]) <= now
    ensures Logged(Hit(c, l, key, now), last[key := now])
  {
    var hits := (if key in l.failures then l.failures[key] else []) + [now];
    RecentKeepsLast(hits, c.window);
  }

  lemma RequestLogged(cs: Configs, d: Doors, r: Request, w: Which, clock: Time, last: map<string, Time>)
    requires Sensible(ConfigOf(cs, w)) && Sound(ConfigOf(cs, w), TablesOf(d, w), clock) && clock <= r.gate <= r.at
    requires Logged(TablesOf(d, w), last)
    ensures Logged(TablesOf(Serve(cs, d, r), w), LastAfter(d, r, w, last))
  {
    if Asks(r, w) {
      var c, l, key := ConfigOf(cs, w), TablesOf(d, w), KeyOn(r, w);
      DropLogged(l, {key}, last);
      DropLogged(Probed(l, key, r.gate), {key}, last);
      if EndingOf(d, r) == Denied {
        ProbeSound(c, l, key, clock, r.gate);
        RecordedLogged(c, Probed(l, key, r.gate), key, r.gate, r.at, last);
      }
    }
  }

  /** Between gate and failure. */
  lemma FailureEvictsNothing(c: Config, tr: Tracked, clock: Time, asked: string, gate: Time, at: Time,
                             last: map<string, Time>)
    requires Sensible(c) && Represents(c, tr.l, tr.h, clock) && 0 <= clock <= gate <= at && Logged(tr.l, last)
    requires Fits(c, last, asked, at)
    ensures EvictedBy(c, Probed(tr.l, asked, gate), asked, at) == {}
  {
    ProbeShows(c, tr.l, tr.h, clock, asked, gate);
    LaterShows(c, Probed(tr.l, asked, gate), tr.h, gate, at);
    DropLogged(tr.l, {asked}, last);
    RoomForRecent(c, Probed(tr.l, asked, gate), tr.h, last, asked, at);
  }

  lemma RequestKeepsKeys(cs: Configs, d: Doors, r: Request, w: Which, tr: Tracked, clock: Time,
                         last: map<string, Time>, key: string)
    requires Sensible(ConfigOf(cs, w)) && Faithful(ConfigOf(cs, w), tr, clock) && 0 <= clock <= r.gate <= r.at
    requires tr.l == TablesOf(d, w) && Logged(tr.l, last) && RequestFits(cs, d, r, w, last)
    ensures KeepsKey(cs, d, r, w, key)
  {
    if Asks(r, w) && EndingOf(d, r) == Denied {
      FailureEvictsNothing(ConfigOf(cs, w), tr, clock, KeyOn(r, w), r.gate, r.at, last);
    }
  }

  /** What the run knows of a limiter before each request. */
  ghost predicate Follows(c: Config, l: Limiter, tr: Tracked, clock: Time, last: map<string, Time>) {
    tr.l == l && 0 <= clock && Faithful(c, tr, clock) && Logged(l, last)
  }

  lemma RequestFollows(cs: Configs, d: Doors, r: Request, w: Which, tr: Tracked, clock: Time, last: map<string, Time>)
    requires Sensible(ConfigOf(cs, w)) && Follows(ConfigOf(cs, w), TablesOf(d, w), tr, clock, last)
    requires clock <= r.gate <= r.at
    ensures Follows(ConfigOf(cs, w), TablesOf(Serve(cs, d, r), w), TrackedRun(ConfigOf(cs, w), tr, CallsOn(d, r, w)),
                    r.at, LastAfter(d, r, w, last))
  {
    ServeIsCalls(cs, d, r, w, tr, clock);
    RequestFaithful(cs, d, r, w, tr, clock);
    RequestLogged(cs, d, r, w, clock, last);
  }

  lemma {:induction false} UncrowdedRun(cs: Configs, d: Doors, rs: seq<Request>, w: Which, tr: Tracked, clock: Time,
                                        last: map<string, Time>, key: string)
    requires Sensible(ConfigOf(cs, w)) && Follows(ConfigOf(cs, w), TablesOf(d, w), tr, clock, last)
    requires InTurn(clock, rs) && Uncrowded(cs, d, rs, w, last)
    ensures NeverEvicted(cs, d, rs, w, key)
    decreases |rs|
  {
    if rs != [] {
      RequestKeepsKeys(cs, d, rs[0], w, tr, clock, last, key);
      RequestFollows(cs, d, rs[0], w, tr, clock, last);
      UncrowdedRun(cs, Serve(cs, d, rs[0]), rs[1..], w, TrackedRun(ConfigOf(cs, w), tr, CallsOn(d, rs[0], w)),
                   rs[0].at, LastAfter(d, rs[0], w, last), key);
    }
  }

  /** In particular when all keys of the run fit. */
  lemma {:induction false} FewKeysFit(cs: Configs, d: Doors, rs: seq<Request>, w: Which, last: map<string, Time>,
                                      keys: set<string>)
    requires |keys| <= ConfigOf(cs, w).maxKeys && last.Keys <= keys
    requires forall r :: r in rs && Asks(r, w) ==> KeyOn(r, w) in keys
    ensures Uncrowded(cs, d, rs, w, last)
    decreases |rs|
  {
    if rs != [] {
      if Asks(rs[0], w) {
        assert rs[0] in rs;
        SmallerKeys(FailedSince(last, rs[0].at - Memory(ConfigOf(cs, w))) + {KeyOn(rs[0], w)}, keys);
      }
      FewKeysFit(cs, Serve(cs, d, rs[0]), rs[1..], w, LastAfter(d, rs[0], w, last), keys);
    }
  }

  // ---- the limits ----------------------------------------------------------------------------

  /** Over every run of handler requests, whatever the checks answer, each limiter
      records at most `maxFailures` failures of a key in any window since it last
      forgot the key. */
  lemma HandlersKeepRate(cs: Configs, rs: seq<Request>, w: Which, key: string, from: Time, span: Time)
    requires Sensible(ConfigOf(cs, w)) && ConfigOf(cs, w).lockout >= ConfigOf(cs, w).window
    requires InTurn(0, rs) && span >= 0
    ensures TrackedRun(ConfigOf(cs, w), START, AllCallsOn(cs, UNUSED, rs, w)).l == TablesOf(ServeAll(cs, UNUSED, rs), w)
    ensures RateOk(ConfigOf(cs, w), RecordedIn(ConfigOf(cs, w), AllCallsOn(cs, UNUSED, rs, w), key), from, span)
  {
    ServeAllIsCalls(cs, UNUSED, rs, w, START, 0);
    GatedRateOk(ConfigOf(cs, w), AllCallsOn(cs, UNUSED, rs, w), key, from, span);
  }

  /** At most `maxFailures` in a window, and as many per window that a span starts. */
  predicate RateOk(c: Config, recorded: seq<Time>, from: Time, span: Time)
    requires c.window > 0
  {
    && CountIn(recorded, from, from + c.window) <= c.maxFailures
    && CountIn(recorded, from, from + span) <= c.maxFailures * (span / c.window + 1)
  }

  lemma GatedRateOk(c: Config, calls: seq<Call>, key: string, from: Time, span: Time)
    requires Sensible(c) && c.lockout >= c.window && RunInTime(0, calls) && span >= 0
    ensures RateOk(c, RecordedIn(c, calls, key), from, span)
  {
    RateIsBounded(c, calls, key, from, span);
  }

  /** For a key that is never evicted, that is a bound on what callers see: an address
      is answered with at most `maxFailures` failures in any window, and an e-mail with
      at most that many since its last login. */
  lemma FailuresAreLimited(cs: Configs, rs: seq<Request>, w: Which, key: string, from: Time, span: Time)
    requires Sensible(ConfigOf(cs, w)) && ConfigOf(cs, w).lockout >= ConfigOf(cs, w).window
    requires InTurn(0, rs) && span >= 0 && NeverEvicted(cs, UNUSED, rs, w, key)
    ensures RateOk(ConfigOf(cs, w), FailedTimes(cs, UNUSED, rs, w, key, []), from, span)
  {
    StartIsFaithful(ConfigOf(cs, w));
    RunShows(cs, UNUSED, rs, w, START, 0, key, []);
    HandlersKeepRate(cs, rs, w, key, from, span);
  }

  /** No key is evicted, over however long a run, while the keys that failed within
      one lockout, or window if that is longer, fit into the limiter. */
  lemma UncrowdedEvictsNothing(cs: Configs, rs: seq<Request>, w: Which, key: string)
    requires Sensible(ConfigOf(cs, w)) && InTurn(0, rs) && Uncrowded(cs, UNUSED, rs, w, map[])
    ensures NeverEvicted(cs, UNUSED, rs, w, key)
  {
    StartIsFaithful(ConfigOf(cs, w));
    UncrowdedRun(cs, UNUSED, rs, w, START, 0, map[], key);
  }
}
