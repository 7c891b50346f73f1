/** Payments of one subscription that overlap. A payment reads the validity date
    without a lock, counts its window from there, and writes the result as a value,
    so one that was overtaken puts the date back to where its own reading leads.
    Until a payment commits, nobody else sees its write; writing and committing are
    one step here, since the row's lock is held between the two. */
module PaymentInterleaving {
  import opened Clock
  import opened Ledger
  import opened Validity

  datatype Txn =
    | Asked(seen: Time)                // subscription read
    | Dated(seen: Time, now: Time)     // clock read
    | Ended

  /** `until` is the committed date; `paid` the clock readings of the committed payments. */
  datatype State = State(until: Time, txns: map<nat, Txn>, paid: seq<Time>)

  datatype Action = Read(i: nat) | Date(i: nat, now: Time) | Commit(i: nat) | Abort(i: nat)

  function Settled(v: Time): State {
    State(v, map[], [])
  }

  predicate Enabled(s: State, a: Action) {
    match a
    case Read(i) => i !in s.txns
    case Date(i, _) => i in s.txns && s.txns[i].Asked?
    case Commit(i) => i in s.txns && s.txns[i].Dated?
    case Abort(i) => i in s.txns && !s.txns[i].Ended?
  }

  function Next(w: int, s: State, a: Action): State
    requires Enabled(s, a)
  {
    match a
    case Read(i) => s.(txns := s.txns[i := Asked(s.until)])
    case Date(i, now) => s.(txns := s.txns[i := Dated(s.txns[i].seen, now)])
    case Commit(i) =>
      var t := s.txns[i];
      State(Max(t.now, t.seen) + w, s.txns[i := Ended], s.paid + [t.now])
    case Abort(i) => s.(txns := s.txns[i := Ended])
  }

  function OpenIn(txns: map<nat, Txn>): set<nat> {
    set i | i in txns && !txns[i].Ended?
  }

  /** A run of enabled steps with at most `p` payments under way. */
  predicate Possible(w: int, p: nat, s: State, run: seq<Action>)
    decreases |run|
  {
    run != [] ==>
      && Enabled(s, run[0]) && |OpenIn(Next(w, s, run[0]).txns)| <= p
      && Possible(w, p, Next(w, s, run[0]), run[1..])
  }

  function After(w: int, p: nat, s: State, run: seq<Action>): State
    requires Possible(w, p, s, run)
    decreases |run|
  {
    if run == [] then s else After(w, p, Next(w, s, run[0]), run[1..])
  }

  /** A payment that is given up leaves everything as it was and is no longer under way. */
  lemma AbortUndoes(w: int, s: State, i: nat)
    requires Enabled(s, Abort(i))
    ensures var s' := Next(w, s, Abort(i));
            s'.until == s.until && s'.paid == s.paid && OpenIn(s'.txns) == OpenIn(s.txns) - {i}
  {
  }

  /** One that runs alone moves the date as its request does in the ledger. */
  lemma AloneIsStep(db: Db, t: Id, amount: int, now: Time, s: State, i: nat)
    requires SubIdOf(db, t).Some? && Step(db, RecordPayment(t, amount), now).reply.Ok? && i !in s.txns
    requires s.until == db.subs[SubIdOf(db, t).value].validUntil
    ensures var w := db.subs[SubIdOf(db, t).value].windowDays * DAY;
            var read := Next(w, s, Read(i));
            var o := Step(db, RecordPayment(t, amount), now);
            && Enabled(read, Date(i, now)) && Enabled(Next(w, read, Date(i, now)), Commit(i))
            && SubIdOf(o.db, t) == SubIdOf(db, t)
            && Next(w, Next(w, read, Date(i, now)), Commit(i)).until == o.db.subs[SubIdOf(db, t).value].validUntil
  {
  }

  // ---- when payments act as if one after the other ----------------------------------------

  /** The date is that of the committed payments, one after the other from `v`. */
  predicate Serial(v: Time, w: int, s: State) {
    s.until == PayAll(v, w, s.paid)
  }

  /** A commit whose date has moved on since it was read, so far that it matters. */
  predicate Overtaken(s: State, a: Action)
    requires Enabled(s, a)
  {
    a.Commit? && Max(s.txns[a.i].now, s.txns[a.i].seen) != Max(s.txns[a.i].now, s.until)
  }

  predicate NeverOvertaken(w: int, p: nat, s: State, run: seq<Action>)
    requires Possible(w, p, s, run)
    decreases |run|
  {
    run != [] ==> !Overtaken(s, run[0]) && NeverOvertaken(w, p, Next(w, s, run[0]), run[1..])
  }

  predicate AlwaysSerial(v: Time, w: int, p: nat, s: State, run: seq<Action>)
    requires Possible(w, p, s, run)
    decreases |run|
  {
    Serial(v, w, s) && (run != [] ==> AlwaysSerial(v, w, p, Next(w, s, run[0]), run[1..]))
  }

  lemma {:induction false} PayAllSnoc(v: Time, w: int, times: seq<Time>, now: Time)
    ensures PayAll(v, w, times + [now]) == Max(now, PayAll(v, w, times)) + w
    decreases |times|
  {
    if times == [] {
      assert (times + [now])[1..] == [];
    } else {
      assert (times + [now])[1..] == times[1..] + [now];
      PayAllSnoc(Max(times[0], v) + w, w, times[1..], now);
    }
  }

  lemma StepIsSerialIff(v: Time, w: int, s: State, a: Action)
    requires Serial(v, w, s) && Enabled(s, a)
    ensures Serial(v, w, Next(w, s, a)) <==> !Overtaken(s, a)
  {
    if a.Commit? {
      PayAllSnoc(v, w, s.paid, s.txns[a.i].now);
    }
  }

  /** Over every run of overlapping payments the date is that of the same payments one
      after the other, throughout, if and only if no overtaken payment commits. */
  lemma {:induction false} SerialIffNeverOvertaken(v: Time, w: int, p: nat, s: State, run: seq<Action>)
    requires Serial(v, w, s) && Possible(w, p, s, run)
    ensures AlwaysSerial(v, w, p, s, run) <==> NeverOvertaken(w, p, s, run)
    decreases |run|
  {
    if run != [] {
      StepIsSerialIff(v, w, s, run[0]);
      if !Overtaken(s, run[0]) {
        SerialIffNeverOvertaken(v, w, p, Next(w, s, run[0]), run[1..]);
      } else if run[1..] != [] {
        assert !AlwaysSerial(v, w, p, Next(w, s, run[0]), run[1..]);
      }
    }
  }

  // ---- how many windows survive -------------------------------------------------------------

  /** One payment at a time: it has seen the date that it replaces. */
  ghost predicate UpToDate(v: Time, w: int, s: State) {
    Serial(v, w, s) && forall i :: i in s.txns && !s.txns[i].Ended? ==> s.txns[i].seen == s.until
  }

  lemma OpenAt(txns: map<nat, Txn>, i: nat, j: nat)
    requires i in OpenIn(txns) && j in OpenIn(txns) && |OpenIn(txns)| <= 1
    ensures i == j
  {
    assert |OpenIn(txns) - {i}| == 0;
  }

  lemma StaysUpToDate(v: Time, w: int, s: State, a: Action)
    requires UpToDate(v, w, s) && Enabled(s, a) && |OpenIn(s.txns)| <= 1
    ensures UpToDate(v, w, Next(w, s, a))
  {
    StepIsSerialIff(v, w, s, a);
    var s' := Next(w, s, a);
    forall j | j in s'.txns && !s'.txns[j].Ended? ensures s'.txns[j].seen == s'.until {
      if a.Commit? {
        assert j in OpenIn(s.txns) && a.i in OpenIn(s.txns);
        OpenAt(s.txns, j, a.i);
      }
    }
  }

  lemma {:induction false} OneByOneIsSerial(v: Time, w: int, s: State, run: seq<Action>)
    requires UpToDate(v, w, s) && |OpenIn(s.txns)| <= 1 && Possible(w, 1, s, run)
    ensures UpToDate(v, w, After(w, 1, s, run))
    decreases |run|
  {
    if run != [] {
      StaysUpToDate(v, w, s, run[0]);
      OneByOneIsSerial(v, w, Next(w, s, run[0]), run[1..]);
    }
  }

  /** Whoever read a date read one from `v` on. */
  ghost predicate AtLeast(v: Time, w: int, s: State) {
    && (forall i :: i in s.txns && !s.txns[i].Ended? ==> s.txns[i].seen >= v)
    && s.until >= (if s.paid == [] then v else v + w)
  }

  lemma {:induction false} OneWindowSurvives(v: Time, w: int, p: nat, s: State, run: seq<Action>)
    requires w >= 1 && AtLeast(v, w, s) && Possible(w, p, s, run)
    ensures AtLeast(v, w, After(w, p, s, run))
    decreases |run|
  {
    if run != [] {
      OneWindowSurvives(v, w, p, Next(w, s, run[0]), run[1..]);
    }
  }

  /** The windows that `k` payments are sure to add when at most `p` overlap. */
  function SureWindows(p: nat, k: nat): nat {
    if p == 1 || k == 0 then k else 1
  }

  /** `k` committed payments carry the date at least `n` windows on, in every run. */
  ghost predicate Carries(w: int, p: nat, k: nat, n: int) {
    forall v, run :: Possible(w, p, Settled(v), run) ==> CarriedBy(w, p, v, run, k, n)
  }

  ghost predicate CarriedBy(w: int, p: nat, v: Time, run: seq<Action>, k: nat, n: int)
    requires Possible(w, p, Settled(v), run)
  {
    var s := After(w, p, Settled(v), run);
    |s.paid| == k ==> s.until >= v + n * w
  }

  lemma SettledIsQuiet(v: Time, w: int)
    ensures UpToDate(v, w, Settled(v)) && AtLeast(v, w, Settled(v)) && OpenIn(Settled(v).txns) == {}
  {
  }

  lemma SureIsCarried(w: int, p: nat, v: Time, run: seq<Action>, k: nat, n: int)
    requires w >= 1 && p >= 1 && Possible(w, p, Settled(v), run) && n <= SureWindows(p, k)
    ensures CarriedBy(w, p, v, run, k, n)
  {
    SettledIsQuiet(v, w);
    OneWindowSurvives(v, w, p, Settled(v), run);
    var s := After(w, p, Settled(v), run);
    if p == 1 {
      OneByOneIsSerial(v, w, Settled(v), run);
      PaymentsNeverLoseDays(v, w, s.paid);
    }
    FewerWindows(n, SureWindows(p, k), w);
  }

  lemma FewerWindows(n: int, m: int, w: int)
    requires n <= m && w >= 0
    ensures n * w <= m * w
  {
  }

  // ---- the loss happens ------------------------------------------------------------------------

  predicate Begun(slow: bool, i: nat) {
    slow || i > 0
  }

  /** The payments 1 to `n` are done. Payment 0 may still be under way. */
  function Txns(slow: bool, v: Time, n: nat): map<nat, Txn> {
    map i: nat | i <= n && Begun(slow, i) :: if i == 0 then Asked(v) else Ended
  }

  function Nows(v: Time, n: nat): seq<Time> {
    seq(n, _ => v)
  }

  /** `n` payments came in turn at `v`, the date they started from. With `slow`, another
      has read that date and is still under way. */
  function InTurn(slow: bool, v: Time, w: int, n: nat): State {
    State(v + n * w, Txns(slow, v, n), Nows(v, n))
  }

  predicate Leads(w: int, p: nat, s: State, run: seq<Action>, s': State) {
    Possible(w, p, s, run) && After(w, p, s, run) == s'
  }

  lemma LeadsCons(w: int, p: nat, s: State, a: Action, run: seq<Action>, s': State)
    requires Enabled(s, a) && |OpenIn(Next(w, s, a).txns)| <= p && Leads(w, p, Next(w, s, a), run, s')
    ensures Leads(w, p, s, [a] + run, s')
  {
    assert ([a] + run)[1..] == run;
  }

  lemma OpenInTurn(slow: bool, v: Time, n: nat)
    ensures OpenIn(Txns(slow, v, n)) == (if slow then {0} else {})
  {
  }

  lemma OpenPut(txns: map<nat, Txn>, i: nat, t: Txn)
    requires i !in OpenIn(txns)
    ensures |OpenIn(txns[i := t])| == |OpenIn(txns)| + if t.Ended? then 0 else 1
  {
    assert OpenIn(txns[i := t]) == if t.Ended? then OpenIn(txns) else OpenIn(txns) + {i};
  }

  lemma NextInTurn(slow: bool, v: Time, w: int, n: nat)
    requires w >= 0
    ensures var s := InTurn(slow, v, w, n);
            State(Max(v, s.until) + w, s.txns[n + 1 := Ended], s.paid + [v]) == InTurn(slow, v, w, n + 1)
  {
    FewerWindows(0, n, w);
    assert (n + 1) * w == n * w + w;
    assert Nows(v, n) + [v] == Nows(v, n + 1);
    assert Txns(slow, v, n)[n + 1 := Ended] == Txns(slow, v, n + 1);
  }

  /** One payment from reading to commit, in front of `rest`. */
  lemma PayFrom(w: int, p: nat, s: State, i: nat, v: Time, rest: seq<Action>, end: State) returns (run: seq<Action>)
    requires i !in s.txns && |OpenIn(s.txns)| < p
    requires Leads(w, p, State(Max(v, s.until) + w, s.txns[i := Ended], s.paid + [v]), rest, end)
    ensures Leads(w, p, s, run, end)
  {
    var asked, dated := Asked(s.until), Dated(s.until, v);
    var s1, s2 := s.(txns := s.txns[i := asked]), s.(txns := s.txns[i := dated]);
    OpenPut(s.txns, i, asked);
    OpenPut(s.txns, i, dated);
    OpenPut(s.txns, i, Ended);
    assert s1.txns[i := dated] == s2.txns && s2.txns[i := Ended] == s.txns[i := Ended];
    LeadsCons(w, p, s2, Commit(i), rest, end);
    LeadsCons(w, p, s1, Date(i, v), [Commit(i)] + rest, end);
    LeadsCons(w, p, s, Read(i), [Date(i, v)] + ([Commit(i)] + rest), end);
    run := [Read(i)] + ([Date(i, v)] + ([Commit(i)] + rest));
  }

  lemma {:induction false} PayInTurn(slow: bool, v: Time, w: int, p: nat, n: nat, k: nat, rest: seq<Action>,
                                     end: State)
    returns (run: seq<Action>)
    requires w >= 0 && p >= (if slow then 2 else 1) && n <= k && Leads(w, p, InTurn(slow, v, w, k), rest, end)
    ensures Leads(w, p, InTurn(slow, v, w, n), run, end)
    decreases k - n
  {
    run := rest;
    if n < k {
      run := PayInTurn(slow, v, w, p, n + 1, k, rest, end);
      NextInTurn(slow, v, w, n);
      OpenInTurn(slow, v, n);
      run := PayFrom(w, p, InTurn(slow, v, w, n), n + 1, v, run, end);
    }
  }

  /** The slow payment commits last, and with it the date is back at one window. */
  lemma SlowEnds(v: Time, w: int, p: nat, n: nat) returns (run: seq<Action>, end: State)
    requires p >= 2
    ensures Leads(w, p, InTurn(true, v, w, n), run, end)
    ensures end.until == v + w && |end.paid| == n + 1
  {
    var s := InTurn(true, v, w, n);
    var s1 := Next(w, s, Date(0, v));
    end := Next(w, s1, Commit(0));
    assert OpenIn(s1.txns) == {0} && OpenIn(end.txns) == {};
    LeadsCons(w, p, s1, Commit(0), [], end);
    LeadsCons(w, p, s, Date(0, v), [Commit(0)], end);
    run := [Date(0, v)] + [Commit(0)];
  }

  /** `k` payments that add only the windows they are sure to add. */
  lemma FewestWindows(v: Time, w: int, p: nat, k: nat) returns (run: seq<Action>)
    requires w >= 1 && p >= 1
    ensures Possible(w, p, Settled(v), run)
    ensures var s := After(w, p, Settled(v), run); |s.paid| == k && s.until == v + SureWindows(p, k) * w
  {
    assert Txns(false, v, 0) == map[] && InTurn(false, v, w, 0) == Settled(v);
    if p == 1 || k == 0 {
      run := PayInTurn(false, v, w, p, 0, k, [], InTurn(false, v, w, k));
    } else {
      var rest, end := SlowEnds(v, w, p, k - 1);
      rest := PayInTurn(true, v, w, p, 0, k - 1, rest, end);
      assert Next(w, Settled(v), Read(0)) == InTurn(true, v, w, 0) by {
        assert Txns(false, v, 0)[0 := Asked(v)] == Txns(true, v, 0);
      }
      assert OpenIn(Txns(true, v, 0)) == {0};
      LeadsCons(w, p, Settled(v), Read(0), rest, end);
      run := [Read(0)] + rest;
    }
  }

  /** Exactly what overlapping payments are worth: one after the other, every payment
      adds its window; as soon as two overlap, however many were made, only one window
      is sure. */
  lemma CarriesIff(w: int, p: nat, k: nat, n: int)
    requires w >= 1 && p >= 1
    ensures Carries(w, p, k, n) <==> n <= SureWindows(p, k)
  {
    if n <= SureWindows(p, k) {
      forall v, run | Possible(w, p, Settled(v), run) ensures CarriedBy(w, p, v, run, k, n) {
        SureIsCarried(w, p, v, run, k, n);
      }
    } else {
      var run := FewestWindows(0, w, p, k);
      MoreWindows(n, SureWindows(p, k), w);
      assert !CarriedBy(w, p, 0, run, k, n);
    }
  }

  lemma MoreWindows(n: int, m: int, w: int)
    requires n > m && w >= 1
    ensures n * w > m * w
  {
  }
}
