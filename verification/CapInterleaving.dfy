/** The tenant's seat limit under concurrent bookings.

    `_ensure_tenant_seat` counts the committed live rows of the tenant and takes no
    lock, so bookings that overlap between their count and their commit can all be
    granted the last seat. `rows` holds the committed device rows; a booking writes
    its row and commits it in one step, since nobody else can change the row between
    the two. Batch tokens and their quotas are in `SeatInterleaving`; here a refusal
    by one is an abort, which may happen at any moment. */
module CapInterleaving {
  import opened Ledger

  datatype Seat = Seat(live: bool, tenant: Id)

  datatype Txn =
    | Asking(h: string, t: Id)                  // activation or seat request, nothing read yet
    | Seen(h: string, t: Id, found: bool)       // saw a revoked row, or none
    | Granted(h: string, t: Id, found: bool)    // counted, and found a free seat
    | Freeing(h: string)                        // a release or revocation
    | Restoring(h: string)                      // a reinstatement, nothing read yet
    | Locked(h: string, t: Id)                  // it holds the revoked row
    | Regranted(h: string, t: Id)               // and found a free seat
    | Ended

  datatype State = State(rows: map<string, Seat>, txns: map<nat, Txn>)

  const QUIET := State(map[], map[])

  datatype Action = Begin(i: nat, start: Txn) | Advance(i: nat) | Commit(i: nat) | Abort(i: nat)

  function LiveOf(rows: map<string, Seat>, t: Id): set<string> {
    set h | h in rows && rows[h].live && rows[h].tenant == t
  }

  /** Granted a seat of `t` that no committed row shows yet. */
  predicate Pends(x: Txn, t: Id) {
    (x.Granted? || x.Regranted?) && x.t == t
  }

  function PendingOf(txns: map<nat, Txn>, t: Id): set<nat> {
    set i | i in txns && Pends(txns[i], t)
  }

  predicate HoldsRow(x: Txn, h: string) {
    (x.Locked? || x.Regranted?) && x.h == h
  }

  /** A write of row `h`, like a read that locks it, waits until no other transaction holds it. */
  predicate RowFree(s: State, i: nat, h: string) {
    forall j :: j in s.txns && j != i ==> !HoldsRow(s.txns[j], h)
  }

  predicate Enabled(s: State, a: Action) {
    match a
    case Begin(i, start) => i !in s.txns && (start.Asking? || start.Freeing? || start.Restoring?)
    case Advance(i) =>
      && i in s.txns
      && (match s.txns[i]
          case Asking(_, _) => true
          case Seen(_, _, _) => true
          case Restoring(h) => h in s.rows && RowFree(s, i, h)
          case Locked(_, _) => true
          case _ => false)
    case Commit(i) =>
      && i in s.txns
      && (match s.txns[i]
          case Granted(h, _, found) => if found then h in s.rows && RowFree(s, i, h) else h !in s.rows
          case Freeing(h) => RowFree(s, i, h)
          case Regranted(h, _) => h in s.rows && RowFree(s, i, h)
          case _ => false)
    case Abort(i) => i in s.txns && !s.txns[i].Ended?
  }

  function Put(s: State, i: nat, x: Txn): State {
    s.(txns := s.txns[i := x])
  }

  predicate SeatLeft(limits: map<Id, int>, s: State, t: Id) {
    t in limits && |LiveOf(s.rows, t)| < limits[t]
  }

  function Advanced(limits: map<Id, int>, s: State, i: nat): Txn
    requires Enabled(s, Advance(i))
  {
    match s.txns[i]
    case Asking(h, t) => if h in s.rows && s.rows[h].live then Ended else Seen(h, t, h in s.rows)
    case Seen(h, t, found) => if SeatLeft(limits, s, t) then Granted(h, t, found) else Ended
    case Restoring(h) => if s.rows[h].live then Ended else Locked(h, s.rows[h].tenant)
    case Locked(h, t) => if SeatLeft(limits, s, t) then Regranted(h, t) else Ended
  }

  function Written(s: State, i: nat): map<string, Seat>
    requires Enabled(s, Commit(i))
  {
    match s.txns[i]
    case Granted(h, t, _) => s.rows[h := Seat(true, t)]
    case Freeing(h) => if h in s.rows then s.rows[h := s.rows[h].(live := false)] else s.rows
    case Regranted(h, _) => s.rows[h := s.rows[h].(live := true)]
  }

  function Next(limits: map<Id, int>, s: State, a: Action): State
    requires Enabled(s, a)
  {
    match a
    case Begin(i, start) => Put(s, i, start)
    case Advance(i) => Put(s, i, Advanced(limits, s, i))
    case Commit(i) => State(Written(s, i), s.txns[i := Ended])
    case Abort(i) => Put(s, i, Ended)
  }

  // ---- the bound ------------------------------------------------------------------------

  /** A reinstatement knows the row that it holds. */
  predicate Knows(rows: map<string, Seat>, x: Txn) {
    x.Locked? || x.Regranted? ==> x.h in rows && rows[x.h] == Seat(false, x.t)
  }

  /** Live devices and granted bookings of `t` together. */
  function Used(s: State, t: Id): int {
    |LiveOf(s.rows, t)| + |PendingOf(s.txns, t)|
  }

  /** What `t` can have live when at most `p` of its bookings overlap. */
  function CapMax(limits: map<Id, int>, t: Id, p: nat): int {
    if t in limits && limits[t] >= 1 && p >= 1 then limits[t] + p - 1 else 0
  }

  ghost predicate Inv(limits: map<Id, int>, t: Id, p: nat, s: State) {
    (forall i :: i in s.txns ==> Knows(s.rows, s.txns[i])) && Used(s, t) <= CapMax(limits, t, p)
  }

  function One(b: bool): int {
    if b then 1 else 0
  }

  predicate LiveFor(rows: map<string, Seat>, h: string, t: Id) {
    h in rows && rows[h].live && rows[h].tenant == t
  }

  lemma LiveAt(rows: map<string, Seat>, h: string, r: Seat, t: Id)
    ensures |LiveOf(rows[h := r], t)| == |LiveOf(rows, t)| - One(LiveFor(rows, h, t)) + One(r.live && r.tenant == t)
  {
    var rest := LiveOf(rows, t) - {h};
    assert LiveOf(rows[h := r], t) == if r.live && r.tenant == t then rest + {h} else rest;
    assert LiveOf(rows, t) == if LiveFor(rows, h, t) then rest + {h} else rest;
  }

  lemma PendingAt(txns: map<nat, Txn>, i: nat, x: Txn, t: Id)
    ensures |PendingOf(txns[i := x], t)|
         == |PendingOf(txns, t)| - One(i in txns && Pends(txns[i], t)) + One(Pends(x, t))
  {
    var rest := PendingOf(txns, t) - {i};
    assert PendingOf(txns[i := x], t) == if Pends(x, t) then rest + {i} else rest;
    assert PendingOf(txns, t) == if i in txns && Pends(txns[i], t) then rest + {i} else rest;
  }

  lemma KnowsKept(limits: map<Id, int>, s: State, a: Action)
    requires Enabled(s, a) && forall i :: i in s.txns ==> Knows(s.rows, s.txns[i])
    ensures var s' := Next(limits, s, a); forall i :: i in s'.txns ==> Knows(s'.rows, s'.txns[i])
  {
    var s' := Next(limits, s, a);
    forall j | j in s'.txns ensures Knows(s'.rows, s'.txns[j]) {
      assert j in s.txns ==> Knows(s.rows, s.txns[j]);
    }
  }

  /** How a commit moves the tenant's live count. */
  lemma CommitMoves(s: State, i: nat, t: Id)
    requires Enabled(s, Commit(i)) && Knows(s.rows, s.txns[i])
    ensures |LiveOf(Written(s, i), t)| <= |LiveOf(s.rows, t)| + One(Pends(s.txns[i], t))
  {
    match s.txns[i]
    case Granted(h, u, _) => LiveAt(s.rows, h, Seat(true, u), t);
    case Freeing(h) =>
      if h in s.rows {
        LiveAt(s.rows, h, s.rows[h].(live := false), t);
      }
    case Regranted(h, _) => LiveAt(s.rows, h, s.rows[h].(live := true), t);
  }

  lemma NextKeeps(limits: map<Id, int>, t: Id, p: nat, s: State, a: Action)
    requires Inv(limits, t, p, s) && Enabled(s, a) && |PendingOf(Next(limits, s, a).txns, t)| <= p
    ensures Inv(limits, t, p, Next(limits, s, a))
  {
    KnowsKept(limits, s, a);
    match a
    case Begin(i, start) => PendingAt(s.txns, i, start, t);
    case Advance(i) => PendingAt(s.txns, i, Advanced(limits, s, i), t);
    case Commit(i) =>
      PendingAt(s.txns, i, Ended, t);
      CommitMoves(s, i, t);
    case Abort(i) => PendingAt(s.txns, i, Ended, t);
  }

  /** A run of enabled steps in which at most `p` bookings of `t` are between their
      count and their commit. */
  predicate Possible(limits: map<Id, int>, t: Id, p: nat, s: State, run: seq<Action>)
    decreases |run|
  {
    run != [] ==>
      && Enabled(s, run[0]) && |PendingOf(Next(limits, s, run[0]).txns, t)| <= p
      && Possible(limits, t, p, Next(limits, s, run[0]), run[1..])
  }

  function After(limits: map<Id, int>, t: Id, p: nat, s: State, run: seq<Action>): State
    requires Possible(limits, t, p, s, run)
    decreases |run|
  {
    if run == [] then s else After(limits, t, p, Next(limits, s, run[0]), run[1..])
  }

  lemma {:induction false} RunKeeps(limits: map<Id, int>, t: Id, p: nat, s: State, run: seq<Action>)
    requires Inv(limits, t, p, s) && Possible(limits, t, p, s, run)
    ensures Inv(limits, t, p, After(limits, t, p, s, run))
    decreases |run|
  {
    if run != [] {
      NextKeeps(limits, t, p, s, run[0]);
      RunKeeps(limits, t, p, Next(limits, s, run[0]), run[1..]);
    }
  }

  /** Within the limit, a step takes the tenant over it exactly when it commits a
      booking whose seat was taken since its count. */
  lemma StepExceedsIff(limits: map<Id, int>, t: Id, p: nat, s: State, a: Action)
    requires Inv(limits, t, p, s) && Enabled(s, a) && t in limits && |LiveOf(s.rows, t)| <= limits[t]
    ensures |LiveOf(Next(limits, s, a).rows, t)| > limits[t]
       <==> a.Commit? && Pends(s.txns[a.i], t) && !LiveFor(s.rows, s.txns[a.i].h, t) && !SeatLeft(limits, s, t)
  {
    match a
    case Commit(i) =>
      CommitMoves(s, i, t);
      if Pends(s.txns[i], t) {
        assert Knows(s.rows, s.txns[i]);
        LiveAt(s.rows, s.txns[i].h, Seat(true, t), t);
      }
    case _ =>
  }

  // ---- the bound is reached -----------------------------------------------------------------

  function Name(n: nat): string {
    seq(n, _ => 'x')
  }

  function Rows(t: Id, n: nat): map<string, Seat> {
    if n == 0 then map[] else Rows(t, n - 1)[Name(n - 1) := Seat(true, t)]
  }

  function Txns(t: Id, n: nat, m: nat): map<nat, Txn> {
    map i: nat | i < n + m :: if i < n then Ended else Granted(Name(i), t, false)
  }

  /** `n` devices live, `m` bookings granted. */
  function Hall(t: Id, n: nat, m: nat): State {
    State(Rows(t, n), Txns(t, n, m))
  }

  lemma {:induction false} RowsAt(t: Id, n: nat, k: nat)
    ensures Name(k) in Rows(t, n) <==> k < n
    decreases n
  {
    if n > 0 {
      RowsAt(t, n - 1, k);
      assert |Name(k)| == k && |Name(n - 1)| == n - 1;
    }
  }

  lemma {:induction false} RowsLive(t: Id, n: nat)
    ensures |LiveOf(Rows(t, n), t)| == n
  {
    if n > 0 {
      RowsLive(t, n - 1);
      RowsAt(t, n - 1, n - 1);
      LiveAt(Rows(t, n - 1), Name(n - 1), Seat(true, t), t);
    }
  }

  lemma {:induction false} HallPending(t: Id, n: nat, m: nat)
    ensures |PendingOf(Txns(t, n, m), t)| == m
    decreases m
  {
    if m == 0 {
      assert PendingOf(Txns(t, n, m), t) == {};
    } else {
      HallPending(t, n, m - 1);
      assert Txns(t, n, m) == Txns(t, n, m - 1)[n + m - 1 := Granted(Name(n + m - 1), t, false)];
      PendingAt(Txns(t, n, m - 1), n + m - 1, Granted(Name(n + m - 1), t, false), t);
    }
  }

  /** `run` takes `s` to `n` live devices and no booking under way. */
  predicate Fills(limits: map<Id, int>, t: Id, p: nat, s: State, run: seq<Action>, n: nat) {
    Possible(limits, t, p, s, run) && After(limits, t, p, s, run) == Hall(t, n, 0)
  }

  lemma FillsCons(limits: map<Id, int>, t: Id, p: nat, s: State, a: Action, run: seq<Action>, n: nat)
    requires Enabled(s, a) && |PendingOf(Next(limits, s, a).txns, t)| <= p
    requires Fills(limits, t, p, Next(limits, s, a), run, n)
    ensures Fills(limits, t, p, s, [a] + run, n)
  {
    assert ([a] + run)[1..] == run;
  }

  /** The granted bookings commit, one after the other. */
  lemma {:induction false} CommitAll(limits: map<Id, int>, t: Id, p: nat, n: nat, m: nat) returns (run: seq<Action>)
    requires m <= p
    ensures Fills(limits, t, p, Hall(t, n, m), run, n + m)
    decreases m
  {
    if m == 0 {
      run := [];
    } else {
      var rest := CommitAll(limits, t, p, n + 1, m - 1);
      RowsAt(t, n, n);
      HallPending(t, n + 1, m - 1);
      assert Txns(t, n, m)[n := Ended] == Txns(t, n + 1, m - 1);
      assert Next(limits, Hall(t, n, m), Commit(n)) == Hall(t, n + 1, m - 1);
      FillsCons(limits, t, p, Hall(t, n, m), Commit(n), rest, n + m);
      run := [Commit(n)] + rest;
    }
  }

  /** A booking of new hardware is granted. */
  lemma GrantFrom(limits: map<Id, int>, t: Id, p: nat, s: State, i: nat, h: string, rest: seq<Action>, end: nat)
    returns (run: seq<Action>)
    requires i !in s.txns && h !in s.rows && SeatLeft(limits, s, t) && |PendingOf(s.txns, t)| < p
    requires Fills(limits, t, p, Put(s, i, Granted(h, t, false)), rest, end)
    ensures Fills(limits, t, p, s, run, end)
  {
    var s1, s2 := Put(s, i, Asking(h, t)), Put(s, i, Seen(h, t, false));
    PendingAt(s.txns, i, Asking(h, t), t);
    PendingAt(s.txns, i, Seen(h, t, false), t);
    PendingAt(s.txns, i, Granted(h, t, false), t);
    assert s1.txns[i := Seen(h, t, false)] == s2.txns;
    assert s2.txns[i := Granted(h, t, false)] == s.txns[i := Granted(h, t, false)];
    FillsCons(limits, t, p, s2, Advance(i), rest, end);
    FillsCons(limits, t, p, s1, Advance(i), [Advance(i)] + rest, end);
    FillsCons(limits, t, p, s, Begin(i, Asking(h, t)), [Advance(i)] + ([Advance(i)] + rest), end);
    run := [Begin(i, Asking(h, t))] + ([Advance(i)] + ([Advance(i)] + rest));
  }

  /** One more booking is granted. */
  lemma Grant(limits: map<Id, int>, t: Id, p: nat, n: nat, m: nat, rest: seq<Action>, end: nat)
    returns (run: seq<Action>)
    requires t in limits && n < limits[t] && m < p && Fills(limits, t, p, Hall(t, n, m + 1), rest, end)
    ensures Fills(limits, t, p, Hall(t, n, m), run, end)
  {
    RowsAt(t, n, n + m);
    RowsLive(t, n);
    HallPending(t, n, m);
    assert Txns(t, n, m)[n + m := Granted(Name(n + m), t, false)] == Txns(t, n, m + 1);
    run := GrantFrom(limits, t, p, Hall(t, n, m), n + m, Name(n + m), rest, end);
  }

  /** `p` bookings are granted the last seat. */
  lemma {:induction false} GrantAll(limits: map<Id, int>, t: Id, p: nat, n: nat, m: nat) returns (run: seq<Action>)
    requires t in limits && n < limits[t] && m <= p
    ensures Fills(limits, t, p, Hall(t, n, m), run, n + p)
    decreases p - m
  {
    if m == p {
      run := CommitAll(limits, t, p, n, m);
    } else {
      var rest := GrantAll(limits, t, p, n, m + 1);
      run := Grant(limits, t, p, n, m, rest, n + p);
    }
  }

  /** All seats but one are booked in turn, the last one by `p` bookings that overlap. */
  lemma {:induction false} FillUp(limits: map<Id, int>, t: Id, p: nat, n: nat) returns (run: seq<Action>)
    requires t in limits && n < limits[t] && p >= 1
    ensures Fills(limits, t, p, Hall(t, n, 0), run, CapMax(limits, t, p))
    decreases limits[t] - n
  {
    if n + 1 == limits[t] {
      run := GrantAll(limits, t, p, n, 0);
    } else {
      var rest := FillUp(limits, t, p, n + 1);
      RowsAt(t, n, n);
      HallPending(t, n + 1, 0);
      assert Txns(t, n, 1)[n := Ended] == Txns(t, n + 1, 0);
      assert Next(limits, Hall(t, n, 1), Commit(n)) == Hall(t, n + 1, 0);
      FillsCons(limits, t, p, Hall(t, n, 1), Commit(n), rest, CapMax(limits, t, p));
      run := Grant(limits, t, p, n, 0, [Commit(n)] + rest, CapMax(limits, t, p));
    }
  }

  /** From empty tables, `t` never has more than `most` live devices while at most `p`
      of its bookings overlap. */
  ghost predicate Caps(limits: map<Id, int>, t: Id, p: nat, most: int) {
    forall run :: Possible(limits, t, p, QUIET, run) ==> |LiveOf(After(limits, t, p, QUIET, run).rows, t)| <= most
  }

  /** The exact bound on a tenant's live devices: its limit, and one more for every
      further booking that may overlap. */
  lemma CapIsExact(limits: map<Id, int>, t: Id, p: nat, most: int)
    ensures Caps(limits, t, p, most) <==> CapMax(limits, t, p) <= most
  {
    assert LiveOf(QUIET.rows, t) == {} && PendingOf(QUIET.txns, t) == {};
    if CapMax(limits, t, p) <= most {
      forall run | Possible(limits, t, p, QUIET, run)
        ensures |LiveOf(After(limits, t, p, QUIET, run).rows, t)| <= most
      {
        RunKeeps(limits, t, p, QUIET, run);
      }
    } else if CapMax(limits, t, p) > 0 {
      var run := FillUp(limits, t, p, 0);
      assert Hall(t, 0, 0) == QUIET;
      RowsLive(t, CapMax(limits, t, p));
      assert |LiveOf(After(limits, t, p, QUIET, run).rows, t)| > most;
    } else {
      assert Possible(limits, t, p, QUIET, []);
      assert |LiveOf(After(limits, t, p, QUIET, []).rows, t)| > most;
    }
  }

  /** The seat limit holds over all runs if and only if bookings of the tenant do not
      overlap, or it has no seat at all. */
  lemma LimitHoldsIff(limits: map<Id, int>, t: Id, p: nat)
    requires t in limits && limits[t] >= 0 && p >= 1
    ensures Caps(limits, t, p, limits[t]) <==> p == 1 || limits[t] == 0
  {
    CapIsExact(limits, t, p, limits[t]);
  }
}
