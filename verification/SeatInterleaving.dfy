/** Concurrent seat transactions, one SQL statement at a time.

    Every transaction runs at READ COMMITTED: a plain read sees the last
    committed row, an UPDATE or SELECT FOR UPDATE waits for the row lock and then
    works on the newest version, and locks are kept until the end. `rows` and
    `tokens` hold the newest versions, committed or not; a transaction that wrote
    a row keeps the old version, which is what others still read and what an
    abort puts back. Any transaction may abort at any moment: a refused cap or
    quota check, a missing field, a unique violation, a deadlock. */
module SeatInterleaving {
  import opened Wrappers
  import opened Ledger

  /** A batch token. `lost` is a history variable: seats charged for a live row
      that a later commit overwrote. */
  datatype Token = Token(quota: int, seats: int, lost: int)

  /** A device row. `stamp` is the last transaction that wrote the columns
      that no seat count reads. */
  datatype Row = Row(live: bool, via: Id, stamp: int)

  /** Where a transaction is, with what it holds and what an abort restores. */
  datatype Txn =
    | BookStart(h: string, k: Id)                        // activation or seat request, nothing read yet
    | BookRead(h: string, k: Id, found: bool)            // saw a revoked row, or none
    | Booking(h: string, k: Id, found: bool)             // seat spent, row not written; holds k
    | Booked(h: string, k: Id, prev: Option<Row>)        // row written; holds k and h
    | TouchStart(h: string)                              // saw a live row: rotate its key
    | Touching(h: string, was: Row)                      // holds h
    | ReleaseStart(h: string)
    | Releasing(h: string, was: Row)                     // row revoked, seat not returned; holds h
    | Released(h: string, was: Row, returned: bool)      // holds h and the token of old
    | ReinstateStart(h: string)
    | ReinstateLocked(h: string)                         // revoked row locked; holds h
    | Reinstating(h: string, k: Id)                      // seat spent; holds h and k
    | Reinstated(h: string, k: Id, was: Row)             // row live again; holds h and k
    | Ended

  datatype State = State(tokens: map<Id, Token>, rows: map<string, Row>, txns: map<nat, Txn>)

  predicate HoldsRow(t: Txn, h: string) {
    (t.Booked? || t.Touching? || t.Releasing? || t.Released? || t.ReinstateLocked? || t.Reinstating? || t.Reinstated?)
    && t.h == h
  }

  predicate HoldsToken(t: Txn, k: Id) {
    match t
    case Booking(_, j, _) => j == k
    case Booked(_, j, _) => j == k
    case Released(_, was, _) => was.via == k
    case Reinstating(_, j) => j == k
    case Reinstated(_, j, _) => j == k
    case _ => false
  }

  predicate RowFree(s: State, i: nat, h: string) {
    forall j :: j in s.txns && j != i ==> !HoldsRow(s.txns[j], h)
  }

  predicate TokenFree(s: State, i: nat, k: Id) {
    forall j :: j in s.txns && j != i ==> !HoldsToken(s.txns[j], k)
  }

  /** The version of row `h` that a plain read sees. */
  ghost function CommittedRow(s: State, h: string): Option<Row> {
    if exists i :: i in s.txns && HoldsRow(s.txns[i], h) then
      var i :| i in s.txns && HoldsRow(s.txns[i], h);
      match s.txns[i]
      case Booked(_, _, prev) => prev
      case Touching(_, was) => Some(was)
      case Releasing(_, was) => Some(was)
      case Released(_, was, _) => Some(was)
      case Reinstated(_, _, was) => Some(was)
      case _ => if h in s.rows then Some(s.rows[h]) else None
    else if h in s.rows then Some(s.rows[h]) else None
  }

  // ---- steps ------------------------------------------------------------------

  datatype Action = Begin(i: nat, start: Txn) | Advance(i: nat) | Commit(i: nat) | Abort(i: nat)

  function SetTxn(s: State, i: nat, t: Txn): State {
    s.(txns := s.txns[i := t])
  }

  function SetRow(s: State, h: string, r: Row): State {
    s.(rows := s.rows[h := r])
  }

  function AddSeats(s: State, k: Id, n: int): State {
    if k !in s.tokens then s
    else s.(tokens := s.tokens[k := s.tokens[k].(seats := s.tokens[k].seats + n)])
  }

  ghost predicate Enabled(s: State, a: Action) {
    match a
    case Begin(i, start) =>
      && i !in s.txns
      && (start.BookStart? || start.ReleaseStart? || start.ReinstateStart?)
      && (start.BookStart? ==> start.k in s.tokens)
    case Abort(i) => i in s.txns && !s.txns[i].Ended?
    case Commit(i) =>
      i in s.txns && (s.txns[i].Booked? || s.txns[i].Touching? || s.txns[i].Released? || s.txns[i].Reinstated?)
    case Advance(i) =>
      && i in s.txns
      && match s.txns[i]
         case BookStart(_, _) => true
         case BookRead(_, k, _) => k in s.tokens && TokenFree(s, i, k) && s.tokens[k].seats < s.tokens[k].quota
         case Booking(h, _, found) => if found then h in s.rows && RowFree(s, i, h) else h !in s.rows
         case TouchStart(h) => h in s.rows && RowFree(s, i, h)
         case ReleaseStart(h) =>
           var seen := CommittedRow(s, h);
           seen.Some? && seen.value.live ==> h in s.rows && RowFree(s, i, h)
         case Releasing(_, was) => was.via in s.tokens && TokenFree(s, i, was.via)
         case ReinstateStart(h) => h in s.rows && RowFree(s, i, h)
         case ReinstateLocked(h) =>
           && h in s.rows && s.rows[h].via in s.tokens && TokenFree(s, i, s.rows[h].via)
           && s.tokens[s.rows[h].via].seats < s.tokens[s.rows[h].via].quota
         case Reinstating(h, _) => h in s.rows
         case _ => false
  }

  ghost function DoAdvance(s: State, i: nat): State
    requires Enabled(s, Advance(i))
  {
    match s.txns[i]
    case BookStart(h, k) =>
      var seen := CommittedRow(s, h);
      if seen.Some? && seen.value.live then SetTxn(s, i, TouchStart(h)) else SetTxn(s, i, BookRead(h, k, seen.Some?))
    case BookRead(h, k, found) => SetTxn(AddSeats(s, k, 1), i, Booking(h, k, found))
    case Booking(h, k, found) =>
      var prev := if h in s.rows then Some(s.rows[h]) else None;
      SetTxn(SetRow(s, h, Row(true, k, i)), i, Booked(h, k, prev))
    case TouchStart(h) =>
      SetTxn(SetRow(s, h, s.rows[h].(stamp := i)), i, Touching(h, s.rows[h]))
    case ReleaseStart(h) =>
      var seen := CommittedRow(s, h);
      if seen.Some? && seen.value.live && s.rows[h].live
      then SetTxn(SetRow(s, h, s.rows[h].(live := false)), i, Releasing(h, s.rows[h]))
      else SetTxn(s, i, Ended)
    case Releasing(h, was) =>
      if s.tokens[was.via].seats > 0 then SetTxn(AddSeats(s, was.via, -1), i, Released(h, was, true))
      else SetTxn(s, i, Released(h, was, false))
    case ReinstateStart(h) => SetTxn(s, i, if s.rows[h].live then Ended else ReinstateLocked(h))
    case ReinstateLocked(h) => SetTxn(AddSeats(s, s.rows[h].via, 1), i, Reinstating(h, s.rows[h].via))
    case Reinstating(h, k) => SetTxn(SetRow(s, h, s.rows[h].(live := true)), i, Reinstated(h, k, s.rows[h]))
  }

  function Lose(tokens: map<Id, Token>, k: Id): map<Id, Token>
    requires k in tokens
  {
    tokens[k := tokens[k].(lost := tokens[k].lost + 1)]
  }

  /** A commit that overwrote a live row charges that row's token for good. */
  function DoCommit(s: State, i: nat): State
    requires i in s.txns
  {
    match s.txns[i]
    case Booked(_, _, Some(was)) =>
      if was.live && was.via in s.tokens
      then SetTxn(s.(tokens := Lose(s.tokens, was.via)), i, Ended)
      else SetTxn(s, i, Ended)
    case _ => SetTxn(s, i, Ended)
  }

  function Undone(s: State, i: nat): State
    requires i in s.txns
  {
    match s.txns[i]
    case Booking(_, k, _) => AddSeats(s, k, -1)
    case Booked(h, k, prev) =>
      var s1 := AddSeats(s, k, -1);
      if prev.Some? then SetRow(s1, h, prev.value) else s1.(rows := s1.rows - {h})
    case Touching(h, was) => SetRow(s, h, was)
    case Releasing(h, was) => SetRow(s, h, was)
    case Released(h, was, returned) => SetRow(if returned then AddSeats(s, was.via, 1) else s, h, was)
    case Reinstating(_, k) => AddSeats(s, k, -1)
    case Reinstated(h, k, was) => SetRow(AddSeats(s, k, -1), h, was)
    case _ => s
  }

  // ---- the invariant -----------------------------------------------------------

  function LiveOn(rows: map<string, Row>, k: Id): set<string> {
    set h | h in rows && rows[h].live && rows[h].via == k
  }

  /** The token that an unfinished transaction still has a seat on, beyond the
      live rows: a booking in flight, a release in flight, or the live row that
      an abort would bring back. */
  function Claim(t: Txn): Option<Id> {
    match t
    case Booking(_, k, _) => Some(k)
    case Booked(_, _, Some(was)) => if was.live then Some(was.via) else None
    case Releasing(_, was) => Some(was.via)
    case Released(_, was, returned) => if returned then None else Some(was.via)
    case Reinstating(_, k) => Some(k)
    case _ => None
  }

  function ClaimsOn(txns: map<nat, Txn>, k: Id): set<nat> {
    set i | i in txns && Claim(txns[i]) == Some(k)
  }

  ghost predicate Exclusive(txns: map<nat, Txn>) {
    && (forall i, j, h :: i in txns && j in txns && HoldsRow(txns[i], h) && HoldsRow(txns[j], h) ==> i == j)
    && (forall i, j, k :: i in txns && j in txns && HoldsToken(txns[i], k) && HoldsToken(txns[j], k) ==> i == j)
  }

  /** What a transaction knows of the rows and tokens it holds. */
  predicate Consistent(tokens: map<Id, Token>, rows: map<string, Row>, t: Txn) {
    match t
    case BookStart(_, k) => k in tokens
    case BookRead(_, k, _) => k in tokens
    case Booking(_, k, _) => k in tokens
    case Booked(h, k, prev) =>
      k in tokens && h in rows && rows[h].live && rows[h].via == k && (prev.Some? ==> prev.value.via in tokens)
    case Touching(h, was) => h in rows && rows[h].live == was.live && rows[h].via == was.via
    case Releasing(h, was) => h in rows && !rows[h].live && was.live && was.via == rows[h].via
    case Released(h, was, returned) =>
      && h in rows && !rows[h].live && was.live && was.via == rows[h].via && was.via in tokens
      && returned && tokens[was.via].seats < tokens[was.via].quota
    case ReinstateLocked(h) => h in rows && !rows[h].live
    case Reinstating(h, k) => h in rows && !rows[h].live && rows[h].via == k && k in tokens
    case Reinstated(h, k, was) =>
      h in rows && rows[h].live && rows[h].via == k && k in tokens && !was.live && was.via == k
    case _ => true
  }

  /** Every seat charged is a live row, a claim in flight, or a seat lost to an overwrite. */
  ghost predicate Balanced(s: State) {
    forall k :: k in s.tokens ==>
      && s.tokens[k].seats == |LiveOn(s.rows, k)| + |ClaimsOn(s.txns, k)| + s.tokens[k].lost
      && s.tokens[k].seats <= s.tokens[k].quota && s.tokens[k].lost >= 0
  }

  ghost predicate Inv(s: State) {
    && Exclusive(s.txns)
    && (forall i :: i in s.txns ==> Consistent(s.tokens, s.rows, s.txns[i]))
    && (forall h :: h in s.rows ==> s.rows[h].via in s.tokens)
    && Balanced(s)
  }

  ghost function Next(s: State, a: Action): State
    requires Enabled(s, a)
  {
    match a
    case Begin(i, start) => SetTxn(s, i, start)
    case Advance(i) => DoAdvance(s, i)
    case Commit(i) => DoCommit(s, i)
    case Abort(i) => SetTxn(Undone(s, i), i, Ended)
  }

  // ---- counting --------------------------------------------------------------------

  function One(b: bool): int {
    if b then 1 else 0
  }

  predicate Counts(r: Row, k: Id) {
    r.live && r.via == k
  }

  lemma RowCountAt(rows: map<string, Row>, h: string, r: Row, k: Id)
    ensures |LiveOn(rows[h := r], k)| == |LiveOn(rows, k)| - One(h in rows && Counts(rows[h], k)) + One(Counts(r, k))
  {
    var rest := LiveOn(rows, k) - {h};
    assert LiveOn(rows[h := r], k) == if Counts(r, k) then rest + {h} else rest;
    assert LiveOn(rows, k) == if h in rows && Counts(rows[h], k) then rest + {h} else rest;
  }

  lemma ClaimCountAt(txns: map<nat, Txn>, i: nat, t: Txn, k: Id)
    ensures |ClaimsOn(txns[i := t], k)|
         == |ClaimsOn(txns, k)| - One(i in txns && Claim(txns[i]) == Some(k)) + One(Claim(t) == Some(k))
  {
    var rest := ClaimsOn(txns, k) - {i};
    assert ClaimsOn(txns[i := t], k) == if Claim(t) == Some(k) then rest + {i} else rest;
    assert ClaimsOn(txns, k) == if i in txns && Claim(txns[i]) == Some(k) then rest + {i} else rest;
  }

  lemma ClaimCount(txns: map<nat, Txn>, i: nat, t: Txn)
    ensures forall k: Id :: |ClaimsOn(txns[i := t], k)|
              == |ClaimsOn(txns, k)| - One(i in txns && Claim(txns[i]) == Some(k)) + One(Claim(t) == Some(k))
  {
    forall k: Id {
      ClaimCountAt(txns, i, t, k);
    }
  }

  // ---- one step --------------------------------------------------------------------------

  /** A step of transaction `i` that only writes what nobody else holds leaves
      every other transaction consistent. */
  lemma OthersUndisturbed(s: State, s': State, i: nat)
    requires Inv(s) && s'.tokens.Keys == s.tokens.Keys
    requires forall h ::
               (h in s.rows) != (h in s'.rows) || (h in s.rows && s.rows[h] != s'.rows[h]) ==> RowFree(s, i, h)
    requires forall k :: k in s.tokens && s.tokens[k].seats != s'.tokens[k].seats ==> TokenFree(s, i, k)
    requires forall k :: k in s.tokens ==> s.tokens[k].quota == s'.tokens[k].quota
    ensures forall j :: j in s.txns && j != i ==> Consistent(s'.tokens, s'.rows, s.txns[j])
  {
    forall j | j in s.txns && j != i ensures Consistent(s'.tokens, s'.rows, s.txns[j]) {
      var t := s.txns[j];
      assert Consistent(s.tokens, s.rows, t);
      if t.Booked? || t.Touching? || t.Releasing? || t.Released?
         || t.ReinstateLocked? || t.Reinstating? || t.Reinstated?
      {
        assert HoldsRow(t, t.h);
        assert s'.rows[t.h] == s.rows[t.h];
      }
      if t.Released? {
        assert HoldsToken(t, t.was.via);
        assert s'.tokens[t.was.via].seats == s.tokens[t.was.via].seats;
      }
    }
  }

  lemma StillExclusive(txns: map<nat, Txn>, i: nat, t: Txn)
    requires Exclusive(txns)
    requires forall j, h :: j in txns && j != i && HoldsRow(t, h) ==> !HoldsRow(txns[j], h)
    requires forall j, k :: j in txns && j != i && HoldsToken(t, k) ==> !HoldsToken(txns[j], k)
    ensures Exclusive(txns[i := t])
  {
  }

  /** Gathers the four parts of the invariant after a step of transaction `i`. */
  lemma Gather(s: State, s': State, i: nat, t: Txn)
    requires Inv(s) && s'.tokens.Keys == s.tokens.Keys && s'.txns == s.txns[i := t]
    requires forall h ::
               (h in s.rows) != (h in s'.rows) || (h in s.rows && s.rows[h] != s'.rows[h]) ==> RowFree(s, i, h)
    requires forall k :: k in s.tokens && s.tokens[k].seats != s'.tokens[k].seats ==> TokenFree(s, i, k)
    requires forall k :: k in s.tokens ==> s.tokens[k].quota == s'.tokens[k].quota
    requires forall h :: HoldsRow(t, h) ==> RowFree(s, i, h)
    requires forall k :: HoldsToken(t, k) ==> TokenFree(s, i, k)
    requires Consistent(s'.tokens, s'.rows, t)
    requires forall h :: h in s'.rows ==> s'.rows[h].via in s.tokens
    requires Balanced(s')
    ensures Inv(s')
  {
    OthersUndisturbed(s, s', i);
    StillExclusive(s.txns, i, t);
  }

  lemma HeldIsFree(s: State, i: nat)
    requires Inv(s) && i in s.txns
    ensures forall h :: HoldsRow(s.txns[i], h) ==> RowFree(s, i, h)
    ensures forall k :: HoldsToken(s.txns[i], k) ==> TokenFree(s, i, k)
  {
  }

  lemma MoveKeeps(s: State, i: nat, t: Txn)
    requires Inv(s) && (i in s.txns ==> Claim(s.txns[i]) == None) && Claim(t) == None
    requires forall h :: HoldsRow(t, h) ==> RowFree(s, i, h)
    requires forall k :: !HoldsToken(t, k)
    requires Consistent(s.tokens, s.rows, t)
    ensures Inv(SetTxn(s, i, t))
  {
    ClaimCount(s.txns, i, t);
    Gather(s, SetTxn(s, i, t), i, t);
  }

  /** Spending a seat: the two conditional UPDATEs of `seats_consumed`. */
  lemma SpendKeeps(s: State, i: nat, k: Id, t: Txn)
    requires Inv(s) && i in s.txns && k in s.tokens && TokenFree(s, i, k) && s.tokens[k].seats < s.tokens[k].quota
    requires Claim(s.txns[i]) == None && Claim(t) == Some(k)
    requires forall h :: HoldsRow(t, h) ==> RowFree(s, i, h)
    requires forall j :: HoldsToken(t, j) ==> j == k
    requires t.Booking? || (t.Reinstating? && t.h in s.rows && !s.rows[t.h].live && s.rows[t.h].via == k)
    ensures Inv(SetTxn(AddSeats(s, k, 1), i, t))
  {
    var s' := SetTxn(AddSeats(s, k, 1), i, t);
    forall j | j in s'.tokens
      ensures s'.tokens[j].seats == |LiveOn(s'.rows, j)| + |ClaimsOn(s'.txns, j)| + s'.tokens[j].lost
    {
      ClaimCountAt(s.txns, i, t, j);
    }
    Gather(s, s', i, t);
  }

  lemma WriteBalances(s: State, i: nat, h: string, r: Row, t: Txn)
    requires Balanced(s) && i in s.txns
    requires forall k: Id :: One(h in s.rows && Counts(s.rows[h], k)) + One(Claim(s.txns[i]) == Some(k))
                          == One(Counts(r, k)) + One(Claim(t) == Some(k))
    ensures Balanced(SetTxn(SetRow(s, h, r), i, t))
  {
    var s' := SetTxn(SetRow(s, h, r), i, t);
    forall k | k in s'.tokens
      ensures s'.tokens[k].seats == |LiveOn(s'.rows, k)| + |ClaimsOn(s'.txns, k)| + s'.tokens[k].lost
    {
      RowCountAt(s.rows, h, r, k);
      ClaimCountAt(s.txns, i, t, k);
    }
  }

  /** Writing row `h`, which `i` holds or nobody does, without touching a counter:
      the row count moves by as much as the claim does. */
  lemma WriteKeeps(s: State, i: nat, h: string, r: Row, t: Txn)
    requires Inv(s) && i in s.txns && RowFree(s, i, h) && r.via in s.tokens
    requires forall k: Id :: One(h in s.rows && Counts(s.rows[h], k)) + One(Claim(s.txns[i]) == Some(k))
                          == One(Counts(r, k)) + One(Claim(t) == Some(k))
    requires forall g :: HoldsRow(t, g) ==> g == h
    requires forall k :: HoldsToken(t, k) ==> HoldsToken(s.txns[i], k)
    requires Consistent(s.tokens, s.rows[h := r], t)
    ensures Inv(SetTxn(SetRow(s, h, r), i, t))
  {
    WriteBalances(s, i, h, r, t);
    HeldIsFree(s, i);
    Gather(s, SetTxn(SetRow(s, h, r), i, t), i, t);
  }

  lemma ReturnBalances(s: State, i: nat, k: Id, t: Txn)
    requires Balanced(s) && i in s.txns && k in s.tokens && Claim(s.txns[i]) == Some(k) && Claim(t) == None
    ensures s.tokens[k].seats > 0
    ensures Balanced(SetTxn(AddSeats(s, k, -1), i, t))
  {
    var s' := SetTxn(AddSeats(s, k, -1), i, t);
    assert i in ClaimsOn(s.txns, k);
    forall j | j in s'.tokens
      ensures s'.tokens[j].seats == |LiveOn(s'.rows, j)| + |ClaimsOn(s'.txns, j)| + s'.tokens[j].lost
           && s'.tokens[j].seats <= s'.tokens[j].quota && s'.tokens[j].lost >= 0
    {
      ClaimCountAt(s.txns, i, t, j);
      assert s'.tokens[j].seats == s.tokens[j].seats - One(j == k);
    }
  }

  lemma ReturnKeeps(s: State, i: nat)
    requires Inv(s) && i in s.txns && s.txns[i].Releasing? && TokenFree(s, i, s.txns[i].was.via)
    requires s.txns[i].was.via in s.tokens
    ensures s.tokens[s.txns[i].was.via].seats > 0
    ensures Inv(DoAdvance(s, i))
  {
    var k := s.txns[i].was.via;
    var t := Released(s.txns[i].h, s.txns[i].was, true);
    ReturnBalances(s, i, k, t);
    HeldIsFree(s, i);
    assert HoldsRow(s.txns[i], s.txns[i].h);
    assert Consistent(s.tokens, s.rows, s.txns[i]);
    Gather(s, SetTxn(AddSeats(s, k, -1), i, t), i, t);
  }

  /** A row that does not exist is held by nobody. */
  lemma FreshRowIsFree(s: State, i: nat, h: string)
    requires Inv(s) && h !in s.rows
    ensures RowFree(s, i, h)
  {
    forall j | j in s.txns ensures !HoldsRow(s.txns[j], h) {
      assert Consistent(s.tokens, s.rows, s.txns[j]);
    }
  }

  lemma ReadKeeps(s: State, i: nat)
    requires Inv(s) && Enabled(s, Advance(i)) && (s.txns[i].BookStart? || s.txns[i].ReinstateStart?)
    ensures Inv(DoAdvance(s, i))
  {
    assert Consistent(s.tokens, s.rows, s.txns[i]);
    MoveKeeps(s, i, DoAdvance(s, i).txns[i]);
  }

  lemma BookKeeps(s: State, i: nat)
    requires Inv(s) && Enabled(s, Advance(i)) && s.txns[i].Booking?
    ensures Inv(DoAdvance(s, i))
  {
    assert Consistent(s.tokens, s.rows, s.txns[i]);
    var h := s.txns[i].h;
    if h !in s.rows {
      FreshRowIsFree(s, i, h);
    }
    WriteKeeps(s, i, h, Row(true, s.txns[i].k, i), DoAdvance(s, i).txns[i]);
  }

  lemma ReleaseKeeps(s: State, i: nat)
    requires Inv(s) && Enabled(s, Advance(i)) && s.txns[i].ReleaseStart?
    ensures Inv(DoAdvance(s, i))
  {
    var h := s.txns[i].h;
    var seen := CommittedRow(s, h);
    if seen.Some? && seen.value.live && s.rows[h].live {
      WriteKeeps(s, i, h, s.rows[h].(live := false), Releasing(h, s.rows[h]));
    } else {
      MoveKeeps(s, i, Ended);
    }
  }

  lemma TouchKeeps(s: State, i: nat)
    requires Inv(s) && Enabled(s, Advance(i)) && s.txns[i].TouchStart?
    ensures Inv(DoAdvance(s, i))
  {
    var h := s.txns[i].h;
    WriteKeeps(s, i, h, s.rows[h].(stamp := i), Touching(h, s.rows[h]));
  }

  lemma ReviveKeeps(s: State, i: nat)
    requires Inv(s) && Enabled(s, Advance(i)) && s.txns[i].Reinstating?
    ensures Inv(DoAdvance(s, i))
  {
    HeldIsFree(s, i);
    var h, k := s.txns[i].h, s.txns[i].k;
    assert Consistent(s.tokens, s.rows, s.txns[i]);
    assert HoldsRow(s.txns[i], h);
    WriteKeeps(s, i, h, s.rows[h].(live := true), Reinstated(h, k, s.rows[h]));
  }

  lemma BookingSpends(s: State, i: nat)
    requires Inv(s) && Enabled(s, Advance(i)) && s.txns[i].BookRead?
    ensures Inv(DoAdvance(s, i))
  {
    var t := s.txns[i];
    SpendKeeps(s, i, t.k, Booking(t.h, t.k, t.found));
  }

  lemma ReinstatementSpends(s: State, i: nat)
    requires Inv(s) && Enabled(s, Advance(i)) && s.txns[i].ReinstateLocked?
    ensures Inv(DoAdvance(s, i))
  {
    var h := s.txns[i].h;
    HeldIsFree(s, i);
    assert HoldsRow(s.txns[i], h) && Consistent(s.tokens, s.rows, s.txns[i]);
    SpendKeeps(s, i, s.rows[h].via, Reinstating(h, s.rows[h].via));
  }

  lemma AdvanceKeeps(s: State, i: nat)
    requires Inv(s) && Enabled(s, Advance(i))
    ensures Inv(DoAdvance(s, i))
  {
    match s.txns[i]
    case BookStart(_, _) => ReadKeeps(s, i);
    case BookRead(_, _, _) => BookingSpends(s, i);
    case Booking(_, _, _) => BookKeeps(s, i);
    case TouchStart(_) => TouchKeeps(s, i);
    case ReleaseStart(_) => ReleaseKeeps(s, i);
    case Releasing(_, _) => ReturnKeeps(s, i);
    case ReinstateStart(_) => ReadKeeps(s, i);
    case ReinstateLocked(_) => ReinstatementSpends(s, i);
    case Reinstating(_, _) => ReviveKeeps(s, i);
  }

  lemma LoseBalances(s: State, i: nat, k: Id)
    requires Balanced(s) && i in s.txns && Claim(s.txns[i]) == Some(k) && k in s.tokens
    ensures Balanced(SetTxn(s.(tokens := Lose(s.tokens, k)), i, Ended))
  {
    var s' := SetTxn(s.(tokens := Lose(s.tokens, k)), i, Ended);
    forall j | j in s'.tokens
      ensures s'.tokens[j].seats == |LiveOn(s'.rows, j)| + |ClaimsOn(s'.txns, j)| + s'.tokens[j].lost
           && s'.tokens[j].seats <= s'.tokens[j].quota && s'.tokens[j].lost >= 0
    {
      ClaimCountAt(s.txns, i, Ended, j);
      assert s'.tokens[j].lost == s.tokens[j].lost + One(j == k);
    }
  }

  lemma LoseKeeps(s: State, i: nat, k: Id)
    requires Inv(s) && i in s.txns && Claim(s.txns[i]) == Some(k) && k in s.tokens
    ensures Inv(SetTxn(s.(tokens := Lose(s.tokens, k)), i, Ended))
  {
    LoseBalances(s, i, k);
    Gather(s, SetTxn(s.(tokens := Lose(s.tokens, k)), i, Ended), i, Ended);
  }

  lemma CommitKeeps(s: State, i: nat)
    requires Inv(s) && i in s.txns
    requires s.txns[i].Booked? || s.txns[i].Touching? || s.txns[i].Released? || s.txns[i].Reinstated?
    ensures Inv(DoCommit(s, i))
  {
    var t := s.txns[i];
    assert Consistent(s.tokens, s.rows, t);
    if t.Booked? && t.prev.Some? && t.prev.value.live {
      var k := t.prev.value.via;
      assert DoCommit(s, i) == SetTxn(s.(tokens := Lose(s.tokens, k)), i, Ended);
      LoseKeeps(s, i, k);
    } else {
      assert DoCommit(s, i) == SetTxn(s, i, Ended);
      MoveKeeps(s, i, Ended);
    }
  }

  /** The counters move as the live rows and claims do: by `n` for `k`, by none for others. */
  ghost predicate Offsets(was: Row, r: Row, t: Txn, k: Id, n: int) {
    forall j: Id :: (if j == k then n else 0) == One(Counts(r, j)) - One(Counts(was, j)) - One(Claim(t) == Some(j))
  }

  /** Undoing both a counter and a row that `i` holds. */
  lemma UndoKeeps(s: State, i: nat, k: Id, n: int, h: string, r: Row)
    requires Inv(s) && i in s.txns && HoldsToken(s.txns[i], k) && HoldsRow(s.txns[i], h) && h in s.rows && k in s.tokens
    requires r.via in s.tokens && s.tokens[k].seats + n <= s.tokens[k].quota
    requires Offsets(s.rows[h], r, s.txns[i], k, n)
    ensures Inv(SetTxn(SetRow(AddSeats(s, k, n), h, r), i, Ended))
  {
    UndoBalances(s, i, k, n, h, r);
    GatherHeld(s, SetTxn(SetRow(AddSeats(s, k, n), h, r), i, Ended), i, k, n, h, r);
  }

  /** `Gather` for a step that ends `i` and changes one row and one counter that it holds. */
  lemma GatherHeld(s: State, s': State, i: nat, k: Id, n: int, h: string, r: Row)
    requires Inv(s) && i in s.txns && HoldsToken(s.txns[i], k) && HoldsRow(s.txns[i], h)
    requires k in s.tokens && r.via in s.tokens
    requires s'.tokens == s.tokens[k := s.tokens[k].(seats := s.tokens[k].seats + n)]
    requires s'.rows == s.rows[h := r] && h in s.rows && s'.txns == s.txns[i := Ended] && Balanced(s')
    ensures Inv(s')
  {
    HeldIsFree(s, i);
    Gather(s, s', i, Ended);
  }

  lemma UndoBalances(s: State, i: nat, k: Id, n: int, h: string, r: Row)
    requires Balanced(s) && i in s.txns && h in s.rows && k in s.tokens && s.tokens[k].seats + n <= s.tokens[k].quota
    requires Offsets(s.rows[h], r, s.txns[i], k, n)
    ensures Balanced(SetTxn(SetRow(AddSeats(s, k, n), h, r), i, Ended))
  {
    var s' := SetTxn(SetRow(AddSeats(s, k, n), h, r), i, Ended);
    forall j | j in s'.tokens
      ensures s'.tokens[j].seats == |LiveOn(s'.rows, j)| + |ClaimsOn(s'.txns, j)| + s'.tokens[j].lost
           && s'.tokens[j].seats <= s'.tokens[j].quota && s'.tokens[j].lost >= 0
    {
      RowCountAt(s.rows, h, r, j);
      ClaimCountAt(s.txns, i, Ended, j);
      assert s'.tokens[j].seats == s.tokens[j].seats + (if j == k then n else 0);
    }
  }

  lemma UndoInsertBalances(s: State, i: nat, k: Id, h: string)
    requires Balanced(s) && i in s.txns && Claim(s.txns[i]) == None && k in s.tokens
    requires h in s.rows && s.rows[h].live && s.rows[h].via == k
    ensures Balanced(SetTxn(AddSeats(s, k, -1).(rows := s.rows - {h}), i, Ended))
  {
    var s' := SetTxn(AddSeats(s, k, -1).(rows := s.rows - {h}), i, Ended);
    forall j | j in s'.tokens
      ensures s'.tokens[j].seats == |LiveOn(s'.rows, j)| + |ClaimsOn(s'.txns, j)| + s'.tokens[j].lost
           && s'.tokens[j].seats <= s'.tokens[j].quota && s'.tokens[j].lost >= 0
    {
      assert s'.rows[h := s.rows[h]] == s.rows;
      RowCountAt(s'.rows, h, s.rows[h], j);
      ClaimCountAt(s.txns, i, Ended, j);
    }
  }

  lemma UndoInsertKeeps(s: State, i: nat)
    requires Inv(s) && i in s.txns && s.txns[i].Booked? && s.txns[i].prev.None?
    ensures Inv(SetTxn(Undone(s, i), i, Ended))
  {
    HeldIsFree(s, i);
    var h, k := s.txns[i].h, s.txns[i].k;
    assert Consistent(s.tokens, s.rows, s.txns[i]);
    assert HoldsRow(s.txns[i], h) && HoldsToken(s.txns[i], k);
    var s' := SetTxn(AddSeats(s, k, -1).(rows := s.rows - {h}), i, Ended);
    UndoInsertBalances(s, i, k, h);
    Gather(s, s', i, Ended);
    assert SetTxn(Undone(s, i), i, Ended) == s';
  }

  lemma UndoSpendKeeps(s: State, i: nat)
    requires Inv(s) && i in s.txns && (s.txns[i].Booking? || s.txns[i].Reinstating?)
    ensures Inv(SetTxn(Undone(s, i), i, Ended))
  {
    HeldIsFree(s, i);
    assert Consistent(s.tokens, s.rows, s.txns[i]);
    assert HoldsToken(s.txns[i], s.txns[i].k);
    ReturnBalances(s, i, s.txns[i].k, Ended);
    Gather(s, SetTxn(Undone(s, i), i, Ended), i, Ended);
  }

  lemma UndoWriteKeeps(s: State, i: nat)
    requires Inv(s) && i in s.txns && (s.txns[i].Touching? || s.txns[i].Releasing?)
    ensures Inv(SetTxn(Undone(s, i), i, Ended))
  {
    HeldIsFree(s, i);
    var t := s.txns[i];
    assert Consistent(s.tokens, s.rows, t);
    assert HoldsRow(t, t.h);
    WriteKeeps(s, i, t.h, t.was, Ended);
  }

  lemma AbortKeeps(s: State, i: nat)
    requires Inv(s) && Enabled(s, Abort(i))
    ensures Inv(SetTxn(Undone(s, i), i, Ended))
  {
    var t := s.txns[i];
    assert Consistent(s.tokens, s.rows, t);
    match t
    case Booking(_, _, _) => UndoSpendKeeps(s, i);
    case Reinstating(_, _) => UndoSpendKeeps(s, i);
    case Booked(h, k, prev) =>
      if prev.Some? {
        UndoKeeps(s, i, k, -1, h, prev.value);
      } else {
        UndoInsertKeeps(s, i);
      }
    case Touching(_, _) => UndoWriteKeeps(s, i);
    case Releasing(_, _) => UndoWriteKeeps(s, i);
    case Released(h, was, _) => UndoKeeps(s, i, was.via, 1, h, was);
    case Reinstated(h, k, was) => UndoKeeps(s, i, k, -1, h, was);
    case _ => MoveKeeps(s, i, Ended);
  }

  lemma NextKeeps(s: State, a: Action)
    requires Inv(s) && Enabled(s, a)
    ensures Inv(Next(s, a))
  {
    match a
    case Begin(i, start) => MoveKeeps(s, i, start);
    case Advance(i) => AdvanceKeeps(s, i);
    case Commit(i) => CommitKeeps(s, i);
    case Abort(i) => AbortKeeps(s, i);
  }

  // ---- every interleaving ----------------------------------------------------------------

  /** `run` is a sequence of steps of any transactions, each possible when it comes. */
  ghost predicate Possible(s: State, run: seq<Action>)
    decreases |run|
  {
    run != [] ==> Enabled(s, run[0]) && Possible(Next(s, run[0]), run[1..])
  }

  ghost function After(s: State, run: seq<Action>): State
    requires Possible(s, run)
    decreases |run|
  {
    if run == [] then s else After(Next(s, run[0]), run[1..])
  }

  lemma {:induction false} InterleavingKeeps(s: State, run: seq<Action>)
    requires Inv(s) && Possible(s, run)
    ensures Inv(After(s, run))
    decreases |run|
  {
    if run != [] {
      NextKeeps(s, run[0]);
      InterleavingKeeps(Next(s, run[0]), run[1..]);
    }
  }

  /** At rest: no transaction is running, and each counter is its live rows. */
  ghost predicate AtRest(s: State) {
    && (forall i :: i in s.txns ==> s.txns[i].Ended?)
    && (forall h :: h in s.rows ==> s.rows[h].via in s.tokens)
    && (forall k :: k in s.tokens ==>
          s.tokens[k].seats == |LiveOn(s.rows, k)| <= s.tokens[k].quota && s.tokens[k].lost == 0)
  }

  lemma NoClaimsAtRest(txns: map<nat, Txn>, k: Id)
    requires forall i :: i in txns ==> txns[i].Ended?
    ensures ClaimsOn(txns, k) == {}
  {
  }

  /** However the statements of concurrent requests interleave, live rows plus
      seats in flight never exceed the counter, and the counter never exceeds
      the quota: no token is ever oversold. */
  lemma NeverOversold(s: State, run: seq<Action>, k: Id)
    requires AtRest(s) && Possible(s, run) && k in s.tokens
    ensures var s' := After(s, run);
            k in s'.tokens && |LiveOn(s'.rows, k)| + |ClaimsOn(s'.txns, k)| <= s'.tokens[k].seats <= s'.tokens[k].quota
  {
    StartsInvariant(s);
    InterleavingKeeps(s, run);
    TokensStay(s, run);
  }

  lemma StartsInvariant(s: State)
    requires AtRest(s)
    ensures Inv(s)
  {
    forall k | k in s.tokens ensures ClaimsOn(s.txns, k) == {} {
      NoClaimsAtRest(s.txns, k);
    }
  }

  lemma {:induction false} TokensStay(s: State, run: seq<Action>)
    requires Possible(s, run)
    ensures After(s, run).tokens.Keys == s.tokens.Keys
    decreases |run|
  {
    if run != [] {
      NextTokens(s, run[0]);
      TokensStay(Next(s, run[0]), run[1..]);
    }
  }

  lemma NextTokens(s: State, a: Action)
    requires Enabled(s, a)
    ensures Next(s, a).tokens.Keys == s.tokens.Keys
  {
  }

  /** A release never finds the counter already at zero: every revocation of a
      live row gives back exactly one seat. */
  lemma ReleaseAlwaysReturns(s: State, i: nat)
    requires Inv(s) && Enabled(s, Advance(i)) && s.txns[i].Releasing?
    ensures var was := s.txns[i].was;
            && DoAdvance(s, i).txns[i] == Released(s.txns[i].h, was, true)
            && DoAdvance(s, i).tokens[was.via].seats == s.tokens[was.via].seats - 1
  {
    ReturnKeeps(s, i);
  }

  /** Once all transactions have ended, a counter is exact if and only if no
      commit overwrote a live row of that token. */
  lemma ExactWhenNothingLost(s: State, run: seq<Action>, k: Id)
    requires AtRest(s) && Possible(s, run) && k in s.tokens
    requires forall i :: i in After(s, run).txns ==> After(s, run).txns[i].Ended?
    ensures var s' := After(s, run);
            k in s'.tokens && (s'.tokens[k].seats == |LiveOn(s'.rows, k)| <==> s'.tokens[k].lost == 0)
  {
    StartsInvariant(s);
    InterleavingKeeps(s, run);
    TokensStay(s, run);
    NoClaimsAtRest(After(s, run).txns, k);
  }

  // ---- when a seat is lost -------------------------------------------------------------------

  /** A transaction that is bringing hardware `h` to life. */
  predicate Revives(t: Txn, h: string) {
    (t.BookRead? || t.Booking? || t.Booked? || t.ReinstateLocked? || t.Reinstating? || t.Reinstated?) && t.h == h
  }

  /** No two transactions in flight bring the same hardware to life. */
  ghost predicate NoOverlap(txns: map<nat, Txn>) {
    forall i, j, h :: i in txns && j in txns && Revives(txns[i], h) && Revives(txns[j], h) ==> i == j
  }

  /** A revoked row that a booking has read stays revoked until it writes it. */
  ghost predicate ReadsHold(s: State) {
    forall i :: i in s.txns ==> ReadHolds(s, s.txns[i])
  }

  /** Row `h` is revoked, and no abort would bring it back to life. */
  ghost predicate Asleep(s: State, h: string) {
    && h in s.rows && !s.rows[h].live
    && forall j :: j in s.txns && (s.txns[j].Releasing? || s.txns[j].Released?) ==> s.txns[j].h != h
  }

  lemma ReadFindsAsleep(s: State, i: nat, h: string, k: Id)
    requires Inv(s) && i in s.txns && s.txns[i] == BookStart(h, k) && NoOverlap(s.txns[i := BookRead(h, k, true)])
    requires CommittedRow(s, h).Some? && !CommittedRow(s, h).value.live
    ensures Asleep(s, h)
  {
    var txns' := s.txns[i := BookRead(h, k, true)];
    assert Revives(txns'[i], h);
    forall j | j in s.txns && HoldsRow(s.txns[j], h)
      ensures s.txns[j].Touching? && h in s.rows && !s.rows[h].live
    {
      assert j != i && txns'[j] == s.txns[j] && !Revives(s.txns[j], h);
      assert Consistent(s.tokens, s.rows, s.txns[j]);
    }
  }

  /** One transaction's step changes at most its own hardware's row. */
  lemma OnlyOwnRow(s: State, a: Action, h: string)
    requires Enabled(s, a) && h in s.rows
    requires a.Begin? || (a.i in s.txns && !s.txns[a.i].Ended? && s.txns[a.i].h != h)
    ensures h in Next(s, a).rows && Next(s, a).rows[h] == s.rows[h]
    ensures var t := Next(s, a).txns[a.i]; a.Begin? || t.Ended? || t.h != h
  {
  }

  /** On a sleeping row, a transaction that is not reviving it leaves it asleep. */
  lemma OwnRowAsleep(s: State, a: Action, h: string)
    requires Inv(s) && Enabled(s, a) && Asleep(s, h) && !a.Begin? && s.txns[a.i] != Ended
    requires s.txns[a.i].h == h && !Revives(s.txns[a.i], h)
    ensures h in Next(s, a).rows && !Next(s, a).rows[h].live
    ensures var t := Next(s, a).txns[a.i]; !t.Releasing? && !t.Released?
  {
    assert Consistent(s.tokens, s.rows, s.txns[a.i]);
  }

  lemma StaysAsleep(s: State, a: Action, i: nat, h: string)
    requires Inv(s) && NoOverlap(s.txns) && Enabled(s, a) && Asleep(s, h)
    requires i in s.txns && Revives(s.txns[i], h) && a.i != i
    ensures Asleep(Next(s, a), h)
  {
    if a.Begin? || s.txns[a.i].h != h {
      OnlyOwnRow(s, a, h);
    } else {
      OwnRowAsleep(s, a, h);
    }
    OthersKept(s, a);
  }

  lemma OthersKept(s: State, a: Action)
    requires Enabled(s, a)
    ensures Next(s, a).txns == s.txns[a.i := Next(s, a).txns[a.i]]
  {
  }

  ghost predicate ReadHolds(s: State, t: Txn) {
    match t
    case BookRead(h, _, found) => found ==> Asleep(s, h)
    case Booking(h, _, found) => found ==> Asleep(s, h)
    case Booked(_, _, prev) => prev.Some? ==> !prev.value.live
    case _ => true
  }

  /** The transaction that moves: a read finds its row asleep, a spend leaves it
      so, and a write then remembers a revoked row. */
  lemma OwnReadHolds(s: State, i: nat)
    requires Inv(s) && Enabled(s, Advance(i)) && ReadHolds(s, s.txns[i])
    requires NoOverlap(DoAdvance(s, i).txns)
    ensures ReadHolds(DoAdvance(s, i), DoAdvance(s, i).txns[i])
  {
    match s.txns[i]
    case BookStart(h, k) =>
      var seen := CommittedRow(s, h);
      if seen.Some? && !seen.value.live {
        ReadFindsAsleep(s, i, h, k);
      }
    case _ =>
  }

  lemma ReadsStillHold(s: State, a: Action)
    requires Inv(s) && ReadsHold(s) && NoOverlap(s.txns) && Enabled(s, a) && NoOverlap(Next(s, a).txns)
    ensures ReadsHold(Next(s, a))
  {
    var s' := Next(s, a);
    OthersKept(s, a);
    forall i | i in s'.txns ensures ReadHolds(s', s'.txns[i]) {
      if a.i != i {
        var t := s.txns[i];
        assert ReadHolds(s, t);
        if (t.BookRead? || t.Booking?) && t.found {
          StaysAsleep(s, a, i, t.h);
        }
      } else if a.Advance? {
        assert ReadHolds(s, s.txns[i]);
        OwnReadHolds(s, i);
      }
    }
  }

  lemma NothingLost(s: State, a: Action, k: Id)
    requires ReadsHold(s) && Enabled(s, a) && k in s.tokens
    ensures k in Next(s, a).tokens && Next(s, a).tokens[k].lost == s.tokens[k].lost
  {
    if a.Commit? {
      assert ReadHolds(s, s.txns[a.i]);
    }
  }

  /** In every state of the run no hardware is being revived twice at once. */
  ghost predicate NeverOverlaps(s: State, run: seq<Action>)
    requires Possible(s, run)
    decreases |run|
  {
    NoOverlap(s.txns) && (run != [] ==> NeverOverlaps(Next(s, run[0]), run[1..]))
  }

  lemma {:induction false} NothingLostOverRuns(s: State, run: seq<Action>, k: Id)
    requires Inv(s) && ReadsHold(s) && Possible(s, run) && NeverOverlaps(s, run) && k in s.tokens
    ensures k in After(s, run).tokens && After(s, run).tokens[k].lost == s.tokens[k].lost
    decreases |run|
  {
    if run != [] {
      var s' := Next(s, run[0]);
      assert NoOverlap(s'.txns);
      NothingLost(s, run[0], k);
      ReadsStillHold(s, run[0]);
      NextKeeps(s, run[0]);
      NothingLostOverRuns(s', run[1..], k);
    }
  }

  /** Without two revivals of one hardware in flight together, concurrency
      costs nothing: once at rest, every counter is exactly its live rows. */
  lemma ExactWithoutOverlap(s: State, run: seq<Action>, k: Id)
    requires AtRest(s) && Possible(s, run) && NeverOverlaps(s, run) && k in s.tokens
    requires forall i :: i in After(s, run).txns ==> After(s, run).txns[i].Ended?
    ensures k in After(s, run).tokens && After(s, run).tokens[k].seats == |LiveOn(After(s, run).rows, k)|
  {
    StartsInvariant(s);
    NothingLostOverRuns(s, run, k);
    ExactWhenNothingLost(s, run, k);
  }

  // ---- and what an overlap costs -------------------------------------------------------------

  /** The states of two activations of one revoked terminal, on a token with two
      free seats: both read the revoked row, then each in turn spends a seat,
      writes the row and commits. */
  function CrossingState(n: nat): State {
    var asleep, mine, yours := Row(false, 1, 0), Row(true, 1, 1), Row(true, 1, 2);
    var start, read, spent := BookStart("h", 1), BookRead("h", 1, true), Booking("h", 1, true);
    var seats := if n < 5 then 0 else if n < 8 then 1 else 2;
    var row := if n < 6 then asleep else if n < 9 then mine else yours;
    var first := if n < 3 then start else if n < 5 then read else if n == 5 then spent
                 else if n == 6 then Booked("h", 1, Some(asleep)) else Ended;
    var second := if n < 4 then start else if n < 8 then read else if n == 8 then spent
                  else if n == 9 then Booked("h", 1, Some(mine)) else Ended;
    State(map[1 := Token(2, seats, if n < 10 then 0 else 1)], map["h" := row],
          if n == 0 then map[] else if n == 1 then map[1 := first] else map[1 := first, 2 := second])
  }

  function CrossingAction(n: nat): Action {
    if n < 2 then Begin(n + 1, BookStart("h", 1))
    else if n == 6 then Commit(1)
    else if n == 9 then Commit(2)
    else Advance(if n == 2 || n == 4 || n == 5 then 1 else 2)
  }

  function CrossingRun(n: nat): seq<Action>
    decreases 10 - n
  {
    if n >= 10 then [] else [CrossingAction(n)] + CrossingRun(n + 1)
  }

  lemma CrossingReads(n: nat)
    requires n == 2 || n == 3
    ensures Enabled(CrossingState(n), CrossingAction(n))
    ensures Next(CrossingState(n), CrossingAction(n)) == CrossingState(n + 1)
  {
    var s := CrossingState(n);
    assert forall i :: i in s.txns ==> !HoldsRow(s.txns[i], "h");
    assert CommittedRow(s, "h") == Some(Row(false, 1, 0));
  }

  lemma CrossingSpends(n: nat)
    requires n == 4 || n == 7
    ensures Enabled(CrossingState(n), CrossingAction(n))
    ensures Next(CrossingState(n), CrossingAction(n)) == CrossingState(n + 1)
  {
  }

  lemma CrossingWrites(n: nat)
    requires n == 5 || n == 8
    ensures Enabled(CrossingState(n), CrossingAction(n))
    ensures Next(CrossingState(n), CrossingAction(n)) == CrossingState(n + 1)
  {
  }

  lemma CrossingEnds(n: nat)
    requires n == 0 || n == 1 || n == 6 || n == 9
    ensures Enabled(CrossingState(n), CrossingAction(n))
    ensures Next(CrossingState(n), CrossingAction(n)) == CrossingState(n + 1)
  {
  }

  lemma CrossingIsPossible(n: nat)
    requires n <= 10
    ensures Possible(CrossingState(n), CrossingRun(n)) && After(CrossingState(n), CrossingRun(n)) == CrossingState(10)
    decreases 10 - n
  {
    if n < 10 {
      if n == 2 || n == 3 {
        CrossingReads(n);
      } else if n == 4 || n == 7 {
        CrossingSpends(n);
      } else if n == 5 || n == 8 {
        CrossingWrites(n);
      } else {
        CrossingEnds(n);
      }
      CrossingIsPossible(n + 1);
      assert CrossingRun(n)[0] == CrossingAction(n) && CrossingRun(n)[1..] == CrossingRun(n + 1);
    }
  }

  /** One live device, two seats charged: with an overlap the counter can stay
      too high, so exact equality is a claim about serial runs only. */
  lemma OverlapLosesASeat()
    ensures exists s, run ::
              && AtRest(s) && Possible(s, run)
              && var s' := After(s, run);
                 && (forall i :: i in s'.txns ==> s'.txns[i].Ended?)
                 && 1 in s'.tokens && s'.tokens[1].seats == 2 && |LiveOn(s'.rows, 1)| == 1
  {
    CrossingIsPossible(0);
    assert LiveOn(CrossingState(0).rows, 1) == {} && LiveOn(CrossingState(10).rows, 1) == {"h"};
    assert AtRest(CrossingState(0));
  }
}
