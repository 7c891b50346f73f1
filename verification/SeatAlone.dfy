/** A seat transaction that runs alone, statement by statement, does to counters and
    rows what its request does in the ledger. */
module SeatAlone {
  import opened Wrappers
  import opened Clock
  import opened Ledger
  import opened SeatInterleaving
  import LedgerInvariant

  /** The columns that the interleaving keeps of a device row. */
  predicate ShowsRow(r: Row, d: Device) {
    r.live == !d.isRevoked && Some(r.via) == d.activatedVia
  }

  predicate ShowsToken(t: Token, tok: BatchToken) {
    t.quota == tok.quota && t.seats == tok.seatsConsumed
  }

  ghost predicate Quiet(txns: map<nat, Txn>) {
    forall j :: j in txns ==> txns[j].Ended?
  }

  /** Nothing is under way, and counters and rows are those of the ledger. */
  ghost predicate Mirrors(s: State, db: Db) {
    && Quiet(s.txns)
    && s.tokens.Keys == db.tokens.Keys && (forall k :: k in s.tokens ==> ShowsToken(s.tokens[k], db.tokens[k]))
    && s.rows.Keys == db.devices.Keys && (forall h :: h in s.rows ==> ShowsRow(s.rows[h], db.devices[h]))
  }

  /** The run is of transaction `i` alone and leads from `s` to `s'`. */
  ghost predicate Leads(s: State, i: nat, run: seq<Action>, s': State) {
    Possible(s, run) && After(s, run) == s' && forall a :: a in run ==> a.i == i
  }

  lemma LeadsNowhere(s: State, i: nat)
    ensures Leads(s, i, [], s)
  {
  }

  lemma LeadsCons(s: State, i: nat, a: Action, run: seq<Action>, s': State)
    requires a.i == i && Enabled(s, a) && Leads(Next(s, a), i, run, s')
    ensures Leads(s, i, [a] + run, s')
  {
    assert ([a] + run)[1..] == run;
  }

  /** One step. */
  ghost predicate Goes(s: State, i: nat, a: Action, s': State) {
    a.i == i && Enabled(s, a) && Next(s, a) == s'
  }

  lemma LeadsThree(s: State, i: nat, a: Action, s1: State, b: Action, s2: State, c: Action, s': State)
    requires Goes(s, i, a, s1) && Goes(s1, i, b, s2) && Goes(s2, i, c, s')
    ensures Leads(s, i, [a] + ([b] + [c]), s')
  {
    LeadsNowhere(s', i);
    LeadsCons(s2, i, c, [], s');
    assert [c] + [] == [c];
    LeadsCons(s1, i, b, [c], s');
    LeadsCons(s, i, a, [b] + [c], s');
  }

  /** With all others ended, a plain read sees the row and no lock is held. */
  lemma AloneIsFree(s: State, i: nat, h: string, k: Id)
    requires forall j :: j in s.txns && j != i ==> s.txns[j].Ended?
    ensures RowFree(s, i, h) && TokenFree(s, i, k)
    ensures (i in s.txns ==> !HoldsRow(s.txns[i], h)) ==>
              CommittedRow(s, h) == if h in s.rows then Some(s.rows[h]) else None
  {
  }

  // ---- booking ------------------------------------------------------------------------

  lemma SpendGoes(s: State, i: nat, h: string, k: Id)
    requires Quiet(s.txns) && i !in s.txns && k in s.tokens && s.tokens[k].seats < s.tokens[k].quota
    ensures Goes(SetTxn(s, i, BookRead(h, k, h in s.rows)), i, Advance(i),
                 SetTxn(AddSeats(s, k, 1), i, Booking(h, k, h in s.rows)))
  {
    AloneIsFree(SetTxn(s, i, BookRead(h, k, h in s.rows)), i, h, k);
  }

  /** The row is written and committed. */
  lemma WriteGoes(s: State, i: nat, h: string, k: Id)
    requires Quiet(s.txns) && i !in s.txns && (h in s.rows ==> !s.rows[h].live)
    ensures var booking := SetTxn(s, i, Booking(h, k, h in s.rows));
            var booked := SetTxn(SetRow(s, h, Row(true, k, i)), i,
                                 Booked(h, k, if h in s.rows then Some(s.rows[h]) else None));
            && Goes(booking, i, Advance(i), booked)
            && Goes(booked, i, Commit(i), SetTxn(SetRow(s, h, Row(true, k, i)), i, Ended))
  {
    AloneIsFree(SetTxn(s, i, Booking(h, k, h in s.rows)), i, h, k);
  }

  /** From the read on: spend the seat, write the row, commit. */
  lemma BookAfterRead(s: State, i: nat, h: string, k: Id) returns (run: seq<Action>, s': State)
    requires Quiet(s.txns) && i !in s.txns && k in s.tokens && s.tokens[k].seats < s.tokens[k].quota
    requires h in s.rows ==> !s.rows[h].live
    ensures Leads(SetTxn(s, i, BookRead(h, k, h in s.rows)), i, run, s') && Quiet(s'.txns)
    ensures s'.tokens == AddSeats(s, k, 1).tokens && s'.rows == s.rows[h := Row(true, k, i)]
  {
    var prev := if h in s.rows then Some(s.rows[h]) else None;
    var spent := AddSeats(s, k, 1);
    s' := SetTxn(SetRow(spent, h, Row(true, k, i)), i, Ended);
    SpendGoes(s, i, h, k);
    WriteGoes(spent, i, h, k);
    LeadsThree(SetTxn(s, i, BookRead(h, k, h in s.rows)), i, Advance(i), SetTxn(spent, i, Booking(h, k, h in s.rows)),
               Advance(i), SetTxn(SetRow(spent, h, Row(true, k, i)), i, Booked(h, k, prev)), Commit(i), s');
    run := [Advance(i)] + ([Advance(i)] + [Commit(i)]);
  }

  lemma BookAlone(s: State, i: nat, h: string, k: Id) returns (run: seq<Action>, s': State)
    requires Quiet(s.txns) && i !in s.txns && k in s.tokens && s.tokens[k].seats < s.tokens[k].quota
    requires h in s.rows ==> !s.rows[h].live
    ensures Leads(s, i, run, s') && Quiet(s'.txns)
    ensures s'.tokens == AddSeats(s, k, 1).tokens && s'.rows == s.rows[h := Row(true, k, i)]
  {
    var s1 := SetTxn(s, i, BookStart(h, k));
    AloneIsFree(s1, i, h, k);
    run, s' := BookAfterRead(s, i, h, k);
    assert Next(s1, Advance(i)) == SetTxn(s, i, BookRead(h, k, h in s.rows));
    LeadsCons(s1, i, Advance(i), run, s');
    LeadsCons(s, i, Begin(i, BookStart(h, k)), [Advance(i)] + run, s');
    run := [Begin(i, BookStart(h, k))] + ([Advance(i)] + run);
  }

  lemma TouchAlone(s: State, i: nat, h: string, k: Id) returns (run: seq<Action>, s': State)
    requires Quiet(s.txns) && i !in s.txns && k in s.tokens && h in s.rows && s.rows[h].live
    ensures Leads(s, i, run, s') && Quiet(s'.txns)
    ensures s'.tokens == s.tokens && s'.rows == s.rows[h := s.rows[h].(stamp := i)]
  {
    var s1, s2 := SetTxn(s, i, BookStart(h, k)), SetTxn(s, i, TouchStart(h));
    var s3 := SetTxn(SetRow(s, h, s.rows[h].(stamp := i)), i, Touching(h, s.rows[h]));
    s' := SetTxn(s3, i, Ended);
    AloneIsFree(s1, i, h, k);
    AloneIsFree(s2, i, h, k);
    assert Next(s1, Advance(i)) == s2 && Next(s2, Advance(i)) == s3;
    LeadsThree(s1, i, Advance(i), s2, Advance(i), s3, Commit(i), s');
    LeadsCons(s, i, Begin(i, BookStart(h, k)), [Advance(i)] + ([Advance(i)] + [Commit(i)]), s');
    run := [Begin(i, BookStart(h, k))] + ([Advance(i)] + ([Advance(i)] + [Commit(i)]));
  }

  // ---- releasing and reinstating -----------------------------------------------------------

  lemma ReleaseAlone(s: State, i: nat, h: string) returns (run: seq<Action>, s': State)
    requires Quiet(s.txns) && i !in s.txns && h in s.rows && s.rows[h].live
    requires s.rows[h].via in s.tokens && s.tokens[s.rows[h].via].seats > 0
    ensures Leads(s, i, run, s') && Quiet(s'.txns)
    ensures s'.tokens == AddSeats(s, s.rows[h].via, -1).tokens && s'.rows == s.rows[h := s.rows[h].(live := false)]
  {
    var was := s.rows[h];
    var s1 := SetTxn(s, i, ReleaseStart(h));
    var s2 := SetTxn(SetRow(s, h, was.(live := false)), i, Releasing(h, was));
    var s3 := SetTxn(AddSeats(SetRow(s, h, was.(live := false)), was.via, -1), i, Released(h, was, true));
    s' := SetTxn(s3, i, Ended);
    AloneIsFree(s1, i, h, was.via);
    AloneIsFree(s2, i, h, was.via);
    assert Next(s1, Advance(i)) == s2;
    assert Next(s2, Advance(i)) == s3;
    LeadsThree(s1, i, Advance(i), s2, Advance(i), s3, Commit(i), s');
    LeadsCons(s, i, Begin(i, ReleaseStart(h)), [Advance(i)] + ([Advance(i)] + [Commit(i)]), s');
    run := [Begin(i, ReleaseStart(h))] + ([Advance(i)] + ([Advance(i)] + [Commit(i)]));
  }

  lemma LockGoes(s: State, i: nat, h: string)
    requires Quiet(s.txns) && i !in s.txns && h in s.rows && !s.rows[h].live
    ensures Goes(s, i, Begin(i, ReinstateStart(h)), SetTxn(s, i, ReinstateStart(h)))
    ensures Goes(SetTxn(s, i, ReinstateStart(h)), i, Advance(i), SetTxn(s, i, ReinstateLocked(h)))
  {
    AloneIsFree(SetTxn(s, i, ReinstateStart(h)), i, h, s.rows[h].via);
    assert SetTxn(SetTxn(s, i, ReinstateStart(h)), i, ReinstateLocked(h)) == SetTxn(s, i, ReinstateLocked(h));
  }

  lemma ReviveGoes(s: State, i: nat, h: string, k: Id)
    requires Quiet(s.txns) && i !in s.txns && h in s.rows && !s.rows[h].live && s.rows[h].via == k
    requires k in s.tokens && s.tokens[k].seats < s.tokens[k].quota
    ensures var spent := SetTxn(AddSeats(s, k, 1), i, Reinstating(h, k));
            && Goes(SetTxn(s, i, ReinstateLocked(h)), i, Advance(i), spent)
            && Goes(spent, i, Advance(i), SetTxn(SetRow(spent, h, s.rows[h].(live := true)), i,
                                                 Reinstated(h, k, s.rows[h])))
  {
    AloneIsFree(SetTxn(s, i, ReinstateLocked(h)), i, h, k);
  }

  lemma ReinstateAlone(s: State, i: nat, h: string) returns (run: seq<Action>, s': State)
    requires Quiet(s.txns) && i !in s.txns && h in s.rows && !s.rows[h].live
    requires s.rows[h].via in s.tokens && s.tokens[s.rows[h].via].seats < s.tokens[s.rows[h].via].quota
    ensures Leads(s, i, run, s') && Quiet(s'.txns)
    ensures s'.tokens == AddSeats(s, s.rows[h].via, 1).tokens && s'.rows == s.rows[h := s.rows[h].(live := true)]
  {
    var was, k := s.rows[h], s.rows[h].via;
    var s3 := SetTxn(AddSeats(s, k, 1), i, Reinstating(h, k));
    var s4 := SetTxn(SetRow(s3, h, was.(live := true)), i, Reinstated(h, k, was));
    s' := SetTxn(s4, i, Ended);
    LockGoes(s, i, h);
    ReviveGoes(s, i, h, k);
    LeadsThree(SetTxn(s, i, ReinstateLocked(h)), i, Advance(i), s3, Advance(i), s4, Commit(i), s');
    run := [Advance(i)] + ([Advance(i)] + [Commit(i)]);
    LeadsCons(SetTxn(s, i, ReinstateStart(h)), i, Advance(i), run, s');
    LeadsCons(s, i, Begin(i, ReinstateStart(h)), [Advance(i)] + run, s');
    run := [Begin(i, ReinstateStart(h))] + ([Advance(i)] + run);
  }

  // ---- the same as the ledger ---------------------------------------------------------------

  lemma BookedMirrors(db: Db, db': Db, s: State, s': State, h: string, k: Id)
    requires Mirrors(s, db) && k in db.tokens && h in db'.devices && db' == Book(db, k, h, db'.devices[h])
    requires Quiet(s'.txns) && s'.tokens == AddSeats(s, k, 1).tokens
    requires h in s'.rows && s'.rows == s.rows[h := s'.rows[h]] && ShowsRow(s'.rows[h], db'.devices[h])
    ensures Mirrors(s', db')
  {
  }

  lemma FreedMirrors(db: Db, s: State, s': State, h: string, k: Id)
    requires Mirrors(s, db) && h in db.devices && db.devices[h].activatedVia == Some(k) && k in db.tokens
    requires db.tokens[k].seatsConsumed > 0
    requires Quiet(s'.txns) && s'.tokens == AddSeats(s, k, -1).tokens
    requires s'.rows == s.rows[h := s.rows[h].(live := false)]
    ensures Mirrors(s', Free(db, h))
  {
  }

  lemma TouchedMirrors(db: Db, s: State, s': State, h: string, d: Device)
    requires Mirrors(s, db) && h in db.devices && LedgerInvariant.SameSeat(db.devices[h], d)
    requires Quiet(s'.txns) && s'.tokens == s.tokens
    requires h in s'.rows && s'.rows == s.rows[h := s'.rows[h]] && ShowsRow(s'.rows[h], db.devices[h])
    ensures Mirrors(s', PutDevice(db, h, d))
  {
  }


  predicate SameToken(db: Db, db': Db, h: string) {
    h in db.devices && h in db'.devices && db'.devices[h].activatedVia == db.devices[h].activatedVia
  }

  lemma ReinstateKeepsToken(db: Db, h: string, now: Time)
    ensures h in db.devices ==> SameToken(db, DoReinstate(db, h, now).db, h)
    ensures h !in db.devices ==> DoReinstate(db, h, now).reply.Err?
  {
  }

  /** A request that books, rotates, releases or reinstates has a run of its own that ends
      in the tables of the ledger; so what holds of every interleaving is about them. */
  lemma AloneIsStep(db: Db, op: Op, now: Time, s: State, i: nat) returns (run: seq<Action>, s': State)
    requires LedgerInvariant.Inv(db) && Mirrors(s, db) && i !in s.txns
    requires LedgerInvariant.SeatRequest(op) || op.RevokeDevice? || op.ReleaseSeat? || op.ReinstateDevice?
    ensures Leads(s, i, run, s') && Mirrors(s', Step(db, op, now).db)
  {
    LedgerInvariant.StepEffect(db, op, now);
    if op.ReinstateDevice? {
      ReinstateKeepsToken(db, op.hw, now);
    }
    run, s' := EffectAlone(db, Step(db, op, now).db, LedgerInvariant.EffectOf(db, op, now), op.ReinstateDevice?, s, i);
  }

  lemma SeatTaken(db: Db, db': Db, h: string, reinstates: bool, s: State, i: nat)
    returns (run: seq<Action>, s': State)
    requires LedgerInvariant.Inv(db) && Mirrors(s, db) && i !in s.txns
    requires LedgerInvariant.HasEffect(db, db', LedgerInvariant.Booked(h)) && (reinstates ==> SameToken(db, db', h))
    ensures Leads(s, i, run, s') && Mirrors(s', db')
  {
    var k := db'.devices[h].activatedVia.value;
    if reinstates {
      run, s' := ReinstateAlone(s, i, h);
    } else {
      run, s' := BookAlone(s, i, h, k);
    }
    BookedMirrors(db, db', s, s', h, k);
  }

  lemma EffectAlone(db: Db, db': Db, e: LedgerInvariant.Effect, reinstates: bool, s: State, i: nat)
    returns (run: seq<Action>, s': State)
    requires LedgerInvariant.Inv(db) && Mirrors(s, db) && i !in s.txns
    requires LedgerInvariant.HasEffect(db, db', e) && !e.Admin? && !e.Cascaded?
    requires reinstates && e.Booked? ==> SameToken(db, db', e.h)
    ensures Leads(s, i, run, s') && Mirrors(s', db')
  {
    match e
    case Unchanged =>
      LeadsNowhere(s, i);
      run, s' := [], s;
    case Touched(h) =>
      run, s' := TouchAlone(s, i, h, db.devices[h].activatedVia.value);
      TouchedMirrors(db, s, s', h, db'.devices[h]);
    case Booked(h) =>
      run, s' := SeatTaken(db, db', h, reinstates, s, i);
    case Freed(h) =>
      var k := db.devices[h].activatedVia.value;
      LedgerInvariant.ReleaseGuardHolds(db, h);
      run, s' := ReleaseAlone(s, i, h);
      FreedMirrors(db, s, s', h, k);
  }
}
