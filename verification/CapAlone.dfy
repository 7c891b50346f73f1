/** A booking, release or reinstatement that runs alone, with the seat count as a step
    of its own, does to the live rows of tenants what its request does in the ledger. */
module CapAlone {
  import opened Wrappers
  import opened Clock
  import opened Ledger
  import opened CapInterleaving
  import LedgerInvariant

  predicate ShowsRow(r: Seat, d: Device) {
    r.live == !d.isRevoked && r.tenant == d.tenantId
  }

  ghost predicate Quiet(txns: map<nat, Txn>) {
    forall j :: j in txns ==> txns[j].Ended?
  }

  /** Nothing is under way, limits and rows are those of the ledger. */
  ghost predicate Mirrors(limits: map<Id, int>, s: State, db: Db) {
    && Quiet(s.txns) && s.rows.Keys == db.devices.Keys
    && (forall h :: h in s.rows ==> ShowsRow(s.rows[h], db.devices[h]))
    && (forall t :: t in db.tenants ==>
          t in limits && SubIdOf(db, t).Some? && limits[t] == db.subs[SubIdOf(db, t).value].seatLimit)
  }

  lemma SameCount(limits: map<Id, int>, s: State, db: Db, t: Id)
    requires Mirrors(limits, s, db)
    ensures LiveOf(s.rows, t) == LiveDevicesOf(db.devices, t)
    ensures t in db.tenants ==> (SeatLeft(limits, s, t) <==> LedgerInvariant.HasFreeSeat(db, t))
  {
    assert forall h :: h in s.rows ==> ShowsRow(s.rows[h], db.devices[h]);
  }

  /** One step. */
  predicate Goes(limits: map<Id, int>, s: State, a: Action, s': State) {
    Enabled(s, a) && Next(limits, s, a) == s'
  }

  lemma AloneIsFree(s: State, i: nat, h: string)
    requires forall j :: j in s.txns && j != i ==> s.txns[j].Ended?
    ensures RowFree(s, i, h)
  {
  }

  /** A booking: it reads, counts and commits a live row of the tenant, or ends at the
      count if the tenant has no seat left. */
  lemma BookAlone(limits: map<Id, int>, s: State, i: nat, h: string, t: Id)
    requires Quiet(s.txns) && i !in s.txns && (h in s.rows ==> !s.rows[h].live)
    ensures var found := h in s.rows;
            var asking, seen := Put(s, i, Asking(h, t)), Put(s, i, Seen(h, t, found));
            && Goes(limits, s, Begin(i, Asking(h, t)), asking) && Goes(limits, asking, Advance(i), seen)
            && if SeatLeft(limits, s, t) then
                 && Goes(limits, seen, Advance(i), Put(s, i, Granted(h, t, found)))
                 && Goes(limits, Put(s, i, Granted(h, t, found)), Commit(i),
                         State(s.rows[h := Seat(true, t)], s.txns[i := Ended]))
               else Goes(limits, seen, Advance(i), Put(s, i, Ended))
  {
    var found := h in s.rows;
    AloneIsFree(Put(s, i, Granted(h, t, found)), i, h);
    assert Put(Put(s, i, Asking(h, t)), i, Seen(h, t, found)) == Put(s, i, Seen(h, t, found));
    assert Put(Put(s, i, Seen(h, t, found)), i, Granted(h, t, found)) == Put(s, i, Granted(h, t, found));
    assert Put(Put(s, i, Seen(h, t, found)), i, Ended) == Put(s, i, Ended);
    assert Put(s, i, Granted(h, t, found)).txns[i := Ended] == s.txns[i := Ended];
  }

  lemma FreeAlone(limits: map<Id, int>, s: State, i: nat, h: string)
    requires Quiet(s.txns) && i !in s.txns && h in s.rows
    ensures Goes(limits, s, Begin(i, Freeing(h)), Put(s, i, Freeing(h)))
    ensures Goes(limits, Put(s, i, Freeing(h)), Commit(i),
                 State(s.rows[h := s.rows[h].(live := false)], s.txns[i := Ended]))
  {
    AloneIsFree(Put(s, i, Freeing(h)), i, h);
    assert Put(s, i, Freeing(h)).txns[i := Ended] == s.txns[i := Ended];
  }

  /** A reinstatement: it locks the row, counts for its tenant and commits it live, or ends
      at the count. */
  lemma RestoreAlone(limits: map<Id, int>, s: State, i: nat, h: string)
    requires Quiet(s.txns) && i !in s.txns && h in s.rows && !s.rows[h].live
    ensures var t := s.rows[h].tenant;
            var asking, locked := Put(s, i, Restoring(h)), Put(s, i, Locked(h, t));
            && Goes(limits, s, Begin(i, Restoring(h)), asking) && Goes(limits, asking, Advance(i), locked)
            && if SeatLeft(limits, s, t) then
                 && Goes(limits, locked, Advance(i), Put(s, i, Regranted(h, t)))
                 && Goes(limits, Put(s, i, Regranted(h, t)), Commit(i),
                         State(s.rows[h := s.rows[h].(live := true)], s.txns[i := Ended]))
               else Goes(limits, locked, Advance(i), Put(s, i, Ended))
  {
    var t := s.rows[h].tenant;
    AloneIsFree(Put(s, i, Restoring(h)), i, h);
    AloneIsFree(Put(s, i, Regranted(h, t)), i, h);
    assert Put(Put(s, i, Restoring(h)), i, Locked(h, t)) == Put(s, i, Locked(h, t));
    assert Put(Put(s, i, Locked(h, t)), i, Regranted(h, t)) == Put(s, i, Regranted(h, t));
    assert Put(Put(s, i, Locked(h, t)), i, Ended) == Put(s, i, Ended);
    assert Put(s, i, Regranted(h, t)).txns[i := Ended] == s.txns[i := Ended];
  }

  function Done(rows: map<string, Seat>, s: State, i: nat): State {
    State(rows, s.txns[i := Ended])
  }

  /** One row changes, alike on both sides. */
  lemma RowMirrors(limits: map<Id, int>, db: Db, db': Db, h: string, r: Seat, s: State, i: nat)
    requires Mirrors(limits, s, db) && i !in s.txns && h in db'.devices && ShowsRow(r, db'.devices[h])
    requires db'.devices == db.devices[h := db'.devices[h]]
    requires db'.tenants == db.tenants && db'.subs == db.subs && db'.subOf == db.subOf
    ensures Mirrors(limits, Done(s.rows[h := r], s, i), db')
  {
  }

  lemma BookedHadSeat(limits: map<Id, int>, db: Db, db': Db, h: string, s: State)
    requires LedgerInvariant.Inv(db) && Mirrors(limits, s, db)
    requires LedgerInvariant.HasEffect(db, db', LedgerInvariant.Booked(h))
    ensures SeatLeft(limits, s, db'.devices[h].tenantId)
  {
    var t := db'.devices[h].tenantId;
    assert BelongsTo(db.subs, db.tokens, db'.devices[h].activatedVia.value, t);
    SameCount(limits, s, db, t);
  }

  lemma BookedMirrors(limits: map<Id, int>, db: Db, db': Db, h: string, s: State, i: nat)
    requires LedgerInvariant.Inv(db) && Mirrors(limits, s, db) && i !in s.txns
    requires LedgerInvariant.HasEffect(db, db', LedgerInvariant.Booked(h))
    ensures Mirrors(limits, Done(s.rows[h := Seat(true, db'.devices[h].tenantId)], s, i), db')
  {
    RowMirrors(limits, db, db', h, Seat(true, db'.devices[h].tenantId), s, i);
  }

  lemma FreedMirrors(limits: map<Id, int>, db: Db, h: string, s: State, i: nat)
    requires Mirrors(limits, s, db) && i !in s.txns && IsLive(db, h)
    ensures Mirrors(limits, Done(s.rows[h := s.rows[h].(live := false)], s, i), Free(db, h))
  {
    assert ShowsRow(s.rows[h], db.devices[h]);
    assert Free(db, h).devices == db.devices[h := db.devices[h].(isRevoked := true)];
  }

  /** A row whose tenant or seat does not change. */
  lemma TouchedMirrors(limits: map<Id, int>, db: Db, h: string, d: Device, s: State, i: nat)
    requires Mirrors(limits, s, db) && i !in s.txns && h in db.devices && LedgerInvariant.SameSeat(db.devices[h], d)
    ensures Mirrors(limits, Done(s.rows, s, i), PutDevice(db, h, d))
  {
  }

  lemma EffectMirrors(limits: map<Id, int>, db: Db, db': Db, e: LedgerInvariant.Effect, s: State, i: nat)
    requires LedgerInvariant.Inv(db) && Mirrors(limits, s, db) && i !in s.txns
    requires LedgerInvariant.HasEffect(db, db', e) && !e.Admin? && !e.Cascaded?
    ensures match e
            case Booked(h) =>
              && SeatLeft(limits, s, db'.devices[h].tenantId)
              && Mirrors(limits, Done(s.rows[h := Seat(true, db'.devices[h].tenantId)], s, i), db')
            case Freed(h) => Mirrors(limits, Done(s.rows[h := s.rows[h].(live := false)], s, i), db')
            case _ => Mirrors(limits, Done(s.rows, s, i), db')
  {
    match e
    case Unchanged =>
    case Touched(h) => TouchedMirrors(limits, db, h, db'.devices[h], s, i);
    case Booked(h) =>
      BookedHadSeat(limits, db, db', h, s);
      BookedMirrors(limits, db, db', h, s, i);
    case Freed(h) => FreedMirrors(limits, db, h, s, i);
  }

  /** Such runs end in the rows of the ledger: a booking or a reinstatement is accepted
      there only with a seat left and leaves the row that its commit writes here, so does a
      release, and any other request on devices changes neither row nor tenant. */
  lemma AloneIsStep(limits: map<Id, int>, db: Db, op: Op, now: Time, s: State, i: nat)
    requires LedgerInvariant.Inv(db) && Mirrors(limits, s, db) && i !in s.txns
    requires !LedgerInvariant.AdminOp(op) && !op.DeleteTenant?
    ensures var db' := Step(db, op, now).db;
            match LedgerInvariant.EffectOf(db, op, now)
            case Booked(h) =>
              && h in db'.devices && SeatLeft(limits, s, db'.devices[h].tenantId)
              && Mirrors(limits, Done(s.rows[h := Seat(true, db'.devices[h].tenantId)], s, i), db')
            case Freed(h) => h in s.rows && Mirrors(limits, Done(s.rows[h := s.rows[h].(live := false)], s, i), db')
            case _ => Mirrors(limits, Done(s.rows, s, i), db')
  {
    OnlyDeletionCascades(db, op, now);
    LedgerInvariant.StepEffect(db, op, now);
    EffectMirrors(limits, db, Step(db, op, now).db, LedgerInvariant.EffectOf(db, op, now), s, i);
  }

  lemma OnlyDeletionCascades(db: Db, op: Op, now: Time)
    requires !LedgerInvariant.AdminOp(op) && !op.DeleteTenant?
    ensures !LedgerInvariant.EffectOf(db, op, now).Cascaded? && !LedgerInvariant.EffectOf(db, op, now).Admin?
  {
  }
}
