/** The life of a batch token: what it can book, and that a revoked one books
    nothing ever again. */
module TokenHistory {
  import opened Wrappers
  import opened Clock
  import opened Ledger
  import opened LedgerInvariant

  /** A fresh token verifies for its own tenant, unless it was created expired,
      and for no other tenant. */
  lemma NewTokenVerifies(db: Db, t: Id, quota: Option<int>, expiresAt: Option<Time>, text: string, u: Id, now: Time)
    requires Inv(db) && u in db.tenants
    requires Step(db, GenerateBatchToken(t, quota, expiresAt, text), now).reply.Ok?
    ensures var db' := Step(db, GenerateBatchToken(t, quota, expiresAt, text), now).db;
            VerifyToken(db', Some(u), text, now) == Ok(u == t && (expiresAt.None? || expiresAt.value > now))
  {
    assert db.subs[db.subOf[t]].tenantId == t && db.subs[db.subOf[u]].tenantId == u;
  }

  /** A booking is charged to the token that was presented, and to no other. */
  lemma BookingChargesToken(db: Db, op: Op, now: Time)
    requires Inv(db) && SeatRequest(op) && op.body.hardwareUuid.Some?
    requires EffectOf(db, op, now) == Booked(op.body.hardwareUuid.value)
    ensures op.body.token.Some? && TokenIdOf(db, op.body.token.value).Some?
    ensures var k := TokenIdOf(db, op.body.token.value).value;
            var h := op.body.hardwareUuid.value;
            var db' := Step(db, op, now).db;
            && db' == PutSeats(db, k, db.tokens[k].seatsConsumed + 1).(devices := db.devices[h := db'.devices[h]])
            && IsLive(db', h) && db'.devices[h].activatedVia == Some(k)
            && !db.tokens[k].isRevoked && Unexpired(db.tokens[k], now)
  {
    if op.ConsumeSeat? {
      ConsumeCharges(db, op.caller, op.body, now);
    } else {
      ActivationCharges(db, op, now);
    }
  }

  lemma ConsumeCharges(db: Db, caller: Option<Id>, body: DeviceBody, now: Time)
    requires DoConsumeSeat(db, caller, body, now).reply.Ok? && body.hardwareUuid.Some?
    requires !IsLive(db, body.hardwareUuid.value)
    ensures body.token.Some? && TokenIdOf(db, body.token.value).Some?
    ensures var k := TokenIdOf(db, body.token.value).value;
            var h := body.hardwareUuid.value;
            var db' := DoConsumeSeat(db, caller, body, now).db;
            && db' == PutSeats(db, k, db.tokens[k].seatsConsumed + 1).(devices := db.devices[h := db'.devices[h]])
            && IsLive(db', h) && db'.devices[h].activatedVia == Some(k)
            && !db.tokens[k].isRevoked && Unexpired(db.tokens[k], now)
  {
  }

  lemma ActivateCharges(db: Db, t: Id, s: Id, k: Id, body: DeviceBody, secret: string, now: Time)
    requires s in db.subs && k in db.tokens && DoActivate(db, t, s, k, body, secret, now).reply.Ok?
    requires body.hardwareUuid.Some? && !IsLive(db, body.hardwareUuid.value)
    ensures var h := body.hardwareUuid.value;
            var db' := DoActivate(db, t, s, k, body, secret, now).db;
            && db' == PutSeats(db, k, db.tokens[k].seatsConsumed + 1).(devices := db.devices[h := db'.devices[h]])
            && IsLive(db', h) && db'.devices[h].activatedVia == Some(k)
  {
  }

  lemma ActivationCharges(db: Db, op: Op, now: Time)
    requires (op.CpActivate? || op.PublicActivate?) && Step(db, op, now).reply.Ok?
    requires op.body.hardwareUuid.Some? && !IsLive(db, op.body.hardwareUuid.value)
    ensures op.body.token.Some? && TokenIdOf(db, op.body.token.value).Some?
    ensures var k := TokenIdOf(db, op.body.token.value).value;
            var h := op.body.hardwareUuid.value;
            var db' := Step(db, op, now).db;
            && db' == PutSeats(db, k, db.tokens[k].seatsConsumed + 1).(devices := db.devices[h := db'.devices[h]])
            && IsLive(db', h) && db'.devices[h].activatedVia == Some(k)
            && !db.tokens[k].isRevoked && Unexpired(db.tokens[k], now)
  {
    var k := TokenIdOf(db, op.body.token.value).value;
    var s := db.tokens[k].subscriptionId;
    ActivateCharges(db, if op.CpActivate? then op.caller.value else db.subs[s].tenantId, s, k, op.body, op.secret, now);
  }

  // ---- revoked once, revoked forever ------------------------------------------------

  /** Token `k` has existed; if it still does, it is revoked. */
  predicate RevokedOrGone(db: Db, k: Id) {
    k < db.nextToken && (k in db.tokens ==> db.tokens[k].isRevoked)
  }

  lemma EffectKeepsRevoked(db: Db, db': Db, e: Effect, k: Id)
    requires HasEffect(db, db', e) && !e.Admin? && RevokedOrGone(db, k)
    ensures RevokedOrGone(db', k)
  {
  }

  lemma AdminKeepsRevoked(db: Db, op: Op, now: Time, k: Id)
    requires AdminOp(op) && RevokedOrGone(db, k)
    ensures RevokedOrGone(Step(db, op, now).db, k)
  {
  }

  lemma {:induction false} RevokedForever(db: Db, events: seq<Event>, k: Id)
    requires Inv(db) && RevokedOrGone(db, k)
    ensures RevokedOrGone(Run(db, events), k)
    decreases |events|
  {
    if events != [] {
      var e := events[0];
      if AdminOp(e.op) {
        AdminKeepsRevoked(db, e.op, e.now, k);
      } else {
        StepEffect(db, e.op, e.now);
        EffectKeepsRevoked(db, Step(db, e.op, e.now).db, EffectOf(db, e.op, e.now), k);
      }
      StepKeeps(db, e.op, e.now);
      RevokedForever(Step(db, e.op, e.now).db, events[1..], k);
    }
  }

  /** Between two tables, token `k` is charged no further seat. */
  predicate TakesNoSeat(tokens: map<Id, BatchToken>, tokens': map<Id, BatchToken>, k: Id) {
    k in tokens && k in tokens' ==> tokens'[k].seatsConsumed <= tokens[k].seatsConsumed
  }

  lemma RevokedTakesNoSeat(db: Db, op: Op, now: Time, k: Id)
    requires Inv(db) && RevokedOrGone(db, k) && !op.ReinstateDevice?
    ensures TakesNoSeat(db.tokens, Step(db, op, now).db.tokens, k)
  {
    var e := EffectOf(db, op, now);
    if AdminOp(op) {
      AdminTakesNoSeat(db, op, now, k);
    } else if e.Booked? {
      BookedIsSeatRequest(db, op, now);
      BookingChargesToken(db, op, now);
    } else {
      StepEffect(db, op, now);
      EffectTakesNoSeat(db, Step(db, op, now).db, e, k);
    }
  }

  lemma BookedIsSeatRequest(db: Db, op: Op, now: Time)
    requires EffectOf(db, op, now).Booked? && !op.ReinstateDevice?
    ensures SeatRequest(op) && op.body.hardwareUuid.Some?
    ensures EffectOf(db, op, now) == Booked(op.body.hardwareUuid.value)
  {
  }

  lemma EffectTakesNoSeat(db: Db, db': Db, e: Effect, k: Id)
    requires HasEffect(db, db', e) && !e.Admin? && !e.Booked?
    ensures TakesNoSeat(db.tokens, db'.tokens, k)
  {
  }

  lemma NewTokenTakesNoSeat(db: Db, op: Op, now: Time, k: Id)
    requires Inv(db) && op.GenerateBatchToken?
    ensures TakesNoSeat(db.tokens, Step(db, op, now).db.tokens, k)
  {
    assert k in db.tokens ==> k < db.nextToken;
  }

  lemma OtherAdminTakesNoSeat(db: Db, op: Op, now: Time, k: Id)
    requires AdminOp(op) && !op.GenerateBatchToken?
    ensures TakesNoSeat(db.tokens, Step(db, op, now).db.tokens, k)
  {
  }

  lemma AdminTakesNoSeat(db: Db, op: Op, now: Time, k: Id)
    requires Inv(db) && AdminOp(op)
    ensures TakesNoSeat(db.tokens, Step(db, op, now).db.tokens, k)
  {
    if op.GenerateBatchToken? {
      NewTokenTakesNoSeat(db, op, now, k);
    } else {
      OtherAdminTakesNoSeat(db, op, now, k);
    }
  }

  /** After a batch token has been revoked, no later request of any run books a
      seat on it, a reinstatement apart, and it never verifies under its id. */
  lemma RevokedTokenBooksNothing(db: Db, k: Id, revokedAt: Time, events: seq<Event>, op: Op, now: Time)
    requires Inv(db) && k in db.tokens && !op.ReinstateDevice?
    ensures var revoked := Step(db, RevokeBatchToken(k), revokedAt).db;
            var db' := Run(revoked, events);
            && TakesNoSeat(db'.tokens, Step(db', op, now).db.tokens, k)
            && (k in db'.tokens ==>
                  forall caller: Option<Id> :: VerifyToken(db', caller, db'.tokens[k].text, now) == Ok(false))
  {
    var revoked := Step(db, RevokeBatchToken(k), revokedAt).db;
    StepKeeps(db, RevokeBatchToken(k), revokedAt);
    RevokedForever(revoked, events, k);
    RunKeeps(revoked, events);
    var db' := Run(revoked, events);
    RevokedTakesNoSeat(db', op, now, k);
    if k in db'.tokens {
      assert TokenIdOf(db', db'.tokens[k].text) == Some(k);
    }
  }
}
