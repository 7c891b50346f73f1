/** What the seat counters promise across requests: the tenant cap, the ledger
    total, verify against action, and what one request undoes of another. */
module SeatProperties {
  import opened Wrappers
  import opened Clock
  import opened Ledger
  import opened LedgerInvariant

  // ---- the tenant seat cap ------------------------------------------------------

  predicate WithinCap(db: Db, t: Id) {
    SubIdOf(db, t).Some? ==> SeatsInUse(db, t) <= db.subs[SubIdOf(db, t).value].seatLimit
  }

  lemma UnknownTenantHasNoDevices(db: Db, t: Id)
    requires Inv(db) && t !in db.tenants
    ensures LiveDevicesOf(db.devices, t) == {}
  {
  }

  /** Whatever raises a tenant's live devices leaves them within its seat limit. */
  lemma RaisedSeatsFit(db: Db, op: Op, now: Time, t: Id)
    requires Inv(db) && SeatsInUse(Step(db, op, now).db, t) > SeatsInUse(db, t)
    ensures SubIdOf(db, t).Some? && Step(db, op, now).db.subs == db.subs && Step(db, op, now).db.subOf == db.subOf
    ensures WithinCap(Step(db, op, now).db, t)
  {
    StepEffect(db, op, now);
    RaisedEffectFits(db, Step(db, op, now).db, EffectOf(db, op, now), t);
  }

  lemma RaisedEffectFits(db: Db, db': Db, e: Effect, t: Id)
    requires Inv(db) && HasEffect(db, db', e) && SeatsInUse(db', t) > SeatsInUse(db, t)
    ensures SubIdOf(db, t).Some? && db'.subs == db.subs && db'.subOf == db.subOf && WithinCap(db', t)
  {
    EffectSeats(db, db', e);
  }

  /** A patch of tenant `t` that the CHECK constraints admit. */
  predicate Admissible(db: Db, op: Op, t: Id) {
    && op.PatchSubscription? && op.tenantId == t && t in db.tenants
    && (op.newSeatLimit.Some? ==> op.newSeatLimit.value >= 0)
    && (op.newWindowDays.Some? ==> op.newWindowDays.value > 0)
    && (op.newGraceDays.Some? ==> op.newGraceDays.value >= 0)
  }

  /** The request would set the seat limit of tenant `t` below its live devices. */
  predicate LowersBelowUse(db: Db, op: Op, t: Id) {
    Admissible(db, op, t) && op.newSeatLimit.Some? && op.newSeatLimit.value < SeatsInUse(db, t)
  }

  lemma AdmissibleIsAccepted(db: Db, op: Op, now: Time, t: Id)
    requires Inv(db) && op.PatchSubscription? && op.tenantId == t
    ensures Step(db, op, now).reply.Ok? <==> Admissible(db, op, t)
    ensures Admissible(db, op, t) ==>
              && SubIdOf(db, t).Some? && SubIdOf(Step(db, op, now).db, t) == SubIdOf(db, t)
              && Step(db, op, now).db.devices == db.devices
              && Step(db, op, now).db.subs[SubIdOf(db, t).value].seatLimit
                 == Patched(db.subs[SubIdOf(db, t).value].seatLimit, op.newSeatLimit)
  {
    if t in db.tenants {
      assert SubscriptionChecks(db.subs[db.subOf[t]]);
    }
  }

  /** Only a patch of the tenant itself, or its creation or deletion, touches its limit. */
  lemma LimitKept(db: Db, op: Op, now: Time, t: Id)
    requires Inv(db) && !(op.PatchSubscription? && op.tenantId == t)
    ensures var db' := Step(db, op, now).db;
            SubIdOf(db, t).Some? && SubIdOf(db', t).Some? ==>
              db'.subs[SubIdOf(db', t).value].seatLimit == db.subs[SubIdOf(db, t).value].seatLimit
  {
    if AdminOp(op) {
      AdminLimitKept(db, op, now, t);
    } else {
      StepEffect(db, op, now);
      EffectLimitKept(db, Step(db, op, now).db, EffectOf(db, op, now), t);
    }
  }

  lemma AdminLimitKept(db: Db, op: Op, now: Time, t: Id)
    requires Inv(db) && AdminOp(op) && !(op.PatchSubscription? && op.tenantId == t)
    ensures var db' := Step(db, op, now).db;
            SubIdOf(db, t).Some? && SubIdOf(db', t).Some? ==>
              db'.subs[SubIdOf(db', t).value].seatLimit == db.subs[SubIdOf(db, t).value].seatLimit
  {
  }

  lemma EffectLimitKept(db: Db, db': Db, e: Effect, t: Id)
    requires HasEffect(db, db', e) && !e.Admin?
    ensures SubIdOf(db, t).Some? && SubIdOf(db', t).Some? ==>
              db'.subs[SubIdOf(db', t).value].seatLimit == db.subs[SubIdOf(db, t).value].seatLimit
  {
  }

  /** A step takes a tenant over its limit exactly when it is a patch that sets
      the limit below the tenant's current use. */
  lemma CapStep(db: Db, op: Op, now: Time, t: Id)
    requires Inv(db) && WithinCap(db, t)
    ensures WithinCap(Step(db, op, now).db, t) <==> !LowersBelowUse(db, op, t)
  {
    var db' := Step(db, op, now).db;
    if op.PatchSubscription? && op.tenantId == t {
      AdmissibleIsAccepted(db, op, now, t);
      if !Admissible(db, op, t) {
        RefusedUnchanged(db, op, now);
      }
    } else if SeatsInUse(db', t) > SeatsInUse(db, t) {
      RaisedSeatsFit(db, op, now, t);
    } else if SubIdOf(db, t).None? {
      NewTenantFits(db, op, now, t);
    } else {
      LimitKept(db, op, now, t);
    }
  }

  lemma NewTenantFits(db: Db, op: Op, now: Time, t: Id)
    requires Inv(db) && SubIdOf(db, t).None? && SeatsInUse(Step(db, op, now).db, t) <= SeatsInUse(db, t)
    ensures WithinCap(Step(db, op, now).db, t)
  {
    UnknownTenantHasNoDevices(db, t);
    StepKeeps(db, op, now);
    var db' := Step(db, op, now).db;
    if SubIdOf(db', t).Some? {
      assert SubscriptionChecks(db'.subs[SubIdOf(db', t).value]);
    }
  }

  /** Tenant `t` is within its limit before, between and after all requests. */
  ghost predicate CapHeld(db: Db, events: seq<Event>, t: Id)
    decreases |events|
  {
    WithinCap(db, t) && (events != [] ==> CapHeld(Step(db, events[0].op, events[0].now).db, events[1..], t))
  }

  /** No request of the run sets the limit of tenant `t` below its use at that time. */
  ghost predicate NeverBelowUse(db: Db, events: seq<Event>, t: Id)
    decreases |events|
  {
    events != [] ==>
      && !LowersBelowUse(db, events[0].op, t)
      && NeverBelowUse(Step(db, events[0].op, events[0].now).db, events[1..], t)
  }

  /** A tenant within its limit stays within it throughout a run if and only if
      no request of the run sets the limit below the use at that time. */
  lemma {:induction false} CapOverRuns(db: Db, events: seq<Event>, t: Id)
    requires Inv(db) && WithinCap(db, t)
    ensures CapHeld(db, events, t) <==> NeverBelowUse(db, events, t)
    decreases |events|
  {
    if events != [] {
      CapStep(db, events[0].op, events[0].now, t);
      StepKeeps(db, events[0].op, events[0].now);
      if !LowersBelowUse(db, events[0].op, t) {
        CapOverRuns(Step(db, events[0].op, events[0].now).db, events[1..], t);
      }
    }
  }

  lemma {:induction false} CapHeldAtEnd(db: Db, events: seq<Event>, t: Id)
    requires CapHeld(db, events, t)
    ensures WithinCap(Run(db, events), t)
    decreases |events|
  {
    if events != [] {
      CapHeldAtEnd(Step(db, events[0].op, events[0].now).db, events[1..], t);
    }
  }

  // ---- the code as it stands: no patch is ever accepted ------------------------------

  /** The run without its subscription patches. */
  function Unpatched(events: seq<Event>): seq<Event>
    decreases |events|
  {
    if events == [] then []
    else (if events[0].op.PatchSubscription? then [] else [events[0]]) + Unpatched(events[1..])
  }

  /** As written, a run does what it would do without its patches, so that what is
      proved of all runs of `Step` holds of it, and more. */
  lemma {:induction false} AsWrittenIsUnpatched(db: Db, events: seq<Event>)
    ensures RunAsWritten(db, events) == Run(db, Unpatched(events))
    decreases |events|
  {
    if events != [] {
      var e := events[0];
      if e.op.PatchSubscription? {
        PatchChangesNothing(db, e.op, e.now);
        assert [] + Unpatched(events[1..]) == Unpatched(events[1..]);
      } else {
        assert ([e] + Unpatched(events[1..]))[1..] == Unpatched(events[1..]);
      }
      AsWrittenIsUnpatched(StepAsWritten(db, e.op, e.now).db, events[1..]);
    }
  }

  lemma PatchChangesNothing(db: Db, op: Op, now: Time)
    requires op.PatchSubscription?
    ensures StepAsWritten(db, op, now).db == db && StepAsWritten(db, op, now).reply.Err?
  {
    if Step(db, op, now).reply.Err? {
      RefusedUnchanged(db, op, now);
    }
  }

  lemma {:induction false} UnpatchedIsTimed(clock: Time, events: seq<Event>)
    requires Timed(clock, events)
    ensures Timed(clock, Unpatched(events)) && clock <= EndTime(clock, Unpatched(events)) <= EndTime(clock, events)
    decreases |events|
  {
    if events != [] {
      var e := events[0];
      UnpatchedIsTimed(e.now, events[1..]);
      if e.op.PatchSubscription? {
        assert [] + Unpatched(events[1..]) == Unpatched(events[1..]);
        EarlierIsTimed(clock, e.now, Unpatched(events[1..]));
      } else {
        assert ([e] + Unpatched(events[1..]))[1..] == Unpatched(events[1..]);
      }
    }
  }

  lemma EarlierIsTimed(clock: Time, later: Time, events: seq<Event>)
    requires clock <= later && Timed(later, events) && later <= EndTime(later, events)
    ensures Timed(clock, events) && clock <= EndTime(clock, events) <= EndTime(later, events)
  {
  }

  lemma {:induction false} UnpatchedNeverLowers(db: Db, events: seq<Event>, t: Id)
    ensures NeverBelowUse(db, Unpatched(events), t)
    decreases |events|
  {
    if events != [] {
      var e := events[0];
      if e.op.PatchSubscription? {
        assert [] + Unpatched(events[1..]) == Unpatched(events[1..]);
        UnpatchedNeverLowers(db, events[1..], t);
      } else {
        assert ([e] + Unpatched(events[1..]))[1..] == Unpatched(events[1..]);
        UnpatchedNeverLowers(Step(db, e.op, e.now).db, events[1..], t);
      }
    }
  }

  /** As written, no tenant is ever over its limit, whatever is requested. */
  lemma CapAsWritten(settings: Settings, events: seq<Event>, t: Id)
    ensures WithinCap(RunAsWritten(Empty(settings), events), t)
  {
    var db := Empty(settings);
    AsWrittenIsUnpatched(db, events);
    UnpatchedNeverLowers(db, events, t);
    CapOverRuns(db, Unpatched(events), t);
    CapHeldAtEnd(db, Unpatched(events), t);
  }

  // ---- the tenant total over its tokens -------------------------------------------

  ghost function Pick(ks: set<Id>): Id
    requires ks != {}
    ensures Pick(ks) in ks
  {
    var k :| k in ks; k
  }

  ghost function TotalConsumed(tokens: map<Id, BatchToken>, ks: set<Id>): int
    requires ks <= tokens.Keys
  {
    if ks == {} then 0 else tokens[Pick(ks)].seatsConsumed + TotalConsumed(tokens, ks - {Pick(ks)})
  }

  ghost function LiveDevicesOnAny(devices: map<string, Device>, ks: set<Id>): set<string> {
    set h | h in devices && !devices[h].isRevoked
            && devices[h].activatedVia.Some? && devices[h].activatedVia.value in ks
  }

  lemma {:induction false} TotalIsLive(tokens: map<Id, BatchToken>, devices: map<string, Device>, ks: set<Id>)
    requires Conserved(tokens, devices) && ks <= tokens.Keys
    ensures TotalConsumed(tokens, ks) == |LiveDevicesOnAny(devices, ks)|
  {
    if ks == {} {
      assert LiveDevicesOnAny(devices, ks) == {};
    } else {
      var k := Pick(ks);
      var rest := LiveDevicesOnAny(devices, ks - {k});
      TotalIsLive(tokens, devices, ks - {k});
      assert LiveDevicesOnAny(devices, ks) == rest + LiveDevicesOn(devices, k);
      assert rest !! LiveDevicesOn(devices, k);
    }
  }

  /** The seats a tenant is charged for are exactly the seats its own tokens gave out. */
  lemma TenantSeatsAreTokenSeats(db: Db, t: Id)
    requires Inv(db)
    ensures var own := set k | k in db.tokens && BelongsTo(db.subs, db.tokens, k, t);
            SeatsInUse(db, t) == TotalConsumed(db.tokens, own)
  {
    var own := set k | k in db.tokens && BelongsTo(db.subs, db.tokens, k, t);
    TotalIsLive(db.tokens, db.devices, own);
    assert LiveDevicesOnAny(db.devices, own) == LiveDevicesOf(db.devices, t);
  }

  /** The devices of a tenant as a listing, each once, in any order. */
  ghost predicate Lists(db: Db, t: Id, listing: seq<string>) {
    && (forall i, j :: 0 <= i < j < |listing| ==> listing[i] != listing[j])
    && (forall h :: h in listing <==> h in db.devices && db.devices[h].tenantId == t)
  }

  /** `sum(1 for d in devs if not d["is_revoked"])`. */
  function SumLive(db: Db, listing: seq<string>): nat {
    if listing == [] then 0 else (if IsLive(db, listing[0]) then 1 else 0) + SumLive(db, listing[1..])
  }

  ghost function LiveIn(db: Db, listing: seq<string>): set<string> {
    set h | h in listing && IsLive(db, h)
  }

  lemma {:induction false} SumCounts(db: Db, listing: seq<string>)
    requires forall i, j :: 0 <= i < j < |listing| ==> listing[i] != listing[j]
    ensures SumLive(db, listing) == |LiveIn(db, listing)|
    decreases |listing|
  {
    if listing != [] {
      var h, rest := listing[0], listing[1..];
      SumCounts(db, rest);
      assert listing == [h] + rest && h !in rest;
      assert LiveIn(db, listing) == LiveIn(db, rest) + if IsLive(db, h) then {h} else {};
    }
  }

  /** The seats that the detail view adds up over the rows it lists are the
      seats that the cap check counts. */
  lemma DetailMatchesCap(db: Db, t: Id, listing: seq<string>)
    requires Lists(db, t, listing)
    ensures SumLive(db, listing) == SeatsInUse(db, t)
  {
    SumCounts(db, listing);
    assert LiveIn(db, listing) == LiveDevicesOf(db.devices, t);
  }

  // ---- verify agrees with action -----------------------------------------------------

  predicate WellFormed(body: DeviceBody) {
    && body.token.Some? && body.hardwareUuid.Some? && |body.hardwareUuid.value| <= MAX_HARDWARE_UUID
    && body.deviceName.Some? && |body.deviceName.value| <= MAX_DEVICE_NAME
  }

  /** For a device without a live row, activation succeeds exactly when the
      token verifies and the tenant has a free seat; a verified token is
      refused only by the tenant seat limit. */
  lemma VerifyAgreesWithActivate(db: Db, t: Id, body: DeviceBody, secret: string, now: Time)
    requires Inv(db) && WellFormed(body) && !IsLive(db, body.hardwareUuid.value)
    ensures var verified := VerifyToken(db, Some(t), body.token.value, now);
            var reply := Step(db, CpActivate(Some(t), body, secret), now).reply;
            && (reply.Ok? <==> verified == Ok(true) && HasFreeSeat(db, t))
            && (verified == Ok(true) && reply.Err? ==> reply == Err(SeatLimitReached) && !HasFreeSeat(db, t))
  {
  }

  lemma VerifyAgreesWithConsume(db: Db, t: Id, body: DeviceBody, now: Time)
    requires body.token.Some? && body.hardwareUuid.Some? && |body.hardwareUuid.value| <= MAX_HARDWARE_UUID
    requires Inv(db) && !IsLive(db, body.hardwareUuid.value)
    ensures var verified := VerifyToken(db, Some(t), body.token.value, now);
            var reply := Step(db, ConsumeSeat(Some(t), body), now).reply;
            && (reply.Ok? <==> verified == Ok(true) && HasFreeSeat(db, t))
            && (verified == Ok(true) && reply.Err? ==> reply == Err(SeatLimitReached) && !HasFreeSeat(db, t))
  {
  }

  // ---- repeating and undoing -------------------------------------------------------------

  ghost predicate SameSeatCounts(db: Db, db': Db) {
    db'.tokens == db.tokens && forall t: Id :: SeatsInUse(db', t) == SeatsInUse(db, t)
  }

  /** A hardware that holds a seat is never charged again, whoever asks. */
  lemma ConsumeIsIdempotent(db: Db, h: string, caller: Option<Id>, body: DeviceBody, now: Time)
    requires Inv(db) && IsLive(db, h) && body.hardwareUuid == Some(h)
    ensures var o := Step(db, ConsumeSeat(caller, body), now);
            SameSeatCounts(db, o.db) && (o.reply.Ok? ==> o.reply == Ok(SeatBooked(false)))
  {
    LiveIsOnlyTouched(db, h, caller, body, now);
    TouchKeeps(db, h, db.devices[h].(lastSeenAt := Some(now)));
  }

  lemma LiveIsOnlyTouched(db: Db, h: string, caller: Option<Id>, body: DeviceBody, now: Time)
    requires IsLive(db, h) && body.hardwareUuid == Some(h)
    ensures var o := DoConsumeSeat(db, caller, body, now);
            if o.reply.Ok?
            then o.reply == Ok(SeatBooked(false)) && o.db == PutDevice(db, h, db.devices[h].(lastSeenAt := Some(now)))
            else o.db == db
  {
  }

  /** Releasing or revoking a device a second time changes nothing at all. */
  lemma ReleaseIsIdempotent(db: Db, h: string, first: Op, second: Op, now: Time, later: Time)
    requires (first.RevokeDevice? || first.ReleaseSeat?) && first.hw == h
    requires (second.RevokeDevice? || second.ReleaseSeat?) && second.hw == h
    ensures var db' := Step(db, first, now).db;
            Step(db', second, later).db == db'
  {
  }

  /** A release right after a booking gives back exactly the seat it took. */
  lemma ReleaseUndoesBooking(db: Db, op: Op, now: Time, h: string, caller: Option<Id>, later: Time)
    requires Inv(db) && EffectOf(db, op, now) == Booked(h)
    ensures var booked := Step(db, op, now).db;
            var released := Step(booked, ReleaseSeat(caller, h), later).db;
            && IsLive(booked, h) && !IsLive(released, h)
            && SameSeatCounts(db, released)
            && booked.tokens != db.tokens
  {
    StepEffect(db, op, now);
    StepKeeps(db, op, now);
    FreeUndoesBook(db, Step(db, op, now).db, h);
    ReleaseIsFree(Step(db, op, now).db, h, caller, later);
  }

  lemma ReleaseIsFree(db: Db, h: string, caller: Option<Id>, now: Time)
    requires IsLive(db, h)
    ensures Step(db, ReleaseSeat(caller, h), now).db == Free(db, h) && !IsLive(Free(db, h), h)
  {
  }

  lemma FreeUndoesBook(db: Db, booked: Db, h: string)
    requires Inv(db) && Inv(booked) && HasEffect(db, booked, Booked(h))
    ensures IsLive(booked, h) && SameSeatCounts(db, Free(booked, h)) && booked.tokens != db.tokens
  {
    var k := booked.devices[h].activatedVia.value;
    EffectSeats(db, booked, Booked(h));
    ReleaseGuardHolds(booked, h);
    EffectSeats(booked, Free(booked, h), Freed(h));
    FreeRestoresTokens(db.tokens, k);
  }

  lemma FreeRestoresTokens(tokens: map<Id, BatchToken>, k: Id)
    requires k in tokens
    ensures var spent := tokens[k := tokens[k].(seatsConsumed := tokens[k].seatsConsumed + 1)];
            && spent != tokens
            && spent[k := spent[k].(seatsConsumed := spent[k].seatsConsumed - 1)] == tokens
  {
    var spent := tokens[k := tokens[k].(seatsConsumed := tokens[k].seatsConsumed + 1)];
    assert spent[k].seatsConsumed != tokens[k].seatsConsumed;
  }

  /** Reinstating a device right after its revocation succeeds exactly when the
      tenant was not over its limit; it then brings back every counter and the
      whole row, the key included, except that a paid tenant's validity may
      move forward. */
  lemma ReinstateUndoesRevoke(db: Db, h: string, now: Time, later: Time)
    requires Inv(db) && IsLive(db, h)
    ensures var d := db.devices[h];
            var o := Step(Step(db, RevokeDevice(h), now).db, ReinstateDevice(h), later);
            && (o.reply.Ok? <==> WithinCap(db, d.tenantId))
            && (o.reply.Ok? ==>
                  && o.db.tokens == db.tokens
                  && h in o.db.devices
                  && o.db == PutDevice(db, h, d.(validUntil := o.db.devices[h].validUntil))
                  && o.db.devices[h].validUntil >= d.validUntil)
  {
    var d := db.devices[h];
    var k := d.activatedVia.value;
    assert BelongsTo(db.subs, db.tokens, k, d.tenantId);
    ReleaseGuardHolds(db, h);
    FreeSeats(db, h);
    FreedReturns(db, Free(db, h), k, h, later);
  }

  lemma FreedReturns(db: Db, freed: Db, k: Id, h: string, later: Time)
    requires IsLive(db, h) && k in db.tokens && db.devices[h].activatedVia == Some(k)
    requires db.tokens[k].seatsConsumed <= db.tokens[k].quota
    requires freed == PutSeats(PutDevice(db, h, db.devices[h].(isRevoked := true)), k, db.tokens[k].seatsConsumed - 1)
    requires SeatsInUse(freed, db.devices[h].tenantId) == SeatsInUse(db, db.devices[h].tenantId) - 1
    requires db.devices[h].tenantId in db.tenants && SubIdOf(db, db.devices[h].tenantId).Some?
    ensures var d := db.devices[h];
            var o := DoReinstate(freed, h, later);
            && (o.reply.Ok? <==> WithinCap(db, d.tenantId))
            && (o.reply.Ok? ==>
                  && h in o.db.devices && o.db.devices[h].validUntil >= d.validUntil
                  && o.db == PutDevice(db, h, d.(validUntil := o.db.devices[h].validUntil)))
  {
    ReinstateReply(freed, h, later);
    var o := DoReinstate(freed, h, later);
    if o.reply.Ok? {
      ReinstateRow(freed, h, later);
      BookUndoesFree(db, k, h, o.db.devices[h].validUntil);
    }
  }

  /** A revoked row whose token has a seat to give is reinstated exactly when
      its tenant has one too. */
  lemma ReinstateReply(db: Db, h: string, now: Time)
    requires h in db.devices && !IsLive(db, h) && db.devices[h].tenantId in db.tenants
    requires SubIdOf(db, db.devices[h].tenantId).Some?
    requires var via := db.devices[h].activatedVia;
             via.Some? && via.value in db.tokens && db.tokens[via.value].seatsConsumed < db.tokens[via.value].quota
    ensures DoReinstate(db, h, now).reply.Ok? <==> HasFreeSeat(db, db.devices[h].tenantId)
  {
  }

  lemma ReinstateRow(db: Db, h: string, now: Time)
    requires h in db.devices && !IsLive(db, h) && DoReinstate(db, h, now).reply.Ok?
    requires db.devices[h].activatedVia.Some? && db.devices[h].activatedVia.value in db.tokens
    ensures var d := db.devices[h];
            var o := DoReinstate(db, h, now);
            && h in o.db.devices && o.db.devices[h].validUntil >= d.validUntil
            && o.db == Book(db, d.activatedVia.value, h,
                            d.(isRevoked := false, validUntil := o.db.devices[h].validUntil))
  {
  }

  lemma BookUndoesFree(db: Db, k: Id, h: string, until: Time)
    requires k in db.tokens && IsLive(db, h)
    ensures var d := db.devices[h];
            var freed := PutSeats(PutDevice(db, h, d.(isRevoked := true)), k, db.tokens[k].seatsConsumed - 1);
            Book(freed, k, h, d.(validUntil := until)) == PutDevice(db, h, d.(validUntil := until))
  {
    var d := db.devices[h];
    var freed := PutSeats(PutDevice(db, h, d.(isRevoked := true)), k, db.tokens[k].seatsConsumed - 1);
    var back := Book(freed, k, h, d.(validUntil := until));
    assert back.tokens[k] == db.tokens[k];
    assert back.tokens == db.tokens;
    assert back.devices == db.devices[h := d.(validUntil := until)];
  }

  /** Any caller, of any tenant or of none, releases any live device. */
  lemma AnyoneReleases(db: Db, h: string, caller: Option<Id>, now: Time)
    requires Inv(db) && IsLive(db, h)
    ensures var o := Step(db, ReleaseSeat(caller, h), now);
            && o.reply == Ok(Done) && !IsLive(o.db, h)
            && SeatsInUse(o.db, db.devices[h].tenantId) == SeatsInUse(db, db.devices[h].tenantId) - 1
  {
    FreeSeats(db, h);
  }

  // ---- foreign devices ------------------------------------------------------------------

  /** The tenant an activation or seat request acts for. */
  function ActingTenant(db: Db, op: Op): Option<Id> {
    match op
    case CpActivate(caller, _, _) => caller
    case ConsumeSeat(caller, _) => caller
    case Heartbeat(caller, _, _) => caller
    case PublicActivate(body, _) =>
      if body.token.Some? && TokenIdOf(db, body.token.value).Some? then
        var s := db.tokens[TokenIdOf(db, body.token.value).value].subscriptionId;
        if s in db.subs then Some(db.subs[s].tenantId) else None
      else None
    case _ => None
  }

  /** No activation path changes the key, the validity, the tenant or the token
      of a live device bound to another tenant. */
  lemma ForeignDeviceUntouched(db: Db, op: Op, now: Time, h: string)
    requires op.CpActivate? || op.PublicActivate? || op.ConsumeSeat?
    requires IsLive(db, h) && ActingTenant(db, op) != Some(db.devices[h].tenantId)
    ensures var db' := Step(db, op, now).db;
            IsLive(db', h) && db'.devices[h] == db.devices[h].(lastSeenAt := db'.devices[h].lastSeenAt)
  {
  }
}
