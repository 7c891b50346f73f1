/** What every request keeps, and so every run from the empty tables: the keys
    agree with the indexes, each device row belongs to the tenant of the token
    it was activated with, and each token's counter is the number of live
    devices booked on it. */
module LedgerInvariant {
  import opened Wrappers
  import opened Clock
  import opened Ledger

  /** Tenants and subscriptions are one to one, as the unique index says. */
  ghost predicate SubsIndexed(tenants: map<Id, Tenant>, subs: map<Id, Subscription>, subOf: map<Id, Id>,
                              nextTenant: Id, nextSub: Id)
  {
    && tenants.Keys == subOf.Keys
    && (forall t :: t in tenants ==> t < nextTenant)
    && (forall t :: t in subOf ==> subOf[t] in subs && subs[subOf[t]].tenantId == t)
    && (forall s :: s in subs ==> s < nextSub && subs[s].tenantId in subOf && subOf[subs[s].tenantId] == s)
  }

  /** Tokens hang off existing subscriptions and are found by their text. */
  ghost predicate TokensIndexed(subs: map<Id, Subscription>, tokens: map<Id, BatchToken>,
                                tokenByText: map<string, Id>, nextToken: Id)
  {
    && (forall k :: k in tokens ==>
          && k < nextToken && tokens[k].subscriptionId in subs
          && tokens[k].text in tokenByText && tokenByText[tokens[k].text] == k)
    && (forall x :: x in tokenByText ==> tokenByText[x] in tokens && tokens[tokenByText[x]].text == x)
  }

  ghost predicate Checked(subs: map<Id, Subscription>) {
    forall s :: s in subs ==> SubscriptionChecks(subs[s])
  }

  /** Every device row, live or revoked, was activated with a token of its own tenant. */
  ghost predicate Owned(subs: map<Id, Subscription>, tokens: map<Id, BatchToken>, devices: map<string, Device>) {
    forall h :: h in devices ==>
      devices[h].activatedVia.Some? && BelongsTo(subs, tokens, devices[h].activatedVia.value, devices[h].tenantId)
  }

  /** Seat conservation. */
  ghost predicate Conserved(tokens: map<Id, BatchToken>, devices: map<string, Device>) {
    forall k :: k in tokens ==> tokens[k].seatsConsumed == |LiveDevicesOn(devices, k)| <= tokens[k].quota
  }

  ghost predicate Inv(db: Db) {
    && SubsIndexed(db.tenants, db.subs, db.subOf, db.nextTenant, db.nextSub)
    && TokensIndexed(db.subs, db.tokens, db.tokenByText, db.nextToken)
    && Checked(db.subs)
    && Owned(db.subs, db.tokens, db.devices)
    && Conserved(db.tokens, db.devices)
  }

  // ---- the three ways a device row changes ----------------------------------------

  /** The fields of a row that no seat count reads. */
  predicate SameSeat(d: Device, d': Device) {
    d'.tenantId == d.tenantId && d'.isRevoked == d.isRevoked && d'.activatedVia == d.activatedVia
  }

  lemma TouchKeeps(db: Db, h: string, d: Device)
    requires Inv(db) && h in db.devices && SameSeat(db.devices[h], d)
    ensures Inv(PutDevice(db, h, d))
    ensures forall t :: LiveDevicesOf(PutDevice(db, h, d).devices, t) == LiveDevicesOf(db.devices, t)
  {
    var devices := db.devices[h := d];
    forall k ensures LiveDevicesOn(devices, k) == LiveDevicesOn(db.devices, k) {
    }
    forall t ensures LiveDevicesOf(devices, t) == LiveDevicesOf(db.devices, t) {
    }
  }

  /** Putting a live row where none was adds its device to one token and one tenant. */
  lemma LiveRowAdds(devices: map<string, Device>, h: string, d: Device)
    requires h in devices ==> devices[h].isRevoked
    requires !d.isRevoked
    ensures forall k: Id :: h !in LiveDevicesOn(devices, k)
              && LiveDevicesOn(devices[h := d], k)
                 == if d.activatedVia == Some(k) then LiveDevicesOn(devices, k) + {h} else LiveDevicesOn(devices, k)
    ensures forall t: Id :: h !in LiveDevicesOf(devices, t)
              && LiveDevicesOf(devices[h := d], t)
                 == if d.tenantId == t then LiveDevicesOf(devices, t) + {h} else LiveDevicesOf(devices, t)
  {
  }

  lemma BookCounts(tokens: map<Id, BatchToken>, devices: map<string, Device>, k: Id, h: string, d: Device)
    requires Conserved(tokens, devices) && k in tokens && tokens[k].seatsConsumed < tokens[k].quota
    requires h in devices ==> devices[h].isRevoked
    requires !d.isRevoked && d.activatedVia == Some(k)
    ensures Conserved(tokens[k := tokens[k].(seatsConsumed := tokens[k].seatsConsumed + 1)], devices[h := d])
  {
    LiveRowAdds(devices, h, d);
  }

  lemma FreeCounts(tokens: map<Id, BatchToken>, devices: map<string, Device>, k: Id, h: string, d: Device)
    requires Conserved(tokens, devices) && k in tokens && h in devices
    requires !devices[h].isRevoked && devices[h].activatedVia == Some(k) && d.isRevoked
    ensures tokens[k].seatsConsumed > 0
    ensures Conserved(tokens[k := tokens[k].(seatsConsumed := tokens[k].seatsConsumed - 1)], devices[h := d])
  {
    var before := devices[h := d];
    assert before[h := devices[h]] == devices;
    LiveRowAdds(before, h, devices[h]);
  }

  /** One more live row of tenant `u` changes the seat count of `u` alone, by one. */
  lemma LiveRowCounts(devices: map<string, Device>, h: string, d: Device)
    requires h in devices ==> devices[h].isRevoked
    requires !d.isRevoked
    ensures forall t: Id :: |LiveDevicesOf(devices[h := d], t)|
                         == |LiveDevicesOf(devices, t)| + (if d.tenantId == t then 1 else 0)
  {
    LiveRowAdds(devices, h, d);
  }

  /** A counter update touches neither the keys nor who owns what, and a row
      written for a tenant of its own token stays owned. */
  lemma SeatChangeKeepsKeys(db: Db, k: Id, seats: int, h: string, d: Device)
    requires Inv(db) && k in db.tokens && d.activatedVia == Some(k) && BelongsTo(db.subs, db.tokens, k, d.tenantId)
    ensures var tokens := db.tokens[k := db.tokens[k].(seatsConsumed := seats)];
            && TokensIndexed(db.subs, tokens, db.tokenByText, db.nextToken)
            && Owned(db.subs, tokens, db.devices[h := d])
  {
    var tokens := db.tokens[k := db.tokens[k].(seatsConsumed := seats)];
    forall j, t | BelongsTo(db.subs, db.tokens, j, t) ensures BelongsTo(db.subs, tokens, j, t) {
    }
  }

  lemma SeatChangeKeeps(db: Db, db': Db, k: Id, seats: int, h: string, d: Device)
    requires Inv(db) && k in db.tokens && d.activatedVia == Some(k) && BelongsTo(db.subs, db.tokens, k, d.tenantId)
    requires db' == db.(tokens := db.tokens[k := db.tokens[k].(seatsConsumed := seats)], devices := db.devices[h := d])
    requires Conserved(db'.tokens, db'.devices)
    ensures Inv(db')
  {
    SeatChangeKeepsKeys(db, k, seats, h, d);
  }

  lemma BookSeats(db: Db, k: Id, h: string, d: Device)
    requires k in db.tokens && !IsLive(db, h) && !d.isRevoked
    ensures forall t: Id :: SeatsInUse(Book(db, k, h, d), t) == SeatsInUse(db, t) + (if t == d.tenantId then 1 else 0)
  {
    LiveRowCounts(db.devices, h, d);
  }

  lemma BookKeeps(db: Db, k: Id, h: string, d: Device)
    requires Inv(db) && k in db.tokens && !IsLive(db, h) && !d.isRevoked && d.activatedVia == Some(k)
    requires db.tokens[k].seatsConsumed < db.tokens[k].quota && BelongsTo(db.subs, db.tokens, k, d.tenantId)
    ensures Inv(Book(db, k, h, d))
  {
    BookCounts(db.tokens, db.devices, k, h, d);
    SeatChangeKeeps(db, Book(db, k, h, d), k, db.tokens[k].seatsConsumed + 1, h, d);
  }

  /** Under the invariant the `seats_consumed > 0` guard of a release never
      blocks the decrement it protects. */
  lemma ReleaseGuardHolds(db: Db, h: string)
    requires Inv(db) && IsLive(db, h)
    ensures var d := db.devices[h];
            var k := d.activatedVia.value;
            && db.tokens[k].seatsConsumed > 0
            && Free(db, h) == PutSeats(PutDevice(db, h, d.(isRevoked := true)), k, db.tokens[k].seatsConsumed - 1)
  {
    var d := db.devices[h];
    FreeCounts(db.tokens, db.devices, d.activatedVia.value, h, d.(isRevoked := true));
  }

  lemma FreeSeats(db: Db, h: string)
    requires IsLive(db, h)
    ensures forall t: Id :: SeatsInUse(Free(db, h), t)
                         == SeatsInUse(db, t) - (if t == db.devices[h].tenantId then 1 else 0)
  {
    var freed := Free(db, h).devices;
    LiveRowCounts(freed, h, db.devices[h]);
    assert freed[h := db.devices[h]] == db.devices;
  }

  lemma FreeKeeps(db: Db, h: string)
    requires Inv(db) && IsLive(db, h)
    ensures Inv(Free(db, h))
  {
    ReleaseGuardHolds(db, h);
    var d := db.devices[h];
    var k := d.activatedVia.value;
    FreeCounts(db.tokens, db.devices, k, h, d.(isRevoked := true));
    SeatChangeKeeps(db, Free(db, h), k, db.tokens[k].seatsConsumed - 1, h, d.(isRevoked := true));
  }

  // ---- requests that leave the devices alone ----------------------------------------

  lemma PutSubKeeps(db: Db, s: Id, sub: Subscription)
    requires Inv(db) && s in db.subs && SubscriptionChecks(sub) && sub.tenantId == db.subs[s].tenantId
    ensures Inv(PutSub(db, s, sub))
  {
  }

  lemma NewTenantKeeps(db: Db, sub: Subscription)
    requires Inv(db) && SubscriptionChecks(sub) && sub.tenantId == db.nextTenant
    ensures var t, s := db.nextTenant, db.nextSub;
            var subs := db.subs[s := sub];
            && SubsIndexed(db.tenants[t := Tenant(TenantActive)], subs, db.subOf[t := s], t + 1, s + 1)
            && TokensIndexed(subs, db.tokens, db.tokenByText, db.nextToken)
            && Checked(subs) && Owned(subs, db.tokens, db.devices)
  {
    var t, s := db.nextTenant, db.nextSub;
    var subs := db.subs[s := sub];
    assert t !in db.tenants && s !in db.subs;
    forall k, u | BelongsTo(db.subs, db.tokens, k, u) ensures BelongsTo(subs, db.tokens, k, u) {
    }
  }

  lemma CreateTenantKeeps(db: Db, seats: Option<int>, window: Option<int>, grace: Option<int>, now: Time)
    requires Inv(db)
    ensures Inv(DoCreateTenant(db, seats, window, grace, now).db)
  {
    var o := DoCreateTenant(db, seats, window, grace, now);
    if o.reply.Ok? {
      NewTenantKeeps(db, o.db.subs[db.nextSub]);
    }
  }

  lemma NewTokenKeeps(db: Db, tok: BatchToken)
    requires Inv(db) && tok.subscriptionId in db.subs && tok.text !in db.tokenByText
    requires tok.seatsConsumed == 0 <= tok.quota
    ensures var k := db.nextToken;
            var tokens := db.tokens[k := tok];
            && TokensIndexed(db.subs, tokens, db.tokenByText[tok.text := k], k + 1)
            && Owned(db.subs, tokens, db.devices) && Conserved(tokens, db.devices)
  {
    var k := db.nextToken;
    var tokens := db.tokens[k := tok];
    assert k !in db.tokens;
    assert LiveDevicesOn(db.devices, k) == {};
    forall j, t | BelongsTo(db.subs, db.tokens, j, t) ensures BelongsTo(db.subs, tokens, j, t) {
    }
  }

  lemma GenerateKeeps(db: Db, t: Id, quota: Option<int>, expiresAt: Option<Time>, text: string)
    requires Inv(db)
    ensures Inv(DoGenerateBatchToken(db, t, quota, expiresAt, text).db)
  {
    var o := DoGenerateBatchToken(db, t, quota, expiresAt, text);
    if o.reply.Ok? {
      NewTokenKeeps(db, o.db.tokens[db.nextToken]);
    }
  }

  lemma RevokedTokenKeeps(db: Db, k: Id)
    requires Inv(db) && k in db.tokens
    ensures var tokens := db.tokens[k := db.tokens[k].(isRevoked := true)];
            && TokensIndexed(db.subs, tokens, db.tokenByText, db.nextToken)
            && Owned(db.subs, tokens, db.devices) && Conserved(tokens, db.devices)
  {
    var tokens := db.tokens[k := db.tokens[k].(isRevoked := true)];
    forall j, t | BelongsTo(db.subs, db.tokens, j, t) ensures BelongsTo(db.subs, tokens, j, t) {
    }
  }

  lemma RevokeTokenKeeps(db: Db, k: Id)
    requires Inv(db)
    ensures Inv(DoRevokeBatchToken(db, k).db)
  {
    if k in db.tokens {
      RevokedTokenKeeps(db, k);
    }
  }

  lemma SetStatusKeeps(db: Db, t: Id, status: TenantStatus)
    requires Inv(db)
    ensures Inv(DoSetTenantStatus(db, t, status).db)
  {
    if t in db.tenants {
      var db1 := db.(tenants := db.tenants[t := db.tenants[t].(status := status)]);
      assert db1.tenants.Keys == db.tenants.Keys;
      assert Inv(db1);
      var s := db.subOf[t];
      PutSubKeeps(db1, s, DoSetTenantStatus(db, t, status).db.subs[s]);
    }
  }

  // ---- deleting a tenant -------------------------------------------------------------

  /** A surviving token keeps all its devices, since each has the token's tenant. */
  lemma CascadeKeepsSeats(db: Db, t: Id, k: Id)
    requires Inv(db) && k in Cascade(db, t).tokens
    ensures LiveDevicesOn(Cascade(db, t).devices, k) == LiveDevicesOn(db.devices, k)
  {
    forall h | h in LiveDevicesOn(db.devices, k) ensures h in Cascade(db, t).devices {
      assert BelongsTo(db.subs, db.tokens, k, db.devices[h].tenantId);
    }
  }

  /** The cascade takes exactly the rows of tenant `t`: no surviving device loses
      its token, and no other tenant loses a device, a token or a seat. */
  lemma DeleteIsClean(db: Db, t: Id)
    requires Inv(db) && t in db.tenants
    ensures var o := DoDeleteTenant(db, t);
            && o.reply == Ok(Done)
            && o.db.tenants.Keys == db.tenants.Keys - {t}
            && NoDanglingVia(o.db)
            && (forall h :: h in o.db.devices <==> h in db.devices && db.devices[h].tenantId != t)
            && (forall h :: h in o.db.devices ==> o.db.devices[h] == db.devices[h])
            && (forall k :: k in o.db.tokens <==> k in db.tokens && !BelongsTo(db.subs, db.tokens, k, t))
            && (forall k :: k in o.db.tokens ==> o.db.tokens[k] == db.tokens[k])
            && (forall u :: u != t ==> LiveDevicesOf(o.db.devices, u) == LiveDevicesOf(db.devices, u))
  {
    var db' := Cascade(db, t);
    forall h | h in db'.devices ensures db.devices[h].activatedVia.value in db'.tokens {
      assert BelongsTo(db.subs, db.tokens, db.devices[h].activatedVia.value, db.devices[h].tenantId);
    }
    forall u | u != t ensures LiveDevicesOf(db'.devices, u) == LiveDevicesOf(db.devices, u) {
    }
  }

  lemma CascadeKeeps(db: Db, t: Id)
    requires Inv(db) && t in db.tenants
    ensures Inv(Cascade(db, t))
  {
    DeleteIsClean(db, t);
    var db' := Cascade(db, t);
    assert SubsIndexed(db'.tenants, db'.subs, db'.subOf, db'.nextTenant, db'.nextSub);
    assert TokensIndexed(db'.subs, db'.tokens, db'.tokenByText, db'.nextToken);
    forall h | h in db'.devices
      ensures BelongsTo(db'.subs, db'.tokens, db'.devices[h].activatedVia.value, db'.devices[h].tenantId)
    {
      assert BelongsTo(db.subs, db.tokens, db.devices[h].activatedVia.value, db.devices[h].tenantId);
    }
    forall k | k in db'.tokens ensures LiveDevicesOn(db'.devices, k) == LiveDevicesOn(db.devices, k) {
      CascadeKeepsSeats(db, t, k);
    }
  }

  // ---- what a request does to the device rows ----------------------------------------

  predicate HasFreeSeat(db: Db, t: Id) {
    SubIdOf(db, t).Some? && SeatsInUse(db, t) < db.subs[SubIdOf(db, t).value].seatLimit
  }

  /** The one device row, or the one tenant's rows, that a request changes. */
  datatype Effect =
    | Unchanged
    | Admin        // tenants, subscriptions or tokens, but no device row
    | Touched(h: string)
    | Booked(h: string)
    | Freed(h: string)
    | Cascaded(t: Id)

  predicate AdminOp(op: Op) {
    || op.CreateTenant? || op.PatchSubscription? || op.GenerateBatchToken?
    || op.RevokeBatchToken? || op.RecordPayment? || op.SetTenantStatus?
  }

  predicate SeatRequest(op: Op) {
    op.CpActivate? || op.PublicActivate? || op.ConsumeSeat?
  }

  function EffectOf(db: Db, op: Op, now: Time): Effect {
    if AdminOp(op) then Admin
    else if Step(db, op, now).reply.Err? then Unchanged
    else if SeatRequest(op) then
      if op.body.hardwareUuid.None? then Unchanged
      else if IsLive(db, op.body.hardwareUuid.value) then Touched(op.body.hardwareUuid.value)
      else Booked(op.body.hardwareUuid.value)
    else match op
      case RevokeDevice(h) => if IsLive(db, h) then Freed(h) else Unchanged
      case ReleaseSeat(_, h) => if IsLive(db, h) then Freed(h) else Unchanged
      case ReinstateDevice(h) => if IsLive(db, h) then Unchanged else Booked(h)
      case Heartbeat(_, hwField, _) => if hwField.None? then Unchanged else Touched(hwField.value)
      case DeleteTenant(t) => Cascaded(t)
  }

  ghost predicate HasEffect(db: Db, db': Db, e: Effect) {
    match e
    case Unchanged => db' == db
    case Admin => db'.devices == db.devices
    case Touched(h) =>
      && IsLive(db, h) && h in db'.devices
      && SameSeat(db.devices[h], db'.devices[h]) && db' == PutDevice(db, h, db'.devices[h])
    case Booked(h) =>
      && !IsLive(db, h) && IsLive(db', h)
      && var d := db'.devices[h];
         && d.activatedVia.Some? && BelongsTo(db.subs, db.tokens, d.activatedVia.value, d.tenantId)
         && db.tokens[d.activatedVia.value].seatsConsumed < db.tokens[d.activatedVia.value].quota
         && HasFreeSeat(db, d.tenantId)
         && db' == Book(db, d.activatedVia.value, h, d)
    case Freed(h) => IsLive(db, h) && db' == Free(db, h)
    case Cascaded(t) => t in db.tenants && db' == Cascade(db, t)
  }

  lemma ActivateEffect(db: Db, t: Id, s: Id, k: Id, body: DeviceBody, secret: string, now: Time)
    requires Inv(db) && k in db.tokens && db.tokens[k].subscriptionId == s
    requires s in db.subs && db.subs[s].tenantId == t
    requires DoActivate(db, t, s, k, body, secret, now).reply.Ok?
    ensures var h := body.hardwareUuid.value;
            HasEffect(db, DoActivate(db, t, s, k, body, secret, now).db,
                      if IsLive(db, h) then Touched(h) else Booked(h))
  {
    assert SubIdOf(db, t) == Some(s);
    assert BelongsTo(db.subs, db.tokens, k, t);
  }

  lemma ConsumeEffect(db: Db, caller: Option<Id>, body: DeviceBody, now: Time)
    requires Inv(db) && DoConsumeSeat(db, caller, body, now).reply.Ok?
    ensures var h := body.hardwareUuid.value;
            HasEffect(db, DoConsumeSeat(db, caller, body, now).db, if IsLive(db, h) then Touched(h) else Booked(h))
  {
    assert BelongsTo(db.subs, db.tokens, TokenIdOf(db, body.token.value).value, caller.value);
  }

  lemma ReinstateEffect(db: Db, h: string, now: Time)
    requires Inv(db) && DoReinstate(db, h, now).reply.Ok? && !IsLive(db, h)
    ensures HasEffect(db, DoReinstate(db, h, now).db, Booked(h))
  {
    assert BelongsTo(db.subs, db.tokens, db.devices[h].activatedVia.value, db.devices[h].tenantId);
  }

  lemma HeartbeatEffect(db: Db, caller: Option<Id>, hwField: Option<string>, key: string, now: Time)
    requires Inv(db) && DoHeartbeat(db, caller, hwField, key, now).reply.Ok?
    ensures HasEffect(db, DoHeartbeat(db, caller, hwField, key, now).db, Touched(hwField.value))
  {
  }

  lemma CpActivateEffect(db: Db, op: Op, now: Time)
    requires Inv(db) && op.CpActivate? && Step(db, op, now).reply.Ok?
    ensures HasEffect(db, Step(db, op, now).db, EffectOf(db, op, now))
  {
    var t := op.caller.value;
    ActivateEffect(db, t, SubIdOf(db, t).value, TokenIdOf(db, op.body.token.value).value, op.body, op.secret, now);
  }

  lemma PublicActivateEffect(db: Db, op: Op, now: Time)
    requires Inv(db) && op.PublicActivate? && Step(db, op, now).reply.Ok?
    ensures HasEffect(db, Step(db, op, now).db, EffectOf(db, op, now))
  {
    var k := TokenIdOf(db, op.body.token.value).value;
    var s := db.tokens[k].subscriptionId;
    ActivateEffect(db, db.subs[s].tenantId, s, k, op.body, op.secret, now);
  }

  lemma ConsumeStepEffect(db: Db, op: Op, now: Time)
    requires Inv(db) && op.ConsumeSeat? && Step(db, op, now).reply.Ok?
    ensures HasEffect(db, Step(db, op, now).db, EffectOf(db, op, now))
  {
    ConsumeEffect(db, op.caller, op.body, now);
  }

  lemma ReleaseStepEffect(db: Db, op: Op, now: Time)
    requires (op.RevokeDevice? || op.ReleaseSeat?) && Step(db, op, now).reply.Ok?
    ensures HasEffect(db, Step(db, op, now).db, EffectOf(db, op, now))
  {
  }

  lemma ReinstateStepEffect(db: Db, op: Op, now: Time)
    requires Inv(db) && op.ReinstateDevice? && Step(db, op, now).reply.Ok?
    ensures HasEffect(db, Step(db, op, now).db, EffectOf(db, op, now))
  {
    if !IsLive(db, op.hw) {
      ReinstateEffect(db, op.hw, now);
    }
  }

  lemma HeartbeatStepEffect(db: Db, op: Op, now: Time)
    requires Inv(db) && op.Heartbeat? && Step(db, op, now).reply.Ok?
    ensures HasEffect(db, Step(db, op, now).db, EffectOf(db, op, now))
  {
    HeartbeatEffect(db, op.caller, op.hwField, op.key, now);
  }

  lemma AdminEffect(db: Db, op: Op, now: Time)
    requires AdminOp(op)
    ensures Step(db, op, now).db.devices == db.devices
  {
  }

  lemma RefusedUnchanged(db: Db, op: Op, now: Time)
    requires Step(db, op, now).reply.Err?
    ensures Step(db, op, now).db == db
  {
  }

  lemma StepEffect(db: Db, op: Op, now: Time)
    requires Inv(db)
    ensures HasEffect(db, Step(db, op, now).db, EffectOf(db, op, now))
  {
    if AdminOp(op) {
      AdminEffect(db, op, now);
    } else if Step(db, op, now).reply.Err? {
      RefusedUnchanged(db, op, now);
    } else {
      if op.CpActivate? {
        CpActivateEffect(db, op, now);
      } else if op.PublicActivate? {
        PublicActivateEffect(db, op, now);
      } else if op.ConsumeSeat? {
        ConsumeStepEffect(db, op, now);
      } else if op.ReinstateDevice? {
        ReinstateStepEffect(db, op, now);
      } else if op.Heartbeat? {
        HeartbeatStepEffect(db, op, now);
      } else if op.RevokeDevice? || op.ReleaseSeat? {
        ReleaseStepEffect(db, op, now);
      }
    }
  }

  /** The seats of a tenant after a row effect. */
  lemma EffectSeats(db: Db, db': Db, e: Effect)
    requires Inv(db) && HasEffect(db, db', e)
    ensures forall t: Id :: SeatsInUse(db', t) ==
              match e
              case Unchanged => SeatsInUse(db, t)
              case Admin => SeatsInUse(db, t)
              case Touched(_) => SeatsInUse(db, t)
              case Booked(h) => SeatsInUse(db, t) + (if t == db'.devices[h].tenantId then 1 else 0)
              case Freed(h) => SeatsInUse(db, t) - (if t == db.devices[h].tenantId then 1 else 0)
              case Cascaded(u) => if t == u then 0 else SeatsInUse(db, t)
  {
    match e
    case Unchanged =>
    case Admin =>
    case Touched(h) => TouchKeeps(db, h, db'.devices[h]);
    case Booked(h) => BookSeats(db, db'.devices[h].activatedVia.value, h, db'.devices[h]);
    case Freed(h) => FreeSeats(db, h);
    case Cascaded(u) =>
      DeleteIsClean(db, u);
      assert LiveDevicesOf(db'.devices, u) == {};
  }

  // ---- every request, every run -------------------------------------------------------------

  lemma StepKeeps(db: Db, op: Op, now: Time)
    requires Inv(db)
    ensures Inv(Step(db, op, now).db)
  {
    if AdminOp(op) {
      AdminKeeps(db, op, now);
    } else {
      StepEffect(db, op, now);
      EffectKeeps(db, Step(db, op, now).db, EffectOf(db, op, now));
    }
  }

  lemma EffectKeeps(db: Db, db': Db, e: Effect)
    requires Inv(db) && HasEffect(db, db', e) && !e.Admin?
    ensures Inv(db')
  {
    match e
    case Unchanged =>
    case Touched(h) => TouchKeeps(db, h, db'.devices[h]);
    case Booked(h) => BookKeeps(db, db'.devices[h].activatedVia.value, h, db'.devices[h]);
    case Freed(h) => FreeKeeps(db, h);
    case Cascaded(t) => CascadeKeeps(db, t);
  }

  lemma SubscriptionOpKeeps(db: Db, op: Op, now: Time)
    requires Inv(db) && (op.PatchSubscription? || op.RecordPayment?)
    ensures Inv(Step(db, op, now).db)
  {
    var o := Step(db, op, now);
    if o.reply.Ok? {
      var s := SubIdOf(db, op.tenantId).value;
      PutSubKeeps(db, s, o.db.subs[s]);
    }
  }

  lemma AdminKeeps(db: Db, op: Op, now: Time)
    requires Inv(db) && AdminOp(op)
    ensures Inv(Step(db, op, now).db)
  {
    match op
    case CreateTenant(seats, window, grace) => CreateTenantKeeps(db, seats, window, grace, now);
    case PatchSubscription(_, _, _, _, _, _) => SubscriptionOpKeeps(db, op, now);
    case RecordPayment(_, _) => SubscriptionOpKeeps(db, op, now);
    case GenerateBatchToken(t, quota, expiresAt, text) => GenerateKeeps(db, t, quota, expiresAt, text);
    case RevokeBatchToken(k) => RevokeTokenKeeps(db, k);
    case SetTenantStatus(t, status) => SetStatusKeeps(db, t, status);
  }

  lemma {:induction false} RunKeeps(db: Db, events: seq<Event>)
    requires Inv(db)
    ensures Inv(Run(db, events))
    decreases |events|
  {
    if events != [] {
      StepKeeps(db, events[0].op, events[0].now);
      RunKeeps(Step(db, events[0].op, events[0].now).db, events[1..]);
    }
  }

  /** From the empty tables, whatever is requested and refused, every token's
      counter is exactly its live devices and never above its quota. */
  lemma SeatsConservedOverRuns(settings: Settings, events: seq<Event>)
    ensures var db := Run(Empty(settings), events);
            forall k :: k in db.tokens ==>
              && db.tokens[k].seatsConsumed == |LiveDevicesOn(db.devices, k)|
              && db.tokens[k].seatsConsumed <= db.tokens[k].quota
  {
    RunKeeps(Empty(settings), events);
  }
}
