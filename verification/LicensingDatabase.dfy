/** The database behind the service, changed statement by statement.

    Each request runs as one transaction: `Execute` remembers the tables, runs
    the request's statements, and puts the remembered tables back when the
    request is refused. The statements of a refused request may already have
    run: an activation spends its seat before it reads the device name. */
module LicensingDatabase {
  import opened Wrappers
  import opened Clock
  import opened Ledger
  import opened LedgerInvariant

  class Database {
    var tenants: map<Id, Tenant>
    var subs: map<Id, Subscription>
    var subOf: map<Id, Id>
    var tokens: map<Id, BatchToken>
    var tokenByText: map<string, Id>
    var devices: map<string, Device>
    var nextTenant: Id
    var nextSub: Id
    var nextToken: Id
    const settings: Settings

    function Contents(): Db
      reads this
    {
      Db(tenants, subs, subOf, tokens, tokenByText, devices, nextTenant, nextSub, nextToken, settings)
    }

    constructor (defaults: Settings)
      ensures Contents() == Empty(defaults)
    {
      settings := defaults;
      tenants, subs, subOf, tokens, tokenByText, devices := map[], map[], map[], map[], map[], map[];
      nextTenant, nextSub, nextToken := 1, 1, 1;
    }

    /** ROLLBACK to the tables of `saved`. */
    method Restore(saved: Db)
      requires saved.settings == settings
      modifies this
      ensures Contents() == saved
    {
      tenants, subs, subOf, tokens := saved.tenants, saved.subs, saved.subOf, saved.tokens;
      tokenByText, devices := saved.tokenByText, saved.devices;
      nextTenant, nextSub, nextToken := saved.nextTenant, saved.nextSub, saved.nextToken;
    }

    /** One request in one transaction: all of it or none of it. */
    method Execute(op: Op, now: Time) returns (reply: Result<Reply, Error>)
      modifies this
      ensures reply == Step(old(Contents()), op, now).reply
      ensures Contents() == Step(old(Contents()), op, now).db
      ensures reply.Err? ==> Contents() == old(Contents())
      ensures Inv(old(Contents())) ==> Inv(Contents())
    {
      var saved := Contents();
      reply := Perform(op, now);
      if reply.Err? {
        Restore(saved);
        RefusedUnchanged(saved, op, now);
      }
      if Inv(saved) {
        StepKeeps(saved, op, now);
      }
    }

    /** The same with the audit entry as it is written: after the statements of an
        accepted patch the entry raises, and the patch is rolled back. */
    method ExecuteAsWritten(op: Op, now: Time) returns (reply: Result<Reply, Error>)
      modifies this
      ensures reply == StepAsWritten(old(Contents()), op, now).reply
      ensures Contents() == StepAsWritten(old(Contents()), op, now).db
      ensures reply.Err? ==> Contents() == old(Contents())
      ensures Inv(old(Contents())) ==> Inv(Contents())
    {
      var saved := Contents();
      reply := Perform(op, now);
      if reply.Err? {
        RefusedUnchanged(saved, op, now);
      } else if op.PatchSubscription? {
        reply := Err(AuditRejected);
      }
      if reply.Err? {
        Restore(saved);
      }
      if Inv(saved) {
        StepKeeps(saved, op, now);
      }
    }

    /** The statements of a request, before commit or rollback. */
    method Perform(op: Op, now: Time) returns (reply: Result<Reply, Error>)
      modifies this
      ensures reply == Step(old(Contents()), op, now).reply
      ensures reply.Ok? ==> Contents() == Step(old(Contents()), op, now).db
    {
      match op {
        case CreateTenant(seats, window, grace) => reply := CreateTenant(seats, window, grace, now);
        case PatchSubscription(_, _, _, _, _, _) => reply := PatchSubscription(op);
        case GenerateBatchToken(t, quota, expiresAt, text) => reply := GenerateBatchToken(t, quota, expiresAt, text);
        case RevokeBatchToken(k) => reply := RevokeBatchToken(k);
        case RecordPayment(t, amount) => reply := RecordPayment(t, amount, now);
        case SetTenantStatus(t, status) => reply := SetTenantStatus(t, status);
        case DeleteTenant(t) => reply := DeleteTenant(t);
        case CpActivate(caller, body, secret) => reply := CpActivate(caller, body, secret, now);
        case PublicActivate(body, secret) => reply := PublicActivate(body, secret, now);
        case ConsumeSeat(caller, body) => reply := CpConsumeSeat(caller, body, now);
        case RevokeDevice(h) => reply := RevokeDevice(h);
        case ReleaseSeat(_, h) =>
          var released := ReleaseSeat(h);
          reply := Ok(Done);
        case ReinstateDevice(h) => reply := ReinstateDevice(h, now);
        case Heartbeat(caller, hwField, key) => reply := Heartbeat(caller, hwField, key, now);
      }
    }

    // ---- seats -------------------------------------------------------------------

    /** `_consume_seat`: one conditional UPDATE, which matches no row when the quota is spent. */
    method ConsumeSeat(k: Id) returns (ok: bool)
      modifies this`tokens
      ensures ok == (k in old(tokens) && old(tokens)[k].seatsConsumed < old(tokens)[k].quota)
      ensures ok ==> Contents() == PutSeats(old(Contents()), k, old(tokens)[k].seatsConsumed + 1)
      ensures !ok ==> Contents() == old(Contents())
    {
      ok := k in tokens && tokens[k].seatsConsumed < tokens[k].quota;
      if ok {
        tokens := tokens[k := tokens[k].(seatsConsumed := tokens[k].seatsConsumed + 1)];
      }
    }

    /** `_release_seat`: revoke the row if it is live, then give its seat back. */
    method ReleaseSeat(h: string) returns (released: bool)
      modifies this`devices, this`tokens
      ensures released == IsLive(old(Contents()), h)
      ensures released ==> Contents() == Free(old(Contents()), h)
      ensures !released ==> Contents() == old(Contents())
    {
      released := h in devices && !devices[h].isRevoked;
      if released {
        devices := devices[h := devices[h].(isRevoked := true)];
        var via := devices[h].activatedVia;
        if via.Some? {
          if via.value in tokens && tokens[via.value].seatsConsumed > 0 {
            tokens := tokens[via.value := tokens[via.value].(seatsConsumed := tokens[via.value].seatsConsumed - 1)];
          }
        }
      }
    }

    /** `_ensure_tenant_seat`: count the tenant's live rows against its limit. */
    method HasTenantSeat(t: Id, limit: int) returns (ok: bool)
      ensures ok == (SeatsInUse(Contents(), t) < limit)
    {
      var live := set h | h in devices && devices[h].tenantId == t && !devices[h].isRevoked;
      ok := |live| < limit;
    }

    // ---- activation ----------------------------------------------------------------

    method DoActivate(t: Id, s: Id, k: Id, body: DeviceBody, secret: string, now: Time)
      returns (reply: Result<Reply, Error>)
      requires s in subs && k in tokens
      modifies this
      ensures reply == Ledger.DoActivate(old(Contents()), t, s, k, body, secret, now).reply
      ensures reply.Ok? ==> Contents() == Ledger.DoActivate(old(Contents()), t, s, k, body, secret, now).db
    {
      if body.hardwareUuid.None? { return Err(MissingField); }
      var h := body.hardwareUuid.value;
      var exists' := h in devices;
      if exists' && !devices[h].isRevoked {
        if devices[h].tenantId != t { return Err(BoundToOtherTenant); }
        devices := devices[h := devices[h].(licenseKey := LicKey(secret),
                                            validUntil := now + subs[s].windowDays * DAY,
                                            lastSeenAt := Some(now))];
        return Ok(Activated(devices[h].licenseKey, true));
      }
      var seat := HasTenantSeat(t, subs[s].seatLimit);
      if !seat { return Err(SeatLimitReached); }
      var spent := ConsumeSeat(k);
      if !spent { return Err(SeatLimitReached); }
      if body.deviceName.None? { return Err(MissingField); }
      if |body.deviceName.value| > MAX_DEVICE_NAME || |h| > MAX_HARDWARE_UUID { return Err(ConstraintViolation); }
      var row := Device(t, body.deviceName.value, LicKey(secret), now, now + subs[s].windowDays * DAY,
                        false, if exists' then Some(now) else None, Some(k));
      devices := devices[h := row];
      return Ok(Activated(row.licenseKey, false));
    }

    method CpActivate(caller: Option<Id>, body: DeviceBody, secret: string, now: Time)
      returns (reply: Result<Reply, Error>)
      modifies this
      ensures reply == DoCpActivate(old(Contents()), caller, body, secret, now).reply
      ensures reply.Ok? ==> Contents() == DoCpActivate(old(Contents()), caller, body, secret, now).db
    {
      if caller.None? { return Err(Forbidden); }
      if caller.value !in tenants { return Err(NotFound); }
      var s := SubIdOf(Contents(), caller.value);
      if s.None? { return Err(NotFound); }
      if body.token.None? { return Err(MissingField); }
      var k := TokenIdOf(Contents(), body.token.value);
      if k.None? || !TokenOk(tokens[k.value], s.value, now) { return Err(TokenInvalid); }
      reply := DoActivate(caller.value, s.value, k.value, body, secret, now);
    }

    method PublicActivate(body: DeviceBody, secret: string, now: Time) returns (reply: Result<Reply, Error>)
      modifies this
      ensures reply == DoPublicActivate(old(Contents()), body, secret, now).reply
      ensures reply.Ok? ==> Contents() == DoPublicActivate(old(Contents()), body, secret, now).db
    {
      if body.token.None? { return Err(MissingField); }
      var k := TokenIdOf(Contents(), body.token.value);
      if k.None? || tokens[k.value].isRevoked || !Unexpired(tokens[k.value], now) { return Err(TokenInvalid); }
      var s := tokens[k.value].subscriptionId;
      if s !in subs { return Err(TokenInvalid); }
      var t := subs[s].tenantId;
      if t !in tenants { return Err(NotFound); }
      if tenants[t].status != TenantActive { return Err(Forbidden); }
      reply := DoActivate(t, s, k.value, body, secret, now);
    }

    method CpConsumeSeat(caller: Option<Id>, body: DeviceBody, now: Time) returns (reply: Result<Reply, Error>)
      modifies this
      ensures reply == DoConsumeSeat(old(Contents()), caller, body, now).reply
      ensures reply.Ok? ==> Contents() == DoConsumeSeat(old(Contents()), caller, body, now).db
    {
      if caller.None? { return Err(Forbidden); }
      if caller.value !in tenants { return Err(NotFound); }
      var s := SubIdOf(Contents(), caller.value);
      if s.None? { return Err(NotFound); }
      if body.token.None? { return Err(MissingField); }
      var k := TokenIdOf(Contents(), body.token.value);
      if k.None? || !TokenOk(tokens[k.value], s.value, now) { return Err(TokenInvalid); }
      if body.hardwareUuid.None? { return Err(MissingField); }
      var h := body.hardwareUuid.value;
      if h in devices && !devices[h].isRevoked {
        devices := devices[h := devices[h].(lastSeenAt := Some(now))];
        return Ok(SeatBooked(false));
      }
      var seat := HasTenantSeat(caller.value, subs[s.value].seatLimit);
      if !seat { return Err(SeatLimitReached); }
      var spent := ConsumeSeat(k.value);
      if !spent { return Err(SeatLimitReached); }
      if |h| > MAX_HARDWARE_UUID { return Err(ConstraintViolation); }
      devices := devices[h := Device(caller.value, SeatName(body.deviceName, h), ExtKey(h), now,
                                     now + subs[s.value].windowDays * DAY, false, Some(now), Some(k.value))];
      return Ok(SeatBooked(true));
    }

    // ---- revocation ------------------------------------------------------------------

    method RevokeDevice(h: string) returns (reply: Result<Reply, Error>)
      modifies this
      ensures reply == DoRevokeDevice(old(Contents()), h).reply
      ensures reply.Ok? ==> Contents() == DoRevokeDevice(old(Contents()), h).db
    {
      var released := ReleaseSeat(h);
      if !released && h !in devices { return Err(NotFound); }
      return Ok(Done);
    }

    method ReinstateDevice(h: string, now: Time) returns (reply: Result<Reply, Error>)
      modifies this
      ensures reply == DoReinstate(old(Contents()), h, now).reply
      ensures reply.Ok? ==> Contents() == DoReinstate(old(Contents()), h, now).db
    {
      if h !in devices { return Err(NotFound); }
      var row := devices[h];
      if !row.isRevoked { return Ok(Done); }
      var s := SubIdOf(Contents(), row.tenantId);
      if s.None? { return Err(NotFound); }
      var sub := subs[s.value];
      var seat := HasTenantSeat(row.tenantId, sub.seatLimit);
      if !seat { return Err(SeatLimitReached); }
      if row.activatedVia.Some? && row.activatedVia.value in tokens {
        var spent := ConsumeSeat(row.activatedVia.value);
        if !spent { return Err(SeatLimitReached); }
      }
      if row.tenantId !in tenants { return Err(NotFound); }
      var updated := row.(isRevoked := false);
      if sub.isPaid && tenants[row.tenantId].status == TenantActive {
        var renewed := now + sub.windowDays * DAY;
        if row.validUntil < renewed {
          updated := updated.(validUntil := renewed);
        }
      }
      devices := devices[h := updated];
      return Ok(Done);
    }

    method Heartbeat(caller: Option<Id>, hwField: Option<string>, key: string, now: Time)
      returns (reply: Result<Reply, Error>)
      modifies this
      ensures reply == DoHeartbeat(old(Contents()), caller, hwField, key, now).reply
      ensures reply.Ok? ==> Contents() == DoHeartbeat(old(Contents()), caller, hwField, key, now).db
    {
      if caller.None? { return Err(Forbidden); }
      if caller.value !in tenants { return Err(NotFound); }
      var s := SubIdOf(Contents(), caller.value);
      if s.None? { return Err(NotFound); }
      if hwField.None? { return Err(MissingField); }
      var h := hwField.value;
      if h !in devices { return Err(NotFound); }
      if devices[h].isRevoked { return Err(Forbidden); }
      if devices[h].licenseKey != key { return Err(Forbidden); }
      var paid := subs[s.value].isPaid && tenants[caller.value].status == TenantActive;
      if paid {
        devices := devices[h := devices[h].(validUntil := now + subs[s.value].windowDays * DAY,
                                            lastSeenAt := Some(now))];
      } else {
        devices := devices[h := devices[h].(lastSeenAt := Some(now))];
      }
      return Ok(StatusOf(Contents(), h, now));
    }

    // ---- administration ------------------------------------------------------------------

    method CreateTenant(seatLimit: Option<int>, windowDays: Option<int>, graceDays: Option<int>, now: Time)
      returns (reply: Result<Reply, Error>)
      modifies this
      ensures reply == DoCreateTenant(old(Contents()), seatLimit, windowDays, graceDays, now).reply
      ensures reply.Ok? ==> Contents() == DoCreateTenant(old(Contents()), seatLimit, windowDays, graceDays, now).db
    {
      var t, s := nextTenant, nextSub;
      tenants, nextTenant := tenants[t := Tenant(TenantActive)], t + 1;
      var window := OrDefault(windowDays, settings.windowDays);
      var sub := Subscription(t, OrDefault(seatLimit, settings.seatLimit), window,
                              OrDefault(graceDays, settings.graceDays), now + window * DAY, SubActive, true);
      if !SubscriptionChecks(sub) { return Err(ConstraintViolation); }
      subs, subOf, nextSub := subs[s := sub], subOf[t := s], s + 1;
      return Ok(Created(t));
    }

    /** The columns that the patch names. */
    method PatchedRow(row: Subscription, op: Op) returns (sub: Subscription)
      requires op.PatchSubscription?
      ensures sub == row.(seatLimit := Patched(row.seatLimit, op.newSeatLimit),
                          windowDays := Patched(row.windowDays, op.newWindowDays),
                          graceDays := Patched(row.graceDays, op.newGraceDays),
                          isPaid := Patched(row.isPaid, op.newIsPaid),
                          status := Patched(row.status, op.newStatus))
    {
      sub := row;
      if op.newSeatLimit.Some? { sub := sub.(seatLimit := op.newSeatLimit.value); }
      if op.newWindowDays.Some? { sub := sub.(windowDays := op.newWindowDays.value); }
      if op.newGraceDays.Some? { sub := sub.(graceDays := op.newGraceDays.value); }
      if op.newIsPaid.Some? { sub := sub.(isPaid := op.newIsPaid.value); }
      if op.newStatus.Some? { sub := sub.(status := op.newStatus.value); }
    }

    method PatchSubscription(op: Op) returns (reply: Result<Reply, Error>)
      requires op.PatchSubscription?
      modifies this
      ensures reply == DoPatchSubscription(old(Contents()), op).reply
      ensures reply.Ok? ==> Contents() == DoPatchSubscription(old(Contents()), op).db
    {
      var s := SubIdOf(Contents(), op.tenantId);
      if s.None? { return Err(NotFound); }
      var sub := PatchedRow(subs[s.value], op);
      if !SubscriptionChecks(sub) { return Err(ConstraintViolation); }
      subs := subs[s.value := sub];
      if op.tenantId !in tenants { return Err(NotFound); }
      return Ok(Done);
    }

    method GenerateBatchToken(t: Id, quota: Option<int>, expiresAt: Option<Time>, text: string)
      returns (reply: Result<Reply, Error>)
      modifies this
      ensures reply == DoGenerateBatchToken(old(Contents()), t, quota, expiresAt, text).reply
      ensures reply.Ok? ==> Contents() == DoGenerateBatchToken(old(Contents()), t, quota, expiresAt, text).db
    {
      if t !in tenants { return Err(NotFound); }
      var s := SubIdOf(Contents(), t);
      if s.None? { return Err(NotFound); }
      var q := OrDefault(quota, 0);
      if q <= 0 { return Err(ValidationFailed); }
      if text in tokenByText { return Err(ConstraintViolation); }
      var k := nextToken;
      tokens := tokens[k := BatchToken(s.value, text, q, 0, expiresAt, false)];
      tokenByText, nextToken := tokenByText[text := k], k + 1;
      return Ok(Created(k));
    }

    method RevokeBatchToken(k: Id) returns (reply: Result<Reply, Error>)
      modifies this
      ensures reply == DoRevokeBatchToken(old(Contents()), k).reply
      ensures reply.Ok? ==> Contents() == DoRevokeBatchToken(old(Contents()), k).db
    {
      if k !in tokens { return Err(NotFound); }
      tokens := tokens[k := tokens[k].(isRevoked := true)];
      return Ok(Done);
    }

    method RecordPayment(t: Id, amount: int, now: Time) returns (reply: Result<Reply, Error>)
      modifies this
      ensures reply == DoRecordPayment(old(Contents()), t, amount, now).reply
      ensures reply.Ok? ==> Contents() == DoRecordPayment(old(Contents()), t, amount, now).db
    {
      var s := SubIdOf(Contents(), t);
      if s.None? { return Err(NotFound); }
      if amount < 0 { return Err(ValidationFailed); }
      var sub := subs[s.value];
      var base := if now >= sub.validUntil then now else sub.validUntil;
      subs := subs[s.value := sub.(validUntil := base + sub.windowDays * DAY, isPaid := true, status := SubActive)];
      if t !in tenants { return Err(NotFound); }
      return Ok(Done);
    }

    method SetTenantStatus(t: Id, status: TenantStatus) returns (reply: Result<Reply, Error>)
      modifies this
      ensures reply == DoSetTenantStatus(old(Contents()), t, status).reply
      ensures reply.Ok? ==> Contents() == DoSetTenantStatus(old(Contents()), t, status).db
    {
      if t in tenants {
        tenants := tenants[t := tenants[t].(status := status)];
      }
      var s := SubIdOf(Contents(), t);
      if s.Some? {
        if status.TenantSuspended? {
          subs := subs[s.value := subs[s.value].(status := SubSuspended, isPaid := false)];
        } else if status.TenantActive? {
          subs := subs[s.value := subs[s.value].(status := SubActive)];
        }
      }
      if t !in tenants || s.None? { return Err(NotFound); }
      return Ok(Done);
    }

    method DeleteTenant(t: Id) returns (reply: Result<Reply, Error>)
      modifies this
      ensures reply == DoDeleteTenant(old(Contents()), t).reply
      ensures reply.Ok? ==> Contents() == DoDeleteTenant(old(Contents()), t).db
    {
      if t !in tenants { return Err(NotFound); }
      var before := Contents();
      tenants := map u | u in tenants && u != t :: tenants[u];
      devices := map h | h in devices && devices[h].tenantId != t :: devices[h];
      assert devices == Cascade(before, t).devices && tenants == Cascade(before, t).tenants;
      tokenByText := map x | x in tokenByText && !BelongsTo(subs, tokens, tokenByText[x], t) :: tokenByText[x];
      tokens := map k | k in tokens && !BelongsTo(subs, tokens, k, t) :: tokens[k];
      subs := map s | s in subs && subs[s].tenantId != t :: subs[s];
      subOf := map u | u in subOf && u != t :: subOf[u];
      assert Contents() == Cascade(before, t);
      if !NoDanglingVia(Contents()) { return Err(ConstraintViolation); }
      return Ok(Done);
    }
  }
}
