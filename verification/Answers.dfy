/** What every request answers, and which rows an accepted one leaves, in terms of
    the accounts, grants and live devices that it meets. */
module Answers {
  import opened Wrappers
  import opened Clock
  import opened Verdict
  import opened Ledger
  import opened LedgerInvariant
  import opened Accounts

  /** Unrevoked and not expired. Payment plays no part. */
  predicate Good(g: Grant, now: Time) {
    !g.revoked && (g.expiresAt.None? || now < g.expiresAt.value)
  }

  /** The grant's token has the text. */
  predicate Knows(db: Db, k: Id, g: Grant) {
    ShowsGrant(db.subs, db.tokens, k, Some(g))
  }

  ghost predicate NoSuchToken(db: Db, text: string) {
    forall k :: k in db.tokens ==> db.tokens[k].text != text
  }

  lemma TokenFound(db: Db, k: Id, g: Grant)
    requires Inv(db) && Knows(db, k, g)
    ensures TokenIdOf(db, g.text) == Some(k) && db.tokens[k].subscriptionId in db.subs
    ensures db.subs[db.tokens[k].subscriptionId].tenantId == g.tenant
    ensures SubIdOf(db, g.tenant) == Some(db.tokens[k].subscriptionId) && g.tenant in db.tenants
  {
  }

  lemma TokenMissing(db: Db, text: string)
    requires Inv(db) && NoSuchToken(db, text)
    ensures TokenIdOf(db, text).None?
  {
  }

  // ---- seats ------------------------------------------------------------------------------

  predicate HasSeat(devices: map<string, Device>, h: string) {
    h in devices && !devices[h].isRevoked
  }

  /** The tenant has fewer live devices than its limit, and the token fewer than its quota. */
  predicate RoomFor(devices: map<string, Device>, k: Id, g: Grant, x: Terms) {
    |LiveDevicesOf(devices, g.tenant)| < x.seatLimit && |LiveDevicesOn(devices, k)| < g.quota
  }

  /** What an activation answers whose token is accepted. */
  function ActivationAnswer(devices: map<string, Device>, k: Id, g: Grant, x: Terms, body: DeviceBody, secret: string)
    : Result<Reply, Error>
  {
    match body.hardwareUuid
    case None => Err(MissingField)
    case Some(h) =>
      if HasSeat(devices, h) then
        if devices[h].tenantId == g.tenant then Ok(Activated("LIC-" + secret, true)) else Err(BoundToOtherTenant)
      else if !RoomFor(devices, k, g, x) then Err(SeatLimitReached)
      else match body.deviceName
        case None => Err(MissingField)
        case Some(name) =>
          if |name| > 100 || |h| > 150 then Err(ConstraintViolation) else Ok(Activated("LIC-" + secret, false))
  }

  lemma ActivateAnswers(db: Db, k: Id, g: Grant, x: Terms, body: DeviceBody, secret: string, now: Time)
    requires Inv(db) && Knows(db, k, g) && DbShows(db, g.tenant, Some(x))
    ensures k in db.tokens && db.tokens[k].subscriptionId in db.subs
    ensures DoActivate(db, g.tenant, db.tokens[k].subscriptionId, k, body, secret, now).reply
         == ActivationAnswer(db.devices, k, g, x, body, secret)
  {
    TokenFound(db, k, g);
  }

  /** The public activation with the token of a grant: a bad token first, then a
      tenant that is not active, then whatever the devices say. */
  lemma PublicAnswer(db: Db, k: Id, g: Grant, x: Terms, body: DeviceBody, secret: string, now: Time)
    requires Inv(db) && Knows(db, k, g) && DbShows(db, g.tenant, Some(x)) && body.token == Some(g.text)
    ensures Step(db, PublicActivate(body, secret), now).reply
         == if !Good(g, now) then Err(TokenInvalid)
            else if x.status != TenantActive then Err(Forbidden)
            else ActivationAnswer(db.devices, k, g, x, body, secret)
  {
    TokenFound(db, k, g);
    ActivateAnswers(db, k, g, x, body, secret, now);
  }

  lemma PublicWithoutToken(db: Db, body: DeviceBody, secret: string, now: Time)
    requires Inv(db)
    ensures body.token.None? ==> Step(db, PublicActivate(body, secret), now).reply == Err(MissingField)
    ensures body.token.Some? && NoSuchToken(db, body.token.value) ==>
              Step(db, PublicActivate(body, secret), now).reply == Err(TokenInvalid)
  {
    if body.token.Some? && NoSuchToken(db, body.token.value) {
      TokenMissing(db, body.token.value);
    }
  }

  /** The same by a product backend, which asks neither for status nor for payment. */
  lemma CpAnswer(db: Db, t: Id, k: Id, g: Grant, x: Terms, body: DeviceBody, secret: string, now: Time)
    requires Inv(db) && t in db.tenants && Knows(db, k, g) && DbShows(db, g.tenant, Some(x))
    requires body.token == Some(g.text)
    ensures Step(db, CpActivate(Some(t), body, secret), now).reply
         == if !Good(g, now) || g.tenant != t then Err(TokenInvalid)
            else ActivationAnswer(db.devices, k, g, x, body, secret)
  {
    TokenFound(db, k, g);
    ActivateAnswers(db, k, g, x, body, secret, now);
  }

  /** A booking: hardware that holds a seat is left alone, whoever's it is. */
  lemma ConsumeAnswer(db: Db, t: Id, k: Id, g: Grant, x: Terms, body: DeviceBody, now: Time)
    requires Inv(db) && t in db.tenants && Knows(db, k, g) && DbShows(db, g.tenant, Some(x))
    requires body.token == Some(g.text)
    ensures Step(db, ConsumeSeat(Some(t), body), now).reply
         == if !Good(g, now) || g.tenant != t then Err(TokenInvalid)
            else if body.hardwareUuid.None? then Err(MissingField)
            else if HasSeat(db.devices, body.hardwareUuid.value) then Ok(SeatBooked(false))
            else if !RoomFor(db.devices, k, g, x) then Err(SeatLimitReached)
            else if |body.hardwareUuid.value| > 150 then Err(ConstraintViolation)
            else Ok(SeatBooked(true))
  {
    TokenFound(db, k, g);
  }

  /** A product backend without a tenant, or of an unknown one, and the fields it may omit. */
  lemma CallerAnswers(db: Db, caller: Option<Id>, body: DeviceBody, secret: string, now: Time)
    requires Inv(db)
    ensures var cp, seat := Step(db, CpActivate(caller, body, secret), now), Step(db, ConsumeSeat(caller, body), now);
            && (caller.None? ==> cp.reply == Err(Forbidden) && seat.reply == Err(Forbidden))
            && (caller.Some? && caller.value !in db.tenants ==>
                  cp.reply == Err(NotFound) && seat.reply == Err(NotFound))
            && (caller.Some? && caller.value in db.tenants && body.token.None? ==>
                  cp.reply == Err(MissingField) && seat.reply == Err(MissingField))
            && (caller.Some? && caller.value in db.tenants && body.token.Some? && NoSuchToken(db, body.token.value) ==>
                  cp.reply == Err(TokenInvalid) && seat.reply == Err(TokenInvalid))
  {
    if body.token.Some? && NoSuchToken(db, body.token.value) {
      TokenMissing(db, body.token.value);
    }
  }

  /** The check of a token: it must be good and have a seat left, and belong to the
      calling tenant if one is named. The tenant's own limit is not looked at. */
  lemma VerifyTokenAnswer(db: Db, caller: Option<Id>, k: Id, g: Grant, now: Time)
    requires Inv(db) && Knows(db, k, g)
    ensures VerifyToken(db, caller, g.text, now)
         == if !Good(g, now) || |LiveDevicesOn(db.devices, k)| >= g.quota then Ok(false)
            else if caller.None? then Ok(true)
            else if caller.value !in db.tenants then Err(NotFound)
            else Ok(g.tenant == caller.value)
  {
    TokenFound(db, k, g);
  }

  lemma VerifyUnknownToken(db: Db, caller: Option<Id>, text: string, now: Time)
    requires Inv(db) && NoSuchToken(db, text)
    ensures VerifyToken(db, caller, text, now) == Ok(false)
  {
    TokenMissing(db, text);
  }

  /** A live row and its seat go together; a row that is gone or revoked answers alike. */
  lemma ReleaseAnswers(db: Db, h: string, caller: Option<Id>, now: Time)
    ensures Step(db, ReleaseSeat(caller, h), now).reply == Ok(Done)
    ensures Step(db, RevokeDevice(h), now).reply == if h in db.devices then Ok(Done) else Err(NotFound)
    ensures Step(db, ReleaseSeat(caller, h), now).db == Step(db, RevokeDevice(h), now).db
  {
  }

  // ---- reinstating ------------------------------------------------------------------------

  /** A revoked device comes back if its tenant and its token have a seat, even if the
      token is revoked or expired. A paid-up tenant gets one window at least. */
  lemma ReinstateAnswer(db: Db, h: string, k: Id, g: Grant, x: Terms, now: Time)
    requires Inv(db) && h in db.devices && db.devices[h].isRevoked && db.devices[h].activatedVia == Some(k)
    requires Knows(db, k, g) && DbShows(db, g.tenant, Some(x))
    ensures db.devices[h].tenantId == g.tenant
    ensures var o := Step(db, ReinstateDevice(h), now);
            var d := db.devices[h];
            if RoomFor(db.devices, k, g, x) then
              && o.reply == Ok(Done) && h in o.db.devices
              && var until := o.db.devices[h].validUntil;
                 && o.db.devices == db.devices[h := d.(isRevoked := false, validUntil := until)]
                 && until >= d.validUntil
                 && (if x.status == TenantActive && x.paid then
                       && until >= now + x.windowDays * DAY
                       && (until == d.validUntil || until == now + x.windowDays * DAY)
                     else until == d.validUntil)
            else o.reply == Err(SeatLimitReached)
  {
    TokenFound(db, k, g);
  }

  lemma ReinstateOthers(db: Db, h: string, now: Time)
    ensures h !in db.devices ==> Step(db, ReinstateDevice(h), now).reply == Err(NotFound)
    ensures HasSeat(db.devices, h) ==> Step(db, ReinstateDevice(h), now) == Outcome(db, Ok(Done))
  {
  }

  // ---- heartbeats and checks ------------------------------------------------------------------

  /** The days left, of 86 400 seconds each, rounded down. */
  predicate DaysLeft(days: int, until: Time, now: Time) {
    days * 86_400 * SECOND <= until - now < (days + 1) * 86_400 * SECOND
  }

  /** The state of a row with the given days of grace. */
  function Interval(d: Device, grace: int, now: Time): DeviceState {
    if d.isRevoked then REVOKED
    else if now <= d.validUntil then ACTIVE
    else if now <= d.validUntil + grace * DAY then GRACE
    else EXPIRED
  }

  lemma StateIs(d: Device, grace: int, now: Time)
    ensures DeviceStateAt(d.isRevoked, d.validUntil, grace, now) == Interval(d, grace, now)
    ensures DaysLeft(DaysRemaining(d.validUntil, now), d.validUntil, now)
  {
  }

  /** The status of a device, for anyone who asks: by its tenant's grace, or the default. */
  lemma StatusQuery(db: Db, h: string, now: Time)
    ensures h !in db.devices ==> StatusOf(db, h, now) == Status(UNKNOWN, 0)
    ensures h in db.devices ==>
              var d := db.devices[h];
              var subscribed := d.tenantId in db.subOf && db.subOf[d.tenantId] in db.subs;
              var grace := if subscribed then db.subs[db.subOf[d.tenantId]].graceDays else db.settings.graceDays;
              var status := StatusOf(db, h, now);
              && status.Status? && status.state == Interval(d, grace, now)
              && DaysLeft(status.daysRemaining, d.validUntil, now)
  {
    if h in db.devices {
      StateIs(db.devices[h], GraceDaysOf(db, db.devices[h].tenantId), now);
    }
  }

  /** A heartbeat that is refused, and why. */
  lemma HeartbeatRefusals(db: Db, caller: Option<Id>, hwField: Option<string>, key: string, now: Time)
    requires Inv(db)
    ensures var reply := Step(db, Heartbeat(caller, hwField, key), now).reply;
            && (caller.None? ==> reply == Err(Forbidden))
            && (caller.Some? && caller.value !in db.tenants ==> reply == Err(NotFound))
            && (caller.Some? && caller.value in db.tenants && hwField.None? ==> reply == Err(MissingField))
            && (caller.Some? && caller.value in db.tenants && hwField.Some? ==>
                  var h := hwField.value;
                  && (h !in db.devices ==> reply == Err(NotFound))
                  && (h in db.devices ==>
                        (reply.Err? <==> db.devices[h].isRevoked || db.devices[h].licenseKey != key)
                        && (reply.Err? ==> reply == Err(Forbidden))))
  {
  }

  /** An accepted one: the caller's payment moves the date, the owner's grace names the state. */
  lemma HeartbeatAnswer(db: Db, t: Id, h: string, now: Time, x: Terms, y: Terms)
    requires Inv(db) && DbShows(db, t, Some(x)) && HasSeat(db.devices, h)
    requires DbShows(db, db.devices[h].tenantId, Some(y))
    ensures var d := db.devices[h];
            var o := Step(db, Heartbeat(Some(t), Some(h), d.licenseKey), now);
            var until := if x.status == TenantActive && x.paid then now + x.windowDays * DAY else d.validUntil;
            var d' := d.(validUntil := until, lastSeenAt := Some(now));
            && o.db == PutDevice(db, h, d')
            && o.reply.Ok? && o.reply.value.Status?
            && o.reply.value.state == Interval(d', y.graceDays, now)
            && DaysLeft(o.reply.value.daysRemaining, until, now)
  {
    var o := Step(db, Heartbeat(Some(t), Some(h), db.devices[h].licenseKey), now);
    StateIs(o.db.devices[h], y.graceDays, now);
  }

  /** The check of a device. It is valid up to the end of its grace, for its own tenant
      and with its own key; a wrong key learns the state by the default grace. */
  lemma VerifyDeviceAnswer(db: Db, t: Id, h: string, key: string, now: Time, x: Terms)
    requires Inv(db) && DbShows(db, t, Some(x))
    ensures VerifyDevice(db, Some(t), Some(h), key, now)
         == if h !in db.devices || db.devices[h].tenantId != t then Ok(DeviceVerdict(false, UNKNOWN))
            else if |key| == 0 || key != db.devices[h].licenseKey
            then Ok(DeviceVerdict(false, Interval(db.devices[h], db.settings.graceDays, now)))
            else Ok(DeviceVerdict(!db.devices[h].isRevoked && now <= db.devices[h].validUntil + x.graceDays * DAY,
                                  Interval(db.devices[h], x.graceDays, now)))
  {
    if h in db.devices && db.devices[h].tenantId == t {
      StateIs(db.devices[h], db.settings.graceDays, now);
      StateIs(db.devices[h], x.graceDays, now);
      assert SubscriptionChecks(db.subs[db.subOf[t]]);
    }
  }

  lemma VerifyDeviceRefusals(db: Db, caller: Option<Id>, hwField: Option<string>, key: string, now: Time)
    ensures var reply := VerifyDevice(db, caller, hwField, key, now);
            && (caller.None? ==> reply == Err(Forbidden))
            && (caller.Some? && caller.value !in db.tenants ==> reply == Err(NotFound))
            && (caller.Some? && caller.value in db.tenants && hwField.None? ==> reply == Err(MissingField))
  {
  }

  // ---- administration ---------------------------------------------------------------------------

  predicate TermsOk(x: Terms) {
    x.seatLimit >= 0 && x.windowDays >= 1 && x.graceDays >= 0
  }

  lemma CreateAnswer(db: Db, op: Op, now: Time)
    requires op.CreateTenant?
    ensures Step(db, op, now).reply
         == if TermsOk(FirstTerms(db.settings, op)) then Ok(Created(db.nextTenant)) else Err(ConstraintViolation)
  {
  }

  /** Any other request of an administrator to a tenant: one that is not there is not found. */
  predicate AsksOf(op: Op, t: Id) {
    match op
    case PatchSubscription(u, _, _, _, _, _) => u == t
    case GenerateBatchToken(u, _, _, _) => u == t
    case RecordPayment(u, _) => u == t
    case SetTenantStatus(u, _) => u == t
    case DeleteTenant(u) => u == t
    case _ => false
  }

  lemma UnknownTenantAnswer(db: Db, op: Op, now: Time, t: Id)
    requires Inv(db) && t !in db.tenants && AsksOf(op, t)
    ensures Step(db, op, now).reply == Err(NotFound)
  {
  }

  lemma PatchAnswer(db: Db, op: Op, now: Time, t: Id, x: Terms)
    requires Inv(db) && op.PatchSubscription? && op.tenantId == t && DbShows(db, t, Some(x))
    ensures Step(db, op, now).reply
         == if TermsOk(TermsSeen(db.settings, t, Some(x), op, Ok(Done)).value) then Ok(Done)
            else Err(ConstraintViolation)
  {
  }

  lemma PaymentAnswer(db: Db, t: Id, amount: int, now: Time)
    requires Inv(db) && t in db.tenants
    ensures Step(db, RecordPayment(t, amount), now).reply == if amount >= 0 then Ok(Done) else Err(ValidationFailed)
  {
  }

  lemma StatusAnswer(db: Db, t: Id, status: TenantStatus, now: Time)
    requires Inv(db) && t in db.tenants
    ensures Step(db, SetTenantStatus(t, status), now).reply == Ok(Done)
  {
  }

  /** A token is made for any positive quota; its text comes from a source that does not repeat. */
  lemma GenerateAnswer(db: Db, t: Id, quota: Option<int>, expiresAt: Option<Time>, text: string, now: Time)
    requires Inv(db) && t in db.tenants
    ensures Step(db, GenerateBatchToken(t, quota, expiresAt, text), now).reply
         == if quota.None? || quota.value <= 0 then Err(ValidationFailed)
            else if exists k :: k in db.tokens && db.tokens[k].text == text then Err(ConstraintViolation)
            else Ok(Created(db.nextToken))
  {
    if text in db.tokenByText {
      assert db.tokens[db.tokenByText[text]].text == text;
    }
  }

  lemma RevokeTokenAnswer(db: Db, k: Id, now: Time)
    ensures Step(db, RevokeBatchToken(k), now).reply == if k in db.tokens then Ok(Done) else Err(NotFound)
  {
  }

  lemma DeleteAnswer(db: Db, t: Id, now: Time)
    requires Inv(db) && t in db.tenants
    ensures Step(db, DeleteTenant(t), now).reply == Ok(Done)
  {
    DeleteIsClean(db, t);
  }
}
