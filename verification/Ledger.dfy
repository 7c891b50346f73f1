/** The licensing tables as one value, and what each request does to them.

    A request is an `Op`; `Step` gives the tables after its transaction and the
    reply. A refused request leaves the tables as they were. The class in
    LicensingDatabase.dfy performs the same requests statement by statement. */
module Ledger {
  import opened Wrappers
  import opened Clock
  import opened Verdict

  /** A BIGSERIAL key: always positive, so never a falsy value. */
  type Id = x: int | 0 < x witness 1

  datatype TenantStatus = TenantActive | TenantSuspended | TenantArchived

  datatype SubscriptionStatus = SubActive | SubPastDue | SubSuspended

  datatype Tenant = Tenant(status: TenantStatus)

  datatype Subscription = Subscription(
    tenantId: Id,
    seatLimit: int,
    windowDays: int,
    graceDays: int,
    validUntil: Time,
    status: SubscriptionStatus,
    isPaid: bool)

  datatype BatchToken = BatchToken(
    subscriptionId: Id,
    text: string,
    quota: int,
    seatsConsumed: int,
    expiresAt: Option<Time>,
    isRevoked: bool)

  datatype Device = Device(
    tenantId: Id,
    name: string,
    licenseKey: string,
    validFrom: Time,
    validUntil: Time,
    isRevoked: bool,
    lastSeenAt: Option<Time>,
    activatedVia: Option<Id>)

  /** The defaults for a new tenant, as configured; nothing checks them. */
  datatype Settings = Settings(windowDays: int, graceDays: int, seatLimit: int)

  /** The tables. `subOf` and `tokenByText` are the UNIQUE indexes on
      subscriptions.tenant_id and batch_tokens.token; devices are keyed by their
      UNIQUE hardware_uuid. The last fields are the id sequences and, never written, the settings. */
  datatype Db = Db(
    tenants: map<Id, Tenant>,
    subs: map<Id, Subscription>,
    subOf: map<Id, Id>,
    tokens: map<Id, BatchToken>,
    tokenByText: map<string, Id>,
    devices: map<string, Device>,
    nextTenant: Id,
    nextSub: Id,
    nextToken: Id,
    settings: Settings)

  function Empty(settings: Settings): Db {
    Db(map[], map[], map[], map[], map[], map[], 1, 1, 1, settings)
  }

  const MAX_DEVICE_NAME := 100
  const MAX_HARDWARE_UUID := 150

  datatype Error =
    | NotFound
    | Forbidden
    | ValidationFailed
    | SeatLimitReached
    | TokenInvalid
    | BoundToOtherTenant
    | MissingField          // a KeyError on a required body field
    | ConstraintViolation   // a CHECK, UNIQUE, length or foreign-key error
    | AuditRejected         // a TypeError while the audit payload is serialised

  /** The fields of an activation or seat request; any of them may be absent. */
  datatype DeviceBody = DeviceBody(token: Option<string>, hardwareUuid: Option<string>, deviceName: Option<string>)

  datatype Op =
    | CreateTenant(seatLimit: Option<int>, windowDays: Option<int>, graceDays: Option<int>)
    | PatchSubscription(tenantId: Id, newSeatLimit: Option<int>, newWindowDays: Option<int>,
                        newGraceDays: Option<int>, newIsPaid: Option<bool>, newStatus: Option<SubscriptionStatus>)
    | GenerateBatchToken(tenantId: Id, quota: Option<int>, expiresAt: Option<Time>, text: string)
    | RevokeBatchToken(tokenId: Id)
    | RecordPayment(tenantId: Id, amount: int)
    | SetTenantStatus(tenantId: Id, tenantStatus: TenantStatus)
    | DeleteTenant(tenantId: Id)
    | CpActivate(caller: Option<Id>, body: DeviceBody, secret: string)
    | PublicActivate(body: DeviceBody, secret: string)
    | ConsumeSeat(caller: Option<Id>, body: DeviceBody)
    | RevokeDevice(hw: string)
    | ReleaseSeat(caller: Option<Id>, hw: string)
    | ReinstateDevice(hw: string)
    | Heartbeat(caller: Option<Id>, hwField: Option<string>, key: string)

  datatype Reply =
    | Done
    | Created(id: Id)
    | Activated(licenseKey: string, reactivated: bool)
    | SeatBooked(consumed: bool)
    | Status(state: DeviceState, daysRemaining: int)

  datatype Outcome = Outcome(db: Db, reply: Result<Reply, Error>)

  function Refuse(db: Db, e: Error): Outcome {
    Outcome(db, Err(e))
  }

  // ---- reading ------------------------------------------------------------

  /** The subscription id of a tenant, by the unique index. */
  function SubIdOf(db: Db, t: Id): Option<Id> {
    if t in db.subOf && db.subOf[t] in db.subs then Some(db.subOf[t]) else None
  }

  function TokenIdOf(db: Db, text: string): Option<Id> {
    if text in db.tokenByText && db.tokenByText[text] in db.tokens then Some(db.tokenByText[text]) else None
  }

  /** The devices whose seat counts against tenant `t`. */
  function LiveDevicesOf(devices: map<string, Device>, t: Id): set<string> {
    set h | h in devices && devices[h].tenantId == t && !devices[h].isRevoked
  }

  function SeatsInUse(db: Db, t: Id): nat {
    |LiveDevicesOf(db.devices, t)|
  }

  /** The devices whose seat is booked against batch token `k`. */
  function LiveDevicesOn(devices: map<string, Device>, k: Id): set<string> {
    set h | h in devices && devices[h].activatedVia == Some(k) && !devices[h].isRevoked
  }

  predicate IsLive(db: Db, h: string) {
    h in db.devices && !db.devices[h].isRevoked
  }

  predicate Unexpired(tok: BatchToken, now: Time) {
    tok.expiresAt.None? || tok.expiresAt.value > now
  }

  predicate TokenOk(tok: BatchToken, subId: Id, now: Time) {
    !tok.isRevoked && tok.subscriptionId == subId && Unexpired(tok, now)
  }

  function VerifyToken(db: Db, caller: Option<Id>, text: string, now: Time): Result<bool, Error> {
    match TokenIdOf(db, text)
    case None => Ok(false)
    case Some(k) =>
      var tok := db.tokens[k];
      if tok.isRevoked || tok.seatsConsumed >= tok.quota || !Unexpired(tok, now) then Ok(false)
      else if caller.None? then Ok(true)
      else if SubIdOf(db, caller.value).None? then Err(NotFound)
      else Ok(tok.subscriptionId == SubIdOf(db, caller.value).value)
  }

  function GraceDaysOf(db: Db, t: Id): int {
    match SubIdOf(db, t)
    case Some(s) => db.subs[s].graceDays
    case None => db.settings.graceDays
  }

  /** The state of a stored device row under its own tenant's grace days. */
  function RowState(db: Db, h: string, now: Time): DeviceState
    requires h in db.devices
  {
    var d := db.devices[h];
    DeviceStateAt(d.isRevoked, d.validUntil, GraceDaysOf(db, d.tenantId), now)
  }

  function StatusOf(db: Db, h: string, now: Time): Reply {
    if h !in db.devices then Status(UNKNOWN, 0)
    else Status(RowState(db, h, now), DaysRemaining(db.devices[h].validUntil, now))
  }

  datatype DeviceVerdict = DeviceVerdict(valid: bool, state: DeviceState)

  function VerifyDevice(db: Db, caller: Option<Id>, hwField: Option<string>, key: string, now: Time)
    : Result<DeviceVerdict, Error>
  {
    if caller.None? then Err(Forbidden)
    else if caller.value !in db.tenants then Err(NotFound)
    else if hwField.None? then Err(MissingField)
    else
      var h := hwField.value;
      if h !in db.devices || db.devices[h].tenantId != caller.value then Ok(DeviceVerdict(false, UNKNOWN))
      else
        var d := db.devices[h];
        if key == "" || key != d.licenseKey then
          Ok(DeviceVerdict(false, DeviceStateAt(d.isRevoked, d.validUntil, db.settings.graceDays, now)))
        else
          var s := RowState(db, h, now);
          Ok(DeviceVerdict(Usable(s), s))
  }

  // ---- single-row updates ---------------------------------------------------

  function PutDevice(db: Db, h: string, d: Device): Db {
    db.(devices := db.devices[h := d])
  }

  function PutSub(db: Db, s: Id, sub: Subscription): Db {
    db.(subs := db.subs[s := sub])
  }

  function PutSeats(db: Db, k: Id, seats: int): Db
    requires k in db.tokens
  {
    db.(tokens := db.tokens[k := db.tokens[k].(seatsConsumed := seats)])
  }

  /** Spend one seat of token `k` on device row `d`. */
  function Book(db: Db, k: Id, h: string, d: Device): Db
    requires k in db.tokens
  {
    PutDevice(PutSeats(db, k, db.tokens[k].seatsConsumed + 1), h, d)
  }

  /** Revoke a live device and hand its seat back. */
  function Free(db: Db, h: string): Db
    requires h in db.devices
  {
    var d := db.devices[h];
    var db1 := PutDevice(db, h, d.(isRevoked := true));
    if d.activatedVia.Some? && d.activatedVia.value in db.tokens && db.tokens[d.activatedVia.value].seatsConsumed > 0
    then PutSeats(db1, d.activatedVia.value, db.tokens[d.activatedVia.value].seatsConsumed - 1)
    else db1
  }

  // ---- administration ---------------------------------------------------------

  /** `int(body.get(field) or default)`: a zero counts as absent. */
  function OrDefault(v: Option<int>, default: int): int {
    if v.None? || v.value == 0 then default else v.value
  }

  predicate SubscriptionChecks(sub: Subscription) {
    sub.seatLimit >= 0 && sub.windowDays > 0 && sub.graceDays >= 0
  }

  function DoCreateTenant(db: Db, seatLimit: Option<int>, windowDays: Option<int>, graceDays: Option<int>, now: Time)
    : Outcome
  {
    var t := db.nextTenant;
    var s := db.nextSub;
    var window := OrDefault(windowDays, db.settings.windowDays);
    var sub := Subscription(t, OrDefault(seatLimit, db.settings.seatLimit), window,
                            OrDefault(graceDays, db.settings.graceDays), now + window * DAY, SubActive, true);
    if !SubscriptionChecks(sub) then Refuse(db, ConstraintViolation)
    else Outcome(db.(tenants := db.tenants[t := Tenant(TenantActive)],
                     subs := db.subs[s := sub],
                     subOf := db.subOf[t := s],
                     nextTenant := t + 1,
                     nextSub := s + 1),
                 Ok(Created(t)))
  }

  function Patched<T>(old': T, new': Option<T>): T {
    if new'.Some? then new'.value else old'
  }

  function DoPatchSubscription(db: Db, op: Op): Outcome
    requires op.PatchSubscription?
  {
    match SubIdOf(db, op.tenantId)
    case None => Refuse(db, NotFound)
    case Some(s) =>
      var old' := db.subs[s];
      var sub := old'.(seatLimit := Patched(old'.seatLimit, op.newSeatLimit),
                       windowDays := Patched(old'.windowDays, op.newWindowDays),
                       graceDays := Patched(old'.graceDays, op.newGraceDays),
                       isPaid := Patched(old'.isPaid, op.newIsPaid),
                       status := Patched(old'.status, op.newStatus));
      if !SubscriptionChecks(sub) then Refuse(db, ConstraintViolation)
      else if op.tenantId !in db.tenants then Refuse(db, NotFound)
      else Outcome(PutSub(db, s, sub), Ok(Done))
  }

  function DoGenerateBatchToken(db: Db, t: Id, quota: Option<int>, expiresAt: Option<Time>, text: string): Outcome {
    if t !in db.tenants || SubIdOf(db, t).None? then Refuse(db, NotFound)
    else if OrDefault(quota, 0) <= 0 then Refuse(db, ValidationFailed)
    else if text in db.tokenByText then Refuse(db, ConstraintViolation)
    else
      var k := db.nextToken;
      var tok := BatchToken(SubIdOf(db, t).value, text, quota.value, 0, expiresAt, false);
      Outcome(db.(tokens := db.tokens[k := tok], tokenByText := db.tokenByText[text := k], nextToken := k + 1),
              Ok(Created(k)))
  }

  function DoRevokeBatchToken(db: Db, k: Id): Outcome {
    if k !in db.tokens then Refuse(db, NotFound)
    else Outcome(db.(tokens := db.tokens[k := db.tokens[k].(isRevoked := true)]), Ok(Done))
  }

  function Max(a: int, b: int): int {
    if a >= b then a else b
  }

  function DoRecordPayment(db: Db, t: Id, amount: int, now: Time): Outcome {
    match SubIdOf(db, t)
    case None => Refuse(db, NotFound)
    case Some(s) =>
      var sub := db.subs[s];
      if amount < 0 then Refuse(db, ValidationFailed)
      else if t !in db.tenants then Refuse(db, NotFound)
      else Outcome(PutSub(db, s, sub.(validUntil := Max(now, sub.validUntil) + sub.windowDays * DAY,
                                      isPaid := true, status := SubActive)),
                   Ok(Done))
  }

  function DoSetTenantStatus(db: Db, t: Id, status: TenantStatus): Outcome {
    if t !in db.tenants || SubIdOf(db, t).None? then Refuse(db, NotFound)
    else
      var s := SubIdOf(db, t).value;
      var db1 := db.(tenants := db.tenants[t := db.tenants[t].(status := status)]);
      var db2 := match status
                 case TenantSuspended => PutSub(db1, s, db.subs[s].(status := SubSuspended, isPaid := false))
                 case TenantActive => PutSub(db1, s, db.subs[s].(status := SubActive))
                 case TenantArchived => db1;
      Outcome(db2, Ok(Done))
  }

  /** Token `k` hangs off a subscription of tenant `t`. */
  predicate BelongsTo(subs: map<Id, Subscription>, tokens: map<Id, BatchToken>, k: Id, t: Id) {
    k in tokens && tokens[k].subscriptionId in subs && subs[tokens[k].subscriptionId].tenantId == t
  }

  /** The rows left once the ON DELETE CASCADE of tenant `t` has run. */
  function Cascade(db: Db, t: Id): Db {
    db.(tenants := map u | u in db.tenants && u != t :: db.tenants[u],
        subs := map s | s in db.subs && db.subs[s].tenantId != t :: db.subs[s],
        subOf := map u | u in db.subOf && u != t :: db.subOf[u],
        tokens := map k | k in db.tokens && !BelongsTo(db.subs, db.tokens, k, t) :: db.tokens[k],
        tokenByText := map x | x in db.tokenByText && !BelongsTo(db.subs, db.tokens, db.tokenByText[x], t)
                         :: db.tokenByText[x],
        devices := map h | h in db.devices && db.devices[h].tenantId != t :: db.devices[h])
  }

  /** activated_via has a foreign key without ON DELETE, checked after the cascade. */
  predicate NoDanglingVia(db: Db) {
    forall h :: h in db.devices && db.devices[h].activatedVia.Some? ==> db.devices[h].activatedVia.value in db.tokens
  }

  function DoDeleteTenant(db: Db, t: Id): Outcome {
    if t !in db.tenants then Refuse(db, NotFound)
    else if !NoDanglingVia(Cascade(db, t)) then Refuse(db, ConstraintViolation)
    else Outcome(Cascade(db, t), Ok(Done))
  }

  // ---- activation and seats ---------------------------------------------------

  function LicKey(secret: string): string {
    "LIC-" + secret
  }

  function ExtKey(h: string): string {
    "EXT-" + h
  }

  /** `_do_activate` for the tenant, subscription and token already looked up. */
  function DoActivate(db: Db, t: Id, s: Id, k: Id, body: DeviceBody, secret: string, now: Time): Outcome
    requires s in db.subs && k in db.tokens
  {
    var until := now + db.subs[s].windowDays * DAY;
    if body.hardwareUuid.None? then Refuse(db, MissingField)
    else
      var h := body.hardwareUuid.value;
      if IsLive(db, h) then
        if db.devices[h].tenantId != t then Refuse(db, BoundToOtherTenant)
        else Outcome(PutDevice(db, h, db.devices[h].(licenseKey := LicKey(secret), validUntil := until,
                                                     lastSeenAt := Some(now))),
                     Ok(Activated(LicKey(secret), true)))
      else if SeatsInUse(db, t) >= db.subs[s].seatLimit then Refuse(db, SeatLimitReached)
      else if db.tokens[k].seatsConsumed >= db.tokens[k].quota then Refuse(db, SeatLimitReached)
      else if body.deviceName.None? then Refuse(db, MissingField)
      else if |body.deviceName.value| > MAX_DEVICE_NAME || |h| > MAX_HARDWARE_UUID then Refuse(db, ConstraintViolation)
      else
        var seen := if h in db.devices then Some(now) else None;
        var d := Device(t, body.deviceName.value, LicKey(secret), now, until, false, seen, Some(k));
        Outcome(Book(db, k, h, d), Ok(Activated(LicKey(secret), false)))
  }

  function DoCpActivate(db: Db, caller: Option<Id>, body: DeviceBody, secret: string, now: Time): Outcome {
    if caller.None? then Refuse(db, Forbidden)
    else if caller.value !in db.tenants || SubIdOf(db, caller.value).None? then Refuse(db, NotFound)
    else if body.token.None? then Refuse(db, MissingField)
    else
      var s := SubIdOf(db, caller.value).value;
      var k := TokenIdOf(db, body.token.value);
      if k.None? || !TokenOk(db.tokens[k.value], s, now) then Refuse(db, TokenInvalid)
      else DoActivate(db, caller.value, s, k.value, body, secret, now)
  }

  function DoPublicActivate(db: Db, body: DeviceBody, secret: string, now: Time): Outcome {
    if body.token.None? then Refuse(db, MissingField)
    else
      var k := TokenIdOf(db, body.token.value);
      if k.None? || db.tokens[k.value].isRevoked || !Unexpired(db.tokens[k.value], now) then Refuse(db, TokenInvalid)
      else
        var s := db.tokens[k.value].subscriptionId;
        if s !in db.subs then Refuse(db, TokenInvalid)
        else
          var t := db.subs[s].tenantId;
          if t !in db.tenants then Refuse(db, NotFound)
          else if db.tenants[t].status != TenantActive then Refuse(db, Forbidden)
          else DoActivate(db, t, s, k.value, body, secret, now)
  }

  /** `(device_name or hw)[:100]`. */
  function SeatName(name: Option<string>, h: string): string {
    var n := if name.None? || name.value == "" then h else name.value;
    if |n| > MAX_DEVICE_NAME then n[..MAX_DEVICE_NAME] else n
  }

  function DoConsumeSeat(db: Db, caller: Option<Id>, body: DeviceBody, now: Time): Outcome {
    if caller.None? then Refuse(db, Forbidden)
    else if caller.value !in db.tenants || SubIdOf(db, caller.value).None? then Refuse(db, NotFound)
    else if body.token.None? then Refuse(db, MissingField)
    else
      var t := caller.value;
      var s := SubIdOf(db, t).value;
      var kk := TokenIdOf(db, body.token.value);
      if kk.None? || !TokenOk(db.tokens[kk.value], s, now) then Refuse(db, TokenInvalid)
      else if body.hardwareUuid.None? then Refuse(db, MissingField)
      else
        var k := kk.value;
        var h := body.hardwareUuid.value;
        if IsLive(db, h) then
          Outcome(PutDevice(db, h, db.devices[h].(lastSeenAt := Some(now))), Ok(SeatBooked(false)))
        else if SeatsInUse(db, t) >= db.subs[s].seatLimit then Refuse(db, SeatLimitReached)
        else if db.tokens[k].seatsConsumed >= db.tokens[k].quota then Refuse(db, SeatLimitReached)
        else if |h| > MAX_HARDWARE_UUID then Refuse(db, ConstraintViolation)
        else
          var d := Device(t, SeatName(body.deviceName, h), ExtKey(h), now, now + db.subs[s].windowDays * DAY,
                          false, Some(now), Some(k));
          Outcome(Book(db, k, h, d), Ok(SeatBooked(true)))
  }

  function DoRevokeDevice(db: Db, h: string): Outcome {
    if IsLive(db, h) then Outcome(Free(db, h), Ok(Done))
    else if h in db.devices then Outcome(db, Ok(Done))
    else Refuse(db, NotFound)
  }

  /** The control-plane release looks at no caller, and answers the same whether or
      not a seat was held. */
  function DoReleaseSeat(db: Db, h: string): Outcome {
    Outcome(if IsLive(db, h) then Free(db, h) else db, Ok(Done))
  }

  predicate PaidUp(db: Db, t: Id, s: Id)
    requires t in db.tenants && s in db.subs
  {
    db.subs[s].isPaid && db.tenants[t].status == TenantActive
  }

  function DoReinstate(db: Db, h: string, now: Time): Outcome {
    if h !in db.devices then Refuse(db, NotFound)
    else if IsLive(db, h) then Outcome(db, Ok(Done))
    else
      var d := db.devices[h];
      var t := d.tenantId;
      if SubIdOf(db, t).None? then Refuse(db, NotFound)
      else
        var s := SubIdOf(db, t).value;
        if SeatsInUse(db, t) >= db.subs[s].seatLimit then Refuse(db, SeatLimitReached)
        else
          var via := if d.activatedVia.Some? && d.activatedVia.value in db.tokens then d.activatedVia else None;
          if via.Some? && db.tokens[via.value].seatsConsumed >= db.tokens[via.value].quota then
            Refuse(db, SeatLimitReached)
          else if t !in db.tenants then Refuse(db, NotFound)
          else
            var renewed := now + db.subs[s].windowDays * DAY;
            var until := if PaidUp(db, t, s) then Max(renewed, d.validUntil) else d.validUntil;
            var d' := d.(isRevoked := false, validUntil := until);
            Outcome(if via.Some? then Book(db, via.value, h, d') else PutDevice(db, h, d'), Ok(Done))
  }

  function DoHeartbeat(db: Db, caller: Option<Id>, hwField: Option<string>, key: string, now: Time): Outcome {
    if caller.None? then Refuse(db, Forbidden)
    else if caller.value !in db.tenants || SubIdOf(db, caller.value).None? then Refuse(db, NotFound)
    else if hwField.None? then Refuse(db, MissingField)
    else
      var s := SubIdOf(db, caller.value).value;
      var h := hwField.value;
      if h !in db.devices then Refuse(db, NotFound)
      else if db.devices[h].isRevoked || db.devices[h].licenseKey != key then Refuse(db, Forbidden)
      else
        var d := db.devices[h].(lastSeenAt := Some(now));
        var d' := if PaidUp(db, caller.value, s) then d.(validUntil := now + db.subs[s].windowDays * DAY) else d;
        var db' := PutDevice(db, h, d');
        Outcome(db', Ok(StatusOf(db', h, now)))
  }

  // ---- requests and runs --------------------------------------------------------

  function Step(db: Db, op: Op, now: Time): Outcome {
    match op
    case CreateTenant(seats, window, grace) => DoCreateTenant(db, seats, window, grace, now)
    case PatchSubscription(_, _, _, _, _, _) => DoPatchSubscription(db, op)
    case GenerateBatchToken(t, quota, expiresAt, text) => DoGenerateBatchToken(db, t, quota, expiresAt, text)
    case RevokeBatchToken(k) => DoRevokeBatchToken(db, k)
    case RecordPayment(t, amount) => DoRecordPayment(db, t, amount, now)
    case SetTenantStatus(t, status) => DoSetTenantStatus(db, t, status)
    case DeleteTenant(t) => DoDeleteTenant(db, t)
    case CpActivate(caller, body, secret) => DoCpActivate(db, caller, body, secret, now)
    case PublicActivate(body, secret) => DoPublicActivate(db, body, secret, now)
    case ConsumeSeat(caller, body) => DoConsumeSeat(db, caller, body, now)
    case RevokeDevice(h) => DoRevokeDevice(db, h)
    case ReleaseSeat(_, h) => DoReleaseSeat(db, h)
    case ReinstateDevice(h) => DoReinstate(db, h, now)
    case Heartbeat(caller, hwField, key) => DoHeartbeat(db, caller, hwField, key, now)
  }

  /** The step as the code stands. A subscription patch ends with an audit entry
      whose payload holds the datetime `updated_at`; the engine is created without a
      JSON serializer of its own, the default one refuses a datetime, and the error
      rolls the patch back. `Step` is the step as intended, with the entry written. */
  function StepAsWritten(db: Db, op: Op, now: Time): Outcome {
    var o := Step(db, op, now);
    if op.PatchSubscription? && o.reply.Ok? then Refuse(db, AuditRejected) else o
  }

  datatype Event = Event(op: Op, now: Time)

  function Run(db: Db, events: seq<Event>): Db
    decreases |events|
  {
    if events == [] then db else Run(Step(db, events[0].op, events[0].now).db, events[1..])
  }

  function RunAsWritten(db: Db, events: seq<Event>): Db
    decreases |events|
  {
    if events == [] then db else RunAsWritten(StepAsWritten(db, events[0].op, events[0].now).db, events[1..])
  }

  /** Times never go back, starting from `clock`. */
  predicate Timed(clock: Time, events: seq<Event>)
    decreases |events|
  {
    events == [] || (clock <= events[0].now && Timed(events[0].now, events[1..]))
  }

  function EndTime(clock: Time, events: seq<Event>): Time
    decreases |events|
  {
    if events == [] then clock else EndTime(events[0].now, events[1..])
  }
}
