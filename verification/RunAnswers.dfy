/** What requests answer after any run from the empty tables, by the requests accepted
    in it: the status and terms said last of a tenant, what a token was made for, and
    what was seen of a device. */
module RunAnswers {
  import opened Wrappers
  import opened Clock
  import opened Verdict
  import opened Ledger
  import opened LedgerInvariant
  import opened TokenHistory
  import opened Validity
  import opened Accounts
  import opened DeviceHistory
  import opened Answers

  function TermsIn(settings: Settings, events: seq<Event>, t: Id): Option<Terms> {
    TermsAfter(Empty(settings), events, t, None)
  }

  function GrantIn(settings: Settings, events: seq<Event>, k: Id): Option<Grant> {
    GrantAfter(Empty(settings), events, k, None)
  }

  function SightingIn(settings: Settings, events: seq<Event>, h: string): Option<Sighting> {
    DeviceAfter(Empty(settings), events, h, None)
  }

  lemma TenantKnown(settings: Settings, events: seq<Event>, t: Id)
    ensures var db := Run(Empty(settings), events);
            && Inv(db) && DbShows(db, t, TermsIn(settings, events, t))
            && TermsOf(db, t) == TermsIn(settings, events, t)
  {
    RunKeeps(Empty(settings), events);
    RunShowsTerms(Empty(settings), events, t, None);
    ShowsTermsOf(Run(Empty(settings), events), t, TermsIn(settings, events, t));
  }

  /** A token in use belongs to a tenant in existence. */
  lemma TokenKnown(settings: Settings, events: seq<Event>, k: Id)
    ensures var db, g := Run(Empty(settings), events), GrantIn(settings, events, k);
            && Inv(db) && (k in db.tokens <==> g.Some?)
            && (g.Some? ==> Knows(db, k, g.value) && db.tokens[k].text == g.value.text
                            && TermsIn(settings, events, g.value.tenant).Some?)
  {
    RunShowsGrant(Empty(settings), events, k, None);
    RunKeeps(Empty(settings), events);
    var db, g := Run(Empty(settings), events), GrantIn(settings, events, k);
    if g.Some? {
      TokenFound(db, k, g.value);
      TenantKnown(settings, events, g.value.tenant);
    }
  }

  lemma DeviceKnown(settings: Settings, events: seq<Event>, h: string)
    ensures ShowsDevice(Run(Empty(settings), events).devices, h, SightingIn(settings, events, h))
  {
    RowIsHistory(Empty(settings), events, h, None);
  }

  // ---- public activation -----------------------------------------------------------------

  /** Token `k` carries the text, and is neither revoked nor expired. */
  predicate GoodToken(settings: Settings, events: seq<Event>, k: Id, text: string, now: Time) {
    var g := GrantIn(settings, events, k);
    g.Some? && g.value.text == text && !g.value.revoked && (g.value.expiresAt.None? || now < g.value.expiresAt.value)
  }

  /** The token's tenant is active, paid up or not. */
  predicate ActiveOwner(settings: Settings, events: seq<Event>, k: Id) {
    var g := GrantIn(settings, events, k);
    g.Some? && var x := TermsIn(settings, events, g.value.tenant); x.Some? && x.value.status == TenantActive
  }

  /** The tenant is below its limit and the token below the quota it was made for. */
  predicate SeatFree(settings: Settings, events: seq<Event>, k: Id) {
    var g := GrantIn(settings, events, k);
    && g.Some?
    && var x := TermsIn(settings, events, g.value.tenant);
       && x.Some? && RoomFor(Run(Empty(settings), events).devices, k, g.value, x.value)
  }

  predicate LiveIn(settings: Settings, events: seq<Event>, h: string) {
    var d := SightingIn(settings, events, h);
    d.Some? && d.value.live
  }

  predicate LiveOfOwner(settings: Settings, events: seq<Event>, h: string, k: Id) {
    var d, g := SightingIn(settings, events, h), GrantIn(settings, events, k);
    d.Some? && d.value.live && g.Some? && d.value.tenant == g.value.tenant
  }

  predicate ShortEnough(body: DeviceBody) {
    && body.hardwareUuid.Some? && |body.hardwareUuid.value| <= 150
    && body.deviceName.Some? && |body.deviceName.value| <= 100
  }

  /** After any run, what a public activation of hardware `h` with the text of token
      `k` answers. The owner must be active; whether it has paid is not asked. */
  lemma PublicByHistory(settings: Settings, events: seq<Event>, body: DeviceBody, secret: string, now: Time,
                        k: Id, h: string)
    requires GrantIn(settings, events, k).Some? && body.token == Some(GrantIn(settings, events, k).value.text)
    requires body.hardwareUuid == Some(h)
    ensures Step(Run(Empty(settings), events), PublicActivate(body, secret), now).reply
         == if !GoodToken(settings, events, k, body.token.value, now) then Err(TokenInvalid)
            else if !ActiveOwner(settings, events, k) then Err(Forbidden)
            else if LiveIn(settings, events, h) then
              if LiveOfOwner(settings, events, h, k) then Ok(Activated("LIC-" + secret, true))
              else Err(BoundToOtherTenant)
            else if !SeatFree(settings, events, k) then Err(SeatLimitReached)
            else if body.deviceName.None? then Err(MissingField)
            else if !ShortEnough(body) then Err(ConstraintViolation)
            else Ok(Activated("LIC-" + secret, false))
  {
    var db, g := Run(Empty(settings), events), GrantIn(settings, events, k).value;
    TokenKnown(settings, events, k);
    TenantKnown(settings, events, g.tenant);
    DeviceKnown(settings, events, h);
    PublicAnswer(db, k, g, TermsIn(settings, events, g.tenant).value, body, secret, now);
  }

  /** After any run, new hardware is activated in public exactly when some token was made
      with this text, is neither revoked nor expired nor used up, and belongs to an
      active tenant with a seat free. */
  lemma PublicActivationIff(settings: Settings, events: seq<Event>, body: DeviceBody, secret: string, now: Time)
    requires ShortEnough(body) && body.token.Some? && !LiveIn(settings, events, body.hardwareUuid.value)
    ensures Step(Run(Empty(settings), events), PublicActivate(body, secret), now).reply.Ok?
       <==> exists k :: GoodToken(settings, events, k, body.token.value, now) && ActiveOwner(settings, events, k)
                        && SeatFree(settings, events, k)
  {
    PublicIff(settings, events, body, secret, now);
    if k :| GoodToken(settings, events, k, body.token.value, now) && ActiveOwner(settings, events, k)
            && SeatFree(settings, events, k)
    {
      PublicByHistory(settings, events, body, secret, now, k, body.hardwareUuid.value);
    }
  }

  /** Hardware that holds a seat is activated again exactly when the token is good and
      its tenant is active and owns the device, whatever the quota and the limit. */
  lemma PublicReactivationIff(settings: Settings, events: seq<Event>, body: DeviceBody, secret: string, now: Time)
    requires body.hardwareUuid.Some? && body.token.Some? && LiveIn(settings, events, body.hardwareUuid.value)
    ensures Step(Run(Empty(settings), events), PublicActivate(body, secret), now).reply.Ok?
       <==> exists k :: GoodToken(settings, events, k, body.token.value, now) && ActiveOwner(settings, events, k)
                        && LiveOfOwner(settings, events, body.hardwareUuid.value, k)
  {
    PublicIff(settings, events, body, secret, now);
    if k :| GoodToken(settings, events, k, body.token.value, now) && ActiveOwner(settings, events, k)
            && LiveOfOwner(settings, events, body.hardwareUuid.value, k)
    {
      PublicByHistory(settings, events, body, secret, now, k, body.hardwareUuid.value);
    }
  }

  /** An accepted public activation names the token of some grant. */
  lemma PublicIff(settings: Settings, events: seq<Event>, body: DeviceBody, secret: string, now: Time)
    requires body.token.Some? && body.hardwareUuid.Some?
    ensures Step(Run(Empty(settings), events), PublicActivate(body, secret), now).reply.Ok? ==>
              exists k :: GoodToken(settings, events, k, body.token.value, now) && ActiveOwner(settings, events, k)
                          && if LiveIn(settings, events, body.hardwareUuid.value)
                             then LiveOfOwner(settings, events, body.hardwareUuid.value, k)
                             else SeatFree(settings, events, k)
  {
    var db := Run(Empty(settings), events);
    RunKeeps(Empty(settings), events);
    if Step(db, PublicActivate(body, secret), now).reply.Ok? {
      PublicWithoutToken(db, body, secret, now);
      var k :| k in db.tokens && db.tokens[k].text == body.token.value;
      TokenKnown(settings, events, k);
      PublicByHistory(settings, events, body, secret, now, k, body.hardwareUuid.value);
    }
  }

  // ---- product backends ------------------------------------------------------------------------

  /** After any run, what a product backend's activation of hardware `h` with the text of
      token `k` answers. The token must be its own; neither status nor payment is asked. */
  lemma CpByHistory(settings: Settings, events: seq<Event>, t: Id, body: DeviceBody, secret: string, now: Time,
                    k: Id, h: string)
    requires GrantIn(settings, events, k).Some? && body.token == Some(GrantIn(settings, events, k).value.text)
    requires TermsIn(settings, events, t).Some? && body.hardwareUuid == Some(h)
    ensures Step(Run(Empty(settings), events), CpActivate(Some(t), body, secret), now).reply
         == if !GoodToken(settings, events, k, body.token.value, now) || GrantIn(settings, events, k).value.tenant != t
            then Err(TokenInvalid)
            else if LiveIn(settings, events, h) then
              if LiveOfOwner(settings, events, h, k) then Ok(Activated("LIC-" + secret, true))
              else Err(BoundToOtherTenant)
            else if !SeatFree(settings, events, k) then Err(SeatLimitReached)
            else if body.deviceName.None? then Err(MissingField)
            else if !ShortEnough(body) then Err(ConstraintViolation)
            else Ok(Activated("LIC-" + secret, false))
  {
    var db, g := Run(Empty(settings), events), GrantIn(settings, events, k).value;
    TokenKnown(settings, events, k);
    TenantKnown(settings, events, g.tenant);
    TenantKnown(settings, events, t);
    DeviceKnown(settings, events, h);
    CpAnswer(db, t, k, g, TermsIn(settings, events, g.tenant).value, body, secret, now);
  }

  /** And its seat request: hardware that holds a seat is left alone, whoever owns it. */
  lemma ConsumeByHistory(settings: Settings, events: seq<Event>, t: Id, body: DeviceBody, now: Time, k: Id, h: string)
    requires GrantIn(settings, events, k).Some? && body.token == Some(GrantIn(settings, events, k).value.text)
    requires TermsIn(settings, events, t).Some? && body.hardwareUuid == Some(h)
    ensures Step(Run(Empty(settings), events), ConsumeSeat(Some(t), body), now).reply
         == if !GoodToken(settings, events, k, body.token.value, now) || GrantIn(settings, events, k).value.tenant != t
            then Err(TokenInvalid)
            else if LiveIn(settings, events, h) then Ok(SeatBooked(false))
            else if !SeatFree(settings, events, k) then Err(SeatLimitReached)
            else if |h| > 150 then Err(ConstraintViolation)
            else Ok(SeatBooked(true))
  {
    var db, g := Run(Empty(settings), events), GrantIn(settings, events, k).value;
    TokenKnown(settings, events, k);
    TenantKnown(settings, events, g.tenant);
    TenantKnown(settings, events, t);
    DeviceKnown(settings, events, h);
    ConsumeAnswer(db, t, k, g, TermsIn(settings, events, g.tenant).value, body, now);
  }

  /** After any run a device verifies exactly when it was last seen holding a seat of the
      calling tenant, under this key, and the tenant's grace is not over. */
  lemma VerifiesIffHistory(settings: Settings, events: seq<Event>, t: Id, h: string, key: string, now: Time)
    requires TermsIn(settings, events, t).Some?
    ensures var verdict := VerifyDevice(Run(Empty(settings), events), Some(t), Some(h), key, now);
            var d := SightingIn(settings, events, h);
            && verdict.Ok?
            && (verdict.value.valid
                <==> (&& d.Some? && d.value.tenant == t && d.value.live && d.value.key == key && key != ""
                      && now <= d.value.until + TermsIn(settings, events, t).value.graceDays * DAY))
  {
    TenantKnown(settings, events, t);
    DeviceKnown(settings, events, h);
    VerifyDeviceAnswer(Run(Empty(settings), events), t, h, key, now, TermsIn(settings, events, t).value);
  }

  // ---- payment --------------------------------------------------------------------------------

  /** A tenant is paid up after a run exactly when it was made in it and is still there,
      was last set active, and the last accepted word on its payment (its creation, a
      payment, a suspension, a patch) is that it has paid. */
  lemma PaidUpIffHistory(settings: Settings, events: seq<Event>, t: Id)
    ensures var x := TermsIn(settings, events, t);
            IsPaid(Run(Empty(settings), events), t) <==> x.Some? && x.value.status == TenantActive && x.value.paid
  {
    TenantKnown(settings, events, t);
  }

  /** After any run, what a heartbeat does: it must come from a known tenant, name a live
      device and carry its key, and it moves the date to one window of the calling tenant
      exactly when that tenant is active and has paid. */
  lemma HeartbeatByHistory(settings: Settings, events: seq<Event>, t: Id, h: string, key: string, now: Time)
    ensures var db := Run(Empty(settings), events);
            var x, d := TermsIn(settings, events, t), SightingIn(settings, events, h);
            var o := Step(db, Heartbeat(Some(t), Some(h), key), now);
            && (o.reply.Ok? <==> x.Some? && d.Some? && d.value.live && d.value.key == key)
            && (o.reply.Ok? ==>
                  && h in o.db.devices
                  && o.db.devices[h].validUntil
                     == if x.value.status == TenantActive && x.value.paid then now + x.value.windowDays * DAY
                        else d.value.until)
            && (o.reply.Err? ==> o.reply == Err(if x.None? || d.None? then NotFound else Forbidden))
  {
    var db := Run(Empty(settings), events);
    var x, d := TermsIn(settings, events, t), SightingIn(settings, events, h);
    TenantKnown(settings, events, t);
    DeviceKnown(settings, events, h);
    HeartbeatRefusals(db, Some(t), Some(h), key, now);
    if x.Some? && d.Some? && d.value.live && d.value.key == key {
      OwnerHasTerms(db, h);
      HeartbeatAnswer(db, t, h, now, x.value, TermsOf(db, db.devices[h].tenantId).value);
    }
  }

  lemma OwnerHasTerms(db: Db, h: string)
    requires Inv(db) && h in db.devices
    ensures TermsOf(db, db.devices[h].tenantId).Some?
  {
    var k := db.devices[h].activatedVia.value;
    assert BelongsTo(db.subs, db.tokens, k, db.devices[h].tenantId);
  }

  /** A payment takes effect at once: after it, the next heartbeat of an active tenant for
      a live device with its key sets the date to one window from the heartbeat. */
  lemma PaymentRenews(settings: Settings, events: seq<Event>, t: Id, amount: int, paidAt: Time, h: string, key: string,
                      now: Time)
    requires TermsIn(settings, events, t).Some? && TermsIn(settings, events, t).value.status == TenantActive
    requires LiveIn(settings, events, h) && SightingIn(settings, events, h).value.key == key && amount >= 0
    ensures var paid := Step(Run(Empty(settings), events), RecordPayment(t, amount), paidAt);
            var o := Step(paid.db, Heartbeat(Some(t), Some(h), key), now);
            && paid.reply.Ok? && o.reply.Ok? && h in o.db.devices
            && o.db.devices[h].validUntil == now + TermsIn(settings, events, t).value.windowDays * DAY
  {
    var db := Run(Empty(settings), events);
    var x := TermsIn(settings, events, t).value;
    TenantKnown(settings, events, t);
    DeviceKnown(settings, events, h);
    PaymentAnswer(db, t, amount, paidAt);
    var paid := Step(db, RecordPayment(t, amount), paidAt).db;
    StepKeeps(db, RecordPayment(t, amount), paidAt);
    StepShowsTerms(db, RecordPayment(t, amount), paidAt, t, Some(x));
    AdminEffect(db, RecordPayment(t, amount), paidAt);
    OwnerHasTerms(paid, h);
    HeartbeatAnswer(paid, t, h, now, x.(paid := true, state := SubActive),
                    TermsOf(paid, paid.devices[h].tenantId).value);
  }

  // ---- the quota of a token -----------------------------------------------------------------------

  /** A booking by the token's own tenant, of hardware without a seat, while the token is good. */
  predicate FreshBooking(devices: map<string, Device>, g: Grant, e: Event) {
    && e.op.ConsumeSeat? && e.op.caller == Some(g.tenant) && e.op.body.token == Some(g.text)
    && e.op.body.hardwareUuid.Some? && |e.op.body.hardwareUuid.value| <= 150
    && !HasSeat(devices, e.op.body.hardwareUuid.value) && Good(g, e.now)
  }

  /** Bookings of distinct new hardware. */
  predicate FreshBookings(devices: map<string, Device>, g: Grant, events: seq<Event>) {
    && (forall i :: 0 <= i < |events| ==> FreshBooking(devices, g, events[i]))
    && (forall i, j :: 0 <= i < j < |events| ==> Hardware(events[i].op) != Hardware(events[j].op))
  }

  function Hardware(op: Op): Option<string> {
    if SeatRequest(op) then op.body.hardwareUuid else None
  }

  /** The tenant's limit does not stand in the way of the rest of the quota. */
  predicate LimitAllows(db: Db, k: Id, g: Grant, x: Terms) {
    |LiveDevicesOf(db.devices, g.tenant)| + g.quota - |LiveDevicesOn(db.devices, k)| <= x.seatLimit
  }


  /** What a step of the series keeps: token and terms, with `n` seats of the token in use. */
  ghost predicate Serving(db: Db, k: Id, g: Grant, x: Terms, n: int) {
    && Inv(db) && Knows(db, k, g) && DbShows(db, g.tenant, Some(x)) && LimitAllows(db, k, g, x)
    && |LiveDevicesOn(db.devices, k)| == n <= g.quota
  }

  function Served(n: int, quota: int): int {
    if n < quota then n + 1 else n
  }

  lemma OneBookingReply(db: Db, k: Id, g: Grant, x: Terms, n: int, e: Event)
    requires Serving(db, k, g, x, n) && FreshBooking(db.devices, g, e)
    ensures Step(db, e.op, e.now).reply == if n < g.quota then Ok(SeatBooked(true)) else Err(SeatLimitReached)
  {
    TokenFound(db, k, g);
    ConsumeAnswer(db, g.tenant, k, g, x, e.op.body, e.now);
  }

  /** The booked row. */
  lemma BookedRow(db: Db, k: Id, g: Grant, x: Terms, n: int, e: Event)
    requires Serving(db, k, g, x, n) && FreshBooking(db.devices, g, e) && n < g.quota
    ensures var h, devices := e.op.body.hardwareUuid.value, Step(db, e.op, e.now).db.devices;
            && h in devices && devices == db.devices[h := devices[h]] && !devices[h].isRevoked
            && devices[h].activatedVia == Some(k) && devices[h].tenantId == g.tenant
  {
    OneBookingReply(db, k, g, x, n, e);
    TokenFound(db, k, g);
    ConsumeCharges(db, e.op.caller, e.op.body, e.now);
    RowOfBooking(db, e.op.caller, e.op.body, e.now);
  }

  lemma RowOfBooking(db: Db, caller: Option<Id>, body: DeviceBody, now: Time)
    requires DoConsumeSeat(db, caller, body, now).reply.Ok? && body.hardwareUuid.Some? && caller.Some?
    requires !IsLive(db, body.hardwareUuid.value)
    ensures var h := body.hardwareUuid.value;
            var db' := DoConsumeSeat(db, caller, body, now).db;
            h in db'.devices && db'.devices[h].tenantId == caller.value
  {
  }

  /** It is one more of its token and of its tenant. */
  lemma OneSeatMore(devices: map<string, Device>, devices': map<string, Device>, h: string, k: Id, t: Id)
    requires !HasSeat(devices, h) && h in devices' && devices' == devices[h := devices'[h]]
    requires !devices'[h].isRevoked && devices'[h].activatedVia == Some(k) && devices'[h].tenantId == t
    ensures |LiveDevicesOn(devices', k)| == |LiveDevicesOn(devices, k)| + 1
    ensures |LiveDevicesOf(devices', t)| == |LiveDevicesOf(devices, t)| + 1
  {
    LiveRowAdds(devices, h, devices'[h]);
  }

  lemma BookingKeepsGrant(db: Db, k: Id, g: Grant, x: Terms, e: Event)
    requires Inv(db) && Knows(db, k, g) && DbShows(db, g.tenant, Some(x)) && e.op.ConsumeSeat?
    ensures var db' := Step(db, e.op, e.now).db; Inv(db') && Knows(db', k, g) && DbShows(db', g.tenant, Some(x))
  {
    var reply := Step(db, e.op, e.now).reply;
    StepKeeps(db, e.op, e.now);
    StepShowsTerms(db, e.op, e.now, g.tenant, Some(x));
    SilentTerms(db.settings, g.tenant, Some(x), e.op, reply);
    StepShowsGrant(db, e.op, e.now, k, Some(g));
    SilentGrant(k, Some(g), e.op, reply);
  }

  lemma OneBooking(db: Db, k: Id, g: Grant, x: Terms, n: int, e: Event)
    requires Serving(db, k, g, x, n) && FreshBooking(db.devices, g, e)
    ensures Serving(Step(db, e.op, e.now).db, k, g, x, Served(n, g.quota))
  {
    BookingKeepsGrant(db, k, g, x, e);
    if n < g.quota {
      BookedRow(db, k, g, x, n, e);
      OneSeatMore(db.devices, Step(db, e.op, e.now).db.devices, e.op.body.hardwareUuid.value, k, g.tenant);
    } else {
      OneBookingReply(db, k, g, x, n, e);
      RefusedUnchanged(db, e.op, e.now);
    }
  }

  /** The others are still without a seat. */
  lemma OthersStayFresh(db: Db, k: Id, g: Grant, x: Terms, n: int, events: seq<Event>)
    requires events != [] && Serving(db, k, g, x, n) && FreshBookings(db.devices, g, events)
    ensures FreshBookings(Step(db, events[0].op, events[0].now).db.devices, g, events[1..])
  {
    var e := events[0];
    var db' := Step(db, e.op, e.now).db;
    if n < g.quota {
      BookedRow(db, k, g, x, n, e);
    } else {
      OneBookingReply(db, k, g, x, n, e);
      RefusedUnchanged(db, e.op, e.now);
    }
    forall i | 0 <= i < |events| - 1 ensures FreshBooking(db'.devices, g, events[1..][i]) {
      assert FreshBooking(db.devices, g, events[i + 1]) && Hardware(events[0].op) != Hardware(events[i + 1].op);
    }
  }

  /** The reply to booking `i` of the series. */
  function ReplyAt(db: Db, events: seq<Event>, i: nat): Result<Reply, Error>
    requires i < |events|
    decreases |events|
  {
    var o := Step(db, events[0].op, events[0].now);
    if i == 0 then o.reply else ReplyAt(o.db, events[1..], i - 1)
  }

  /** A token books exactly the number of devices it was made for: of any series of bookings
      of distinct new hardware the first ones up to the quota succeed, and the rest are
      refused for want of a seat. */
  lemma {:induction false} BooksItsQuota(db: Db, k: Id, g: Grant, x: Terms, n: int, events: seq<Event>, i: nat)
    requires Serving(db, k, g, x, n) && FreshBookings(db.devices, g, events) && i < |events|
    ensures ReplyAt(db, events, i) == if n + i < g.quota then Ok(SeatBooked(true)) else Err(SeatLimitReached)
    decreases |events|
  {
    var e := events[0];
    assert FreshBooking(db.devices, g, e);
    OneBookingReply(db, k, g, x, n, e);
    if i > 0 {
      OneBooking(db, k, g, x, n, e);
      OthersStayFresh(db, k, g, x, n, events);
      BooksItsQuota(Step(db, e.op, e.now).db, k, g, x, Served(n, g.quota), events[1..], i - 1);
    }
  }

  /** So a token just made for `quota` devices books the first `quota` of them. */
  lemma NewTokenBooksItsQuota(settings: Settings, past: seq<Event>, t: Id, quota: int, expiresAt: Option<Time>,
                              text: string, madeAt: Time, events: seq<Event>, i: nat)
    requires Step(Run(Empty(settings), past), GenerateBatchToken(t, Some(quota), expiresAt, text), madeAt).reply.Ok?
    requires var db := Run(Empty(settings), past);
             && TermsIn(settings, past, t).Some?
             && |LiveDevicesOf(db.devices, t)| + quota <= TermsIn(settings, past, t).value.seatLimit
             && FreshBookings(db.devices, Grant(t, text, quota, expiresAt, false), events) && i < |events|
    ensures var db := Step(Run(Empty(settings), past), GenerateBatchToken(t, Some(quota), expiresAt, text), madeAt).db;
            ReplyAt(db, events, i) == if i < quota then Ok(SeatBooked(true)) else Err(SeatLimitReached)
  {
    var db := Run(Empty(settings), past);
    var make := GenerateBatchToken(t, Some(quota), expiresAt, text);
    var g, x, k := Grant(t, text, quota, expiresAt, false), TermsIn(settings, past, t).value, db.nextToken;
    var db' := Step(db, make, madeAt).db;
    TenantKnown(settings, past, t);
    StepKeeps(db, make, madeAt);
    StepShowsTerms(db, make, madeAt, t, Some(x));
    MadeToken(db, t, quota, expiresAt, text, madeAt);
    BooksItsQuota(db', k, g, x, 0, events, i);
  }

  lemma MadeToken(db: Db, t: Id, quota: int, expiresAt: Option<Time>, text: string, madeAt: Time)
    requires Inv(db) && Step(db, GenerateBatchToken(t, Some(quota), expiresAt, text), madeAt).reply.Ok?
    ensures var db' := Step(db, GenerateBatchToken(t, Some(quota), expiresAt, text), madeAt).db;
            && Knows(db', db.nextToken, Grant(t, text, quota, expiresAt, false)) && quota > 0
            && db'.devices == db.devices && LiveDevicesOn(db'.devices, db.nextToken) == {}
  {
    var make := GenerateBatchToken(t, Some(quota), expiresAt, text);
    GenerateAnswer(db, t, Some(quota), expiresAt, text, madeAt);
    GenerateShowsGrant(db, make, madeAt, db.nextToken, None);
    AdminEffect(db, make, madeAt);
    forall h | h in db.devices ensures db.devices[h].activatedVia != Some(db.nextToken) {
      assert BelongsTo(db.subs, db.tokens, db.devices[h].activatedVia.value, db.devices[h].tenantId);
    }
  }
}
