/** How a device's validity date moves over a run, and a subscription's. */
module Validity {
  import opened Wrappers
  import opened Clock
  import opened Verdict
  import opened Ledger
  import opened LedgerInvariant
  import opened SeatProperties
  import opened KeyHistory

  function WindowOf(db: Db, t: Id): int {
    if SubIdOf(db, t).Some? then db.subs[SubIdOf(db, t).value].windowDays else 0
  }

  predicate IsPaid(db: Db, t: Id) {
    SubIdOf(db, t).Some? && t in db.tenants && PaidUp(db, t, SubIdOf(db, t).value)
  }

  predicate Names(op: Op, h: string) {
    || (SeatRequest(op) && op.body.hardwareUuid == Some(h))
    || (op.ReinstateDevice? && op.hw == h)
    || (op.Heartbeat? && op.hwField == Some(h))
  }

  /** The tenant whose subscription pays for a renewal of `h` by this request. */
  function Payer(db: Db, op: Op, h: string): Option<Id> {
    if op.ReinstateDevice? then (if h in db.devices then Some(db.devices[h].tenantId) else None)
    else ActingTenant(db, op)
  }

  /** What a request may do to the validity of a row that it leaves in place:
      nothing, or set it to one window from now, paid for by `Payer`. */
  ghost predicate Renews(db: Db, op: Op, now: Time, h: string, d': Device) {
    && h in db.devices && Names(op, h) && Payer(db, op, h).Some? && SubIdOf(db, Payer(db, op, h).value).Some?
    && d'.validUntil == now + WindowOf(db, Payer(db, op, h).value) * DAY
    && (d'.tenantId == Payer(db, op, h).value || (op.Heartbeat? && d'.tenantId == db.devices[h].tenantId))
    && (IsLive(db, h) ==> d'.tenantId == db.devices[h].tenantId)
    && (!SeatRequest(op) ==> d'.tenantId == db.devices[h].tenantId && IsPaid(db, Payer(db, op, h).value))
  }

  lemma ConsumeUntil(db: Db, op: Op, now: Time, h: string)
    requires h in db.devices && op.ConsumeSeat?
    ensures h in Step(db, op, now).db.devices
    ensures var d := db.devices[h];
            var d' := Step(db, op, now).db.devices[h];
            || (d'.validUntil == d.validUntil && d'.tenantId == d.tenantId)
            || Renews(db, op, now, h, d')
  {
  }

  lemma ReinstateUntil(db: Db, op: Op, now: Time, h: string)
    requires h in db.devices && op.ReinstateDevice?
    ensures h in Step(db, op, now).db.devices
    ensures var d := db.devices[h];
            var d' := Step(db, op, now).db.devices[h];
            || (d'.validUntil == d.validUntil && d'.tenantId == d.tenantId)
            || Renews(db, op, now, h, d')
  {
  }

  lemma HeartbeatUntil(db: Db, op: Op, now: Time, h: string)
    requires h in db.devices && op.Heartbeat?
    ensures h in Step(db, op, now).db.devices
    ensures var d := db.devices[h];
            var d' := Step(db, op, now).db.devices[h];
            || (d'.validUntil == d.validUntil && d'.tenantId == d.tenantId)
            || Renews(db, op, now, h, d')
  {
  }

  lemma ReleaseUntil(db: Db, op: Op, now: Time, h: string)
    requires h in db.devices && (op.RevokeDevice? || op.ReleaseSeat?)
    ensures h in Step(db, op, now).db.devices
    ensures var d := db.devices[h];
            var d' := Step(db, op, now).db.devices[h];
            d'.validUntil == d.validUntil && d'.tenantId == d.tenantId
  {
  }

  lemma StepUntil(db: Db, op: Op, now: Time, h: string)
    requires Inv(db) && h in db.devices && op != DeleteTenant(db.devices[h].tenantId)
    ensures h in Step(db, op, now).db.devices
    ensures var d := db.devices[h];
            var d' := Step(db, op, now).db.devices[h];
            || (d'.validUntil == d.validUntil && d'.tenantId == d.tenantId)
            || Renews(db, op, now, h, d')
  {
    if AdminOp(op) {
      AdminEffect(db, op, now);
    } else if op.CpActivate? || op.PublicActivate? {
      if Step(db, op, now).reply.Ok? {
        ActivationRow(db, op, now);
        if op.body.hardwareUuid == Some(h) && IsLive(db, h) && ActingTenant(db, op) != Some(db.devices[h].tenantId) {
          ForeignDeviceUntouched(db, op, now, h);
        }
      } else {
        RefusedUnchanged(db, op, now);
      }
    } else if op.DeleteTenant? {
      if op.tenantId in db.tenants {
        DeleteIsClean(db, op.tenantId);
      }
    } else if op.ConsumeSeat? {
      ConsumeUntil(db, op, now, h);
    } else if op.ReinstateDevice? {
      ReinstateUntil(db, op, now, h);
    } else if op.Heartbeat? {
      HeartbeatUntil(db, op, now, h);
    } else {
      ReleaseUntil(db, op, now, h);
    }
  }

  /** A row that was not there takes one window of the tenant that the request acts for. */
  lemma NewRowUntil(db: Db, op: Op, now: Time, h: string)
    requires Inv(db) && h !in db.devices && h in Step(db, op, now).db.devices
    ensures Names(op, h) && Payer(db, op, h).Some? && SubIdOf(db, Payer(db, op, h).value).Some?
    ensures Step(db, op, now).db.devices[h].validUntil == now + WindowOf(db, Payer(db, op, h).value) * DAY
  {
    StepEffect(db, op, now);
    if AdminOp(op) {
      AdminEffect(db, op, now);
    } else if Step(db, op, now).reply.Err? {
      RefusedUnchanged(db, op, now);
    } else if op.CpActivate? || op.PublicActivate? {
      ActivationRow(db, op, now);
    } else if op.ConsumeSeat? {
      NewConsumedUntil(db, op.caller, op.body, now, h);
    } else {
      OthersMakeNoRow(db, Step(db, op, now).db, EffectOf(db, op, now), h);
      OtherEffects(db, op, now);
    }
  }

  lemma NewConsumedUntil(db: Db, caller: Option<Id>, body: DeviceBody, now: Time, h: string)
    requires h !in db.devices && h in DoConsumeSeat(db, caller, body, now).db.devices
    ensures body.hardwareUuid == Some(h) && caller.Some? && SubIdOf(db, caller.value).Some?
    ensures DoConsumeSeat(db, caller, body, now).db.devices[h].validUntil == now + WindowOf(db, caller.value) * DAY
  {
  }

  lemma OtherEffects(db: Db, op: Op, now: Time)
    requires !AdminOp(op) && !SeatRequest(op) && Step(db, op, now).reply.Ok?
    ensures EffectOf(db, op, now).Booked? ==> EffectOf(db, op, now).h in db.devices
  {
  }

  /** Only a booking makes a row, the row of the device it books. */
  lemma OthersMakeNoRow(db: Db, db': Db, e: Effect, h: string)
    requires HasEffect(db, db', e) && h !in db.devices && h in db'.devices
    ensures e == Booked(h)
  {
  }

  // ---- the validity clock of a device ------------------------------------------------

  /** After any request a device carries its old date, or one window from now of a
      tenant with a subscription. */
  lemma AnyRowUntil(db: Db, op: Op, now: Time, h: string)
    requires Inv(db) && h in Step(db, op, now).db.devices
    ensures var d' := Step(db, op, now).db.devices[h];
            || (h in db.devices && d'.validUntil == db.devices[h].validUntil)
            || (Names(op, h) && Payer(db, op, h).Some? && SubIdOf(db, Payer(db, op, h).value).Some?
                && d'.validUntil == now + WindowOf(db, Payer(db, op, h).value) * DAY)
  {
    if h !in db.devices {
      NewRowUntil(db, op, now, h);
    } else {
      if op == DeleteTenant(db.devices[h].tenantId) {
        OwnerHasGrace(db, h);
        assert h !in Cascade(db, op.tenantId).devices;
        DeleteIsClean(db, op.tenantId);
      }
      StepUntil(db, op, now, h);
    }
  }

  predicate WindowsIn(subs: map<Id, Subscription>, lo: int, hi: int) {
    forall s :: s in subs ==> lo <= subs[s].windowDays <= hi
  }

  /** Before every request of the run all windows are between `lo` and `hi` days. */
  ghost predicate WindowsWithin(db: Db, events: seq<Event>, lo: int, hi: int)
    decreases |events|
  {
    events != [] ==>
      && WindowsIn(db.subs, lo, hi)
      && WindowsWithin(Step(db, events[0].op, events[0].now).db, events[1..], lo, hi)
  }

  /** No device is valid for more than `w` days from `clock`. */
  ghost predicate Capped(devices: map<string, Device>, clock: Time, w: int) {
    forall h :: h in devices ==> devices[h].validUntil <= clock + w * DAY
  }

  lemma StepCapped(db: Db, clock: Time, op: Op, now: Time, w: int)
    requires Inv(db) && Capped(db.devices, clock, w) && WindowsIn(db.subs, 0, w) && clock <= now
    ensures Capped(Step(db, op, now).db.devices, now, w)
  {
    var devices := Step(db, op, now).db.devices;
    forall h | h in devices ensures devices[h].validUntil <= now + w * DAY {
      AnyRowUntil(db, op, now, h);
    }
  }

  lemma {:induction false} RunCapped(db: Db, clock: Time, events: seq<Event>, w: int)
    requires Inv(db) && Capped(db.devices, clock, w) && Timed(clock, events) && WindowsWithin(db, events, 0, w)
    ensures Capped(Run(db, events).devices, EndTime(clock, events), w)
    decreases |events|
  {
    if events != [] {
      var e := events[0];
      StepCapped(db, clock, e.op, e.now, w);
      StepKeeps(db, e.op, e.now);
      RunCapped(Step(db, e.op, e.now).db, e.now, events[1..], w);
    }
  }

  /** From the empty tables, while no window exceeds `w` days, no device is ever
      valid for more than `w` days, whoever activates, books, beats or takes over. */
  lemma ValidityCeiling(settings: Settings, clock: Time, events: seq<Event>, w: int)
    requires Timed(clock, events) && WindowsWithin(Empty(settings), events, 0, w)
    ensures Capped(Run(Empty(settings), events).devices, EndTime(clock, events), w)
  {
    RunCapped(Empty(settings), clock, events, w);
  }

  /** Every tenant that the run creates gets a window of at most `w` days. */
  predicate CreatedWithin(settings: Settings, events: seq<Event>, w: int) {
    forall i :: 0 <= i < |events| && events[i].op.CreateTenant? ==>
      OrDefault(events[i].op.windowDays, settings.windowDays) <= w
  }

  lemma AdminKeepsWindows(db: Db, op: Op, now: Time, w: int)
    requires Inv(db) && WindowsIn(db.subs, 0, w) && AdminOp(op) && !op.PatchSubscription?
    requires op.CreateTenant? ==> OrDefault(op.windowDays, db.settings.windowDays) <= w
    ensures WindowsIn(Step(db, op, now).db.subs, 0, w) && Step(db, op, now).db.settings == db.settings
  {
    if op.CreateTenant? {
      CreateKeepsWindows(db, op, now, w);
    }
  }

  lemma CreateKeepsWindows(db: Db, op: Op, now: Time, w: int)
    requires Inv(db) && WindowsIn(db.subs, 0, w) && op.CreateTenant?
    requires OrDefault(op.windowDays, db.settings.windowDays) <= w
    ensures WindowsIn(Step(db, op, now).db.subs, 0, w) && Step(db, op, now).db.settings == db.settings
  {
  }

  lemma EffectKeepsWindows(db: Db, db': Db, e: Effect, w: int)
    requires HasEffect(db, db', e) && !e.Admin? && WindowsIn(db.subs, 0, w)
    ensures WindowsIn(db'.subs, 0, w) && db'.settings == db.settings
  {
  }

  /** Without patches a window is what the tenant was created with. */
  lemma {:induction false} UnpatchedWindows(db: Db, events: seq<Event>, w: int)
    requires Inv(db) && WindowsIn(db.subs, 0, w) && CreatedWithin(db.settings, events, w)
    ensures WindowsWithin(db, Unpatched(events), 0, w)
    decreases |events|
  {
    if events != [] {
      var e, rest := events[0], Unpatched(events[1..]);
      assert CreatedWithin(db.settings, events[1..], w);
      if e.op.PatchSubscription? {
        assert Unpatched(events) == [] + rest == rest;
        UnpatchedWindows(db, events[1..], w);
      } else {
        assert ([e] + rest)[1..] == rest;
        assert e.op.CreateTenant? ==> OrDefault(e.op.windowDays, db.settings.windowDays) <= w;
        if AdminOp(e.op) {
          AdminKeepsWindows(db, e.op, e.now, w);
        } else {
          StepEffect(db, e.op, e.now);
          EffectKeepsWindows(db, Step(db, e.op, e.now).db, EffectOf(db, e.op, e.now), w);
        }
        StepKeeps(db, e.op, e.now);
        UnpatchedWindows(Step(db, e.op, e.now).db, events[1..], w);
      }
    }
  }

  /** As written, with no patch ever accepted, the ceiling needs nothing but the
      windows that tenants are created with. */
  lemma CeilingAsWritten(settings: Settings, clock: Time, events: seq<Event>, w: int)
    requires Timed(clock, events) && CreatedWithin(settings, events, w)
    ensures Capped(RunAsWritten(Empty(settings), events).devices, EndTime(clock, events), w)
  {
    AsWrittenIsUnpatched(Empty(settings), events);
    UnpatchedIsTimed(clock, events);
    UnpatchedWindows(Empty(settings), events, w);
    ValidityCeiling(settings, clock, Unpatched(events), w);
  }

  /** The request makes the row of device `h`, or changes its date. */
  ghost predicate Redates(db: Db, op: Op, now: Time, h: string) {
    var devices := Step(db, op, now).db.devices;
    h in devices && (h !in db.devices || devices[h].validUntil != db.devices[h].validUntil)
  }

  /** The window that pays for a new date of `h`, if the request gives it one. */
  function PayingWindow(db: Db, op: Op, h: string): Option<int> {
    match Payer(db, op, h)
    case None => None
    case Some(t) => if SubIdOf(db, t).Some? then Some(WindowOf(db, t)) else None
  }

  /** Whoever gives device `h` a new date along the run has a window of at least `w`
      days. Requests that are refused, or that leave the date alone, do not matter. */
  ghost predicate RenewedFor(db: Db, events: seq<Event>, h: string, w: int)
    decreases |events|
  {
    events != [] ==>
      var e := events[0];
      && (Redates(db, e.op, e.now, h) && PayingWindow(db, e.op, h).Some? ==> PayingWindow(db, e.op, h).value >= w)
      && RenewedFor(Step(db, e.op, e.now).db, events[1..], h, w)
  }

  /** A new date given by a tenant with at least that window is at least one window away. */
  lemma RedatedFar(db: Db, op: Op, now: Time, h: string, w: int)
    requires Inv(db) && Redates(db, op, now, h)
    requires PayingWindow(db, op, h).Some? ==> PayingWindow(db, op, h).value >= w
    ensures PayingWindow(db, op, h).Some? && Step(db, op, now).db.devices[h].validUntil >= now + w * DAY
  {
    AnyRowUntil(db, op, now, h);
    Longer(PayingWindow(db, op, h).value, w);
  }

  lemma Longer(window: int, w: int)
    requires window >= w
    ensures window * DAY >= w * DAY
  {
  }

  /** A device's date falls only to one window of whoever renewed it since: over
      takeovers, deletions, window changes and heartbeats of other tenants. */
  lemma {:induction false} ValidityFloor(db: Db, clock: Time, events: seq<Event>, h: string, w: int)
    requires Inv(db) && Timed(clock, events) && RenewedFor(db, events, h, w) && h in Run(db, events).devices
    ensures var until := Run(db, events).devices[h].validUntil;
            until >= clock + w * DAY || (h in db.devices && until >= db.devices[h].validUntil)
    decreases |events|
  {
    if events != [] {
      var e := events[0];
      StepKeeps(db, e.op, e.now);
      ValidityFloor(Step(db, e.op, e.now).db, e.now, events[1..], h, w);
      if Redates(db, e.op, e.now, h) {
        RedatedFar(db, e.op, e.now, h, w);
      }
    }
  }

  lemma {:induction false} WindowsRenew(db: Db, events: seq<Event>, h: string, w: int, hi: int)
    requires WindowsWithin(db, events, w, hi)
    ensures RenewedFor(db, events, h, w)
    decreases |events|
  {
    if events != [] {
      WindowsRenew(Step(db, events[0].op, events[0].now).db, events[1..], h, w, hi);
    }
  }

  lemma {:induction false} WindowsWiden(db: Db, events: seq<Event>, lo: int, hi: int)
    requires WindowsWithin(db, events, lo, hi) && lo >= 0
    ensures WindowsWithin(db, events, 0, hi)
    decreases |events|
  {
    if events != [] {
      WindowsWiden(Step(db, events[0].op, events[0].now).db, events[1..], lo, hi);
    }
  }

  /** With all windows at `w` days, a device's date never moves back and never
      exceeds one window from now: between any two moments of any run from the
      empty tables, whoever makes the requests. */
  lemma ValidityClock(settings: Settings, clock: Time, past: seq<Event>, events: seq<Event>, h: string, w: int)
    requires w >= 0 && Timed(clock, past) && Timed(EndTime(clock, past), events)
    requires WindowsWithin(Empty(settings), past, 0, w)
    requires WindowsWithin(Run(Empty(settings), past), events, w, w)
    ensures var earlier, later := Run(Empty(settings), past).devices, Run(Run(Empty(settings), past), events).devices;
            && (h in later ==> later[h].validUntil <= EndTime(EndTime(clock, past), events) + w * DAY)
            && (h in earlier && h in later ==> earlier[h].validUntil <= later[h].validUntil)
  {
    var db := Run(Empty(settings), past);
    var now := EndTime(clock, past);
    RunKeeps(Empty(settings), past);
    ValidityCeiling(settings, clock, past, w);
    WindowsWiden(db, events, w, w);
    RunCapped(db, now, events, w);
    WindowsRenew(db, events, h, w, w);
    if h in Run(db, events).devices {
      ValidityFloor(db, now, events, h, w);
    }
  }

  lemma HeartbeatRow(db: Db, t: Id, h: string, key: string, now: Time)
    requires Inv(db) && Step(db, Heartbeat(Some(t), Some(h), key), now).reply.Ok? && IsPaid(db, t)
    ensures var db' := Step(db, Heartbeat(Some(t), Some(h), key), now).db;
            && IsLive(db, h) && IsLive(db', h) && db.devices[h].licenseKey == key
            && db'.devices[h].tenantId == db.devices[h].tenantId
            && db'.devices[h].validUntil == now + WindowOf(db, t) * DAY
  {
  }

  /** After a heartbeat paid by any tenant the device is ACTIVE, unless revoked, at
      every moment of that tenant's window, over every run in which whoever gives
      the device a new date has at least that window. Deletion, takeover, window
      changes and refused requests of any kind may occur. */
  lemma HeartbeatKeepsActive(db: Db, t: Id, h: string, key: string, beat: Time, events: seq<Event>, now: Time)
    requires Inv(db) && IsPaid(db, t)
    requires Step(db, Heartbeat(Some(t), Some(h), key), beat).reply.Ok?
    requires var db' := Step(db, Heartbeat(Some(t), Some(h), key), beat).db;
             Timed(beat, events) && RenewedFor(db', events, h, WindowOf(db, t))
    requires now <= beat + WindowOf(db, t) * DAY
    ensures UpAt(Run(Step(db, Heartbeat(Some(t), Some(h), key), beat).db, events), h, now)
  {
    var db' := Step(db, Heartbeat(Some(t), Some(h), key), beat).db;
    var after := Run(db', events);
    HeartbeatRow(db, t, h, key, beat);
    StepKeeps(db, Heartbeat(Some(t), Some(h), key), beat);
    RunKeeps(db', events);
    if h in after.devices {
      ValidityFloor(db', beat, events, h, WindowOf(db, t));
      ValidIsUp(after, h, now);
    }
  }

  /** The device, if there is one, is ACTIVE at that moment, or revoked. */
  predicate UpAt(db: Db, h: string, now: Time) {
    h in db.devices ==> RowState(db, h, now) == if IsLive(db, h) then ACTIVE else REVOKED
  }

  lemma ValidIsUp(db: Db, h: string, now: Time)
    requires Inv(db) && h in db.devices && now <= db.devices[h].validUntil
    ensures UpAt(db, h, now)
  {
    OwnerHasGrace(db, h);
    StateIsInterval(db.devices[h].validUntil, GraceDaysOf(db, db.devices[h].tenantId), now);
  }

  /** The request is an accepted heartbeat for `h`, paid for by a window of at least `w` days. */
  ghost predicate Beats(db: Db, op: Op, now: Time, h: string, w: int) {
    && op.Heartbeat? && op.hwField == Some(h) && Step(db, op, now).reply.Ok?
    && op.caller.Some? && IsPaid(db, op.caller.value) && WindowOf(db, op.caller.value) >= w
  }

  /** From the heartbeat at `last` on, no `w` days pass without the next one: every
      request, and the end of the run at `end`, comes within `w` days of the last. */
  ghost predicate NoGap(db: Db, events: seq<Event>, h: string, w: int, last: Time, end: Time)
    decreases |events|
  {
    if events == [] then end <= last + w * DAY
    else
      var e := events[0];
      && e.now <= last + w * DAY
      && NoGap(Step(db, e.op, e.now).db, events[1..], h, w, if Beats(db, e.op, e.now, h, w) then e.now else last, end)
  }

  /** Between any two requests of the run, and from the last one to `end`, the device
      is up at every moment. */
  ghost predicate UpThroughout(db: Db, clock: Time, events: seq<Event>, h: string, end: Time)
    decreases |events|
  {
    if events == [] then forall now :: clock <= now <= end ==> UpAt(db, h, now)
    else
      && (forall now :: clock <= now <= events[0].now ==> UpAt(db, h, now))
      && UpThroughout(Step(db, events[0].op, events[0].now).db, events[0].now, events[1..], h, end)
  }

  /** A device that is good for `w` days at `last`, and then hears a paid heartbeat at
      least every `w` days, is ACTIVE, unless revoked, at every moment of the run. */
  lemma {:induction false} HeartbeatsLeaveNoGap(db: Db, clock: Time, events: seq<Event>, h: string, w: int,
                                                last: Time, end: Time)
    requires Inv(db) && Timed(clock, events) && last <= clock && RenewedFor(db, events, h, w)
    requires NoGap(db, events, h, w, last, end)
    requires h in db.devices ==> db.devices[h].validUntil >= last + w * DAY
    ensures UpThroughout(db, clock, events, h, end)
    decreases |events|
  {
    var next := if events == [] then end else events[0].now;
    forall now | clock <= now <= next ensures UpAt(db, h, now) {
      if h in db.devices {
        ValidIsUp(db, h, now);
      }
    }
    if events != [] {
      var e := events[0];
      var db' := Step(db, e.op, e.now).db;
      StepKeeps(db, e.op, e.now);
      if Redates(db, e.op, e.now, h) {
        RedatedFar(db, e.op, e.now, h, w);
      }
      if Beats(db, e.op, e.now, h, w) {
        HeartbeatRow(db, e.op.caller.value, h, e.op.key, e.now);
        Longer(WindowOf(db, e.op.caller.value), w);
      }
      HeartbeatsLeaveNoGap(db', e.now, events[1..], h, w, if Beats(db, e.op, e.now, h, w) then e.now else last, end);
    }
  }

  lemma OwnerHasGrace(db: Db, h: string)
    requires Inv(db) && h in db.devices
    ensures SubIdOf(db, db.devices[h].tenantId).Some? && GraceDaysOf(db, db.devices[h].tenantId) >= 0
  {
    var d := db.devices[h];
    assert BelongsTo(db.subs, db.tokens, d.activatedVia.value, d.tenantId);
    assert SubscriptionChecks(db.subs[SubIdOf(db, d.tenantId).value]);
  }

  /** A device of the calling tenant hears from its heartbeat what a verification
      with the same key would say at that moment. */
  lemma HeartbeatAgreesWithVerify(db: Db, h: string, key: string, now: Time)
    requires Inv(db) && h in db.devices && key != ""
    requires Step(db, Heartbeat(Some(db.devices[h].tenantId), Some(h), key), now).reply.Ok?
    ensures var t := db.devices[h].tenantId;
            var o := Step(db, Heartbeat(Some(t), Some(h), key), now);
            && o.reply.value.Status?
            && VerifyDevice(o.db, Some(t), Some(h), key, now)
               == Ok(DeviceVerdict(Usable(o.reply.value.state), o.reply.value.state))
  {
  }

  /** The documented offline rule, fed with a verdict that the server gave, agrees
      with what the server would answer at every later moment while nothing changes. */
  lemma OfflineAgreesWithVerify(db: Db, h: string, key: string, checked: Time, now: Time)
    requires Inv(db) && h in db.devices && key != "" && key == db.devices[h].licenseKey && checked <= now
    ensures var d := db.devices[h];
            var cached := VerifyDevice(db, Some(d.tenantId), Some(h), key, checked);
            var online := VerifyDevice(db, Some(d.tenantId), Some(h), key, now);
            && cached.Ok? && online.Ok?
            && (online.value.valid
                <==> OfflineAllows(cached.value.state, d.validUntil, GraceDaysOf(db, d.tenantId), now))
  {
    var d := db.devices[h];
    OwnerHasGrace(db, h);
    OfflineAgrees(d.isRevoked, d.validUntil, GraceDaysOf(db, d.tenantId), checked, now);
  }

  /** A tenant starts under a new id, paid up, valid for one window and without
      devices. It has a free seat unless the configured default is to give none: a
      requested limit of zero counts as no request. */
  lemma NewTenantStarts(db: Db, seats: Option<int>, window: Option<int>, grace: Option<int>, now: Time)
    requires Inv(db) && Step(db, CreateTenant(seats, window, grace), now).reply.Ok?
    ensures var o := Step(db, CreateTenant(seats, window, grace), now);
            && o.reply.value.Created?
            && var t := o.reply.value.id;
               && t !in db.tenants && o.db.tenants.Keys == db.tenants.Keys + {t}
               && IsPaid(o.db, t) && SeatsInUse(o.db, t) == 0
               && (HasFreeSeat(o.db, t)
                   <==> (seats.Some? && seats.value != 0) || db.settings.seatLimit > 0)
               && o.db.subs[SubIdOf(o.db, t).value].validUntil == now + WindowOf(o.db, t) * DAY > now
               && (seats.Some? && seats.value > 0 ==> o.db.subs[SubIdOf(o.db, t).value].seatLimit == seats.value)
               && (window.Some? && window.value > 0 ==> WindowOf(o.db, t) == window.value)
               && (grace.Some? && grace.value > 0 ==> GraceDaysOf(o.db, t) == grace.value)
  {
    var t := db.nextTenant;
    assert t !in db.tenants;
    UnknownTenantHasNoDevices(db, t);
  }

  /** A heartbeat with the right key extends a live device exactly when the calling
      tenant is paid up and its window reaches further, whatever the state of the
      tenant that owns the device; paid, it leaves the device ACTIVE. */
  lemma HeartbeatExtendsIff(db: Db, caller: Id, h: string, now: Time)
    requires Inv(db) && IsLive(db, h) && caller in db.tenants
    ensures var d := db.devices[h];
            var o := Step(db, Heartbeat(Some(caller), Some(h), d.licenseKey), now);
            && o.reply.Ok? && h in o.db.devices
            && (o.db.devices[h].validUntil > d.validUntil
                <==> IsPaid(db, caller) && now + WindowOf(db, caller) * DAY > d.validUntil)
            && (IsPaid(db, caller) ==> RowState(o.db, h, now) == ACTIVE)
  {
    var o := Step(db, Heartbeat(Some(caller), Some(h), db.devices[h].licenseKey), now);
    StepKeeps(db, Heartbeat(Some(caller), Some(h), db.devices[h].licenseKey), now);
    OwnerHasGrace(o.db, h);
    if IsPaid(db, caller) {
      assert SubscriptionChecks(db.subs[SubIdOf(db, caller).value]);
      HeartbeatRow(db, caller, h, db.devices[h].licenseKey, now);
      StateIsInterval(o.db.devices[h].validUntil, GraceDaysOf(o.db, o.db.devices[h].tenantId), now);
    }
  }

  // ---- suspension ----------------------------------------------------------------------

  /** Unless refused, the request neither reactivates nor deletes tenant `t`, is no
      activation by `t` of its device `h` nor any re-booking of a revoked `h`, and is
      no heartbeat for `h` of a tenant that is paid up. */
  ghost predicate Quiet(db: Db, op: Op, h: string, t: Id) {
    && op != SetTenantStatus(t, TenantActive) && op != DeleteTenant(t)
    && (SeatRequest(op) && op.body.hardwareUuid == Some(h) ==>
          IsLive(db, h) && !(op.CpActivate? && op.caller == Some(t)))
    && (op.Heartbeat? && op.hwField == Some(h) && op.caller.Some? ==> !IsPaid(db, op.caller.value))
  }

  ghost predicate StaysQuiet(db: Db, events: seq<Event>, h: string, t: Id)
    decreases |events|
  {
    events != [] ==>
      && (Step(db, events[0].op, events[0].now).reply.Ok? ==> Quiet(db, events[0].op, h, t))
      && StaysQuiet(Step(db, events[0].op, events[0].now).db, events[1..], h, t)
  }

  predicate NotActive(db: Db, t: Id) {
    t in db.tenants && db.tenants[t].status != TenantActive
  }

  /** No row effect but a deletion touches tenants or subscriptions. */
  lemma EffectKeepsTenants(db: Db, db': Db, e: Effect)
    requires HasEffect(db, db', e) && !e.Admin? && !e.Cascaded?
    ensures db'.tenants == db.tenants && db'.subs == db.subs && db'.subOf == db.subOf
  {
  }

  lemma StatusStaysNotActive(db: Db, u: Id, status: TenantStatus, t: Id)
    requires NotActive(db, t) && !(u == t && status == TenantActive)
    ensures NotActive(DoSetTenantStatus(db, u, status).db, t)
  {
  }

  lemma NewTenantLeavesOthers(db: Db, op: Op, now: Time, t: Id)
    requires Inv(db) && op.CreateTenant? && NotActive(db, t)
    ensures NotActive(Step(db, op, now).db, t)
  {
    assert t < db.nextTenant;
  }

  lemma TenantsUntouched(db: Db, op: Op, now: Time)
    requires op.PatchSubscription? || op.GenerateBatchToken? || op.RevokeBatchToken? || op.RecordPayment?
    ensures Step(db, op, now).db.tenants == db.tenants
  {
  }

  lemma AdminStaysNotActive(db: Db, op: Op, now: Time, t: Id)
    requires Inv(db) && AdminOp(op) && NotActive(db, t) && op != SetTenantStatus(t, TenantActive)
    ensures NotActive(Step(db, op, now).db, t)
  {
    if op.SetTenantStatus? {
      StatusStaysNotActive(db, op.tenantId, op.tenantStatus, t);
    } else if op.CreateTenant? {
      NewTenantLeavesOthers(db, op, now, t);
    } else {
      TenantsUntouched(db, op, now);
    }
  }

  lemma StaysNotActive(db: Db, op: Op, now: Time, t: Id)
    requires Inv(db) && NotActive(db, t) && op != SetTenantStatus(t, TenantActive) && op != DeleteTenant(t)
    ensures NotActive(Step(db, op, now).db, t)
  {
    if AdminOp(op) {
      AdminStaysNotActive(db, op, now, t);
    } else {
      var e := EffectOf(db, op, now);
      StepEffect(db, op, now);
      if !e.Cascaded? {
        EffectKeepsTenants(db, Step(db, op, now).db, e);
      }
    }
  }

  lemma QuietKeepsDate(db: Db, op: Op, now: Time, h: string, t: Id)
    requires Inv(db) && NotActive(db, t) && h in db.devices && db.devices[h].tenantId == t && Quiet(db, op, h, t)
    ensures var devices := Step(db, op, now).db.devices;
            h in devices && devices[h].tenantId == t && devices[h].validUntil == db.devices[h].validUntil
  {
    StepUntil(db, op, now, h);
    if Names(op, h) && (op.CpActivate? || op.PublicActivate?) {
      LiveActivationRefused(db, op, now, h, t);
    } else if op.ConsumeSeat? && Names(op, h) {
      LiveIsOnlyTouched(db, h, op.caller, op.body, now);
    }
  }

  /** While its tenant is not active, a live device is activated by no one but the
      tenant's own service token. */
  lemma LiveActivationRefused(db: Db, op: Op, now: Time, h: string, t: Id)
    requires Inv(db) && NotActive(db, t) && IsLive(db, h) && db.devices[h].tenantId == t
    requires (op.CpActivate? || op.PublicActivate?) && Names(op, h) && !(op.CpActivate? && op.caller == Some(t))
    ensures Step(db, op, now).db == db
  {
    if Step(db, op, now).reply.Err? {
      RefusedUnchanged(db, op, now);
    } else {
      ActivationRow(db, op, now);
      if ActingTenant(db, op) != Some(t) {
        ForeignDeviceUntouched(db, op, now, h);
      }
    }
  }

  /** While its tenant is not active, neither payments, nor heartbeats of tenants
      that are not paid up, nor revocations, reinstatements or other tenants'
      activations move a device's validity. */
  lemma {:induction false} SuspensionFreezes(db: Db, events: seq<Event>, h: string, t: Id)
    requires Inv(db) && NotActive(db, t) && h in db.devices && db.devices[h].tenantId == t
    requires StaysQuiet(db, events, h, t)
    ensures var after := Run(db, events);
            && NotActive(after, t) && h in after.devices && after.devices[h].tenantId == t
            && after.devices[h].validUntil == db.devices[h].validUntil
    decreases |events|
  {
    if events != [] {
      var e := events[0];
      if Step(db, e.op, e.now).reply.Err? {
        RefusedUnchanged(db, e.op, e.now);
      } else {
        QuietKeepsDate(db, e.op, e.now, h, t);
        StaysNotActive(db, e.op, e.now, t);
      }
      StepKeeps(db, e.op, e.now);
      SuspensionFreezes(Step(db, e.op, e.now).db, events[1..], h, t);
    }
  }

  lemma SuspendsAndKeepsDevices(db: Db, t: Id, now: Time)
    requires Inv(db) && Step(db, SetTenantStatus(t, TenantSuspended), now).reply.Ok?
    ensures var db' := Step(db, SetTenantStatus(t, TenantSuspended), now).db;
            NotActive(db', t) && db'.devices == db.devices
  {
  }

  /** Suspend a tenant at any point of any run from the empty tables in which no
      window exceeded `w` days. At every moment more than window plus grace later,
      each of its devices is expired or revoked and no key verifies it, unless it
      was reactivated or renewed in one of the ways that `Quiet` names. */
  lemma SuspendedExpires(settings: Settings, clock: Time, past: seq<Event>, start: Time, t: Id, events: seq<Event>,
                         h: string, w: int, g: int, key: string, now: Time)
    requires Timed(clock, past) && EndTime(clock, past) <= start && WindowsWithin(Empty(settings), past, 0, w)
    requires Step(Run(Empty(settings), past), SetTenantStatus(t, TenantSuspended), start).reply.Ok?
    requires var suspended := Step(Run(Empty(settings), past), SetTenantStatus(t, TenantSuspended), start).db;
             && h in suspended.devices && suspended.devices[h].tenantId == t
             && StaysQuiet(suspended, events, h, t)
             && GraceDaysOf(Run(suspended, events), t) <= g && now > start + (w + g) * DAY
    ensures var suspended := Step(Run(Empty(settings), past), SetTenantStatus(t, TenantSuspended), start).db;
            var after := Run(suspended, events);
            && h in after.devices
            && RowState(after, h, now) == (if IsLive(after, h) then EXPIRED else REVOKED)
            && (var verdict := VerifyDevice(after, Some(t), Some(h), key, now); verdict.Ok? && !verdict.value.valid)
  {
    var db := Run(Empty(settings), past);
    var suspended := Step(db, SetTenantStatus(t, TenantSuspended), start).db;
    RunKeeps(Empty(settings), past);
    ValidityCeiling(settings, clock, past, w);
    SuspendsAndKeepsDevices(db, t, start);
    StepKeeps(db, SetTenantStatus(t, TenantSuspended), start);
    ExpiredAfter(suspended, start, events, h, t, w, g, key, now);
  }

  lemma ExpiredAfter(db: Db, start: Time, events: seq<Event>, h: string, t: Id, w: int, g: int, key: string, now: Time)
    requires Inv(db) && NotActive(db, t) && h in db.devices && db.devices[h].tenantId == t
    requires db.devices[h].validUntil <= start + w * DAY && StaysQuiet(db, events, h, t)
    requires GraceDaysOf(Run(db, events), t) <= g && now > start + (w + g) * DAY
    ensures var after := Run(db, events);
            && h in after.devices
            && RowState(after, h, now) == (if IsLive(after, h) then EXPIRED else REVOKED)
            && (var verdict := VerifyDevice(after, Some(t), Some(h), key, now); verdict.Ok? && !verdict.value.valid)
  {
    var after := Run(db, events);
    SuspensionFreezes(db, events, h, t);
    RunKeeps(db, events);
    OwnerHasGrace(after, h);
    var grace, until := GraceDaysOf(after, t), after.devices[h].validUntil;
    assert until + grace * DAY < now by {
      assert grace * DAY <= g * DAY;
    }
    LateIsInvalid(after, h, t, key, now);
  }

  lemma LateIsInvalid(db: Db, h: string, t: Id, key: string, now: Time)
    requires t in db.tenants && h in db.devices && db.devices[h].tenantId == t && GraceDaysOf(db, t) >= 0
    requires db.devices[h].validUntil + GraceDaysOf(db, t) * DAY < now
    ensures RowState(db, h, now) == if IsLive(db, h) then EXPIRED else REVOKED
    ensures var verdict := VerifyDevice(db, Some(t), Some(h), key, now); verdict.Ok? && !verdict.value.valid
  {
    StateIsInterval(db.devices[h].validUntil, GraceDaysOf(db, t), now);
  }

  // ---- payments ----------------------------------------------------------------------------

  /** The validity after paying at the given times with a window of `w`. */
  function PayAll(v: Time, w: int, times: seq<Time>): Time
    decreases |times|
  {
    if times == [] then v else PayAll(Max(times[0], v) + w, w, times[1..])
  }

  /** The date reached by counting payment `i` and the later ones from the moment
      of payment `i`. */
  function CountedFrom(times: seq<Time>, w: int, i: nat): Time
    requires i < |times|
  {
    times[i] + (|times| - i) * w
  }

  lemma CountedFromTail(times: seq<Time>, w: int, i: nat)
    requires 0 < i < |times|
    ensures CountedFrom(times, w, i) == CountedFrom(times[1..], w, i - 1)
  {
  }

  lemma OneMoreWindow(n: nat, w: int)
    requires n > 0
    ensures (n - 1) * w + w == n * w
  {
  }

  /** The closed form: the best over counting every payment from the old date,
      or from the moment of one of the payments. */
  lemma {:induction false} PaymentsNeverLoseDays(v: Time, w: int, times: seq<Time>)
    ensures var r := PayAll(v, w, times);
            && r >= v + |times| * w
            && (forall i :: 0 <= i < |times| ==> r >= CountedFrom(times, w, i))
            && (r == v + |times| * w || exists i :: 0 <= i < |times| && r == CountedFrom(times, w, i))
    decreases |times|
  {
    if times != [] {
      var rest := times[1..];
      var v' := Max(times[0], v) + w;
      var r := PayAll(v, w, times);
      PaymentsNeverLoseDays(v', w, rest);
      OneMoreWindow(|times|, w);
      assert CountedFrom(times, w, 0) == times[0] + |times| * w;
      forall i | 0 <= i < |times| ensures r >= CountedFrom(times, w, i) {
        if i > 0 {
          CountedFromTail(times, w, i);
        }
      }
      if r != v' + |rest| * w {
        var i :| 0 <= i < |rest| && r == CountedFrom(rest, w, i);
        CountedFromTail(times, w, i + 1);
      }
    }
  }

  /** The times of the payments that the run accepts for tenant `t`. */
  function PaymentTimes(db: Db, events: seq<Event>, t: Id): seq<Time>
    decreases |events|
  {
    if events == [] then []
    else
      var o := Step(db, events[0].op, events[0].now);
      (if events[0].op.RecordPayment? && events[0].op.tenantId == t && o.reply.Ok? then [events[0].now] else [])
      + PaymentTimes(o.db, events[1..], t)
  }

  /** The tenant exists with a window of `w` days before every request of the run. */
  ghost predicate WindowFixed(db: Db, events: seq<Event>, t: Id, w: int)
    decreases |events|
  {
    && SubIdOf(db, t).Some?
    && (events != [] ==>
          WindowOf(db, t) == w && WindowFixed(Step(db, events[0].op, events[0].now).db, events[1..], t, w))
  }

  lemma PaymentSubUntil(db: Db, op: Op, now: Time, t: Id)
    requires Inv(db) && op.RecordPayment? && SubIdOf(db, t).Some?
    ensures var o := Step(db, op, now);
            var sub := db.subs[SubIdOf(db, t).value];
            && SubIdOf(o.db, t).Some?
            && o.db.subs[SubIdOf(o.db, t).value].validUntil
               == if op.tenantId == t && o.reply.Ok? then Max(now, sub.validUntil) + sub.windowDays * DAY
                  else sub.validUntil
  {
  }

  lemma CreateSubUntil(db: Db, op: Op, now: Time, t: Id)
    requires Inv(db) && op.CreateTenant? && SubIdOf(db, t).Some?
    ensures var db' := Step(db, op, now).db;
            && SubIdOf(db', t) == SubIdOf(db, t)
            && db'.subs[SubIdOf(db, t).value] == db.subs[SubIdOf(db, t).value]
  {
  }

  lemma PatchSubUntil(db: Db, op: Op, now: Time, t: Id)
    requires Inv(db) && op.PatchSubscription? && SubIdOf(db, t).Some?
    ensures var db' := Step(db, op, now).db;
            && SubIdOf(db', t) == SubIdOf(db, t)
            && db'.subs[SubIdOf(db, t).value].validUntil == db.subs[SubIdOf(db, t).value].validUntil
  {
  }

  lemma OtherSubUntil(db: Db, op: Op, now: Time, t: Id)
    requires Inv(db) && AdminOp(op) && !op.RecordPayment? && SubIdOf(db, t).Some?
    requires SubIdOf(Step(db, op, now).db, t).Some?
    ensures var db' := Step(db, op, now).db;
            db'.subs[SubIdOf(db', t).value].validUntil == db.subs[SubIdOf(db, t).value].validUntil
  {
    if op.CreateTenant? {
      CreateSubUntil(db, op, now, t);
    } else if op.PatchSubscription? {
      PatchSubUntil(db, op, now, t);
    }
  }

  lemma AdminSubUntil(db: Db, op: Op, now: Time, t: Id)
    requires Inv(db) && AdminOp(op) && SubIdOf(db, t).Some? && SubIdOf(Step(db, op, now).db, t).Some?
    ensures var o := Step(db, op, now);
            var sub := db.subs[SubIdOf(db, t).value];
            o.db.subs[SubIdOf(o.db, t).value].validUntil
            == if op.RecordPayment? && op.tenantId == t && o.reply.Ok?
               then Max(now, sub.validUntil) + sub.windowDays * DAY
               else sub.validUntil
  {
    if op.RecordPayment? {
      PaymentSubUntil(db, op, now, t);
    } else {
      OtherSubUntil(db, op, now, t);
    }
  }

  lemma SubUntil(db: Db, op: Op, now: Time, t: Id)
    requires Inv(db) && SubIdOf(db, t).Some? && SubIdOf(Step(db, op, now).db, t).Some?
    ensures var o := Step(db, op, now);
            var sub := db.subs[SubIdOf(db, t).value];
            o.db.subs[SubIdOf(o.db, t).value].validUntil
            == if op.RecordPayment? && op.tenantId == t && o.reply.Ok?
               then Max(now, sub.validUntil) + sub.windowDays * DAY
               else sub.validUntil
  {
    if AdminOp(op) {
      AdminSubUntil(db, op, now, t);
    } else {
      var e := EffectOf(db, op, now);
      StepEffect(db, op, now);
      if !e.Cascaded? {
        EffectKeepsTenants(db, Step(db, op, now).db, e);
      }
    }
  }

  /** Over any run with a fixed window, only accepted payments move the
      subscription's date, and they move it to the closed form above. */
  lemma {:induction false} SubscriptionFollowsPayments(db: Db, events: seq<Event>, t: Id, w: int)
    requires Inv(db) && WindowFixed(db, events, t, w)
    ensures var after := Run(db, events);
            && SubIdOf(after, t).Some?
            && after.subs[SubIdOf(after, t).value].validUntil
               == PayAll(db.subs[SubIdOf(db, t).value].validUntil, w * DAY, PaymentTimes(db, events, t))
    decreases |events|
  {
    if events != [] {
      var e := events[0];
      var rest := PaymentTimes(Step(db, e.op, e.now).db, events[1..], t);
      assert ([e.now] + rest)[1..] == rest && [] + rest == rest;
      SubUntil(db, e.op, e.now, t);
      StepKeeps(db, e.op, e.now);
      SubscriptionFollowsPayments(Step(db, e.op, e.now).db, events[1..], t, w);
    }
  }
}
