/** The life of a license key: who holds one, what replaces one, and that a
    replaced one is dead for good. Key secrets come from a source that never
    repeats itself; `minted` is the set already handed out. */
module KeyHistory {
  import opened Wrappers
  import opened Clock
  import opened Verdict
  import opened Ledger
  import opened LedgerInvariant
  import opened SeatProperties

  function SecretsOf(op: Op): set<string> {
    if op.CpActivate? || op.PublicActivate? then {op.secret} else {}
  }

  /** Every activation of the run is given a secret never used before. */
  predicate FreshSecrets(minted: set<string>, events: seq<Event>)
    decreases |events|
  {
    events != [] ==>
      && SecretsOf(events[0].op) !! minted
      && FreshSecrets(minted + SecretsOf(events[0].op), events[1..])
  }

  /** The secrets handed out once the run is over. */
  function MintedAfter(minted: set<string>, events: seq<Event>): set<string>
    decreases |events|
  {
    if events == [] then minted else MintedAfter(minted + SecretsOf(events[0].op), events[1..])
  }

  lemma {:induction false} FreshJoins(minted: set<string>, past: seq<Event>, events: seq<Event>)
    ensures FreshSecrets(minted, past + events)
       <==> FreshSecrets(minted, past) && FreshSecrets(MintedAfter(minted, past), events)
    decreases |past|
  {
    if past == [] {
      assert past + events == events;
    } else {
      assert (past + events)[1..] == past[1..] + events;
      FreshJoins(minted + SecretsOf(past[0].op), past[1..], events);
    }
  }

  /** A stored key is a minted one or the placeholder of its own hardware, and
      no two devices share a key. */
  ghost predicate KeysKnown(devices: map<string, Device>, minted: set<string>) {
    && (forall h :: h in devices ==>
          devices[h].licenseKey == ExtKey(h) || exists x :: x in minted && devices[h].licenseKey == LicKey(x))
    && (forall g, h :: g in devices && h in devices && g != h ==> devices[g].licenseKey != devices[h].licenseKey)
  }

  /** No device answers to the key minted from secret `x`. */
  ghost predicate Retired(db: Db, x: string) {
    forall h :: h in db.devices ==> db.devices[h].licenseKey != LicKey(x)
  }

  lemma KeysAreDistinct(x: string, y: string, h: string)
    ensures LicKey(x) == LicKey(y) ==> x == y
    ensures LicKey(x) != ExtKey(h)
    ensures LicKey(x) != ""
  {
    assert LicKey(x)[4..] == x && LicKey(y)[4..] == y;
    assert LicKey(x)[0] == 'L' && ExtKey(h)[0] == 'E';
  }

  lemma ExtKeysAreDistinct(g: string, h: string)
    ensures ExtKey(g) == ExtKey(h) ==> g == h
  {
    assert ExtKey(g)[4..] == g && ExtKey(h)[4..] == h;
  }

  /** The row a successful `_do_activate` leaves behind. */
  lemma ActivateRow(db: Db, t: Id, s: Id, k: Id, body: DeviceBody, secret: string, now: Time)
    requires s in db.subs && k in db.tokens && DoActivate(db, t, s, k, body, secret, now).reply.Ok?
    ensures body.hardwareUuid.Some?
    ensures var h := body.hardwareUuid.value;
            var o := DoActivate(db, t, s, k, body, secret, now);
            && o.reply == Ok(Activated(LicKey(secret), IsLive(db, h)))
            && o.db == db.(tokens := o.db.tokens, devices := db.devices[h := o.db.devices[h]])
            && IsLive(o.db, h) && o.db.devices[h].tenantId == t && o.db.devices[h].licenseKey == LicKey(secret)
            && o.db.devices[h].validUntil == now + db.subs[s].windowDays * DAY
  {
  }

  /** The same, through either activation request. */
  lemma ActivationRow(db: Db, op: Op, now: Time)
    requires Inv(db) && (op.CpActivate? || op.PublicActivate?) && Step(db, op, now).reply.Ok?
    ensures op.body.hardwareUuid.Some? && ActingTenant(db, op).Some?
    ensures var h := op.body.hardwareUuid.value;
            var t := ActingTenant(db, op).value;
            var o := Step(db, op, now);
            && t in db.tenants && SubIdOf(db, t).Some?
            && o.reply == Ok(Activated(LicKey(op.secret), IsLive(db, h)))
            && o.db == db.(tokens := o.db.tokens, devices := db.devices[h := o.db.devices[h]])
            && IsLive(o.db, h) && o.db.devices[h].tenantId == t && o.db.devices[h].licenseKey == LicKey(op.secret)
            && o.db.devices[h].validUntil == now + db.subs[SubIdOf(db, t).value].windowDays * DAY
  {
    var k := TokenIdOf(db, op.body.token.value).value;
    ActivateRow(db, ActingTenant(db, op).value, db.tokens[k].subscriptionId, k, op.body, op.secret, now);
  }

  lemma ConsumedRowKey(db: Db, caller: Option<Id>, body: DeviceBody, now: Time, h: string)
    requires h in DoConsumeSeat(db, caller, body, now).db.devices
    ensures var d' := DoConsumeSeat(db, caller, body, now).db.devices[h];
            || (h in db.devices && d'.licenseKey == db.devices[h].licenseKey)
            || (body.hardwareUuid == Some(h) && d'.licenseKey == ExtKey(h))
  {
  }

  predicate KeepsKeys(db: Db, db': Db, h: string) {
    h in db'.devices ==> h in db.devices && db'.devices[h].licenseKey == db.devices[h].licenseKey
  }

  lemma ReinstateKeepsKeys(db: Db, hw: string, now: Time, h: string)
    ensures KeepsKeys(db, DoReinstate(db, hw, now).db, h)
  {
  }

  lemma HeartbeatKeepsKeys(db: Db, caller: Option<Id>, hwField: Option<string>, key: string, now: Time, h: string)
    ensures KeepsKeys(db, DoHeartbeat(db, caller, hwField, key, now).db, h)
  {
  }

  lemma FreeingKeepsKeys(db: Db, hw: string, h: string)
    ensures KeepsKeys(db, DoRevokeDevice(db, hw).db, h) && KeepsKeys(db, DoReleaseSeat(db, hw).db, h)
  {
  }

  lemma KeptRowKey(db: Db, op: Op, now: Time, h: string)
    requires op.ReinstateDevice? || op.Heartbeat? || op.RevokeDevice? || op.ReleaseSeat?
    ensures KeepsKeys(db, Step(db, op, now).db, h)
  {
    match op
    case ReinstateDevice(hw) => ReinstateKeepsKeys(db, hw, now, h);
    case Heartbeat(caller, hwField, key) => HeartbeatKeepsKeys(db, caller, hwField, key, now, h);
    case RevokeDevice(hw) => FreeingKeepsKeys(db, hw, h);
    case ReleaseSeat(_, hw) => FreeingKeepsKeys(db, hw, h);
  }

  /** The device rows after a request: every row is an old row with its key, or
      the one row the request wrote, whose key is minted now or its placeholder. */
  lemma StepKey(db: Db, op: Op, now: Time, h: string)
    requires Inv(db) && h in Step(db, op, now).db.devices
    ensures var d' := Step(db, op, now).db.devices[h];
            || (h in db.devices && d'.licenseKey == db.devices[h].licenseKey)
            || (SeatRequest(op) && op.body.hardwareUuid == Some(h)
                && d'.licenseKey == if op.ConsumeSeat? then ExtKey(h) else LicKey(op.secret))
  {
    if AdminOp(op) {
      AdminEffect(db, op, now);
    } else if op.CpActivate? || op.PublicActivate? {
      if Step(db, op, now).reply.Ok? {
        ActivationRow(db, op, now);
      } else {
        RefusedUnchanged(db, op, now);
      }
    } else if op.DeleteTenant? {
      if op.tenantId in db.tenants {
        DeleteIsClean(db, op.tenantId);
      }
    } else if op.ConsumeSeat? {
      ConsumedRowKey(db, op.caller, op.body, now, h);
    } else {
      KeptRowKey(db, op, now, h);
    }
  }

  lemma KeysStayKnown(db: Db, minted: set<string>, op: Op, now: Time)
    requires Inv(db) && KeysKnown(db.devices, minted) && SecretsOf(op) !! minted
    ensures KeysKnown(Step(db, op, now).db.devices, minted + SecretsOf(op))
  {
    var devices := Step(db, op, now).db.devices;
    forall h | h in devices
      ensures devices[h].licenseKey == ExtKey(h)
           || exists x :: x in minted + SecretsOf(op) && devices[h].licenseKey == LicKey(x)
    {
      StepKey(db, op, now, h);
    }
    forall g, h | g in devices && h in devices && g != h
      ensures devices[g].licenseKey != devices[h].licenseKey
    {
      StepKey(db, op, now, g);
      StepKey(db, op, now, h);
      if SeatRequest(op) && op.body.hardwareUuid == Some(h) {
        NewKeyIsNew(db.devices, minted, op, g, h);
      } else if SeatRequest(op) && op.body.hardwareUuid == Some(g) {
        NewKeyIsNew(db.devices, minted, op, h, g);
      }
    }
  }

  lemma NewKeyIsNew(devices: map<string, Device>, minted: set<string>, op: Op, g: string, h: string)
    requires KeysKnown(devices, minted) && SeatRequest(op) && SecretsOf(op) !! minted && g in devices && g != h
    ensures devices[g].licenseKey != if op.ConsumeSeat? then ExtKey(h) else LicKey(op.secret)
  {
    ExtKeysAreDistinct(g, h);
    if op.ConsumeSeat? {
      if devices[g].licenseKey != ExtKey(g) {
        var x :| x in minted && devices[g].licenseKey == LicKey(x);
        KeysAreDistinct(x, x, h);
      }
    } else {
      KeysAreDistinct(op.secret, op.secret, g);
      if devices[g].licenseKey != ExtKey(g) {
        var x :| x in minted && devices[g].licenseKey == LicKey(x);
        KeysAreDistinct(x, op.secret, g);
      }
    }
  }

  /** With fresh secrets, stored keys stay distinct, each the placeholder of its
      hardware or minted from a secret handed out by then. */
  lemma {:induction false} KeysKnownOverRuns(db: Db, minted: set<string>, events: seq<Event>)
    requires Inv(db) && KeysKnown(db.devices, minted) && FreshSecrets(minted, events)
    ensures KeysKnown(Run(db, events).devices, MintedAfter(minted, events))
    decreases |events|
  {
    if events != [] {
      var e := events[0];
      StepKeeps(db, e.op, e.now);
      KeysStayKnown(db, minted, e.op, e.now);
      KeysKnownOverRuns(Step(db, e.op, e.now).db, minted + SecretsOf(e.op), events[1..]);
    }
  }

  // ---- a replaced key is dead ------------------------------------------------------

  /** The request takes hardware `h` away from the key minted from `x`. */
  predicate Replaced(db: Db, op: Op, now: Time, h: string, x: string) {
    var devices := Step(db, op, now).db.devices;
    h !in devices || devices[h].licenseKey != LicKey(x)
  }

  /** Rotation and re-booking retire the key they replace. */
  lemma ReplacedKeyIsRetired(db: Db, minted: set<string>, op: Op, now: Time, h: string, x: string)
    requires Inv(db) && KeysKnown(db.devices, minted) && SecretsOf(op) !! minted
    requires h in db.devices && db.devices[h].licenseKey == LicKey(x)
    ensures x in minted
    ensures Replaced(db, op, now, h, x) ==> Retired(Step(db, op, now).db, x)
  {
    KeysAreDistinct(x, x, h);
    var y :| y in minted && db.devices[h].licenseKey == LicKey(y);
    KeysAreDistinct(x, y, h);
    if Replaced(db, op, now, h, x) {
      var devices := Step(db, op, now).db.devices;
      forall g | g in devices ensures devices[g].licenseKey != LicKey(x) {
        StepKey(db, op, now, g);
        if SeatRequest(op) {
          KeysAreDistinct(x, if op.ConsumeSeat? then "" else op.secret, g);
        }
      }
    }
  }

  lemma StaysRetired(db: Db, minted: set<string>, op: Op, now: Time, x: string)
    requires Inv(db) && Retired(db, x) && x in minted && SecretsOf(op) !! minted
    ensures Retired(Step(db, op, now).db, x)
  {
    var devices := Step(db, op, now).db.devices;
    forall h | h in devices ensures devices[h].licenseKey != LicKey(x) {
      StepKey(db, op, now, h);
      if SeatRequest(op) {
        KeysAreDistinct(x, if op.ConsumeSeat? then "" else op.secret, h);
      }
    }
  }

  lemma {:induction false} RetiredForever(db: Db, minted: set<string>, events: seq<Event>, x: string)
    requires Inv(db) && Retired(db, x) && x in minted && FreshSecrets(minted, events)
    ensures Retired(Run(db, events), x)
    decreases |events|
  {
    if events != [] {
      var e := events[0];
      StaysRetired(db, minted, e.op, e.now, x);
      StepKeeps(db, e.op, e.now);
      RetiredForever(Step(db, e.op, e.now).db, minted + SecretsOf(e.op), events[1..], x);
    }
  }

  /** Take any run from the empty tables whose activations draw fresh secrets, and any
      request in it that replaces a minted key: that key never verifies and never
      passes a heartbeat again, whatever follows and whoever asks. */
  lemma ReplacedKeyNeverVerifies(settings: Settings, past: seq<Event>, op: Op, now: Time, h: string, x: string,
                                 events: seq<Event>, caller: Option<Id>, hwField: Option<string>, later: Time)
    requires FreshSecrets({}, past + ([Event(op, now)] + events))
    requires var db := Run(Empty(settings), past); h in db.devices && db.devices[h].licenseKey == LicKey(x)
    ensures var db := Run(Empty(settings), past);
            var after := Run(Step(db, op, now).db, events);
            var verdict := VerifyDevice(after, caller, hwField, LicKey(x), later);
            Replaced(db, op, now, h, x) ==>
              && (verdict.Ok? ==> !verdict.value.valid)
              && Step(after, Heartbeat(caller, hwField, LicKey(x)), later).reply.Err?
  {
    var db := Run(Empty(settings), past);
    FreshJoins({}, past, [Event(op, now)] + events);
    RunKeeps(Empty(settings), past);
    KeysKnownOverRuns(Empty(settings), {}, past);
    ReplacedStaysDead(db, MintedAfter({}, past), op, now, h, x, events, caller, hwField, later);
  }

  lemma ReplacedStaysDead(db: Db, minted: set<string>, op: Op, now: Time, h: string, x: string,
                          events: seq<Event>, caller: Option<Id>, hwField: Option<string>, later: Time)
    requires Inv(db) && KeysKnown(db.devices, minted) && FreshSecrets(minted, [Event(op, now)] + events)
    requires h in db.devices && db.devices[h].licenseKey == LicKey(x)
    ensures var after := Run(Step(db, op, now).db, events);
            var verdict := VerifyDevice(after, caller, hwField, LicKey(x), later);
            Replaced(db, op, now, h, x) ==>
              && (verdict.Ok? ==> !verdict.value.valid)
              && Step(after, Heartbeat(caller, hwField, LicKey(x)), later).reply.Err?
  {
    assert ([Event(op, now)] + events)[1..] == events;
    ReplacedKeyIsRetired(db, minted, op, now, h, x);
    if Replaced(db, op, now, h, x) {
      StepKeeps(db, op, now);
      RetiredForever(Step(db, op, now).db, minted + SecretsOf(op), events, x);
      RetiredIsRefused(Run(Step(db, op, now).db, events), x, caller, hwField, later);
    }
  }

  lemma RetiredIsRefused(db: Db, x: string, caller: Option<Id>, hwField: Option<string>, now: Time)
    requires Retired(db, x)
    ensures var verdict := VerifyDevice(db, caller, hwField, LicKey(x), now);
            && (verdict.Ok? ==> !verdict.value.valid)
            && Step(db, Heartbeat(caller, hwField, LicKey(x)), now).reply.Err?
  {
  }

  // ---- what a key proves --------------------------------------------------------------

  /** Only an activation or a seat booking of this very hardware changes its
      key: revoking and reinstating, in any order and number, keep it. */
  lemma {:induction false} KeyKeptWithoutActivation(db: Db, events: seq<Event>, h: string)
    requires Inv(db) && h in db.devices && h in Run(db, events).devices
    requires forall i :: 0 <= i < |events| ==>
               !(SeatRequest(events[i].op) && events[i].op.body.hardwareUuid == Some(h))
    ensures Run(db, events).devices[h].licenseKey == db.devices[h].licenseKey
    decreases |events|
  {
    if events != [] {
      var e := events[0];
      var db' := Step(db, e.op, e.now).db;
      assert !(SeatRequest(e.op) && e.op.body.hardwareUuid == Some(h));
      StepKeeps(db, e.op, e.now);
      if h in db'.devices {
        StepKey(db, e.op, e.now, h);
        KeyKeptWithoutActivation(db', events[1..], h);
      } else {
        AbsentWithoutActivation(db', events[1..], h);
      }
    }
  }

  lemma {:induction false} AbsentWithoutActivation(db: Db, events: seq<Event>, h: string)
    requires Inv(db) && h !in db.devices
    requires forall i :: 0 <= i < |events| ==>
               !(SeatRequest(events[i].op) && events[i].op.body.hardwareUuid == Some(h))
    ensures h !in Run(db, events).devices
    decreases |events|
  {
    if events != [] {
      var e := events[0];
      assert !(SeatRequest(e.op) && e.op.body.hardwareUuid == Some(h));
      StepKeeps(db, e.op, e.now);
      if h in Step(db, e.op, e.now).db.devices {
        StepKey(db, e.op, e.now, h);
      }
      AbsentWithoutActivation(Step(db, e.op, e.now).db, events[1..], h);
    }
  }

  predicate Verifies(db: Db, t: Id, h: string, key: string, now: Time) {
    var verdict := VerifyDevice(db, Some(t), Some(h), key, now);
    verdict.Ok? && verdict.value.valid
  }

  /** At most one (tenant, key) pair verifies per hardware. */
  lemma OneKeyVerifies(db: Db, h: string, t: Id, key: string, u: Id, other: string, now: Time)
    requires Verifies(db, t, h, key, now) && Verifies(db, u, h, other, now)
    ensures t == u && key == other
  {
  }

  /** The key an activation answers with verifies at once, as ACTIVE, for the
      tenant that activated, and is the only key of that hardware that does. */
  lemma ActivationVerifies(db: Db, op: Op, now: Time)
    requires Inv(db) && (op.CpActivate? || op.PublicActivate?) && Step(db, op, now).reply.Ok?
    ensures var h := op.body.hardwareUuid;
            var t := ActingTenant(db, op);
            var o := Step(db, op, now);
            && h.Some? && t.Some? && SubIdOf(db, t.value).Some?
            && o.reply.value.Activated? && (o.reply.value.reactivated <==> IsLive(db, h.value))
            && VerifyDevice(o.db, t, h, o.reply.value.licenseKey, now) == Ok(DeviceVerdict(true, ACTIVE))
            && o.db.devices[h.value].validUntil == now + db.subs[SubIdOf(db, t.value).value].windowDays * DAY
  {
    ActivationRow(db, op, now);
    var h := op.body.hardwareUuid.value;
    var t := ActingTenant(db, op).value;
    var db' := Step(db, op, now).db;
    KeysAreDistinct(op.secret, op.secret, h);
    assert SubscriptionChecks(db.subs[SubIdOf(db, t).value]);
    StateIsInterval(db'.devices[h].validUntil, GraceDaysOf(db', t), now);
  }

  /** A device booked by its product backend verifies with its placeholder key,
      for the tenant that booked it, for one window, and with no other key. */
  lemma BookingVerifies(db: Db, caller: Option<Id>, body: DeviceBody, now: Time, key: string)
    requires Inv(db) && Step(db, ConsumeSeat(caller, body), now).reply == Ok(SeatBooked(true))
    ensures caller.Some? && body.hardwareUuid.Some? && SubIdOf(db, caller.value).Some?
    ensures var h := body.hardwareUuid;
            var db' := Step(db, ConsumeSeat(caller, body), now).db;
            && VerifyDevice(db', caller, h, key, now) == Ok(DeviceVerdict(key == ExtKey(h.value), ACTIVE))
            && h.value in db'.devices
            && db'.devices[h.value].validUntil == now + db.subs[SubIdOf(db, caller.value).value].windowDays * DAY
  {
    var h := body.hardwareUuid.value;
    var until := now + db.subs[SubIdOf(db, caller.value).value].windowDays * DAY;
    assert SubscriptionChecks(db.subs[SubIdOf(db, caller.value).value]);
    assert until > now && ExtKey(h) != "";
    assert DaysRemaining(until, now) >= 0;
    StateIsInterval(until, db.subs[SubIdOf(db, caller.value).value].graceDays, now);
  }

  /** A revoked or released device verifies with no key. */
  lemma RevokedNeverVerifies(db: Db, h: string, caller: Option<Id>, key: string, now: Time)
    requires !IsLive(db, h)
    ensures var verdict := VerifyDevice(db, caller, Some(h), key, now);
            (verdict.Ok? ==> !verdict.value.valid) && Step(db, Heartbeat(caller, Some(h), key), now).reply.Err?
  {
  }
}
