/** What a device row says after any run, by the requests that were accepted: whose
    it is, its token, name and key, from when until when it is valid, when it was last
    seen, and whether it holds a seat. */
module DeviceHistory {
  import opened Wrappers
  import opened Clock
  import opened Ledger
  import opened LedgerInvariant
  import opened SeatProperties
  import opened Accounts

  /** A device as its accepted requests describe it. */
  datatype Sighting = Sighting(tenant: Id, token: Id, name: string, key: string, since: Time, until: Time,
                               seen: Option<Time>, live: bool)

  /** The first hundred characters of the name, or of the hardware id if there is none. */
  function Clipped(name: Option<string>, h: string): string {
    var full := match name
                case Some(n) => if |n| > 0 then n else h
                case None => h;
    if |full| <= 100 then full else full[..100]
  }

  /** One window of the tenant from now. */
  function WindowFrom(x: Terms, now: Time): Time {
    now + x.windowDays * DAY
  }

  /** An accepted activation or seat request for `h`, by tenant `t` on terms `x`, with
      token `k`. A row made afresh by an activation has not been seen yet. */
  function SeatSeen(known: Option<Sighting>, h: string, t: Id, x: Terms, k: Id, body: DeviceBody, reply: Reply,
                    now: Time): Option<Sighting>
  {
    match reply
    case Activated(key, reactivated) =>
      if reactivated && known.Some? then
        Some(known.value.(key := key, until := WindowFrom(x, now), seen := Some(now)))
      else if body.deviceName.None? then known
      else
        Some(Sighting(t, k, body.deviceName.value, key, now, WindowFrom(x, now),
                      if known.Some? then Some(now) else None, true))
    case SeatBooked(consumed) =>
      if consumed then
        Some(Sighting(t, k, Clipped(body.deviceName, h), "EXT-" + h, now, WindowFrom(x, now), Some(now), true))
      else if known.Some? then Some(known.value.(seen := Some(now))) else known
    case _ => known
  }

  /** A renewal, if the tenant with these terms is active and paid up. */
  function Renewed(x: Option<Terms>, now: Time): Option<Time> {
    if x.Some? && x.value.status == TenantActive && x.value.paid then Some(WindowFrom(x.value, now)) else None
  }

  /** A revoked device comes back with its date, or a renewed one if that is later. */
  function Back(was: Sighting, x: Option<Terms>, now: Time): Sighting {
    var renewed := Latest(Renewed(x, now), was.until);
    was.(live := true, until := if renewed >= was.until then renewed else was.until)
  }

  function Beaten(was: Sighting, x: Option<Terms>, now: Time): Sighting {
    was.(until := Latest(Renewed(x, now), was.until), seen := Some(now))
  }

  function DeviceSeen(db: Db, h: string, known: Option<Sighting>, op: Op, reply: Result<Reply, Error>, now: Time)
    : Option<Sighting>
  {
    if reply.Err? then known
    else if SeatRequest(op) then
      if op.body.hardwareUuid != Some(h) || op.body.token.None? || ActingTenant(db, op).None?
         || TokenIdOf(db, op.body.token.value).None? || TermsOf(db, ActingTenant(db, op).value).None? then known
      else
        var t := ActingTenant(db, op).value;
        SeatSeen(known, h, t, TermsOf(db, t).value, TokenIdOf(db, op.body.token.value).value, op.body, reply.value,
                 now)
    else match known
      case None => None
      case Some(was) =>
        match op
        case RevokeDevice(hw) => if hw == h then Some(was.(live := false)) else known
        case ReleaseSeat(_, hw) => if hw == h then Some(was.(live := false)) else known
        case ReinstateDevice(hw) =>
          if hw != h || was.live then known else Some(Back(was, TermsOf(db, was.tenant), now))
        case Heartbeat(caller, hwField, _) =>
          if hwField != Some(h) || caller.None? then known
          else Some(Beaten(was, TermsOf(db, caller.value), now))
        case DeleteTenant(t) => if t == was.tenant then None else known
        case _ => known
  }

  function DeviceAfter(db: Db, events: seq<Event>, h: string, known: Option<Sighting>): Option<Sighting>
    decreases |events|
  {
    if events == [] then known
    else
      var e := events[0];
      var o := Step(db, e.op, e.now);
      DeviceAfter(o.db, events[1..], h, DeviceSeen(db, h, known, e.op, o.reply, e.now))
  }

  /** The row agrees with the sighting in every column. */
  predicate ShowsDevice(devices: map<string, Device>, h: string, known: Option<Sighting>) {
    match known
    case None => h !in devices
    case Some(x) =>
      && h in devices
      && devices[h] == Device(x.tenant, x.name, x.key, x.since, x.until, !x.live, x.seen, Some(x.token))
  }

  predicate Follows(db: Db, op: Op, now: Time, h: string, known: Option<Sighting>) {
    var o := Step(db, op, now);
    ShowsDevice(o.db.devices, h, DeviceSeen(db, h, known, op, o.reply, now))
  }

  // ---- the three ways to a seat -------------------------------------------------------------

  /** What is seen of an accepted seat request. */
  lemma SeatRequestSeen(db: Db, op: Op, reply: Result<Reply, Error>, now: Time, h: string, known: Option<Sighting>,
                        t: Id, x: Terms, k: Id)
    requires SeatRequest(op) && reply.Ok? && ActingTenant(db, op) == Some(t) && TermsOf(db, t) == Some(x)
    requires op.body.token.Some? && TokenIdOf(db, op.body.token.value) == Some(k)
    ensures DeviceSeen(db, h, known, op, reply, now)
         == if op.body.hardwareUuid == Some(h) then SeatSeen(known, h, t, x, k, op.body, reply.value, now) else known
  {
  }

  lemma ActivationFollows(db: Db, t: Id, s: Id, x: Terms, k: Id, body: DeviceBody, secret: string, now: Time,
                          h: string, known: Option<Sighting>)
    requires s in db.subs && k in db.tokens && x.windowDays == db.subs[s].windowDays
    requires ShowsDevice(db.devices, h, known) && DoActivate(db, t, s, k, body, secret, now).reply.Ok?
    ensures var o := DoActivate(db, t, s, k, body, secret, now);
            ShowsDevice(o.db.devices, h, if body.hardwareUuid == Some(h)
                                         then SeatSeen(known, h, t, x, k, body, o.reply.value, now) else known)
  {
  }

  lemma CpActivateAccepted(db: Db, op: Op, now: Time)
    requires Inv(db) && op.CpActivate? && Step(db, op, now).reply.Ok?
    ensures op.caller.Some? && SubIdOf(db, op.caller.value).Some? && TermsOf(db, op.caller.value).Some?
    ensures TermsOf(db, op.caller.value).value.windowDays == db.subs[SubIdOf(db, op.caller.value).value].windowDays
    ensures op.body.token.Some? && TokenIdOf(db, op.body.token.value).Some?
    ensures Step(db, op, now) == DoActivate(db, op.caller.value, SubIdOf(db, op.caller.value).value,
                                            TokenIdOf(db, op.body.token.value).value, op.body, op.secret, now)
  {
  }

  lemma CpActivateFollows(db: Db, op: Op, now: Time, h: string, known: Option<Sighting>)
    requires Inv(db) && op.CpActivate? && Step(db, op, now).reply.Ok? && ShowsDevice(db.devices, h, known)
    ensures Follows(db, op, now, h, known)
  {
    CpActivateAccepted(db, op, now);
    var t, k := op.caller.value, TokenIdOf(db, op.body.token.value).value;
    var x := TermsOf(db, t).value;
    SeatRequestSeen(db, op, Step(db, op, now).reply, now, h, known, t, x, k);
    ActivationFollows(db, t, SubIdOf(db, t).value, x, k, op.body, op.secret, now, h, known);
  }

  lemma PublicActivateAccepted(db: Db, op: Op, now: Time)
    requires Inv(db) && op.PublicActivate? && Step(db, op, now).reply.Ok?
    ensures op.body.token.Some? && TokenIdOf(db, op.body.token.value).Some?
    ensures var k := TokenIdOf(db, op.body.token.value).value;
            var s := db.tokens[k].subscriptionId;
            && s in db.subs && ActingTenant(db, op) == Some(db.subs[s].tenantId)
            && TermsOf(db, db.subs[s].tenantId).Some?
            && TermsOf(db, db.subs[s].tenantId).value.windowDays == db.subs[s].windowDays
            && Step(db, op, now) == DoActivate(db, db.subs[s].tenantId, s, k, op.body, op.secret, now)
  {
    var s := db.tokens[TokenIdOf(db, op.body.token.value).value].subscriptionId;
    assert SubIdOf(db, db.subs[s].tenantId) == Some(s);
  }

  lemma PublicActivateFollows(db: Db, op: Op, now: Time, h: string, known: Option<Sighting>)
    requires Inv(db) && op.PublicActivate? && Step(db, op, now).reply.Ok? && ShowsDevice(db.devices, h, known)
    ensures Follows(db, op, now, h, known)
  {
    PublicActivateAccepted(db, op, now);
    var k := TokenIdOf(db, op.body.token.value).value;
    var s := db.tokens[k].subscriptionId;
    var t := db.subs[s].tenantId;
    var x := TermsOf(db, t).value;
    SeatRequestSeen(db, op, Step(db, op, now).reply, now, h, known, t, x, k);
    ActivationFollows(db, t, s, x, k, op.body, op.secret, now, h, known);
  }

  lemma BookingFollows(db: Db, caller: Option<Id>, body: DeviceBody, now: Time, h: string, known: Option<Sighting>)
    requires Inv(db) && ShowsDevice(db.devices, h, known) && DoConsumeSeat(db, caller, body, now).reply.Ok?
    ensures caller.Some? && TermsOf(db, caller.value).Some?
    ensures body.token.Some? && TokenIdOf(db, body.token.value).Some?
    ensures var o := DoConsumeSeat(db, caller, body, now);
            ShowsDevice(o.db.devices, h, if body.hardwareUuid == Some(h)
                                         then SeatSeen(known, h, caller.value, TermsOf(db, caller.value).value,
                                                       TokenIdOf(db, body.token.value).value, body, o.reply.value, now)
                                         else known)
  {
    SeatNameIsClipped(body.deviceName, h);
  }

  lemma SeatNameIsClipped(name: Option<string>, h: string)
    ensures SeatName(name, h) == Clipped(name, h)
  {
  }

  lemma ConsumeFollows(db: Db, op: Op, now: Time, h: string, known: Option<Sighting>)
    requires Inv(db) && op.ConsumeSeat? && Step(db, op, now).reply.Ok? && ShowsDevice(db.devices, h, known)
    ensures Follows(db, op, now, h, known)
  {
    BookingFollows(db, op.caller, op.body, now, h, known);
    SeatRequestSeen(db, op, Step(db, op, now).reply, now, h, known, op.caller.value,
                    TermsOf(db, op.caller.value).value, TokenIdOf(db, op.body.token.value).value);
  }

  // ---- the other requests ----------------------------------------------------------------------

  lemma FreedFollows(db: Db, hw: string, h: string, known: Option<Sighting>)
    requires ShowsDevice(db.devices, h, known)
    ensures var after := if known.Some? && hw == h then Some(known.value.(live := false)) else known;
            && ShowsDevice(DoRevokeDevice(db, hw).db.devices, h, after)
            && ShowsDevice(DoReleaseSeat(db, hw).db.devices, h, after)
  {
    if IsLive(db, hw) {
      assert Free(db, hw).devices == db.devices[hw := db.devices[hw].(isRevoked := true)];
    }
  }

  lemma FreeFollows(db: Db, op: Op, now: Time, h: string, known: Option<Sighting>)
    requires (op.RevokeDevice? || op.ReleaseSeat?) && Step(db, op, now).reply.Ok? && ShowsDevice(db.devices, h, known)
    ensures Follows(db, op, now, h, known)
  {
    FreedFollows(db, op.hw, h, known);
  }

  lemma BackFollows(db: Db, hw: string, now: Time, h: string, known: Option<Sighting>)
    requires Inv(db) && ShowsDevice(db.devices, h, known) && DoReinstate(db, hw, now).reply.Ok?
    ensures ShowsDevice(DoReinstate(db, hw, now).db.devices, h,
                        if known.None? || hw != h || known.value.live then known
                        else Some(Back(known.value, TermsOf(db, known.value.tenant), now)))
  {
  }

  lemma ReinstateFollows(db: Db, op: Op, now: Time, h: string, known: Option<Sighting>)
    requires Inv(db) && op.ReinstateDevice? && Step(db, op, now).reply.Ok? && ShowsDevice(db.devices, h, known)
    ensures Follows(db, op, now, h, known)
  {
    BackFollows(db, op.hw, now, h, known);
  }

  lemma BeatFollows(db: Db, caller: Option<Id>, hwField: Option<string>, key: string, now: Time, h: string,
                    known: Option<Sighting>)
    requires Inv(db) && ShowsDevice(db.devices, h, known) && DoHeartbeat(db, caller, hwField, key, now).reply.Ok?
    ensures caller.Some?
    ensures ShowsDevice(DoHeartbeat(db, caller, hwField, key, now).db.devices, h,
                        if known.None? || hwField != Some(h) then known
                        else Some(Beaten(known.value, TermsOf(db, caller.value), now)))
  {
  }

  lemma HeartbeatFollows(db: Db, op: Op, now: Time, h: string, known: Option<Sighting>)
    requires Inv(db) && op.Heartbeat? && Step(db, op, now).reply.Ok? && ShowsDevice(db.devices, h, known)
    ensures Follows(db, op, now, h, known)
  {
    BeatFollows(db, op.caller, op.hwField, op.key, now, h, known);
  }

  lemma DeleteFollows(db: Db, op: Op, now: Time, h: string, known: Option<Sighting>)
    requires op.DeleteTenant? && Step(db, op, now).reply.Ok? && ShowsDevice(db.devices, h, known)
    ensures Follows(db, op, now, h, known)
  {
  }

  lemma AdminFollows(db: Db, op: Op, now: Time, h: string, known: Option<Sighting>)
    requires AdminOp(op) && ShowsDevice(db.devices, h, known)
    ensures Follows(db, op, now, h, known)
  {
    AdminEffect(db, op, now);
  }

  lemma StepFollows(db: Db, op: Op, now: Time, h: string, known: Option<Sighting>)
    requires Inv(db) && ShowsDevice(db.devices, h, known)
    ensures Follows(db, op, now, h, known)
  {
    if AdminOp(op) {
      AdminFollows(db, op, now, h, known);
    } else if Step(db, op, now).reply.Err? {
      RefusedUnchanged(db, op, now);
    } else {
      match op
      case CpActivate(_, _, _) => CpActivateFollows(db, op, now, h, known);
      case PublicActivate(_, _) => PublicActivateFollows(db, op, now, h, known);
      case ConsumeSeat(_, _) => ConsumeFollows(db, op, now, h, known);
      case RevokeDevice(_) => FreeFollows(db, op, now, h, known);
      case ReleaseSeat(_, _) => FreeFollows(db, op, now, h, known);
      case ReinstateDevice(_) => ReinstateFollows(db, op, now, h, known);
      case Heartbeat(_, _, _) => HeartbeatFollows(db, op, now, h, known);
      case DeleteTenant(_) => DeleteFollows(db, op, now, h, known);
    }
  }

  /** After any run a device row is what its accepted requests say, column by column. */
  lemma {:induction false} RowIsHistory(db: Db, events: seq<Event>, h: string, known: Option<Sighting>)
    requires Inv(db) && ShowsDevice(db.devices, h, known)
    ensures ShowsDevice(Run(db, events).devices, h, DeviceAfter(db, events, h, known))
    decreases |events|
  {
    if events != [] {
      var e := events[0];
      var o := Step(db, e.op, e.now);
      StepFollows(db, e.op, e.now, h, known);
      StepKeeps(db, e.op, e.now);
      RowIsHistory(o.db, events[1..], h, DeviceSeen(db, h, known, e.op, o.reply, e.now));
    }
  }
}
