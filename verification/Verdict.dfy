/** Instants and durations in whole microseconds. */
module Clock {
  type Time = int

  const SECOND: int := 1_000_000
  const DAY: int := 86_400_000_000
}

/** How a device's validity date becomes the state a client sees. */
module Verdict {
  import opened Clock

  datatype DeviceState = ACTIVE | GRACE | EXPIRED | REVOKED | UNKNOWN

  /** Whole days left, rounded down: one microsecond late already counts as -1. */
  function DaysRemaining(validUntil: Time, now: Time): int {
    (validUntil - now) / DAY
  }

  function DeviceStateAt(isRevoked: bool, validUntil: Time, graceDays: int, now: Time): DeviceState {
    if isRevoked then REVOKED
    else
      var left := DaysRemaining(validUntil, now);
      if left >= 0 then ACTIVE
      else if left >= -graceDays then GRACE
      else EXPIRED
  }

  predicate Usable(s: DeviceState) {
    s == ACTIVE || s == GRACE
  }

  /** The rule documented for clients that cannot reach the server: honour the
      cached verdict until the cached validity date plus the grace days. */
  predicate OfflineAllows(cached: DeviceState, cachedValidUntil: Time, graceDays: int, now: Time) {
    Usable(cached) && now <= cachedValidUntil + graceDays * DAY
  }

  /** The floor-based state is the interval form of the documentation. */
  lemma StateIsInterval(validUntil: Time, graceDays: int, now: Time)
    requires graceDays >= 0
    ensures var s := DeviceStateAt(false, validUntil, graceDays, now);
            && (s == ACTIVE <==> now <= validUntil)
            && (s == GRACE <==> validUntil < now <= validUntil + graceDays * DAY)
            && (s == EXPIRED <==> validUntil + graceDays * DAY < now)
  {
    var left := DaysRemaining(validUntil, now);
    assert left * DAY <= validUntil - now < (left + 1) * DAY;
    if left >= -graceDays {
      assert left * DAY >= -graceDays * DAY;
    } else {
      assert (left + 1) * DAY <= -graceDays * DAY;
    }
  }

  function Rank(s: DeviceState): int {
    match s
    case ACTIVE => 0
    case GRACE => 1
    case EXPIRED => 2
    case REVOKED => 3
    case UNKNOWN => 4
  }

  /** With the row unchanged, time only moves a device from ACTIVE through
      GRACE to EXPIRED. */
  lemma StateOnlyDecays(isRevoked: bool, validUntil: Time, graceDays: int, earlier: Time, later: Time)
    requires graceDays >= 0 && earlier <= later
    ensures Rank(DeviceStateAt(isRevoked, validUntil, graceDays, earlier))
         <= Rank(DeviceStateAt(isRevoked, validUntil, graceDays, later))
  {
    StateIsInterval(validUntil, graceDays, earlier);
    StateIsInterval(validUntil, graceDays, later);
  }

  /** The offline rule, fed with the verdict cached at `checked`, agrees with
      the online verdict at every later instant while the row is unchanged. */
  lemma OfflineAgrees(isRevoked: bool, validUntil: Time, graceDays: int, checked: Time, now: Time)
    requires graceDays >= 0 && checked <= now
    ensures OfflineAllows(DeviceStateAt(isRevoked, validUntil, graceDays, checked), validUntil, graceDays, now)
       <==> Usable(DeviceStateAt(isRevoked, validUntil, graceDays, now))
  {
    StateIsInterval(validUntil, graceDays, checked);
    StateIsInterval(validUntil, graceDays, now);
  }
}
