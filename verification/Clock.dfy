/** Leases over wall time and a boot-scoped continuous clock (rds-discovery `clock`).
    Durations are counted in nanoseconds. */
module Clock {
  import opened Prelude

  const NANOS: nat := 1_000_000_000

  /** The longest `std::time::Duration`: `u64::MAX` seconds and 999 999 999 nanoseconds. */
  const DURATION_MAX: nat := (U64_MAX + 1) * NANOS - 1

  type Duration = d: nat | d <= DURATION_MAX

  datatype Reading = Reading(boot: Bytes, wall: Duration, continuous: Duration)

  datatype Lease = Lease(
    boot: Bytes,
    issuedAt: U64,
    expiresAt: U64,
    acceptedWall: Duration,
    acceptedContinuous: Duration,
    deadline: Duration)

  datatype LeaseError = Future | Expired | Overflow

  function Seconds(d: Duration): (s: U64)
    ensures s * NANOS <= d < (s + 1) * NANOS
  {
    d / NANOS
  }

  function NewLease(issuedAt: U64, expiresAt: U64, now: Reading): Result<Lease, LeaseError> {
    if issuedAt > Seconds(now.wall) then Err(Future)
    else if expiresAt * NANOS <= now.wall then Err(Expired)
    else
      var remaining := expiresAt * NANOS - now.wall;
      if now.continuous + remaining > DURATION_MAX then Err(Overflow)
      else Ok(Lease(now.boot, issuedAt, expiresAt, now.wall, now.continuous, now.continuous + remaining))
  }

  predicate ValidAt(l: Lease, now: Reading) {
    && now.boot == l.boot
    && now.wall >= l.acceptedWall
    && Seconds(now.wall) >= l.issuedAt
    && Seconds(now.wall) < l.expiresAt
    && now.continuous >= l.acceptedContinuous
    && now.continuous < l.deadline
  }

  /** Time left under both clocks: zero exactly when the lease is not valid. */
  function RemainingAt(l: Lease, now: Reading): (d: nat)
    ensures d > 0 <==> ValidAt(l, now)
    ensures ValidAt(l, now) ==> now.wall + d <= l.expiresAt * NANOS && now.continuous + d <= l.deadline
  {
    if !ValidAt(l, now) then 0
    else
      assert (Seconds(now.wall) + 1) * NANOS <= l.expiresAt * NANOS;
      Min(l.expiresAt * NANOS - now.wall, l.deadline - now.continuous)
  }

  /** What the continuous clock adds: however the wall clock is stepped after acceptance, the
      lease never outlives the interval it was accepted for, and it does not survive a reboot. */
  lemma LeaseSpan(issuedAt: U64, expiresAt: U64, start: Reading, now: Reading)
    requires NewLease(issuedAt, expiresAt, start).Ok?
    requires ValidAt(NewLease(issuedAt, expiresAt, start).value, now)
    ensures now.boot == start.boot
    ensures now.continuous - start.continuous < expiresAt * NANOS - start.wall
    ensures start.wall <= now.wall < expiresAt * NANOS
    ensures RemainingAt(NewLease(issuedAt, expiresAt, start).value, now) + (now.continuous - start.continuous)
            <= expiresAt * NANOS - start.wall
  {
    var l := NewLease(issuedAt, expiresAt, start).value;
    assert RemainingAt(l, now) > 0;
  }
}
