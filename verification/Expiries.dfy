/** The coarse expiries the remote stores keep beside the exact one. */
module Expiries {
  import opened Common
  import opened Sessions
  import opened MemoryStores

  const NANOS_PER_SECOND: int := 1_000_000_000
  const NANOS_PER_MILLI: int := 1_000_000
  const MAX_U64: int := 0xFFFF_FFFF_FFFF_FFFF

  /** Whole seconds since the epoch, rounded down before it too. */
  function UnixTimestamp(t: Time): int {
    t / NANOS_PER_SECOND
  }

  /** The nanosecond within the second, never negative. */
  function Nanosecond(t: Time): nat {
    t % NANOS_PER_SECOND
  }

  function DivCeil(a: nat, b: nat): nat
    requires b > 0
  {
    if a % b == 0 then a / b else a / b + 1
  }

  /** The rounded-up milliseconds a document's expiry is stored as. */
  function ExpiryDatetime(expiry: Time): int {
    UnixTimestamp(expiry) * 1000 + DivCeil(Nanosecond(expiry), NANOS_PER_MILLI)
  }

  function TtlMillis(ttl: nat): Result<nat> {
    var millis := DivCeil(ttl, NANOS_PER_MILLI);
    if millis > MAX_U64 then Err(Overflow) else Ok(if millis > 1 then millis else 1)
  }

  /** Seconds are rounded down, also before the epoch. */
  lemma SecondsAreFloors(t: Time)
    ensures UnixTimestamp(t) * NANOS_PER_SECOND <= t < (UnixTimestamp(t) + 1) * NANOS_PER_SECOND
    ensures t == UnixTimestamp(t) * NANOS_PER_SECOND + Nanosecond(t)
  {
  }

  /** A document expires at the first whole millisecond not before its session, also before the epoch. */
  lemma DocumentExpiryIsCeiling(expiry: Time)
    ensures (ExpiryDatetime(expiry) - 1) * 1_000_000 < expiry <= ExpiryDatetime(expiry) * 1_000_000
  {
    var s, n := UnixTimestamp(expiry), Nanosecond(expiry);
    assert expiry == s * NANOS_PER_SECOND + n;
    var q := DivCeil(n, NANOS_PER_MILLI);
    assert (q - 1) * NANOS_PER_MILLI < n <= q * NANOS_PER_MILLI;
    assert ExpiryDatetime(expiry) * NANOS_PER_MILLI == s * NANOS_PER_SECOND + q * NANOS_PER_MILLI;
  }

  /** A key outlives its session by less than a millisecond, and never gets an absent or zero lifetime. */
  lemma TtlCoversRemainingTime(ttl: nat)
    ensures TtlMillis(ttl).Ok? ==>
              var millis := TtlMillis(ttl).value;
              && millis >= 1 && (ttl == 0 ==> millis == 1) && ttl <= millis * NANOS_PER_MILLI
              && (ttl > 0 ==> millis * NANOS_PER_MILLI < ttl + NANOS_PER_MILLI)
    ensures TtlMillis(ttl).Err? <==> ttl > 0xFFFF_FFFF_FFFF_FFFF * 1_000_000
  {
    var q := DivCeil(ttl, NANOS_PER_MILLI);
    assert ttl == (ttl / NANOS_PER_MILLI) * NANOS_PER_MILLI + ttl % NANOS_PER_MILLI;
    assert (q - 1) * NANOS_PER_MILLI < ttl <= q * NANOS_PER_MILLI || (ttl == 0 && q == 0);
  }

  // ----- SQL -----

  /** The rows a query at `now` selects: no expiry, or an expiry second not yet past. */
  predicate Selected(record: Snapshot, now: Time) {
    record.expiry.Some? ==> UnixTimestamp(record.expiry.value) >= UnixTimestamp(now)
  }

  /** A load filters by whole seconds when it queries and validates exactly afterwards. */
  function SqlLoad(rows: Records, id: Id, queried: Time, checked: Time): Result<Option<Snapshot>> {
    if id !in rows || !Selected(rows[id], queried) then Ok(None)
    else if rows[id].id != id then Err(MisboundRecord)
    else if Expired(rows[id].expiry, checked) then Ok(None)
    else if rows[id].destroyed then Err(SessionConflict)
    else Ok(Some(rows[id]))
  }

  lemma SecondsAreMonotone(a: Time, b: Time)
    requires a <= b
    ensures UnixTimestamp(a) <= UnixTimestamp(b)
  {
    assert a == UnixTimestamp(a) * NANOS_PER_SECOND + Nanosecond(a);
    assert b == UnixTimestamp(b) * NANOS_PER_SECOND + Nanosecond(b);
  }

  /**
   * On rows bound to their key, the coarse filter followed by exact validation
   * is exact validation alone: what the in-memory store would answer.
   */
  lemma CoarseFilterIsExact(rows: Records, id: Id, queried: Time, checked: Time)
    requires Bound(rows) && queried <= checked
    ensures SqlLoad(rows, id, queried, checked) == LoadResult(rows, id, queried, checked)
  {
    if id in rows && rows[id].expiry.Some? && queried <= rows[id].expiry.value {
      SecondsAreMonotone(queried, rows[id].expiry.value);
    }
  }

  /** Cleanup at `now` takes only rows of an earlier second, so never a row that is still valid. */
  lemma CoarseCleanupIsSafe(expiry: Time, now: Time)
    ensures UnixTimestamp(expiry) < UnixTimestamp(now) ==> expiry < now
    ensures UnixTimestamp(expiry) < UnixTimestamp(now) <==> expiry < UnixTimestamp(now) * NANOS_PER_SECOND
  {
    assert expiry == UnixTimestamp(expiry) * NANOS_PER_SECOND + Nanosecond(expiry);
    assert now == UnixTimestamp(now) * NANOS_PER_SECOND + Nanosecond(now);
  }
}
