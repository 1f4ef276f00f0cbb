/** The stored unit of the storage layer (db/item.go): a payload and the instant
    it expires at. The wall clock is a parameter `now`, in nanoseconds since the
    Unix epoch, and the package's `NeverExpire` sentinel is a parameter `never`,
    so every fact below holds whatever value the sentinel has. */
module DbItem {
  import opened MachineInts

  const NANOS_PER_SECOND: int := 1_000_000_000

  /** An item: `expireAt` is an `int64`; `data` is any payload. */
  datatype Item<T> = Item(expireAt: Int64, data: T)

  /** Seconds since the epoch as Go's `Time.Unix` gives them (rounded down). */
  function UnixSeconds(now: int): (s: int)
    ensures s * NANOS_PER_SECOND <= now < (s + 1) * NANOS_PER_SECOND
  {
    now / NANOS_PER_SECOND
  }

  /** `newItem`: the sentinel duration keeps the sentinel expiry; any other
      duration is added to the clock and the sum kept in Unix NANOseconds,
      wrapping like Go's `UnixNano`. */
  function NewItem<T>(data: T, expireIn: Int64, never: Int64, now: int): (it: Item<T>)
    ensures it.data == data
    ensures expireIn == never ==> it.expireAt == never
    ensures expireIn != never ==> (it.expireAt as int - (now + expireIn as int)) % TWO_TO_64 == 0
    ensures expireIn != never && -TWO_TO_63 <= now + expireIn as int < TWO_TO_63 ==>
              it.expireAt as int == now + expireIn as int
  {
    var expiry := if expireIn != never then WrapInt64(now + expireIn as int) else never;
    Item(expiry, data)
  }

  /** `isExpired` as written: the stored expiry (nanoseconds) is compared with
      the clock in whole SECONDS, so an item with expiry `e` counts as expired
      only once the clock has reached `e + 1` SECONDS, read in nanoseconds. */
  function IsExpired<T>(it: Item<T>, never: Int64, now: int): (r: bool)
    ensures r <==> it.expireAt != never && (it.expireAt as int + 1) * NANOS_PER_SECOND <= now
  {
    if it.expireAt == never then false else it.expireAt as int < UnixSeconds(now)
  }

  /** An item whose expiry is the sentinel is never reported expired. */
  lemma NeverExpireIsNeverExpired<T>(it: Item<T>, never: Int64, now: int)
    requires it.expireAt == never
    ensures !IsExpired(it, never, now)
  {
  }

  /** The unit mismatch: an item made at `created` with a non-negative TTL `d`
      is not reported expired at any time `t` whose whole seconds do not exceed
      `created + d`, which is a billion times later than the TTL intends. */
  lemma NotExpiredUntilSecondsPassNanos<T>(data: T, d: Int64, never: Int64, created: int, t: int)
    requires d != never && 0 <= d
    requires -TWO_TO_63 <= created + d as int < TWO_TO_63
    requires t / NANOS_PER_SECOND <= created + d as int
    ensures !IsExpired(NewItem(data, d, never, created), never, t)
  {
  }

  /** Consequence of the mismatch: once the clock is past 9.22 seconds after the
      epoch, no clock reading that `UnixNano` can represent ever reports an item
      with a non-negative TTL as expired. */
  lemma PracticallyNeverExpired<T>(data: T, d: Int64, never: Int64, created: int, t: int)
    requires d != never && 0 <= d
    requires TWO_TO_63 / NANOS_PER_SECOND < created && created + d as int < TWO_TO_63
    requires t < TWO_TO_63
    ensures !IsExpired(NewItem(data, d, never, created), never, t)
  {
    NotExpiredUntilSecondsPassNanos(data, d, never, created, t);
  }

  /** The expiry test with clock and expiry in the same unit (nanoseconds). It
      never reports the sentinel expired, and from the epoch on it reports an
      item expired no later than the as-written test does. */
  function IsExpiredNanos<T>(it: Item<T>, never: Int64, now: int): (r: bool)
    ensures r ==> it.expireAt != never
    ensures 0 <= now && IsExpired(it, never, now) ==> r
  {
    if it.expireAt == never then false else it.expireAt as int < now
  }

  /** With consistent units an item made at `created` with TTL `d` is expired at
      `t` exactly when more than `d` nanoseconds have passed (unless the
      computed expiry happens to equal the sentinel), and a sentinel item never is. */
  lemma NanosExpiryHonoursTtl<T>(data: T, d: Int64, never: Int64, created: int, t: int)
    requires -TWO_TO_63 <= created + d as int < TWO_TO_63
    ensures d == never ==> !IsExpiredNanos(NewItem(data, d, never, created), never, t)
    ensures d != never && created + d as int != never as int ==>
              (IsExpiredNanos(NewItem(data, d, never, created), never, t) <==> t - created > d as int)
  {
  }

  /** Input that shows the mismatch: an item made in September 2020 with a TTL
      of one second is still not reported expired an hour later, while the
      nanosecond test reports it expired. */
  lemma AsWrittenIgnoresElapsedTtl<T>(data: T, never: Int64)
    requires never != 1_000_000_000 && never != 1_600_000_001_000_000_000
    ensures var it := NewItem(data, 1_000_000_000, never, 1_600_000_000_000_000_000);
            var anHourLater := 1_600_000_000_000_000_000 + 3_600_000_000_000;
            !IsExpired(it, never, anHourLater) && IsExpiredNanos(it, never, anHourLater)
  {
  }
}
