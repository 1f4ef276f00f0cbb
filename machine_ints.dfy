/** Go's fixed-width integers, written out over Dafny's unbounded `int`. */
module MachineInts {

  const TWO_TO_63: int := 0x8000_0000_0000_0000
  const TWO_TO_64: int := 0x1_0000_0000_0000_0000

  /** Go's `int64`, and `time.Duration`, which is an `int64` count of nanoseconds. */
  newtype Int64 = x: int | -0x8000_0000_0000_0000 <= x < 0x8000_0000_0000_0000

  /** Go's `uint` on a 64-bit platform. */
  newtype Uint64 = x: int | 0 <= x < 0x1_0000_0000_0000_0000

  /** Two's-complement wrap-around: the one `int64` congruent to `x` modulo 2^64,
      which is what Go's wrapping arithmetic and its `uint64 -> int64` conversion yield. */
  function WrapInt64(x: int): (r: Int64)
    ensures (r as int - x) % TWO_TO_64 == 0
    ensures -TWO_TO_63 <= x < TWO_TO_63 ==> r as int == x
  {
    var u := x % TWO_TO_64;
    if u < TWO_TO_63 then u as Int64 else (u - TWO_TO_64) as Int64
  }

  /** The wrapped value is the only `int64` in the congruence class of `x`. */
  lemma WrapInt64Unique(x: int, y: Int64)
    requires (y as int - x) % TWO_TO_64 == 0
    ensures y == WrapInt64(x)
  {
  }
}
