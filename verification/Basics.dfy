/** Optional values and the 64-bit time arithmetic the sign-in code computes with. */
module Basics {

  datatype Option<+T> = None | Some(value: T)

  const U64_MAX: int := 0xFFFF_FFFF_FFFF_FFFF

  /** Milliseconds since the Unix epoch, as the records store them. */
  type U64 = n: int | 0 <= n <= U64_MAX

  /** `u64::saturating_add`. */
  function SatAdd(a: U64, b: U64): U64 {
    if a + b <= U64_MAX then a + b else U64_MAX
  }

  /** `u64::saturating_mul`. */
  function SatMul(a: U64, b: U64): U64 {
    if a * b <= U64_MAX then a * b else U64_MAX
  }

  const NANOS_PER_MILLI: int := 1_000_000
  const DURATION_MAX: int := U64_MAX * 1_000_000_000 + 999_999_999

  /** `std::time::Duration`, in nanoseconds. */
  type Duration = d: int | 0 <= d <= DURATION_MAX

  /** `Duration::saturating_add`. */
  function DurationSum(a: Duration, b: Duration): Duration {
    if a + b <= DURATION_MAX then a + b else DURATION_MAX
  }

  /** `duration.as_millis() as u64`: whole milliseconds, and the cast keeps the low 64 bits. */
  function MillisU64(d: Duration): U64 {
    (d / NANOS_PER_MILLI) % (U64_MAX + 1)
  }
}
