/** The Go integer types the client uses, on a 64-bit platform.
    `int` and `time.Duration` are both signed 64-bit integers there;
    a Duration counts nanoseconds. */
module GoInt {

  const MIN_INT64: int := -0x8000_0000_0000_0000
  const MAX_INT64: int := 0x7fff_ffff_ffff_ffff

  /** A 64-bit signed integer: Go's `int` on a 64-bit platform. */
  type Int64 = x: int | MIN_INT64 <= x <= MAX_INT64

  /** `time.Duration`: a signed 64-bit count of nanoseconds. */
  type Duration = Int64

  /** `time.Second` in nanoseconds. */
  const SECOND: Duration := 1_000_000_000

  /** Nanoseconds per millisecond: the untyped constant `1e6`. */
  const NANOS_PER_MILLI: int := 1_000_000

  /** Go's `x / 1e6` on an `int`: the quotient truncated toward zero
      (Dafny's own `/` is Euclidean and rounds negative quotients down). */
  function MillisOf(ns: Int64): (ms: Int64)
    ensures -NANOS_PER_MILLI < ns - ms * NANOS_PER_MILLI < NANOS_PER_MILLI
    ensures ns >= 0 ==> 0 <= ns - ms * NANOS_PER_MILLI
    ensures ns <= 0 ==> ns - ms * NANOS_PER_MILLI <= 0
  {
    var n: int := ns;
    if n >= 0 then n / NANOS_PER_MILLI else -((-n) / NANOS_PER_MILLI)
  }

  /** Whole milliseconds survive the conversion: ms -> ns -> ms is the identity. */
  lemma MillisOfWholeMillis(ms: int)
    requires MIN_INT64 <= ms * NANOS_PER_MILLI <= MAX_INT64
    ensures MillisOf(ms * NANOS_PER_MILLI) == ms
  {
  }

  /** A longer duration never converts to fewer milliseconds. */
  lemma MillisOfMonotone(a: Int64, b: Int64)
    requires a <= b
    ensures MillisOf(a) <= MillisOf(b)
  {
  }

  /** Truncation is symmetric about zero, unlike Euclidean division. */
  lemma MillisOfOdd(ns: Int64)
    requires ns > MIN_INT64
    ensures MillisOf(-ns) == -MillisOf(ns)
  {
  }
}
