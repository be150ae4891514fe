/**
 * The parts of Go's `time` package and integer arithmetic that the scheduler and the
 * metrics depend on: `time.Duration` is a signed 64-bit count of nanoseconds, `Time.Sub`
 * saturates at the ends of that range, plain `int64` subtraction wraps around, and `/`
 * truncates toward zero.
 */
module GoTime {

  const MinInt64: int := -0x8000_0000_0000_0000
  const MaxInt64: int := 0x7fff_ffff_ffff_ffff
  const TwoTo64: int := 0x1_0000_0000_0000_0000

  predicate InInt64(x: int) { MinInt64 <= x <= MaxInt64 }

  /** `time.Duration`: nanoseconds in a signed 64-bit integer. */
  type Duration = d: int | MinInt64 <= d <= MaxInt64

  /** `time.Time` as nanoseconds since the Unix epoch; Go's range is wider than 64-bit nanoseconds. */
  type Instant = int

  const Second: Duration := 1_000_000_000
  const Minute: Duration := 60 * Second
  const Hour: Duration := 60 * Minute

  /** `Time.Sub`: the exact difference when it fits in a Duration, otherwise the nearest end of the range. */
  function Sub(t: Instant, u: Instant): (d: Duration)
    ensures InInt64(t - u) ==> d == t - u
    ensures (d < 0 <==> t < u) && (d == 0 <==> t == u)
    ensures !InInt64(t - u) ==> d == (if t < u then MinInt64 else MaxInt64)
  {
    if t - u > MaxInt64 then MaxInt64
    else if t - u < MinInt64 then MinInt64
    else t - u
  }

  /** Two's-complement wrap-around of a mathematical integer into `int64`. */
  function WrapInt64(x: int): (r: Duration)
    ensures InInt64(x) ==> r == x
    ensures (x - r) % TwoTo64 == 0
  {
    (x - MinInt64) % TwoTo64 + MinInt64
  }

  /** Go's integer `a / 3`: the quotient truncated toward zero, so its remainder takes the sign of `a`. */
  function QuoThree(a: int): (q: int)
    ensures a >= 0 ==> 0 <= 3 * q <= a < 3 * q + 3
    ensures a < 0 ==> 3 * q - 3 < a <= 3 * q <= 0
    ensures a >= 0 ==> 0 <= q <= a
    ensures a < 0 ==> a <= q <= 0
  {
    if a >= 0 then a / 3 else -((-a) / 3)
  }

  /** `Time.Unix`: whole seconds since the epoch, rounded down (Dafny's `/` floors for a positive divisor). */
  function UnixSeconds(t: Instant): (s: int)
    ensures s * Second <= t < s * Second + Second
  {
    t / Second
  }
}
