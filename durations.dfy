/** Go's fixed-width integers and time.Duration, as far as the collector
    needs them: a Duration is a signed 64-bit count of nanoseconds, and
    multiplying two of them wraps around modulo 2^64. */
module Durations {

  const MinInt64: int := -0x8000_0000_0000_0000
  const MaxInt64: int := 0x7FFF_FFFF_FFFF_FFFF
  const TwoTo64: int := 0x1_0000_0000_0000_0000

  type Int64 = i: int | MinInt64 <= i <= MaxInt64

  /** time.Duration: nanoseconds in an int64. */
  type Duration = Int64

  /** time.Second */
  const Second: Duration := 1_000_000_000

  /** The largest whole number of seconds a Duration can hold. */
  const MaxSeconds: int := 9_223_372_036

  /** Two's-complement truncation of an unbounded integer to 64 bits. */
  function Wrap64(x: int): (r: Int64)
    ensures (x - r) % TwoTo64 == 0
    ensures MinInt64 <= x <= MaxInt64 ==> r == x
  {
    var u := (x - MinInt64) % TwoTo64;
    assert 0 <= u < TwoTo64;
    u + MinInt64
  }

  /** Go's `d * n` on two Durations, which wraps on overflow. */
  function Mul(d: Duration, n: Int64): (r: Duration)
    ensures MinInt64 <= d * n <= MaxInt64 ==> r == d * n
  {
    Wrap64(d * n)
  }

  /** `time.Second * n` is exactly n seconds when n fits, and wraps
      otherwise. */
  lemma SecondsDoNotWrap(n: Int64)
    requires 0 <= n <= MaxSeconds
    ensures Mul(Second, n) == n * Second
  {
    assert 0 <= Second * n <= MaxSeconds * Second <= MaxInt64;
  }
}
