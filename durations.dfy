/** Go's time.Duration: a signed count of nanoseconds held in an int64. */
module Durations {

  /** The largest time.Duration; time.Since saturates to it when the true
      elapsed time does not fit in an int64 (as it does for the zero time). */
  const MaxDuration: int := 0x7fff_ffff_ffff_ffff

  /** A duration fits in Go's int64 representation. */
  predicate IsDuration(d: int)
  {
    -MaxDuration - 1 <= d <= MaxDuration
  }

  /** Duration.Seconds(): the duration as a number of seconds. */
  function Seconds(d: int): (r: real)
    ensures d > 0 <==> r > 0.0
    ensures d == 0 <==> r == 0.0
    ensures r * 1_000_000_000.0 == d as real
  {
    d as real / 1_000_000_000.0
  }
}
