/** Instants and durations as the library reads them from Go's clock.

An instant is counted in nanoseconds from Go's zero time (1 January of year 1), so the zero time
is 0 and every clock reading is later than it. Instants have no bound; a duration is a signed
64-bit count of nanoseconds, and the difference of two instants saturates at its ends. */
module GoTime {
  type Time = int
  type Duration = int

  const ZERO: Time := 0
  const MAX_DURATION: Duration := 0x7FFF_FFFF_FFFF_FFFF
  const MIN_DURATION: Duration := -0x8000_0000_0000_0000
  const SECOND: Duration := 1_000_000_000

  function Sub(t: Time, u: Time): Duration {
    if t - u > MAX_DURATION then MAX_DURATION
    else if t - u < MIN_DURATION then MIN_DURATION
    else t - u
  }

  lemma SubSaturates(t: Time, u: Time)
    ensures MIN_DURATION <= t - u <= MAX_DURATION ==> Sub(t, u) == t - u
    ensures t - u > MAX_DURATION ==> Sub(t, u) == MAX_DURATION
    ensures t - u < MIN_DURATION ==> Sub(t, u) == MIN_DURATION
  {
  }

  /** Saturation is never seen by a test against a duration that is not the largest one. */
  lemma SubCompares(t: Time, u: Time, d: Duration)
    requires MIN_DURATION < d <= MAX_DURATION
    ensures Sub(t, u) < d <==> t - u < d
  {
  }
}
