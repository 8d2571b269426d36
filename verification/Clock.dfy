/** Instants and durations, counted in nanoseconds as Go's `time` package counts them. */
module Clock {

  type Time = int
  type Duration = int

  const MILLISECOND: Duration := 1_000_000
  const SECOND: Duration := 1_000_000_000
  const MINUTE: Duration := 60 * SECOND
  const HOUR: Duration := 60 * MINUTE
  const DAY: Duration := 24 * HOUR

  /** `time.Time.UnixMilli`: whole milliseconds, rounded toward minus infinity. */
  function UnixMilli(t: Time): (ms: int)
    ensures ms * 1_000_000 <= t < (ms + 1) * 1_000_000
  {
    t / MILLISECOND
  }

  /** `time.Time.Unix`: whole seconds, rounded toward minus infinity. */
  function UnixSeconds(t: Time): (seconds: int)
    ensures seconds * 1_000_000_000 <= t < (seconds + 1) * 1_000_000_000
  {
    t / SECOND
  }
}
