/** Time is an integer number of nanoseconds, the resolution of Go's time package. */
module Clock {
  type Time = int

  type Duration = int

  const SECOND: Duration := 1_000_000_000
  const MINUTE: Duration := 60 * SECOND
  const HOUR: Duration := 60 * MINUTE
}
