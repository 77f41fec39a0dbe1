/** Units of time: times and durations are whole nanoseconds. */
module Clock {
  const SECOND := 1_000_000_000
  const MINUTE := 60 * SECOND
}
