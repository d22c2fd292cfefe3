/** Units of the time line, which counts microseconds. */
module Time {
  const SECOND: int := 1_000_000
  const HOUR: int := 3_600 * SECOND
  const DAY: int := 24 * HOUR
}
