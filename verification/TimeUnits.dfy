/** Points in time as microseconds: a day is a whole number of them and starts at midnight. */
module TimeUnits {

  const SECOND := 1_000_000
  const MINUTE := 60 * SECOND
  const HOUR := 60 * MINUTE
  const DAY := 24 * HOUR

  function Day(t: int): int { t / DAY }

  function TimeOfDay(t: int): int { t % DAY }
}
