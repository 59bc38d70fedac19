/**
 * The ORM's log levels. In the ORM, `LogLevel` is a Go `int` with the
 * constants Silent = 1, Error = 2, Warn = 3 and Info = 4; the value 0 is
 * what an unset configuration field holds. The adapter only compares
 * levels, so they are kept as plain integers: a level above Info, or below
 * the unset value, is representable, as it is in Go.
 */
module GormLevel {

  type LogLevel = int

  const Unset: LogLevel := 0
  const Silent: LogLevel := 1
  const Error: LogLevel := 2
  const Warn: LogLevel := 3
  const Info: LogLevel := 4
}
