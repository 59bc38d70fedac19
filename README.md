# A verified model of the gorm-to-logrus log adapter

The repository is a small adapter that lets the gorm ORM log through a
shared logrus logger. A `Logger` holds the shared backend and a `Config`
(slow-query threshold, gorm log level, whether "record not found" errors
are suppressed, an optional source-location field name, and a module
name). It offers the three level gates `Info`, `Warn` and `Error`, the
per-statement `Trace`, the copy-with-another-level `LogMode`, and the
constructor `New`, which fills in defaults.

This model keeps the adapter's decisions and leaves the emission to the
backend: each call yields either nothing or one entry that records the
logrus severity, the structured fields, and the pieces the message is
formatted from.

Files:

- `wrappers.dfy`: `Option`.
- `gorm_level.dfy`: gorm's log levels, kept as integers: Unset = 0, Silent = 1, Error = 2, Warn = 3, Info = 4.
- `strconv.dfy`: Go's `int64` and `strconv.FormatInt(n, 10)`. It also has a reference decimal reader, and the rendering is proved to round-trip through it.
- `logger.go` is modelled in `logger.dfy`:
  - `Config`, `Logger`, the gates, `LogMode` and `New`.
  - `Route`, the severity choice of the `Trace` switch, written as a function.
  - `Trace`, a method that builds the fields map and the row text step by step, as the source does. Its contract ties the result to `Route`.
- `properties.dfy`: lemmas that relate calls and inputs.

Design decisions:

- gorm's `LogLevel` is a Go `int`. The adapter only compares levels and treats 0 as unset, so it is modelled as `int`. Levels above Info are therefore possible, as in Go. Such a level opens all three gates, but it routes a successful, fast trace to Debug, because the Info case tests for equality.
- `Trace` takes its environment as plain values:
  - the elapsed time as `int64` nanoseconds;
  - the statement and its row count;
  - the error's text as an `Option`;
  - whether `errors.Is(err, gorm.ErrRecordNotFound)` holds, as a boolean;
  - the caller's file:line string.
- When `SourceField` is `"error"`, the Error case overwrites the source location with the error text. This is the same key logrus uses for errors. The model keeps this behaviour, and `Trace`'s contract states it.

## Model

| member | source | states |
|---|---|---|
| GormLogger.Route | logger.go:67-96 | a trace is dropped exactly when the level is Silent or below. Otherwise it goes to Error exactly when there is an error, the level is at least Error, and the error is not a suppressed "record not found". It goes to Warn exactly when it is not an Error case, a threshold is set, the elapsed time strictly exceeds it, and the level is at least Warn. It goes to Info exactly when neither earlier case holds and the level equals Info. Every other emitted trace goes to Debug |
| GormLogger.Logger.Trace | logger.go:67-96 | emits nothing exactly when the level is Silent or below, and otherwise one entry at the severity `Route` picks. The entry carries the module name, the statement and the elapsed time. The row text is "-" exactly when the count is -1, and otherwise it is the canonical decimal rendering `FormatInt` of the count, which reads back as the count. The field keys are the source field (present exactly when it is non-empty) plus the error key, which appears only in the Error case and holds the error text. The source field holds the file:line unless the error key overwrote it. The slow-query note appears exactly on Warn entries and cites the threshold |
| GormLogger.IsReportedError | logger.go:86 | the Error case of the trace switch holds only with an error and a level above Silent. It never holds for a "record not found" error when those are suppressed, and it always holds for any other error (including an unsuppressed "record not found") once the level is at least Error |
| GormLogger.IsSlow | logger.go:89 | the slow-query case holds only when a threshold is set, the elapsed time strictly exceeds it, and the level is above Silent. It never holds below level Warn. It always holds when a threshold is set, the elapsed time strictly exceeds it, and the level is at least Warn |
| GormLogger.Logger.Gate | logger.go:49-65 | the shape the three gates share: an entry exactly when the level reaches the gate's threshold, carrying the gate's severity, the module name, the format and the arguments |
| GormLogger.Logger.Info | logger.go:49-53 | emits exactly when the level is at least Info, at Info severity, with the module name, format and arguments |
| GormLogger.Logger.Warn | logger.go:55-59 | emits exactly when the level is at least Warn, at Warn severity |
| GormLogger.Logger.Error | logger.go:61-65 | emits exactly when the level is at least Error, at Error severity |
| GormLogger.Logger.LogMode | logger.go:42-47 | the copy has the same backend and the same configuration, except that its level is the given one. The receiver is a value and stays as it was |
| GormLogger.New | logger.go:99-111 | keeps the backend. An empty module name becomes "gorm" and an unset (0) level becomes Info. Non-default values and all other fields are kept. The result is always initialized, and an already initialized configuration is kept unchanged |
| Strconv.FormatNat | logger.go:80 | a non-empty run of digits whose first digit is '0' exactly for 0, and 0 renders as "0" |
| Strconv.FormatInt | logger.go:80 | non-empty and never "-". It starts with '-' exactly for negative numbers and is digits after the sign. It is canonical: 0 renders as "0", and no other number has a leading zero before or after the sign |
| Strconv.FormatNatValue | logger.go:80 | the digits of n denote n |
| Strconv.FormatIntRoundTrip | logger.go:80-83 | reading the rendering of any integer gives back that integer |
| GormLoggerProperties.PlaceholderIsNotNumeric | logger.go:80-83 | the unknown-count placeholder "-" does not read as a number |
| GormLoggerProperties.RowsLogInjective | logger.go:80 | distinct row counts render differently |
| GormLoggerProperties.SuppressedNotFoundIsNoError | logger.go:86-95 | with suppression on, a "record not found" error routes exactly like no error, through the slow, Info and Debug cases |
| GormLoggerProperties.SuppressedNotFoundAtErrorLevelIsDebug | logger.go:86-95 | at level Error, a suppressed "record not found" error is logged at Debug |
| GormLoggerProperties.SuccessAtErrorLevelIsDebug | logger.go:89-95 | at level Error, a successful query goes to Debug even when it is slow |
| GormLoggerProperties.ErrorWinsOverSlow | logger.go:85-91 | a reportable error goes to Error whether or not the query was slow |
| GormLoggerProperties.SlowSuccessIsWarn | logger.go:89-91 | from level Warn upwards, a successful query whose elapsed time strictly exceeds a set threshold is reported at Warn |
| GormLoggerProperties.ThresholdIsStrict | logger.go:89 | a query that takes exactly the threshold is never reported as slow |
| GormLoggerProperties.NoThresholdIgnoresElapsed | logger.go:89 | with a zero threshold, the routing does not depend on the elapsed time |
| GormLoggerProperties.GatesNested | logger.go:49-65 | an open Info gate implies an open Warn gate, and an open Warn gate implies an open Error gate |
| GormLoggerProperties.RouteRespectsGates | logger.go:61-96 | a trace is emitted exactly when the Error gate is open. Error, Warn and Info traces only happen where the gate of that severity is open |
| GormLoggerProperties.LogModeLastWins | logger.go:42-47 | applying `LogMode` twice is the same as applying only the second, and setting the current level gives back the same logger |
| GormLoggerProperties.LogModeMutes | logger.go:42-70 | a copy set to Silent or below emits no trace and passes no gate |

## Left out

- The logrus backend itself is left out: `createEntry`, `WithContext`, `GetLogger` and the actual writing of entries (logger.go:34-40). An entry records the module name separately. The merge of the "module" key with the trace fields inside logrus is not modelled.
- Message formatting is left out. This covers `Infof`/`Warnf`/`Errorf` with their arguments, the trace layouts (logger.go:16-18), the `%.3f` milliseconds, and the `%v` rendering of the threshold in the "SLOW SQL" note. Entries keep the unformatted pieces, and arguments appear as their already-rendered strings.
- `time.Since` and the float conversion to milliseconds (logger.go:72, 79) are left out because they read the clock and use floating point. The elapsed time is an `int64` input in nanoseconds.
- `utils.FileWithLineNum` (logger.go:76) inspects the call stack, so its result is an input string.
- `errors.Is` unwrapping (logger.go:86) is a boolean input.
- GormLogger.Logger.Trace: the `fc` callback is taken as already-evaluated statement and row count. The model therefore does not capture that the source skips `fc` when the level is Silent.
- The `context.Context` arguments are left out. They only reach the backend.
- A nil backend is not modelled: `Backend` is a non-null reference. `New` (logger.go:99-111) accepts a nil `*logrus.Logger`, but then every emission panics inside logrus when `createEntry` calls `WithContext` (logger.go:35). That happens in an open gate, and in `Trace` above level Silent. The model does not capture that panic.
- Concurrent use of the shared backend is left out. The adapter has no concurrency logic of its own.
- The gorm package that defines `LogLevel` and `ErrRecordNotFound` is not part of this model. Its level values are restated in `gorm_level.dfy`.
