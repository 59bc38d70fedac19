/**
 * The adapter that routes the ORM's log callbacks to a structured logger
 * (logrus). A `Logger` holds a handle on the shared backend and a `Config`;
 * it never changes after construction, and `LogMode` yields a copy.
 *
 * An emission is modelled by what the adapter decides: the backend severity,
 * the entry's fields and the pieces the message is formatted from. The
 * printf-style layout of those pieces is the backend's business.
 */
module GormLogger {
  import opened Wrappers
  import opened Strconv
  import GormLevel

  /** The backend severities the adapter emits at. */
  datatype Severity = ErrorLevel | WarnLevel | InfoLevel | DebugLevel

  /** Structured fields attached to an entry (every value here is a string). */
  type Fields = map<string, string>

  /** The key under which the backend stores an error (logrus' `ErrorKey`). */
  const ErrorKey: string := "error"

  const DefaultModuleName: string := "gorm"

  datatype Config = Config(
    slowThreshold: Int64,        // a duration in nanoseconds; 0 disables slow-query reports
    logLevel: GormLevel.LogLevel,
    skipErrRecordNotFound: bool,
    sourceField: string,         // "" means: no source-location field
    moduleName: string)

  /** The shared backend logger; only its identity matters to the adapter. */
  class Backend {}

  /** A message from `Info`, `Warn` or `Error`: the format and its arguments, unformatted. */
  datatype LogEntry = LogEntry(severity: Severity, moduleName: string, format: string, args: seq<string>)

  /**
   * A message from `Trace`. `slowLog` holds the threshold that the
   * "SLOW SQL >= threshold" note cites, and is present only on a slow-query
   * report. `elapsed` is in nanoseconds.
   */
  datatype TraceEntry = TraceEntry(
    severity: Severity,
    moduleName: string,
    fields: Fields,
    sql: string,
    slowLog: Option<Int64>,
    elapsed: Int64,
    rowsLog: string)

  /** A configuration as `New` leaves it: a module name and a level are set. */
  predicate Initialized(cfg: Config) {
    cfg.moduleName != "" && cfg.logLevel != GormLevel.Unset
  }

  /** The first guard of the trace switch: an error that is reported as such. */
  function IsReportedError(cfg: Config, hasErr: bool, isRecordNotFound: bool): (reported: bool)
    ensures reported ==> hasErr && cfg.logLevel > GormLevel.Silent
    ensures isRecordNotFound && cfg.skipErrRecordNotFound ==> !reported
    ensures hasErr && !(isRecordNotFound && cfg.skipErrRecordNotFound) && cfg.logLevel >= GormLevel.Error ==> reported
  {
    hasErr && cfg.logLevel >= GormLevel.Error && !(isRecordNotFound && cfg.skipErrRecordNotFound)
  }

  /** The second guard of the trace switch: a slow query that is reported as such. */
  function IsSlow(cfg: Config, elapsed: Int64): (slow: bool)
    ensures slow ==> cfg.slowThreshold != 0 && elapsed > cfg.slowThreshold && cfg.logLevel > GormLevel.Silent
    ensures cfg.logLevel < GormLevel.Warn ==> !slow
    ensures cfg.slowThreshold != 0 && elapsed > cfg.slowThreshold && cfg.logLevel >= GormLevel.Warn ==> slow
  {
    cfg.slowThreshold != 0 && elapsed > cfg.slowThreshold && cfg.logLevel >= GormLevel.Warn
  }

  /**
   * The severity a trace is emitted at, or None when it is not emitted. The
   * cases are tried in order and the first that applies wins.
   */
  function Route(cfg: Config, elapsed: Int64, hasErr: bool, isRecordNotFound: bool): (r: Option<Severity>)
    ensures r.None? <==> cfg.logLevel <= GormLevel.Silent
    ensures r == Some(ErrorLevel) <==> IsReportedError(cfg, hasErr, isRecordNotFound)
    ensures r == Some(WarnLevel) <==> !IsReportedError(cfg, hasErr, isRecordNotFound) && IsSlow(cfg, elapsed)
    ensures r == Some(InfoLevel) <==>
      cfg.logLevel == GormLevel.Info && !IsReportedError(cfg, hasErr, isRecordNotFound) && !IsSlow(cfg, elapsed)
    ensures r == Some(DebugLevel) <==>
      GormLevel.Silent < cfg.logLevel && cfg.logLevel != GormLevel.Info &&
      !IsReportedError(cfg, hasErr, isRecordNotFound) && !IsSlow(cfg, elapsed)
  {
    if cfg.logLevel <= GormLevel.Silent then None
    else if IsReportedError(cfg, hasErr, isRecordNotFound) then Some(ErrorLevel)
    else if IsSlow(cfg, elapsed) then Some(WarnLevel)
    else if cfg.logLevel == GormLevel.Info then Some(InfoLevel)
    else Some(DebugLevel)
  }

  datatype Logger = Logger(log: Backend, config: Config) {

    /** A copy of this logger that differs only in its level. */
    function LogMode(level: GormLevel.LogLevel): (r: Logger)
      ensures r.log == log
      ensures r.config.logLevel == level
      ensures r.config.(logLevel := config.logLevel) == config
    {
      this.(config := config.(logLevel := level))
    }

    /** The common shape of the three level gates. */
    function Gate(threshold: GormLevel.LogLevel, severity: Severity, format: string, args: seq<string>)
      : (e: Option<LogEntry>)
      ensures e.Some? <==> config.logLevel >= threshold
      ensures e.Some? ==>
        e.value.severity == severity && e.value.moduleName == config.moduleName &&
        e.value.format == format && e.value.args == args
    {
      if config.logLevel >= threshold then Some(LogEntry(severity, config.moduleName, format, args)) else None
    }

    function Info(format: string, args: seq<string>): (e: Option<LogEntry>)
      ensures e.Some? <==> config.logLevel >= GormLevel.Info
      ensures e.Some? ==> e.value == LogEntry(InfoLevel, config.moduleName, format, args)
    {
      Gate(GormLevel.Info, InfoLevel, format, args)
    }

    function Warn(format: string, args: seq<string>): (e: Option<LogEntry>)
      ensures e.Some? <==> config.logLevel >= GormLevel.Warn
      ensures e.Some? ==> e.value == LogEntry(WarnLevel, config.moduleName, format, args)
    {
      Gate(GormLevel.Warn, WarnLevel, format, args)
    }

    function Error(format: string, args: seq<string>): (e: Option<LogEntry>)
      ensures e.Some? <==> config.logLevel >= GormLevel.Error
      ensures e.Some? ==> e.value == LogEntry(ErrorLevel, config.moduleName, format, args)
    {
      Gate(GormLevel.Error, ErrorLevel, format, args)
    }

    /**
     * Reports one executed statement. The elapsed time, the statement and its
     * row count (-1 when unknown), the error text (if any), whether that error
     * is the ORM's "record not found", and the caller's file:line are inputs.
     */
    method Trace(elapsed: Int64, sql: string, rows: Int64, err: Option<string>, isRecordNotFound: bool,
                 fileWithLineNum: string)
      returns (e: Option<TraceEntry>)
      ensures e.None? <==> config.logLevel <= GormLevel.Silent
      ensures e.Some? ==> Some(e.value.severity) == Route(config, elapsed, err.Some?, isRecordNotFound)
      ensures e.Some? ==>
        e.value.moduleName == config.moduleName && e.value.sql == sql && e.value.elapsed == elapsed
      ensures e.Some? ==> (e.value.slowLog.Some? <==> e.value.severity == WarnLevel)
      ensures e.Some? && e.value.slowLog.Some? ==> e.value.slowLog.value == config.slowThreshold
      // the row count
      ensures e.Some? ==> (e.value.rowsLog == "-" <==> rows == -1)
      ensures e.Some? && rows != -1 ==> e.value.rowsLog == FormatInt(rows)
      // follows from the line above by Strconv.FormatIntRoundTrip
      ensures e.Some? && rows != -1 ==> ParseInt(e.value.rowsLog) == Some(rows)
      // the fields
      ensures e.Some? ==>
        e.value.fields.Keys ==
          (if config.sourceField != "" then {config.sourceField} else {}) +
          (if e.value.severity == ErrorLevel then {ErrorKey} else {})
      ensures e.Some? && e.value.severity == ErrorLevel ==>
        err.Some? && e.value.fields[ErrorKey] == err.value
      ensures (e.Some? && config.sourceField != "" &&
               !(config.sourceField == ErrorKey && e.value.severity == ErrorLevel)) ==>
        e.value.fields[config.sourceField] == fileWithLineNum
    {
      if config.logLevel <= GormLevel.Silent {
        return None;
      }

      var fields: Fields := map[];
      if config.sourceField != "" {
        fields := fields[config.sourceField := fileWithLineNum];
      }

      var rowsLog := FormatInt(rows);
      if rows == -1 {
        rowsLog := "-";
      }
      FormatIntRoundTrip(rows);

      var severity: Severity;
      var slowLog: Option<Int64> := None;
      if IsReportedError(config, err.Some?, isRecordNotFound) {
        fields := fields[ErrorKey := err.value];
        severity := ErrorLevel;
      } else if IsSlow(config, elapsed) {
        slowLog := Some(config.slowThreshold);
        severity := WarnLevel;
      } else if config.logLevel == GormLevel.Info {
        severity := InfoLevel;
      } else {
        severity := DebugLevel;
      }
      e := Some(TraceEntry(severity, config.moduleName, fields, sql, slowLog, elapsed, rowsLog));
    }
  }

  /**
   * Builds a logger on a shared backend, filling in the module name and the
   * level when the configuration leaves them unset.
   */
  method New(log: Backend, config: Config) returns (l: Logger)
    ensures l.log == log
    ensures config.moduleName == "" ==> l.config.moduleName == DefaultModuleName
    ensures config.moduleName != "" ==> l.config.moduleName == config.moduleName
    ensures config.logLevel == GormLevel.Unset ==> l.config.logLevel == GormLevel.Info
    ensures config.logLevel != GormLevel.Unset ==> l.config.logLevel == config.logLevel
    ensures l.config.slowThreshold == config.slowThreshold
    ensures l.config.skipErrRecordNotFound == config.skipErrRecordNotFound
    ensures l.config.sourceField == config.sourceField
    ensures Initialized(l.config)
    ensures Initialized(config) ==> l.config == config
  {
    var c := config;
    if c.moduleName == "" {
      c := c.(moduleName := DefaultModuleName);
    }
    if c.logLevel == GormLevel.Unset {
      c := c.(logLevel := GormLevel.Info);
    }
    l := Logger(log, c);
  }
}
