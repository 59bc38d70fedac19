/**
 * Consequences of the routing rules that relate several calls or several
 * inputs: how a suppressed "record not found" error, the slow-query
 * threshold and the level interact, how the trace routing lines up with the
 * three level gates, and what `LogMode` does to both.
 */
module GormLoggerProperties {
  import opened Wrappers
  import opened Strconv
  import GormLevel
  import opened GormLogger

  /** A suppressed "record not found" error is routed exactly as if there were no error. */
  lemma SuppressedNotFoundIsNoError(cfg: Config, elapsed: Int64)
    requires cfg.skipErrRecordNotFound
    ensures Route(cfg, elapsed, true, true) == Route(cfg, elapsed, false, false)
  {
  }

  /** At level Error, with suppression on, a "record not found" error falls through to Debug. */
  lemma SuppressedNotFoundAtErrorLevelIsDebug(cfg: Config, elapsed: Int64)
    requires cfg.logLevel == GormLevel.Error && cfg.skipErrRecordNotFound
    ensures Route(cfg, elapsed, true, true) == Some(DebugLevel)
  {
  }

  /** At level Error a successful query goes to Debug, however slow it was. */
  lemma SuccessAtErrorLevelIsDebug(cfg: Config, elapsed: Int64, isRecordNotFound: bool)
    requires cfg.logLevel == GormLevel.Error
    ensures Route(cfg, elapsed, false, isRecordNotFound) == Some(DebugLevel)
  {
  }

  /** A reportable error is routed to Error whatever the elapsed time. */
  lemma ErrorWinsOverSlow(cfg: Config, fast: Int64, slow: Int64, isRecordNotFound: bool)
    requires cfg.logLevel >= GormLevel.Error && !(isRecordNotFound && cfg.skipErrRecordNotFound)
    ensures Route(cfg, fast, true, isRecordNotFound) == Route(cfg, slow, true, isRecordNotFound) == Some(ErrorLevel)
  {
  }

  /** A successful query that exceeds a set threshold is reported at Warn from level Warn upwards. */
  lemma SlowSuccessIsWarn(cfg: Config, elapsed: Int64, isRecordNotFound: bool)
    requires cfg.logLevel >= GormLevel.Warn && cfg.slowThreshold != 0 && elapsed > cfg.slowThreshold
    ensures Route(cfg, elapsed, false, isRecordNotFound) == Some(WarnLevel)
  {
  }

  /** A query that takes exactly the threshold is not slow. */
  lemma ThresholdIsStrict(cfg: Config, hasErr: bool, isRecordNotFound: bool)
    ensures Route(cfg, cfg.slowThreshold, hasErr, isRecordNotFound) != Some(WarnLevel)
  {
  }

  /** With no threshold configured, the elapsed time never changes the routing. */
  lemma NoThresholdIgnoresElapsed(cfg: Config, e1: Int64, e2: Int64, hasErr: bool, isRecordNotFound: bool)
    requires cfg.slowThreshold == 0
    ensures Route(cfg, e1, hasErr, isRecordNotFound) == Route(cfg, e2, hasErr, isRecordNotFound)
  {
  }

  /** Each gate that is open is also open for every more severe message. */
  lemma GatesNested(l: Logger, format: string, args: seq<string>)
    ensures l.Info(format, args).Some? ==> l.Warn(format, args).Some?
    ensures l.Warn(format, args).Some? ==> l.Error(format, args).Some?
  {
  }

  /**
   * A trace is emitted at exactly the levels at which the Error gate is open,
   * and a trace at Error, Warn or Info is only emitted where the gate of that
   * severity is open too. Only Debug traces pass a closed gate.
   */
  lemma RouteRespectsGates(l: Logger, elapsed: Int64, hasErr: bool, isRecordNotFound: bool,
                           format: string, args: seq<string>)
    ensures Route(l.config, elapsed, hasErr, isRecordNotFound).Some? <==> l.Error(format, args).Some?
    ensures Route(l.config, elapsed, hasErr, isRecordNotFound) == Some(WarnLevel) ==> l.Warn(format, args).Some?
    ensures Route(l.config, elapsed, hasErr, isRecordNotFound) == Some(InfoLevel) ==> l.Info(format, args).Some?
  {
  }

  /** Only the last `LogMode` counts, and restating the current level changes nothing. */
  lemma LogModeLastWins(l: Logger, first: GormLevel.LogLevel, second: GormLevel.LogLevel)
    ensures l.LogMode(first).LogMode(second) == l.LogMode(second)
    ensures l.LogMode(l.config.logLevel) == l
  {
  }

  /** A copy set to Silent (or to anything below) emits nothing at all. */
  lemma LogModeMutes(l: Logger, level: GormLevel.LogLevel, elapsed: Int64, hasErr: bool, isRecordNotFound: bool,
                     format: string, args: seq<string>)
    requires level <= GormLevel.Silent
    ensures Route(l.LogMode(level).config, elapsed, hasErr, isRecordNotFound).None?
    ensures l.LogMode(level).Error(format, args).None?
    ensures l.LogMode(level).Warn(format, args).None?
    ensures l.LogMode(level).Info(format, args).None?
  {
  }

  /** The unknown-row-count placeholder is not a number, so it cannot be mistaken for a count. */
  lemma PlaceholderIsNotNumeric()
    ensures ParseInt("-") == None
  {
  }

  /** Distinct row counts have distinct decimal renderings. */
  lemma RowsLogInjective(a: Int64, b: Int64)
    requires a != b
    ensures FormatInt(a) != FormatInt(b)
  {
    FormatIntRoundTrip(a);
    FormatIntRoundTrip(b);
  }
}
