/**
 * The logger's shared types (src/core/logger-types.ts): the numeric level enum,
 * the default adapter ids, the adapter record and the configuration record.
 */
module LoggerTypes {
  import opened Wrappers

  /**
   * `LogLevel`. Debug..Silent are the ordered thresholds; Perf and Mid are the
   * side-channel markers of the performance and middleware loggers.
   */
  datatype LogLevel = Debug | Info | Warn | Error | Silent | Perf | Mid

  /** The number each level stands for in the TypeScript enum. */
  function Value(l: LogLevel): (n: nat)
    ensures n <= 6
    ensures FromValue(n) == Some(l)
  {
    match l
    case Debug => 0
    case Info => 1
    case Warn => 2
    case Error => 3
    case Silent => 4
    case Perf => 5
    case Mid => 6
  }

  /** The enum's lookup from a number to its level; undefined off the seven values. */
  function FromValue(n: int): Option<LogLevel>
  {
    if n == 0 then Some(Debug)
    else if n == 1 then Some(Info)
    else if n == 2 then Some(Warn)
    else if n == 3 then Some(Error)
    else if n == 4 then Some(Silent)
    else if n == 5 then Some(Perf)
    else if n == 6 then Some(Mid)
    else None
  }

  /** `LogLevel[level]`: the reverse mapping of a numeric enum gives the member's identifier. */
  function Name(l: LogLevel): (s: string)
    ensures 3 <= |s| <= 6
    ensures FromName(s) == Some(l)
  {
    match l
    case Debug => "DEBUG"
    case Info => "INFO"
    case Warn => "WARN"
    case Error => "ERROR"
    case Silent => "SILENT"
    case Perf => "PERF"
    case Mid => "MID"
  }

  /** `LogLevel["DEBUG"]` and so on: the forward mapping from an identifier. */
  function FromName(s: string): Option<LogLevel>
  {
    if s == "DEBUG" then Some(Debug)
    else if s == "INFO" then Some(Info)
    else if s == "WARN" then Some(Warn)
    else if s == "ERROR" then Some(Error)
    else if s == "SILENT" then Some(Silent)
    else if s == "PERF" then Some(Perf)
    else if s == "MID" then Some(Mid)
    else None
  }

  /** The thresholds are 0..4 in strictly increasing order; Perf and Mid lie above Silent. */
  lemma LevelOrder()
    ensures Value(Debug) == 0 && Value(Info) == 1 && Value(Warn) == 2
    ensures Value(Error) == 3 && Value(Silent) == 4
    ensures Value(Debug) < Value(Info) < Value(Warn) < Value(Error) < Value(Silent)
    ensures Value(Perf) == 5 && Value(Mid) == 6
    ensures Value(Silent) < Value(Perf) && Value(Silent) < Value(Mid)
  {
  }

  /** Distinct levels have distinct numbers and distinct names. */
  lemma {:induction false} LevelEncodingsInjective(a: LogLevel, b: LogLevel)
    ensures Value(a) == Value(b) <==> a == b
    ensures Name(a) == Name(b) <==> a == b
  {
    if Value(a) == Value(b) {
      assert Some(a) == FromValue(Value(a)) == FromValue(Value(b)) == Some(b);
    }
    if Name(a) == Name(b) {
      assert Some(a) == FromName(Name(a)) == FromName(Name(b)) == Some(b);
    }
  }

  /** `DefaultAdapterType`: the ids under which the bundled integrations register. */
  datatype DefaultAdapterType = Crashlytics | Sentry

  function AdapterId(t: DefaultAdapterType): (id: string)
    ensures id != ""
  {
    match t
    case Crashlytics => "crashlytics"
    case Sentry => "sentry"
  }

  lemma DefaultAdapterIdsDistinct()
    ensures AdapterId(Crashlytics) != AdapterId(Sentry)
  {
  }

  /**
   * A value handed to the logger as an argument, or thrown by an adapter. The
   * variants are what `typeof` and `JSON.stringify` tell apart; `Structured`
   * carries the indented JSON text the runtime would produce for an object,
   * an array or an Error.
   */
  datatype Arg =
    | Str(s: string)
    | Num(n: int)
    | Bool(b: bool)
    | Null
    | Undefined
    | Structured(json: string)

  /** What calling an adapter's `log` does: returns normally (None) or throws the value. */
  type AdapterLog = (LogLevel, string, string) -> Option<Arg>

  /** `LoggerAdapter`; `log` is None when the object's `log` is not a function. */
  datatype LoggerAdapter = LoggerAdapter(id: string, log: Option<AdapterLog>)

  /** `LoggerConfig`; `errorsToCapture` is the one optional field. */
  datatype LoggerConfig = LoggerConfig(
    level: LogLevel,
    enableConsoleLogs: bool,
    enablePerformanceLogs: bool,
    enableMiddlewareLogs: bool,
    formatTimestamp: bool,
    errorsToCapture: Option<seq<LogLevel>>)

  /** `config.errorsToCapture?.includes(level)`: exact membership, absent means never. */
  function IsCaptured(config: LoggerConfig, level: LogLevel): (b: bool)
    ensures config.errorsToCapture.None? ==> !b
    ensures config.errorsToCapture.Some? ==>
      (b <==> exists i :: 0 <= i < |config.errorsToCapture.value| && config.errorsToCapture.value[i] == level)
  {
    config.errorsToCapture.Some? && level in config.errorsToCapture.value
  }
}
