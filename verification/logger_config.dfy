/**
 * The configuration store (src/config/logger.config.ts): the level colour table,
 * the defaults, and the single mutable configuration behind `get`, `set` and `reset`.
 */
module LoggerConfiguration {
  import opened Wrappers
  import opened LoggerTypes

  /** The ANSI escape character that starts every colour code. */
  const Esc: char := '\U{1B}'

  /** `levelColors`: an ANSI foreground colour per level, none for Silent. */
  function LevelColor(l: LogLevel): (c: string)
    ensures c == "" <==> l == Silent
    ensures c != "" ==> |c| == 5 && c[0] == Esc && c[1] == '[' && c[4] == 'm'
  {
    match l
    case Debug => [Esc] + "[36m"
    case Info => [Esc] + "[32m"
    case Warn => [Esc] + "[33m"
    case Error => [Esc] + "[31m"
    case Silent => ""
    case Perf => [Esc] + "[93m"
    case Mid => [Esc] + "[97m"
  }

  /** Every level other than Silent has a colour of its own. */
  lemma {:induction false} LevelColorsDistinct(a: LogLevel, b: LogLevel)
    requires a != Silent && b != Silent && a != b
    ensures LevelColor(a) != LevelColor(b)
  {
    ColorCode(a);
    ColorCode(b);
    assert LevelColor(a)[2..4] != LevelColor(b)[2..4];
  }

  /** The two digits of the foreign colour number inside a level's colour code. */
  lemma ColorCode(l: LogLevel)
    requires l != Silent
    ensures LevelColor(l)[2..4] == match l
      case Debug => "36" case Info => "32" case Warn => "33" case Error => "31"
      case Perf => "93" case Mid => "97" case Silent => ""
  {
  }

  /** `DEFAULT_CONFIG`. */
  const DefaultConfig: LoggerConfig := LoggerConfig(
    level := Debug,
    enableConsoleLogs := true,
    enablePerformanceLogs := true,
    enableMiddlewareLogs := true,
    formatTimestamp := true,
    errorsToCapture := Some([Error]))

  /**
   * `Partial<LoggerConfig>`: None is an absent key. `errorsToCapture` may also be
   * present with the value `undefined` (Some(None)), which the spread copies over.
   */
  datatype PartialConfig = PartialConfig(
    level: Option<LogLevel>,
    enableConsoleLogs: Option<bool>,
    enablePerformanceLogs: Option<bool>,
    enableMiddlewareLogs: Option<bool>,
    formatTimestamp: Option<bool>,
    errorsToCapture: Option<Option<seq<LogLevel>>>)

  /** The partial with no keys. */
  const NoChanges: PartialConfig := PartialConfig(None, None, None, None, None, None)

  /** The partial holding every key of `c` (what `setLevel` passes back to `set`). */
  function Whole(c: LoggerConfig): PartialConfig {
    PartialConfig(Some(c.level), Some(c.enableConsoleLogs), Some(c.enablePerformanceLogs),
      Some(c.enableMiddlewareLogs), Some(c.formatTimestamp), Some(c.errorsToCapture))
  }

  /** `{ ...c, ...p }`: every key present in `p` wins, every absent key keeps `c`'s value. */
  function Merge(c: LoggerConfig, p: PartialConfig): (r: LoggerConfig)
    ensures p.level.Some? ==> r.level == p.level.value
    ensures p.level.None? ==> r.level == c.level
    ensures p.enableConsoleLogs.Some? ==> r.enableConsoleLogs == p.enableConsoleLogs.value
    ensures p.enableConsoleLogs.None? ==> r.enableConsoleLogs == c.enableConsoleLogs
    ensures p.enablePerformanceLogs.Some? ==> r.enablePerformanceLogs == p.enablePerformanceLogs.value
    ensures p.enablePerformanceLogs.None? ==> r.enablePerformanceLogs == c.enablePerformanceLogs
    ensures p.enableMiddlewareLogs.Some? ==> r.enableMiddlewareLogs == p.enableMiddlewareLogs.value
    ensures p.enableMiddlewareLogs.None? ==> r.enableMiddlewareLogs == c.enableMiddlewareLogs
    ensures p.formatTimestamp.Some? ==> r.formatTimestamp == p.formatTimestamp.value
    ensures p.formatTimestamp.None? ==> r.formatTimestamp == c.formatTimestamp
    ensures p.errorsToCapture.Some? ==> r.errorsToCapture == p.errorsToCapture.value
    ensures p.errorsToCapture.None? ==> r.errorsToCapture == c.errorsToCapture
  {
    LoggerConfig(
      p.level.GetOr(c.level),
      p.enableConsoleLogs.GetOr(c.enableConsoleLogs),
      p.enablePerformanceLogs.GetOr(c.enablePerformanceLogs),
      p.enableMiddlewareLogs.GetOr(c.enableMiddlewareLogs),
      p.formatTimestamp.GetOr(c.formatTimestamp),
      p.errorsToCapture.GetOr(c.errorsToCapture))
  }

  /** Later keys win: `{ ...p, ...q }` for partials. */
  function Overlay(p: PartialConfig, q: PartialConfig): PartialConfig {
    PartialConfig(
      if q.level.Some? then q.level else p.level,
      if q.enableConsoleLogs.Some? then q.enableConsoleLogs else p.enableConsoleLogs,
      if q.enablePerformanceLogs.Some? then q.enablePerformanceLogs else p.enablePerformanceLogs,
      if q.enableMiddlewareLogs.Some? then q.enableMiddlewareLogs else p.enableMiddlewareLogs,
      if q.formatTimestamp.Some? then q.formatTimestamp else p.formatTimestamp,
      if q.errorsToCapture.Some? then q.errorsToCapture else p.errorsToCapture)
  }

  /** Setting nothing changes nothing. */
  lemma MergeNoChanges(c: LoggerConfig)
    ensures Merge(c, NoChanges) == c
  {
  }

  /** Setting the same partial twice is setting it once. */
  lemma MergeIdempotent(c: LoggerConfig, p: PartialConfig)
    ensures Merge(Merge(c, p), p) == Merge(c, p)
  {
  }

  /** Two sets in a row are one set of the overlaid partials. */
  lemma MergeOverlay(c: LoggerConfig, p: PartialConfig, q: PartialConfig)
    ensures Merge(Merge(c, p), q) == Merge(c, Overlay(p, q))
  {
  }

  /** Setting every key replaces the configuration outright. */
  lemma MergeWhole(c: LoggerConfig, d: LoggerConfig)
    ensures Merge(c, Whole(d)) == d
  {
  }

  /** The configuration module: one mutable configuration, created from the defaults. */
  class ConfigStore {
    var config: LoggerConfig

    constructor()
      ensures config == DefaultConfig
    {
      config := DefaultConfig;
    }

    /** `get`: a copy of the configuration (datatype values share no mutable state). */
    method Get() returns (c: LoggerConfig)
      ensures c == config
    {
      c := config;
    }

    /** `set`: shallow merge of the partial over the configuration. */
    method Set(p: PartialConfig)
      modifies this
      ensures config == Merge(old(config), p)
    {
      config := Merge(config, p);
    }

    /** `reset`: back to the defaults, whatever was set before. */
    method Reset()
      modifies this
      ensures config == DefaultConfig
    {
      config := DefaultConfig;
    }
  }
}
