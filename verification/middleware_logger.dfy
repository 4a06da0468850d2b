/**
 * The middleware channel (src/core/middleware-logger.ts). Its configuration is the
 * snapshot taken once when the module loads, passed here as `snapshot`; it has
 * no threshold gate and no adapter fan-out, and its line carries no tag.
 */
module MiddlewareLogger {
  import opened Wrappers
  import opened LoggerTypes
  import opened LoggerConfiguration
  import opened Utils

  /** The module's inner `log(level, tag, ...args)`: one line when the middleware toggle is on. */
  function Line(snapshot: LoggerConfig, level: LogLevel, tag: string, args: seq<Arg>, now: DateTime): (r: Option<string>)
    ensures r.Some? <==> snapshot.enableMiddlewareLogs
    ensures r.Some? ==>
      var head := LevelColor(level) + TimestampPrefix(snapshot, now) + "[" + Name(level) + "] ";
      && |head| <= |r.value| && r.value[..|head|] == head
      && r.value[|head|..] == FormatLogMessage(Mid, tag, args)
  {
    if snapshot.enableMiddlewareLogs then
      Some(LevelColor(level) + TimestampPrefix(snapshot, now) + "[" + Name(level) + "] "
        + FormatLogMessage(Mid, tag, args))
    else None
  }

  /**
   * `MiddlewareLogger.log(tag, ...args)`, always at level MID: with the toggle on, the
   * MID colour, the optional `[date] ` prefix and `[MID] `, then the message
   * with no colour reset after it.
   */
  function Log(snapshot: LoggerConfig, tag: string, args: seq<Arg>, now: DateTime): (r: Option<string>)
    ensures r.Some? <==> snapshot.enableMiddlewareLogs
    ensures r.Some? ==>
      var head := LevelColor(Mid) + TimestampPrefix(snapshot, now) + "[MID] ";
      && |head| <= |r.value|
      && r.value[..|head|] == head
      && r.value[|head|..] == FormatLogMessage(Mid, tag, args)
  {
    Line(snapshot, Mid, tag, args, now)
  }

  /** The tag never reaches the line: any two tags give the same output. */
  lemma LogIgnoresTag(snapshot: LoggerConfig, t1: string, t2: string, args: seq<Arg>, now: DateTime)
    ensures Log(snapshot, t1, args, now) == Log(snapshot, t2, args, now)
  {
    FormatIgnoresLevelAndTag(Mid, t1, Mid, t2, args);
  }

  /**
   * Only the middleware toggle and the timestamp flag of the snapshot matter:
   * no threshold comparison, and the console and performance toggles play no part.
   */
  lemma LogReadsOnlyItsToggles(s1: LoggerConfig, s2: LoggerConfig, tag: string, args: seq<Arg>, now: DateTime)
    requires s1.enableMiddlewareLogs == s2.enableMiddlewareLogs
    requires s1.formatTimestamp == s2.formatTimestamp
    ensures Log(s1, tag, args, now) == Log(s2, tag, args, now)
  {
  }
}
