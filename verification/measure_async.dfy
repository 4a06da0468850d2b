/**
 * `measureAsync` (src/performance/measureAsync.ts). The awaited operation is
 * given by its outcome and the two `Date.now()` readings around it.
 */
module Measure {
  import opened Wrappers
  import opened Strings
  import opened LoggerTypes
  import opened Utils
  import PerfLogger

  /** How the awaited operation settled. */
  datatype Outcome<T> = Resolved(value: T) | Rejected(error: Arg)

  /** What one `measureAsync` call does: its outcome and its one `PerfLogger.log` call. */
  datatype Measurement<T> = Measurement(outcome: Outcome<T>, perfTag: string, perfArgs: seq<Arg>, line: Option<string>)

  function CompletedMessage(caption: string, duration: int): string {
    "\U{2705} " + caption + " completed in " + IntToString(duration) + "ms"
  }

  function FailedMessage(caption: string, duration: int): string {
    "\U{274C} " + caption + " failed after " + IntToString(duration) + "ms"
  }

  /**
   * `measureAsync(tag, label, fn)`: the operation's value or error passes through
   * unchanged, and exactly one performance-channel call reports the time from
   * entry to settlement. No toggle is consulted here; only the channel's own.
   */
  function MeasureAsync<T>(perfConfig: LoggerConfig, tag: string, caption: string, result: Outcome<T>,
                           startMs: int, endMs: int, date: DateTime): (m: Measurement<T>)
    ensures m.outcome == result
    ensures m.perfTag == tag
    ensures m.line == PerfLogger.Log(perfConfig, tag, m.perfArgs, date)
    ensures result.Resolved? ==> m.perfArgs == [Str(CompletedMessage(caption, endMs - startMs))]
    ensures result.Rejected? ==> m.perfArgs == [Str(FailedMessage(caption, endMs - startMs)), result.error]
  {
    var duration := endMs - startMs;
    match result
    case Resolved(v) =>
      var args := [Str(CompletedMessage(caption, duration))];
      Measurement(Resolved(v), tag, args, PerfLogger.Log(perfConfig, tag, args, date))
    case Rejected(e) =>
      var args := [Str(FailedMessage(caption, duration)), e];
      Measurement(Rejected(e), tag, args, PerfLogger.Log(perfConfig, tag, args, date))
  }

  /**
   * With the channel on, the failure line ends with the failure message, one
   * space and the rendered error.
   */
  lemma FailureLineEndsWithError<T>(perfConfig: LoggerConfig, tag: string, caption: string, e: Arg,
                                    startMs: int, endMs: int, date: DateTime)
    requires perfConfig.enablePerformanceLogs
    ensures var m := MeasureAsync<T>(perfConfig, tag, caption, Rejected(e), startMs, endMs, date);
      var tail := FailedMessage(caption, endMs - startMs) + " " + Render(e);
      && m.line.Some? && |tail| <= |m.line.value|
      && m.line.value[|m.line.value| - |tail|..] == tail
  {
    var msg := FailedMessage(caption, endMs - startMs);
    FormatAppend(Perf, tag, [Str(msg)], e);
    assert [Str(msg)] + [e] == [Str(msg), e];
  }
}
