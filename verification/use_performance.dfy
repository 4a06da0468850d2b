/**
 * The `usePerformance(tag)` hook (src/hooks/usePerformance.ts): one start slot
 * (`startRef.current`) and its `start`/`end` closures. Clock readings of
 * `performance.now()` are passed in as whole milliseconds.
 */
module UsePerformance {
  import opened Wrappers
  import opened Strings
  import opened LoggerTypes
  import opened Utils
  import PerfLogger

  const TrackingStarted: string := "\U{23F1}\U{FE0F} Performance tracking started"
  const NeverStarted: string := "\U{26A0}\U{FE0F} Tried to end performance but it was never started"

  function FinishedMessage(caption: string, duration: int): string {
    "\U{2705} " + caption + " in " + IntToString(duration) + "ms"
  }

  class PerformanceHook {
    const tag: string
    /** The snapshot the performance channel took at its load. */
    const perfConfig: LoggerConfig
    var startRef: Option<int>

    constructor(tag: string, perfConfig: LoggerConfig)
      ensures this.tag == tag && this.perfConfig == perfConfig && startRef == None
    {
      this.tag := tag;
      this.perfConfig := perfConfig;
      startRef := None;
    }

    /** `start`: record `now`, replacing any earlier start; no toggle is checked. */
    method Start(now: int, date: DateTime) returns (line: Option<string>)
      modifies this
      ensures startRef == Some(now)
      ensures line == PerfLogger.Log(perfConfig, tag, [Str(TrackingStarted)], date)
    {
      startRef := Some(now);
      line := PerfLogger.Log(perfConfig, tag, [Str(TrackingStarted)], date);
    }

    /**
     * `end(label = 'completed')`: the elapsed time since the recorded start, or a
     * warning when there is none; either way the slot is empty afterwards.
     */
    method End(now: int, date: DateTime, caption: string := "completed") returns (line: Option<string>)
      modifies this
      ensures startRef == None
      ensures old(startRef).None? ==> line == PerfLogger.Log(perfConfig, tag, [Str(NeverStarted)], date)
      ensures old(startRef).Some? ==>
        line == PerfLogger.Log(perfConfig, tag, [Str(FinishedMessage(caption, now - old(startRef).value))], date)
    {
      if startRef.None? {
        line := PerfLogger.Log(perfConfig, tag, [Str(NeverStarted)], date);
        return;
      }
      var duration := now - startRef.value;
      line := PerfLogger.Log(perfConfig, tag, [Str(FinishedMessage(caption, duration))], date);
      startRef := None;
    }
  }

  /** `start(); end(); end()`: the second `end` takes the warning path. */
  method StartEndEnd(hook: PerformanceHook, t0: int, t1: int, t2: int, date: DateTime)
    returns (first: Option<string>, second: Option<string>)
    modifies hook
    ensures first == PerfLogger.Log(hook.perfConfig, hook.tag, [Str(FinishedMessage("completed", t1 - t0))], date)
    ensures second == PerfLogger.Log(hook.perfConfig, hook.tag, [Str(NeverStarted)], date)
    ensures hook.startRef == None
  {
    var _ := hook.Start(t0, date);
    first := hook.End(t1, date);
    second := hook.End(t2, date);
  }
}
