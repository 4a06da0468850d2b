/**
 * Named timers (src/performance/performance.ts). Clock readings of
 * `performance.now()` are passed in as whole milliseconds. The module reads its
 * own configuration snapshot, taken at load; the lines it writes go through the
 * performance channel, which has a snapshot of its own.
 */
module Performance {
  import opened Wrappers
  import opened Strings
  import opened LoggerTypes
  import opened Utils
  import PerfLogger

  /** What `Perf.end` returns: `undefined`, `null`, or the elapsed milliseconds. */
  datatype EndResult = ReturnsUndefined | ReturnsNull | Duration(ms: int)

  /** `duration.toFixed(2)` for a whole number of milliseconds. */
  function ToFixed2(d: int): (s: string)
    ensures |s| >= 4 && s[|s| - 3..] == ".00" && s[..|s| - 3] == IntToString(d)
  {
    IntToString(d) + ".00"
  }

  function StartMessage(id: string): string {
    "\U{23F1}\U{FE0F} Starting timer for " + id
  }

  function TookMessage(id: string, duration: int): string {
    "\U{2705}" + id + " took " + ToFixed2(duration) + " ms"
  }

  function NotStartedMessage(id: string): string {
    "\U{26A0}\U{FE0F} Timer '" + id + "' was not started"
  }

  /**
   * The members every plain JavaScript object answers through
   * `Object.prototype`. The source's `timers` is such an object (`{}`), so a
   * read under one of these names finds a function rather than `undefined`.
   */
  const InheritedKeys: set<string> := {
    "constructor", "hasOwnProperty", "isPrototypeOf", "propertyIsEnumerable", "toLocaleString",
    "toString", "valueOf", "__proto__", "__defineGetter__", "__defineSetter__",
    "__lookupGetter__", "__lookupSetter__"}

  /** What `timers[id]` reads from a plain object. */
  datatype Slot = OwnNumber(start: int) | InheritedMember | Missing

  /**
   * The record as written: own numeric entries over the inherited members. An
   * own entry under `__proto__` never exists, because assigning a number to
   * `__proto__` stores nothing.
   */
  function ObjectRead(own: map<string, int>, id: string): (s: Slot)
    ensures s.OwnNumber? <==> id in own && id != "__proto__"
    ensures s.OwnNumber? ==> s.start == own[id]
    ensures s.InheritedMember? <==> (id !in own || id == "__proto__") && id in InheritedKeys
  {
    if id in own && id != "__proto__" then OwnNumber(own[id])
    else if id in InheritedKeys then InheritedMember
    else Missing
  }

  /** `timers[id] = performance.now()` as written: ignored for `__proto__`. */
  function ObjectStore(own: map<string, int>, id: string, now: int): (r: map<string, int>)
    ensures id != "__proto__" ==> ObjectRead(r, id) == OwnNumber(now)
    ensures id == "__proto__" ==> r == own
    ensures forall k :: k != id ==> ObjectRead(r, k) == ObjectRead(own, k)
  {
    if id == "__proto__" then own else own[id := now]
  }

  /** What `Perf.end` returns as written; a function minus a number is NaN. */
  datatype WrittenEndResult = WrittenUndefined | WrittenNull | WrittenNumber(ms: int) | WrittenNaN

  /** `Perf.end(id)` as written, over the plain-object record. */
  function WrittenEnd(enabled: bool, own: map<string, int>, id: string, now: int): (r: WrittenEndResult)
    ensures r.WrittenUndefined? <==> !enabled
    ensures r.WrittenNumber? <==> enabled && id in own && id != "__proto__"
    ensures r.WrittenNumber? ==> r.ms == now - own[id]
    ensures r.WrittenNaN? <==> enabled && (id !in own || id == "__proto__") && id in InheritedKeys
    ensures r.WrittenNull? <==> enabled && id !in own && id !in InheritedKeys
  {
    if !enabled then WrittenUndefined
    else match ObjectRead(own, id)
      case OwnNumber(t) => WrittenNumber(now - t)
      case InheritedMember => WrittenNaN
      case Missing => WrittenNull
  }

  /**
   * As written, ending a timer that was never started under an inherited name
   * returns NaN (and logs "took NaN ms") instead of null, and starting and then
   * ending `__proto__` returns NaN instead of the elapsed time.
   */
  lemma InheritedIdsEndWithNaN(own: map<string, int>, id: string, t0: int, t1: int)
    requires id in InheritedKeys && id !in own
    ensures WrittenEnd(true, own, id, t1) == WrittenNaN
    ensures WrittenEnd(true, ObjectStore(own, "__proto__", t0), "__proto__", t1) == WrittenNaN
    ensures WrittenEnd(true, map[], "toString", t1) == WrittenNaN
  {
  }

  /**
   * Off the inherited names the written lookup is the own-key lookup of the
   * corrected `Perf`: a started timer gives its elapsed time, an unstarted one null.
   */
  lemma {:induction false} OrdinaryIdsAgree(own: map<string, int>, id: string, t0: int, t1: int)
    requires id !in InheritedKeys
    ensures id in own ==> WrittenEnd(true, own, id, t1) == WrittenNumber(t1 - own[id])
    ensures id !in own ==> WrittenEnd(true, own, id, t1) == WrittenNull
    ensures ObjectStore(own, id, t0) == own[id := t0]
  {
    assert id != "__proto__";
  }

  /** `Perf` with its `timers` record. */
  class Perf {
    /** The snapshot performance.ts takes at load. */
    const config: LoggerConfig
    /** The snapshot the performance channel took at its own load. */
    const perfConfig: LoggerConfig
    var timers: map<string, int>

    constructor(config: LoggerConfig, perfConfig: LoggerConfig)
      ensures this.config == config && this.perfConfig == perfConfig && timers == map[]
    {
      this.config := config;
      this.perfConfig := perfConfig;
      timers := map[];
    }

    /**
     * `Perf.start(id)`: with performance logging on, announce the timer and record
     * `now` under `id`, replacing an unfinished timer of that id; otherwise nothing.
     */
    method Start(id: string, now: int, date: DateTime) returns (line: Option<string>)
      modifies this
      ensures config.enablePerformanceLogs ==>
        timers == old(timers)[id := now]
        && line == PerfLogger.Log(perfConfig, "PERF", [Str(StartMessage(id))], date)
      ensures !config.enablePerformanceLogs ==> timers == old(timers) && line == None
    {
      line := None;
      if config.enablePerformanceLogs {
        line := PerfLogger.Log(perfConfig, "PERF", [Str(StartMessage(id))], date);
        timers := timers[id := now];
      }
    }

    /**
     * `Perf.end(id, tag = 'PERF')`: `undefined` with performance logging off; the
     * elapsed time, consuming the timer, when `id` was started; otherwise `null`
     * and a warning, with the timers untouched.
     */
    method End(id: string, now: int, date: DateTime, tag: string := "PERF") returns (result: EndResult, line: Option<string>)
      modifies this
      ensures !config.enablePerformanceLogs ==> result == ReturnsUndefined && line == None && timers == old(timers)
      ensures config.enablePerformanceLogs && id in old(timers) ==>
        var duration := now - old(timers)[id];
        && result == Duration(duration)
        && timers == old(timers) - {id}
        && line == PerfLogger.Log(perfConfig, tag, [Str(TookMessage(id, duration))], date)
      ensures config.enablePerformanceLogs && id !in old(timers) ==>
        result == ReturnsNull && timers == old(timers)
        && line == PerfLogger.Log(perfConfig, tag, [Str(NotStartedMessage(id))], date)
    {
      if !config.enablePerformanceLogs {
        return ReturnsUndefined, None;
      }
      if id in timers {
        var duration := now - timers[id];
        line := PerfLogger.Log(perfConfig, tag, [Str(TookMessage(id, duration))], date);
        timers := timers - {id};
        result := Duration(duration);
      } else {
        line := PerfLogger.Log(perfConfig, tag, [Str(NotStartedMessage(id))], date);
        result := ReturnsNull;
      }
    }
  }

  /**
   * A caller that starts and then ends a timer with a clock that does not run
   * backwards gets a non-negative duration, and the timer is gone afterwards.
   */
  method TimeSpan(perf: Perf, id: string, t0: int, t1: int, d0: DateTime, d1: DateTime) returns (result: EndResult)
    requires perf.config.enablePerformanceLogs && t0 <= t1
    modifies perf
    ensures result == Duration(t1 - t0) && result.ms >= 0
    ensures perf.timers == old(perf.timers) - {id}
  {
    var _ := perf.Start(id, t0, d0);
    var line;
    result, line := perf.End(id, t1, d1);
  }
}
