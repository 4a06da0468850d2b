/**
 * The dispatch engine and adapter registry (src/core/logger.ts).
 *
 * One call to `log` gates on the configured threshold, formats the message,
 * optionally writes a console line and then calls every registered adapter.
 * Console output and adapter calls are not performed here: they are returned
 * as an `Emission`. An adapter that throws is re-reported through the ERROR
 * channel, which is itself a full `log` call; the `fuel` parameter bounds how
 * deep those re-reports nest.
 */
module Logging {
  import opened Wrappers
  import opened Strings
  import opened LoggerTypes
  import opened LoggerConfiguration
  import opened Utils

  /** The colour reset written at the end of every console line. */
  const ResetCode: string := [Esc] + "[0m"

  /** What became of one adapter call. */
  datatype CallOutcome =
    | Returned
      /** The adapter threw; `report` is the `Logger.error` call that re-reports it. */
    | Reported(error: Arg, report: Emission)
      /** The adapter threw when no re-report depth was left. */
    | Unreported(error: Arg)

  /** One call `adapter.log(level, tag, message)` made during fan-out. */
  datatype AdapterCall = AdapterCall(id: string, level: LogLevel, tag: string, message: string, outcome: CallOutcome)

  /** The observable effect of one `log` call. */
  datatype Emission =
    | Gated
    | Emitted(console: Option<string>, calls: seq<AdapterCall>)

  /** Every registered adapter has a callable `log`. */
  predicate Callable(adapters: seq<LoggerAdapter>) {
    forall i :: 0 <= i < |adapters| ==> adapters[i].log.Some?
  }

  predicate DistinctIds(adapters: seq<LoggerAdapter>) {
    forall i, j :: 0 <= i < j < |adapters| ==> adapters[i].id != adapters[j].id
  }

  /** The registry invariant: callable adapters under unique ids. */
  predicate WellFormed(adapters: seq<LoggerAdapter>) {
    Callable(adapters) && DistinctIds(adapters)
  }

  /** `adapters.has(id)`. */
  function HasId(adapters: seq<LoggerAdapter>, id: string): (b: bool)
    ensures b <==> exists i :: 0 <= i < |adapters| && adapters[i].id == id
  {
    if adapters == [] then false
    else adapters[0].id == id || HasId(adapters[1..], id)
  }

  /** `adapters.get(id)`. */
  function Lookup(adapters: seq<LoggerAdapter>, id: string): (r: Option<LoggerAdapter>)
    ensures r.Some? <==> HasId(adapters, id)
    ensures r.Some? ==> r.value.id == id
  {
    if adapters == [] then None
    else if adapters[0].id == id then Some(adapters[0])
    else Lookup(adapters[1..], id)
  }

  lemma DistinctCons(a: LoggerAdapter, rest: seq<LoggerAdapter>)
    requires DistinctIds(rest) && !HasId(rest, a.id)
    ensures DistinctIds([a] + rest)
  {
    var s := [a] + rest;
    forall i, j | 0 <= i < j < |s| ensures s[i].id != s[j].id {
      if i > 0 {
        assert s[i] == rest[i - 1] && s[j] == rest[j - 1];
      } else {
        assert s[j] == rest[j - 1];
      }
    }
  }

  /** `adapters.delete(id)`: drops that id and keeps every other entry, in order (see `RemoveIdSplices`). */
  function RemoveId(adapters: seq<LoggerAdapter>, id: string): (r: seq<LoggerAdapter>)
    ensures !HasId(r, id)
    ensures forall x :: x != id ==> Lookup(r, x) == Lookup(adapters, x)
    ensures !HasId(adapters, id) ==> r == adapters
    ensures WellFormed(adapters) ==> WellFormed(r)
  {
    if adapters == [] then []
    else if adapters[0].id == id then
      TailWellFormed(adapters);
      RemoveId(adapters[1..], id)
    else
      TailWellFormed(adapters);
      var rest := RemoveId(adapters[1..], id);
      if WellFormed(adapters) then
        assert Lookup(rest, adapters[0].id).None?;
        ConsWellFormed(adapters[0], rest);
        [adapters[0]] + rest
      else
        [adapters[0]] + rest
  }

  /** Dropping the head keeps a registry well formed, and the head's id does not recur. */
  lemma TailWellFormed(adapters: seq<LoggerAdapter>)
    requires adapters != []
    ensures WellFormed(adapters) ==> WellFormed(adapters[1..]) && !HasId(adapters[1..], adapters[0].id)
  {
    if WellFormed(adapters) {
      var tail := adapters[1..];
      forall j | 0 <= j < |tail| ensures tail[j].id != adapters[0].id && tail[j].log.Some? {
        assert tail[j] == adapters[j + 1];
      }
      forall i, j | 0 <= i < j < |tail| ensures tail[i].id != tail[j].id {
        assert tail[i] == adapters[i + 1] && tail[j] == adapters[j + 1];
      }
    }
  }

  lemma ConsWellFormed(a: LoggerAdapter, rest: seq<LoggerAdapter>)
    requires a.log.Some? && WellFormed(rest) && !HasId(rest, a.id)
    ensures WellFormed([a] + rest)
  {
    DistinctCons(a, rest);
    var s := [a] + rest;
    forall i | 0 <= i < |s| ensures s[i].log.Some? {
      if i > 0 {
        assert s[i] == rest[i - 1];
      }
    }
  }

  /**
   * Removal keeps the order of the survivors: with distinct ids, deleting the id
   * at position `k` splices that one entry out and leaves the rest as they were.
   */
  lemma {:induction false} RemoveIdSplices(adapters: seq<LoggerAdapter>, id: string, k: nat)
    requires DistinctIds(adapters) && k < |adapters| && adapters[k].id == id
    ensures RemoveId(adapters, id) == adapters[..k] + adapters[k + 1..]
    decreases k
  {
    var rest := adapters[1..];
    assert DistinctIds(rest) by {
      forall i, j | 0 <= i < j < |rest| ensures rest[i].id != rest[j].id {
        assert rest[i] == adapters[i + 1] && rest[j] == adapters[j + 1];
      }
    }
    if k == 0 {
      assert !HasId(rest, id) by {
        forall j | 0 <= j < |rest| ensures rest[j].id != id {
          assert rest[j] == adapters[j + 1];
        }
      }
      assert RemoveId(adapters, id) == RemoveId(rest, id);
    } else {
      assert adapters[0].id != id;
      assert RemoveId(adapters, id) == [adapters[0]] + RemoveId(rest, id);
      RemoveIdSplices(rest, id, k - 1);
      assert adapters[..k] == [adapters[0]] + rest[..k - 1];
      assert adapters[k + 1..] == rest[k..];
    }
  }

  /** The warning `registerAdapter` writes for a duplicate id. */
  function DuplicateWarning(id: string): string {
    "[Logger] Adapter \"" + id + "\" is already registered."
  }

  const InvalidAdapterMessage: string := "Invalid adapter: must implement log method"

  /** The result of `registerAdapter`: added, a warning for a duplicate, or the thrown error. */
  datatype Registration = Registered | AlreadyRegistered(warning: string) | Rejected(error: string)

  /** The console line for one emitted message. */
  function ConsoleLine(config: LoggerConfig, level: LogLevel, tag: string, message: string, now: DateTime): (r: string)
    ensures var head := LevelColor(level) + TimestampPrefix(config, now) + "[";
      var name := PadEnd(Name(level), 5);
      && |head| + |name| <= |r|
      && r[..|head|] == head
      && r[|head|..|head| + |name|] == name
      && r[|head| + |name|..] == "] [" + tag + "] " + message + ResetCode
  {
    var head := LevelColor(level) + TimestampPrefix(config, now) + "[";
    var name := PadEnd(Name(level), 5);
    var tail := "] [" + tag + "] " + message + ResetCode;
    ThreeSlices(head, name, tail);
    head + name + tail
  }

  /** The arguments of `Logger.error('Logger', 'Adapter error:', error)`. */
  function ReReportArgs(error: Arg): seq<Arg> {
    [Str("Adapter error:"), error]
  }

  /** `log(level, tag, ...args)` against a configuration and a registry. */
  function Emit(config: LoggerConfig, adapters: seq<LoggerAdapter>, level: LogLevel, tag: string,
                args: seq<Arg>, now: DateTime, fuel: nat): (r: Emission)
    requires Callable(adapters)
    ensures r.Gated? <==> Value(level) < Value(config.level)
    ensures r.Emitted? ==> (r.console.Some? <==> config.enableConsoleLogs)
    ensures r.Emitted? ==> |r.calls| == |adapters|
    decreases fuel, 1, 0
  {
    if Value(level) < Value(config.level) then Gated
    else
      var message := FormatLogMessage(level, tag, args);
      var console := if config.enableConsoleLogs then Some(ConsoleLine(config, level, tag, message, now)) else None;
      Emitted(console, FanOut(config, adapters, adapters, level, tag, message, now, fuel))
  }

  /** `adapters.forEach(...)` over the adapters still to be called. */
  function FanOut(config: LoggerConfig, adapters: seq<LoggerAdapter>, pending: seq<LoggerAdapter>,
                  level: LogLevel, tag: string, message: string, now: DateTime, fuel: nat): (r: seq<AdapterCall>)
    requires Callable(adapters) && Callable(pending)
    ensures |r| == |pending|
    decreases fuel, 0, |pending|
  {
    if pending == [] then []
    else
      [Deliver(config, adapters, pending[0], level, tag, message, now, fuel)]
      + FanOut(config, adapters, pending[1..], level, tag, message, now, fuel)
  }

  /** One guarded adapter call: a throw is caught and re-reported at ERROR while fuel lasts. */
  function Deliver(config: LoggerConfig, adapters: seq<LoggerAdapter>, a: LoggerAdapter,
                   level: LogLevel, tag: string, message: string, now: DateTime, fuel: nat): (c: AdapterCall)
    requires Callable(adapters) && a.log.Some?
    ensures c.id == a.id && c.level == level && c.tag == tag && c.message == message
    ensures c.outcome.Returned? <==> a.log.value(level, tag, message).None?
    ensures c.outcome.Unreported? <==> a.log.value(level, tag, message).Some? && fuel == 0
    ensures !c.outcome.Returned? ==> Some(c.outcome.error) == a.log.value(level, tag, message)
    decreases fuel, 0, 0
  {
    var thrown := a.log.value(level, tag, message);
    var outcome :=
      if thrown.None? then Returned
      else if fuel == 0 then Unreported(thrown.value)
      else Reported(thrown.value, Emit(config, adapters, Error, "Logger", ReReportArgs(thrown.value), now, fuel - 1));
    AdapterCall(a.id, level, tag, message, outcome)
  }

  lemma FanOutStep(config: LoggerConfig, adapters: seq<LoggerAdapter>, pending: seq<LoggerAdapter>,
                   level: LogLevel, tag: string, message: string, now: DateTime, fuel: nat)
    requires Callable(adapters) && Callable(pending) && pending != []
    ensures FanOut(config, adapters, pending, level, tag, message, now, fuel)
         == [Deliver(config, adapters, pending[0], level, tag, message, now, fuel)]
            + FanOut(config, adapters, pending[1..], level, tag, message, now, fuel)
  {
  }

  /** A fan-out from position `i` is the delivery to adapter `i` followed by the fan-out from `i + 1`. */
  lemma FanOutAt(config: LoggerConfig, adapters: seq<LoggerAdapter>, i: nat,
                 level: LogLevel, tag: string, message: string, now: DateTime, fuel: nat)
    requires Callable(adapters) && i < |adapters|
    ensures FanOut(config, adapters, adapters[i..], level, tag, message, now, fuel)
         == [Deliver(config, adapters, adapters[i], level, tag, message, now, fuel)]
            + FanOut(config, adapters, adapters[i + 1..], level, tag, message, now, fuel)
  {
    FanOutStep(config, adapters, adapters[i..], level, tag, message, now, fuel);
    assert adapters[i..][1..] == adapters[i + 1..];
  }

  /** The `i`-th call of a fan-out goes to the `i`-th pending adapter with the same level, tag and message. */
  lemma {:induction false} FanOutCall(config: LoggerConfig, adapters: seq<LoggerAdapter>, pending: seq<LoggerAdapter>,
                                      level: LogLevel, tag: string, message: string, now: DateTime, fuel: nat, i: nat)
    requires Callable(adapters) && Callable(pending) && i < |pending|
    ensures var call := FanOut(config, adapters, pending, level, tag, message, now, fuel)[i];
      call == Deliver(config, adapters, pending[i], level, tag, message, now, fuel)
      && call.id == pending[i].id && call.level == level && call.tag == tag && call.message == message
    decreases |pending|
  {
    if i > 0 {
      FanOutCall(config, adapters, pending[1..], level, tag, message, now, fuel, i - 1);
    }
  }

  /**
   * Past the gate, every registered adapter is called exactly once, in registry
   * order, with the same level, tag and formatted message, whether or not a
   * console line is written.
   */
  lemma EveryAdapterCalledOnce(config: LoggerConfig, adapters: seq<LoggerAdapter>, level: LogLevel,
                               tag: string, args: seq<Arg>, now: DateTime, fuel: nat)
    requires Callable(adapters)
    requires Value(config.level) <= Value(level)
    ensures var r := Emit(config, adapters, level, tag, args, now, fuel);
      && r.Emitted? && |r.calls| == |adapters|
      && forall i :: 0 <= i < |adapters| ==>
           && r.calls[i].id == adapters[i].id && r.calls[i].level == level && r.calls[i].tag == tag
           && r.calls[i].message == FormatLogMessage(level, tag, args)
  {
    var message := FormatLogMessage(level, tag, args);
    forall i | 0 <= i < |adapters|
      ensures var c := FanOut(config, adapters, adapters, level, tag, message, now, fuel)[i];
        c.id == adapters[i].id && c.level == level && c.tag == tag && c.message == message
    {
      FanOutCall(config, adapters, adapters, level, tag, message, now, fuel, i);
    }
  }

  /** Below the threshold nothing happens at all: no console line and no adapter call. */
  lemma GateSuppressesEverything(config: LoggerConfig, adapters: seq<LoggerAdapter>, level: LogLevel,
                                 tag: string, args: seq<Arg>, now: DateTime, fuel: nat)
    requires Callable(adapters)
    requires Value(level) < Value(config.level)
    ensures Emit(config, adapters, level, tag, args, now, fuel) == Gated
  {
  }

  /** With the threshold at SILENT, none of debug, info, warn and error has any effect. */
  lemma SilentSilencesLeveledCalls(config: LoggerConfig, adapters: seq<LoggerAdapter>, level: LogLevel,
                                   tag: string, args: seq<Arg>, now: DateTime, fuel: nat)
    requires Callable(adapters)
    requires config.level == Silent && level in {Debug, Info, Warn, Error}
    ensures Emit(config, adapters, level, tag, args, now, fuel) == Gated
  {
  }

  /**
   * Past the gate, the console line has its fixed layout: the level's colour, the
   * optional `[date] ` prefix, the level name padded to five, the tag, the message
   * and the colour reset.
   */
  lemma ConsoleLineLayout(config: LoggerConfig, adapters: seq<LoggerAdapter>, level: LogLevel,
                          tag: string, args: seq<Arg>, now: DateTime, fuel: nat)
    requires Callable(adapters)
    requires Value(config.level) <= Value(level) && config.enableConsoleLogs
    ensures var r := Emit(config, adapters, level, tag, args, now, fuel);
      var head := LevelColor(level) + TimestampPrefix(config, now) + "[";
      var name := PadEnd(Name(level), 5);
      var message := FormatLogMessage(level, tag, args);
      && r.Emitted? && r.console.Some?
      && r.console.value[..|head|] == head
      && r.console.value[|head|..|head| + |name|] == name
      && r.console.value[|head| + |name|..] == "] [" + tag + "] " + message + ResetCode
  {
  }

  lemma ThreeSlices(a: string, b: string, c: string)
    ensures (a + b + c)[..|a|] == a && (a + b + c)[|a|..|a| + |b|] == b && (a + b + c)[|a| + |b|..] == c
  {
  }

  /** The outcome of the `i`-th adapter call in a fan-out. */
  lemma {:induction false} FanOutOutcome(config: LoggerConfig, adapters: seq<LoggerAdapter>, pending: seq<LoggerAdapter>,
                                         level: LogLevel, tag: string, message: string, now: DateTime, fuel: nat, i: nat)
    requires Callable(adapters) && Callable(pending) && i < |pending|
    ensures var call := FanOut(config, adapters, pending, level, tag, message, now, fuel)[i];
      var thrown := pending[i].log.value(level, tag, message);
      && (thrown.None? ==> call.outcome == Returned)
      && (thrown.Some? && fuel == 0 ==> call.outcome == Unreported(thrown.value))
      && (thrown.Some? && fuel > 0 ==>
            call.outcome == Reported(thrown.value,
              Emit(config, adapters, Error, "Logger", ReReportArgs(thrown.value), now, fuel - 1)))
    decreases |pending|
  {
    if i > 0 {
      FanOutOutcome(config, adapters, pending[1..], level, tag, message, now, fuel, i - 1);
    }
  }

  /**
   * Adapter isolation: whatever each adapter does, past the gate every adapter is
   * called once, in registry order, with the same level, tag and message; an
   * adapter that throws has its error re-reported as an ERROR from the tag
   * "Logger" with the message "Adapter error: " followed by the rendered error.
   */
  lemma {:induction false} AdapterIsolation(config: LoggerConfig, adapters: seq<LoggerAdapter>, level: LogLevel,
                                            tag: string, args: seq<Arg>, now: DateTime, fuel: nat, i: nat)
    requires Callable(adapters) && i < |adapters|
    requires Value(config.level) <= Value(level)
    ensures var r := Emit(config, adapters, level, tag, args, now, fuel);
      var message := FormatLogMessage(level, tag, args);
      var thrown := adapters[i].log.value(level, tag, message);
      && r.Emitted? && |r.calls| == |adapters|
      && r.calls[i].id == adapters[i].id && r.calls[i].message == message
      && (thrown.None? ==> r.calls[i].outcome == Returned)
      && (thrown.Some? && fuel > 0 ==>
            && r.calls[i].outcome.Reported?
            && r.calls[i].outcome.error == thrown.value
            && var report := r.calls[i].outcome.report;
            && (report.Gated? <==> Value(Error) < Value(config.level))
            && (report.Emitted? ==> forall k :: 0 <= k < |report.calls| ==>
                  report.calls[k].level == Error && report.calls[k].tag == "Logger"
                  && report.calls[k].message == "Adapter error: " + Render(thrown.value)))
  {
    var message := FormatLogMessage(level, tag, args);
    EveryAdapterCalledOnce(config, adapters, level, tag, args, now, fuel);
    assert Emit(config, adapters, level, tag, args, now, fuel).calls
        == FanOut(config, adapters, adapters, level, tag, message, now, fuel);
    FanOutOutcome(config, adapters, adapters, level, tag, message, now, fuel, i);
    var e := adapters[i].log.value(level, tag, message);
    if e.Some? && fuel > 0 {
      ReReportShape(config, adapters, e.value, now, fuel - 1);
    }
  }

  /** The re-report of a thrown error is an ERROR dispatch from "Logger" whose every call carries the rendered error. */
  lemma ReReportShape(config: LoggerConfig, adapters: seq<LoggerAdapter>, error: Arg, now: DateTime, fuel: nat)
    requires Callable(adapters)
    ensures var report := Emit(config, adapters, Error, "Logger", ReReportArgs(error), now, fuel);
      && (report.Gated? <==> Value(Error) < Value(config.level))
      && (report.Emitted? ==> forall k :: 0 <= k < |report.calls| ==>
            report.calls[k].level == Error && report.calls[k].tag == "Logger"
            && report.calls[k].message == "Adapter error: " + Render(error))
  {
    FormatAppend(Error, "Logger", [Str("Adapter error:")], error);
    assert [Str("Adapter error:")] + [error] == ReReportArgs(error);
    if Value(config.level) <= Value(Error) {
      EveryAdapterCalledOnce(config, adapters, Error, "Logger", ReReportArgs(error), now, fuel);
    }
  }

  /** The deepest chain of nested re-reports inside an emission. */
  function ReportDepth(e: Emission): nat
    decreases e
  {
    if e.Gated? then 0 else CallsDepth(e.calls)
  }

  function CallsDepth(calls: seq<AdapterCall>): nat
    decreases calls
  {
    if calls == [] then 0
    else
      var first := CallDepth(calls[0]);
      var rest := CallsDepth(calls[1..]);
      if first >= rest then first else rest
  }

  function CallDepth(c: AdapterCall): nat
    decreases c
  {
    match c.outcome
    case Reported(_, report) => 1 + ReportDepth(report)
    case _ => 0
  }

  /** Re-reports never nest deeper than the depth the dispatch was given. */
  lemma {:induction false} EmitDepthBound(config: LoggerConfig, adapters: seq<LoggerAdapter>, level: LogLevel,
                                          tag: string, args: seq<Arg>, now: DateTime, fuel: nat)
    requires Callable(adapters)
    ensures ReportDepth(Emit(config, adapters, level, tag, args, now, fuel)) <= fuel
    decreases fuel, 1, 0
  {
    if Value(config.level) <= Value(level) {
      FanOutDepthBound(config, adapters, adapters, level, tag, FormatLogMessage(level, tag, args), now, fuel);
    }
  }

  lemma {:induction false} FanOutDepthBound(config: LoggerConfig, adapters: seq<LoggerAdapter>, pending: seq<LoggerAdapter>,
                                            level: LogLevel, tag: string, message: string, now: DateTime, fuel: nat)
    requires Callable(adapters) && Callable(pending)
    ensures CallsDepth(FanOut(config, adapters, pending, level, tag, message, now, fuel)) <= fuel
    decreases fuel, 0, |pending|
  {
    if pending != [] {
      var calls := FanOut(config, adapters, pending, level, tag, message, now, fuel);
      assert calls[1..] == FanOut(config, adapters, pending[1..], level, tag, message, now, fuel);
      FanOutDepthBound(config, adapters, pending[1..], level, tag, message, now, fuel);
      var thrown := pending[0].log.value(level, tag, message);
      if thrown.Some? && fuel > 0 {
        EmitDepthBound(config, adapters, Error, "Logger", ReReportArgs(thrown.value), now, fuel - 1);
      }
    }
  }

  /**
   * As written, the re-report is a full `log` call that fans out to every
   * adapter again, the faulting one included. An adapter that throws on every
   * call therefore drives the re-reports exactly as deep as any bound allows:
   * the recursion stops only where the bound (in the runtime, the call stack)
   * runs out.
   */
  lemma {:induction false} ThrowingAdapterExhaustsAnyBound(config: LoggerConfig, a: LoggerAdapter, level: LogLevel,
                                                           tag: string, args: seq<Arg>, now: DateTime, fuel: nat)
    requires a.log.Some? && forall l, t, m :: a.log.value(l, t, m).Some?
    requires Value(config.level) <= Value(level) && Value(config.level) <= Value(Error)
    ensures ReportDepth(Emit(config, [a], level, tag, args, now, fuel)) == fuel
    decreases fuel
  {
    var message := FormatLogMessage(level, tag, args);
    var r := Emit(config, [a], level, tag, args, now, fuel);
    FanOutOutcome(config, [a], [a], level, tag, message, now, fuel, 0);
    var thrown := a.log.value(level, tag, message);
    assert CallsDepth(r.calls[1..]) == 0 by { assert r.calls[1..] == []; }
    assert ReportDepth(r) == CallDepth(r.calls[0]);
    if fuel > 0 {
      var report := Emit(config, [a], Error, "Logger", ReReportArgs(thrown.value), now, fuel - 1);
      assert r.calls[0].outcome == Reported(thrown.value, report);
      ThrowingAdapterExhaustsAnyBound(config, a, Error, "Logger", ReReportArgs(thrown.value), now, fuel - 1);
    } else {
      assert r.calls[0].outcome == Unreported(thrown.value);
    }
  }

  /** The depth every public logging call dispatches with: one re-report, whose own faults are dropped. */
  const ReReportLimit: nat := 1

  /**
   * A public logging call makes at most a single re-report, and an adapter that
   * throws on the original message does get that re-report.
   */
  lemma SingleReReport(config: LoggerConfig, adapters: seq<LoggerAdapter>, level: LogLevel,
                       tag: string, args: seq<Arg>, now: DateTime, i: nat)
    requires Callable(adapters) && i < |adapters|
    requires Value(config.level) <= Value(level)
    ensures var r := Emit(config, adapters, level, tag, args, now, ReReportLimit);
      && ReportDepth(r) <= 1
      && (adapters[i].log.value(level, tag, FormatLogMessage(level, tag, args)).Some? ==>
            r.calls[i].outcome.Reported?)
  {
    EmitDepthBound(config, adapters, level, tag, args, now, ReReportLimit);
    AdapterIsolation(config, adapters, level, tag, args, now, ReReportLimit, i);
  }

  /**
   * The logger: the configuration store it reads on every call and the
   * registry of adapters, in insertion order (the iteration order of a `Map`).
   */
  class Logger {
    const store: ConfigStore
    var adapters: seq<LoggerAdapter>

    ghost predicate Valid()
      reads this
    {
      WellFormed(adapters)
    }

    /** Module load: an empty registry over the configuration store. */
    constructor(store: ConfigStore)
      ensures this.store == store && adapters == [] && Valid()
    {
      this.store := store;
      adapters := [];
    }

    /** `Logger.configure`: merge a partial configuration; the registry is untouched. */
    method Configure(p: PartialConfig)
      modifies store
      ensures store.config == Merge(old(store.config), p)
    {
      store.Set(p);
    }

    /** `Logger.reset`: default configuration and an empty registry. */
    method Reset()
      modifies this, store
      ensures store.config == DefaultConfig && adapters == [] && Valid()
    {
      store.Reset();
      adapters := [];
    }

    /** `Logger.registerAdapter`. */
    method RegisterAdapter(adapter: LoggerAdapter) returns (r: Registration)
      requires Valid()
      modifies this
      ensures Valid()
      ensures adapter.log.None? ==> r == Rejected(InvalidAdapterMessage) && adapters == old(adapters)
      ensures adapter.log.Some? && HasId(old(adapters), adapter.id) ==>
        r == AlreadyRegistered(DuplicateWarning(adapter.id)) && adapters == old(adapters)
      ensures adapter.log.Some? && !HasId(old(adapters), adapter.id) ==>
        r == Registered && adapters == old(adapters) + [adapter]
    {
      if adapter.log.None? {
        return Rejected(InvalidAdapterMessage);
      }
      if HasId(adapters, adapter.id) {
        return AlreadyRegistered(DuplicateWarning(adapter.id));
      }
      adapters := adapters + [adapter];
      r := Registered;
    }

    /** `Logger.unregisterAdapter`: never fails. */
    method UnregisterAdapter(id: string)
      requires Valid()
      modifies this
      ensures Valid()
      ensures adapters == RemoveId(old(adapters), id)
    {
      adapters := RemoveId(adapters, id);
    }

    /** `Logger.getLevel`. */
    method GetLevel() returns (level: LogLevel)
      ensures level == store.config.level
    {
      var config := store.Get();
      level := config.level;
    }

    /** `Logger.setLevel`: writes back a copy with only `level` changed. */
    method SetLevel(level: LogLevel)
      modifies store
      ensures store.config == old(store.config).(level := level)
    {
      var config := store.Get();
      config := config.(level := level);
      store.Set(Whole(config));
    }

    /** The module's `log` function. */
    method Log(level: LogLevel, tag: string, args: seq<Arg>, now: DateTime, fuel: nat) returns (r: Emission)
      requires Valid()
      ensures r == Emit(store.config, adapters, level, tag, args, now, fuel)
      decreases fuel, 2
    {
      var config := store.Get();
      if Value(level) < Value(config.level) {
        return Gated;
      }
      var message := FormatLogMessage(level, tag, args);
      var console: Option<string> := None;
      if config.enableConsoleLogs {
        console := Some(ConsoleLine(config, level, tag, message, now));
      }
      var calls := CallAdapters(level, tag, message, now, fuel);
      r := Emitted(console, calls);
    }

    /** The `forEach` over the registry, each call guarded by its own `try`/`catch`. */
    method CallAdapters(level: LogLevel, tag: string, message: string, now: DateTime, fuel: nat)
      returns (calls: seq<AdapterCall>)
      requires Valid()
      ensures calls == FanOut(store.config, adapters, adapters, level, tag, message, now, fuel)
      decreases fuel, 1
    {
      var config := store.Get();
      calls := [];
      var i := 0;
      assert adapters[0..] == adapters;
      while i < |adapters|
        invariant 0 <= i <= |adapters|
        invariant calls + FanOut(config, adapters, adapters[i..], level, tag, message, now, fuel)
               == FanOut(config, adapters, adapters, level, tag, message, now, fuel)
      {
        var call := CallAdapter(adapters[i], level, tag, message, now, fuel);
        FanOutAt(config, adapters, i, level, tag, message, now, fuel);
        calls := calls + [call];
        i := i + 1;
      }
    }

    /** One `try { adapter.log(...) } catch (error) { Logger.error('Logger', 'Adapter error:', error) }`. */
    method CallAdapter(adapter: LoggerAdapter, level: LogLevel, tag: string, message: string, now: DateTime, fuel: nat)
      returns (call: AdapterCall)
      requires Valid() && adapter.log.Some?
      ensures call == Deliver(store.config, adapters, adapter, level, tag, message, now, fuel)
      decreases fuel, 0
    {
      var thrown := adapter.log.value(level, tag, message);
      var outcome: CallOutcome := Returned;
      if thrown.Some? {
        if fuel == 0 {
          outcome := Unreported(thrown.value);
        } else {
          var report := Log(LogLevel.Error, "Logger", ReReportArgs(thrown.value), now, fuel - 1);
          outcome := Reported(thrown.value, report);
        }
      }
      call := AdapterCall(adapter.id, level, tag, message, outcome);
    }

    /** `Logger.debug`. */
    method Debug(tag: string, args: seq<Arg>, now: DateTime) returns (r: Emission)
      requires Valid()
      ensures r == Emit(store.config, adapters, LogLevel.Debug, tag, args, now, ReReportLimit)
    {
      r := Log(LogLevel.Debug, tag, args, now, ReReportLimit);
    }

    /** `Logger.info`. */
    method Info(tag: string, args: seq<Arg>, now: DateTime) returns (r: Emission)
      requires Valid()
      ensures r == Emit(store.config, adapters, LogLevel.Info, tag, args, now, ReReportLimit)
    {
      r := Log(LogLevel.Info, tag, args, now, ReReportLimit);
    }

    /** `Logger.warn`. */
    method Warn(tag: string, args: seq<Arg>, now: DateTime) returns (r: Emission)
      requires Valid()
      ensures r == Emit(store.config, adapters, LogLevel.Warn, tag, args, now, ReReportLimit)
    {
      r := Log(LogLevel.Warn, tag, args, now, ReReportLimit);
    }

    /** `Logger.error`. */
    method Error(tag: string, args: seq<Arg>, now: DateTime) returns (r: Emission)
      requires Valid()
      ensures r == Emit(store.config, adapters, LogLevel.Error, tag, args, now, ReReportLimit)
    {
      r := Log(LogLevel.Error, tag, args, now, ReReportLimit);
    }
  }

  /** `setLevel(l)` followed by `getLevel()` reads `l` back, and nothing but the level changed. */
  method SetLevelThenGetLevel(logger: Logger, level: LogLevel) returns (read: LogLevel)
    modifies logger.store
    ensures read == level
    ensures logger.store.config == old(logger.store.config).(level := level)
  {
    logger.SetLevel(level);
    read := logger.GetLevel();
  }
}
