# react-native-logkit, modelled in Dafny

This project models the core of react-native-logkit, a leveled logger for React Native:

- **Levels and types.** The numeric `LogLevel` enum (DEBUG..SILENT thresholds, plus the PERF and MID side channels), the default adapter ids, and the adapter and configuration records.
- **Configuration store.** One mutable configuration with `get`, shallow-merge `set` and `reset`, the defaults, and the level colour table.
- **Formatter.** `formatDate` with its zero padding, and `formatLogMessage`.
- **Dispatch engine and adapter registry** (`Logger`). Each call does the following in order:
  1. It gates on the threshold.
  2. It formats the message.
  3. It writes the optional console line.
  4. It fans out to every registered adapter, in registration order.
  5. When an adapter throws, it catches the error and re-reports it at ERROR.

  The registry itself supports register, unregister and reset.
- **Side channels.** The performance and middleware channels. Each is gated by a toggle in a configuration snapshot taken at module load.
- **Timers.** The `Perf` named timers, the `usePerformance` start/end slot, and `measureAsync`.
- **Integrations.** The Sentry, Crashlytics and remote adapters. The model covers their routing decisions and how they register.

Console output is not performed. Each call instead returns what it would write: an `Emission` for the dispatcher, and `Option<string>` lines for the side channels. Clock readings are parameters: `DateTime` fields for `new Date()`, and whole milliseconds for `performance.now()` and `Date.now()`. Third-party SDK calls are also parameters: the model computes the action an adapter takes, and the `sdk` parameter says whether that call throws.

Modules and files:

| file | module | source |
|---|---|---|
| `wrappers.dfy` | `Wrappers` | `Option` |
| `strings.dfy` | `Strings` | the JavaScript string built-ins used (`toString`, `padStart`, `padEnd`, `join`); `split` is a helper used only to state the join round trip |
| `logger_types.dfy` | `LoggerTypes` | src/core/logger-types.ts |
| `logger_config.dfy` | `LoggerConfiguration` | src/config/logger.config.ts |
| `utils.dfy` | `Utils` | src/config/utils.ts |
| `logger.dfy` | `Logging` | src/core/logger.ts |
| `perf_logger.dfy` | `PerfLogger` | src/core/perf-logger.ts |
| `middleware_logger.dfy` | `MiddlewareLogger` | src/core/middleware-logger.ts |
| `performance.dfy` | `Performance` | src/performance/performance.ts |
| `measure_async.dfy` | `Measure` | src/performance/measureAsync.ts |
| `use_performance.dfy` | `UsePerformance` | src/hooks/usePerformance.ts |
| `sentry.dfy` | `SentryIntegration` | src/integrations/sentry.ts |
| `crashlytics.dfy` | `CrashlyticsIntegration` | src/integrations/crashlytics.ts |
| `remote.dfy` | `RemoteIntegration` | src/integrations/remote.ts |

Code that mutates state is modelled as classes:

- `ConfigStore` holds the `_config` closure variable.
- `Logger` holds the adapter `Map` as a sequence kept in insertion order, with distinct ids.
- `Perf` holds the `timers` record as a `map`.
- `PerformanceHook` holds the `startRef` slot.

Pure code is modelled as functions with lemmas.

The dispatcher has two forms:

- `Emit` is the specification function.
- `Logger.Log`, `Logger.CallAdapters` and `Logger.CallAdapter` are the imperative loop, proved equal to `Emit`.

Re-reporting a thrown adapter error is itself a full `log` call, so `Emit` and `Log` take a `fuel` bound on how deeply re-reports nest. When the bound is exhausted, a thrown error is recorded as `Unreported`. The public entry points (`debug`, `info`, `warn`, `error`) dispatch with a single re-report level. See "## Findings" for why.

## Model

| member | source | states |
|---|---|---|
| LoggerTypes.Value | src/core/logger-types.ts:3-11 | each level's enum number is at most 6 and maps back to the same level |
| LoggerTypes.LevelOrder | src/core/logger-types.ts:3-11 | DEBUG..SILENT are 0..4 and strictly increasing; PERF is 5 and MID is 6, both above SILENT |
| LoggerTypes.Name | src/core/logger-types.ts:3-11 | `LogLevel[level]` is the level's identifier, and reading that identifier back gives the level |
| LoggerTypes.LevelEncodingsInjective | src/core/logger-types.ts:3-11 | two levels have the same number, or the same name, exactly when they are the same level |
| LoggerTypes.AdapterId | src/core/logger-types.ts:13-16 | each default adapter type has a non-empty id |
| LoggerTypes.DefaultAdapterIdsDistinct | src/core/logger-types.ts:13-16 | the ids 'crashlytics' and 'sentry' differ |
| LoggerConfiguration.LevelColor | src/config/logger.config.ts:6-14 | the colour is empty exactly for SILENT; every other colour is a five-character ANSI code `ESC [ n n m` |
| LoggerConfiguration.LevelColorsDistinct | src/config/logger.config.ts:6-14 | the colours of DEBUG, INFO, WARN, ERROR, PERF and MID are pairwise distinct |
| LoggerConfiguration.ColorCode | src/config/logger.config.ts:6-14 | the colour number inside each level's code (36, 32, 33, 31, 93, 97) |
| LoggerConfiguration.Merge | src/config/logger.config.ts:43-45 | after a merge, each key present in the partial has the partial's value and each absent key keeps the old value; an explicit `undefined` for `errorsToCapture` clears it |
| LoggerConfiguration.MergeNoChanges | src/config/logger.config.ts:44 | setting the empty partial leaves the configuration unchanged |
| LoggerConfiguration.MergeIdempotent | src/config/logger.config.ts:44 | `set(p); set(p)` equals `set(p)` |
| LoggerConfiguration.MergeOverlay | src/config/logger.config.ts:44 | two sets in a row equal one set of the two partials overlaid, later keys winning |
| LoggerConfiguration.MergeWhole | src/config/logger.config.ts:44 | setting a partial that holds every key replaces the configuration outright |
| LoggerConfiguration.ConfigStore.constructor | src/config/logger.config.ts:19-32 | the store starts at the defaults: DEBUG, all four flags true, `errorsToCapture` = [ERROR] |
| LoggerConfiguration.ConfigStore.Get | src/config/logger.config.ts:38 | `get` returns a value equal to the current configuration; it is a value, so changing it leaves the store alone |
| LoggerConfiguration.ConfigStore.Set | src/config/logger.config.ts:43-45 | the new configuration is the merge of the old one with the partial |
| LoggerConfiguration.ConfigStore.Reset | src/config/logger.config.ts:50-52 | after `reset` the configuration is the defaults, whatever was set before |
| Strings.PadStart | src/config/utils.ts:10 | `padStart` pads with the fill up to the width, keeps the string as the suffix, and never truncates |
| Strings.NatToString | src/config/utils.ts:10 | `num.toString()` of a whole number is a non-empty run of digits, one digit exactly below 10, with no leading zero from 10 on (it reads back as the number: `Strings.ParseNatToString`) |
| Strings.IntToString | src/config/utils.ts:19 | an integer renders as the digits of its magnitude, preceded by `-` exactly when it is negative |
| Strings.Join | src/config/utils.ts:40 | `join` of no parts is "", of one part is that part, and of more parts starts with the first part and the separator (the whole join is inverted by `Strings.SplitJoin`) |
| Strings.PadEnd | src/core/logger.ts:39 | `padEnd` pads with spaces up to the width, keeps the string as the prefix, and never truncates |
| Strings.ParseNatToString | src/config/utils.ts:10 | the decimal rendering of a number reads back as that number |
| Strings.SplitJoin | src/config/utils.ts:36-40 | splitting a join at its separator recovers the parts when no part contains the separator |
| Utils.Pad | src/config/utils.ts:10 | `pad(n)` is "0" and the digit for n < 10, and the unchanged decimal string for n >= 10; it is all digits and reads back as n |
| Utils.FormatDate | src/config/utils.ts:9-20 | the date string starts with the year's decimal rendering followed by `-` (the full layout is `Utils.FormatDateLayout`) |
| Utils.FormatDateLayout | src/config/utils.ts:9-20 | for a four-digit year and in-range fields, the date is 19 characters with '-' at 4 and 7, ' ' at 10, ':' at 13 and 16, and each field (month plus one) reads back from its slot |
| Utils.FormatDateExample | src/config/utils.ts:12-19 | 2024-03-05 08:07:09, given month 2, formats as `2024-03-05 08:07:09` |
| Utils.Render | src/config/utils.ts:38 | a string argument is kept as it is, a non-negative number renders as digits that read back as that number, a boolean as "true" exactly when it is true, and undefined as the empty string |
| Utils.Rendered | src/config/utils.ts:36-39 | each argument is rendered separately, in order |
| Utils.FormatLogMessage | src/config/utils.ts:31-41 | no arguments format as "", and a single argument as its own rendering, so a single string comes back unchanged |
| Utils.FormatIgnoresLevelAndTag | src/config/utils.ts:31-35 | the message does not depend on the level or the tag |
| Utils.FormatAppend | src/config/utils.ts:36-40 | one more argument adds exactly one space and its rendering |
| Utils.FormatSplitsBack | src/config/utils.ts:36-40 | when no rendering contains a space, splitting the message at spaces recovers every rendering, so string arguments appear verbatim |
| Utils.TimestampPrefix | src/core/logger.ts:36-38 | the `[date] ` prefix is non-empty exactly when `formatTimestamp` is on |
| Logging.HasId | src/core/logger.ts:120 | `adapters.has(id)` holds exactly when some registered adapter has that id |
| Logging.Lookup | src/core/logger.ts:9 | a lookup finds an adapter exactly when the id is registered, and the adapter it finds has that id |
| Logging.RemoveId | src/core/logger.ts:149-151 | `delete(id)` leaves no entry for `id`, every other lookup unchanged, the registry unchanged when `id` was absent, and the registry invariant intact |
| Logging.RemoveIdSplices | src/core/logger.ts:149-151 | with distinct ids, deleting the id held at position k removes exactly that entry and keeps every other adapter in its original order, so later fan-outs keep registry order |
| Logging.ConsoleLine | src/core/logger.ts:33-43 | the console line splits into the colour and optional `[date] ` prefix with `[`, the level name padded to five, and `] [tag] `, the message and the reset code |
| Logging.Emit | src/core/logger.ts:27-53 | the call is gated exactly when the level is below the threshold; past the gate, a console line is written exactly when `enableConsoleLogs` is on, and there is one call per adapter |
| Logging.FanOut | src/core/logger.ts:46-52 | the fan-out makes one call per pending adapter |
| Logging.FanOutCall | src/core/logger.ts:46-48 | the i-th call goes to the i-th adapter, with the same level, tag and message |
| Logging.Deliver | src/core/logger.ts:47-51 | a call carries the adapter's id and the level, tag and message it was given; it is recorded as returned exactly when the adapter does not throw, as unreported exactly when it throws with no depth left, and otherwise keeps the thrown error |
| Logging.EveryAdapterCalledOnce | src/core/logger.ts:46-52 | past the gate, every adapter is called once, in registry order, with the same level, tag and formatted message, whether or not console logging is on |
| Logging.GateSuppressesEverything | src/core/logger.ts:28-29 | below the threshold there is no console line and no adapter call |
| Logging.SilentSilencesLeveledCalls | src/core/logger.ts:29 | with the threshold at SILENT, a call at DEBUG, INFO, WARN or ERROR has no effect |
| Logging.ConsoleLineLayout | src/core/logger.ts:33-43 | the console line is the colour, the optional `[date] ` prefix, `[`, the level name padded to five, `] [tag] `, the message and the reset code |
| Logging.FanOutOutcome | src/core/logger.ts:47-51 | an adapter that returns is recorded as returned; one that throws is re-reported by an ERROR dispatch, or recorded as unreported once no depth is left |
| Logging.AdapterIsolation | src/core/logger.ts:46-52 | whatever the adapters do, every adapter is still called once; a thrown error is re-reported at ERROR from tag "Logger" with message "Adapter error: " and the rendered error, and that report is gated exactly when ERROR is below the threshold |
| Logging.ReReportShape | src/core/logger.ts:50 | the re-report is gated exactly when ERROR is below the threshold, and otherwise every call it makes is at ERROR from the tag "Logger" with the message `Adapter error: ` and the rendered error |
| Logging.EmitDepthBound | src/core/logger.ts:46-52 | re-reports never nest deeper than the depth the dispatch was given |
| Logging.ThrowingAdapterExhaustsAnyBound | src/core/logger.ts:46-52 | with an adapter that always throws and the threshold at or below ERROR, the re-reports nest exactly as deep as any bound allows |
| Logging.SingleReReport | src/core/logger.ts:46-52 | a public logging call nests at most one re-report, and an adapter that throws on the original message does get one |
| Logging.Logger.constructor | src/core/logger.ts:9 | the registry starts empty |
| Logging.Logger.Configure | src/core/logger.ts:77-79 | `configure` merges the partial into the configuration |
| Logging.Logger.Reset | src/core/logger.ts:92-95 | `reset` restores the default configuration and empties the registry |
| Logging.Logger.RegisterAdapter | src/core/logger.ts:116-125 | an adapter whose `log` is not a function is rejected with the "Invalid adapter" error; a duplicate id gets the warning and leaves the registry unchanged, keeping the original; otherwise the adapter is appended |
| Logging.Logger.UnregisterAdapter | src/core/logger.ts:149-151 | `unregisterAdapter` removes exactly that id, does nothing when it is absent, and cannot fail |
| Logging.Logger.GetLevel | src/core/logger.ts:156 | `getLevel` returns the configured threshold |
| Logging.Logger.SetLevel | src/core/logger.ts:167-171 | `setLevel` changes only the level |
| Logging.SetLevelThenGetLevel | src/core/logger.ts:156-171 | after `setLevel(l)`, `getLevel()` returns `l` |
| Logging.Logger.Log | src/core/logger.ts:27-53 | the imperative `log` produces exactly the specified emission |
| Logging.Logger.CallAdapters | src/core/logger.ts:46-52 | the `forEach` with one `try`/`catch` per adapter produces exactly the specified fan-out |
| Logging.Logger.CallAdapter | src/core/logger.ts:47-51 | one guarded adapter call: a normal return is recorded as returned, and a throw is caught and re-reported through the full ERROR dispatch |
| Logging.Logger.Debug | src/core/logger.ts:184-185 | `debug` dispatches at DEBUG |
| Logging.Logger.Info | src/core/logger.ts:199 | `info` dispatches at INFO |
| Logging.Logger.Warn | src/core/logger.ts:212 | `warn` dispatches at WARN |
| Logging.Logger.Error | src/core/logger.ts:225-226 | `error` dispatches at ERROR |
| PerfLogger.Log | src/core/perf-logger.ts:5-18 | a line exists exactly when the load-time snapshot enables performance logs; it is the PERF colour, the optional `[date] `, `[PERF] ` and the message, with no reset code |
| PerfLogger.Line | src/core/perf-logger.ts:7-18 | a line exists exactly when the snapshot enables performance logs, and it is the colour, the optional `[date] ` prefix, `[` with the level name and `] `, then the message formatted at PERF |
| PerfLogger.LogIgnoresTag | src/core/perf-logger.ts:9-16 | the tag never affects the line |
| PerfLogger.LogReadsOnlyItsToggles | src/core/perf-logger.ts:5-18 | only the snapshot's performance toggle and timestamp flag matter: no threshold, and no other toggle |
| MiddlewareLogger.Log | src/core/middleware-logger.ts:5-18 | a line exists exactly when the load-time snapshot enables middleware logs; it is the MID colour, the optional `[date] `, `[MID] ` and the message, with no reset code |
| MiddlewareLogger.Line | src/core/middleware-logger.ts:7-18 | a line exists exactly when the snapshot enables middleware logs, and it is the colour, the optional `[date] ` prefix, `[` with the level name and `] `, then the message formatted at MID |
| MiddlewareLogger.LogIgnoresTag | src/core/middleware-logger.ts:9-16 | the tag never affects the line |
| MiddlewareLogger.LogReadsOnlyItsToggles | src/core/middleware-logger.ts:5-18 | only the snapshot's middleware toggle and timestamp flag matter |
| Performance.ToFixed2 | src/performance/performance.ts:35 | a whole duration renders as its decimal digits followed by ".00" |
| Performance.Perf.constructor | src/performance/performance.ts:4-5 | there are no timers at load |
| Performance.Perf.Start | src/performance/performance.ts:15-20 | over own keys only (see "## Findings"): with performance logging on, `start` announces the timer and records `now` under the id, replacing an unfinished timer and leaving the others alone; with it off, nothing changes |
| Performance.Perf.End | src/performance/performance.ts:27-42 | over own keys only (see "## Findings"): with logging off, `end` returns undefined and changes nothing; for a started id it returns the elapsed time, logs it and removes only that timer; for an unstarted id it returns null, warns, and leaves the timers unchanged |
| Performance.TimeSpan | src/performance/performance.ts:15-42 | with a clock that does not run backwards, `start` then `end` yields a duration of at least 0 and removes the timer |
| Performance.ObjectRead | src/performance/performance.ts:31 | as written, `timers[id]` reads an own number exactly when the id is an own key other than `__proto__`, and an inherited member exactly when it is not and the id is an `Object.prototype` name |
| Performance.ObjectStore | src/performance/performance.ts:18 | as written, storing makes the id read back as `now`, except for `__proto__`, where nothing is stored; every other id reads as before |
| Performance.WrittenEnd | src/performance/performance.ts:27-42 | as written, `end` returns undefined exactly when performance logs are off, the elapsed time exactly for an own key other than `__proto__`, NaN exactly for an inherited name that is not an own number, and null otherwise |
| Performance.InheritedIdsEndWithNaN | src/performance/performance.ts:4-42 | as written, over the plain-object record, `end` of an unstarted id named like an `Object.prototype` member (such as 'toString') returns NaN, not null, and `start('__proto__')` then `end('__proto__')` returns NaN too |
| Performance.OrdinaryIdsAgree | src/performance/performance.ts:15-42 | for every other id, the plain-object record behaves like the own-key map of `Perf`: a started timer gives its elapsed time, an unstarted one gives null, and `start` stores the reading |
| Measure.MeasureAsync | src/performance/measureAsync.ts:21-38 | the operation's value, or its error, passes through unchanged; there is exactly one performance line, "completed in" or "failed after" plus the error; the duration is the end reading minus the start reading; no toggle is read here |
| Measure.FailureLineEndsWithError | src/performance/measureAsync.ts:33-36 | with the channel on, the failure line ends with the failure message, a space and the rendered error |
| UsePerformance.PerformanceHook.constructor | src/hooks/usePerformance.ts:4-5 | the start slot is initially empty |
| UsePerformance.PerformanceHook.Start | src/hooks/usePerformance.ts:17-20 | `start` sets the slot to `now`, overwriting any earlier start, without reading any toggle |
| UsePerformance.PerformanceHook.End | src/hooks/usePerformance.ts:28-40 | with an empty slot, `end` logs the "never started" warning; otherwise it logs "✅ label in Nms" with the elapsed time; either way the slot is empty afterwards, and the label defaults to 'completed' |
| UsePerformance.StartEndEnd | src/hooks/usePerformance.ts:28-39 | `start; end; end`: the first `end` reports the time, and the second takes the warning path |
| SentryIntegration.MapLogLevelToSentry | src/integrations/sentry.ts:66-76 | DEBUG, INFO, WARN and ERROR map to distinct severities that read back as the same level; SILENT, PERF and MID map to 'info' |
| LoggerTypes.IsCaptured | src/integrations/sentry.ts:47 | `errorsToCapture?.includes(level)` is false when the list is absent and otherwise holds exactly when the level occurs in the list |
| SentryIntegration.Route | src/integrations/sentry.ts:46-56 | a level in `errorsToCapture` gives only `captureMessage("[tag] message", 'error')`; any other level, and every level when the list is absent, gives only a breadcrumb with the tag, the message and the mapped severity |
| SentryIntegration.DefaultRouting | src/integrations/sentry.ts:46-56 | under the defaults, ERROR is captured and WARN is a 'warning' breadcrumb |
| SentryIntegration.InitSentryLogger | src/integrations/sentry.ts:31-58 | when the SDK fails to load, a WARN from 'SentryIntegration' with the load error, and nothing is registered; otherwise the 'sentry' adapter is registered, routing with the configuration snapshot taken at init |
| CrashlyticsIntegration.FullMessage | src/integrations/crashlytics.ts:26 | the full message is `[`, the tag, `] ` and the message |
| CrashlyticsIntegration.Route | src/integrations/crashlytics.ts:25-33 | a level in `errorsToCapture` goes only to `recordError`, and any other level only to `log`, both with the full message |
| CrashlyticsIntegration.AbsentListOnlyLogs | src/integrations/crashlytics.ts:28 | with `errorsToCapture` absent, every level takes the `log` path |
| CrashlyticsIntegration.InitCrashlyticsLogger | src/integrations/crashlytics.ts:10-35 | when the SDK fails to load, a WARN from 'CrashlyticsIntegration' and nothing is registered; otherwise the 'crashlytics' adapter is registered, routing with the configuration snapshot taken at init |
| RemoteIntegration.Headers | src/integrations/remote.ts:27-30 | the headers are Content-Type 'application/json' overlaid by the caller's headers: the caller's keys are all present and win, including a caller-supplied Content-Type |
| RemoteIntegration.Passes | src/integrations/remote.ts:15 | a level passes the filter always when `minLevel` is absent, and otherwise exactly when it is not below `minLevel` |
| RemoteIntegration.BuildRequest | src/integrations/remote.ts:15-32 | there is no request exactly when `minLevel` is defined and the level is below it, so every level gets a request without `minLevel`; otherwise a POST to the endpoint whose payload names the level and passes tag, message and timestamp through |
| RemoteIntegration.RemoteLog | src/integrations/remote.ts:14-36 | a filtered level makes no request; a failed send is caught and recorded for the warning, never rethrown |
| RemoteIntegration.InitRemoteLogger | src/integrations/remote.ts:11-38 | an adapter is registered under `options.id`, and its `log` never throws synchronously |

## Left out

- Console I/O (`console.log`, `console.warn`) is not performed. The lines and warnings are returned as values (`Emission`, `Option<string>`, `Registration`, `RemoteOutcome`).
- Clocks are parameters:
  - `new Date()` is a `DateTime` of local-time fields;
  - `performance.now()` and `Date.now()` are whole milliseconds;
  - `toISOString()` in the remote payload is a string passed in.
- Performance.ToFixed2: durations are whole milliseconds, so fractional `performance.now()` readings and `toFixed(2)` rounding are not modelled. `usePerformance` prints the duration without `toFixed`, and that is also modelled on whole numbers.
- `JSON.stringify` of non-string arguments is foreign. `Arg.Structured` carries the text it would produce. Its throwing on cyclic values is not modelled.
- The level enum is closed. A numeric level outside 0..6 passed from untyped code, and the `|| ''` fallback for a missing colour, are not modelled.
- Logging.Emit: nested re-reports are bounded by `fuel`. As written, the source nests them until the call stack overflows (see "## Findings"). A nested re-report reuses the same clock reading as the call that caused it.
- Logging.EveryAdapterCalledOnce, Logging.AdapterIsolation: an adapter's `log` is a pure function of its level, tag and message. It cannot call `registerAdapter`, `unregisterAdapter` or `configure` during the fan-out, and it behaves the same for the same arguments. The source's `forEach` walks the live `Map`, so an adapter that registers another one during the walk would also have the new one called, and one it deletes before the walk reaches it would be skipped. The model does not capture that re-entrancy.
- Performance.Perf.Start, Performance.Perf.End, Performance.TimeSpan: these use a record with own keys only, which is the intended behaviour. Ids inherited from `Object.prototype` ('toString', 'constructor', '__proto__', and so on) behave differently in the source, as the "## Findings" row records. That behaviour is modelled separately, by `WrittenEnd` and `ObjectStore`.
- Logging.Logger.RegisterAdapter: the `!adapter` check for a null or undefined adapter is not modelled, because an adapter value always exists here. Only the "log is not a function" case is.
- Explicit `undefined` values in a `Partial<LoggerConfig>` are modelled only for the optional `errorsToCapture`. For the five mandatory fields a present key always carries a value.
- The SDK calls of the Sentry and Crashlytics adapters, and `require`, are foreign. The model computes which call is made, and a parameter says whether it throws.
- CrashlyticsIntegration.InitCrashlyticsLogger: src/integrations/crashlytics.ts:14 stores the module instance, and lines 29 and 31 call that instance as a function. Whether that call succeeds depends on the SDK, so it is folded into the `sdk` parameter.
- Asynchrony is not modelled. The remote adapter's `fetch` is not awaited by the dispatcher, and `measureAsync` awaits its operation; each is treated as an instantaneous outcome.
- Array aliasing of `errorsToCapture` between configuration copies does not arise with immutable sequences.
- `Env` in src/core/logger-types.ts reads the build environment and is not part of this model. src/hooks/useLogger.ts (delegation inside `useMemo`), src/index.tsx (re-exports) and example/src/App.tsx (UI) are not part of this model either.

## Findings

| source | as written | input that shows it | evidently intended | confidence | as-written member | corrected member |
|---|---|---|---|---|---|---|
| src/core/logger.ts:46-52 | a thrown adapter error is re-reported through `Logger.error`, which fans out to every adapter again, the faulting one included | register an adapter whose `log` always throws, keep the threshold at DEBUG, and call `Logger.error('t', 'm')`: each re-report throws again, so the recursion only ends when the stack overflows, and that error escapes into the caller | a single bounded re-report, after which a fault inside the re-report is dropped, so logging calls stay total | high, not executed | Logging.ThrowingAdapterExhaustsAnyBound | Logging.SingleReReport |
| src/performance/performance.ts:4-41 | `timers` is a plain object `{}`, so `timers[id]` also finds the members every object inherits from `Object.prototype`, and assigning a number to `timers['__proto__']` stores nothing | with performance logging on and no timer started, `Perf.end('toString')` reads a function, passes the `!== undefined` test, logs "✅toString took NaN ms" and returns NaN; `Perf.start('__proto__')` then `Perf.end('__proto__')` also returns NaN | only timers that were started count: `end` of an unstarted id returns null with the "not started" warning, and `start` then `end` returns the elapsed time for any id | high, not executed | Performance.InheritedIdsEndWithNaN | Performance.Perf.End |

The public entry points `Logging.Logger.Debug`, `Info`, `Warn` and `Error`, and the integrations that warn through them, dispatch with `ReReportLimit` = 1. `Logging.Logger.Log` keeps the general depth and models the code as written. The `Perf` timers use a record with own keys only. `WrittenEnd` keeps the plain-object lookup as written.
