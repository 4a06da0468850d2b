/**
 * The Crashlytics integration (src/integrations/crashlytics.ts). The SDK is
 * foreign: the model decides which SDK call a log event becomes, and `sdk` says
 * whether that call throws. Loading the SDK is given by `loadError`.
 */
module CrashlyticsIntegration {
  import opened Wrappers
  import opened LoggerTypes
  import opened Utils
  import opened Logging

  /** The one SDK call an adapter `log` makes. */
  datatype CrashlyticsAction = RecordError(message: string) | LogMessage(message: string)

  /** `fullMessage`: the tag in brackets, one space, the message. */
  function FullMessage(tag: string, message: string): (s: string)
    ensures |s| == |tag| + 3 + |message|
    ensures s[0] == '[' && s[1..|tag| + 1] == tag && s[|tag| + 1..|tag| + 3] == "] "
    ensures s[|tag| + 3..] == message
  {
    "[" + tag + "] " + message
  }

  /**
   * The adapter's routing: a level listed in `errorsToCapture` goes only to
   * `recordError`, every other level (and every level when the list is absent)
   * only to `log`; both carry the full message.
   */
  function Route(config: LoggerConfig, level: LogLevel, tag: string, message: string): (a: CrashlyticsAction)
    ensures a.RecordError? <==> IsCaptured(config, level)
    ensures a.message == FullMessage(tag, message)
  {
    if IsCaptured(config, level) then RecordError(FullMessage(tag, message))
    else LogMessage(FullMessage(tag, message))
  }

  /** With `errorsToCapture` absent every level is only logged. */
  lemma AbsentListOnlyLogs(config: LoggerConfig, level: LogLevel, tag: string, message: string)
    requires config.errorsToCapture.None?
    ensures Route(config, level, tag, message) == LogMessage(FullMessage(tag, message))
  {
  }

  /** An adapter registered under 'crashlytics' that routes with `config` and hands the action to the SDK. */
  ghost predicate RoutesToCrashlytics(a: LoggerAdapter, config: LoggerConfig, sdk: CrashlyticsAction -> Option<Arg>) {
    && a.id == AdapterId(DefaultAdapterType.Crashlytics)
    && a.log.Some?
    && forall l, t, m :: a.log.value(l, t, m) == sdk(Route(config, l, t, m))
  }

  function SkipMessage(error: string): string {
    "[@react-native-logkit] Crashlytics not installed. Skipping integration. Error: " + error
  }

  /**
   * `initCrashlyticsLogger`: takes the configuration snapshot, then either warns
   * that the SDK is missing and registers nothing, or registers the
   * 'crashlytics' adapter.
   */
  method InitCrashlyticsLogger(logger: Logger, loadError: Option<string>, sdk: CrashlyticsAction -> Option<Arg>,
                               now: DateTime)
    returns (warning: Option<Emission>, registration: Option<Registration>)
    requires logger.Valid()
    modifies logger
    ensures logger.Valid()
    ensures loadError.Some? ==>
      && warning == Some(Emit(logger.store.config, old(logger.adapters), Warn, "CrashlyticsIntegration",
                              [Str(SkipMessage(loadError.value))], now, ReReportLimit))
      && registration == None && logger.adapters == old(logger.adapters)
    ensures loadError.None? && HasId(old(logger.adapters), "crashlytics") ==>
      && warning == None
      && registration == Some(AlreadyRegistered(DuplicateWarning("crashlytics")))
      && logger.adapters == old(logger.adapters)
    ensures loadError.None? && !HasId(old(logger.adapters), "crashlytics") ==>
      && warning == None && registration == Some(Registered)
      && |logger.adapters| == |old(logger.adapters)| + 1
      && logger.adapters[..|old(logger.adapters)|] == old(logger.adapters)
      && RoutesToCrashlytics(logger.adapters[|old(logger.adapters)|], logger.store.config, sdk)
  {
    var config := logger.store.Get();
    if loadError.Some? {
      var w := logger.Warn("CrashlyticsIntegration", [Str(SkipMessage(loadError.value))], now);
      return Some(w), None;
    }
    var adapter := LoggerAdapter(AdapterId(DefaultAdapterType.Crashlytics),
      Some((l: LogLevel, t: string, m: string) => sdk(Route(config, l, t, m))));
    var r := logger.RegisterAdapter(adapter);
    warning, registration := None, Some(r);
  }
}
