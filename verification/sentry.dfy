/**
 * The Sentry integration (src/integrations/sentry.ts). The SDK is foreign: the
 * model decides which SDK call a log event becomes, and `sdk` says whether that
 * call throws. Loading the SDK is given by `loadError` (None when it loads).
 */
module SentryIntegration {
  import opened Wrappers
  import opened LoggerTypes
  import opened Utils
  import opened Logging

  /** The one SDK call an adapter `log` makes. */
  datatype SentryAction =
    | CaptureMessage(message: string, severity: string)
    | AddBreadcrumb(category: string, message: string, level: string)

  /** `mapLogLevelToSentry`: the four thresholds map to Sentry severities, anything else to 'info'. */
  function MapLogLevelToSentry(level: LogLevel): (s: string)
    ensures s in {"debug", "info", "warning", "error"}
    ensures Value(level) <= Value(Error) ==> SeverityLevel(s) == Some(level)
    ensures Value(level) > Value(Error) ==> s == "info"
  {
    match level
    case Debug => "debug"
    case Info => "info"
    case Warn => "warning"
    case Error => "error"
    case _ => "info"
  }

  /** The level a Sentry severity name stands for (the inverse on the four thresholds). */
  function SeverityLevel(s: string): Option<LogLevel> {
    if s == "debug" then Some(Debug)
    else if s == "info" then Some(Info)
    else if s == "warning" then Some(Warn)
    else if s == "error" then Some(Error)
    else None
  }

  /**
   * The adapter's routing: a level listed in `errorsToCapture` becomes only a
   * captured message at severity 'error'; every other level, and every level when
   * the list is absent, only a breadcrumb.
   */
  function Route(config: LoggerConfig, level: LogLevel, tag: string, message: string): (a: SentryAction)
    ensures a.CaptureMessage? <==> IsCaptured(config, level)
    ensures a.CaptureMessage? ==> a.message == "[" + tag + "] " + message && a.severity == "error"
    ensures a.AddBreadcrumb? ==>
      a.category == tag && a.message == message && a.level == MapLogLevelToSentry(level)
  {
    if IsCaptured(config, level) then CaptureMessage("[" + tag + "] " + message, "error")
    else AddBreadcrumb(tag, message, MapLogLevelToSentry(level))
  }

  /** Under the default `errorsToCapture`, ERROR is captured and WARN is a 'warning' breadcrumb. */
  lemma DefaultRouting(tag: string, message: string)
    ensures Route(LoggerConfiguration.DefaultConfig, Error, tag, message) == CaptureMessage("[" + tag + "] " + message, "error")
    ensures Route(LoggerConfiguration.DefaultConfig, Warn, tag, message) == AddBreadcrumb(tag, message, "warning")
  {
  }

  /** An adapter registered under 'sentry' that routes with `config` and hands the action to the SDK. */
  ghost predicate RoutesToSentry(a: LoggerAdapter, config: LoggerConfig, sdk: SentryAction -> Option<Arg>) {
    && a.id == AdapterId(DefaultAdapterType.Sentry)
    && a.log.Some?
    && forall l, t, m :: a.log.value(l, t, m) == sdk(Route(config, l, t, m))
  }

  function SkipMessage(error: string): string {
    "[@react-native-logkit] Sentry not installed. Skipping integration. Error: " + error
  }

  /**
   * `initSentryLogger`: takes the configuration snapshot, then either warns that
   * the SDK is missing and registers nothing, or registers the 'sentry' adapter.
   */
  method InitSentryLogger(logger: Logger, loadError: Option<string>, sdk: SentryAction -> Option<Arg>,
                          now: DateTime)
    returns (warning: Option<Emission>, registration: Option<Registration>)
    requires logger.Valid()
    modifies logger
    ensures logger.Valid()
    ensures loadError.Some? ==>
      && warning == Some(Emit(logger.store.config, old(logger.adapters), Warn, "SentryIntegration",
                              [Str(SkipMessage(loadError.value))], now, ReReportLimit))
      && registration == None && logger.adapters == old(logger.adapters)
    ensures loadError.None? && HasId(old(logger.adapters), "sentry") ==>
      && warning == None
      && registration == Some(AlreadyRegistered(DuplicateWarning("sentry")))
      && logger.adapters == old(logger.adapters)
    ensures loadError.None? && !HasId(old(logger.adapters), "sentry") ==>
      && warning == None && registration == Some(Registered)
      && |logger.adapters| == |old(logger.adapters)| + 1
      && logger.adapters[..|old(logger.adapters)|] == old(logger.adapters)
      && RoutesToSentry(logger.adapters[|old(logger.adapters)|], logger.store.config, sdk)
  {
    var config := logger.store.Get();
    if loadError.Some? {
      var w := logger.Warn("SentryIntegration", [Str(SkipMessage(loadError.value))], now);
      return Some(w), None;
    }
    var adapter := LoggerAdapter(AdapterId(DefaultAdapterType.Sentry),
      Some((l: LogLevel, t: string, m: string) => sdk(Route(config, l, t, m))));
    var r := logger.RegisterAdapter(adapter);
    warning, registration := None, Some(r);
  }
}
