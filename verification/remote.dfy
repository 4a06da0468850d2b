/**
 * The remote integration (src/integrations/remote.ts): an adapter that posts
 * each event as JSON. The HTTP request is described, not sent; `timestamp`
 * stands for `new Date().toISOString()` and `fetchError` for a rejected `fetch`.
 */
module RemoteIntegration {
  import opened Wrappers
  import opened LoggerTypes
  import opened Logging

  /** `RemoteLoggerOptions`. */
  datatype RemoteOptions = RemoteOptions(
    id: string,
    endpoint: string,
    headers: Option<map<string, string>>,
    minLevel: Option<LogLevel>)

  /** The JSON body's fields. */
  datatype Payload = Payload(level: string, tag: string, message: string, timestamp: string)

  datatype Request = Request(httpMethod: string, url: string, headers: map<string, string>, body: Payload)

  /** What one adapter call leads to: no request, a request, or a request whose failure is only warned about. */
  datatype RemoteOutcome = Filtered | Sent(request: Request) | SendFailed(request: Request, error: Arg)

  /** `{ 'Content-Type': 'application/json', ...options.headers }`: the caller's headers win. */
  function Headers(options: RemoteOptions): (h: map<string, string>)
    ensures h.Keys == {"Content-Type"} + options.headers.GetOr(map[]).Keys
    ensures forall k :: k in options.headers.GetOr(map[]) ==> h[k] == options.headers.GetOr(map[])[k]
    ensures "Content-Type" !in options.headers.GetOr(map[]) ==> h["Content-Type"] == "application/json"
  {
    map["Content-Type" := "application/json"] + options.headers.GetOr(map[])
  }

  /** Whether the `minLevel` filter lets the level through. */
  function Passes(options: RemoteOptions, level: LogLevel): (b: bool)
    ensures options.minLevel.None? ==> b
    ensures options.minLevel.Some? ==> (b <==> Value(options.minLevel.value) <= Value(level))
  {
    !(options.minLevel.Some? && Value(level) < Value(options.minLevel.value))
  }

  /**
   * The request the adapter makes: none below a defined `minLevel`, otherwise a
   * POST to the endpoint whose payload names the level and passes tag and
   * message through.
   */
  function BuildRequest(options: RemoteOptions, level: LogLevel, tag: string, message: string, timestamp: string)
    : (r: Option<Request>)
    ensures r.Some? <==> Passes(options, level)
    ensures options.minLevel.None? ==> r.Some?
    ensures r.Some? ==>
      && r.value.httpMethod == "POST" && r.value.url == options.endpoint
      && r.value.headers == Headers(options)
      && r.value.body.tag == tag && r.value.body.message == message && r.value.body.timestamp == timestamp
      && FromName(r.value.body.level) == Some(level)
  {
    if Passes(options, level) then
      Some(Request("POST", options.endpoint, Headers(options), Payload(Name(level), tag, message, timestamp)))
    else None
  }

  /** The adapter's `log`: a failed send is caught and only warned about. */
  function RemoteLog(options: RemoteOptions, level: LogLevel, tag: string, message: string, timestamp: string,
                     fetchError: Option<Arg>): (o: RemoteOutcome)
    ensures o.Filtered? <==> !Passes(options, level)
    ensures o.Sent? <==> Passes(options, level) && fetchError.None?
    ensures o.SendFailed? ==> fetchError == Some(o.error)
    ensures !o.Filtered? ==> Some(o.request) == BuildRequest(options, level, tag, message, timestamp)
  {
    match BuildRequest(options, level, tag, message, timestamp)
    case None => Filtered
    case Some(request) =>
      if fetchError.None? then Sent(request) else SendFailed(request, fetchError.value)
  }

  /**
   * `initRemoteLogger`: registers an adapter under `options.id`. Its `log` is
   * asynchronous, so the dispatcher never sees it throw: the synchronous call
   * returns at once, and the asynchronous body, `RemoteLog`, settles later
   * without the dispatcher seeing what it returns.
   */
  method InitRemoteLogger(logger: Logger, options: RemoteOptions) returns (registration: Registration)
    requires logger.Valid()
    modifies logger
    ensures logger.Valid()
    ensures HasId(old(logger.adapters), options.id) ==>
      registration == AlreadyRegistered(DuplicateWarning(options.id)) && logger.adapters == old(logger.adapters)
    ensures !HasId(old(logger.adapters), options.id) ==>
      && registration == Registered
      && |logger.adapters| == |old(logger.adapters)| + 1
      && logger.adapters[..|old(logger.adapters)|] == old(logger.adapters)
      && var a := logger.adapters[|old(logger.adapters)|];
      && a.id == options.id && a.log.Some?
      && forall l, t, m :: a.log.value(l, t, m) == None
  {
    var adapter := LoggerAdapter(options.id, Some((l: LogLevel, t: string, m: string) => None));
    registration := logger.RegisterAdapter(adapter);
  }
}
