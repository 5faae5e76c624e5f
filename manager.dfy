/** The helpers of `APIManager` (`interceptor(for:)`, `cacher(for:)`,
    `session(for:)`) and what each kind of call attaches to its Alamofire
    request before the transport takes over. */
module Manager {
  import opened Wrappers
  import opened Errors
  import opened Http
  import opened Interceptor
  import opened Trust
  import opened Validation
  import opened Responses
  import opened Multipart
  import opened ManagerConfig
  import opened Logging
  import opened ApiRequest
  import opened UrlRequestExt
  import opened Payload
  import opened Authorization

  /** `ResponseCacher.Behavior`, as far as the library uses it. */
  datatype CacheBehavior = Cache | DoNotCache

  /** `cacher(for:)`: cache exactly when the request says it should be
      cached. */
  function Cacher(d: Descriptor): (b: CacheBehavior)
    ensures b == Cache <==> d.shouldCache
    ensures b == DoNotCache <==> !d.shouldCache
  {
    if d.shouldCache then Cache else DoNotCache
  }

  /** Alamofire's `Interceptor`, holding the adapters and retriers it was
      built from. */
  datatype RequestInterceptor = RequestInterceptor(adapters: seq<Adapter>, retriers: seq<Retrier>)

  /** The interceptor a descriptor asks for: exactly its adapters, the
      connection-lost policy first, and then, when it has a token provider, a
      refresh policy for that provider with the default limit that has not
      handled any response yet. */
  ghost predicate InterceptorFor(i: RequestInterceptor, d: Descriptor)
    reads set k | 0 <= k < |i.retriers| && i.retriers[k].RefreshPolicy? :: i.retriers[k].policy
  {
    && i.adapters == AdapterList(d)
    && 1 <= |i.retriers| <= 2 && i.retriers[0] == ConnectionLostRetryPolicy
    && (|i.retriers| == 2 <==> d.authorizationTokenProvider.Some?)
    && (|i.retriers| == 2 ==>
          && i.retriers[1].RefreshPolicy?
          && i.retriers[1].policy.tokenProvider == d.authorizationTokenProvider.value
          && i.retriers[1].policy.retryLimit == DefaultRetryLimit
          && i.retriers[1].policy.lastProceededResponse == Option.None)
  }

  /** `interceptor(for:)`: built from exactly the request's `adapters` and
      `retriers`, with a refresh policy of its own. */
  method MakeInterceptor(d: Descriptor) returns (i: RequestInterceptor)
    ensures InterceptorFor(i, d)
    ensures |i.retriers| == 2 ==> fresh(i.retriers[1].policy)
  {
    var adapters := Adapters(d);
    var retriers := Retriers(d);
    i := RequestInterceptor(adapters, retriers);
  }

  /** Alamofire's `ServerTrustManager`. */
  datatype ServerTrustManager = ServerTrustManager(allHostsMustBeEvaluated: bool, evaluators: map<string, Evaluator>)

  /** The session `session(for:)` sets up, or the `fatalError` it stops the
      process with when the base URL has no host. */
  datatype SessionSetup =
    | FatalError(message: string)
    | Session(trustManager: ServerTrustManager, eventMonitors: seq<EventMonitor>)

  /** The host of the descriptor's base URL, if it parses and has one. */
  function BaseHost(d: Descriptor, parse: UrlParser): Option<string> {
    match parse(d.baseUrl)
    case None => Option.None
    case Some(url) => url.host
  }

  /** `session(for:)`: one trust evaluator, for the base URL's host, chosen
      by the request's trust policy; hosts not in the map are not required
      to be evaluated; the only event monitor is the logger at the request's
      level. */
  function SessionFor(d: Descriptor, parse: UrlParser): (s: SessionSetup)
    ensures s.FatalError? <==> BaseHost(d, parse).None?
    ensures s.FatalError? ==> s.message == "Invalid base url: " + d.baseUrl
    ensures s.Session? ==>
              && !s.trustManager.allHostsMustBeEvaluated
              && s.trustManager.evaluators.Keys == {BaseHost(d, parse).value}
              && s.trustManager.evaluators[BaseHost(d, parse).value] == ServerTrustEvaluator(d.trustPolicy)
              && s.eventMonitors == [Logger(d.logLevel)]
  {
    match BaseHost(d, parse)
    case None => FatalError("Invalid base url: " + d.baseUrl)
    case Some(host) =>
      Session(ServerTrustManager(false, map[host := ServerTrustEvaluator(d.trustPolicy)]), [Logger(d.logLevel)])
  }

  /** What a call has set up when its Alamofire request is handed to the
      transport. */
  datatype Prepared =
    | Crashed(message: string)
    | Started(session: SessionSetup, interceptor: RequestInterceptor, cacher: Option<CacheBehavior>,
              statusChecks: seq<seq<int>>, form: Option<MultipartFormData>)

  /** The `APIManager` method a call goes through: `request(_:)`,
      `download(_:)`, `upload(_:)` for an upload request, or `upload(_:)`
      for a multipart request. */
  datatype ManagerCall = Request | Download | Upload | MultipartUpload

  /** Whether a descriptor can be passed to that method. `request(_:)` takes
      any `APIDataRequest`, and an `APIDownloadRequest` is one too. */
  predicate Accepts(call: ManagerCall, kind: RequestKind) {
    match call
    case Request => kind.DataCall? || kind.DownloadCall?
    case Download => kind.DownloadCall?
    case Upload => kind.UploadCall?
    case MultipartUpload => kind.MultipartCall?
  }

  /** The set-up part of `request`, `download` and the two `upload`s. The
      session comes first, then the interceptor. A multipart upload then
      builds its form data from `bodyParts` before the upload starts. Only
      `request(_:)` attaches the cacher and the status validation, whatever
      the descriptor's protocol. What the completion then receives is
      `Responses.Delivered` of the status checks set up here. */
  method Prepare(d: Descriptor, parse: UrlParser, call: ManagerCall) returns (p: Prepared)
    requires Accepts(call, d.kind)
    ensures p.Crashed? <==> BaseHost(d, parse).None?
    ensures p.Crashed? ==> p.message == "Invalid base url: " + d.baseUrl
    ensures p.Started? ==>
              && p.session == SessionFor(d, parse)
              && InterceptorFor(p.interceptor, d)
              && (|p.interceptor.retriers| == 2 ==> fresh(p.interceptor.retriers[1].policy))
              && (p.cacher.Some? <==> call.Request?)
              && (p.cacher.Some? ==> p.cacher.value == Cacher(d))
              && p.statusChecks == (if call.Request? then Validated([], d.validation) else [])
              && (p.form.Some? <==> call.MultipartUpload?)
              && (p.form.Some? ==> fresh(p.form.value) && p.form.value.entries == Entries(d.kind.bodyParts))
  {
    var session := SessionFor(d, parse);
    if session.FatalError? {
      return Crashed(session.message);
    }
    var interceptor := MakeInterceptor(d);
    var form: Option<MultipartFormData> := Option.None;
    if call.MultipartUpload? {
      var built := AsMultipartFormData(d.kind.bodyParts);
      form := Some(built);
    }
    var cacher: Option<CacheBehavior> := Option.None;
    var checks: seq<seq<int>> := [];
    if call.Request? {
      cacher := Some(Cacher(d));
      checks := Validated(checks, d.validation);
    }
    p := Started(session, interceptor, cacher, checks, form);
  }

  /** With the default validation a data call attaches no status check, so
      every status is accepted and only the body decides the result. */
  lemma DefaultValidationAcceptsEveryStatus(status: int)
    ensures Validated([], ValidationType.None) == []
    ensures Acceptable(Validated([], ValidationType.None), status)
  {
  }

  /** The `GET` request of the Request playground: path `get` on
      `https://postman-echo.com/`, query items `foo1=bar1` and `foo2=bar2`,
      logging at `.verbose`, everything else left at its default. It targets
      `https://postman-echo.com/get`, with no body and the query items handed
      to the query-string encoder. Its session evaluates the host
      `postman-echo.com` with the default evaluator and logs verbosely. */
  lemma RequestPlaygroundExample(parse: UrlParser, encoders: Encoders, platformHeaders: Headers)
    requires parse("https://postman-echo.com/") == Some(Url("https", Some("postman-echo.com"), [], []))
    ensures var items := map["foo1" := "bar1", "foo2" := "bar2"];
            var d := WithDefaults("https://postman-echo.com/", "get", DataCall(Query(items)), platformHeaders)
                       .(logLevel := Verbose);
            var base := BaseRequest(d, parse);
            && base.Success?
            && base.value.url == Some(Url("https", Some("postman-echo.com"), ["get"], []))
            && base.value.httpMethod == Get && base.value.body.None?
            && WireRequest(d, parse, encoders) == ParametersEncoded(base.value, items, QueryString, encoders.encodeParameters)
            && SessionFor(d, parse)
                 == Session(ServerTrustManager(false, map["postman-echo.com" := DefaultEvaluator]), [Logger(Verbose)])
  {
    var items := map["foo1" := "bar1", "foo2" := "bar2"];
    var d := WithDefaults("https://postman-echo.com/", "get", DataCall(Query(items)), platformHeaders)
               .(logLevel := Verbose);
    assert AsUrl(d, parse).value.pathSegments == [] + ["get"];
    assert AsUrl(d, parse).value == Url("https", Some("postman-echo.com"), ["get"], []);
    assert PayloadOf(d.kind) == Some(Query(items));
    assert BaseHost(d, parse) == Some("postman-echo.com");
  }
}
