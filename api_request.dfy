/** The request descriptor (`APIRequest` and the protocols it is made of)
    with its defaults, the URL and base `URLRequest` it produces, the
    encoded request of a data call, the interceptor steps it asks for, and
    the multipart form data of a multipart call. */
module ApiRequest {
  import opened Wrappers
  import opened Errors
  import opened Http
  import opened Payload
  import opened Authorization
  import opened Interceptor
  import opened Trust
  import opened Validation
  import opened Multipart
  import opened ManagerConfig
  import opened Logging

  /** `Settings.default.requestTimeout`, in seconds. */
  const DefaultTimeout: int := 30

  /** The timeout a fresh Foundation `URLRequest` starts with, in seconds. */
  const FoundationTimeout: int := 60

  /** Which of the request protocols a descriptor conforms to, with what that
      protocol adds. A data or download request's `parameters` default to
      `.plain`; an upload request's payload is an opaque handle. */
  datatype RequestKind =
    | DataCall(parameters: RequestPayloadType)
    | DownloadCall(parameters: RequestPayloadType)
    | UploadCall(uploadable: nat)
    | MultipartCall(bodyParts: seq<MultipartRequestPayloadType>)

  /** An `APIRequest` with every property it declares. */
  datatype Descriptor = Descriptor(
    baseUrl: string,
    path: string,
    httpMethod: HttpMethod,
    headers: Headers,
    timeout: int,
    shouldHandleCookies: bool,
    validation: ValidationType,
    shouldCache: bool,
    maximumAttempts: int,
    authorizationTokenProvider: Option<TokenProvider>,
    secretProvider: Option<SecretProvider>,
    trustPolicy: APITrustPolicyType,
    logLevel: LogLevelType,
    kind: RequestKind)

  /** A descriptor that overrides only what the protocols require:
      `platformHeaders` stands for Alamofire's default headers
      (`Accept-Encoding`, `Accept-Language`, `User-Agent`), whose values
      depend on the device. */
  function WithDefaults(baseUrl: string, path: string, kind: RequestKind, platformHeaders: Headers)
    : (d: Descriptor)
    ensures d.baseUrl == baseUrl && d.path == path && d.kind == kind && d.headers == platformHeaders
    ensures d.httpMethod == Get && d.timeout == 30 && d.shouldHandleCookies
    ensures d.validation == ValidationType.None && StatusCodes(d.validation) == []
    ensures !d.shouldCache && d.maximumAttempts == 0
    ensures d.authorizationTokenProvider == Option.None && d.secretProvider == Option.None
    ensures d.trustPolicy == Host && d.logLevel == LogLevelType.None
  {
    Descriptor(baseUrl, path, Get, platformHeaders, DefaultTimeout, true, ValidationType.None, false, 0,
               Option.None, Option.None, Host, LogLevelType.None, kind)
  }

  /** `asURL()`: the parsed base URL with `path` appended as one more
      component, or `invalidBaseUrl` when the base URL does not parse. */
  function AsUrl(d: Descriptor, parse: UrlParser): (r: Result<Url, APIError>)
    ensures r.Failure? <==> parse(d.baseUrl).None?
    ensures r.Failure? ==> r.error == InvalidBaseUrl
    ensures r.Success? ==>
              var base := parse(d.baseUrl).value;
              r.value.pathSegments == base.pathSegments + [d.path]
              && r.value.host == base.host && r.value.scheme == base.scheme && r.value.query == base.query
  {
    match parse(d.baseUrl)
    case None => Failure(InvalidBaseUrl)
    case Some(url) => Success(url.AppendingPathComponent(d.path))
  }

  /** What `urlRequest()` returns: a request for `asURL()` carrying the
      descriptor's method, headers, cookie flag and timeout, and no body. */
  function BaseRequest(d: Descriptor, parse: UrlParser): (r: Result<UrlRequest, APIError>)
    ensures r.Failure? <==> AsUrl(d, parse).Failure?
    ensures r.Failure? ==> r.error == InvalidBaseUrl
    ensures r.Success? ==>
              && r.value.url == Some(AsUrl(d, parse).value)
              && r.value.httpMethod == d.httpMethod && r.value.headers == d.headers
              && r.value.shouldHandleCookies == d.shouldHandleCookies && r.value.timeout == d.timeout
              && r.value.body.None?
  {
    match AsUrl(d, parse)
    case Failure(e) => Failure(e)
    case Success(url) => Success(UrlRequest(Some(url), d.httpMethod, d.headers, Option.None,
                                            d.shouldHandleCookies, d.timeout))
  }

  /** `urlRequest()`: builds the request for the URL, then sets the cookie
      flag and the timeout on it. */
  method MakeUrlRequest(d: Descriptor, parse: UrlParser) returns (r: Result<UrlRequest, APIError>)
    ensures r == BaseRequest(d, parse)
  {
    var url :- AsUrl(d, parse);
    var request := UrlRequest(Some(url), d.httpMethod, d.headers, Option.None, true, FoundationTimeout);
    request := request.(shouldHandleCookies := d.shouldHandleCookies);
    request := request.(timeout := d.timeout);
    return Success(request);
  }

  /** The payload a request encodes into its base request: a data or
      download request's `parameters`; nothing for the others, whose
      `asURLRequest()` is `urlRequest()` itself. */
  function PayloadOf(kind: RequestKind): Option<RequestPayloadType> {
    match kind
    case DataCall(p) => Some(p)
    case DownloadCall(p) => Some(p)
    case UploadCall(_) => Option.None
    case MultipartCall(_) => Option.None
  }

  /** What `asURLRequest()` returns. */
  function WireRequest(d: Descriptor, parse: UrlParser, encoders: Encoders): Result<UrlRequest, APIError> {
    match BaseRequest(d, parse)
    case Failure(e) => Failure(e)
    case Success(base) => Encoded(PayloadOf(d.kind), base, encoders)
  }

  /** `asURLRequest()`: `urlRequest()`, then, for a data request, the payload
      encoder on the result; an error of either step is the error of the
      whole. */
  method AsUrlRequest(d: Descriptor, parse: UrlParser, encoders: Encoders) returns (r: Result<UrlRequest, APIError>)
    ensures r == WireRequest(d, parse, encoders)
    ensures parse(d.baseUrl).None? ==> r == Failure(InvalidBaseUrl)
    ensures BaseRequest(d, parse).Success? ==> r == Encoded(PayloadOf(d.kind), BaseRequest(d, parse).value, encoders)
  {
    var request :- MakeUrlRequest(d, parse);
    if d.kind.DataCall? || d.kind.DownloadCall? {
      r := Encode(Some(d.kind.parameters), request, encoders);
    } else {
      r := Success(request);
    }
  }

  /** The request `asURLRequest()` produces for a data request differs from
      the base request only as its payload makes it: with the default
      `.plain` payload it is the base request itself. */
  lemma PlainDataRequestIsBaseRequest(d: Descriptor, parse: UrlParser, encoders: Encoders)
    requires d.kind == DataCall(Plain)
    ensures WireRequest(d, parse, encoders) == BaseRequest(d, parse)
  {
  }

  /** The adapters a descriptor asks for: the token adapter when it has a
      token provider, then the secret adapter when it has a secret provider. */
  function AdapterList(d: Descriptor): (adapters: seq<Adapter>)
    ensures |adapters| == (if d.authorizationTokenProvider.Some? then 1 else 0)
                          + (if d.secretProvider.Some? then 1 else 0)
    ensures d.authorizationTokenProvider.Some? ==> adapters[0] == TokenAdapter(d.authorizationTokenProvider.value)
    ensures d.secretProvider.Some? ==> adapters[|adapters| - 1] == SecretAdapter(d.secretProvider.value)
  {
    (if d.authorizationTokenProvider.Some? then [TokenAdapter(d.authorizationTokenProvider.value)] else [])
    + (if d.secretProvider.Some? then [SecretAdapter(d.secretProvider.value)] else [])
  }

  /** `adapters`, built by appending to a local array. */
  method Adapters(d: Descriptor) returns (adapters: seq<Adapter>)
    ensures adapters == AdapterList(d)
  {
    adapters := [];
    if d.authorizationTokenProvider.Some? {
      adapters := adapters + [TokenAdapter(d.authorizationTokenProvider.value)];
    }
    if d.secretProvider.Some? {
      adapters := adapters + [SecretAdapter(d.secretProvider.value)];
    }
  }

  /** A `RequestRetrier`: Alamofire's connection-lost policy, or a fresh
      token-refresh policy. */
  datatype Retrier = ConnectionLostRetryPolicy | RefreshPolicy(policy: TokenRefreshPolicy)

  /** `retriers`: the connection-lost policy first, then a new refresh policy
      for the token provider, if there is one, with the default retry limit;
      `maximumAttempts` plays no part. */
  method Retriers(d: Descriptor) returns (retriers: seq<Retrier>)
    ensures 1 <= |retriers| <= 2 && retriers[0] == ConnectionLostRetryPolicy
    ensures |retriers| == 2 <==> d.authorizationTokenProvider.Some?
    ensures |retriers| == 2 ==>
              && retriers[1].RefreshPolicy? && fresh(retriers[1].policy)
              && retriers[1].policy.tokenProvider == d.authorizationTokenProvider.value
              && retriers[1].policy.retryLimit == DefaultRetryLimit
              && retriers[1].policy.lastProceededResponse == Option.None
  {
    retriers := [ConnectionLostRetryPolicy];
    if d.authorizationTokenProvider.Some? {
      var policy := new TokenRefreshPolicy(d.authorizationTokenProvider.value);
      retriers := retriers + [RefreshPolicy(policy)];
    }
  }

  /** `asMultipartFormData()`: a new builder with one `append` per body
      part, in `bodyParts` order. */
  method AsMultipartFormData(bodyParts: seq<MultipartRequestPayloadType>) returns (form: MultipartFormData)
    ensures fresh(form)
    ensures form.entries == Entries(bodyParts)
  {
    form := new MultipartFormData();
    var i := 0;
    assert bodyParts[..0] == [];
    while i < |bodyParts|
      invariant 0 <= i <= |bodyParts|
      invariant form.entries == Entries(bodyParts[..i])
    {
      form.Append(bodyParts[i]);
      assert bodyParts[..i + 1] == bodyParts[..i] + [bodyParts[i]];
      EntriesAppend(bodyParts[..i], [bodyParts[i]]);
      assert Entries([bodyParts[i]]) == [EntryOf(bodyParts[i])];
      i := i + 1;
    }
    assert bodyParts[..i] == bodyParts;
  }
}
