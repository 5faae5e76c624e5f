# SFNetworkKit in Dafny

A model of the request-building and interception core of SFNetworkKit, a
Swift networking layer over Alamofire. An application describes each call as
an `APIRequest` value: a base URL, a path, a method, headers, a payload, and
optional authorization, secret, caching, validation, trust and logging
settings. From that description the library does the following:

- builds a `URLRequest`;
- encodes the payload into that request (`RequestPayloadEncoder`);
- attaches two header-injecting adapters, the secret adapter and the
  authorization-token adapter;
- attaches a retrier that refreshes an expired token after a 401. It does
  so at most `retryLimit` times per call, and not twice in a row for the
  same response;
- chooses a cache behaviour and status-code validation;
- sets up a session whose one host is evaluated by a trust evaluator chosen
  from the request's trust policy.

The model gives each part the form it has in the source:

- Values become datatypes: `URLRequest`, `URL`, the payload enums, the
  authorization types, the trust policies, the errors and the configuration
  structs. Pure computations over them become functions with contracts.
- Step-by-step updates of a `var urlRequest` become methods, each proved
  equal to a specification function. These are `Payload.Encode`,
  `UrlRequestExt.EncodedEncodable`, `ApiRequest.MakeUrlRequest` and
  `ApiRequest.AsUrlRequest`. The properties of the library are proved about
  those functions.
- The token-refresh policy, whose `lastProceededResponse` changes from call
  to call, is a class. Its `Retry` method is tied to the transition function
  `Interceptor.Decide`. Lemmas over sequences of consultations bound how
  often a refresh runs.
- Alamofire's `MultipartFormData`, which the library fills by appending one
  body part at a time, is a class whose `entries` sequence records each
  append.

Foundation and Alamofire are outside the model, and so are the
application's own encoders. Their results come in as function-typed
parameters:

- URL parsing (`URL(string:)`) is a `UrlParser`;
- `JSONEncoder` is a `JsonSerializer`;
- `URLEncoding` is a `ParameterEncoder`.

Four choices of the code shape the model:

- `adapters` puts the authorization-token adapter before the secret adapter
  (`SFNetworkKit/Classes/APIRequest.swift:127-139`).
- A missing or empty token therefore stops the adapter chain before the
  secret header is added, and the request is not sent at all
  (`Interceptor.TokenFailureStopsChain`).
- The refresh policy is created with its own `retryLimit`, 2 by default
  (`SFNetworkKit/Classes/Interceptor.swift:54`,
  `SFNetworkKit/Classes/APIRequest.swift:141-151`). The doc comment of
  `maximumAttempts` (`SFNetworkKit/Classes/APIRequest.swift:278`) describes
  a bound on refresh attempts within an interval. No code reads that
  property, and the model follows the code.
- The doc comment of `lastProceededResponse`
  (`SFNetworkKit/Classes/Interceptor.swift:59`) says the refresh runs once
  per response. The code compares the response only with the last one it
  handled. A call whose attempts fail with 401 responses A, B and then A
  again refreshes for A twice. With the default limit 2 the third attempt
  is already past the limit; a custom limit of 3 or more lets all three
  refreshes happen (`Interceptor.DedupRemembersOnlyLastResponse`).

Source files by module:

| module (file) | source |
|---|---|
| `Wrappers` (wrappers.dfy) | Swift's `Optional` and `Result` |
| `Errors` (errors.dfy) | `SFNetworkKit/Classes/Error.swift` |
| `Http` (http.dfy) | Foundation's `URL` and `URLRequest`, and Alamofire's `HTTPMethod` and `HTTPHeaders`, as values |
| `UrlRequestExt` (url_request_ext.dfy) | `URLRequest+NetworkKit.swift` |
| `Payload` (payload.dfy) | `SFNetworkKit/Classes/Payload.swift` |
| `Authorization` (authorization.dfy) | `SFNetworkKit/Classes/Authorization.swift` |
| `Interceptor` (interceptor.dfy) | `SFNetworkKit/Classes/Interceptor.swift` |
| `Validation` (validation.dfy) | `SFNetworkKit/Classes/Validation.swift` |
| `Responses` (responses.dfy) | `Extensions/Alamofire.DataRequest+NetworkKit.swift`, `Extensions/Alamofire.DownloadRequest+NetworkKit.swift` |
| `Trust` (trust.dfy) | `SFNetworkKit/Classes/TrustPolicy.swift`, and the `serverTrustEvaluator()` function of `APIRequest.swift` |
| `Multipart` (multipart.dfy) | `Extensions/Alamofire.MultipartFormData+NetworkKit.swift` |
| `Logging` (logging.dfy) | `LogLevelType` and the `AlamofireLogger` event monitor of `SFNetworkKit/Classes/Logging.swift` |
| `ManagerConfig` (manager_config.dfy) | `SFNetworkKit/Classes/APIManagerConfig.swift` |
| `ApiRequest` (api_request.dfy) | `SFNetworkKit/Classes/APIRequest.swift` |
| `Manager` (manager.dfy) | `SFNetworkKit/Classes/APIManager.swift` |

## Model

| member | source | states |
|---|---|---|
| Errors.GetAsAPIError | SFNetworkKit/Classes/Error.swift:40-46 | An `APIError` comes back unchanged; any other error is wrapped as `unknown(error)` |
| Errors.GetAsAPIErrorIdempotent | SFNetworkKit/Classes/Error.swift:40-46 | Converting an already converted error changes nothing |
| Errors.GetAsAPIErrorUnknownIff | SFNetworkKit/Classes/Error.swift:40-46 | The result is `unknown(inner)` exactly when the error is `inner` and is not an `APIError`, or is itself `unknown(inner)` |
| UrlRequestExt.JsonEncoded | URLRequest+NetworkKit.swift:12-30 | Fails exactly when the serializer fails, with `jsonEncodingFailed` wrapping the serializer's error. On success the body is the serialized bytes, and URL, method, cookie flag and timeout are kept. `Content-Type: application/json` is added only when no Content-Type is present, and a caller's Content-Type is kept |
| UrlRequestExt.EncodedEncodable | URLRequest+NetworkKit.swift:12-30 | The step-by-step encoder returns exactly `JsonEncoded` |
| UrlRequestExt.ParametersEncoded | URLRequest+NetworkKit.swift:32-38 | Succeeds with the parameter encoder's request exactly when the encoder succeeds; otherwise fails with `parameterEncodingFailed` wrapping the encoder's error |
| UrlRequestExt.JsonKeepsCallerContentType | URLRequest+NetworkKit.swift:21-24 | A Content-Type the caller set survives JSON encoding unchanged |
| UrlRequestExt.JsonEncodingHeadersIdempotent | URLRequest+NetworkKit.swift:19-24 | JSON-encoding the same value into an already encoded request returns that request unchanged: the second pass finds the Content-Type already set |
| Payload.NoSegmentsNoChange | SFNetworkKit/Classes/Payload.swift:74-75 | Appending no path segments leaves the request unchanged |
| Payload.PathSegmentsSnoc | SFNetworkKit/Classes/Payload.swift:74-75 | Appending one more segment extends the URL's path by that segment and changes nothing else |
| Payload.Encode | SFNetworkKit/Classes/Payload.swift:57-101 | `RequestPayloadEncoder.encode`: its path loop and composite recursion return exactly `Encoded`, the specification the lemmas below characterise |
| Payload.NoPayloadIsIdentity | SFNetworkKit/Classes/Payload.swift:59-66 | A missing payload or `.plain` returns the request unchanged |
| Payload.RawBodyIsVerbatim | SFNetworkKit/Classes/Payload.swift:67-68 | `.data(d)` always succeeds. The body becomes exactly `d` and nothing else changes |
| Payload.PathAppendsInOrder | SFNetworkKit/Classes/Payload.swift:74-75 | `.path(segments)` always succeeds. It appends the segments to the URL's path in order and changes nothing else; a request without a URL is unchanged |
| Payload.SimpleEncodersDelegate | SFNetworkKit/Classes/Payload.swift:69-78 | `.json` is the JSON encoding, `.form` is parameter encoding into the body, and `.query` is parameter encoding into the query string |
| Payload.CompositeIsBodyThenPathThenQuery | SFNetworkKit/Classes/Payload.swift:79-96 | Each composite payload is its body step, then its path step when segments are given, then its query step. Each step runs on the previous step's output, and the first failure stops the rest |
| Payload.NoPathSameAsEmptyPath | SFNetworkKit/Classes/Payload.swift:79-96 | A composite without segments encodes exactly as one with an empty segment list |
| Payload.ChainStopsAtFirstFailure | SFNetworkKit/Classes/Payload.swift:79-96 | When step k of a chain fails, the chain fails with that step's error |
| Payload.BodyFailureFailsComposite | SFNetworkKit/Classes/Payload.swift:79-96 | A composite whose body step fails fails with that error |
| Authorization.SchemeValue | SFNetworkKit/Classes/Authorization.swift:21-27 | `basic` is "Basic", `bearer` is "Bearer", and `custom(v)` is `v` |
| Authorization.DefaultRefreshTokenAsWritten | SFNetworkKit/Classes/Authorization.swift:52-54 | The default `refreshToken`, as written, never calls its completion |
| Authorization.DefaultRefreshToken | SFNetworkKit/Classes/Authorization.swift:52-54 | The corrected default completes, reporting failure |
| Authorization.RefreshOutcomeOf | SFNetworkKit/Classes/Authorization.swift:48-54 | A provider relying on the default refresh gets the corrected default outcome; a provider with its own `refreshToken` gets what that reports |
| Interceptor.SecretAdapted | SFNetworkKit/Classes/Interceptor.swift:18-25 | Never fails. It sets the provider's header to the provider's value, keeps every other header, and changes nothing else |
| Interceptor.CredentialsSplit | SFNetworkKit/Classes/Interceptor.swift:44-46 | The Authorization value is exactly the scheme word, one space, then the token |
| Interceptor.TokenAdapted | SFNetworkKit/Classes/Interceptor.swift:35-49 | Fails with `invalidAuthorizationToken` exactly when the token is missing or empty. Otherwise it sets `Authorization: <scheme> <token>`, keeps every other header, and changes nothing else |
| Interceptor.ChainChangesOnlyHeaders | SFNetworkKit/Classes/Interceptor.swift:18-49 | A successful chain of adapters changes only headers |
| Interceptor.TokenFailureStopsChain | SFNetworkKit/Classes/APIRequest.swift:127-139 | With token adapter first, a missing or empty token fails the whole adaptation, and the secret adapter never runs |
| Interceptor.BothAdaptersAddTheirHeaders | SFNetworkKit/Classes/APIRequest.swift:127-139 | With a usable token the adapted request carries the secret header and the Authorization header; the secret wins a name clash |
| Interceptor.Decide | SFNetworkKit/Classes/Interceptor.swift:70-90 | Not a 401, or no response: `doNotRetryWithError(error)`. A 401 already handled, or the retry limit reached: `doNotRetry`. Otherwise the refresh is started, the response is remembered, and the completion gets `retry` exactly when the refresh reports success. The state changes only when a refresh starts |
| Interceptor.TokenRefreshPolicy.constructor | SFNetworkKit/Classes/Interceptor.swift:64-68 | Stores the provider and the retry limit (default 2); nothing has been handled yet |
| Interceptor.TokenRefreshPolicy.Retry | SFNetworkKit/Classes/Interceptor.swift:70-90 | The completion value, the refresh, and the new `lastProceededResponse` are exactly those of `Decide` on the old state, with a default-refresh provider taking the corrected default (see Findings) |
| Interceptor.RefreshesWithinBudget | SFNetworkKit/Classes/Interceptor.swift:81-85 | In one call, counts from `floor` up to `retryLimit` each allow at most one refresh, one fewer when the refresh for `floor` already happened |
| Interceptor.RefreshesAtMostRetryLimit | SFNetworkKit/Classes/Interceptor.swift:81-85 | Over one call the refresh runs at most `retryLimit` times. Retry counts never decrease in a call, and the policy may be consulted again for the same attempt |
| Interceptor.SameResponseRefreshesAtMostOnce | SFNetworkKit/Classes/Interceptor.swift:59-85 | Consultations that all carry the same response start at most one refresh, and none if that response was the last one handled |
| Interceptor.RepeatedConsultationIsSkipped | SFNetworkKit/Classes/Interceptor.swift:59-85 | The trace A@0, A@0, B@1 is a valid call and refreshes twice: the repeat for A is skipped |
| Interceptor.DedupRemembersOnlyLastResponse | SFNetworkKit/Classes/Interceptor.swift:59-85 | The call trace A@0, B@1, A@2 refreshes again for A. That is three refreshes with limit 3, and two with the default limit 2 |
| Interceptor.DefaultRefreshAsWrittenHangsOn401 | SFNetworkKit/Classes/Authorization.swift:52-54 | With the default refresh as written, a first 401 leaves the completion uncalled |
| Interceptor.DefaultRefreshGivesUpOn401 | SFNetworkKit/Classes/Authorization.swift:52-54 | With the corrected default, every consultation completes, and never with `retry` |
| Validation.HalfOpenRange | SFNetworkKit/Classes/Validation.swift:29-32 | `lo..<hi` as a sequence: `hi - lo` elements, the i-th being `lo + i` |
| Validation.StatusCodes | SFNetworkKit/Classes/Validation.swift:27-38 | `.none` gives no codes, `.successCodes` gives 200..<300, `.successAndRedirectCodes` gives 200..<400, and `.customCodes(c)` gives `c` |
| Validation.StatusCodesMembership | SFNetworkKit/Classes/Validation.swift:29-32 | A status is a success code exactly when it is in 200..<300, and a success or redirect code exactly when it is in 200..<400 |
| Validation.StatusCodesOrdered | SFNetworkKit/Classes/Validation.swift:29-32 | Both ranges are strictly ascending, and the success codes are a prefix of the success-and-redirect codes |
| Validation.NoCodesIff | SFNetworkKit/Classes/Validation.swift:27-38 | The code list is empty exactly for `.none` and `.customCodes([])` |
| Responses.Validated | Extensions/Alamofire.DataRequest+NetworkKit.swift:14-17 | An empty code list adds no check; otherwise the status-code check is appended |
| Responses.ValidatedAcceptsIff | Extensions/Alamofire.DataRequest+NetworkKit.swift:14-17 | After `validate(v)` a status passes exactly when `v` lists no codes or lists that status |
| Responses.MappedResult | Extensions/Alamofire.DataRequest+NetworkKit.swift:36-41 | Success values pass through; every failure becomes `requestFailed(error)` |
| Responses.Delivered | Extensions/Alamofire.DownloadRequest+NetworkKit.swift:31-36 | A status failing validation is delivered as `requestFailed` of the validation error; otherwise the mapped serializer result is delivered |
| Responses.OutsideSuccessCodesFails | Extensions/Alamofire.DataRequest+NetworkKit.swift:14-17 | Under `.successCodes` a status outside 200..<300 is delivered as a failure |
| Responses.DeliveredFailureIsRequestFailed | Extensions/Alamofire.DataRequest+NetworkKit.swift:36-41 | Every delivered failure is `requestFailed` |
| Trust.DefaultPinnedCertificatesProvider | SFNetworkKit/Classes/TrustPolicy.swift:31-39 | By default the certificates are the bundle's, and self-signed certificates are rejected |
| Trust.ServerTrustEvaluator | SFNetworkKit/Classes/APIRequest.swift:327-341 | Each policy maps to its own evaluator kind (both directions). Revocation options, certificates, the self-signed flag and keys are passed through |
| Trust.ServerTrustEvaluatorInjective | SFNetworkKit/Classes/APIRequest.swift:327-341 | Two policies give the same evaluator exactly when they are equal |
| Multipart.EntryOf | Extensions/Alamofire.MultipartFormData+NetworkKit.swift:12-25 | Each body part becomes the append call that records that same part, with file name and MIME type passed through |
| Multipart.EntriesPointwise | Extensions/Alamofire.MultipartFormData+NetworkKit.swift:27-29 | Appending a list records one entry per part, in the parts' order |
| Multipart.EntriesAppend | Extensions/Alamofire.MultipartFormData+NetworkKit.swift:27-29 | Appending `xs + ys` records what appending `xs` and then `ys` records |
| Multipart.MultipartFormData.constructor | SFNetworkKit/Classes/APIRequest.swift:228 | A new form has no entries |
| Multipart.MultipartFormData.Append | Extensions/Alamofire.MultipartFormData+NetworkKit.swift:12-25 | Exactly one entry, the one for the part, is added at the end |
| Multipart.MultipartFormData.AppendAll | Extensions/Alamofire.MultipartFormData+NetworkKit.swift:27-29 | The entries for all parts are added at the end, in order |
| ManagerConfig.MakeHostTrustPolicy | SFNetworkKit/Classes/APIManagerConfig.swift:32-35 | Stores host and policy; the policy defaults to `.none` |
| ManagerConfig.MakeConfig | SFNetworkKit/Classes/APIManagerConfig.swift:19-23 | Stores monitors and policies, both empty by default |
| ManagerConfig.DefaultConfigIsEmpty | SFNetworkKit/Classes/APIManagerConfig.swift:19-23 | The default configuration has no monitors and no policies |
| ManagerConfig.DefaultHostTrustPolicyIsDisabled | SFNetworkKit/Classes/APIManagerConfig.swift:31-35 | A host policy left at its default disables trust evaluation |
| ApiRequest.WithDefaults | SFNetworkKit/Classes/APIRequest.swift:66-93 | A request that overrides nothing uses GET, the platform headers, a 30 s timeout, cookies on and no validation. It also has no caching, `maximumAttempts` 0, no token or secret provider, host trust evaluation and no logging |
| ApiRequest.AsUrl | SFNetworkKit/Classes/APIRequest.swift:97-105 | Fails with `invalidBaseUrl` exactly when the base URL does not parse. Otherwise the result is the base URL with `path` appended as one more segment |
| ApiRequest.BaseRequest | SFNetworkKit/Classes/APIRequest.swift:112-121 | Fails exactly as `asURL()` does. Otherwise the request has that URL, the request's method, headers, cookie flag and timeout, and no body |
| ApiRequest.MakeUrlRequest | SFNetworkKit/Classes/APIRequest.swift:112-121 | The step-by-step construction returns exactly `BaseRequest` |
| ApiRequest.AsUrlRequest | SFNetworkKit/Classes/APIRequest.swift:170-179 | A base URL that does not parse fails with `invalidBaseUrl`. Otherwise the result is the payload encoder applied to the base request |
| ApiRequest.PlainDataRequestIsBaseRequest | SFNetworkKit/Classes/APIRequest.swift:163-179 | A data request left at its default `.plain` payload produces exactly the base request |
| ApiRequest.AdapterList | SFNetworkKit/Classes/APIRequest.swift:127-139 | One adapter per provider present; the token adapter comes first and the secret adapter last |
| ApiRequest.Adapters | SFNetworkKit/Classes/APIRequest.swift:127-139 | The step-by-step list is exactly `AdapterList` |
| ApiRequest.Retriers | SFNetworkKit/Classes/APIRequest.swift:141-151 | The connection-lost policy comes first. A fresh refresh policy for the token provider, with the default limit 2 and nothing handled, is added exactly when there is a token provider |
| ApiRequest.AsMultipartFormData | SFNetworkKit/Classes/APIRequest.swift:226-257 | A fresh form whose entries are exactly those of the body parts, in order |
| Manager.Cacher | SFNetworkKit/Classes/APIManager.swift:125-127 | `.cache` exactly when `shouldCache`, `.doNotCache` otherwise |
| Manager.MakeInterceptor | SFNetworkKit/Classes/APIManager.swift:120-123 | The interceptor carries exactly the request's adapters. Its retriers are the connection-lost policy first, then, exactly when there is a token provider, a fresh refresh policy for that provider with limit 2 and nothing handled |
| Manager.SessionFor | SFNetworkKit/Classes/APIManager.swift:129-141 | A base URL without a host is fatal, with message "Invalid base url: " + base URL. Otherwise the session evaluates only that host, with the request's evaluator, without requiring every host to be evaluated, and logs at the request's level |
| Manager.Prepare | SFNetworkKit/Classes/APIManager.swift:29-116 | Every manager method sets up that session and the interceptor `interceptor(for:)` builds, with its own fresh refresh policy. `request(_:)`, which also takes download descriptors, adds the cacher and the validation. The multipart `upload(_:)` adds a fresh form holding the body parts |
| Manager.RequestPlaygroundExample | Example/SFNetworkKit/Playgrounds/Example+Request.playground/Contents.swift:13-31 | The playground's GET with query items `foo1` and `foo2` and verbose logging targets `https://postman-echo.com/get` with no body. Both items go to the query-string encoder. The session evaluates that host with the default evaluator and logs verbosely |
| Manager.DefaultValidationAcceptsEveryStatus | SFNetworkKit/Classes/APIManager.swift:38-41 | With the default validation every status code reaches the serializer |

## Left out

- Network I/O, scheduling, dispatch queues and the asynchronous callback
  plumbing are outside the model. Each adapter, retrier and response
  handler is modelled as the value its completion receives.
- What `AlamofireLogger` writes is not modelled: of `Logging.swift` the
  model keeps only the log level and the logger as an event monitor.
- `NetworkMonitor.swift`, the reachability extension,
  `ResponsePublisher+MapValueAndError.swift` and
  `Alamofire.Session+NetworkKit.swift` are not part of this model. They hold
  no request-building or interception logic beyond `getAsAPIError`, which is
  modelled. The example playgrounds are not part of this model either,
  beyond the request of the Request playground
  (`Manager.RequestPlaygroundExample`).
- Foundation and Alamofire internals are modelled only through function
  parameters:
  - URL parsing;
  - `JSONEncoder` and `URLEncoding`, including percent-escaping;
  - TLS evaluation by the trust evaluators;
  - `ResponseCacher`;
  - the `ConnectionLostRetryPolicy` behaviour;
  - the order in which Alamofire consults several retriers.
- Http.Url.AppendingPathComponent: appends the component as one new path
  segment. Foundation's handling of slashes and percent-encoding inside the
  component is not modelled.
- Request headers are a map with case-sensitive names.
  Alamofire's `HTTPHeaders` compares names case-insensitively.
- `Parameters` values are strings. In the source they are `Any`, and their
  encoding belongs to the parameter encoder.
- `AnyEncodable` is transparent: it is modelled as the encodable it wraps.
- Timeouts are whole seconds. The source's `TimeInterval` is floating point.
- Download destinations, resume data, upload payloads, input streams,
  certificates, public keys and revocation options are opaque handles. So
  is the identity of an `HTTPURLResponse`.
- Progress handlers (`Progress.fractionCompleted`, floating point) are not
  modelled.
- Interceptor.TokenRefreshPolicy.Retry: a provider that relies on the
  default `refreshToken` gets the corrected default described under
  Findings. On its first 401 below the limit the model answers `doNotRetry`,
  while the source never calls the completion. The source's behaviour is
  stated by `Interceptor.DefaultRefreshAsWrittenHangsOn401`. The refresh
  outcome of a provider with its own `refreshToken` is a parameter.
  Providers that call the completion more than once, or later, are not
  modelled.
- Manager.Prepare: a descriptor belongs to exactly one request protocol. A
  Swift type conforming to several of them, say both upload and data, is
  not modelled.
- Authorization.RefreshOutcomeOf: uses the corrected default refresh
  described under Findings. The behaviour as written is kept in
  `Authorization.DefaultRefreshTokenAsWritten`.
- Multipart.MultipartFormData.Append: records the append call. Alamofire's
  encoding of the parts into the multipart body, and its deferred error for
  unreadable files, are not modelled.
- `TrustPolicy.swift:45-49` declares the default `keys` on
  `PinnedCertificatesProvider`, not on `PublicKeysProvider`. A public-keys
  provider therefore has to supply its own keys, and the model takes them
  from the provider.

## Findings

| source | as written | input that shows it | evidently intended | confidence | as-written member | corrected member |
|---|---|---|---|---|---|---|
| SFNetworkKit/Classes/Authorization.swift:52-54 | The default `refreshToken` has an empty body and never calls its completion. The refresh policy therefore never calls its own completion (`Interceptor.swift:87-89`), and the request never finishes | A token provider without its own `refreshToken`, and a first 401 response with retry count 0 | Call the completion with `false`, so that the policy answers `doNotRetry` and the 401 is delivered | medium, not executed | Interceptor.DefaultRefreshAsWrittenHangsOn401 | Interceptor.DefaultRefreshGivesUpOn401 |
