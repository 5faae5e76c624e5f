/** `RequestPayloadType` and `RequestPayloadEncoder`: how a declared payload
    changes a pending `URLRequest`, including the composite payloads that
    chain a body step, an optional path step and a query step. Also the
    `MultipartRequestPayloadType` enum. */
module Payload {
  import opened Wrappers
  import opened Errors
  import opened Http
  import opened UrlRequestExt

  datatype RequestPayloadType =
    | Plain
    | Data(data: Bytes)
    | Json(encodable: Encodable)
    | Form(parameters: Parameters)
    | Path(segments: seq<string>)
    | Query(items: Parameters)
    | CompositeData(bodyData: Bytes, pathSegments: Option<seq<string>>, queryItems: Parameters)
    | CompositeJson(bodyJson: Encodable, pathSegments: Option<seq<string>>, queryItems: Parameters)
    | CompositeForm(bodyParameters: Parameters, pathSegments: Option<seq<string>>, queryItems: Parameters)
  {
    predicate IsComposite() {
      CompositeData? || CompositeJson? || CompositeForm?
    }
  }

  /** The parts of a multipart body (RFC 7578). Streams are opaque handles;
      the misspelt `lenght` of the source is spelt `length` here. */
  datatype MultipartRequestPayloadType =
    | DataPart(data: Bytes, name: string, dataFileName: Option<string>, dataMimeType: Option<string>)
    | File(fileUrl: Url, name: string)
    | FileWithName(fileUrl: Url, name: string, fileName: string, mimeType: string)
    | StreamWithHeaders(stream: nat, length: nat, headers: Headers)
    | Stream(stream: nat, length: nat, name: string, fileName: string, mimeType: string)

  /** The collaborators the encoder hands the real work to. */
  datatype Encoders = Encoders(serialize: JsonSerializer, encodeParameters: ParameterEncoder)

  /** The path step: every segment appended, in order, to the request's URL;
      a request without a URL stays without one. */
  function WithPathSegments(request: UrlRequest, segments: seq<string>): (r: UrlRequest)
  {
    match request.url
    case None => request
    case Some(url) => request.(url := Some(url.(pathSegments := url.pathSegments + segments)))
  }

  /** Appending no segments changes nothing. */
  lemma NoSegmentsNoChange(request: UrlRequest)
    ensures WithPathSegments(request, []) == request
  {
    match request.url {
      case None =>
      case Some(url) =>
        assert url.pathSegments + [] == url.pathSegments;
        assert url.(pathSegments := url.pathSegments) == url;
    }
  }

  /** Appending `segments + [s]` is appending `segments`, then `s`. */
  lemma PathSegmentsSnoc(request: UrlRequest, segments: seq<string>, s: string)
    ensures var before := WithPathSegments(request, segments);
            WithPathSegments(request, segments + [s])
              == if before.url.Some? then before.(url := Some(before.url.value.AppendingPathComponent(s)))
                 else before
  {
    match request.url {
      case None =>
      case Some(url) =>
        assert url.pathSegments + (segments + [s]) == (url.pathSegments + segments) + [s];
    }
  }

  /** The three steps of a composite, in the order it runs them: the body,
      the path when segments are given, then the query. */
  function CompositeSteps(payload: RequestPayloadType): (steps: seq<RequestPayloadType>)
    requires payload.IsComposite()
  {
    var body := match payload
      case CompositeData(d, _, _) => Data(d)
      case CompositeJson(j, _, _) => Json(j)
      case CompositeForm(f, _, _) => Form(f);
    var path := if payload.pathSegments.Some? then [Path(payload.pathSegments.value)] else [];
    [body] + path + [Query(payload.queryItems)]
  }

  function Rank(payload: Option<RequestPayloadType>): nat {
    if payload.Some? && payload.value.IsComposite() then 1 else 0
  }

  /** What `RequestPayloadEncoder.encode(_:into:)` returns. */
  function Encoded(payload: Option<RequestPayloadType>, request: UrlRequest, encoders: Encoders)
    : Result<UrlRequest, APIError>
    decreases Rank(payload)
  {
    match payload
    case None => Success(request)
    case Some(p) =>
      match p
      case Plain => Success(request)
      case Data(d) => Success(request.(body := Some(d)))
      case Json(e) => JsonEncoded(request, e, encoders.serialize)
      case Form(f) => ParametersEncoded(request, f, HttpBody, encoders.encodeParameters)
      case Path(segments) => Success(WithPathSegments(request, segments))
      case Query(items) => ParametersEncoded(request, items, QueryString, encoders.encodeParameters)
      case CompositeData(d, segments, items) =>
        var afterBody :- Encoded(Some(Data(d)), request, encoders);
        var afterPath :- if segments.Some? then Encoded(Some(Path(segments.value)), afterBody, encoders)
                         else Success(afterBody);
        Encoded(Some(Query(items)), afterPath, encoders)
      case CompositeJson(j, segments, items) =>
        var afterBody :- Encoded(Some(Json(j)), request, encoders);
        var afterPath :- if segments.Some? then Encoded(Some(Path(segments.value)), afterBody, encoders)
                         else Success(afterBody);
        Encoded(Some(Query(items)), afterPath, encoders)
      case CompositeForm(f, segments, items) =>
        var afterBody :- Encoded(Some(Form(f)), request, encoders);
        var afterPath :- if segments.Some? then Encoded(Some(Path(segments.value)), afterBody, encoders)
                         else Success(afterBody);
        Encoded(Some(Query(items)), afterPath, encoders)
  }

  /** Running simple payload steps one after another, stopping at the first
      failure. */
  function Chain(steps: seq<RequestPayloadType>, request: UrlRequest, encoders: Encoders)
    : Result<UrlRequest, APIError>
  {
    if steps == [] then Success(request)
    else
      match Encoded(Some(steps[0]), request, encoders)
      case Failure(e) => Failure(e)
      case Success(next) => Chain(steps[1..], next, encoders)
  }

  /** `RequestPayloadEncoder.encode(_:into:)`: copies the request and updates
      the copy step by step; a composite re-enters the encoder for each of
      its steps. */
  method Encode(payload: Option<RequestPayloadType>, request: UrlRequest, encoders: Encoders)
    returns (r: Result<UrlRequest, APIError>)
    ensures r == Encoded(payload, request, encoders)
    decreases Rank(payload)
  {
    if payload.None? {
      return Success(request);
    }
    var pending := request;
    match payload.value {
      case Plain =>
      case Data(d) =>
        pending := pending.(body := Some(d));
      case Json(e) =>
        pending :- EncodedEncodable(pending, e, encoders.serialize);
      case Form(f) =>
        pending :- ParametersEncoded(pending, f, HttpBody, encoders.encodeParameters);
      case Path(segments) =>
        var i := 0;
        NoSegmentsNoChange(request);
        assert segments[..0] == [];
        while i < |segments|
          invariant 0 <= i <= |segments|
          invariant pending == WithPathSegments(request, segments[..i])
        {
          PathSegmentsSnoc(request, segments[..i], segments[i]);
          if pending.url.Some? {
            pending := pending.(url := Some(pending.url.value.AppendingPathComponent(segments[i])));
          }
          assert segments[..i + 1] == segments[..i] + [segments[i]];
          i := i + 1;
        }
        assert segments[..i] == segments;
      case Query(items) =>
        pending :- ParametersEncoded(pending, items, QueryString, encoders.encodeParameters);
      case CompositeData(d, segments, items) =>
        var withBody := Encode(Some(Data(d)), pending, encoders);  // a raw body cannot fail
        pending := withBody.value;
        if segments.Some? {
          var withPath := Encode(Some(Path(segments.value)), pending, encoders);  // the path step cannot fail
          pending := withPath.value;
        }
        pending :- Encode(Some(Query(items)), pending, encoders);
      case CompositeJson(j, segments, items) =>
        pending :- Encode(Some(Json(j)), pending, encoders);
        if segments.Some? {
          var withPath := Encode(Some(Path(segments.value)), pending, encoders);  // the path step cannot fail
          pending := withPath.value;
        }
        pending :- Encode(Some(Query(items)), pending, encoders);
      case CompositeForm(f, segments, items) =>
        pending :- Encode(Some(Form(f)), pending, encoders);
        if segments.Some? {
          var withPath := Encode(Some(Path(segments.value)), pending, encoders);  // the path step cannot fail
          pending := withPath.value;
        }
        pending :- Encode(Some(Query(items)), pending, encoders);
    }
    return Success(pending);
  }

  // ----- Properties of the encoder -----

  /** No payload, or `.plain`, leaves the request as it was. */
  lemma NoPayloadIsIdentity(request: UrlRequest, encoders: Encoders)
    ensures Encoded(None, request, encoders) == Success(request)
    ensures Encoded(Some(Plain), request, encoders) == Success(request)
  {
  }

  /** `.data(d)`: the body becomes exactly `d`; URL, method, headers, cookie
      flag and timeout are untouched, so no content type is added. */
  lemma RawBodyIsVerbatim(d: Bytes, request: UrlRequest, encoders: Encoders)
    ensures var r := Encoded(Some(Data(d)), request, encoders);
            r.Success? && r.value.body == Some(d) && r.value.headers == request.headers
            && r.value.url == request.url && r.value.httpMethod == request.httpMethod
            && r.value.shouldHandleCookies == request.shouldHandleCookies
            && r.value.timeout == request.timeout
  {
  }

  /** `.path(segments)`: the segments land at the end of the URL path in list
      order, and nothing but the URL changes; no URL, or no segments, leaves
      the request as it was. */
  lemma {:induction false} PathAppendsInOrder(segments: seq<string>, request: UrlRequest, encoders: Encoders)
    ensures var r := Encoded(Some(Path(segments)), request, encoders);
            && r.Success?
            && r.value.body == request.body && r.value.headers == request.headers
            && r.value.httpMethod == request.httpMethod
            && r.value.shouldHandleCookies == request.shouldHandleCookies
            && r.value.timeout == request.timeout
            && (request.url.None? ==> r.value == request)
            && (segments == [] ==> r.value == request)
            && (request.url.Some? ==>
                  && r.value.url.Some?
                  && |r.value.url.value.pathSegments| == |request.url.value.pathSegments| + |segments|
                  && r.value.url.value.pathSegments[..|request.url.value.pathSegments|]
                       == request.url.value.pathSegments
                  && (forall i :: 0 <= i < |segments| ==>
                        r.value.url.value.pathSegments[|request.url.value.pathSegments| + i] == segments[i])
                  && r.value.url.value.query == request.url.value.query
                  && r.value.url.value.host == request.url.value.host
                  && r.value.url.value.scheme == request.url.value.scheme)
  {
    var r := Encoded(Some(Path(segments)), request, encoders);
    assert r == Success(WithPathSegments(request, segments));
    if request.url.Some? {
      var url := request.url.value;
      assert r.value.url.value.pathSegments == url.pathSegments + segments;
    }
    if segments == [] {
      match request.url {
        case None =>
        case Some(url) =>
          assert url.pathSegments + segments == url.pathSegments;
          assert url.(pathSegments := url.pathSegments) == url;
      }
    }
  }

  /** `.json`, `.form` and `.query` are exactly the two `URLRequest` body
      encoders, with form parameters in the body and query parameters in the
      URL. */
  lemma SimpleEncodersDelegate(request: UrlRequest, e: Encodable, p: Parameters, encoders: Encoders)
    ensures Encoded(Some(Json(e)), request, encoders) == JsonEncoded(request, e, encoders.serialize)
    ensures Encoded(Some(Form(p)), request, encoders)
              == ParametersEncoded(request, p, HttpBody, encoders.encodeParameters)
    ensures Encoded(Some(Query(p)), request, encoders)
              == ParametersEncoded(request, p, QueryString, encoders.encodeParameters)
  {
  }

  /** A composite is its body step, then its path step only when it has path
      segments, then its query step, which always runs. */
  lemma {:induction false} CompositeIsBodyThenPathThenQuery(payload: RequestPayloadType, request: UrlRequest,
                                                            encoders: Encoders)
    requires payload.IsComposite()
    ensures Encoded(Some(payload), request, encoders) == Chain(CompositeSteps(payload), request, encoders)
  {
    var steps := CompositeSteps(payload);
    var body := steps[0];
    var query := Query(payload.queryItems);
    assert steps[|steps| - 1] == query;
    match Encoded(Some(body), request, encoders) {
      case Failure(e) =>
      case Success(afterBody) =>
        if payload.pathSegments.Some? {
          var path := Path(payload.pathSegments.value);
          assert steps == [body, path, query];
          assert steps[1..] == [path, query];
          assert steps[1..][1..] == [query];
          var afterPath := WithPathSegments(afterBody, payload.pathSegments.value);
          assert Encoded(Some(path), afterBody, encoders) == Success(afterPath);
          assert Chain(steps, request, encoders) == Chain([path, query], afterBody, encoders);
          assert Chain([path, query], afterBody, encoders) == Chain([query], afterPath, encoders);
          assert steps[1..][1..][1..] == [];
          match Encoded(Some(query), afterPath, encoders) {
            case Failure(e) =>
            case Success(done) =>
              assert Chain([query], afterPath, encoders) == Chain([], done, encoders);
          }
        } else {
          assert steps == [body, query];
          assert steps[1..] == [query];
          assert steps[1..][1..] == [];
          assert Chain(steps, request, encoders) == Chain([query], afterBody, encoders);
          match Encoded(Some(query), afterBody, encoders) {
            case Failure(e) =>
            case Success(done) =>
              assert Chain([query], afterBody, encoders) == Chain([], done, encoders);
          }
        }
    }
  }

  /** A composite without path segments encodes exactly as one with an empty
      segment list. */
  lemma NoPathSameAsEmptyPath(payload: RequestPayloadType, request: UrlRequest, encoders: Encoders)
    requires payload.IsComposite() && payload.pathSegments.None?
    ensures Encoded(Some(payload), request, encoders)
              == Encoded(Some(payload.(pathSegments := Some([]))), request, encoders)
  {
    forall r: UrlRequest ensures WithPathSegments(r, []) == r {
      NoSegmentsNoChange(r);
    }
  }

  /** A chain fails exactly when some step fails after every earlier step has
      succeeded, and it fails with that step's error; no later step runs. */
  lemma {:induction false} ChainStopsAtFirstFailure(steps: seq<RequestPayloadType>, request: UrlRequest,
                                                    encoders: Encoders, k: nat)
    requires k < |steps|
    requires Chain(steps[..k], request, encoders).Success?
    requires Encoded(Some(steps[k]), Chain(steps[..k], request, encoders).value, encoders).Failure?
    ensures Chain(steps, request, encoders)
              == Failure(Encoded(Some(steps[k]), Chain(steps[..k], request, encoders).value, encoders).error)
  {
    if k == 0 {
      assert steps[..0] == [];
    } else {
      var first := Encoded(Some(steps[0]), request, encoders);
      assert steps[..k][0] == steps[0];
      assert steps[..k][1..] == steps[1..][..k - 1];
      ChainStopsAtFirstFailure(steps[1..], first.value, encoders, k - 1);
    }
  }

  /** When the body step of a composite fails, the whole encode fails with
      that error, whatever the path and query steps would have done. */
  lemma BodyFailureFailsComposite(payload: RequestPayloadType, request: UrlRequest, encoders: Encoders)
    requires payload.IsComposite()
    requires Encoded(Some(CompositeSteps(payload)[0]), request, encoders).Failure?
    ensures Encoded(Some(payload), request, encoders)
              == Failure(Encoded(Some(CompositeSteps(payload)[0]), request, encoders).error)
  {
    CompositeIsBodyThenPathThenQuery(payload, request, encoders);
    var steps := CompositeSteps(payload);
    assert steps[..0] == [];
    ChainStopsAtFirstFailure(steps, request, encoders, 0);
  }
}
