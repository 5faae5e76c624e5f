/** The two body encoders that `URLRequest` gains in this library:
    JSON from an `Encodable`, and Alamofire parameter encoding. Each wraps a
    collaborator failure in a typed `APIError`. */
module UrlRequestExt {
  import opened Wrappers
  import opened Errors
  import opened Http

  const ContentTypeHeader := "Content-Type"
  const JsonContentType := "application/json"

  /** What `encoded(encodable:encoder:)` produces: the serialiser's bytes as
      the body, `Content-Type: application/json` only when no content type
      is present, and every failure of the serialiser wrapped as
      `jsonEncodingFailed`. The `AnyEncodable` wrapper that the source puts
      around the value encodes exactly as the value it wraps, so the model
      hands the value to the serialiser directly. */
  function JsonEncoded(request: UrlRequest, encodable: Encodable, serialize: JsonSerializer)
    : (r: Result<UrlRequest, APIError>)
    ensures r.Failure? <==> serialize(encodable).Failure?
    ensures r.Failure? ==> r.error == JsonEncodingFailed(serialize(encodable).error)
    ensures r.Success? ==> r.value.body == Some(serialize(encodable).value)
    ensures r.Success? ==> r.value.url == request.url && r.value.httpMethod == request.httpMethod
    ensures r.Success? ==> r.value.shouldHandleCookies == request.shouldHandleCookies
                           && r.value.timeout == request.timeout
    ensures r.Success? && !HeaderAbsent(request.headers, ContentTypeHeader) ==>
              r.value.headers == request.headers
    ensures r.Success? && HeaderAbsent(request.headers, ContentTypeHeader) ==>
              HeaderSet(request.headers, r.value.headers, ContentTypeHeader, JsonContentType)
  {
    match serialize(encodable)
    case Failure(e) => Failure(JsonEncodingFailed(e))
    case Success(bytes) =>
      var withBody := request.(body := Some(bytes));
      if HeaderAbsent(withBody.headers, ContentTypeHeader) then
        Success(withBody.(headers := withBody.headers[ContentTypeHeader := JsonContentType]))
      else
        Success(withBody)
  }

  /** `encoded(encodable:encoder:)`, the `mutating` method: sets the body,
      then the content type if none is set, on a copy of the request. */
  method EncodedEncodable(request: UrlRequest, encodable: Encodable, serialize: JsonSerializer)
    returns (r: Result<UrlRequest, APIError>)
    ensures r == JsonEncoded(request, encodable, serialize)
  {
    var copy := request;
    var bytes;
    match serialize(encodable) {
      case Failure(e) =>
        return Failure(JsonEncodingFailed(e));
      case Success(b) =>
        bytes := b;
    }
    copy := copy.(body := Some(bytes));
    if HeaderAbsent(copy.headers, ContentTypeHeader) {
      copy := copy.(headers := copy.headers[ContentTypeHeader := JsonContentType]);
    }
    return Success(copy);
  }

  /** `encoded(parameters:parameterEncoding:)`: exactly the parameter
      encoder's result on success, its failure wrapped as
      `parameterEncodingFailed` otherwise. */
  function ParametersEncoded(request: UrlRequest, parameters: Parameters, destination: Destination,
                             encode: ParameterEncoder): (r: Result<UrlRequest, APIError>)
    ensures r.Success? <==> encode(request, parameters, destination).Success?
    ensures r.Success? ==> r.value == encode(request, parameters, destination).value
    ensures r.Failure? ==> r.error == ParameterEncodingFailed(encode(request, parameters, destination).error)
  {
    match encode(request, parameters, destination)
    case Success(encoded) => Success(encoded)
    case Failure(e) => Failure(ParameterEncodingFailed(e))
  }

  /** A caller-supplied content type always survives JSON encoding. */
  lemma JsonKeepsCallerContentType(request: UrlRequest, encodable: Encodable, serialize: JsonSerializer)
    requires ContentTypeHeader in request.headers
    requires JsonEncoded(request, encodable, serialize).Success?
    ensures JsonEncoded(request, encodable, serialize).value.headers[ContentTypeHeader]
              == request.headers[ContentTypeHeader]
  {
  }

  /** JSON encoding twice in a row leaves the headers as one encoding left
      them: the second pass finds the content type already set. */
  lemma JsonEncodingHeadersIdempotent(request: UrlRequest, encodable: Encodable, serialize: JsonSerializer)
    requires JsonEncoded(request, encodable, serialize).Success?
    ensures var once := JsonEncoded(request, encodable, serialize).value;
            JsonEncoded(once, encodable, serialize) == Success(once)
  {
    var once := JsonEncoded(request, encodable, serialize).value;
    assert ContentTypeHeader in once.headers;
  }
}
