/** The Foundation and Alamofire values the request pipeline works on:
    HTTP methods, header maps, parsed URLs and the wire request
    (`URLRequest`), plus the collaborator functions the model leaves
    abstract (URL parsing, JSON serialisation, URL/form parameter
    encoding). */
module Http {
  import opened Wrappers
  import opened Errors

  type Bytes = seq<bv8>

  /** `HTTPHeaders` as the library declares it: a `[String: String]`. */
  type Headers = map<string, string>

  /** Alamofire `Parameters` (`[String: Any]`); the values are kept as
      strings in the model. */
  type Parameters = map<string, string>

  /** Alamofire's `HTTPMethod` constants. */
  datatype HttpMethod = Connect | Delete | Get | Head | Options | Patch | Post | Put | Trace

  /** A parsed URL, reduced to what the pipeline touches: its host, its path
      as a sequence of segments (RFC 3986, section 3.3) and its query as a
      sequence of name/value pairs (RFC 3986, section 3.4). */
  datatype Url = Url(scheme: string, host: Option<string>, pathSegments: seq<string>,
                     query: seq<(string, string)>)
  {
    /** `URL.appendingPathComponent`: one more path segment at the end. */
    function AppendingPathComponent(component: string): (u: Url)
      ensures u.pathSegments == pathSegments + [component]
      ensures u.scheme == scheme && u.host == host && u.query == query
    {
      this.(pathSegments := pathSegments + [component])
    }
  }

  /** Foundation's `URLRequest`: a value type, copied on assignment. The
      timeout is a whole number of seconds. */
  datatype UrlRequest = UrlRequest(url: Option<Url>, httpMethod: HttpMethod, headers: Headers,
                                   body: Option<Bytes>, shouldHandleCookies: bool, timeout: int)

  /** An opaque handle to a Swift `Encodable` value. */
  datatype Encodable = Encodable(handle: nat)

  /** Where Alamofire's `URLEncoding` puts the parameters. */
  datatype Destination = HttpBody | QueryString

  /** `URL(string:)`: parses a string into a URL, or fails. */
  type UrlParser = string -> Option<Url>

  /** `JSONEncoder.encode`: serialises a value, or throws. */
  type JsonSerializer = Encodable -> Result<Bytes, SwiftError>

  /** `URLEncoding(destination:).encode(_:with:)`: a form body
      (`application/x-www-form-urlencoded`, WHATWG URL Standard, section 5)
      or a query string, or throws. */
  type ParameterEncoder = (UrlRequest, Parameters, Destination) -> Result<UrlRequest, SwiftError>

  /** `value(forHTTPHeaderField:) == nil`: no value for that header. */
  predicate HeaderAbsent(headers: Headers, name: string) {
    name !in headers
  }

  /** `after` is `before` with header `name` set to `value` and every other
      header as it was. */
  ghost predicate HeaderSet(before: Headers, after: Headers, name: string, value: string) {
    && name in after && after[name] == value
    && (forall k :: k in after && k != name ==> k in before && after[k] == before[k])
    && (forall k :: k in before && k != name ==> k in after)
  }

  /** `a` and `b` agree on URL, method, body, cookie flag and timeout. */
  predicate SameExceptHeaders(a: UrlRequest, b: UrlRequest) {
    a.url == b.url && a.httpMethod == b.httpMethod && a.body == b.body
    && a.shouldHandleCookies == b.shouldHandleCookies && a.timeout == b.timeout
  }
}
