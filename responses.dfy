/** The `validate(_:)` and response-mapping extensions that SFNetworkKit adds
    to Alamofire's `DataRequest` and `DownloadRequest`. Both extensions have
    the same code, so one definition serves both. */
module Responses {
  import opened Wrappers
  import opened Errors
  import opened Validation

  /** `validate(_:)` on a request that already carries the status checks
      `checks` (Alamofire's validators, in attachment order): an empty code
      list leaves the request as it was; otherwise one check with exactly
      that list is added. */
  function Validated(checks: seq<seq<int>>, v: ValidationType): (r: seq<seq<int>>)
    ensures StatusCodes(v) == [] ==> r == checks
    ensures StatusCodes(v) != [] ==> r == checks + [StatusCodes(v)]
  {
    var codes := StatusCodes(v);
    if codes == [] then checks else checks + [codes]
  }

  /** Alamofire's `validate(statusCode:)`: a response passes a check when its
      status is in that check's list. */
  predicate Acceptable(checks: seq<seq<int>>, status: int) {
    forall i :: 0 <= i < |checks| ==> status in checks[i]
  }

  /** On a request with no earlier checks, a response is accepted exactly when
      the list is empty or its status is in the list. */
  lemma ValidatedAcceptsIff(v: ValidationType, status: int)
    ensures Acceptable(Validated([], v), status) <==> (StatusCodes(v) == [] || status in StatusCodes(v))
  {
    var codes := StatusCodes(v);
    if codes != [] {
      assert Validated([], v) == [codes];
      assert Acceptable([codes], status) <==> status in [codes][0];
    }
  }

  /** The `mapError` of `apiResponseDecodable` and `apiResponseData`: a value
      passes through unchanged, every failure becomes `requestFailed`
      carrying the original error. */
  function MappedResult<T>(r: Result<T, SwiftError>): (m: Result<T, APIError>)
    ensures m.Success? <==> r.Success?
    ensures m.Success? ==> m.value == r.value
    ensures m.Failure? ==> m.error == RequestFailed(r.error)
  {
    match r
    case Success(v) => Success(v)
    case Failure(e) => Failure(RequestFailed(e))
  }

  /** What the handler receives for a response with `status`, given the
      checks on the request and what the decoder (or the data serialiser)
      made of the body: a failed check takes precedence over the body, and
      every failure is wrapped as `requestFailed`. */
  function Delivered<T>(checks: seq<seq<int>>, status: int, serialized: Result<T, SwiftError>)
    : (r: Result<T, APIError>)
    ensures !Acceptable(checks, status) ==> r == Failure(RequestFailed(StatusValidationFailed(status)))
    ensures Acceptable(checks, status) ==> r == MappedResult(serialized)
  {
    if Acceptable(checks, status) then MappedResult(serialized)
    else Failure(RequestFailed(StatusValidationFailed(status)))
  }

  /** With `successCodes`, every status outside 200..299 reaches the handler
      as `requestFailed`, whatever the body. */
  lemma OutsideSuccessCodesFails<T>(status: int, serialized: Result<T, SwiftError>)
    requires !(200 <= status < 300)
    ensures Delivered(Validated([], SuccessCodes), status, serialized)
              == Failure(RequestFailed(StatusValidationFailed(status)))
  {
    ValidatedAcceptsIff(SuccessCodes, status);
    StatusCodesMembership(status);
  }

  /** Every failure that reaches the handler is a `requestFailed`. */
  lemma DeliveredFailureIsRequestFailed<T>(checks: seq<seq<int>>, status: int, serialized: Result<T, SwiftError>)
    ensures Delivered(checks, status, serialized).Failure? ==> Delivered(checks, status, serialized).error.RequestFailed?
  {
  }
}
