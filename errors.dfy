/** The error taxonomy of SFNetworkKit (`APIError`) and the untyped Swift
    `Error` values that it wraps. */
module Errors {

  /** A Swift `Error` as the library sees it: either one of its own
      `APIError`s, Alamofire's "unacceptable status code" validation error,
      or any other error (a JSON encoder error, a transport error, ...),
      which the model only tells apart by an opaque identity. */
  datatype SwiftError =
    | Api(apiError: APIError)
    | StatusValidationFailed(statusCode: int)
    | Foreign(id: nat)

  /** `APIError`: exactly seven cases. */
  datatype APIError =
    | InvalidBaseUrl
    | RequestFailed(error: SwiftError)
    | JsonEncodingFailed(error: SwiftError)
    | ParameterEncodingFailed(error: SwiftError)
    | MissingUrl
    | InvalidAuthorizationToken
    | Unknown(error: SwiftError)

  /** `APIError.getAsAPIError`: cast to `APIError`, or wrap as `unknown`. */
  function GetAsAPIError(error: SwiftError): (r: APIError)
    ensures error.Api? ==> r == error.apiError
    ensures !error.Api? ==> r == Unknown(error)
  {
    match error
    case Api(e) => e
    case _ => Unknown(error)
  }

  /** Normalising an already normalised error changes nothing. */
  lemma GetAsAPIErrorIdempotent(error: SwiftError)
    ensures GetAsAPIError(Api(GetAsAPIError(error))) == GetAsAPIError(error)
  {
  }

  /** Only a foreign error ever comes back as `unknown`, and it comes back
      carrying exactly the error it was given. */
  lemma GetAsAPIErrorUnknownIff(error: SwiftError, inner: SwiftError)
    ensures GetAsAPIError(error) == Unknown(inner) <==>
              (error.Api? && error.apiError == Unknown(inner)) || (!error.Api? && inner == error)
  {
  }
}
