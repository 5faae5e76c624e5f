/** Authorization schemes and the provider capabilities a request may carry:
    a token provider (scheme, optional token, refresh) and a secret provider
    (one header name and one value). */
module Authorization {
  import opened Wrappers

  /** `AuthorizationType`: the scheme word of an `Authorization` header
      (RFC 7235, section 4.2). */
  datatype AuthorizationType = Basic | Bearer | Custom(customValue: string)

  /** `AuthorizationType.value`: `Basic` (RFC 7617, section 2), `Bearer`
      (RFC 6750, section 2.1), or the custom word verbatim. */
  function SchemeValue(t: AuthorizationType): (s: string)
    ensures t.Basic? <==> (s == "Basic" && !t.Custom?)
    ensures t.Bearer? <==> (s == "Bearer" && !t.Custom?)
    ensures t.Custom? ==> s == t.customValue
  {
    match t
    case Basic => "Basic"
    case Bearer => "Bearer"
    case Custom(v) => v
  }

  /** Whether a token provider relies on the protocol's default
      `refreshToken(completion:)` or supplies its own. */
  datatype RefreshImplementation = DefaultRefresh | CustomRefresh

  /** `AuthorizationTokenProvider`: a scheme and an optional token, read when
      a request is adapted. */
  datatype TokenProvider = TokenProvider(authorizationType: AuthorizationType,
                                         authorizationToken: Option<string>,
                                         refresh: RefreshImplementation)

  /** `SecretProvider`: exactly one header name and one value. */
  datatype SecretProvider = SecretProvider(name: string, value: string)

  /** What an asynchronous `refreshToken(completion:)` does with its
      completion: calls it once with `isSuccess`, or never calls it. */
  datatype RefreshOutcome = Completes(isSuccess: bool) | NeverCompletes

  /** The default `refreshToken(completion:)` as written: an empty body, so
      its completion is never called. */
  function DefaultRefreshTokenAsWritten(): (o: RefreshOutcome)
    ensures !o.Completes?
  {
    NeverCompletes
  }

  /** The default `refreshToken(completion:)` as evidently intended: a
      provider that cannot refresh reports failure at once. */
  function DefaultRefreshToken(): (o: RefreshOutcome)
    ensures o.Completes? && !o.isSuccess
  {
    Completes(false)
  }

  /** What refreshing does for `provider`, given what a custom
      implementation reports this time. */
  function RefreshOutcomeOf(provider: TokenProvider, customOutcome: RefreshOutcome): (o: RefreshOutcome)
    ensures provider.refresh.DefaultRefresh? ==> o == Completes(false)
    ensures provider.refresh.CustomRefresh? ==> o == customOutcome
  {
    match provider.refresh
    case DefaultRefresh => DefaultRefreshToken()
    case CustomRefresh => customOutcome
  }
}
