/** The request interceptors of SFNetworkKit: the two header-injecting
    adapters, their composition in a chain, and the token-refresh retry
    policy, a small state machine over `lastProceededResponse`. */
module Interceptor {
  import opened Wrappers
  import opened Errors
  import opened Http
  import opened Authorization

  const AuthorizationHeader := "Authorization"

  // ----- Adapters -----

  /** `APISecretAdapter.adapt`: adds the provider's header; never fails. */
  function SecretAdapted(request: UrlRequest, provider: SecretProvider): (r: Result<UrlRequest, APIError>)
    ensures r.Success?
    ensures SameExceptHeaders(request, r.value)
    ensures HeaderSet(request.headers, r.value.headers, provider.name, provider.value)
  {
    Success(request.(headers := request.headers[provider.name := provider.value]))
  }

  /** The `Authorization` field value: scheme word, one space, token. */
  function Credentials(t: AuthorizationType, token: string): (c: string)
  {
    SchemeValue(t) + " " + token
  }

  /** The credentials split back into exactly the scheme word and the token
      at the first space after the scheme. */
  lemma CredentialsSplit(t: AuthorizationType, token: string)
    ensures var c := Credentials(t, token);
            var n := |SchemeValue(t)|;
            |c| == n + 1 + |token| && c[..n] == SchemeValue(t) && c[n] == ' ' && c[n + 1..] == token
  {
    var c := Credentials(t, token);
    var n := |SchemeValue(t)|;
    assert c[..n] == SchemeValue(t);
    assert c[n + 1..] == token;
  }

  /** `APIAuthorizationTokenAdapter.adapt`: fails with
      `invalidAuthorizationToken` when the token is missing or empty;
      otherwise adds `Authorization: <scheme> <token>`. */
  function TokenAdapted(request: UrlRequest, provider: TokenProvider): (r: Result<UrlRequest, APIError>)
    ensures r.Failure? <==> (provider.authorizationToken.None? || provider.authorizationToken.value == "")
    ensures r.Failure? ==> r.error == InvalidAuthorizationToken
    ensures r.Success? ==> SameExceptHeaders(request, r.value)
    ensures r.Success? ==>
              HeaderSet(request.headers, r.value.headers, AuthorizationHeader,
                        Credentials(provider.authorizationType, provider.authorizationToken.value))
  {
    match provider.authorizationToken
    case None => Failure(InvalidAuthorizationToken)
    case Some(token) =>
      if token == "" then Failure(InvalidAuthorizationToken)
      else
        var value := Credentials(provider.authorizationType, token);
        Success(request.(headers := request.headers[AuthorizationHeader := value]))
  }

  /** A `RequestAdapter` as the library builds them. */
  datatype Adapter = TokenAdapter(tokenProvider: TokenProvider) | SecretAdapter(secretProvider: SecretProvider)

  function Adapted(adapter: Adapter, request: UrlRequest): Result<UrlRequest, APIError> {
    match adapter
    case TokenAdapter(p) => TokenAdapted(request, p)
    case SecretAdapter(p) => SecretAdapted(request, p)
  }

  /** Alamofire's `Interceptor` runs its adapters in order, each on the
      previous one's output, and stops at the first failure. */
  function ChainAdapted(adapters: seq<Adapter>, request: UrlRequest): Result<UrlRequest, APIError> {
    if adapters == [] then Success(request)
    else
      match Adapted(adapters[0], request)
      case Failure(e) => Failure(e)
      case Success(next) => ChainAdapted(adapters[1..], next)
  }

  /** Every adapter chain changes only headers. */
  lemma {:induction false} ChainChangesOnlyHeaders(adapters: seq<Adapter>, request: UrlRequest)
    requires ChainAdapted(adapters, request).Success?
    ensures SameExceptHeaders(request, ChainAdapted(adapters, request).value)
  {
    if adapters != [] {
      var next := Adapted(adapters[0], request).value;
      ChainChangesOnlyHeaders(adapters[1..], next);
    }
  }

  /** With the library's order, token adapter first, a missing or empty
      token stops the chain before the secret adapter runs: the request is
      not sent, with or without the secret header. */
  lemma TokenFailureStopsChain(request: UrlRequest, tp: TokenProvider, sp: SecretProvider)
    requires tp.authorizationToken.None? || tp.authorizationToken.value == ""
    ensures ChainAdapted([TokenAdapter(tp), SecretAdapter(sp)], request) == Failure(InvalidAuthorizationToken)
  {
  }

  /** With a usable token, the chain of both adapters adds both headers, and
      the secret header, added last, wins on a name clash. */
  lemma BothAdaptersAddTheirHeaders(request: UrlRequest, tp: TokenProvider, sp: SecretProvider)
    requires tp.authorizationToken.Some? && tp.authorizationToken.value != ""
    ensures var r := ChainAdapted([TokenAdapter(tp), SecretAdapter(sp)], request);
            && r.Success?
            && sp.name in r.value.headers && r.value.headers[sp.name] == sp.value
            && AuthorizationHeader in r.value.headers
            && (sp.name != AuthorizationHeader ==>
                  r.value.headers[AuthorizationHeader]
                    == Credentials(tp.authorizationType, tp.authorizationToken.value))
  {
    var afterToken := TokenAdapted(request, tp).value;
    assert [TokenAdapter(tp), SecretAdapter(sp)][1..] == [SecretAdapter(sp)];
    assert ChainAdapted([SecretAdapter(sp)], afterToken) == SecretAdapted(afterToken, sp);
  }

  // ----- Token refresh retry policy -----

  /** An `HTTPURLResponse`, compared by identity: two responses are the same
      exactly when they are the same object. */
  datatype HttpResponse = HttpResponse(id: nat, statusCode: int)

  /** Alamofire's `RetryResult`. */
  datatype RetryResult = Retry | DoNotRetry | DoNotRetryWithError(error: SwiftError)

  const DefaultRetryLimit: nat := 2
  const Unauthorized: int := 401

  /** One consultation of the policy: what its completion receives (`None`:
      it is never called), whether the refresh was started, and the new
      value of `lastProceededResponse`. */
  datatype Decision = Decision(completion: Option<RetryResult>, refreshInvoked: bool,
                               lastProceeded: Option<HttpResponse>)

  /** What the completion receives once a refresh has been started. */
  function AfterRefresh(outcome: RefreshOutcome): Option<RetryResult> {
    match outcome
    case Completes(isSuccess) => Some(if isSuccess then Retry else DoNotRetry)
    case NeverCompletes => None
  }

  /** `APIAuthorizationTokenRefreshPolicy.retry`, as a transition of its
      state `lastProceeded`. */
  function Decide(lastProceeded: Option<HttpResponse>, retryLimit: nat, response: Option<HttpResponse>,
                  retryCount: nat, error: SwiftError, outcome: RefreshOutcome): (d: Decision)
    ensures (response.None? || response.value.statusCode != Unauthorized) ==>
              d == Decision(Some(DoNotRetryWithError(error)), false, lastProceeded)
    ensures response.Some? && response.value.statusCode == Unauthorized
            && (lastProceeded == response || retryCount >= retryLimit) ==>
              d == Decision(Some(DoNotRetry), false, lastProceeded)
    ensures d.refreshInvoked <==>
              (response.Some? && response.value.statusCode == Unauthorized
               && lastProceeded != response && retryCount < retryLimit)
    ensures d.refreshInvoked ==> d.lastProceeded == response && d.completion == AfterRefresh(outcome)
    ensures !d.refreshInvoked ==> d.lastProceeded == lastProceeded && d.completion.Some?
    ensures d.completion == Some(Retry) <==> (d.refreshInvoked && outcome == Completes(true))
  {
    if response.None? || response.value.statusCode != Unauthorized then
      Decision(Some(DoNotRetryWithError(error)), false, lastProceeded)
    else if lastProceeded == response || retryCount >= retryLimit then
      Decision(Some(DoNotRetry), false, lastProceeded)
    else
      Decision(AfterRefresh(outcome), true, response)
  }

  /** `APIAuthorizationTokenRefreshPolicy`: one instance per logical call. */
  class TokenRefreshPolicy {
    const retryLimit: nat
    const tokenProvider: TokenProvider
    /** Prevents the refresh from running twice for the same response. */
    var lastProceededResponse: Option<HttpResponse>

    constructor (tokenProvider: TokenProvider, retryLimit: nat := DefaultRetryLimit)
      ensures this.tokenProvider == tokenProvider && this.retryLimit == retryLimit
      ensures lastProceededResponse == None
    {
      this.tokenProvider := tokenProvider;
      this.retryLimit := retryLimit;
      lastProceededResponse := None;
    }

    /** `retry(_:for:dueTo:completion:)`. `response` is the failed task's HTTP
        response, if any; `customOutcome` is what a provider with its own
        `refreshToken` reports this time. Returns what the completion
        receives and whether the refresh was started. */
    method Retry(response: Option<HttpResponse>, retryCount: nat, error: SwiftError,
                 customOutcome: RefreshOutcome)
      returns (completion: Option<RetryResult>, refreshInvoked: bool)
      modifies this
      ensures var d := Decide(old(lastProceededResponse), retryLimit, response, retryCount, error,
                              RefreshOutcomeOf(tokenProvider, customOutcome));
              completion == d.completion && refreshInvoked == d.refreshInvoked
              && lastProceededResponse == d.lastProceeded
    {
      if response.None? || response.value.statusCode != Unauthorized {
        return Some(DoNotRetryWithError(error)), false;
      }
      if lastProceededResponse == response || retryCount >= retryLimit {
        return Some(DoNotRetry), false;
      }
      lastProceededResponse := response;
      var outcome := RefreshOutcomeOf(tokenProvider, customOutcome);
      refreshInvoked := true;
      match outcome {
        case Completes(isSuccess) =>
          completion := Some(if isSuccess then RetryResult.Retry else DoNotRetry);
        case NeverCompletes =>
          completion := None;
      }
    }
  }

  // ----- Properties of the policy over several consultations -----

  datatype Consultation = Consultation(response: Option<HttpResponse>, retryCount: nat, error: SwiftError,
                                       outcome: RefreshOutcome)

  /** How many refreshes a sequence of consultations starts, from the state
      `lastProceeded`. */
  function Refreshes(lastProceeded: Option<HttpResponse>, retryLimit: nat, cs: seq<Consultation>): nat
    decreases |cs|
  {
    if cs == [] then 0
    else
      var d := Decide(lastProceeded, retryLimit, cs[0].response, cs[0].retryCount, cs[0].error, cs[0].outcome);
      (if d.refreshInvoked then 1 else 0) + Refreshes(d.lastProceeded, retryLimit, cs[1..])
  }

  /** The consultations of one logical call. Attempt `n` fails with one
      response and the policy sees it with retry count `n`. The policy may be
      consulted more than once for the same attempt, which is what
      `lastProceededResponse` guards against. Retry counts therefore never
      decrease, and consultations with equal counts carry the same response. */
  ghost predicate OneCall(cs: seq<Consultation>) {
    forall i, j :: 0 <= i < j < |cs| ==>
      cs[i].retryCount <= cs[j].retryCount
      && (cs[i].retryCount == cs[j].retryCount ==> cs[i].response == cs[j].response)
  }

  /** The budget argument behind `RefreshesAtMostRetryLimit`. Every retry
      count in `cs` is at least `floor`, and only counts below `retryLimit`
      can refresh, at most once each. `spent` says the refresh for count
      `floor` has already happened, for the response `lastProceeded`, which
      every remaining consultation at count `floor` carries. */
  lemma {:induction false} RefreshesWithinBudget(lastProceeded: Option<HttpResponse>, retryLimit: nat,
                                                 cs: seq<Consultation>, floor: nat, spent: bool)
    requires OneCall(cs)
    requires forall i :: 0 <= i < |cs| ==> floor <= cs[i].retryCount
    requires spent ==> forall i :: 0 <= i < |cs| && cs[i].retryCount == floor ==> cs[i].response == lastProceeded
    ensures Refreshes(lastProceeded, retryLimit, cs)
              <= if floor < retryLimit then retryLimit - floor - (if spent then 1 else 0) else 0
    decreases |cs|
  {
    if cs != [] {
      var c := cs[0];
      var d := Decide(lastProceeded, retryLimit, c.response, c.retryCount, c.error, c.outcome);
      var rest := cs[1..];
      assert OneCall(rest) by {
        forall i, j | 0 <= i < j < |rest|
          ensures rest[i].retryCount <= rest[j].retryCount
                  && (rest[i].retryCount == rest[j].retryCount ==> rest[i].response == rest[j].response)
        {
          assert rest[i] == cs[i + 1] && rest[j] == cs[j + 1];
        }
      }
      forall i | 0 <= i < |rest|
        ensures c.retryCount <= rest[i].retryCount
        ensures rest[i].retryCount == c.retryCount ==> rest[i].response == c.response
      {
        assert rest[i] == cs[i + 1];
      }
      if c.retryCount == floor {
        if d.refreshInvoked {
          RefreshesWithinBudget(d.lastProceeded, retryLimit, rest, floor, true);
        } else {
          RefreshesWithinBudget(d.lastProceeded, retryLimit, rest, floor, spent);
        }
      } else {
        RefreshesWithinBudget(d.lastProceeded, retryLimit, rest, c.retryCount, d.refreshInvoked);
      }
    }
  }

  /** Over one logical call the refresh runs at most `retryLimit` times,
      whatever the responses, the repeated consultations and the refresh
      outcomes. */
  lemma RefreshesAtMostRetryLimit(retryLimit: nat, cs: seq<Consultation>)
    requires OneCall(cs)
    ensures Refreshes(None, retryLimit, cs) <= retryLimit
  {
    RefreshesWithinBudget(None, retryLimit, cs, 0, false);
  }

  /** Consulting the policy again and again with the same response starts at
      most one refresh, whatever the retry counts and outcomes. */
  lemma {:induction false} SameResponseRefreshesAtMostOnce(lastProceeded: Option<HttpResponse>, retryLimit: nat,
                                                           cs: seq<Consultation>, response: Option<HttpResponse>)
    requires forall i :: 0 <= i < |cs| ==> cs[i].response == response
    ensures Refreshes(lastProceeded, retryLimit, cs) <= 1
    ensures lastProceeded == response ==> Refreshes(lastProceeded, retryLimit, cs) == 0
    decreases |cs|
  {
    if cs != [] {
      var c := cs[0];
      var d := Decide(lastProceeded, retryLimit, c.response, c.retryCount, c.error, c.outcome);
      assert d.refreshInvoked ==> d.lastProceeded == response;
      SameResponseRefreshesAtMostOnce(d.lastProceeded, retryLimit, cs[1..], response);
    }
  }

  /** Deduplication remembers only the last response. In one call whose
      attempts fail with 401 responses A, B and then A again, the third
      consultation refreshes again for A. With the default limit 2 the third
      attempt is past the limit, so the call refreshes twice. A custom limit
      of 3 lets it refresh three times, twice for A. */
  lemma DedupRemembersOnlyLastResponse()
    ensures var a := Some(HttpResponse(1, Unauthorized));
            var b := Some(HttpResponse(2, Unauthorized));
            var e := Foreign(0);
            var cs := [Consultation(a, 0, e, Completes(true)), Consultation(b, 1, e, Completes(true)),
                       Consultation(a, 2, e, Completes(true))];
            && OneCall(cs)
            && Refreshes(None, DefaultRetryLimit, cs) == 2
            && Refreshes(None, 3, cs) == 3
  {
    var a := Some(HttpResponse(1, Unauthorized));
    var b := Some(HttpResponse(2, Unauthorized));
    var e := Foreign(0);
    var cs := [Consultation(a, 0, e, Completes(true)), Consultation(b, 1, e, Completes(true)),
               Consultation(a, 2, e, Completes(true))];
    assert cs[1..] == [Consultation(b, 1, e, Completes(true)), Consultation(a, 2, e, Completes(true))];
    assert cs[1..][1..] == [Consultation(a, 2, e, Completes(true))];
    assert cs[1..][1..][1..] == [];
    assert Decide(None, 3, a, 0, e, Completes(true)).lastProceeded == a;
    assert Decide(a, 3, b, 1, e, Completes(true)).lastProceeded == b;
    assert Refreshes(a, 3, []) == 0;
    assert Refreshes(b, 3, cs[1..][1..]) == 1;
    assert Refreshes(a, 3, cs[1..]) == 2;
    assert Refreshes(a, DefaultRetryLimit, []) == 0;
    assert Refreshes(b, DefaultRetryLimit, cs[1..][1..]) == 0;
    assert Refreshes(a, DefaultRetryLimit, cs[1..]) == 1;
  }

  /** A consultation repeated for the same attempt is skipped: with the
      trace A@0, A@0, B@1 the default policy refreshes once for A and once
      for B. */
  lemma RepeatedConsultationIsSkipped()
    ensures var a := Some(HttpResponse(1, Unauthorized));
            var b := Some(HttpResponse(2, Unauthorized));
            var e := Foreign(0);
            var cs := [Consultation(a, 0, e, Completes(true)), Consultation(a, 0, e, Completes(true)),
                       Consultation(b, 1, e, Completes(true))];
            && OneCall(cs)
            && Refreshes(None, DefaultRetryLimit, cs) == 2
  {
    var a := Some(HttpResponse(1, Unauthorized));
    var b := Some(HttpResponse(2, Unauthorized));
    var e := Foreign(0);
    var cs := [Consultation(a, 0, e, Completes(true)), Consultation(a, 0, e, Completes(true)),
               Consultation(b, 1, e, Completes(true))];
    assert cs[1..] == [Consultation(a, 0, e, Completes(true)), Consultation(b, 1, e, Completes(true))];
    assert cs[1..][1..] == [Consultation(b, 1, e, Completes(true))];
    assert cs[1..][1..][1..] == [];
    assert Refreshes(b, DefaultRetryLimit, []) == 0;
    assert Refreshes(a, DefaultRetryLimit, cs[1..][1..]) == 1;
    assert Refreshes(a, DefaultRetryLimit, cs[1..]) == 1;
  }

  /** The default refresh as written never calls its completion, so a first
      401 with a provider that relies on it leaves the request's retry
      decision, and with it the request, pending for ever. */
  lemma DefaultRefreshAsWrittenHangsOn401(response: HttpResponse, error: SwiftError)
    requires response.statusCode == Unauthorized
    ensures Decide(None, DefaultRetryLimit, Some(response), 0, error, DefaultRefreshTokenAsWritten()).completion
              == None
  {
  }

  /** With the corrected default, a provider that cannot refresh makes every
      consultation complete, and a 401 ends the call without a retry. */
  lemma DefaultRefreshGivesUpOn401(lastProceeded: Option<HttpResponse>, retryLimit: nat,
                                   response: Option<HttpResponse>, retryCount: nat, error: SwiftError,
                                   provider: TokenProvider, customOutcome: RefreshOutcome)
    requires provider.refresh.DefaultRefresh?
    ensures var d := Decide(lastProceeded, retryLimit, response, retryCount, error,
                            RefreshOutcomeOf(provider, customOutcome));
            d.completion.Some? && d.completion != Some(Retry)
  {
  }
}
