/**
 * `KeycloakTokenInvalidInterceptor`: when a request fails with a 401, forces
 * one token refresh and replays the request once. The outcomes of the first
 * attempt, of the refresh and of the replay are parameters.
 */
module TokenInvalidInterceptor {
  import opened Wrappers
  import opened KeycloakTypes
  import opened Update
  import opened Http

  const SKIP_KEYCLOAK_TOKEN_INVALID_INTERCEPTOR := "skip-keycloak-token-invalid-interceptor"
  const UNAUTHORIZED := 401

  /**
   * The retry test compares the error BODY of an `HttpErrorResponse` with 401,
   * not its status; a 401 status with any other body is not retried.
   */
  predicate IsUnauthorized(failure: ChainFailure) {
    failure.Http? && failure.failure.HttpErrorResponse? && failure.failure.error == Numeric(UNAUTHORIZED)
  }

  /** The request passes straight through: it carries the skip header, or the strategy does not use the interceptor. */
  predicate Bypassed(request: HttpRequest, config: KeycloakConfig) {
    SKIP_KEYCLOAK_TOKEN_INVALID_INTERCEPTOR in request.headers || !ShouldUpdateByInterceptor(config)
  }

  /** `_tryUpdate`: on a 401, refresh and replay the original request; anything else is rethrown. */
  function TryUpdate(request: HttpRequest, failure: ChainFailure, refresh: Result<TokenPair, KeycloakError>, replay: HttpResult): (run: Run)
    ensures RefreshCount(run.calls) == (if IsUnauthorized(failure) then 1 else 0)
    ensures HandleCount(run.calls) == (if IsUnauthorized(failure) && refresh.Success? then 1 else 0)
    ensures forall i :: 0 <= i < |run.calls| && run.calls[i].Handle? ==> run.calls[i].request == request
    ensures !IsUnauthorized(failure) ==> run.result == Errored(failure)
    ensures IsUnauthorized(failure) && refresh.Failure? ==> run.result == Errored(Session(refresh.error))
    ensures IsUnauthorized(failure) && refresh.Success? ==> run.result == replay
  {
    if !IsUnauthorized(failure) then
      Run([], Errored(failure))
    else
      match refresh
      case Failure(e) => Run([ForceRefresh], Errored(Session(e)))
      case Success(_) =>
        var run := Run([ForceRefresh, Handle(request)], replay);
        assert run.calls[1..] == [Handle(request)];
        assert run.calls[1..][1..] == [];
        assert RefreshCount(run.calls[1..]) == 0 && HandleCount(run.calls[1..]) == 1;
        run
  }

  /** `intercept` */
  function Intercept(request: HttpRequest, config: KeycloakConfig, first: HttpResult,
                     refresh: Result<TokenPair, KeycloakError>, replay: HttpResult): (run: Run)
    ensures |run.calls| >= 1 && run.calls[0].Handle?
    ensures Bypassed(request, config) ==>
      run == Run([Handle(request.(headers := request.headers - {SKIP_KEYCLOAK_TOKEN_INVALID_INTERCEPTOR}))], first)
    ensures !Bypassed(request, config) ==> forall i :: 0 <= i < |run.calls| && run.calls[i].Handle? ==> run.calls[i].request == request
    ensures RefreshCount(run.calls) == (if !Bypassed(request, config) && first.Errored? && IsUnauthorized(first.failure) then 1 else 0)
    ensures HandleCount(run.calls) == 1 + (if !Bypassed(request, config) && first.Errored? && IsUnauthorized(first.failure) && refresh.Success? then 1 else 0)
    ensures RefreshCount(run.calls) == 0 ==> run.result == first
  {
    if Bypassed(request, config) then
      var run := Run([Handle(request.(headers := request.headers - {SKIP_KEYCLOAK_TOKEN_INVALID_INTERCEPTOR}))], first);
      assert run.calls[1..] == [];
      run
    else
      match first
      case Delivered(_) =>
        var run := Run([Handle(request)], first);
        assert run.calls[1..] == [];
        run
      case Errored(failure) =>
        var retry := TryUpdate(request, failure, refresh, replay);
        var run := Run([Handle(request)] + retry.calls, retry.result);
        assert run.calls[1..] == retry.calls;
        run
  }

  /** A request is refreshed for at most once and sent at most twice. */
  lemma AtMostOneRetry(request: HttpRequest, config: KeycloakConfig, first: HttpResult,
                       refresh: Result<TokenPair, KeycloakError>, replay: HttpResult)
    ensures RefreshCount(Intercept(request, config, first, refresh, replay).calls) <= 1
    ensures HandleCount(Intercept(request, config, first, refresh, replay).calls) <= 2
  {
  }

  /** A 401 answered by a successful refresh yields the replay's outcome, whatever it is: the replay is not retried. */
  lemma UnauthorizedIsReplayedOnce(request: HttpRequest, config: KeycloakConfig, body: ErrorBody, status: int,
                                   pair: TokenPair, replay: HttpResult)
    requires !Bypassed(request, config) && body == Numeric(UNAUTHORIZED)
    ensures Intercept(request, config, Errored(Http(HttpErrorResponse(status, body))), Success(pair), replay).result == replay
    ensures Intercept(request, config, Errored(Http(HttpErrorResponse(status, body))), Success(pair), replay).calls
      == [Handle(request), ForceRefresh, Handle(request)]
  {
  }

  /** A failed refresh propagates its error and the request is not replayed. */
  lemma FailedRefreshIsNotReplayed(request: HttpRequest, config: KeycloakConfig, status: int,
                                   error: KeycloakError, replay: HttpResult)
    requires !Bypassed(request, config)
    ensures Intercept(request, config, Errored(Http(HttpErrorResponse(status, Numeric(UNAUTHORIZED)))), Failure(error), replay)
      == Run([Handle(request), ForceRefresh], Errored(Session(error)))
  {
  }

  /** A response with status 401 whose body is not the number 401 is rethrown unchanged, with no refresh. */
  lemma UnauthorizedStatusAloneIsNotRetried(request: HttpRequest, config: KeycloakConfig, body: ErrorBody,
                                            refresh: Result<TokenPair, KeycloakError>, replay: HttpResult)
    requires body != Numeric(UNAUTHORIZED)
    ensures Intercept(request, config, Errored(Http(HttpErrorResponse(UNAUTHORIZED, body))), refresh, replay).result
      == Errored(Http(HttpErrorResponse(UNAUTHORIZED, body)))
    ensures RefreshCount(Intercept(request, config, Errored(Http(HttpErrorResponse(UNAUTHORIZED, body))), refresh, replay).calls) == 0
  {
  }
}
