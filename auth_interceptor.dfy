/**
 * `KeycloakInterceptor`: adds the bearer token (and, when configured, the
 * current user's email) to every outgoing request, unless the request carries
 * the skip header, which is then removed.
 */
module AuthInterceptor {
  import opened Wrappers
  import opened KeycloakTypes
  import opened Store
  import opened Http

  const SKIP_KEYCLOAK_INTERCEPTOR := "skip-keycloak-interceptor"
  const AUTHORIZATION := "Authorization"
  const CURRENT_USER := "currentUser"

  /** Whether the `currentUser` header is sent: the option is on and the stored email is a non-empty string. */
  predicate SendsCurrentUser(v: StoreView) {
    v.useEmailAsCurrentUser && v.Email().Some? && v.Email().value != ""
  }

  /** The bearer credential; a missing access token is sent as "Bearer undefined". */
  function Bearer(v: StoreView): string {
    "Bearer " + TemplateString(v.AccessToken())
  }

  /** `intercept`: the request handed to the next handler. */
  function Intercept(request: HttpRequest, v: StoreView): (forwarded: HttpRequest)
    ensures forwarded.url == request.url
    ensures SKIP_KEYCLOAK_INTERCEPTOR in request.headers ==>
      forwarded.headers == request.headers - {SKIP_KEYCLOAK_INTERCEPTOR}
    ensures SKIP_KEYCLOAK_INTERCEPTOR !in request.headers ==>
      && forwarded.headers.Keys == request.headers.Keys + {AUTHORIZATION} + (if SendsCurrentUser(v) then {CURRENT_USER} else {})
      && forwarded.headers[AUTHORIZATION] == Bearer(v)
      && (SendsCurrentUser(v) ==> forwarded.headers[CURRENT_USER] == v.Email().value)
      && (forall name :: name in request.headers && name != AUTHORIZATION && (name != CURRENT_USER || !SendsCurrentUser(v))
            ==> forwarded.headers[name] == request.headers[name])
  {
    if SKIP_KEYCLOAK_INTERCEPTOR in request.headers then
      request.(headers := request.headers - {SKIP_KEYCLOAK_INTERCEPTOR})
    else if SendsCurrentUser(v) then
      request.(headers := request.headers[AUTHORIZATION := Bearer(v)][CURRENT_USER := v.Email().value])
    else
      request.(headers := request.headers[AUTHORIZATION := Bearer(v)])
  }

  /** A request that skips the interceptor gets no credentials from it: its headers only lose the marker. */
  lemma SkippedRequestGainsNoCredentials(request: HttpRequest, v: StoreView)
    requires SKIP_KEYCLOAK_INTERCEPTOR in request.headers
    ensures AUTHORIZATION in Intercept(request, v).headers <==> AUTHORIZATION in request.headers
    ensures CURRENT_USER in Intercept(request, v).headers <==> CURRENT_USER in request.headers
    ensures SKIP_KEYCLOAK_INTERCEPTOR !in Intercept(request, v).headers
  {
  }

  /** Without the email option, no `currentUser` header is ever added. */
  lemma NoCurrentUserWithoutEmailOption(request: HttpRequest, v: StoreView)
    requires !v.useEmailAsCurrentUser && CURRENT_USER !in request.headers
    ensures CURRENT_USER !in Intercept(request, v).headers
  {
  }
}
