/**
 * `KeycloakService`: the session authority. Its state is the cached
 * `authorized` flag, the two timer subscriptions, and the store it writes.
 * Every HTTP exchange is an `Exchange` outcome passed in by the caller (a
 * timeout is one of its failures), `Date.now()` is the `now` parameter, and
 * every request posted is appended to `posted`.
 */
module Auth {
  import opened Wrappers
  import opened KeycloakTypes
  import opened ParseJwt
  import opened Store
  import opened Update

  // Form-field names and values of the request bodies (`GenericBody`, `AuthBody`, `RevokeBody`).
  const CLIENT_ID := "client_id"
  const USERNAME := "username"
  const PASSWORD := "password"
  const GRANT_TYPE := "grant_type"
  const REFRESH_TOKEN := "refresh_token"
  const GRANT_PASSWORD := "password"
  const GRANT_REFRESH_TOKEN := "refresh_token"
  const TOKEN := "token"
  const TOKEN_TYPE_HINT := "token_type_hint"
  const HINT_REFRESH_TOKEN := "refresh_token"
  const HINT_ACCESS_TOKEN := "access_token"

  /** A form-encoded body (`URLSearchParams`), fields in the order appended. */
  type Form = seq<(string, string)>

  /** One POST the service sent; `skipKeycloakInterceptor` is the `skip-keycloak-interceptor` header. */
  datatype FormPost = FormPost(url: string, skipKeycloakInterceptor: bool, body: Form)

  function PasswordGrantBody(email: string, password: string, clientId: string): Form {
    [(USERNAME, email), (PASSWORD, password), (GRANT_TYPE, GRANT_PASSWORD), (CLIENT_ID, clientId)]
  }

  /** The refresh grant; an undefined refresh token is sent as the text "undefined". */
  function RefreshGrantBody(refreshToken: Option<string>, clientId: string): Form {
    [(REFRESH_TOKEN, TemplateString(refreshToken)), (GRANT_TYPE, GRANT_REFRESH_TOKEN), (CLIENT_ID, clientId)]
  }

  function RevokeBody(tokenTypeHint: string, token: string, clientId: string): Form {
    [(TOKEN_TYPE_HINT, tokenTypeHint), (TOKEN, token), (CLIENT_ID, clientId)]
  }

  function LogoutBody(refreshToken: Option<string>, clientId: string): Form {
    [(REFRESH_TOKEN, TemplateString(refreshToken)), (CLIENT_ID, clientId)]
  }

  /** `URLSearchParams.getAll(name)` */
  function FieldValues(form: Form, name: string): seq<string> {
    if form == [] then []
    else (if form[0].0 == name then [form[0].1] else []) + FieldValues(form[1..], name)
  }

  /** A revocation request carries one `token` and one `token_type_hint` (section 2.1 of RFC 7009). */
  lemma RevokeRequestFollowsRfc7009(tokenTypeHint: string, token: string, clientId: string)
    ensures FieldValues(RevokeBody(tokenTypeHint, token, clientId), TOKEN) == [token]
    ensures FieldValues(RevokeBody(tokenTypeHint, token, clientId), TOKEN_TYPE_HINT) == [tokenTypeHint]
  {
    var body := RevokeBody(tokenTypeHint, token, clientId);
    assert TOKEN != TOKEN_TYPE_HINT && TOKEN != CLIENT_ID && TOKEN_TYPE_HINT != CLIENT_ID by {
      assert |TOKEN| != |TOKEN_TYPE_HINT|;
      assert TOKEN[0] != CLIENT_ID[0] && TOKEN_TYPE_HINT[0] != CLIENT_ID[0];
    }
    assert body[1..][1..][1..] == [];
    assert FieldValues(body[1..][1..], TOKEN) == [];
    assert FieldValues(body[1..][1..], TOKEN_TYPE_HINT) == [];
  }

  /**
   * `isAccessTokenValid`/`isRefreshTokenValid` on the token they read: false
   * when it is undefined or does not decode, otherwise `exp * 1000 >= now`.
   */
  function IsTokenValid(token: Option<string>, codec: JwtCodec, now: int): (valid: bool)
    ensures valid ==> token.Some? && ParseJWT(token.value, codec).Success?
  {
    match token
    case None => false
    case Some(t) =>
      match ParseJWT(t, codec)
      case Success(claims) => claims.exp * 1000 >= now
      case Failure(_) => false
  }

  /** The access token is valid exactly when it decodes and its remaining TTL is not negative. */
  lemma AccessValidIffRemainingTTL(v: StoreView, codec: JwtCodec, now: int)
    ensures IsTokenValid(v.AccessToken(), codec, now)
      <==> v.ParsedAccessToken(codec).Some? && v.RemainingTTLOfAccessToken(codec, now) >= 0
  {
  }

  /** The refresh token is valid exactly when it decodes and its remaining TTL is not negative. */
  lemma RefreshValidIffRemainingTTL(v: StoreView, codec: JwtCodec, now: int)
    ensures IsTokenValid(v.RefreshToken(), codec, now)
      <==> v.ParsedRefreshToken(codec).Some? && v.RemainingTTLOfRefreshToken(codec, now) >= 0
  {
  }

  /** A token valid at some time was valid at every earlier time. */
  lemma ValidityIsMonotone(token: Option<string>, codec: JwtCodec, earlier: int, later: int)
    requires earlier <= later
    ensures IsTokenValid(token, codec, later) ==> IsTokenValid(token, codec, earlier)
  {
  }

  /** `list.includes(x)`: a scan from the front. */
  function Includes(list: seq<string>, x: string): (found: bool)
    ensures found <==> x in list
  {
    if list == [] then false
    else
      assert list == [list[0]] + list[1..];
      list[0] == x || Includes(list[1..], x)
  }

  /** The property names every plain JavaScript object inherits from `Object.prototype`. */
  const OBJECT_PROTOTYPE_MEMBERS: set<string> := {
    "constructor", "__proto__", "hasOwnProperty", "isPrototypeOf", "propertyIsEnumerable",
    "toString", "toLocaleString", "valueOf",
    "__defineGetter__", "__defineSetter__", "__lookupGetter__", "__lookupSetter__"
  }

  /** The `TypeError` of reading `.roles.includes` through an inherited member of `resource_access`. */
  datatype ClaimError = NoRolesOnInheritedMember(key: string)

  /** What a timer subscription was created by: `timer(dueIn)` or `interval(period)`. */
  datatype Schedule = Once(dueIn: int) | Every(period: int)

  /** An rxjs `Subscription` to a timer: its schedule and whether it is closed. */
  datatype Subscription = Subscription(schedule: Schedule, closed: bool)

  predicate IsOpen(s: Option<Subscription>) {
    s.Some? && !s.value.closed
  }

  /** `s?.unsubscribe()`: a held subscription is closed, an empty field stays empty. */
  function Unsubscribe(s: Option<Subscription>): (r: Option<Subscription>)
    ensures !IsOpen(r)
    ensures r.Some? <==> s.Some?
    ensures r.Some? ==> r.value.schedule == s.value.schedule
  {
    match s
    case Some(sub) => Some(sub.(closed := true))
    case None => None
  }

  /** Stopping twice is the same as stopping once. */
  lemma UnsubscribeIdempotent(s: Option<Subscription>)
    ensures Unsubscribe(Unsubscribe(s)) == Unsubscribe(s)
  {
  }

  /** The subscriptions no field refers to any more but that still run, after `prior` is overwritten. */
  ghost function Orphaned(abandoned: seq<Subscription>, prior: Option<Subscription>): seq<Subscription> {
    if IsOpen(prior) then abandoned + [prior.value] else abandoned
  }

  /** The delay of the one-shot timer: `remainingTTLOfAccessToken - delay`. */
  function OneShotDelay(v: StoreView, codec: JwtCodec, config: KeycloakConfig, now: int): int {
    v.RemainingTTLOfAccessToken(codec, now) - config.Delay()
  }

  /** The period of the refresh interval: `TTLOfAccessToken - delay`. */
  function IntervalPeriod(v: StoreView, codec: JwtCodec, config: KeycloakConfig): int {
    v.TTLOfAccessToken(codec) - config.Delay()
  }

  /** With a decodable access token, the one-shot timer fires `delay` milliseconds before it expires. */
  lemma OneShotFiresDelayBeforeExpiry(v: StoreView, codec: JwtCodec, config: KeycloakConfig, now: int)
    requires v.ParsedAccessToken(codec).Some?
    ensures now + OneShotDelay(v, codec, config, now) == v.ParsedAccessToken(codec).value.exp * 1000 - config.Delay()
  {
  }

  /**
   * Without access claims and with the default offset, both timers are
   * scheduled at 300 - 3000 = -2700 ms: the unscaled default TTL is smaller than the offset.
   */
  lemma DefaultScheduleIsNegative(v: StoreView, codec: JwtCodec, config: KeycloakConfig, now: int)
    requires v.ParsedAccessToken(codec).None? && config.expirationOffset.None?
    ensures OneShotDelay(v, codec, config, now) == -2700
    ensures IntervalPeriod(v, codec, config) == -2700
  {
  }

  /** The stored record after `login`: the email is written before the request, the tokens and the email again on success. */
  function LoginStore(v: StoreView, email: string, response: Exchange<TokenPair>): (r: StoreView)
    ensures r.useEmailAsCurrentUser == v.useEmailAsCurrentUser
    ensures r.Email() == (if v.useEmailAsCurrentUser then Some(email) else None)
    ensures response.Responded? ==> r.Tokens() == Some(response.body)
    ensures response.Failed? ==> r.Tokens() == v.Tokens()
  {
    var before := v.WithEmail(Some(email));
    match response
    case Responded(p) => before.WithTokens(Some(p)).WithEmail(Some(email))
    case Failed(_) => before
  }

  /** The stored record after a refresh exchange: the new pair, or no tokens; the email survives either way. */
  function RefreshStore(v: StoreView, response: Exchange<TokenPair>): (r: StoreView)
    ensures r.useEmailAsCurrentUser == v.useEmailAsCurrentUser
    ensures r.Email() == v.Email()
    ensures r.Tokens() == (if response.Responded? then Some(response.body) else None)
  {
    match response
    case Responded(p) => v.WithTokens(Some(p))
    case Failed(_) => v.WithoutTokens()
  }

  class KeycloakService {
    /** The identity provider's base URL (`KEYCLOAK_HTTP_CONFIG`). */
    const authServerUrl: string
    const store: KeycloakStoreService
    /** `_isAuthorized`: a cache of the last login/refresh outcome, not a live validity check. */
    var authorized: bool
    /** `_accessTokenUpdateIntervalSubscription` */
    var intervalSubscription: Option<Subscription>
    /** `_accessTokenUpdateTimerSubscription` */
    var timerSubscription: Option<Subscription>
    /** Every POST sent, in order. */
    var posted: seq<FormPost>
    /** Open subscriptions whose field was overwritten: nothing can unsubscribe them any more. */
    ghost var abandoned: seq<Subscription>

    constructor (authServerUrl: string, store: KeycloakStoreService)
      ensures this.authServerUrl == authServerUrl && this.store == store
      ensures !authorized && intervalSubscription.None? && timerSubscription.None?
      ensures posted == [] && abandoned == []
    {
      this.authServerUrl := authServerUrl;
      this.store := store;
      authorized := false;
      intervalSubscription := None;
      timerSubscription := None;
      posted := [];
      abandoned := [];
    }

    function Endpoint(path: string): string {
      authServerUrl + "/realms/" + store.config.realm + "/protocol/openid-connect/" + path
    }

    /** `isAuthorized()` */
    function IsAuthorized(): (isAuthorized: bool)
      reads this
      ensures isAuthorized == authorized
    {
      authorized
    }

    /** `setAuthorized(value)` */
    method SetAuthorized(value: bool)
      modifies this`authorized
      ensures authorized == value
    {
      authorized := value;
    }

    /** `isAccessTokenValid()` at time `now`. */
    function IsAccessTokenValid(now: int): (valid: bool)
      reads store.storage
      ensures valid <==> store.View().ParsedAccessToken(store.codec).Some?
                         && store.View().RemainingTTLOfAccessToken(store.codec, now) >= 0
    {
      AccessValidIffRemainingTTL(store.View(), store.codec, now);
      IsTokenValid(store.View().AccessToken(), store.codec, now)
    }

    /** `isRefreshTokenValid()` at time `now`. */
    function IsRefreshTokenValid(now: int): (valid: bool)
      reads store.storage
      ensures valid <==> store.View().ParsedRefreshToken(store.codec).Some?
                         && store.View().RemainingTTLOfRefreshToken(store.codec, now) >= 0
    {
      RefreshValidIffRemainingTTL(store.View(), store.codec, now);
      IsTokenValid(store.View().RefreshToken(), store.codec, now)
    }

    /** `_updateAccessToken`: the refresh grant and its effects on the store and the flag. */
    method UpdateAccessToken(response: Exchange<TokenPair>) returns (r: Result<TokenPair, KeycloakError>)
      modifies this`authorized, this`posted, store.storage
      ensures posted == old(posted) + [FormPost(Endpoint("token"), false,
        RefreshGrantBody(old(store.View()).RefreshToken(), store.config.resource))]
      ensures store.storage.items == Commit(old(store.storage.items), store.config.storageKey, RefreshStore(old(store.View()), response).raw)
      ensures store.View() == RefreshStore(old(store.View()), response)
      ensures response.Responded? ==> r == Success(response.body) && authorized == old(authorized)
      ensures response.Failed? ==> r == Failure(AccessTokenNotUpdated) && !authorized
    {
      posted := posted + [FormPost(Endpoint("token"), false, RefreshGrantBody(store.View().RefreshToken(), store.config.resource))];
      match response
      case Responded(p) =>
        store.SetTokens(Some(p));
        r := Success(p);
      case Failed(_) =>
        store.ClearTokens();
        authorized := false;
        r := Failure(AccessTokenNotUpdated);
    }

    /** `_updateAccessTokenByInterval`: subscribes a new interval, overwriting the field without unsubscribing. */
    method StartInterval()
      modifies this`intervalSubscription, this`abandoned
      ensures intervalSubscription == Some(Subscription(Every(IntervalPeriod(store.View(), store.codec, store.config)), false))
      ensures abandoned == Orphaned(old(abandoned), old(intervalSubscription))
    {
      abandoned := Orphaned(abandoned, intervalSubscription);
      intervalSubscription := Some(Subscription(Every(IntervalPeriod(store.View(), store.codec, store.config)), false));
    }

    /** `_updateAccessTokenAfterRemainingTTLByInterval`: subscribes a new one-shot timer, overwriting the field. */
    method StartOneShot(now: int)
      modifies this`timerSubscription, this`abandoned
      ensures timerSubscription == Some(Subscription(Once(OneShotDelay(store.View(), store.codec, store.config, now)), false))
      ensures abandoned == Orphaned(old(abandoned), old(timerSubscription))
    {
      abandoned := Orphaned(abandoned, timerSubscription);
      timerSubscription := Some(Subscription(Once(OneShotDelay(store.View(), store.codec, store.config, now)), false));
    }

    /** `login(email, password, autoStartInterval)` */
    method Login(email: string, password: string, autoStartInterval: bool, response: Exchange<TokenPair>)
      returns (r: Result<TokenPair, KeycloakError>)
      modifies this`authorized, this`posted, this`intervalSubscription, this`abandoned, store.storage
      ensures posted == old(posted) + [FormPost(Endpoint("token"), true, PasswordGrantBody(email, password, store.config.resource))]
      ensures store.storage.items == Commit(old(store.storage.items), store.config.storageKey, LoginStore(old(store.View()), email, response).raw)
      ensures store.View() == LoginStore(old(store.View()), email, response)
      ensures authorized == response.Responded?
      ensures r == if response.Responded? then Success(response.body) else Failure(CouldNotLogin)
      ensures if response.Responded? && ShouldUpdateByInterval(store.config) && autoStartInterval
        then intervalSubscription == Some(Subscription(Every(IntervalPeriod(store.View(), store.codec, store.config)), false))
          && abandoned == Orphaned(old(abandoned), old(intervalSubscription))
        else intervalSubscription == old(intervalSubscription) && abandoned == old(abandoned)
    {
      store.SetEmail(Some(email));
      posted := posted + [FormPost(Endpoint("token"), true, PasswordGrantBody(email, password, store.config.resource))];
      match response
      case Responded(p) =>
        store.SetTokens(Some(p));
        store.SetEmail(Some(email));
        authorized := true;
        if ShouldUpdateByInterval(store.config) && autoStartInterval {
          StartInterval();
        }
        r := Success(p);
      case Failed(_) =>
        authorized := false;
        r := Failure(CouldNotLogin);
    }

    /** `stopAccessTokenUpdate()`: closes whatever the two fields hold; harmless when repeated. */
    method StopAccessTokenUpdate()
      modifies this`timerSubscription, this`intervalSubscription
      ensures timerSubscription == Unsubscribe(old(timerSubscription))
      ensures intervalSubscription == Unsubscribe(old(intervalSubscription))
    {
      timerSubscription := Unsubscribe(timerSubscription);
      intervalSubscription := Unsubscribe(intervalSubscription);
    }

    /** `logout()`: on success stops both timers, clears the store and the flag; a failure changes nothing. */
    method Logout(response: Exchange<()>) returns (r: Result<(), KeycloakError>)
      modifies this`authorized, this`posted, this`timerSubscription, this`intervalSubscription, store.storage
      ensures posted == old(posted) + [FormPost(Endpoint("logout"), false, LogoutBody(old(store.View()).RefreshToken(), store.config.resource))]
      ensures response.Responded? ==>
        && r == Success(())
        && timerSubscription == Unsubscribe(old(timerSubscription))
        && intervalSubscription == Unsubscribe(old(intervalSubscription))
        && store.storage.items == old(store.storage.items) - {store.config.storageKey}
        && !authorized
      ensures response.Failed? ==>
        && r == Failure(Transport(response.failure))
        && timerSubscription == old(timerSubscription)
        && intervalSubscription == old(intervalSubscription)
        && store.storage.items == old(store.storage.items)
        && authorized == old(authorized)
    {
      posted := posted + [FormPost(Endpoint("logout"), false, LogoutBody(store.View().RefreshToken(), store.config.resource))];
      match response
      case Responded(_) =>
        StopAccessTokenUpdate();
        store.Clear();
        authorized := false;
        r := Success(());
      case Failed(f) =>
        r := Failure(Transport(f));
    }

    /** `startAccessTokenUpdate()` at time `now`. */
    method StartAccessTokenUpdate(now: int)
      modifies this`authorized, this`timerSubscription, this`abandoned
      ensures authorized == old(IsRefreshTokenValid(now))
      ensures authorized ==>
        timerSubscription == Some(Subscription(Once(OneShotDelay(store.View(), store.codec, store.config, now)), false))
        && abandoned == Orphaned(old(abandoned), old(timerSubscription))
      ensures !authorized ==> timerSubscription == old(timerSubscription) && abandoned == old(abandoned)
    {
      if !IsRefreshTokenValid(now) {
        authorized := false;
        return;
      }
      authorized := true;
      StartOneShot(now);
    }

    /**
     * The one-shot timer emitting: it completes, refreshes, and on success
     * subscribes the interval, whose period is read from the new tokens.
     * A closed subscription emits nothing.
     */
    method OnTimerFired(response: Exchange<TokenPair>)
      modifies this`authorized, this`posted, this`timerSubscription, this`intervalSubscription, this`abandoned, store.storage
      ensures !old(IsOpen(timerSubscription)) ==>
        && authorized == old(authorized) && posted == old(posted)
        && timerSubscription == old(timerSubscription) && intervalSubscription == old(intervalSubscription)
        && store.storage.items == old(store.storage.items) && abandoned == old(abandoned)
      ensures old(IsOpen(timerSubscription)) ==>
        && timerSubscription == Unsubscribe(old(timerSubscription))
        && posted == old(posted) + [FormPost(Endpoint("token"), false,
             RefreshGrantBody(old(store.View()).RefreshToken(), store.config.resource))]
        && store.View() == RefreshStore(old(store.View()), response)
        && (response.Responded? ==>
              authorized == old(authorized)
              && intervalSubscription == Some(Subscription(Every(IntervalPeriod(store.View(), store.codec, store.config)), false))
              && abandoned == Orphaned(old(abandoned), old(intervalSubscription)))
        && (response.Failed? ==> !authorized && intervalSubscription == old(intervalSubscription) && abandoned == old(abandoned))
    {
      if !IsOpen(timerSubscription) {
        return;
      }
      timerSubscription := Unsubscribe(timerSubscription);
      var r := UpdateAccessToken(response);
      if r.Success? {
        StartInterval();
      }
    }

    /** One tick of the interval: a refresh whose failure does not stop the interval. */
    method OnIntervalTick(response: Exchange<TokenPair>)
      modifies this`authorized, this`posted, store.storage
      ensures !old(IsOpen(intervalSubscription)) ==>
        authorized == old(authorized) && posted == old(posted) && store.storage.items == old(store.storage.items)
      ensures old(IsOpen(intervalSubscription)) ==>
        && store.View() == RefreshStore(old(store.View()), response)
        && posted == old(posted) + [FormPost(Endpoint("token"), false,
             RefreshGrantBody(old(store.View()).RefreshToken(), store.config.resource))]
        && authorized == (old(authorized) && response.Responded?)
    {
      if !IsOpen(intervalSubscription) {
        return;
      }
      var _ := UpdateAccessToken(response);
    }

    /** `forceUpdateAccessToken()`: refuses without a request when the refresh token is not valid at `now`. */
    method ForceUpdateAccessToken(now: int, response: Exchange<TokenPair>) returns (r: Result<TokenPair, KeycloakError>)
      modifies this`authorized, this`posted, store.storage
      ensures !old(IsRefreshTokenValid(now)) ==>
        && r == Failure(RefreshTokenExpected)
        && posted == old(posted) && store.storage.items == old(store.storage.items) && authorized == old(authorized)
      ensures old(IsRefreshTokenValid(now)) ==>
        && posted == old(posted) + [FormPost(Endpoint("token"), false,
             RefreshGrantBody(old(store.View()).RefreshToken(), store.config.resource))]
        && store.View() == RefreshStore(old(store.View()), response)
        && r == (if response.Responded? then Success(response.body) else Failure(AccessTokenNotUpdated))
        && authorized == (old(authorized) && response.Responded?)
    {
      if !IsRefreshTokenValid(now) {
        r := Failure(RefreshTokenExpected);
        return;
      }
      r := UpdateAccessToken(response);
    }

    /** `revokeAccessToken(overwriteAccessToken)`: the override wins over the stored token; with neither, no request. */
    method RevokeAccessToken(overwriteAccessToken: Option<string>, response: Exchange<()>) returns (r: Result<(), KeycloakError>)
      modifies this`posted
      ensures Coalesce(overwriteAccessToken, store.View().AccessToken()).None? ==>
        r == Failure(AccessTokenExpected) && posted == old(posted)
      ensures Coalesce(overwriteAccessToken, store.View().AccessToken()).Some? ==>
        && posted == old(posted) + [FormPost(Endpoint("revoke"), true, RevokeBody(HINT_ACCESS_TOKEN,
             if overwriteAccessToken.Some? then overwriteAccessToken.value else store.View().AccessToken().value,
             store.config.resource))]
        && r == (if response.Responded? then Success(()) else Failure(Transport(response.failure)))
    {
      var accessToken := Coalesce(overwriteAccessToken, store.View().AccessToken());
      if accessToken.None? {
        r := Failure(AccessTokenExpected);
        return;
      }
      posted := posted + [FormPost(Endpoint("revoke"), true, RevokeBody(HINT_ACCESS_TOKEN, accessToken.value, store.config.resource))];
      r := if response.Responded? then Success(()) else Failure(Transport(response.failure));
    }

    /** `revokeRefreshToken(overwriteRefreshToken)`: the override wins over the stored token; with neither, no request. */
    method RevokeRefreshToken(overwriteRefreshToken: Option<string>, response: Exchange<()>) returns (r: Result<(), KeycloakError>)
      modifies this`posted
      ensures Coalesce(overwriteRefreshToken, store.View().RefreshToken()).None? ==>
        r == Failure(RefreshTokenExpected) && posted == old(posted)
      ensures Coalesce(overwriteRefreshToken, store.View().RefreshToken()).Some? ==>
        && posted == old(posted) + [FormPost(Endpoint("revoke"), true, RevokeBody(HINT_REFRESH_TOKEN,
             if overwriteRefreshToken.Some? then overwriteRefreshToken.value else store.View().RefreshToken().value,
             store.config.resource))]
        && r == (if response.Responded? then Success(()) else Failure(Transport(response.failure)))
    {
      var refreshToken := Coalesce(overwriteRefreshToken, store.View().RefreshToken());
      if refreshToken.None? {
        r := Failure(RefreshTokenExpected);
        return;
      }
      posted := posted + [FormPost(Endpoint("revoke"), true, RevokeBody(HINT_REFRESH_TOKEN, refreshToken.value, store.config.resource))];
      r := if response.Responded? then Success(()) else Failure(Transport(response.failure));
    }

    /**
     * `validateCredentials(email, password)`: a password grant whose new access
     * token is revoked at once; the store and the flag are left alone.
     */
    method ValidateCredentials(email: string, password: string, loginResponse: Exchange<TokenPair>, revokeResponse: Exchange<()>)
      returns (r: Result<(), KeycloakError>)
      modifies this`posted
      ensures loginResponse.Failed? ==>
        && r == Failure(Transport(loginResponse.failure))
        && posted == old(posted) + [FormPost(Endpoint("token"), true, PasswordGrantBody(email, password, store.config.resource))]
      ensures loginResponse.Responded? ==>
        && posted == old(posted) + [FormPost(Endpoint("token"), true, PasswordGrantBody(email, password, store.config.resource)),
                                    FormPost(Endpoint("revoke"), true, RevokeBody(HINT_ACCESS_TOKEN, loginResponse.body.accessToken, store.config.resource))]
        && r == (if revokeResponse.Responded? then Success(()) else Failure(Transport(revokeResponse.failure)))
    {
      posted := posted + [FormPost(Endpoint("token"), true, PasswordGrantBody(email, password, store.config.resource))];
      match loginResponse
      case Failed(f) =>
        r := Failure(Transport(f));
      case Responded(p) =>
        posted := posted + [FormPost(Endpoint("revoke"), true, RevokeBody(HINT_ACCESS_TOKEN, p.accessToken, store.config.resource))];
        r := if revokeResponse.Responded? then Success(()) else Failure(Transport(revokeResponse.failure));
    }

    /** `parsedAccessToken` of the store, as the claim helpers read it. */
    function ParsedAccessToken(): Option<Claims>
      reads store.storage
    {
      store.View().ParsedAccessToken(store.codec)
    }

    /** `hasAccessTokenAllowedOrigin(origin)`: false without claims or without an `allowed-origins` list. */
    function HasAccessTokenAllowedOrigin(allowedOrigin: string): (has: bool)
      reads store.storage
      ensures has <==> ParsedAccessToken().Some? && ParsedAccessToken().value.allowedOrigins.Some?
                       && allowedOrigin in ParsedAccessToken().value.allowedOrigins.value
    {
      var parsed := ParsedAccessToken();
      if parsed.None? || parsed.value.allowedOrigins.None? then false
      else Includes(parsed.value.allowedOrigins.value, allowedOrigin)
    }

    /** `hasAccessTokenAud(aud)`: false without claims. */
    function HasAccessTokenAud(aud: string): (has: bool)
      reads store.storage
      ensures has <==> ParsedAccessToken().Some? && aud in ParsedAccessToken().value.aud
    {
      var parsed := ParsedAccessToken();
      if parsed.None? then false else Includes(parsed.value.aud, aud)
    }

    /** `hasAccessTokenRealmAccess(role)`: false without claims. */
    function HasAccessTokenRealmAccess(realmAccess: string): (has: bool)
      reads store.storage
      ensures has <==> ParsedAccessToken().Some? && realmAccess in ParsedAccessToken().value.realmAccess.roles
    {
      var parsed := ParsedAccessToken();
      if parsed.None? then false else Includes(parsed.value.realmAccess.roles, realmAccess)
    }

    /**
     * `hasAccessTokenResourceAccess(key, role)`: false without claims or without
     * an entry for `key`. A key naming an inherited `Object.prototype` member
     * finds that member, which is truthy and has no `roles`, so the source
     * throws a `TypeError` there.
     */
    function HasAccessTokenResourceAccess(key: string, resourceAccess: string): (has: Result<bool, ClaimError>)
      reads store.storage
      ensures has.Failure? <==> ParsedAccessToken().Some? && key !in ParsedAccessToken().value.resourceAccess
                                && key in OBJECT_PROTOTYPE_MEMBERS
      ensures has.Failure? ==> has.error == NoRolesOnInheritedMember(key)
      ensures has.Success? ==>
        (has.value <==> ParsedAccessToken().Some? && key in ParsedAccessToken().value.resourceAccess
                        && resourceAccess in ParsedAccessToken().value.resourceAccess[key].roles)
    {
      var parsed := ParsedAccessToken();
      if parsed.None? then Success(false)
      else if key in parsed.value.resourceAccess then
        Success(Includes(parsed.value.resourceAccess[key].roles, resourceAccess))
      else if key in OBJECT_PROTOTYPE_MEMBERS then
        Failure(NoRolesOnInheritedMember(key))
      else Success(false)
    }
  }

  /**
   * `isAuthorized()` is a cache, not a validity check: after a successful
   * login it still reads true at a time when the access token has expired.
   */
  method CachedFlagOutlivesAccessToken() returns (isAuthorized: bool, accessValid: bool)
    ensures isAuthorized && !accessValid
  {
    var claims := Claims(
      exp := 1000, iat := 700, jti := "", jss := "", sub := "", typ := "Bearer", azp := "app",
      sessionState := "", nbf := 0, iss := "", authTime := 700, acr := "1", allowedOrigins := None,
      scope := "", emailVerified := true, name := "", sid := "", preferredUsername := "",
      givenName := "", familyName := "", email := "", aud := [], realmAccess := RoleList([]),
      resourceAccess := map[]);
    var codec := JwtCodec(_ => Some([]), _ => Some(claims));
    var config := KeycloakConfig("app", "realm", None, None, None, None, "keycloak", false,
                                 None, None, NoUpdate);
    var storage := new Storage(map[]);
    var store := new KeycloakStoreService(config, storage, codec);
    var service := new KeycloakService("https://id.example", store);
    var token := "h.p.s";
    var _ := service.Login("user@example.org", "secret", true, Responded(TokenPair(token, token)));
    assert service.store.View().AccessToken() == Some(token);
    assert '.' in token by { assert token[1] == '.'; }
    isAuthorized := service.IsAuthorized();
    accessValid := service.IsAccessTokenValid(2000000);
  }
}
