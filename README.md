# ngx-keycloak token lifecycle, modelled in Dafny

This project models the token-lifecycle core of the ngx-keycloak Angular library, a client for a Keycloak
identity provider:

- **`KeycloakStoreService`** (`store.dfy`) keeps one record under `storageKey` in a key-value store. The record
  has one of two shapes, chosen by `useEmailAsCurrentUser`: *Simple* (the token pair alone) or *Multi*
  (`{email?, tokens?}`). The setters read the record, modify it and write it back. The getters decode the tokens
  and compute their TTLs. The backend is a `Storage` class over `map<string, Record>`; `GetItem`, `SetItem` and
  `RemoveItem` are the only calls the store makes on it. The store's methods are proved against the functions
  of `StoreView`, a value that pairs the stored record with the configured shape.
- **`KeycloakService`** (`auth.dfy`) is the session authority. It is a class holding:
  - the cached `authorized` flag;
  - the two timer-subscription fields;
  - the list of POST requests it sent, with their form bodies.

  Login, refresh, logout, forced refresh, revoke and credential validation each take the outcome of their HTTP
  exchange as a parameter. The current time is the `now` parameter.
- **`KeycloakInterceptor`** (`auth_interceptor.dfy`) works on a header map. It either strips the skip marker or
  sets `Authorization`, plus `currentUser` when configured.
- **`KeycloakTokenInvalidInterceptor`** (`token_invalid_interceptor.dfy`) returns the sequence of calls it makes
  (handle the request, force a refresh) and the result it yields. The outcomes of the first attempt, the refresh
  and the replay are parameters.
- **`keycloakGuard`** (`guard.dfy`) returns its verdict, the fallback callback to run and the URL to navigate to.
- **`parseJWT`** (`parse_jwt.dfy`) covers:
  - extracting the second `.`-separated segment;
  - translating the base64url alphabet to base64 (section 5 of RFC 4648 to section 4);
  - rebuilding the decoded bytes as `%hh` escapes.

  `atob` and `decodeURIComponent`/`JSON.parse` are the two functions of a `JwtCodec` value.
- **`shouldUpdateByInterval` / `shouldUpdateByInterceptor`** (`update.dfy`).

Behaviour kept as the code has it:

- The TTL fallbacks are the literals 300 and 1800 (src/services/store.service.ts:159, 174, 185), although the
  claim-based values are in milliseconds.
- `clearEmail` removes the record and then writes `{tokens: null}` anyway. That record has a tokens field that is
  present but null. The email setter treats only an *absent* field as "no tokens", so after `clearEmail` a later
  `email = null` leaves `{tokens: null}` in storage instead of removing the record. `TokensSlot` models this
  three-way distinction.
- The 401 retry compares the error *body* of the `HttpErrorResponse` with 401, not its status.
- On denial, the guard pairs the callbacks the opposite way to the URLs.
- Starting a timer overwrites its field without unsubscribing the one it held. The ghost field `abandoned`
  records every subscription lost this way.
- A refresh or logout with no refresh token stored sends the text `undefined`. The header interceptor sends
  `Bearer undefined` when no access token is stored.
- A successful refresh does not set `authorized` to true. A failed login does not clear stored tokens.
- With no access claims and the default offset, both timers are scheduled at 300 - 3000 = -2700 ms (lemma
  `DefaultScheduleIsNegative`).

## Model

| member | source | states |
|---|---|---|
| ParseJwt.Split | src/utils/parse-jwt.ts:3 | `split(".")` yields at least one part, and exactly one iff the token has no `.` |
| ParseJwt.SplitJoin | src/utils/parse-jwt.ts:3 | joining the parts of a split with the separator gives back the original string |
| ParseJwt.SplitPartsLackSeparator | src/utils/parse-jwt.ts:3 | no part of a split contains the separator |
| ParseJwt.SplitAtFirstSeparator | src/utils/parse-jwt.ts:3 | splitting `a.b`, where `a` has no `.`, gives `a` followed by the parts of `b` |
| ParseJwt.SplitKeepsFirstPart | src/utils/parse-jwt.ts:3 | the first part of a split is the text before the first `.` |
| ParseJwt.PayloadSegment | src/utils/parse-jwt.ts:3-6 | a token has a segment at index 1 iff it contains a `.` |
| ParseJwt.PayloadIsSecondSegment | src/utils/parse-jwt.ts:3 | for `header.payload[.rest]` with no `.` in the header or payload, the segment is exactly `payload` |
| ParseJwt.ReplaceAll | src/utils/parse-jwt.ts:9 | `replaceAll` keeps the length, turns every `from` into `to` and leaves every other character alone |
| ParseJwt.Base64UrlToBase64 | src/utils/parse-jwt.ts:9 | `-` becomes `+` and `_` becomes `/`; the length is kept, all other characters are unchanged, and no `-` or `_` remains |
| ParseJwt.HexValue | src/utils/parse-jwt.ts:14 | reading a lowercase hex digit gives a value below 16 that maps back to the same digit |
| ParseJwt.PercentEscape | src/utils/parse-jwt.ts:14 | each byte becomes `%` plus its high and low nibbles as lowercase hex digits, after `00` padding and `slice(-2)` |
| ParseJwt.EscapeReadsBackAsByte | src/utils/parse-jwt.ts:14 | the two digits of an escape are lowercase hex and read back as the byte they came from |
| ParseJwt.HexDigitInjective | src/utils/parse-jwt.ts:14 | distinct nibbles get distinct hex digits |
| ParseJwt.PercentEncode | src/utils/parse-jwt.ts:11-16 | the escaped string has length 3 × the byte count and holds only `%` and lowercase hex digits |
| ParseJwt.PercentEncodeRoundTrip | src/utils/parse-jwt.ts:10-16 | decoding the `%hh` string gives back exactly the bytes `atob` produced |
| ParseJwt.ParseJWT | src/utils/parse-jwt.ts:2-20 | parsing fails with the missing-segment error iff the token has no `.` |
| ParseJwt.OnlyPayloadSegmentMatters | src/utils/parse-jwt.ts:3 | two tokens with the same second segment parse the same, whatever their header and trailing segments |
| ParseJwt.EmptyPayloadIsPresent | src/utils/parse-jwt.ts:3-5 | `header.` passes the missing-segment check: the check is only for absence |
| Update.ShouldUpdateByInterval | src/utils/update.ts:4-5 | timer-driven renewal is on for every strategy except none and INTERCEPTOR |
| Update.ShouldUpdateByInterceptor | src/utils/update.ts:6-7 | 401-driven renewal is on for every strategy except none and INTERVAL |
| Update.StrategyTable | src/utils/update.ts:4-7 | BOTH enables both triggers; INTERVAL and INTERCEPTOR enable only their own; any other strategy enables neither |
| Store.Storage.SetItem | src/services/store.service.ts:73 | `setItem` replaces the value at one key and changes no other key |
| Store.Storage.RemoveItem | src/services/store.service.ts:22 | `removeItem` deletes one key and changes no other key |
| Store.TryParseJWT | src/services/store.service.ts:195-207 | decoding gives claims iff the token is present and `parseJWT` does not throw; the claims are the ones `parseJWT` returns |
| Store.StoreView.Tokens | src/services/store.service.ts:127-133 | tokens are read only from a record of the configured shape; in Multi shape an absent and a null tokens field both read null |
| Store.StoreView.AccessToken | src/services/store.service.ts:139-141 | present iff tokens are stored, and then it is their access token |
| Store.StoreView.RefreshToken | src/services/store.service.ts:147-149 | present iff tokens are stored, and then it is their refresh token |
| Store.StoreView.TTLOfAccessToken | src/services/store.service.ts:155-165 | 300 without claims; with claims a whole number of seconds in milliseconds, not negative iff `exp >= iat` |
| Store.StoreView.RemainingTTLOfAccessToken | src/services/store.service.ts:171-175 | 300 without claims; with claims `now` plus the result is the expiry instant `exp*1000` |
| Store.StoreView.RemainingTTLOfRefreshToken | src/services/store.service.ts:181-189 | 1800 without claims; with claims `now` plus the result is the expiry instant `exp*1000` |
| Store.StoreView.Email | src/services/store.service.ts:80-86 | the email getter reads null whenever `useEmailAsCurrentUser` is off |
| Store.StoreView.ParsedAccessToken | src/services/store.service.ts:195-207 | null iff there is no access token or decoding it throws; it never throws |
| Store.StoreView.ParsedRefreshToken | src/services/store.service.ts:213-225 | null iff there is no refresh token or decoding it throws; it never throws |
| Store.StoreView.WithTokens | src/services/store.service.ts:92-121 | reading the tokens back gives what was set (round trip); the email is kept; the record is removed iff the tokens are null and no email is stored; the record keeps the configured shape |
| Store.StoreView.WithEmail | src/services/store.service.ts:55-74 | no change in Simple shape; in Multi shape reading back gives the email set, the tokens are kept, the tokens field keeps its absent, null or present state, and the record is removed iff the email is null and the tokens field is absent |
| Store.StoreView.WithoutTokens | src/services/store.service.ts:28-36 | afterwards no tokens are stored and the email is kept; the record is removed iff no email was stored, otherwise it holds only that email |
| Store.StoreView.WithoutEmail | src/services/store.service.ts:41-49 | no change in Simple shape; in Multi shape a record always remains, without email and with the same tokens, and it is `{tokens: null}` when none were stored |
| Store.StoreView.Cleared | src/services/store.service.ts:21-23 | afterwards no record is stored, and tokens and email read null |
| Store.NullEmailKeepsClearedRecord | src/services/store.service.ts:41-74 | after `clearEmail()` with no tokens stored, `email = null` leaves `{tokens: null}` instead of removing the record |
| Store.ClearTokensIsSetTokensNull | src/services/store.service.ts:28-36 | `clearTokens()` has the same effect as `tokens = null` in both shapes |
| Store.EmailSurvivesTokenWrite | src/services/store.service.ts:92-121 | in Multi shape, writing the email and then the tokens reads back both |
| Store.DefaultTTLs | src/services/store.service.ts:155-189 | without claims, the TTL and the remaining access TTL are 300 and the remaining refresh TTL is 1800 |
| Store.RemainingIsLifetimeLessElapsed | src/services/store.service.ts:155-175 | with claims, the remaining access TTL is `(exp-iat)*1000` less the time elapsed since `iat` |
| Store.KeycloakStoreService.Clear | src/services/store.service.ts:21-23 | removes the key and nothing else; the new view is `Cleared()` |
| Store.KeycloakStoreService.ClearTokens | src/services/store.service.ts:28-36 | the storage changes only at `storageKey`, to the record `WithoutTokens` gives |
| Store.KeycloakStoreService.ClearEmail | src/services/store.service.ts:41-49 | the storage changes only at `storageKey`, to the record `WithoutEmail` gives |
| Store.KeycloakStoreService.SetEmail | src/services/store.service.ts:55-74 | the storage changes only at `storageKey`, to the record `WithEmail` gives |
| Store.KeycloakStoreService.SetTokens | src/services/store.service.ts:92-121 | the storage changes only at `storageKey`, to the record `WithTokens` gives |
| Auth.RevokeRequestFollowsRfc7009 | src/services/auth.service.ts:146-161 | a revocation body carries exactly one `token` and one `token_type_hint`, with the values given (section 2.1 of RFC 7009) |
| Auth.IsTokenValid | src/services/auth.service.ts:195-225 | a token is valid only if it is present and decodes |
| Auth.AccessValidIffRemainingTTL | src/services/auth.service.ts:213-225 | the access token is valid iff it decodes and its remaining TTL is not negative |
| Auth.RefreshValidIffRemainingTTL | src/services/auth.service.ts:195-207 | the refresh token is valid iff it decodes and its remaining TTL is not negative |
| Auth.ValidityIsMonotone | src/services/auth.service.ts:195-225 | a token valid at some time was valid at every earlier time |
| Auth.Includes | src/services/auth.service.ts:389 | the scan finds an element iff it is in the list |
| Auth.Unsubscribe | src/services/auth.service.ts:328-329 | `?.unsubscribe()` closes a held subscription, keeps its schedule and leaves an empty field empty |
| Auth.UnsubscribeIdempotent | src/services/auth.service.ts:327-330 | stopping twice has the same effect as stopping once |
| Auth.OneShotFiresDelayBeforeExpiry | src/services/auth.service.ts:81-86 | with access claims, the one-shot timer fires `delay` ms before `exp` |
| Auth.DefaultScheduleIsNegative | src/services/auth.service.ts:47 | without access claims and with the default offset of 3000, both timers get -2700 ms |
| Auth.LoginStore | src/services/auth.service.ts:235-266 | after a login the email reads back (Multi shape); on success the tokens are the response, on failure the old tokens are kept |
| Auth.RefreshStore | src/services/auth.service.ts:128-140 | after a refresh the email is kept; the tokens are the response on success and none on failure |
| Auth.KeycloakService.constructor | src/services/auth.service.ts:23-29 | a new service is unauthorized, holds no subscriptions and has sent nothing |
| Auth.KeycloakService.IsAuthorized | src/services/auth.service.ts:61-63 | returns the cached flag, which is not a validity check (see `Auth.CachedFlagOutlivesAccessToken`) |
| Auth.CachedFlagOutlivesAccessToken | src/services/auth.service.ts:61-63 | after a successful login the flag still reads true at a time when the access token has expired |
| Auth.KeycloakService.SetAuthorized | src/services/auth.service.ts:77-79 | sets the flag and nothing else |
| Auth.KeycloakService.IsAccessTokenValid | src/services/auth.service.ts:213-225 | valid iff the stored access token decodes and its remaining TTL at `now` is not negative |
| Auth.KeycloakService.IsRefreshTokenValid | src/services/auth.service.ts:195-207 | valid iff the stored refresh token decodes and its remaining TTL at `now` is not negative |
| Auth.KeycloakService.UpdateAccessToken | src/services/auth.service.ts:113-144 | posts one refresh grant. On success it stores the response and leaves the flag. On failure it clears the tokens but keeps the email, sets the flag false and reports the error |
| Auth.KeycloakService.StartInterval | src/services/auth.service.ts:99-111 | subscribes an interval with period `TTLOfAccessToken - delay`; an open subscription it overwrites is lost, not closed |
| Auth.KeycloakService.StartOneShot | src/services/auth.service.ts:81-97 | subscribes a one-shot timer at `remainingTTLOfAccessToken - delay`; an open subscription it overwrites is lost, not closed |
| Auth.KeycloakService.Login | src/services/auth.service.ts:235-274 | writes the email before posting the password grant. On success it stores tokens and email, sets the flag, and starts the interval iff the strategy uses it and `autoStartInterval` holds. On failure it clears the flag and reports `CouldNotLogin` |
| Auth.KeycloakService.StopAccessTokenUpdate | src/services/auth.service.ts:327-330 | closes whatever both fields hold |
| Auth.KeycloakService.Logout | src/services/auth.service.ts:282-308 | posts the logout. On success it closes both subscriptions, removes the record and clears the flag. On failure it changes nothing and reports the failure |
| Auth.KeycloakService.StartAccessTokenUpdate | src/services/auth.service.ts:315-321 | the flag becomes the refresh token's validity at `now`; a one-shot timer is scheduled iff the token is valid |
| Auth.KeycloakService.OnTimerFired | src/services/auth.service.ts:86-95 | a closed timer does nothing. An open one completes and refreshes; on success it starts the interval, with its period read from the new tokens |
| Auth.KeycloakService.OnIntervalTick | src/services/auth.service.ts:104-109 | each tick of an open interval refreshes; a failed refresh leaves the interval running |
| Auth.KeycloakService.ForceUpdateAccessToken | src/services/auth.service.ts:337-341 | with an invalid refresh token it fails with `RefreshTokenExpected` and posts nothing; otherwise it is a refresh |
| Auth.KeycloakService.RevokeAccessToken | src/services/auth.service.ts:183-189 | with no override and no stored token it fails without a request; otherwise it revokes the override if given, else the stored token |
| Auth.KeycloakService.RevokeRefreshToken | src/services/auth.service.ts:169-175 | with no override and no stored token it fails without a request; otherwise it revokes the override if given, else the stored token |
| Auth.KeycloakService.ValidateCredentials | src/services/auth.service.ts:351-376 | posts a password grant and, on success, revokes the access token it got. It touches neither the store nor the flag |
| Auth.KeycloakService.HasAccessTokenAllowedOrigin | src/services/auth.service.ts:383-389 | true iff there are access claims with an `allowed-origins` list that contains the origin |
| Auth.KeycloakService.HasAccessTokenAud | src/services/auth.service.ts:396-402 | true iff there are access claims whose `aud` contains the value |
| Auth.KeycloakService.HasAccessTokenRealmAccess | src/services/auth.service.ts:409-415 | true iff there are access claims whose realm roles contain the role |
| Auth.KeycloakService.HasAccessTokenResourceAccess | src/services/auth.service.ts:423-429 | fails exactly when there are access claims, the key is not one of their own entries, and it names an inherited `Object.prototype` member (the source's `TypeError`). Otherwise it is true iff there are access claims with an entry for the key whose roles contain the role |
| AuthInterceptor.Intercept | src/interceptors/auth.interceptor.ts:25-40 | a marked request loses only the marker. Any other request gets `Authorization: Bearer <token>`, plus `currentUser` exactly when the option is on and the email is non-empty. Other headers and the URL are unchanged, and no other header is added |
| AuthInterceptor.SkippedRequestGainsNoCredentials | src/interceptors/auth.interceptor.ts:26-31 | a marked request gains no `Authorization` or `currentUser` header and loses the marker |
| AuthInterceptor.NoCurrentUserWithoutEmailOption | src/interceptors/auth.interceptor.ts:34-37 | with the email option off, no `currentUser` header is added |
| TokenInvalidInterceptor.TryUpdate | src/interceptors/token-invalid.interceptor.ts:17-23 | only an error whose body is 401 triggers one refresh. On refresh success the original request is sent again and its outcome returned; a refresh failure propagates; anything else is rethrown |
| TokenInvalidInterceptor.Intercept | src/interceptors/token-invalid.interceptor.ts:25-37 | the request is always sent first. Under bypass it is sent once without the marker. A refresh happens iff the first attempt failed with a 401 body, and a second send iff that refresh succeeded. Without a refresh the first outcome is returned |
| TokenInvalidInterceptor.AtMostOneRetry | src/interceptors/token-invalid.interceptor.ts:25-37 | at most one refresh and at most two sends per request |
| TokenInvalidInterceptor.UnauthorizedIsReplayedOnce | src/interceptors/token-invalid.interceptor.ts:17-21 | a 401 body followed by a successful refresh gives send, refresh, send and the replay's outcome, even a failing one |
| TokenInvalidInterceptor.FailedRefreshIsNotReplayed | src/interceptors/token-invalid.interceptor.ts:19-20 | a failed refresh propagates its error and the request is not sent again |
| TokenInvalidInterceptor.UnauthorizedStatusAloneIsNotRetried | src/interceptors/token-invalid.interceptor.ts:18-22 | a 401 status whose body is not the number 401 is rethrown unchanged with no refresh |
| Guard.CheckedToken | src/guards/auth.guard.ts:14-16 | the access token is checked iff `token` is `"access"`; otherwise the refresh token is |
| Guard.Decide | src/guards/auth.guard.ts:12-36 | allow iff validity differs from `reverse`. Allowing runs no callback and navigates nowhere. A denial picks the callback and the URL from opposite sides |
| Guard.ReverseNegates | src/guards/auth.guard.ts:18 | `reverse: true` gives the opposite verdict to `reverse: false` |
| Guard.DefaultGuardChecksRefreshToken | src/guards/auth.guard.ts:14-18 | with no options the guard admits iff the refresh token is valid, as with empty options |
| Guard.CallbackPairingIsOppositeToUrl | src/guards/auth.guard.ts:24-33 | on denial a plain guard runs `reverseGuardFallbackCallback` and goes to `guardFallbackUrl`, and a reverse guard does the opposite |

## Left out

- Angular `HttpClient`, `HttpHeaders` and `mergeHttpHeaders`: header names are exact map keys with one value
  each. The `Content-Type` header and the caller's extra headers are not part of `FormPost`.
- rxjs: observables are modelled eagerly. An operation runs at once with the outcome given, and nothing happens
  on unsubscription or re-subscription. A `timeout` is one kind of `HttpFailure`, and the configured `timeout`
  value is not used.
- Timers are subscription values, not clocks. Their firing is an explicit call (`OnTimerFired`,
  `OnIntervalTick`), and subscriptions lost by overwriting (`abandoned`) are not made to fire.
- `window.atob`, `decodeURIComponent` and `JSON.parse` are the two functions of `JwtCodec`. Decoded claims are
  taken to be well typed.
- Storage holds structured records instead of JSON strings. A Multi record read in Simple shape reads as no
  tokens; the store never writes one.
- `NgZone.runOutsideAngular`, dependency injection, module wiring and the `isAuthorized$` observable are not
  modelled.
- Concurrent refreshes, logins and 401s are not modelled.
- The unused private helper `_isRefreshTokenValidThen` is not modelled.
- The two interceptors are modelled on their own and are not composed with the service's own requests.
- src/enums/update-strategy.enum.ts is not part of this model. `UpdateStrategy` has BOTH, INTERVAL and
  INTERCEPTOR as src/utils/update.ts tests them, plus `NoUpdate` standing for any other value.
- `RevokeAccessToken`, `RevokeRefreshToken` and the revoke step of `ValidateCredentials`: the revoke request has
  no `timeout` operator, so its exchange cannot fail with `TimeoutError`. The model does not exclude that outcome.
  Only login, refresh, logout and the password grant of `validateCredentials` can time out.
- src/types/api-response.type.ts is not part of this model. The token pair is `TokenPair(accessToken,
  refreshToken)`.
