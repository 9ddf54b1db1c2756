/**
 * The data model of the library: configuration, token pair, decoded claims,
 * stored records, guard options, errors and the outcomes of HTTP exchanges.
 */
module KeycloakTypes {
  import opened Wrappers

  /** How tokens are renewed (`UpdateStrategy`): by timers, by the 401 interceptor, both, or neither. */
  datatype UpdateStrategy = NoUpdate | Interval | Interceptor | Both

  /** A callback registered in the configuration; only its identity matters to the guard. */
  datatype FallbackFn = FallbackFn(name: string)

  /**
   * `SpecificKeycloakConfig`. The storage backend (`storageType`) is the object
   * `Store.Storage` held by the store service. An absent `useEmailAsCurrentUser`
   * reads as false wherever it is tested, so it is a plain flag here.
   */
  datatype KeycloakConfig = KeycloakConfig(
    resource: string,
    realm: string,
    guardFallbackUrl: Option<string>,
    reverseGuardFallbackUrl: Option<string>,
    guardFallbackCallback: Option<FallbackFn>,
    reverseGuardFallbackCallback: Option<FallbackFn>,
    storageKey: string,
    useEmailAsCurrentUser: bool,
    timeout: Option<int>,
    expirationOffset: Option<int>,
    updateStrategy: UpdateStrategy)
  {
    /** `expirationOffset ?? 3000`: how many milliseconds before expiry a scheduled refresh runs. */
    function Delay(): int {
      expirationOffset.GetOr(3000)
    }
  }

  /** The token endpoint's response `{access_token, refresh_token}`. */
  datatype TokenPair = TokenPair(accessToken: string, refreshToken: string)

  /** `{roles: string[]}` */
  datatype RoleList = RoleList(roles: seq<string>)

  /** `ParsedKeycloakToken`: the decoded JWT payload; times are epoch seconds. */
  datatype Claims = Claims(
    exp: int,
    iat: int,
    jti: string,
    jss: string,
    sub: string,
    typ: string,
    azp: string,
    sessionState: string,
    nbf: int,
    iss: string,
    authTime: int,
    acr: string,
    allowedOrigins: Option<seq<string>>,   // "allowed-origins": absent or null is None
    scope: string,
    emailVerified: bool,
    name: string,
    sid: string,
    preferredUsername: string,
    givenName: string,
    familyName: string,
    email: string,
    aud: seq<string>,
    realmAccess: RoleList,
    resourceAccess: map<string, RoleList>)

  /**
   * The `tokens` member of a Multi record as JSON keeps it: missing, `null`
   * (written by `clearEmail` when no tokens are stored) or a token pair.
   */
  datatype TokensSlot = Undefined | Null | Defined(pair: TokenPair)

  /** The value stored at `storageKey`: `SimpleKeycloakStorage` or `MultiKeycloakStorage`. */
  datatype Record =
    | Simple(tokens: TokenPair)
    | Multi(email: Option<string>, slot: TokensSlot)

  /** The guard's `token` option (named `KeycloakTokens` in the source). */
  datatype TokenKind = Refresh | Access

  /** `KeycloakGuardOptions`; `route` is carried but never read. */
  datatype GuardOptions = GuardOptions(token: Option<TokenKind>, route: Option<string>, reverse: Option<bool>)

  /** The JSON body of an HTTP error response. */
  datatype ErrorBody = NoBody | Numeric(number: int) | Text(text: string)

  /** Why an HTTP exchange failed: an error response, or rxjs `timeout` firing. */
  datatype HttpFailure = HttpErrorResponse(status: int, error: ErrorBody) | TimeoutError

  /** The outcome of one HTTP exchange, chosen by the environment. */
  datatype Exchange<+T> = Responded(body: T) | Failed(failure: HttpFailure)

  /** The errors the session service raises itself, and HTTP failures it lets through. */
  datatype KeycloakError =
    | CouldNotLogin            // "Could not login"
    | AccessTokenNotUpdated    // "Access Token could not be updated."
    | RefreshTokenExpected     // "Expected refresh token to be valid."
    | AccessTokenExpected      // "Expected access token to be valid."
    | Transport(failure: HttpFailure)

  /** JavaScript's string conversion of `string | undefined`, as in a template literal or `URLSearchParams.append`. */
  function TemplateString(s: Option<string>): string {
    match s
    case Some(v) => v
    case None => "undefined"
  }
}
