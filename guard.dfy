/**
 * `keycloakGuard(options)`: a route guard. The callback it runs and the URL
 * it navigates to are returned as actions.
 */
module Guard {
  import opened Wrappers
  import opened KeycloakTypes

  /** Whether to allow, and on denial the fallback callback to run and the URL to navigate to. */
  datatype GuardOutcome = GuardOutcome(allow: bool, callback: Option<FallbackFn>, navigateTo: Option<string>)

  /** Which token the guard checks: the access token only when asked for, the refresh token by default. */
  function CheckedToken(options: Option<GuardOptions>): (kind: TokenKind)
    ensures kind == Access <==> options.Some? && options.value.token == Some(Access)
  {
    if options.Some? && options.value.token == Some(Access) then Access else Refresh
  }

  function Reverse(options: Option<GuardOptions>): bool {
    options.Some? && options.value.reverse.GetOr(false)
  }

  /** The guard given the current validity of the access and of the refresh token. */
  function Decide(options: Option<GuardOptions>, accessValid: bool, refreshValid: bool, config: KeycloakConfig): (outcome: GuardOutcome)
    ensures var valid := if CheckedToken(options) == Access then accessValid else refreshValid;
      outcome.allow <==> valid != Reverse(options)
    ensures outcome.allow ==> outcome.callback.None? && outcome.navigateTo.None?
    ensures !outcome.allow ==>
      && outcome.callback == (if Reverse(options) then config.guardFallbackCallback else config.reverseGuardFallbackCallback)
      && outcome.navigateTo == (if Reverse(options) then config.reverseGuardFallbackUrl else config.guardFallbackUrl)
  {
    var isTokenValid := if CheckedToken(options) == Access then accessValid else refreshValid;
    if isTokenValid != Reverse(options) then
      GuardOutcome(true, None, None)
    else
      var callback := if Reverse(options) then config.guardFallbackCallback else config.reverseGuardFallbackCallback;
      var url := if Reverse(options) then config.reverseGuardFallbackUrl else config.guardFallbackUrl;
      GuardOutcome(false, callback, url)
  }

  /** Reversing the guard reverses its verdict. */
  lemma ReverseNegates(token: Option<TokenKind>, route: Option<string>, accessValid: bool, refreshValid: bool, config: KeycloakConfig)
    ensures Decide(Some(GuardOptions(token, route, Some(true))), accessValid, refreshValid, config).allow
      == !Decide(Some(GuardOptions(token, route, Some(false))), accessValid, refreshValid, config).allow
  {
  }

  /** With no options, the guard admits exactly when the refresh token is valid. */
  lemma DefaultGuardChecksRefreshToken(accessValid: bool, refreshValid: bool, config: KeycloakConfig)
    ensures Decide(None, accessValid, refreshValid, config).allow == refreshValid
    ensures Decide(None, accessValid, refreshValid, config) == Decide(Some(GuardOptions(None, None, None)), accessValid, refreshValid, config)
  {
  }

  /**
   * On denial the callback comes from the opposite side to the URL: a plain
   * guard runs the reverse callback and goes to the plain URL, and vice versa.
   */
  lemma CallbackPairingIsOppositeToUrl(options: Option<GuardOptions>, accessValid: bool, refreshValid: bool, config: KeycloakConfig)
    requires !Decide(options, accessValid, refreshValid, config).allow
    ensures !Reverse(options) ==>
      Decide(options, accessValid, refreshValid, config).callback == config.reverseGuardFallbackCallback
      && Decide(options, accessValid, refreshValid, config).navigateTo == config.guardFallbackUrl
    ensures Reverse(options) ==>
      Decide(options, accessValid, refreshValid, config).callback == config.guardFallbackCallback
      && Decide(options, accessValid, refreshValid, config).navigateTo == config.reverseGuardFallbackUrl
  {
  }
}
