/** `shouldUpdateByInterval` and `shouldUpdateByInterceptor`: which renewal triggers a configuration enables. */
module Update {
  import opened KeycloakTypes

  /** Timer-driven renewal is on for BOTH and INTERVAL. */
  function ShouldUpdateByInterval(config: KeycloakConfig): (enabled: bool)
    ensures enabled <==> config.updateStrategy != NoUpdate && config.updateStrategy != Interceptor
  {
    config.updateStrategy == Both || config.updateStrategy == Interval
  }

  /** 401-driven renewal is on for BOTH and INTERCEPTOR. */
  function ShouldUpdateByInterceptor(config: KeycloakConfig): (enabled: bool)
    ensures enabled <==> config.updateStrategy != NoUpdate && config.updateStrategy != Interval
  {
    config.updateStrategy == Both || config.updateStrategy == Interceptor
  }

  /** The two predicates as a truth table over the four strategies. */
  lemma StrategyTable(config: KeycloakConfig)
    ensures ShouldUpdateByInterval(config) && ShouldUpdateByInterceptor(config) <==> config.updateStrategy == Both
    ensures ShouldUpdateByInterval(config) && !ShouldUpdateByInterceptor(config) <==> config.updateStrategy == Interval
    ensures !ShouldUpdateByInterval(config) && ShouldUpdateByInterceptor(config) <==> config.updateStrategy == Interceptor
    ensures !ShouldUpdateByInterval(config) && !ShouldUpdateByInterceptor(config) <==> config.updateStrategy == NoUpdate
  {
  }
}
