/**
 * The fluent entry point AsyncCachePolicy.CreateBuilder: all three
 * dependencies are checked, in order, before a builder is made.
 */
module Syntax {
  import opened Wrappers
  import opened Exceptions
  import opened Aging
  import opened Logging
  import opened CacheProviders
  import opened Policy
  import opened Builder

  /** CreateBuilder: fails with the first null dependency in the order aging strategy,
      cache provider, logging provider; otherwise a builder with no predicates yet. */
  method CreateBuilder(isPolicyEnabled: bool, agingStrategy: Option<AgingStrategy>, cacheProvider: Option<CacheProvider>,
                       loggingProvider: Option<LoggingProvider>)
    returns (r: Result<AsyncCachePolicyBuilder, Exception>)
    ensures r.Failure? <==> DependencyChecks(agingStrategy, cacheProvider, loggingProvider).Fail?
    ensures r.Failure? ==> Outcome<Exception>.Fail(r.error) == DependencyChecks(agingStrategy, cacheProvider, loggingProvider)
    ensures r.Success? ==> fresh(r.value) && r.value.policyBuilder == null
                           && r.value.isPolicyEnabled == isPolicyEnabled && r.value.agingStrategy == agingStrategy
                           && r.value.cacheProvider == cacheProvider.value && r.value.loggingProvider == loggingProvider.value
    ensures r.Success? ==> r.value.agingStrategy.Some?
  {
    var checks := DependencyChecks(agingStrategy, cacheProvider, loggingProvider);
    if checks.Fail? {
      return Failure(checks.error);
    }
    r := AsyncCachePolicyBuilder.New(isPolicyEnabled, agingStrategy, cacheProvider, loggingProvider);
  }
}
