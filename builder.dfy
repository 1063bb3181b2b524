/**
 * AsyncCachePolicyBuilder: the fluent steps that choose when the policy falls
 * back to the cache.  A first step starts a new Polly PolicyBuilder, an
 * `Or…` step adds to the current one, and Build hands the current one to
 * the policy.
 */
module Builder {
  import opened Wrappers
  import opened Exceptions
  import opened CacheValues
  import opened Aging
  import opened Logging
  import opened CacheProviders
  import opened Predicates
  import opened Policy
  import Guards

  class AsyncCachePolicyBuilder {
    const isPolicyEnabled: bool
    /** Not checked by this constructor: may be null until Build. */
    const agingStrategy: Option<AgingStrategy>
    const cacheProvider: CacheProvider
    const loggingProvider: LoggingProvider
    /** The predicates chosen so far; null before the first step. */
    var policyBuilder: PolicyBuilder?

    constructor (isPolicyEnabled: bool, agingStrategy: Option<AgingStrategy>, cacheProvider: CacheProvider,
                 loggingProvider: LoggingProvider)
      ensures this.isPolicyEnabled == isPolicyEnabled && this.agingStrategy == agingStrategy
      ensures this.cacheProvider == cacheProvider && this.loggingProvider == loggingProvider
      ensures policyBuilder == null
    {
      this.isPolicyEnabled := isPolicyEnabled;
      this.agingStrategy := agingStrategy;
      this.cacheProvider := cacheProvider;
      this.loggingProvider := loggingProvider;
      policyBuilder := null;
    }

    /** The internal constructor: the cache provider, then the logging provider, must be
        non-null; the aging strategy is not checked. */
    static method New(isPolicyEnabled: bool, agingStrategy: Option<AgingStrategy>, cacheProvider: Option<CacheProvider>,
                      loggingProvider: Option<LoggingProvider>)
      returns (r: Result<AsyncCachePolicyBuilder, Exception>)
      ensures r.Failure? <==> cacheProvider.None? || loggingProvider.None?
      ensures cacheProvider.None? ==> r == Failure(ArgumentNullException("cacheProvider"))
      ensures cacheProvider.Some? && loggingProvider.None? ==> r == Failure(ArgumentNullException("loggingProvider"))
      ensures r.Success? ==> fresh(r.value) && r.value.policyBuilder == null
                             && r.value.isPolicyEnabled == isPolicyEnabled && r.value.agingStrategy == agingStrategy
                             && r.value.cacheProvider == cacheProvider.value && r.value.loggingProvider == loggingProvider.value
    {
      var check := Guards.ThrowIfNull(cacheProvider, "cacheProvider");
      if check.Fail? {
        return Failure(check.error);
      }
      check := Guards.ThrowIfNull(loggingProvider, "loggingProvider");
      if check.Fail? {
        return Failure(check.error);
      }
      var b := new AsyncCachePolicyBuilder(isPolicyEnabled, agingStrategy, cacheProvider.value, loggingProvider.value);
      r := Success(b);
    }

    /** FallbackToCacheWhenThrows<TException>(): a new predicate set holding only
        "any TException"; earlier alternatives are discarded. */
    method FallbackToCacheWhenThrows(exceptionType: string) returns (step: AsyncCachePolicyBuilder)
      modifies this
      ensures step == this && policyBuilder != null && fresh(policyBuilder)
      ensures policyBuilder.exceptionPredicates == [ExceptionPredicate(exceptionType, AnyException())]
      ensures policyBuilder.resultPredicates == []
    {
      policyBuilder := new PolicyBuilder.Handle(exceptionType, AnyException());
      step := this;
    }

    /** FallbackToCacheWhenReturns(result): a new predicate set holding only "returns this
        result"; earlier alternatives are discarded. */
    method FallbackToCacheWhenReturns(result: CacheValue?) returns (step: AsyncCachePolicyBuilder)
      modifies this
      ensures step == this && policyBuilder != null && fresh(policyBuilder)
      ensures policyBuilder.exceptionPredicates == [] && policyBuilder.resultPredicates == [ResultEquals(result)]
    {
      policyBuilder := new PolicyBuilder.HandleResult(ResultEquals(result));
      step := this;
    }

    /** FallbackToCacheWhenThrows<TException>(exceptionPredicate). */
    method FallbackToCacheWhenThrowsMatching(exceptionType: string, exceptionPredicate: Exception -> bool)
      returns (step: AsyncCachePolicyBuilder)
      modifies this
      ensures step == this && policyBuilder != null && fresh(policyBuilder)
      ensures policyBuilder.exceptionPredicates == [ExceptionPredicate(exceptionType, exceptionPredicate)]
      ensures policyBuilder.resultPredicates == []
    {
      policyBuilder := new PolicyBuilder.Handle(exceptionType, exceptionPredicate);
      step := this;
    }

    /** FallbackToCacheWhenReturns(resultPredicate). */
    method FallbackToCacheWhenReturnsMatching(resultPredicate: Option<ValueData> -> bool) returns (step: AsyncCachePolicyBuilder)
      modifies this
      ensures step == this && policyBuilder != null && fresh(policyBuilder)
      ensures policyBuilder.exceptionPredicates == [] && policyBuilder.resultPredicates == [ResultSatisfies(resultPredicate)]
    {
      policyBuilder := new PolicyBuilder.HandleResult(ResultSatisfies(resultPredicate));
      step := this;
    }

    /** OrFallbackToCacheWhenThrows<TException>(): one more exception alternative after the
        others, in the current predicate set; with no set yet the call dereferences null. */
    method OrFallbackToCacheWhenThrows(exceptionType: string) returns (r: Result<AsyncCachePolicyBuilder, Exception>)
      modifies policyBuilder
      ensures old(policyBuilder) == null ==> r == Failure(NullReferenceException)
      ensures old(policyBuilder) != null ==>
                r == Success(this) && policyBuilder == old(policyBuilder)
                && policyBuilder.exceptionPredicates == old(policyBuilder.exceptionPredicates) + [ExceptionPredicate(exceptionType, AnyException())]
                && policyBuilder.resultPredicates == old(policyBuilder.resultPredicates)
    {
      if policyBuilder == null {
        return Failure(NullReferenceException);
      }
      policyBuilder.Or(exceptionType, AnyException());
      r := Success(this);
    }

    /** OrFallbackToCacheWhenReturns(result). */
    method OrFallbackToCacheWhenReturns(result: CacheValue?) returns (r: Result<AsyncCachePolicyBuilder, Exception>)
      modifies policyBuilder
      ensures old(policyBuilder) == null ==> r == Failure(NullReferenceException)
      ensures old(policyBuilder) != null ==>
                r == Success(this) && policyBuilder == old(policyBuilder)
                && policyBuilder.resultPredicates == old(policyBuilder.resultPredicates) + [ResultEquals(result)]
                && policyBuilder.exceptionPredicates == old(policyBuilder.exceptionPredicates)
    {
      if policyBuilder == null {
        return Failure(NullReferenceException);
      }
      policyBuilder.OrResult(ResultEquals(result));
      r := Success(this);
    }

    /** OrFallbackToCacheWhenThrows<TException>(exceptionPredicate). */
    method OrFallbackToCacheWhenThrowsMatching(exceptionType: string, exceptionPredicate: Exception -> bool)
      returns (r: Result<AsyncCachePolicyBuilder, Exception>)
      modifies policyBuilder
      ensures old(policyBuilder) == null ==> r == Failure(NullReferenceException)
      ensures old(policyBuilder) != null ==>
                r == Success(this) && policyBuilder == old(policyBuilder)
                && policyBuilder.exceptionPredicates == old(policyBuilder.exceptionPredicates) + [ExceptionPredicate(exceptionType, exceptionPredicate)]
                && policyBuilder.resultPredicates == old(policyBuilder.resultPredicates)
    {
      if policyBuilder == null {
        return Failure(NullReferenceException);
      }
      policyBuilder.Or(exceptionType, exceptionPredicate);
      r := Success(this);
    }

    /** OrFallbackToCacheWhenReturns(resultPredicate). */
    method OrFallbackToCacheWhenReturnsMatching(resultPredicate: Option<ValueData> -> bool)
      returns (r: Result<AsyncCachePolicyBuilder, Exception>)
      modifies policyBuilder
      ensures old(policyBuilder) == null ==> r == Failure(NullReferenceException)
      ensures old(policyBuilder) != null ==>
                r == Success(this) && policyBuilder == old(policyBuilder)
                && policyBuilder.resultPredicates == old(policyBuilder.resultPredicates) + [ResultSatisfies(resultPredicate)]
                && policyBuilder.exceptionPredicates == old(policyBuilder.exceptionPredicates)
    {
      if policyBuilder == null {
        return Failure(NullReferenceException);
      }
      policyBuilder.OrResult(ResultSatisfies(resultPredicate));
      r := Success(this);
    }

    /** Build: the policy from exactly the flag, the dependencies and the current predicate
        set (shared, not copied); it fails only through the policy's own guards. */
    method Build() returns (r: Result<AsyncCachePolicy, Exception>)
      ensures r.Failure? <==> agingStrategy.None?
      ensures r.Failure? ==> r.error == ArgumentNullException("agingStrategy")
      ensures r.Success? ==> fresh(r.value)
                             && r.value.isPolicyEnabled == isPolicyEnabled && r.value.policyBuilder == policyBuilder
                             && r.value.agingStrategy == agingStrategy.value && r.value.cacheProvider == cacheProvider
                             && r.value.loggingProvider == loggingProvider
    {
      r := AsyncCachePolicy.New(isPolicyEnabled, policyBuilder, agingStrategy, Some(cacheProvider), Some(loggingProvider));
    }
  }
}
