/**
 * The ILoggingProvider callbacks the policy and the cache providers make,
 * recorded as events in call order.  Latencies and the forwarded context
 * are not recorded.
 */
module Logging {
  import opened Wrappers
  import opened Exceptions
  import opened CacheValues

  /** DelegateResult<TResult>: the handled result or the thrown exception of a backend call. */
  datatype DelegateOutcome = FailedResult(result: CacheValue?) | FailedException(exception: Exception)

  datatype LogEvent =
    | CacheGet(key: Option<string>, isSuccess: bool, isCacheHit: bool, isCacheFresh: bool, failure: Option<Exception>)
    | CacheSet(key: Option<string>, isSuccess: bool, failure: Option<Exception>)
    | BackendGet(key: Option<string>, isSuccess: bool, isFallbackToCache: bool, delegateFailureOutcome: Option<DelegateOutcome>)

  class LoggingProvider {
    /** Every callback received so far, oldest first. */
    var events: seq<LogEvent>

    constructor ()
      ensures events == []
    {
      events := [];
    }

    method OnCacheGet(key: Option<string>, isSuccess: bool, isCacheHit: bool, isCacheFresh: bool, failure: Option<Exception>)
      modifies this
      ensures events == old(events) + [CacheGet(key, isSuccess, isCacheHit, isCacheFresh, failure)]
    {
      events := events + [CacheGet(key, isSuccess, isCacheHit, isCacheFresh, failure)];
    }

    method OnCacheSet(key: Option<string>, isSuccess: bool, failure: Option<Exception>)
      modifies this
      ensures events == old(events) + [CacheSet(key, isSuccess, failure)]
    {
      events := events + [CacheSet(key, isSuccess, failure)];
    }

    method OnBackendGet(key: Option<string>, isSuccess: bool, isFallbackToCache: bool, delegateFailureOutcome: Option<DelegateOutcome>)
      modifies this
      ensures events == old(events) + [BackendGet(key, isSuccess, isFallbackToCache, delegateFailureOutcome)]
    {
      events := events + [BackendGet(key, isSuccess, isFallbackToCache, delegateFailureOutcome)];
    }
  }
}
