/**
 * AsyncCachePolicy: stale-tolerant cache-aside around a backend call.  A
 * fresh cached value short-circuits the backend; a live result that no
 * result predicate handles is stamped with its grace time stamp and, unless
 * its expiration is zero, written back to the cache in the background; a
 * handled result or a handled exception falls back to the stale cached
 * value when there is one.
 */
module Policy {
  import opened Wrappers
  import opened Exceptions
  import opened CacheValues
  import opened Contexts
  import opened Aging
  import opened Json
  import opened Store
  import opened Logging
  import opened CacheProviders
  import opened Predicates
  import Guards

  /** What the backend call does: return a (possibly null) result object, or throw. */
  datatype Backend = Returned(result: CacheValue?) | Threw(exception: Exception)

  /** The backend call seen as data: the returned object's fields, or the exception. */
  datatype BackendView = ReturnedData(data: Option<ValueData>) | ThrewException(exception: Exception)

  /** What ImplementationAsync completes with. */
  datatype PolicyOutcome = Return(value: CacheValue?) | Throw(exception: Exception)

  /** The background write `Task.Run` starts: SetAsync(key, result, expiration). */
  datatype PendingWrite = PendingWrite(key: Option<string>, value: CacheValue?, expirationRelativeToNow: int)

  /** Which object a normal return hands back. */
  datatype Source = CachedValue | BackendResult

  datatype Answer = ReturnFrom(source: Source) | Rethrow(exception: Exception)

  /** The delegate failure outcome OnBackendGet receives. */
  datatype FailureNote = NoFailure | HandledResult | ThrownException(exception: Exception)

  datatype BackendLog = BackendLog(isSuccess: bool, isFallbackToCache: bool, failure: FailureNote)

  /**
   * The decisions of one execution: whether the cache is read and the backend called,
   * how the call completes, the grace time stamp put on the backend result, the
   * expiration of the background write, and the OnBackendGet callback.
   */
  datatype Decision = Decision(
    readsCache: bool,
    callsBackend: bool,
    answer: Answer,
    graceTimeStamp: Option<int>,
    writeExpiration: Option<int>,
    backendLog: Option<BackendLog>)

  /** The catch block: fall back to the cached value when an exception predicate handles the
      exception and a value was read; otherwise rethrow. */
  function Caught(cached: Option<ValueData>, e: Exception, exceptionPredicates: seq<ExceptionPredicate>,
                  graceTimeStamp: Option<int>): Decision
  {
    if FirstMatchOrDefault(exceptionPredicates, e).None? || cached.None? then
      Decision(true, true, Rethrow(e), graceTimeStamp, None, Some(BackendLog(false, false, ThrownException(e))))
    else
      Decision(true, true, ReturnFrom(CachedValue), graceTimeStamp, None, Some(BackendLog(true, true, ThrownException(e))))
  }

  /**
   * The try block and its catch, once the cache read has found no fresh value: the
   * backend's outcome, whether a result predicate handles its result, the exception
   * predicates, the aging strategy, the context and the current time decide.
   */
  function Fetch(cached: Option<ValueData>, backend: BackendView, resultHandled: bool,
                 exceptionPredicates: seq<ExceptionPredicate>, aging: AgingStrategy, items: Items, now: int)
    : (d: Decision)
    ensures d.readsCache && d.callsBackend && d.backendLog.Some?
    ensures d.backendLog.value.isSuccess <==> d.answer.ReturnFrom?
    ensures d.backendLog.value.isFallbackToCache <==> d.answer == ReturnFrom(CachedValue)
    ensures d.answer == ReturnFrom(CachedValue) ==> cached.Some?
    ensures d.writeExpiration.Some? ==>
              d.writeExpiration.value != 0 && d.graceTimeStamp.Some? && d.answer == ReturnFrom(BackendResult)
              && !resultHandled && backend.ReturnedData? && backend.data.Some?
    ensures d.graceTimeStamp.Some? ==> !resultHandled && backend.ReturnedData? && backend.data.Some?
                                       && InTickRange(d.graceTimeStamp.value)
  {
    match backend
    case ThrewException(e) => Caught(cached, e, exceptionPredicates, None)
    case ReturnedData(r) =>
      if resultHandled then
        Decision(true, true, ReturnFrom(if cached.Some? then CachedValue else BackendResult), None, None,
                 Some(BackendLog(true, cached.Some?, HandledResult)))
      else if r.None? then
        Decision(true, true, ReturnFrom(BackendResult), None, None, Some(BackendLog(true, false, NoFailure)))
      else
        match aging.graceRelativeToNow(r.value, items)
        case Failure(e) => Caught(cached, e, exceptionPredicates, None)
        case Success(grace) =>
          match GraceStamp(now, grace)
          case Failure(e) => Caught(cached, e, exceptionPredicates, None)
          case Success(stamp) =>
            match aging.expirationRelativeToNow(WithGrace(r.value, now, grace), items)
            case Failure(e) => Caught(cached, e, exceptionPredicates, Some(stamp))
            case Success(expiration) =>
              Decision(true, true, ReturnFrom(BackendResult), Some(stamp),
                       if expiration != 0 then Some(expiration) else None, Some(BackendLog(true, false, NoFailure)))
  }

  /**
   * ImplementationAsync as a decision over its inputs: the enablement flag, what the cache
   * read returned, what the backend does, whether a result predicate handles its result,
   * the exception predicates, the aging strategy, the context and the current time.
   */
  function Plan(enabled: bool, cached: Option<ValueData>, backend: BackendView, resultHandled: bool,
                exceptionPredicates: seq<ExceptionPredicate>, aging: AgingStrategy, items: Items, now: int)
    : (d: Decision)
    ensures d.readsCache <==> enabled
    ensures d.callsBackend <==> !(enabled && cached.Some? && IsFreshAt(cached.value.graceTimeStamp, now))
    ensures d.backendLog.Some? <==> d.readsCache && d.callsBackend
    ensures d.backendLog.Some? ==> (d.backendLog.value.isSuccess <==> d.answer.ReturnFrom?)
                                   && (d.backendLog.value.isFallbackToCache <==> d.answer == ReturnFrom(CachedValue))
    ensures d.answer == ReturnFrom(CachedValue) ==> enabled && cached.Some?
    ensures d.answer == ReturnFrom(CachedValue) && d.callsBackend ==> !IsFreshAt(cached.value.graceTimeStamp, now)
    ensures d.answer.Rethrow? ==> d.callsBackend
    ensures d.writeExpiration.Some? ==>
              d.writeExpiration.value != 0 && d.graceTimeStamp.Some? && d.answer == ReturnFrom(BackendResult)
              && d.readsCache && d.callsBackend && !resultHandled && backend.ReturnedData? && backend.data.Some?
    ensures d.graceTimeStamp.Some? ==> d.readsCache && d.callsBackend && !resultHandled && backend.ReturnedData? && backend.data.Some?
                                       && InTickRange(d.graceTimeStamp.value)
  {
    if !enabled then
      Decision(false, true, if backend.ReturnedData? then ReturnFrom(BackendResult) else Rethrow(backend.exception), None, None, None)
    else if cached.Some? && IsFreshAt(cached.value.graceTimeStamp, now) then
      Decision(true, false, ReturnFrom(CachedValue), None, None, None)
    else
      Fetch(cached, backend, resultHandled, exceptionPredicates, aging, items, now)
  }

  /** The OnBackendGet callback a decision's log stands for. */
  function BackendGetEvent(key: Option<string>, log: BackendLog, backend: Backend): LogEvent {
    BackendGet(key, log.isSuccess, log.isFallbackToCache,
               match log.failure
               case NoFailure => None
               case HandledResult => Some(FailedResult(if backend.Returned? then backend.result else null))
               case ThrownException(e) => Some(FailedException(e)))
  }

  function CacheGetEvent(key: Option<string>, g: GetReport): LogEvent {
    CacheGet(key, g.isSuccess, g.isCacheHit, g.isCacheFresh, g.failure)
  }

  /** The objects the backend result makes modifiable: the result itself, when there is one. */
  function ResultObjects(backend: Backend): set<CacheValue?> {
    if backend.Returned? then {backend.result} else {}
  }

  function View(backend: Backend): BackendView
    reads ResultObjects(backend)
  {
    match backend
    case Returned(r) => ReturnedData(DataOf(r))
    case Threw(e) => ThrewException(e)
  }

  /** The backend result carries the decided grace time stamp, or its old one when none
      was decided; its other fields are as they were. */
  ghost predicate StampedAsDecided(backend: Backend, graceTimeStamp: Option<int>, before: BackendView)
    reads ResultObjects(backend)
  {
    backend.Returned? && backend.result != null && before.ReturnedData? && before.data.Some? ==>
      backend.result.Data() == if graceTimeStamp.Some? then before.data.value.(graceTimeStamp := graceTimeStamp) else before.data.value
  }

  class AsyncCachePolicy {
    const isPolicyEnabled: bool
    /** Polly's handling predicates, shared with the PolicyBuilder they came from. */
    const policyBuilder: PolicyBuilder?
    const agingStrategy: AgingStrategy
    const cacheProvider: CacheProvider
    const loggingProvider: LoggingProvider

    constructor (isPolicyEnabled: bool, policyBuilder: PolicyBuilder?, agingStrategy: AgingStrategy,
                 cacheProvider: CacheProvider, loggingProvider: LoggingProvider)
      ensures this.isPolicyEnabled == isPolicyEnabled && this.policyBuilder == policyBuilder
      ensures this.agingStrategy == agingStrategy && this.cacheProvider == cacheProvider
      ensures this.loggingProvider == loggingProvider
    {
      this.isPolicyEnabled := isPolicyEnabled;
      this.policyBuilder := policyBuilder;
      this.agingStrategy := agingStrategy;
      this.cacheProvider := cacheProvider;
      this.loggingProvider := loggingProvider;
    }

    /** The internal constructor: aging strategy, then cache provider, then logging provider
        must be non-null; a null policy builder means no predicates at all. */
    static method New(isPolicyEnabled: bool, policyBuilder: PolicyBuilder?, agingStrategy: Option<AgingStrategy>,
                      cacheProvider: Option<CacheProvider>, loggingProvider: Option<LoggingProvider>)
      returns (r: Result<AsyncCachePolicy, Exception>)
      ensures r.Failure? <==> agingStrategy.None? || cacheProvider.None? || loggingProvider.None?
      ensures r.Failure? ==> Outcome<Exception>.Fail(r.error) == DependencyChecks(agingStrategy, cacheProvider, loggingProvider)
      ensures r.Success? ==> fresh(r.value)
                             && r.value.isPolicyEnabled == isPolicyEnabled && r.value.policyBuilder == policyBuilder
                             && r.value.agingStrategy == agingStrategy.value && r.value.cacheProvider == cacheProvider.value
                             && r.value.loggingProvider == loggingProvider.value
    {
      var check := Guards.ThrowIfNull(agingStrategy, "agingStrategy");
      if check.Fail? {
        return Failure(check.error);
      }
      check := Guards.ThrowIfNull(cacheProvider, "cacheProvider");
      if check.Fail? {
        return Failure(check.error);
      }
      check := Guards.ThrowIfNull(loggingProvider, "loggingProvider");
      if check.Fail? {
        return Failure(check.error);
      }
      var p := new AsyncCachePolicy(isPolicyEnabled, policyBuilder, agingStrategy.value, cacheProvider.value, loggingProvider.value);
      r := Success(p);
    }

    function ExceptionPredicates(): seq<ExceptionPredicate>
      reads policyBuilder
    {
      if policyBuilder == null then [] else policyBuilder.exceptionPredicates
    }

    function ResultPredicates(): seq<ResultPredicate>
      reads policyBuilder
    {
      if policyBuilder == null then [] else policyBuilder.resultPredicates
    }

    /** Whether a result predicate handles what the backend returned. */
    predicate ResultHandled(backend: Backend)
      reads policyBuilder, ResultObjects(backend)
    {
      backend.Returned? && AnyMatch(ResultPredicates(), backend.result)
    }

    /** What the cache provider's read reports for a key at time `now`. */
    function CacheRead(key: Option<string>, now: int, readFault: Option<Exception>): GetReport
      reads cacheProvider.store
    {
      GetOutcome(Read(cacheProvider.store.entries, key, readFault), JsonDecoder(cacheProvider.json), now)
    }

    /**
     * ImplementationAsync at time `now`; `readFault` is how the cache read fails, if it
     * does.  The completion, the grace time stamp left on the backend result, the
     * background write and the logging callbacks are those of Plan.
     */
    method Execute(backend: Backend, context: Context, now: int, readFault: Option<Exception>)
      returns (outcome: PolicyOutcome, write: Option<PendingWrite>)
      modifies loggingProvider, cacheProvider.logging, ResultObjects(backend)
      ensures var key := GetCacheKey(context.items);
              var g := CacheRead(key, now, readFault);
              var d := Plan(isPolicyEnabled, g.value, old(View(backend)), old(ResultHandled(backend)),
                            ExceptionPredicates(), agingStrategy, context.items, now);
              (d.answer == ReturnFrom(CachedValue) ==> outcome.Return? && DataOf(outcome.value) == g.value && fresh(outcome.value))
              && (d.answer == ReturnFrom(BackendResult) ==> outcome == Return(backend.result))
              && (d.answer.Rethrow? ==> outcome == Throw(d.answer.exception))
              && StampedAsDecided(backend, d.graceTimeStamp, old(View(backend)))
              && write == (if d.writeExpiration.Some? then Some(PendingWrite(key, backend.result, d.writeExpiration.value)) else None)
              && var cacheEvents := if d.readsCache then [CacheGetEvent(key, g)] else [];
                 var backendEvents := if d.backendLog.Some? then [BackendGetEvent(key, d.backendLog.value, backend)] else [];
                 if loggingProvider == cacheProvider.logging then
                   loggingProvider.events == old(loggingProvider.events) + cacheEvents + backendEvents
                 else
                   cacheProvider.logging.events == old(cacheProvider.logging.events) + cacheEvents
                   && loggingProvider.events == old(loggingProvider.events) + backendEvents
    {
      if !isPolicyEnabled {
        outcome := if backend.Returned? then Return(backend.result) else Throw(backend.exception);
        return outcome, None;
      }

      // Get from cache
      var cacheKey := GetCacheKey(context.items);
      var valueFromCache := cacheProvider.Get(cacheKey, now, readFault);
      if valueFromCache != null && valueFromCache.IsFresh(now) {
        return Return(valueFromCache), None;
      }
      outcome, write := CallBackend(backend, valueFromCache, cacheKey, context, now);
    }

    /**
     * The part of ImplementationAsync after a cache read that found no fresh value: the
     * try/catch/finally around the backend call.
     */
    method CallBackend(backend: Backend, valueFromCache: CacheValue?, cacheKey: Option<string>, context: Context, now: int)
      returns (outcome: PolicyOutcome, write: Option<PendingWrite>)
      requires valueFromCache == null || valueFromCache !in ResultObjects(backend)
      modifies loggingProvider, ResultObjects(backend)
      ensures var d := Fetch(DataOf(valueFromCache), old(View(backend)), old(ResultHandled(backend)),
                             ExceptionPredicates(), agingStrategy, context.items, now);
              (d.answer == ReturnFrom(CachedValue) ==> outcome == Return(valueFromCache))
              && (d.answer == ReturnFrom(BackendResult) ==> outcome == Return(backend.result))
              && (d.answer.Rethrow? ==> outcome == Throw(d.answer.exception))
              && StampedAsDecided(backend, d.graceTimeStamp, old(View(backend)))
              && write == (if d.writeExpiration.Some? then Some(PendingWrite(cacheKey, backend.result, d.writeExpiration.value)) else None)
              && loggingProvider.events == old(loggingProvider.events) + [BackendGetEvent(cacheKey, d.backendLog.value, backend)]
    {
      // `thrown` is the exception the try block raises, if any
      var isSuccess, isFallbackToCache := true, false;
      var result: CacheValue? := null;
      var delegateFailureOutcome: Option<DelegateOutcome> := None;
      var thrown: Option<Exception> := None;
      write := None;
      match backend {
        case Threw(e) =>
          thrown := Some(e);
        case Returned(r) =>
          result := r;
          if !AnyMatch(ResultPredicates(), result) {
            if result != null {
              var grace := agingStrategy.graceRelativeToNow(result.Data(), context.items);
              if grace.Failure? {
                thrown := Some(grace.error);
              } else {
                var stamped := result.SetGraceTimeStamp(now, grace.value);
                if stamped.Fail? {
                  thrown := Some(stamped.error);
                } else {
                  var expiration := agingStrategy.expirationRelativeToNow(result.Data(), context.items);
                  if expiration.Failure? {
                    thrown := Some(expiration.error);
                  } else if expiration.value != 0 {
                    write := Some(PendingWrite(cacheKey, result, expiration.value));
                  }
                }
              }
            }
          } else {
            delegateFailureOutcome := Some(FailedResult(result));
            if valueFromCache != null {
              result := valueFromCache;
              isFallbackToCache := true;
            }
          }
      }
      if thrown.Some? {
        delegateFailureOutcome := Some(FailedException(thrown.value));
        var exceptionToFallback := FirstMatchOrDefault(ExceptionPredicates(), thrown.value);
        if exceptionToFallback.None? || valueFromCache == null {
          isSuccess := false;
        } else {
          result := valueFromCache;
          isFallbackToCache := true;
        }
      }
      loggingProvider.OnBackendGet(cacheKey, isSuccess, isFallbackToCache, delegateFailureOutcome);
      outcome := if isSuccess then Return(result) else Throw(thrown.value);
    }

    /** The body of the background task: the cache provider's SetAsync, run whenever the
        task gets scheduled, with the result object as it is by then. */
    method CompleteWrite(w: PendingWrite, fault: Option<Exception>)
      modifies cacheProvider.store, cacheProvider.logging
      ensures var wr := Write(old(cacheProvider.store.entries), w.key, SerializeObject(cacheProvider.json, old(DataOf(w.value))),
                              w.expirationRelativeToNow, fault);
              cacheProvider.store.entries == (if wr.Success? then wr.value else old(cacheProvider.store.entries))
              && cacheProvider.logging.events == old(cacheProvider.logging.events) + [CacheSet(w.key, wr.Success?, WriteFailure(wr))]
    {
      cacheProvider.Set(w.key, w.value, w.expirationRelativeToNow, fault);
    }
  }

  /** The guards of the policy's constructor and of CreateBuilder, in the order they run:
      aging strategy, cache provider, logging provider. */
  function DependencyChecks(agingStrategy: Option<AgingStrategy>, cacheProvider: Option<CacheProvider>,
                        loggingProvider: Option<LoggingProvider>): (r: Outcome<Exception>)
    ensures r.Pass? <==> agingStrategy.Some? && cacheProvider.Some? && loggingProvider.Some?
    ensures agingStrategy.None? ==> r == Fail(ArgumentNullException("agingStrategy"))
    ensures agingStrategy.Some? && cacheProvider.None? ==> r == Fail(ArgumentNullException("cacheProvider"))
    ensures agingStrategy.Some? && cacheProvider.Some? && loggingProvider.None? ==> r == Fail(ArgumentNullException("loggingProvider"))
  {
    var checks := [Guards.ThrowIfNull(agingStrategy, "agingStrategy"), Guards.ThrowIfNull(cacheProvider, "cacheProvider"),
                   Guards.ThrowIfNull(loggingProvider, "loggingProvider")];
    var r := Guards.FirstFailure(checks);
    assert checks[0].Fail? ==> r == checks[0];
    assert checks[0].Pass? && checks[1].Fail? ==> r == checks[1];
    assert r.Pass? ==> checks[0].Pass? && checks[1].Pass? && checks[2].Pass?;
    r
  }

  /** Disabled: the backend's outcome passes through verbatim; no cache read, no grace
      time stamp, no write, no OnBackendGet. */
  lemma DisabledIsTransparent(cached: Option<ValueData>, backend: BackendView, resultHandled: bool,
                              exceptionPredicates: seq<ExceptionPredicate>, aging: AgingStrategy, items: Items, now: int)
    ensures Plan(false, cached, backend, resultHandled, exceptionPredicates, aging, items, now)
            == Decision(false, true, if backend.ReturnedData? then ReturnFrom(BackendResult) else Rethrow(backend.exception),
                        None, None, None)
  {
  }

  /** A fresh cached value is returned as it is: the backend is not called, nothing is
      stamped or written, and OnBackendGet does not fire. */
  lemma FreshHitShortCircuits(cached: ValueData, backend: BackendView, resultHandled: bool,
                              exceptionPredicates: seq<ExceptionPredicate>, aging: AgingStrategy, items: Items, now: int)
    requires IsFreshAt(cached.graceTimeStamp, now)
    ensures Plan(true, Some(cached), backend, resultHandled, exceptionPredicates, aging, items, now)
            == Decision(true, false, ReturnFrom(CachedValue), None, None, None)
  {
  }

  /** Exactly one write is scheduled, with the aging strategy's expiration, iff the backend
      returned a non-null result that no result predicate handles, both aging calls
      succeed, now + grace is a representable time, and the expiration is not
      default(TimeSpan). */
  lemma WriteExactlyWhen(enabled: bool, cached: Option<ValueData>, backend: BackendView, resultHandled: bool,
                         exceptionPredicates: seq<ExceptionPredicate>, aging: AgingStrategy, items: Items, now: int)
    ensures var d := Plan(enabled, cached, backend, resultHandled, exceptionPredicates, aging, items, now);
            d.writeExpiration.Some?
            <==> (enabled && !(cached.Some? && IsFreshAt(cached.value.graceTimeStamp, now))
                  && backend.ReturnedData? && backend.data.Some? && !resultHandled
                  && aging.graceRelativeToNow(backend.data.value, items).Success?
                  && var grace := aging.graceRelativeToNow(backend.data.value, items).value;
                     InTickRange(now + grace)
                     && var expiration := aging.expirationRelativeToNow(WithGrace(backend.data.value, now, grace), items);
                     expiration.Success? && expiration.value != 0 && d.writeExpiration == Some(expiration.value))
  {
  }

  /** An unhandled non-null result is stamped with now + grace even when its expiration is
      zero and nothing is written, provided that time is representable. */
  lemma StampedEvenWithoutWrite(cached: Option<ValueData>, r: ValueData, exceptionPredicates: seq<ExceptionPredicate>,
                                aging: AgingStrategy, items: Items, now: int, grace: int)
    requires !(cached.Some? && IsFreshAt(cached.value.graceTimeStamp, now))
    requires aging.graceRelativeToNow(r, items) == Success(grace)
    requires aging.expirationRelativeToNow(WithGrace(r, now, grace), items) == Success(0)
    ensures var d := Plan(true, cached, ReturnedData(Some(r)), false, exceptionPredicates, aging, items, now);
            InTickRange(now + grace) ==>
              d.graceTimeStamp == Some(now + grace) && d.writeExpiration.None? && d.answer == ReturnFrom(BackendResult)
  {
  }

  /** A grace time stamp beyond the representable range throws inside the try block: no
      stamp, no write, and the exception is handled exactly like the same exception thrown
      by the backend. */
  lemma StampOutOfRangeLikeBackendFailure(cached: Option<ValueData>, r: ValueData, exceptionPredicates: seq<ExceptionPredicate>,
                                          aging: AgingStrategy, items: Items, now: int, grace: int)
    requires aging.graceRelativeToNow(r, items) == Success(grace)
    requires !InTickRange(now + grace)
    ensures var d := Plan(true, cached, ReturnedData(Some(r)), false, exceptionPredicates, aging, items, now);
            d == Plan(true, cached, ThrewException(ArgumentOutOfRangeException("value")), false, exceptionPredicates, aging, items, now)
            && d.graceTimeStamp.None? && d.writeExpiration.None?
  {
  }

  /** A null result is never written or stamped, and the aging strategy is not consulted:
      any two strategies give the same decision. */
  lemma NullResultNeverWritten(enabled: bool, cached: Option<ValueData>, resultHandled: bool,
                               exceptionPredicates: seq<ExceptionPredicate>, aging1: AgingStrategy, aging2: AgingStrategy,
                               items: Items, now: int)
    ensures var d := Plan(enabled, cached, ReturnedData(None), resultHandled, exceptionPredicates, aging1, items, now);
            d.writeExpiration.None? && d.graceTimeStamp.None?
            && d == Plan(enabled, cached, ReturnedData(None), resultHandled, exceptionPredicates, aging2, items, now)
  {
  }

  /** A handled result falls back to the cached value when one was read, and is returned
      itself otherwise; it is neither stamped nor written, and the call counts as a success. */
  lemma HandledResultFallsBack(cached: Option<ValueData>, r: Option<ValueData>, exceptionPredicates: seq<ExceptionPredicate>,
                               aging: AgingStrategy, items: Items, now: int)
    requires !(cached.Some? && IsFreshAt(cached.value.graceTimeStamp, now))
    ensures var d := Plan(true, cached, ReturnedData(r), true, exceptionPredicates, aging, items, now);
            d.answer == ReturnFrom(if cached.Some? then CachedValue else BackendResult)
            && d.graceTimeStamp.None? && d.writeExpiration.None?
            && d.backendLog == Some(BackendLog(true, cached.Some?, HandledResult))
  {
  }

  /** An exception falls back to the cached value iff an exception predicate handles it
      and a value was read; otherwise it is rethrown unchanged. */
  lemma ExceptionFallsBackOnlyWhenHandled(cached: Option<ValueData>, e: Exception, resultHandled: bool,
                                          exceptionPredicates: seq<ExceptionPredicate>, aging: AgingStrategy, items: Items, now: int)
    requires !(cached.Some? && IsFreshAt(cached.value.graceTimeStamp, now))
    ensures var d := Plan(true, cached, ThrewException(e), resultHandled, exceptionPredicates, aging, items, now);
            d.answer == (if FirstMatchOrDefault(exceptionPredicates, e).Some? && cached.Some? then ReturnFrom(CachedValue)
                         else Rethrow(e))
            && d.writeExpiration.None? && d.graceTimeStamp.None?
  {
  }

  /** An exception thrown by the aging strategy's grace call is handled exactly like the
      same exception thrown by the backend. */
  lemma AgingFailureLikeBackendFailure(cached: Option<ValueData>, r: ValueData, exceptionPredicates: seq<ExceptionPredicate>,
                                       aging: AgingStrategy, items: Items, now: int, e: Exception)
    requires aging.graceRelativeToNow(r, items) == Failure(e)
    ensures Plan(true, cached, ReturnedData(Some(r)), false, exceptionPredicates, aging, items, now)
            == Plan(true, cached, ThrewException(e), false, exceptionPredicates, aging, items, now)
  {
  }

  /** An exception thrown by the aging strategy's expiration call is handled like the same
      exception thrown by the backend (same completion, same OnBackendGet), but the grace
      time stamp already set stays on the result, and nothing is written. */
  lemma ExpirationFailureKeepsStamp(cached: Option<ValueData>, r: ValueData, exceptionPredicates: seq<ExceptionPredicate>,
                                    aging: AgingStrategy, items: Items, now: int, grace: int, e: Exception)
    requires !(cached.Some? && IsFreshAt(cached.value.graceTimeStamp, now))
    requires aging.graceRelativeToNow(r, items) == Success(grace)
    requires InTickRange(now + grace)
    requires aging.expirationRelativeToNow(WithGrace(r, now, grace), items) == Failure(e)
    ensures var d := Plan(true, cached, ReturnedData(Some(r)), false, exceptionPredicates, aging, items, now);
            var thrown := Plan(true, cached, ThrewException(e), false, exceptionPredicates, aging, items, now);
            d.answer == thrown.answer && d.backendLog == thrown.backendLog
            && d.graceTimeStamp == Some(now + grace) && d.writeExpiration.None?
  {
  }

  /** The fixed aging strategy never throws, so with it an unhandled non-null result is
      stamped with now + the configured grace whenever that time is representable, and is
      written iff the configured expiration is nonzero; otherwise the stamp throws. */
  lemma FixedStrategyStamps(cached: Option<ValueData>, r: ValueData, exceptionPredicates: seq<ExceptionPredicate>,
                            s: FixedAgingStrategy, items: Items, now: int)
    requires !(cached.Some? && IsFreshAt(cached.value.graceTimeStamp, now))
    ensures var d := Plan(true, cached, ReturnedData(Some(r)), false, exceptionPredicates, AsAgingStrategy(s), items, now);
            var grace := s.options.graceRelativeToNow;
            (InTickRange(now + grace) ==>
               d.graceTimeStamp == Some(now + grace) && d.answer == ReturnFrom(BackendResult)
               && (d.writeExpiration.Some? <==> s.options.expirationRelativeToNow != 0))
            && (!InTickRange(now + grace) ==>
                  d == Plan(true, cached, ThrewException(ArgumentOutOfRangeException("value")), false, exceptionPredicates,
                            AsAgingStrategy(s), items, now))
  {
    FixedNeverThrows(s, r, items);
    FixedNeverThrows(s, WithGrace(r, now, s.options.graceRelativeToNow), items);
  }
}
