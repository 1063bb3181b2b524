/**
 * CacheProvider: reads and writes cached values as JSON in the distributed
 * store.  Every store and decoding exception is absorbed (a read becomes a
 * miss, a write is silently lost) and each call emits exactly one logging
 * callback describing what happened.
 */
module CacheProviders {
  import opened Wrappers
  import opened Exceptions
  import opened Codecs
  import opened CacheValues
  import opened Json
  import opened Store
  import opened Logging
  import Guards

  /** The flags GetAsync hands to OnCacheGet, with the value it returns. */
  datatype GetReport = GetReport(
    value: Option<ValueData>, isSuccess: bool, isCacheHit: bool, isCacheFresh: bool, failure: Option<Exception>)

  /**
   * GetAsync of either provider, given what the store read produced and how a payload
   * is decoded: a read or decoding exception is a null return logged as a failure; a
   * payload is a hit even when it cannot be decoded; a payload that decodes to null
   * faults on the freshness check.
   */
  function GetOutcome(read: Result<Option<string>, Exception>, decode: string -> Result<Option<ValueData>, Exception>, now: int)
    : (g: GetReport)
    ensures g.isSuccess <==> g.failure.None?
    ensures g.isCacheHit <==> read.Success? && read.value.Some?
    ensures g.value.Some? ==> g.isSuccess && g.isCacheHit && (g.isCacheFresh <==> IsFreshAt(g.value.value.graceTimeStamp, now))
    ensures g.value.None? ==> !g.isCacheFresh
    ensures (g.value.None? && g.isSuccess) <==> (read.Success? && read.value.None?)
    ensures read.Failure? ==> g.failure == Some(read.error)
    ensures read.Success? && read.value.Some? ==>
              match decode(read.value.value)
              case Failure(e) => g.failure == Some(e)
              case Success(None) => g.failure == Some(NullReferenceException)
              case Success(Some(d)) => g.value == Some(d)
  {
    match read
    case Failure(e) => GetReport(None, false, false, false, Some(e))
    case Success(None) => GetReport(None, true, false, false, None)
    case Success(Some(payload)) =>
      match decode(payload)
      case Failure(e) => GetReport(None, false, true, false, Some(e))
      case Success(None) => GetReport(None, false, true, false, Some(NullReferenceException))
      case Success(Some(d)) => GetReport(Some(d), true, true, IsFreshAt(d.graceTimeStamp, now), None)
  }

  /** The failure a write reports, if any. */
  function WriteFailure(w: Result<Entries, Exception>): (f: Option<Exception>)
    ensures f.None? <==> w.Success?
    ensures f.Some? ==> f.value == w.error
  {
    if w.Failure? then Some(w.error) else None
  }

  /** Newtonsoft's JsonConvert as the decoder of stored payloads. */
  function JsonDecoder(json: JsonConvert): string -> Result<Option<ValueData>, Exception> {
    s => DeserializeObject(json, s)
  }

  class CacheProvider {
    const store: DistributedCache
    const logging: LoggingProvider
    /** The JsonConvert defaults the static calls use. */
    const json: JsonConvert

    constructor (store: DistributedCache, logging: LoggingProvider, json: JsonConvert)
      ensures this.store == store && this.logging == logging && this.json == json
    {
      this.store := store;
      this.logging := logging;
      this.json := json;
    }

    /** The public constructor: the store is checked first, then the logging provider. */
    static method New(store: Option<DistributedCache>, logging: Option<LoggingProvider>, json: JsonConvert)
      returns (r: Result<CacheProvider, Exception>)
      ensures r.Failure? <==> store.None? || logging.None?
      ensures store.None? ==> r == Failure(ArgumentNullException("distributedCache"))
      ensures store.Some? && logging.None? ==> r == Failure(ArgumentNullException("loggingProvider"))
      ensures r.Success? ==> fresh(r.value) && r.value.store == store.value && r.value.logging == logging.value
                             && r.value.json == json
    {
      var check := Guards.ThrowIfNull(store, "distributedCache");
      if check.Fail? {
        return Failure(check.error);
      }
      check := Guards.ThrowIfNull(logging, "loggingProvider");
      if check.Fail? {
        return Failure(check.error);
      }
      var p := new CacheProvider(store.value, logging.value, json);
      r := Success(p);
    }

    /** GetAsync at time `now`; `fault` is how the store call fails, if it does. */
    method Get(key: Option<string>, now: int, fault: Option<Exception>) returns (r: CacheValue?)
      modifies logging
      ensures var g := GetOutcome(Read(store.entries, key, fault), JsonDecoder(json), now);
              DataOf(r) == g.value
              && logging.events == old(logging.events) + [CacheGet(key, g.isSuccess, g.isCacheHit, g.isCacheFresh, g.failure)]
      ensures r != null ==> fresh(r)
    {
      var isSuccess, isCacheHit, isCacheFresh := true, false, false;
      var failureException: Option<Exception> := None;
      r := null;
      var value := store.GetString(key, fault);
      if value.Failure? {
        isSuccess, failureException := false, Some(value.error);
      } else if value.value.Some? {
        isCacheHit := true;
        var result := DeserializeObject(json, value.value.value);
        if result.Failure? {
          isSuccess, failureException := false, Some(result.error);
        } else if result.value.None? {
          isSuccess, failureException := false, Some(NullReferenceException);
        } else {
          r := new CacheValue(result.value.value);
          isCacheFresh := r.IsFresh(now);
        }
      }
      logging.OnCacheGet(key, isSuccess, isCacheHit, isCacheFresh, failureException);
    }

    /** SetAsync: the JSON of the value under the key with the given expiration; the value
        itself, its grace time stamp included, is left as it is. */
    method Set(key: Option<string>, value: CacheValue?, expirationRelativeToNow: int, fault: Option<Exception>)
      modifies store, logging
      ensures var w := Write(old(store.entries), key, SerializeObject(json, old(DataOf(value))), expirationRelativeToNow, fault);
              store.entries == (if w.Success? then w.value else old(store.entries))
              && logging.events == old(logging.events) + [CacheSet(key, w.Success?, WriteFailure(w))]
      ensures value != null ==> unchanged(value)
    {
      var isSuccess := true;
      var failureException: Option<Exception> := None;
      var outcome := store.SetString(key, SerializeObject(json, DataOf(value)), expirationRelativeToNow, fault);
      if outcome.Fail? {
        isSuccess, failureException := false, Some(outcome.error);
      }
      logging.OnCacheSet(key, isSuccess, failureException);
    }
  }

  /** A value written by Set is read back by Get as a successful hit whose freshness is
      the value's own, given that JSON round-trips. */
  lemma SetThenGet(json: JsonConvert, entries: Entries, key: string, d: ValueData, ttl: int, now: int)
    requires RoundTrips(json.text) && RoundTrips(json.dates)
    requires ttl > 0
    ensures var w := Write(entries, Some(key), SerializeObject(json, Some(d)), ttl, None);
            w.Success?
            && GetOutcome(Read(w.value, Some(key), None), JsonDecoder(json), now)
               == GetReport(Some(d), true, true, IsFreshAt(d.graceTimeStamp, now), None)
  {
    JsonRoundTrip(json, Some(d));
  }

  /** A null value written by Set is stored as JSON null, which a later Get reports as a
      failed hit (the freshness check dereferences null). */
  lemma NullWriteReadsAsFailedHit(json: JsonConvert, entries: Entries, key: string, ttl: int, now: int)
    requires RoundTrips(json.text) && RoundTrips(json.dates)
    requires ttl > 0
    ensures var w := Write(entries, Some(key), SerializeObject(json, None), ttl, None);
            w.Success?
            && GetOutcome(Read(w.value, Some(key), None), JsonDecoder(json), now)
               == GetReport(None, false, true, false, Some(NullReferenceException))
  {
    JsonRoundTrip(json, None);
  }

  /** Writing with an expiration that is not positive never reaches the store. */
  lemma NonPositiveExpirationIsRejected(entries: Entries, key: Option<string>, payload: string, ttl: int, fault: Option<Exception>)
    requires ttl <= 0
    ensures Write(entries, key, payload, ttl, fault).Failure?
    ensures Write(entries, key, payload, ttl, fault).error == ArgumentOutOfRangeException("AbsoluteExpirationRelativeToNow")
  {
  }
}
