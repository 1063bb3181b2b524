/**
 * PlainTextCacheProvider: the adapter variant that stores values through a
 * plaintext serializer and stamps the grace time stamp itself, on the
 * caller's object, before writing.  Errors are absorbed and logged once per
 * call, as in CacheProvider.
 */
module PlainTextCacheProviders {
  import opened Wrappers
  import opened Exceptions
  import opened Codecs
  import opened CacheValues
  import opened Json
  import opened Compressors
  import opened Serializers
  import opened Store
  import opened Logging
  import opened CacheProviders
  import Guards

  /** The plaintext serializer as the decoder of stored payloads. */
  function SerializerDecoder(serializer: NewtonsoftJsonSerializer): string -> Result<Option<ValueData>, Exception> {
    s => DeserializeFromString(serializer, s)
  }

  /** What SetAsync attempts for a value with the given fields (None for null): the stamp
      faults on a null value, or throws when now + grace is not a representable time, and
      then nothing is written; otherwise the stamped value is serialized, a serializer
      failure writes nothing either, and the text is written. */
  function PlainTextWrite(entries: Entries, serializer: NewtonsoftJsonSerializer, key: Option<string>, value: Option<ValueData>,
                          expirationRelativeToNow: int, graceTimeRelativeToNow: int, now: int, fault: Option<Exception>)
    : (w: Result<Entries, Exception>)
    ensures value.None? ==> w == Failure(NullReferenceException)
    ensures value.Some? && !InTickRange(now + graceTimeRelativeToNow) ==> w == Failure(ArgumentOutOfRangeException("value"))
    ensures value.Some? && InTickRange(now + graceTimeRelativeToNow) ==>
              var text := SerializeToString(serializer, Some(WithGrace(value.value, now, graceTimeRelativeToNow)));
              w == if text.Failure? then Failure(text.error) else Write(entries, key, text.value, expirationRelativeToNow, fault)
  {
    if value.None? then Failure(NullReferenceException)
    else
      match GraceStamp(now, graceTimeRelativeToNow)
      case Failure(e) => Failure(e)
      case Success(_) =>
        match SerializeToString(serializer, Some(WithGrace(value.value, now, graceTimeRelativeToNow)))
        case Failure(e) => Failure(e)
        case Success(text) => Write(entries, key, text, expirationRelativeToNow, fault)
  }

  class PlainTextCacheProvider {
    const store: DistributedCache
    const serializer: NewtonsoftJsonSerializer
    const logging: LoggingProvider

    constructor (store: DistributedCache, serializer: NewtonsoftJsonSerializer, logging: LoggingProvider)
      ensures this.store == store && this.serializer == serializer && this.logging == logging
    {
      this.store := store;
      this.serializer := serializer;
      this.logging := logging;
    }

    /** The public constructor: store, then serializer, then logging provider. */
    static method New(store: Option<DistributedCache>, serializer: Option<NewtonsoftJsonSerializer>, logging: Option<LoggingProvider>)
      returns (r: Result<PlainTextCacheProvider, Exception>)
      ensures r.Failure? <==> store.None? || serializer.None? || logging.None?
      ensures store.None? ==> r == Failure(ArgumentNullException("distributedCache"))
      ensures store.Some? && serializer.None? ==> r == Failure(ArgumentNullException("plainTextSerializer"))
      ensures store.Some? && serializer.Some? && logging.None? ==> r == Failure(ArgumentNullException("loggingProvider"))
      ensures r.Success? ==> fresh(r.value) && r.value.store == store.value && r.value.serializer == serializer.value
                             && r.value.logging == logging.value
    {
      var check := Guards.ThrowIfNull(store, "distributedCache");
      if check.Fail? {
        return Failure(check.error);
      }
      check := Guards.ThrowIfNull(serializer, "plainTextSerializer");
      if check.Fail? {
        return Failure(check.error);
      }
      check := Guards.ThrowIfNull(logging, "loggingProvider");
      if check.Fail? {
        return Failure(check.error);
      }
      var p := new PlainTextCacheProvider(store.value, serializer.value, logging.value);
      r := Success(p);
    }

    /** GetAsync at time `now`, decoding through the serializer. */
    method Get(key: Option<string>, now: int, fault: Option<Exception>) returns (r: CacheValue?)
      modifies logging
      ensures var g := GetOutcome(Read(store.entries, key, fault), SerializerDecoder(serializer), now);
              DataOf(r) == g.value
              && logging.events == old(logging.events) + [CacheGet(key, g.isSuccess, g.isCacheHit, g.isCacheFresh, g.failure)]
      ensures r != null ==> fresh(r)
    {
      var isSuccess, isCacheHit, isCacheFresh := true, false, false;
      var failureException: Option<Exception> := None;
      r := null;
      var value := store.GetString(key, fault);
      if value.Failure? {
        isSuccess, failureException := false, Some(value.error);
      } else if value.value.Some? {
        isCacheHit := true;
        var result := DeserializeFromString(serializer, value.value.value);
        if result.Failure? {
          isSuccess, failureException := false, Some(result.error);
        } else if result.value.None? {
          isSuccess, failureException := false, Some(NullReferenceException);
        } else {
          r := new CacheValue(result.value.value);
          isCacheFresh := r.IsFresh(now);
        }
      }
      logging.OnCacheGet(key, isSuccess, isCacheHit, isCacheFresh, failureException);
    }

    /** SetAsync at time `now`: stamps grace = now + graceTimeRelativeToNow on the caller's
        object, then writes the serializer's text with the given expiration.  The stamp
        stays even when serialization or the write fails; a stamp that throws leaves the
        object as it was and nothing is written.  Every failure is absorbed and logged. */
    method Set(key: Option<string>, value: CacheValue?, expirationRelativeToNow: int, graceTimeRelativeToNow: int,
               now: int, fault: Option<Exception>)
      modifies store, logging, value
      ensures value != null && InTickRange(now + graceTimeRelativeToNow) ==>
                value.Data() == WithGrace(old(value.Data()), now, graceTimeRelativeToNow)
      ensures value != null && !InTickRange(now + graceTimeRelativeToNow) ==> value.Data() == old(value.Data())
      ensures var w := PlainTextWrite(old(store.entries), serializer, key, old(DataOf(value)), expirationRelativeToNow,
                                      graceTimeRelativeToNow, now, fault);
              store.entries == (if w.Success? then w.value else old(store.entries))
              && logging.events == old(logging.events) + [CacheSet(key, w.Success?, WriteFailure(w))]
    {
      var isSuccess := true;
      var failureException: Option<Exception> := None;
      if value == null {
        isSuccess, failureException := false, Some(NullReferenceException);
      } else {
        var stamped := value.SetGraceTimeStamp(now, graceTimeRelativeToNow);
        if stamped.Fail? {
          isSuccess, failureException := false, Some(stamped.error);
        } else {
          var text := SerializeToString(serializer, Some(value.Data()));
          if text.Failure? {
            isSuccess, failureException := false, Some(text.error);
          } else {
            var outcome := store.SetString(key, text.value, expirationRelativeToNow, fault);
            if outcome.Fail? {
              isSuccess, failureException := false, Some(outcome.error);
            }
          }
        }
      }
      logging.OnCacheSet(key, isSuccess, failureException);
    }
  }

  /** A value written at `now` with grace g is stored iff now + g is a representable time;
      then it is read back at any time t with its grace time stamp at now + g, and is
      reported fresh exactly while t < now + g. */
  lemma StampedSetThenGet(serializer: NewtonsoftJsonSerializer, entries: Entries, key: string, d: ValueData,
                          ttl: int, grace: int, now: int, t: int)
    requires Restores(serializer.plaintextCompressor) && RoundTrips(serializer.json.text) && RoundTrips(serializer.json.dates)
    requires ttl > 0
    ensures var w := PlainTextWrite(entries, serializer, Some(key), Some(d), ttl, grace, now, None);
            (w.Success? <==> InTickRange(now + grace))
            && (w.Success? ==>
                  GetOutcome(Read(w.value, Some(key), None), SerializerDecoder(serializer), t)
                  == GetReport(Some(WithGrace(d, now, grace)), true, true, t < now + grace, None))
  {
    PlainTextRoundTrip(serializer, Some(WithGrace(d, now, grace)));
  }

  /** A compressor that throws on the stamped value's JSON leaves the store as it was:
      SetAsync reports the compressor's exception, as it does any other. */
  lemma CompressFailureWritesNothing(serializer: NewtonsoftJsonSerializer, entries: Entries, key: Option<string>, d: ValueData,
                                     ttl: int, grace: int, now: int, fault: Option<Exception>)
    requires InTickRange(now + grace)
    requires serializer.plaintextCompressor.compress(SerializeObject(serializer.json, Some(WithGrace(d, now, grace)))).Failure?
    ensures PlainTextWrite(entries, serializer, key, Some(d), ttl, grace, now, fault)
            == Failure(serializer.plaintextCompressor.compress(SerializeObject(serializer.json, Some(WithGrace(d, now, grace)))).error)
  {
    CompressFailurePropagates(serializer, Some(WithGrace(d, now, grace)));
  }
}
