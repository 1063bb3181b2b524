# Polly.Contrib.CachePolicy in Dafny

This project models the core of Polly.Contrib.CachePolicy, a Polly policy for stale-tolerant cache-aside. The policy works as follows:

- It reads a cached value.
- It returns that value directly when it is still fresh, that is, before its grace time stamp.
- Otherwise it calls the backend.
- A live result that no result predicate handles gets a grace time stamp. Unless its expiration is zero, it is also written back to the distributed cache in the background.
- When a result predicate handles the backend's result, the policy falls back to the stale cached value, if one was read. The same holds when an exception predicate handles the backend's exception.
- Otherwise the live result is returned, or the exception is rethrown.

Around this decision engine the project models:

- the cacheable value contract (`CacheValue`);
- the fixed aging strategy;
- the fluent builder and `CreateBuilder`;
- the two cache providers (`CacheProvider` and `PlainTextCacheProvider`), which absorb every store and decoding error and emit one logging callback per call;
- the serialization pipelines (Newtonsoft JSON and protobuf, each followed by a compressor, and the no-op compressor);
- the execution-context helpers and the argument guards.

Modelling conventions:

- Times are integer ticks, and the current time `now` is a parameter. Durations (`TimeSpan`) are integer ticks, and `default(TimeSpan)` is `0`. A `DateTimeOffset` holds ticks 0 to `MaxTicks`, which is `DateTime.MaxValue.Ticks`. Adding a grace duration that leaves this range throws `ArgumentOutOfRangeException`, as `DateTimeOffset.Add` does. A grace of `TimeSpan.MaxValue` is one example.
- A nullable reference argument is an `Option`, or a nullable class type where the object is shared, and a thrown exception is a `Failure`/`Fail` value.
- Objects the source updates in place are classes:
  - `CacheValue`;
  - the Polly `Context`;
  - Polly's `PolicyBuilder`;
  - the distributed cache;
  - the logging provider;
  - the cache providers;
  - the builder;
  - the policy;
  - protobuf-net's `RuntimeTypeModel`.
- The logging provider records its callbacks as a sequence of events.
- External libraries are `Codec` values: an encode function and a decode function that may fail. This covers Newtonsoft's text layer, protobuf-net's wire format and the ISO 8601 "o" date text. Their round-trip property is a hypothesis (`RoundTrips`) of the lemmas that need it.
- Compressors are `Compressor` values. `IPlaintextCompressor` and `IBinaryCompressor` are open to callers' implementations, such as LZ4 pickling, so Compress may throw as well as Decompress. The round-trip lemmas take as a hypothesis (`Restores`) that Compress does not throw and that Decompress undoes it.
- The store's failures and the cache read's failure are explicit `fault` parameters.
- The background write started by `Task.Run` is returned as a `PendingWrite`, and `CompleteWrite` performs it.

`AsyncCachePolicy.cs` together with `CacheProvider.cs` is the primary flow: the policy stamps the grace time stamp itself and calls the four-argument `SetAsync`. `PlainTextCacheProvider` is the alternative adapter. It stamps the grace time stamp inside its own `SetAsync`, and the policy does not call it.

## Model

| member | source | states |
|---|---|---|
| Guards.ThrowIfNull | src/Polly.Contrib.CachePolicy/Utilities/ObjectExtensions.cs:16-22 | fails iff the value is null, with an ArgumentNullException whose parameter name is the given name; the value is only inspected |
| Guards.IsNullOrWhiteSpace | src/Polly.Contrib.CachePolicy/Utilities/StringExtensions.cs:15 | `string.IsNullOrWhiteSpace` holds iff the string is null or every character is .NET white space |
| Guards.AllWhiteSpaceMeans | src/Polly.Contrib.CachePolicy/Utilities/StringExtensions.cs:15 | the whitespace test holds iff every character is .NET white space, so the empty string counts as whitespace |
| Guards.ThrowIfNullOrWhiteSpace | src/Polly.Contrib.CachePolicy/Utilities/StringExtensions.cs:13-19 | returns normally iff the string is non-null and has a non-whitespace character; throws an ArgumentException for null, empty or all-whitespace strings, and the message starts with the supplied name |
| Guards.FirstFailure | src/Polly.Contrib.CachePolicy/Syntax/AsyncCachePolicySyntax.cs:30-32 | a run of guards passes iff every guard passes; otherwise the first failing guard decides |
| Exceptions.EveryExceptionIsException | src/Polly.Contrib.CachePolicy/AsyncCachePolicy.cs:135 | every exception is an instance of `Exception`, so the policy's catch clause sees them all |
| Contexts.WithCacheKey | src/Polly.Contrib.CachePolicy/Utilities/ContextExtensions.cs:26-33 | fails, leaving the context untouched, iff the key is null, empty or whitespace; otherwise stores the key in the cache-key slot and returns the same context |
| Contexts.WithOperationName | src/Polly.Contrib.CachePolicy/Utilities/ContextExtensions.cs:41-48 | the same validation and in-place store, for the operation-name slot |
| Contexts.GetCacheKey | src/Polly.Contrib.CachePolicy/Utilities/ContextExtensions.cs:55-63 | the key is non-null iff the cache-key slot is present and holds a string, and then it is that string |
| Contexts.GetOperationName | src/Polly.Contrib.CachePolicy/Utilities/ContextExtensions.cs:70-78 | the name is non-null iff the operation-name slot is present and holds a string, and then it is that string |
| Contexts.CacheKeyRoundTrip | src/Polly.Contrib.CachePolicy/Utilities/ContextExtensions.cs:26-63 | GetCacheKey reads back the stored key, and storing it leaves the operation name as it was |
| Contexts.OperationNameRoundTrip | src/Polly.Contrib.CachePolicy/Utilities/ContextExtensions.cs:41-78 | GetOperationName reads back the stored name, and storing it leaves the cache key as it was |
| Contexts.LastCacheKeyWins | src/Polly.Contrib.CachePolicy/Utilities/ContextExtensions.cs:30 | a second key overwrites the first |
| Contexts.NonStringSlotReadsNull | src/Polly.Contrib.CachePolicy/Utilities/ContextExtensions.cs:55-78 | a slot holding a non-string object reads as null |
| CacheValues.CacheValue.SetGraceTimeStamp | src/Polly.Contrib.CachePolicy/Models/CacheValue.cs:38-41 | when now + duration is a representable time, the object's grace time stamp becomes it and nothing else changes; otherwise it throws ArgumentOutOfRangeException and the object is unchanged |
| CacheValues.GraceStamp | src/Polly.Contrib.CachePolicy/Models/CacheValue.cs:40 | `DateTimeOffset.Now.Add(grace)` succeeds iff now + grace lies in 0..MaxTicks, and then gives that time; otherwise ArgumentOutOfRangeException |
| CacheValues.CacheValue.IsFresh | src/Polly.Contrib.CachePolicy/Models/CacheValue.cs:28-32 | the object is fresh iff it has no grace time stamp or now is strictly before it |
| CacheValues.NoGraceIsAlwaysFresh | src/Polly.Contrib.CachePolicy/Models/CacheValue.cs:28-30 | a value without a grace time stamp is fresh at every time |
| CacheValues.FreshIffBeforeStamp | src/Polly.Contrib.CachePolicy/Models/CacheValue.cs:31 | with a stamp, fresh iff now is strictly before it; at the stamp itself the value is stale |
| CacheValues.StaleStaysStale | src/Polly.Contrib.CachePolicy/Models/CacheValue.cs:31 | stale at a time means stale at every later time |
| CacheValues.FreshRightAfterStamp | src/Polly.Contrib.CachePolicy/Models/CacheValue.cs:28-41 | at the instant of stamping, the value is fresh iff the grace duration is positive |
| CacheValues.StampKeepsOtherFields | src/Polly.Contrib.CachePolicy/Models/CacheValue.cs:38-41 | stamping keeps the null sentinel and the value's own data, and the last stamp wins |
| Aging.FixedIgnoresResultAndContext | src/Polly.Contrib.CachePolicy/Builder/AgingStrategy/FixedAgingStrategy.cs:27-36 | grace and expiration are the configured durations, whatever the result and context, on every call |
| Aging.NewFixedAgingStrategy | src/Polly.Contrib.CachePolicy/Builder/AgingStrategy/FixedAgingStrategy.cs:21-24 | options are the ones named by the result type; an unconfigured name gives zero expiration and zero grace |
| Aging.FixedNeverThrows | src/Polly.Contrib.CachePolicy/Builder/AgingStrategy/FixedAgingStrategy.cs:27-36 | through the aging-strategy interface the fixed strategy always succeeds with the configured durations |
| Compressors.NoOpIsIdentity | src/Polly.Contrib.CachePolicy/Providers/Compressor/NoOpPlaintextCompressor.cs:9-18 | Compress and Decompress return their input (a null string included), undo each other, and Compress is idempotent |
| Compressors.NoOpRoundTrips | src/Polly.Contrib.CachePolicy/Providers/Compressor/NoOpPlaintextCompressor.cs:9-18 | the no-op compressor satisfies the round-trip hypothesis that the pipeline lemmas require |
| Json.LookupFindsLastMatch | src/Polly.Contrib.CachePolicy/Providers/Serializer/NewtonsoftJsonSerializer.cs:41 | a member is found iff some property name equals it ignoring case, and then it is the last such property |
| Json.BindingRoundTrip | src/Polly.Contrib.CachePolicy/Models/CacheValue.cs:15-21 | binding the JSON document of a value (or of null) gives it back, grace time stamp and null sentinel included, when the date text round-trips |
| Json.JsonRoundTrip | src/Polly.Contrib.CachePolicy/Providers/Cache/CacheProvider.cs:65-98 | DeserializeObject reads back what SerializeObject wrote |
| Json.AbsentGraceOmitted | src/Polly.Contrib.CachePolicy/Models/CacheValue.cs:15-16 | an absent grace time stamp is not written at all |
| Json.LookupIgnoresCase | src/Polly.Contrib.CachePolicy.Specs/serializer/NewtonsoftJsonSerializerSpecs.cs:14-25 | member lookup gives the same answer for names that differ only in case |
| Json.CamelCaseGraceIsRead | src/Polly.Contrib.CachePolicy.Specs/serializer/NewtonsoftJsonSerializerSpecs.cs:14-25 | a property whose name matches `GraceTimeStamp` ignoring case, the camel-cased `graceTimeStamp` of the case-insensitivity test among them, populates the grace time stamp when no later property matches |
| Json.ReadBool | src/Polly.Contrib.CachePolicy/Models/CacheValue.cs:21 | the bool member binds an absent member as false; it binds a JSON bool as is, an integer as non-zero, and the strings "true"/"false" in any letter case; null and the empty string throw the serializer's conversion error, and any other string throws the reader's JsonReaderException |
| Json.ReadString | src/Polly.Contrib.CachePolicy.Specs/serializer/SerializationTarget.cs:17 | a string member never throws: absent or null gives null, a string binds as is, a bool as the JSON literal "true"/"false", and an integer as its decimal text, which parses back to the integer |
| Json.IntTextRoundTrip | src/Polly.Contrib.CachePolicy.Specs/serializer/SerializationTarget.cs:17 | the decimal text an integer binds as is digits with an optional leading '-', and reads back as that integer |
| Json.DeserializeObject | src/Polly.Contrib.CachePolicy/Providers/Serializer/NewtonsoftJsonSerializer.cs:37-42 | a text-layer failure is the result; the text `null` binds to a null value; a non-null value comes only from a JSON object |
| Protobuf.NewProtobufSerializer | src/Polly.Contrib.CachePolicy/Providers/Serializer/ProtobufSerializer.cs:25-36 | fails iff the compressor is null, without touching the type model; otherwise registers the surrogate only when it is not yet registered, so repeated construction changes nothing |
| Protobuf.ToSurrogate | src/Polly.Contrib.CachePolicy/Providers/Serializer/Model/DateTimeOffsetSurrogate.cs:24-27 | the surrogate message carries the date's "o" text in member 1 |
| Protobuf.FromSurrogate | src/Polly.Contrib.CachePolicy/Providers/Serializer/Model/DateTimeOffsetSurrogate.cs:33-36 | a surrogate without member 1 throws ArgumentNullException("input"); a time comes only from parsing the text in member 1 |
| Protobuf.SurrogateRoundTrip | src/Polly.Contrib.CachePolicy/Providers/Serializer/Model/DateTimeOffsetSurrogate.cs:17-36 | a time stamp survives the surrogate when the "o" text round-trips |
| Protobuf.MessageRoundTrip | src/Polly.Contrib.CachePolicy.Specs/serializer/ProtobufSerializerSpecs.cs:15-53 | members 1, 2 and 3 read back as the grace time stamp (present or absent), the null sentinel and the child member (set or null) |
| Protobuf.ProtobufRoundTrip | src/Polly.Contrib.CachePolicy/Providers/Serializer/ProtobufSerializer.cs:39-61 | SerializeToBytes succeeds and DeserializeFromBytes inverts it (encode then compress, decompress then decode) when the compressor restores its input and the wire format and the date text round-trip |
| Protobuf.CompressFailurePropagates | src/Polly.Contrib.CachePolicy/Providers/Serializer/ProtobufSerializer.cs:39-47 | an exception thrown by Compress is the failure of SerializeToBytes |
| Serializers.NewNewtonsoftJsonSerializer | src/Polly.Contrib.CachePolicy/Providers/Serializer/NewtonsoftJsonSerializer.cs:22-27 | fails with ArgumentNullException("plaintextCompressor") iff the compressor is null; otherwise keeps it |
| Serializers.PlainTextRoundTrip | src/Polly.Contrib.CachePolicy/Providers/Serializer/NewtonsoftJsonSerializer.cs:30-42 | SerializeToString succeeds and DeserializeFromString inverts it (JSON then compress, decompress then JSON) when the compressor restores its input and JSON round-trips |
| Serializers.CompressFailurePropagates | src/Polly.Contrib.CachePolicy/Providers/Serializer/NewtonsoftJsonSerializer.cs:30-34 | an exception thrown by Compress is the failure of SerializeToString |
| Serializers.NoOpStoresJsonText | src/Polly.Contrib.CachePolicy/Providers/Serializer/NewtonsoftJsonSerializer.cs:30-42 | with the no-op compressor, the stored text is exactly the JSON text and reading is exactly JSON deserialization |
| Serializers.DecompressFailurePropagates | src/Polly.Contrib.CachePolicy/Providers/Serializer/NewtonsoftJsonSerializer.cs:37-42 | a decompression failure is the failure of the whole read |
| Serializers.JsonFailurePropagates | src/Polly.Contrib.CachePolicy/Providers/Serializer/NewtonsoftJsonSerializer.cs:37-42 | a JSON failure after decompression is the failure of the whole read |
| Logging.LoggingProvider.OnCacheGet | src/Polly.Contrib.CachePolicy/Providers/Logging/ILoggingProvider.cs:23 | appends one cache-get event with key, success, hit, freshness and failure |
| Logging.LoggingProvider.OnCacheSet | src/Polly.Contrib.CachePolicy/Providers/Logging/ILoggingProvider.cs:33 | appends one cache-set event with key, success and failure |
| Logging.LoggingProvider.OnBackendGet | src/Polly.Contrib.CachePolicy/Providers/Logging/ILoggingProvider.cs:44-45 | appends one backend-get event with key, success, fallback and delegate failure outcome |
| Store.EntryOptions | src/Polly.Contrib.CachePolicy/Providers/Cache/CacheProvider.cs:98-101 | the entry's relative expiration is accepted iff it is positive; otherwise ArgumentOutOfRangeException |
| Store.Read | src/Polly.Contrib.CachePolicy/Providers/Cache/CacheProvider.cs:58 | a read succeeds iff the key is non-null and the store does not fail, and then finds the payload iff the key is present |
| Store.Write | src/Polly.Contrib.CachePolicy/Providers/Cache/CacheProvider.cs:98-101 | a write succeeds iff the expiration is positive, the key non-null and the store does not fail; it then stores the payload and expiration under the key and keeps every other entry |
| Store.DistributedCache.GetString | src/Polly.Contrib.CachePolicy/Providers/Cache/CacheProvider.cs:58 | the store call answers as Read |
| Store.DistributedCache.SetString | src/Polly.Contrib.CachePolicy/Providers/Cache/CacheProvider.cs:98-101 | the store's entries change as Write says, and not at all on failure |
| Store.ReadAfterWrite | src/Polly.Contrib.CachePolicy/Providers/Cache/CacheProvider.cs:58-101 | what a successful write stored, a read of that key finds |
| Store.WriteLeavesOtherKeys | src/Polly.Contrib.CachePolicy/Providers/Cache/CacheProvider.cs:58-101 | a write leaves reads of every other key unchanged |
| CacheProviders.GetOutcome | src/Polly.Contrib.CachePolicy/Providers/Cache/CacheProvider.cs:47-86 | exceptions never escape: success iff no failure is reported; a hit iff the store returned a payload, even when decoding then fails; a returned value is a successful hit whose freshness is its own; a null return is logged as success only for a miss; a payload decoding to null reports a NullReferenceException |
| CacheProviders.CacheProvider.New | src/Polly.Contrib.CachePolicy/Providers/Cache/CacheProvider.cs:35-44 | fails on a null store, then on a null logging provider; otherwise keeps both |
| CacheProviders.CacheProvider.Get | src/Polly.Contrib.CachePolicy/Providers/Cache/CacheProvider.cs:47-86 | returns the decoded value GetOutcome describes (a new object) and appends exactly one cache-get event carrying its flags |
| CacheProviders.CacheProvider.Set | src/Polly.Contrib.CachePolicy/Providers/Cache/CacheProvider.cs:89-112 | stores the value's JSON with the given expiration as Write says, never throws, appends exactly one cache-set event whose success is the write's, and leaves the value (its grace time stamp included) untouched |
| CacheProviders.SetThenGet | src/Polly.Contrib.CachePolicy/Providers/Cache/CacheProvider.cs:47-112 | a value Set under a key is read back by Get as a successful hit, with the value's own freshness |
| CacheProviders.NullWriteReadsAsFailedHit | src/Polly.Contrib.CachePolicy/Providers/Cache/CacheProvider.cs:47-112 | a null value Set under a key is read back as a failed hit (NullReferenceException) |
| CacheProviders.NonPositiveExpirationIsRejected | src/Polly.Contrib.CachePolicy/Providers/Cache/CacheProvider.cs:98-101 | a write whose expiration is not positive never reaches the store |
| PlainTextCacheProviders.PlainTextWrite | src/Polly.Contrib.CachePolicy/Providers/Cache/PlainTextCacheProvider.cs:104-110 | before any write, a null value faults on the stamp, and an out-of-range now + grace throws ArgumentOutOfRangeException; otherwise the stamped value is serialized, a serializer exception is the result with nothing written, and the text is written as Write says |
| PlainTextCacheProviders.PlainTextCacheProvider.New | src/Polly.Contrib.CachePolicy/Providers/Cache/PlainTextCacheProvider.cs:40-52 | fails on a null store, then serializer, then logging provider; otherwise keeps all three |
| PlainTextCacheProviders.PlainTextCacheProvider.Get | src/Polly.Contrib.CachePolicy/Providers/Cache/PlainTextCacheProvider.cs:55-94 | as CacheProvider.Get, decoding through the serializer |
| PlainTextCacheProviders.PlainTextCacheProvider.Set | src/Polly.Contrib.CachePolicy/Providers/Cache/PlainTextCacheProvider.cs:97-121 | stamps grace = now + grace on the caller's object when that time is representable, and the stamp stays even if serialization or the write fails; an unrepresentable time leaves the object as it was and writes nothing; never throws, and appends exactly one cache-set event with the attempt's success |
| PlainTextCacheProviders.StampedSetThenGet | src/Polly.Contrib.CachePolicy/Providers/Cache/PlainTextCacheProvider.cs:55-121 | a value Set at `now` with grace g is stored iff now + g is representable; it is then read back at any time t with stamp now + g, and reported fresh exactly while t < now + g |
| PlainTextCacheProviders.CompressFailureWritesNothing | src/Polly.Contrib.CachePolicy/Providers/Cache/PlainTextCacheProvider.cs:104-116 | a compressor that throws on the stamped value's JSON leaves the store unchanged, and SetAsync reports that exception |
| Predicates.FirstMatchOrDefault | src/Polly.Contrib.CachePolicy/AsyncCachePolicy.cs:139 | the exception is returned iff some predicate matches it (is of its type and satisfies its condition), and null otherwise |
| Predicates.FirstMatchIndex | src/Polly.Contrib.CachePolicy/AsyncCachePolicy.cs:139 | the deciding predicate is the first that matches |
| Predicates.PolicyBuilder.Handle | src/Polly.Contrib.CachePolicy/Builder/AsyncCachePolicyBuilder.cs:71 | a new predicate set holding exactly one exception alternative |
| Predicates.PolicyBuilder.HandleResult | src/Polly.Contrib.CachePolicy/Builder/AsyncCachePolicyBuilder.cs:78 | a new predicate set holding exactly one result alternative |
| Predicates.PolicyBuilder.Or | src/Polly.Contrib.CachePolicy/Builder/AsyncCachePolicyBuilder.cs:101 | appends one exception alternative in place and keeps the result alternatives |
| Predicates.PolicyBuilder.OrResult | src/Polly.Contrib.CachePolicy/Builder/AsyncCachePolicyBuilder.cs:108 | appends one result alternative in place and keeps the exception alternatives |
| Predicates.HandleWithoutPredicateMatchesType | src/Polly.Contrib.CachePolicy/Builder/AsyncCachePolicyBuilder.cs:68-73 | the predicate of Handle<TException>() matches exactly the instances of TException |
| Predicates.OrKeepsEarlierVerdict | src/Polly.Contrib.CachePolicy/Builder/AsyncCachePolicyBuilder.cs:98-103 | after an appended alternative the first match is unchanged, and the new alternative decides only when none matched |
| Predicates.OrResultAddsItsMatches | src/Polly.Contrib.CachePolicy/Builder/AsyncCachePolicyBuilder.cs:106-110 | an appended result alternative adds exactly its own matches |
| Predicates.NoPredicatesHandleNothing | src/Polly.Contrib.CachePolicy/AsyncCachePolicy.cs:55 | with no predicate set (null policy builder), no exception and no result is handled |
| Policy.Fetch | src/Polly.Contrib.CachePolicy/AsyncCachePolicy.cs:94-163 | past the fresh-hit check, OnBackendGet fires exactly once; it reports success iff the call returns normally and fallback iff the cached value is returned; the cached value is returned only if one was read; a write implies a stamped, unhandled, non-null backend result returned as is, with nonzero expiration; every stamp is a representable time |
| Policy.Plan | src/Polly.Contrib.CachePolicy/AsyncCachePolicy.cs:75-164 | the cache is read iff enabled; the backend is called iff there is no fresh hit; OnBackendGet fires iff both happen; a substituted cached value is never fresh; only a called backend leads to a rethrow; stamps (always representable times) and writes only for unhandled non-null results |
| Policy.DependencyChecks | src/Polly.Contrib.CachePolicy/AsyncCachePolicy.cs:57-59 | passes iff aging strategy, cache provider and logging provider are all non-null; otherwise the first null in that order is reported |
| Policy.AsyncCachePolicy.New | src/Polly.Contrib.CachePolicy/AsyncCachePolicy.cs:49-65 | fails exactly as DependencyChecks says; otherwise keeps the flag, the (possibly null) policy builder and the dependencies |
| Policy.AsyncCachePolicy.Execute | src/Polly.Contrib.CachePolicy/AsyncCachePolicy.cs:75-164 | completes as Plan decides: the fresh or fallback cached object, the backend's own result object, or the rethrown exception; leaves Plan's grace stamp on the backend result; returns Plan's pending write keyed by the context's cache key; appends the cache-get and backend-get events Plan calls for, to one provider or two |
| Policy.AsyncCachePolicy.CallBackend | src/Polly.Contrib.CachePolicy/AsyncCachePolicy.cs:94-163 | the try/catch/finally after a non-fresh read behaves as Fetch decides and appends exactly one backend-get event |
| Policy.AsyncCachePolicy.CompleteWrite | src/Polly.Contrib.CachePolicy/AsyncCachePolicy.cs:115-119 | the background task performs the cache provider's Set with the pending key, object and expiration |
| Policy.DisabledIsTransparent | src/Polly.Contrib.CachePolicy/AsyncCachePolicy.cs:81-84 | disabled: the backend outcome passes through verbatim, with no cache read, stamp, write or OnBackendGet |
| Policy.FreshHitShortCircuits | src/Polly.Contrib.CachePolicy/AsyncCachePolicy.cs:88-92 | a fresh cached value is returned without calling the backend, stamping, writing or logging a backend get |
| Policy.WriteExactlyWhen | src/Polly.Contrib.CachePolicy/AsyncCachePolicy.cs:103-120 | a write is scheduled iff there is no fresh hit, the result is non-null and unhandled, the grace call succeeds, now + grace is representable, the expiration call succeeds and the expiration is nonzero; its TTL is that expiration |
| Policy.StampedEvenWithoutWrite | src/Polly.Contrib.CachePolicy/AsyncCachePolicy.cs:106-112 | when now + grace is representable, an unhandled non-null result is stamped with it even when the expiration is zero and nothing is written |
| Policy.StampOutOfRangeLikeBackendFailure | src/Polly.Contrib.CachePolicy/AsyncCachePolicy.cs:106-151 | a grace that takes the stamp out of range throws inside the try block: no stamp and no write, and the call completes and logs exactly as if the backend had thrown that ArgumentOutOfRangeException |
| Policy.NullResultNeverWritten | src/Polly.Contrib.CachePolicy/AsyncCachePolicy.cs:103-107 | a null result is never stamped or written, and the aging strategy is never consulted for it |
| Policy.HandledResultFallsBack | src/Polly.Contrib.CachePolicy/AsyncCachePolicy.cs:123-133 | a handled result returns the cached value if one was read and the result itself otherwise, without stamp or write, logged as success with that fallback flag |
| Policy.ExceptionFallsBackOnlyWhenHandled | src/Polly.Contrib.CachePolicy/AsyncCachePolicy.cs:135-151 | an exception returns the cached value iff a predicate handles it and a value was read; otherwise it is rethrown unchanged |
| Policy.AgingFailureLikeBackendFailure | src/Polly.Contrib.CachePolicy/AsyncCachePolicy.cs:100-151 | an exception from the aging strategy's grace call inside the try block is handled exactly like the same exception from the backend |
| Policy.ExpirationFailureKeepsStamp | src/Polly.Contrib.CachePolicy/AsyncCachePolicy.cs:108-151 | an exception from the expiration call completes and logs like the same exception from the backend, nothing is written, and the grace time stamp already set stays on the result |
| Policy.FixedStrategyStamps | src/Polly.Contrib.CachePolicy/AsyncCachePolicy.cs:106-112 | with the fixed strategy, an unhandled non-null result is stamped with now + configured grace and written iff the configured expiration is nonzero, provided the stamp is representable; otherwise the call behaves as if the backend had thrown ArgumentOutOfRangeException |
| Builder.AsyncCachePolicyBuilder.New | src/Polly.Contrib.CachePolicy/Builder/AsyncCachePolicyBuilder.cs:52-65 | fails on a null cache provider, then on a null logging provider; the aging strategy is not checked; otherwise a builder with no predicate set |
| Builder.AsyncCachePolicyBuilder.FallbackToCacheWhenThrows | src/Polly.Contrib.CachePolicy/Builder/AsyncCachePolicyBuilder.cs:68-73 | replaces the predicate set with a new one holding only "any TException", and returns the same builder |
| Builder.AsyncCachePolicyBuilder.FallbackToCacheWhenReturns | src/Polly.Contrib.CachePolicy/Builder/AsyncCachePolicyBuilder.cs:76-80 | replaces the predicate set with a new one holding only "returns this object", and returns the same builder |
| Builder.AsyncCachePolicyBuilder.FallbackToCacheWhenThrowsMatching | src/Polly.Contrib.CachePolicy/Builder/AsyncCachePolicyBuilder.cs:83-88 | replaces the predicate set with a new one holding only the filtered exception alternative, and returns the same builder |
| Builder.AsyncCachePolicyBuilder.FallbackToCacheWhenReturnsMatching | src/Polly.Contrib.CachePolicy/Builder/AsyncCachePolicyBuilder.cs:91-95 | replaces the predicate set with a new one holding only the result predicate, and returns the same builder |
| Builder.AsyncCachePolicyBuilder.OrFallbackToCacheWhenThrows | src/Polly.Contrib.CachePolicy/Builder/AsyncCachePolicyBuilder.cs:98-103 | with no predicate set, throws NullReferenceException; otherwise appends "any TException" to the same set, keeps every earlier alternative in order, and returns the same builder |
| Builder.AsyncCachePolicyBuilder.OrFallbackToCacheWhenReturns | src/Polly.Contrib.CachePolicy/Builder/AsyncCachePolicyBuilder.cs:106-110 | the same for a result-equality alternative |
| Builder.AsyncCachePolicyBuilder.OrFallbackToCacheWhenThrowsMatching | src/Polly.Contrib.CachePolicy/Builder/AsyncCachePolicyBuilder.cs:113-118 | the same for a filtered exception alternative |
| Builder.AsyncCachePolicyBuilder.OrFallbackToCacheWhenReturnsMatching | src/Polly.Contrib.CachePolicy/Builder/AsyncCachePolicyBuilder.cs:121-125 | the same for a result predicate |
| Builder.AsyncCachePolicyBuilder.Build | src/Polly.Contrib.CachePolicy/Builder/AsyncCachePolicyBuilder.cs:128-136 | a policy with exactly the builder's flag, dependencies and current predicate set (shared, not copied); fails only when the aging strategy is null; no "at least one alternative" check |
| Syntax.CreateBuilder | src/Polly.Contrib.CachePolicy/Syntax/AsyncCachePolicySyntax.cs:24-39 | fails exactly as DependencyChecks says (aging, then cache, then logging); otherwise a builder carrying the same flag and dependencies, whose Build therefore cannot fail |

## Left out

- The background write's concurrency is not modelled. `Task.Run` becomes a returned `PendingWrite` that `CompleteWrite` performs at any later point. Interleavings, lost writes, thundering herds and cancellation are not modelled.
- Latencies (`Stopwatch`) and the `Context` forwarded to the logging callbacks are not recorded. Neither influences any decision.
- The logging sinks (`LoggingProvider`, `IOperationalMetricLogger`, their options) are not modelled. The serialize, deserialize, compress and decompress callbacks of `ILoggingProvider` are also left out, because the modelled code never calls them.
- Each call reads the clock once. `DateTimeOffset.Now` is read separately by `IsFresh` and `SetGraceTimeStamp`, but within one call the model uses a single `now`.
- External libraries are left out: Newtonsoft's text layer, protobuf-net's wire format, LZ4 and the "o" date format. They are codecs or compressors whose round trip is a stated hypothesis. Their internals, error messages and the order in which Newtonsoft reports errors are not modelled.
- JSON member matching folds case for ASCII letters only. .NET's culture-invariant folding of other letters is not modelled.
- ReadBool: `bool.TryParse` also trims surrounding white space. The model accepts only exactly "true"/"false" in any letter case. JSON numbers are integers only, so floating-point values are not modelled.
- ReadString: follows `JsonTextReader` in Newtonsoft.Json 9.0.1 and later, where a JSON bool becomes "true"/"false". A number is modelled by its integer value, so its text is the canonical decimal text. Newtonsoft keeps the raw number text, so "-0" stays "-0" where the model gives "0".
- GraceStamp: the range check is on the clock time plus the duration. The `DateTimeOffset` constructor's separate check that the UTC time stays in range depends on the local offset and is not modelled.
- A cached object carries one string member of its own, standing for the derived type's data. `CacheValue`'s members `IsFresh`, `SetGraceTimeStamp`, `GraceTimeStamp` and `IsNull` are virtual, and a derived type may override them. The test suite's `ClassToCache` overrides `IsFresh` with a stored flag. The model fixes the base class's freshness rule and stamp for every cached type, in the policy's fresh-hit check and in the providers' freshness report. Overridden behaviour is not modelled.
- User-supplied exception and result predicates are total functions. A predicate that throws is not modelled.
- `HandleResult(result)` compares by reference, which is `CacheValue`'s default `Equals`. A derived type that overrides `Equals` is not modelled.
- Entry expiry inside the distributed cache (eviction after the TTL) is not modelled. The store is a map, and each call's failure is a parameter.
- The policy calls the cache provider through `ICacheProvider`. The model wires it to `CacheProvider`, the primary flow. Calling `PlainTextCacheProvider` from the policy is not modelled, because its five-argument `SetAsync` is not the call the policy makes.
- The signature mismatches are not modelled:
  - `ICacheProvider.SetAsync` has a grace argument that `CacheProvider` lacks.
  - The serializer and compressor interfaces declare a `Context` argument that the implementations omit.
  - `PlainTextCacheProvider` passes a `Context` to the serializer.
  
  The model follows the implementations.
- `ProtobufSerializer`: serializing a null `CacheValue` is not modelled. The pipeline functions take a value.
- `PolicyBuilderUtilities` is not modelled. It is dependency-injection wiring that refers to generic provider types that do not exist in this code.
- The interface-only files are not modelled separately: `IAgingStrategy`, `ICacheProvider`, the serializer, compressor and builder-step interfaces. `IAgingStrategy` is the `AgingStrategy` datatype, and the others are the concrete members above.
- `LZ4PicklerBinaryCompressor` is not modelled beyond the `BinaryCompressor` it instantiates.
