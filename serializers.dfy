/**
 * NewtonsoftJsonSerializer: a cached value as JSON text, then compressed by
 * the configured plaintext compressor; reading runs the two stages in the
 * inverse order.  Neither direction catches anything: a failure of either
 * stage is the failure of the call.
 */
module Serializers {
  import opened Wrappers
  import opened Exceptions
  import opened Codecs
  import opened Compressors
  import opened CacheValues
  import opened Json
  import Guards

  datatype NewtonsoftJsonSerializer = NewtonsoftJsonSerializer(plaintextCompressor: PlaintextCompressor, json: JsonConvert)

  /** The constructor: a null compressor is rejected. */
  function NewNewtonsoftJsonSerializer(plaintextCompressor: Option<PlaintextCompressor>, json: JsonConvert)
    : (r: Result<NewtonsoftJsonSerializer, Exception>)
    ensures r.Failure? <==> plaintextCompressor.None?
    ensures r.Failure? ==> r.error == ArgumentNullException("plaintextCompressor")
    ensures r.Success? ==> r.value.plaintextCompressor == plaintextCompressor.value && r.value.json == json
  {
    match Guards.ThrowIfNull(plaintextCompressor, "plaintextCompressor")
    case Fail(e) => Failure(e)
    case Pass => Success(NewtonsoftJsonSerializer(plaintextCompressor.value, json))
  }

  /** SerializeToString: JSON first, compression second; a compression failure propagates. */
  function SerializeToString(s: NewtonsoftJsonSerializer, data: Option<ValueData>): Result<string, Exception> {
    s.plaintextCompressor.compress(SerializeObject(s.json, data))
  }

  /** DeserializeFromString: decompression first, JSON second; failures propagate. */
  function DeserializeFromString(s: NewtonsoftJsonSerializer, data: string): Result<Option<ValueData>, Exception> {
    match s.plaintextCompressor.decompress(data)
    case Failure(e) => Failure(e)
    case Success(uncompressed) => DeserializeObject(s.json, uncompressed)
  }

  /** The text round trip, given that the compressor and JSON each round-trip. */
  lemma PlainTextRoundTrip(s: NewtonsoftJsonSerializer, v: Option<ValueData>)
    requires Restores(s.plaintextCompressor) && RoundTrips(s.json.text) && RoundTrips(s.json.dates)
    ensures SerializeToString(s, v).Success?
    ensures DeserializeFromString(s, SerializeToString(s, v).value) == Success(v)
  {
    var text := SerializeObject(s.json, v);
    assert s.plaintextCompressor.compress(text).Success?;
    assert s.plaintextCompressor.decompress(s.plaintextCompressor.compress(text).value) == Success(text);
    JsonRoundTrip(s.json, v);
  }

  /** With the no-op compressor the stored text is exactly the JSON text, and reading
      it is exactly JSON deserialization. */
  lemma NoOpStoresJsonText(json: JsonConvert, v: Option<ValueData>, data: string)
    ensures SerializeToString(NewtonsoftJsonSerializer(NoOpPlaintextCompressor(), json), v) == Success(SerializeObject(json, v))
    ensures DeserializeFromString(NewtonsoftJsonSerializer(NoOpPlaintextCompressor(), json), data)
            == DeserializeObject(json, data)
  {
  }

  /** A compression failure is the failure of the whole write; no text is produced. */
  lemma CompressFailurePropagates(s: NewtonsoftJsonSerializer, v: Option<ValueData>)
    requires s.plaintextCompressor.compress(SerializeObject(s.json, v)).Failure?
    ensures SerializeToString(s, v) == Failure(s.plaintextCompressor.compress(SerializeObject(s.json, v)).error)
  {
  }

  /** A decompression failure is the failure of the whole read; JSON is never consulted. */
  lemma DecompressFailurePropagates(s: NewtonsoftJsonSerializer, data: string)
    requires s.plaintextCompressor.decompress(data).Failure?
    ensures DeserializeFromString(s, data) == Failure(s.plaintextCompressor.decompress(data).error)
  {
  }

  /** A JSON failure after a successful decompression is the failure of the whole read. */
  lemma JsonFailurePropagates(s: NewtonsoftJsonSerializer, data: string)
    requires s.plaintextCompressor.decompress(data).Success?
    requires DeserializeObject(s.json, s.plaintextCompressor.decompress(data).value).Failure?
    ensures DeserializeFromString(s, data) == DeserializeObject(s.json, s.plaintextCompressor.decompress(data).value)
  {
  }
}
