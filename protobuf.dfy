/**
 * ProtobufSerializer: a cached value as a protobuf message (members 1, 2, 3
 * of the serialized type), DateTimeOffset carried by a surrogate message
 * whose member 1 is the timestamp's ISO 8601 round-trip ("o") text, then
 * compressed.  The wire encoding, the "o" text and the compressor are
 * external codecs.
 */
module Protobuf {
  import opened Wrappers
  import opened Exceptions
  import opened Codecs
  import opened Compressors
  import opened CacheValues
  import Guards

  datatype ProtoValue = Varint(n: int) | Chars(s: string) | Message(fields: seq<ProtoField>)

  datatype ProtoField = ProtoField(number: nat, value: ProtoValue)

  /** The external parts of protobuf-net as used here: the wire format, and the
      DateTimeOffset text conversions the surrogate performs. */
  datatype ProtobufRuntime = ProtobufRuntime(wire: Codec<seq<ProtoField>, Bytes>, dates: Codec<int, string>)

  /** What protobuf-net throws on a field of the wrong wire type. */
  const ProtoError: Exception := Raised(["ProtoException"], "Invalid wire-type")

  const GraceTimeStampField: nat := 1
  const IsNullField: nat := 2
  const ChildField: nat := 3
  const DateTimeStringField: nat := 1

  /** The value of the last occurrence of a field number (later occurrences overwrite). */
  function LastField(fields: seq<ProtoField>, number: nat): Option<ProtoValue> {
    if fields == [] then None
    else if fields[|fields| - 1].number == number then Some(fields[|fields| - 1].value)
    else LastField(fields[..|fields| - 1], number)
  }

  /** DateTimeOffset to DateTimeOffsetSurrogate. */
  function ToSurrogate(dates: Codec<int, string>, t: int): (v: ProtoValue)
    ensures v.Message? && LastField(v.fields, DateTimeStringField) == Some(Chars(dates.encode(t)))
  {
    Message([ProtoField(DateTimeStringField, Chars(dates.encode(t)))])
  }

  /** DateTimeOffsetSurrogate to DateTimeOffset: `DateTimeOffset.Parse` of its string,
      which throws ArgumentNullException when the string is missing. */
  function FromSurrogate(dates: Codec<int, string>, v: ProtoValue): (r: Result<int, Exception>)
    ensures v.Message? && LastField(v.fields, DateTimeStringField).None? ==> r == Failure(ArgumentNullException("input"))
    ensures r.Success? ==> v.Message? && LastField(v.fields, DateTimeStringField).Some?
                           && LastField(v.fields, DateTimeStringField).value.Chars?
                           && dates.decode(LastField(v.fields, DateTimeStringField).value.s) == r
  {
    match v
    case Message(fields) =>
      (match LastField(fields, DateTimeStringField)
       case None => Failure(ArgumentNullException("input"))
       case Some(Chars(s)) => dates.decode(s)
       case Some(_) => Failure(ProtoError))
    case _ => Failure(ProtoError)
  }

  /** The message of a value: null and default members are not written. */
  function ToMessage(dates: Codec<int, string>, d: ValueData): seq<ProtoField> {
    (if d.graceTimeStamp.Some? then [ProtoField(GraceTimeStampField, ToSurrogate(dates, d.graceTimeStamp.value))] else [])
    + (if d.isNull then [ProtoField(IsNullField, Varint(1))] else [])
    + (if d.child.Some? then [ProtoField(ChildField, Chars(d.child.value))] else [])
  }

  /** A value from a message: absent members keep their defaults. */
  function FromMessage(dates: Codec<int, string>, fields: seq<ProtoField>): Result<ValueData, Exception> {
    var grace: Result<Option<int>, Exception> :=
      match LastField(fields, GraceTimeStampField)
      case None => Success(None)
      case Some(v) => (match FromSurrogate(dates, v) case Success(t) => Success(Some(t)) case Failure(e) => Failure(e));
    var isNull: Result<bool, Exception> :=
      match LastField(fields, IsNullField)
      case None => Success(false)
      case Some(Varint(n)) => Success(n != 0)
      case Some(_) => Failure(ProtoError);
    var child: Result<Option<string>, Exception> :=
      match LastField(fields, ChildField)
      case None => Success(None)
      case Some(Chars(s)) => Success(Some(s))
      case Some(_) => Failure(ProtoError);
    if grace.Failure? then Failure(grace.error)
    else if isNull.Failure? then Failure(isNull.error)
    else if child.Failure? then Failure(child.error)
    else Success(ValueData(grace.value, isNull.value, child.value))
  }

  /** RuntimeTypeModel.Default, the process-wide protobuf-net type model. */
  class RuntimeTypeModel {
    /** Whether DateTimeOffset can be serialized (its surrogate is registered). */
    var canSerializeDateTimeOffset: bool

    constructor ()
      ensures !canSerializeDateTimeOffset
    {
      canSerializeDateTimeOffset := false;
    }
  }

  datatype ProtobufSerializer = ProtobufSerializer(binaryCompressor: BinaryCompressor, runtime: ProtobufRuntime)

  /** The constructor: rejects a null compressor before anything else, then registers the
      DateTimeOffset surrogate unless the type model can already serialize it. */
  method NewProtobufSerializer(binaryCompressor: Option<BinaryCompressor>, runtime: ProtobufRuntime, model: RuntimeTypeModel)
    returns (r: Result<ProtobufSerializer, Exception>)
    modifies model
    ensures r.Failure? <==> binaryCompressor.None?
    ensures r.Failure? ==> r.error == ArgumentNullException("binaryCompressor") && unchanged(model)
    ensures r.Success? ==> r.value == ProtobufSerializer(binaryCompressor.value, runtime)
                           && model.canSerializeDateTimeOffset
    ensures old(model.canSerializeDateTimeOffset) ==> unchanged(model)
  {
    var check := Guards.ThrowIfNull(binaryCompressor, "binaryCompressor");
    if check.Fail? {
      return Failure(check.error);
    }
    if !model.canSerializeDateTimeOffset {
      model.canSerializeDateTimeOffset := true;
    }
    r := Success(ProtobufSerializer(binaryCompressor.value, runtime));
  }

  /** SerializeToBytes: protobuf encoding first, compression second; a compression failure
      propagates. */
  function SerializeToBytes(s: ProtobufSerializer, data: ValueData): Result<Bytes, Exception> {
    s.binaryCompressor.compress(s.runtime.wire.encode(ToMessage(s.runtime.dates, data)))
  }

  /** DeserializeFromBytes: decompression first, protobuf decoding second; failures propagate. */
  function DeserializeFromBytes(s: ProtobufSerializer, data: Bytes): Result<ValueData, Exception> {
    match s.binaryCompressor.decompress(data)
    case Failure(e) => Failure(e)
    case Success(uncompressed) =>
      (match s.runtime.wire.decode(uncompressed)
       case Failure(e) => Failure(e)
       case Success(fields) => FromMessage(s.runtime.dates, fields))
  }

  lemma LastFieldStep(fields: seq<ProtoField>, f: ProtoField, number: nat)
    ensures f.number == number ==> LastField(fields + [f], number) == Some(f.value)
    ensures f.number != number ==> LastField(fields + [f], number) == LastField(fields, number)
  {
    assert (fields + [f])[..|fields|] == fields;
  }

  /** The surrogate carries a timestamp through, given that the "o" text round-trips. */
  lemma SurrogateRoundTrip(dates: Codec<int, string>, t: int)
    requires RoundTrips(dates)
    ensures FromSurrogate(dates, ToSurrogate(dates, t)) == Success(t)
  {
    LastFieldStep([], ProtoField(DateTimeStringField, Chars(dates.encode(t))), DateTimeStringField);
    assert [] + [ProtoField(DateTimeStringField, Chars(dates.encode(t)))] == ToSurrogate(dates, t).fields;
    assert dates.decode(dates.encode(t)) == Success(t);
  }

  /** Decoding the message of a value gives the value back: the grace time stamp (present
      or absent), the null sentinel and the child member. */
  lemma MessageRoundTrip(dates: Codec<int, string>, d: ValueData)
    requires RoundTrips(dates)
    ensures FromMessage(dates, ToMessage(dates, d)) == Success(d)
  {
    var g: seq<ProtoField> := if d.graceTimeStamp.Some? then [ProtoField(GraceTimeStampField, ToSurrogate(dates, d.graceTimeStamp.value))] else [];
    var n: seq<ProtoField> := if d.isNull then [ProtoField(IsNullField, Varint(1))] else [];
    var c: seq<ProtoField> := if d.child.Some? then [ProtoField(ChildField, Chars(d.child.value))] else [];
    var fields := ToMessage(dates, d);
    assert fields == g + n + c;
    // the child member is last, if present
    if d.child.Some? {
      LastFieldStep(g + n, c[0], ChildField);
      LastFieldStep(g + n, c[0], IsNullField);
      LastFieldStep(g + n, c[0], GraceTimeStampField);
      assert g + n + c == (g + n) + [c[0]];
    } else {
      assert g + n + c == g + n;
    }
    assert LastField(fields, ChildField) == if d.child.Some? then Some(Chars(d.child.value)) else LastField(g + n, ChildField);
    if d.isNull {
      LastFieldStep(g, n[0], IsNullField);
      LastFieldStep(g, n[0], GraceTimeStampField);
      LastFieldStep(g, n[0], ChildField);
      assert g + n == g + [n[0]];
    } else {
      assert g + n == g;
    }
    if d.graceTimeStamp.Some? {
      LastFieldStep([], g[0], GraceTimeStampField);
      LastFieldStep([], g[0], IsNullField);
      LastFieldStep([], g[0], ChildField);
      assert [] + [g[0]] == g;
      SurrogateRoundTrip(dates, d.graceTimeStamp.value);
    }
  }

  /** The binary round trip, given that the compressor, the wire format and the "o" text
      each round-trip. */
  lemma ProtobufRoundTrip(s: ProtobufSerializer, d: ValueData)
    requires Restores(s.binaryCompressor) && RoundTrips(s.runtime.wire) && RoundTrips(s.runtime.dates)
    ensures SerializeToBytes(s, d).Success?
    ensures DeserializeFromBytes(s, SerializeToBytes(s, d).value) == Success(d)
  {
    var fields := ToMessage(s.runtime.dates, d);
    var raw := s.runtime.wire.encode(fields);
    assert s.binaryCompressor.compress(raw).Success?;
    assert s.binaryCompressor.decompress(s.binaryCompressor.compress(raw).value) == Success(raw);
    assert s.runtime.wire.decode(raw) == Success(fields);
    MessageRoundTrip(s.runtime.dates, d);
  }

  /** A compression failure is the failure of the whole write; no bytes are produced. */
  lemma CompressFailurePropagates(s: ProtobufSerializer, d: ValueData)
    requires s.binaryCompressor.compress(s.runtime.wire.encode(ToMessage(s.runtime.dates, d))).Failure?
    ensures SerializeToBytes(s, d) == Failure(s.binaryCompressor.compress(s.runtime.wire.encode(ToMessage(s.runtime.dates, d))).error)
  {
  }
}
