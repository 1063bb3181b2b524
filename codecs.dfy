/**
 * A codec is a pair of conversions between a value and its representation.
 * Encoding is total; decoding may throw.  The external libraries (the JSON
 * text writer/reader, the protobuf wire format, the ISO 8601 text of a
 * DateTimeOffset) are codecs whose internals are not modelled;
 * what the cache relies on is that they round-trip, stated by `RoundTrips`.
 */
module Codecs {
  import opened Wrappers
  import opened Exceptions

  datatype Codec<!A, !B> = Codec(encode: A -> B, decode: B -> Result<A, Exception>)

  /** Decoding an encoding gives back the original value. */
  ghost predicate RoundTrips<A(!new), B>(c: Codec<A, B>) {
    forall a :: c.decode(c.encode(a)) == Success(a)
  }
}
