/**
 * Compression stages of the round-trip pipeline: IPlaintextCompressor with
 * its no-op implementation, and IBinaryCompressor (implemented by LZ4
 * pickling, an external library).  Both interfaces are open to callers'
 * implementations, so either direction may throw.
 */
module Compressors {
  import opened Wrappers
  import opened Exceptions

  newtype byte = x: int | 0 <= x < 256

  type Bytes = seq<byte>

  /** A compressor of values of type T: Compress and Decompress, each of which may throw. */
  datatype Compressor<!T> = Compressor(compress: T -> Result<T, Exception>, decompress: T -> Result<T, Exception>)

  /** Compress never throws, and Decompress gives back what was compressed. */
  ghost predicate Restores<T(!new)>(c: Compressor<T>) {
    forall x :: c.compress(x).Success? && c.decompress(c.compress(x).value) == Success(x)
  }

  /** IPlaintextCompressor. */
  type PlaintextCompressor = Compressor<string>

  /** IBinaryCompressor. */
  type BinaryCompressor = Compressor<Bytes>

  /** NoOpPlaintextCompressor.Compress: the input itself, null included. */
  function NoOpCompress<T>(input: T): T {
    input
  }

  /** NoOpPlaintextCompressor.Decompress: the input itself, null included. */
  function NoOpDecompress<T>(input: T): T {
    input
  }

  function NoOpPlaintextCompressor(): PlaintextCompressor {
    Compressor(s => Success(NoOpCompress(s)), s => Success(NoOpDecompress(s)))
  }

  /** Both stages are the identity, so each undoes the other and Compress is idempotent;
      a null string (None) passes through unchanged. */
  lemma NoOpIsIdentity<T>(x: T)
    ensures NoOpCompress(x) == x && NoOpDecompress(x) == x
    ensures NoOpDecompress(NoOpCompress(x)) == x && NoOpCompress(NoOpDecompress(x)) == x
    ensures NoOpCompress(NoOpCompress(x)) == NoOpCompress(x)
  {
  }

  lemma NoOpRoundTrips()
    ensures Restores(NoOpPlaintextCompressor())
  {
  }
}
