/**
 * The part of the ring crate's `digest` API that the ring backend uses.
 *
 * ring is a foreign library: the digest function an algorithm computes
 * (SHA-256, SHA-384 of FIPS 180-4) is not modelled. An `Algorithm` carries it
 * as an uninterpreted function, and a running `Context` is represented by the
 * bytes it has absorbed, which determine its internal block state.
 */
module RingDigest {
  import opened Base
  import CryptoHash

  /** `ring::digest::Algorithm`: the output length and the digest function. */
  datatype Algorithm = Algorithm(outputLen: nat, digest: seq<u8> -> seq<u8>) {

    /** What ring guarantees of its algorithms: every digest has `outputLen` bytes, at most 64. */
    ghost predicate Valid() {
      && outputLen <= CryptoHash.HASH_MAX_OUTPUT
      && forall data :: |digest(data)| == outputLen
    }
  }

  /** `ring::digest::Digest`: a finished digest value. */
  datatype Digest = Digest(algorithm: Algorithm, value: seq<u8>) {
    function AsRef(): seq<u8> {
      value
    }
  }

  /** `ring::digest::Context`, as a value: cloning it is copying it. */
  datatype DigestContext = DigestContext(algorithm: Algorithm, absorbed: seq<u8>) {

    static function New(algorithm: Algorithm): DigestContext {
      DigestContext(algorithm, [])
    }

    function Update(data: seq<u8>): DigestContext {
      this.(absorbed := absorbed + data)
    }

    function Finish(): Digest {
      Digest(algorithm, algorithm.digest(absorbed))
    }
  }
}
