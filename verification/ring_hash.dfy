/**
 * The ring backend's hash: one `Hash` record per algorithm, holding ring's
 * algorithm descriptor, the TLS identifier and the precomputed digest of the
 * empty input, and a `Context` that wraps a running ring digest.
 */
module RingHash {
  import opened Base
  import opened CryptoHash
  import opened RingDigest

  /** SHA-256 of the empty input, as compiled into the `SHA256` static. */
  const SHA256_EMPTY: seq<u8> := [
    0xe3, 0xb0, 0xc4, 0x42, 0x98, 0xfc, 0x1c, 0x14, 0x9a, 0xfb, 0xf4, 0xc8, 0x99, 0x6f, 0xb9,
    0x24, 0x27, 0xae, 0x41, 0xe4, 0x64, 0x9b, 0x93, 0x4c, 0xa4, 0x95, 0x99, 0x1b, 0x78, 0x52,
    0xb8, 0x55
  ]

  /** SHA-384 of the empty input, as compiled into the `SHA384` static. */
  const SHA384_EMPTY: seq<u8> := [
    0x38, 0xb0, 0x60, 0xa7, 0x51, 0xac, 0x96, 0x38, 0x4c, 0xd9, 0x32, 0x7e, 0xb1, 0xb1, 0xe3,
    0x6a, 0x21, 0xfd, 0xb7, 0x11, 0x14, 0xbe, 0x07, 0x43, 0x4c, 0x0c, 0xc7, 0xbf, 0x63, 0xf6,
    0xe1, 0xda, 0x27, 0x4e, 0xde, 0xbf, 0xe7, 0x6f, 0x65, 0xfb, 0xd5, 0x1a, 0xd2, 0xf1, 0x48,
    0x98, 0xb9, 0x5b
  ]

  /** The output that hashing `data` with `algorithm` must give. */
  function DigestOutput(algorithm: Algorithm, data: seq<u8>): (o: Output)
    requires algorithm.Valid()
    ensures o.Valid()
    ensures o.AsRef() == algorithm.digest(data)
    ensures |o.AsRef()| == algorithm.outputLen
  {
    OutputOf(algorithm.digest(data))
  }

  /** `From<ring::digest::Digest> for Output`: the digest's bytes, through `Output::new`. */
  method FromDigest(d: Digest) returns (o: Output)
    requires |d.AsRef()| <= HASH_MAX_OUTPUT
    ensures o.Valid() && o.AsRef() == d.AsRef()
    ensures o == OutputOf(d.AsRef())
  {
    o := NewOutput(d.AsRef());
  }

  /** The backend's hash: ring's descriptor, the algorithm identifier and the empty-input digest. */
  datatype Hash = Hash(algorithm: Algorithm, id: HashAlgorithm, empty: seq<u8>) {

    ghost predicate Valid() {
      algorithm.Valid() && |empty| <= HASH_MAX_OUTPUT
    }

    /**
     * The compiled-in literal really is the digest of the empty input. This is
     * a fact about SHA-256 and SHA-384, which this model leaves uninterpreted,
     * so it is taken as a hypothesis wherever it is needed.
     */
    ghost predicate EmptyLiteralIsDigest() {
      algorithm.digest([]) == empty
    }

    /** `algorithm()`: the identifier this hash was built with. */
    function AlgorithmId(): (r: HashAlgorithm)
      ensures r == id
    {
      id
    }

    /** `output_len()`: ring's output length, the length of every digest, within the 64-byte cap. */
    function OutputLen(): (r: nat)
      ensures algorithm.Valid() ==> r <= HASH_MAX_OUTPUT
      ensures algorithm.Valid() ==> forall data :: |algorithm.digest(data)| == r
    {
      algorithm.outputLen
    }

    /** A fresh, live context that has absorbed nothing. */
    method Start() returns (c: Context)
      requires Valid()
      ensures fresh(c) && c.Valid() && c.live
      ensures c.state.algorithm == algorithm && c.Absorbed() == []
    {
      c := new Context(DigestContext.New(algorithm));
    }

    /** The precomputed empty-input digest; under the literal hypothesis, `compute([])`. */
    method ComputeEmpty() returns (o: Output)
      requires Valid()
      ensures o.Valid() && o.AsRef() == empty
      ensures EmptyLiteralIsDigest() ==> o == DigestOutput(algorithm, [])
    {
      o := NewOutput(empty);
    }

    /** One-shot hashing: a fresh ring context, one update, then finish. */
    method Compute(bytes: seq<u8>) returns (o: Output)
      requires Valid()
      ensures o == DigestOutput(algorithm, bytes)
      ensures |o.AsRef()| == OutputLen()
    {
      var ctx := DigestContext.New(algorithm);
      ctx := ctx.Update(bytes);
      assert ctx.absorbed == bytes;
      o := FromDigest(ctx.Finish());
    }

    /** The `Hash` interface's default `compute_empty`, which the ring backend overrides. */
    method DefaultComputeEmpty() returns (o: Output)
      requires Valid()
      ensures o == DigestOutput(algorithm, [])
      ensures o.AsRef() == algorithm.digest([])
    {
      o := Compute([]);
    }
  }

  /** The `SHA256` static, built on ring's SHA-256 descriptor (32-byte output). */
  function Sha256(sha256: Algorithm): (h: Hash)
    requires sha256.Valid() && sha256.outputLen == 32
    ensures h.Valid() && h.algorithm == sha256
    ensures h.AlgorithmId() == HashAlgorithm.SHA256
    ensures |h.empty| == h.OutputLen() == 32
  {
    Hash(sha256, HashAlgorithm.SHA256, SHA256_EMPTY)
  }

  /** The `SHA384` static, built on ring's SHA-384 descriptor (48-byte output). */
  function Sha384(sha384: Algorithm): (h: Hash)
    requires sha384.Valid() && sha384.outputLen == 48
    ensures h.Valid() && h.algorithm == sha384
    ensures h.AlgorithmId() == HashAlgorithm.SHA384
    ensures |h.empty| == h.OutputLen() == 48
  {
    Hash(sha384, HashAlgorithm.SHA384, SHA384_EMPTY)
  }

  /**
   * A running hash computation: the wrapped ring context and whether the
   * context is still live (`finish` consumes it).
   */
  class Context {
    var state: DigestContext
    var live: bool

    ghost predicate Valid()
      reads this
    {
      state.algorithm.Valid()
    }

    /** Everything added with `update` so far. */
    ghost function Absorbed(): seq<u8>
      reads this
    {
      state.absorbed
    }

    constructor (state: DigestContext)
      requires state.algorithm.Valid()
      ensures Valid() && live && this.state == state
    {
      this.state := state;
      live := true;
    }

    /** Appends `data` to the computation; nothing else changes. */
    method Update(data: seq<u8>)
      requires Valid() && live
      modifies this
      ensures Valid() && live
      ensures state.algorithm == old(state.algorithm)
      ensures Absorbed() == old(Absorbed()) + data
    {
      state := state.Update(data);
    }

    /** A new, independent context with the same prefix as this one. */
    method Fork() returns (c: Context)
      requires Valid() && live
      ensures fresh(c) && c.Valid() && c.live
      ensures c.state.algorithm == state.algorithm && c.Absorbed() == Absorbed()
    {
      c := new Context(state);
    }

    /** The digest of the data so far; this context stays live and unchanged. */
    method ForkFinish() returns (o: Output)
      requires Valid() && live
      ensures o == DigestOutput(state.algorithm, Absorbed())
    {
      var copy := state;
      o := FromDigest(copy.Finish());
    }

    /** The digest of everything added; the context is consumed. */
    method Finish() returns (o: Output)
      requires Valid() && live
      modifies this
      ensures !live && state == old(state)
      ensures o == DigestOutput(state.algorithm, Absorbed())
    {
      o := FromDigest(state.Finish());
      live := false;
    }
  }
}
