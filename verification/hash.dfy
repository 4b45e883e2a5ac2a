/**
 * The hashing interface: the fixed-capacity digest value `Output`.
 *
 * The `Hash` and `Context` interfaces of the same source file are modelled
 * only through their ring backend implementation (module RingHash), which
 * carries their contracts.
 */
module CryptoHash {
  import opened Base

  /** Largest hash output supported: enough for SHA-512. */
  const HASH_MAX_OUTPUT: nat := 64

  /**
   * Digest algorithm identifiers, as in the TLS HashAlgorithm registry
   * (section 7.4.1.4.1 of RFC 5246), with a catch-all for unknown codes.
   */
  datatype HashAlgorithm = NONE | MD5 | SHA1 | SHA224 | SHA256 | SHA384 | SHA512 | Unknown(code: u8)

  /** A hash output stored by value: a 64-byte buffer and the number of bytes in use. */
  datatype Output = Output(buf: seq<u8>, used: nat) {

    /** The struct's invariant: the buffer has the full capacity and `used` fits in it. */
    predicate Valid() {
      |buf| == HASH_MAX_OUTPUT && used <= HASH_MAX_OUTPUT
    }

    /** The bytes of the output: the first `used` bytes of the buffer. */
    function AsRef(): (r: seq<u8>)
      requires Valid()
      ensures |r| == used
      ensures forall i | 0 <= i < used :: r[i] == buf[i]
    {
      buf[..used]
    }
  }

  function Zeros(n: nat): (z: seq<u8>)
    ensures |z| == n
    ensures forall i | 0 <= i < n :: z[i] == 0
  {
    seq(n, _ => 0)
  }

  /**
   * The value `Output::new(bytes)` builds: `bytes` in the prefix of the buffer,
   * zeros after it. Defined only for inputs that fit; longer ones make the
   * slice copy panic.
   */
  function OutputOf(bytes: seq<u8>): (o: Output)
    requires |bytes| <= HASH_MAX_OUTPUT
    ensures o.Valid() && o.used == |bytes|
    ensures o.AsRef() == bytes
    ensures forall i | |bytes| <= i < HASH_MAX_OUTPUT :: o.buf[i] == 0
  {
    Output(bytes + Zeros(HASH_MAX_OUTPUT - |bytes|), |bytes|)
  }

  /** An output is determined by its bytes: two outputs built from different bytes differ. */
  lemma OutputOfInjective(a: seq<u8>, b: seq<u8>)
    requires |a| <= HASH_MAX_OUTPUT && |b| <= HASH_MAX_OUTPUT
    ensures OutputOf(a) == OutputOf(b) <==> a == b
  {
  }

  /** `Output::new`: a zero-filled 64-byte array whose prefix receives a copy of `bytes`. */
  method NewOutput(bytes: seq<u8>) returns (o: Output)
    requires |bytes| <= HASH_MAX_OUTPUT
    ensures o == OutputOf(bytes)
  {
    var buf := new u8[HASH_MAX_OUTPUT](_ => 0);
    for i := 0 to |bytes|
      invariant buf[..i] == bytes[..i]
      invariant forall k | i <= k < HASH_MAX_OUTPUT :: buf[k] == 0
    {
      buf[i] := bytes[i];
    }
    assert buf[..] == bytes + Zeros(HASH_MAX_OUTPUT - |bytes|) by {
      assert buf[..|bytes|] == bytes;
    }
    o := Output(buf[..], |bytes|);
  }
}
