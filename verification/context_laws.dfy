/**
 * The laws a hash context promises its users (a handshake transcript taking
 * checkpoints), stated as client programs over the ring backend's `Hash`
 * and `Context`, plus a law about repeated updates of a running digest.
 */
module ContextLaws {
  import opened Base
  import opened CryptoHash
  import opened RingDigest
  import opened RingHash

  /** Prefix law: hashing P, forking and hashing Q in the fork gives the digest of P ++ Q. */
  method ForkExtendsPrefix(h: Hash, p: seq<u8>, q: seq<u8>) returns (forked: Output, oneShot: Output)
    requires h.Valid()
    ensures forked == oneShot
    ensures oneShot == DigestOutput(h.algorithm, p + q)
  {
    var ctx := h.Start();
    ctx.Update(p);
    assert ctx.Absorbed() == p;
    var branch := ctx.Fork();
    branch.Update(q);
    forked := branch.Finish();
    oneShot := h.Compute(p + q);
  }

  /** After a fork, each side's updates leave the other side's prefix alone. */
  method ForkIsIndependent(h: Hash, p: seq<u8>, q: seq<u8>, r: seq<u8>) returns (left: Output, right: Output)
    requires h.Valid()
    ensures left == DigestOutput(h.algorithm, p + q)
    ensures right == DigestOutput(h.algorithm, p + r)
  {
    var ctx := h.Start();
    ctx.Update(p);
    assert ctx.Absorbed() == p;
    var branch := ctx.Fork();
    ctx.Update(q);
    branch.Update(r);
    left := ctx.Finish();
    right := branch.Finish();
  }

  /**
   * Non-destructive checkpoint: `fork_finish` after X gives the digest of X,
   * and the same context then goes on to give the digest of X ++ Y.
   */
  method CheckpointKeepsContextLive(h: Hash, x: seq<u8>, y: seq<u8>) returns (checkpoint: Output, last: Output)
    requires h.Valid()
    ensures checkpoint == DigestOutput(h.algorithm, x)
    ensures last == DigestOutput(h.algorithm, x + y)
  {
    var ctx := h.Start();
    ctx.Update(x);
    assert ctx.Absorbed() == x;
    checkpoint := ctx.ForkFinish();
    ctx.Update(y);
    last := ctx.Finish();
  }

  /** `fork_finish` has the effect of forking and finishing the fork, and leaves the context as it was. */
  method ForkFinishIsForkThenFinish(ctx: Context) returns (peek: Output, viaFork: Output)
    requires ctx.Valid() && ctx.live
    ensures peek == viaFork
    ensures ctx.live && ctx.Absorbed() == old(ctx.Absorbed())
  {
    peek := ctx.ForkFinish();
    var branch := ctx.Fork();
    viaFork := branch.Finish();
  }

  /** The bytes of a transcript of messages, in order. */
  function Concat(msgs: seq<seq<u8>>): seq<u8> {
    if msgs == [] then [] else msgs[0] + Concat(msgs[1..])
  }

  /** A running digest after one update per message. */
  function UpdateAll(ctx: DigestContext, msgs: seq<seq<u8>>): DigestContext
    decreases |msgs|
  {
    if msgs == [] then ctx else UpdateAll(ctx.Update(msgs[0]), msgs[1..])
  }

  /** Updating message by message is updating once with the whole transcript. */
  lemma {:induction false} UpdateAllIsConcat(ctx: DigestContext, msgs: seq<seq<u8>>)
    ensures UpdateAll(ctx, msgs) == ctx.Update(Concat(msgs))
    decreases |msgs|
  {
    if msgs != [] {
      UpdateAllIsConcat(ctx.Update(msgs[0]), msgs[1..]);
      assert ctx.absorbed + msgs[0] + Concat(msgs[1..]) == ctx.absorbed + (msgs[0] + Concat(msgs[1..]));
    }
  }

  /** Appending one message to a transcript appends its bytes. */
  lemma {:induction false} ConcatSnoc(msgs: seq<seq<u8>>, m: seq<u8>)
    ensures Concat(msgs + [m]) == Concat(msgs) + m
    decreases |msgs|
  {
    if msgs == [] {
      assert msgs + [m] == [m];
      assert Concat([m][1..]) == [];
    } else {
      assert (msgs + [m])[1..] == msgs[1..] + [m];
      ConcatSnoc(msgs[1..], m);
    }
  }

  /**
   * A handshake transcript: a fresh context updated with each message in turn,
   * then finished, gives the digest of the concatenated messages.
   */
  method TranscriptHash(h: Hash, msgs: seq<seq<u8>>) returns (o: Output)
    requires h.Valid()
    ensures o == DigestOutput(h.algorithm, Concat(msgs))
  {
    var ctx := h.Start();
    for i := 0 to |msgs|
      invariant ctx.Valid() && ctx.live && ctx.state.algorithm == h.algorithm
      invariant ctx.Absorbed() == Concat(msgs[..i])
    {
      ConcatSnoc(msgs[..i], msgs[i]);
      assert msgs[..i + 1] == msgs[..i] + [msgs[i]];
      ctx.Update(msgs[i]);
    }
    assert msgs[..|msgs|] == msgs;
    o := ctx.Finish();
  }

  /** Hashing a transcript message by message finishes with the digest of the concatenation. */
  lemma TranscriptDigest(alg: Algorithm, msgs: seq<seq<u8>>)
    ensures UpdateAll(DigestContext.New(alg), msgs).Finish().AsRef() == alg.digest(Concat(msgs))
  {
    UpdateAllIsConcat(DigestContext.New(alg), msgs);
    assert [] + Concat(msgs) == Concat(msgs);
  }
}
