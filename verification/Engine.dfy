/** The block functions of lib/chacha20 and the choice between them. */
module Engines {
  import opened Words
  import opened ChaChaCore
  import opened ChaChaRef
  import BlocksSSE2
  import BlocksAVX2
  import opened AvxAgreement

  /** What the package variables blocksFn, useUnsafe and usingAVX2 select. */
  datatype Engine = Portable(useUnsafe: bool) | Amd64(usingAVX2: bool)

  /** When a call may rely on the 32-bit counter arithmetic of the AVX2 routine. */
  predicate Sound(engine: Engine, x: State, nrBlocks: nat) {
    engine.Amd64? && engine.usingAVX2 && nrBlocks > 1 ==> Val(x[12]) + nrBlocks < WORD_LIMIT
  }

  lemma SoundLess(engine: Engine, x: State, m: nat, n: nat)
    requires n <= m
    ensures Sound(engine, x, m) ==> Sound(engine, x, n)
  {
    hide Val;
  }

  /** Byte p of what the selected routine xors into the input of a request for n blocks. */
  function Made(engine: Engine, x: State, n: nat, p: nat): Byte {
    if engine == Amd64(true) && n > 1 then BlocksAVX2.AvxByte(x, n, p) else KeyByte(x, p)
  }

  /** The state that it leaves. */
  function Final(engine: Engine, x: State, n: nat): State {
    if engine == Amd64(true) && n > 1 then BlocksAVX2.WithRow(x, BlocksAVX2.Feed(x, n)) else Advance(x, n)
  }

  /** A sound request is served by the keystream. */
  lemma SoundMade(engine: Engine, x: State, n: nat)
    requires x[..4] == SIGMA && Sound(engine, x, n)
    ensures Final(engine, x, n) == Advance(x, n)
    ensures forall p: nat {:trigger Made(engine, x, n, p)} :: p < 64 * n ==> Made(engine, x, n, p) == KeyByte(x, p)
  {
    hide Val, KeyByte, Advance, BlocksAVX2.AvxByte, BlocksAVX2.Feed, BlocksAVX2.WithRow;
    if engine == Amd64(true) && n > 1 {
      AvxRefines(x, n);
    }
  }

  lemma FinalKeeps(engine: Engine, x: State, n: nat)
    ensures forall i :: 0 <= i < 12 ==> Final(engine, x, n)[i] == x[i]
  {
    hide Advance, BlocksAVX2.Feed;
    forall i | 0 <= i < 12 ensures Advance(x, n)[i] == x[i] {
      AdvanceKeeps(x, n, i);
    }
  }

  /** blocksAmd64: the guard, the nil input, and the choice of routine. */
  method BlocksAmd64(x: array<Word>, src: array?<Byte>, s: nat, dst: array<Byte>, d: nat, end: nat,
                     nrBlocks: nat, isIetf: bool, usingAVX2: bool)
    returns (panicked: bool)
    requires x.Length == 16 && x[..4] == SIGMA
    requires src != null ==> s + 64 * nrBlocks <= src.Length
    requires d + 64 * nrBlocks <= end <= dst.Length && Overlay(src, s, dst, d, 64 * nrBlocks)
    modifies x, dst
    ensures panicked <==> Refuses(old(x[..]), nrBlocks, isIetf)
    ensures panicked <==> isIetf && Val(old(x[8])) + nrBlocks > 0xffff_ffff
    ensures panicked ==> x[..] == old(x[..]) && dst[..] == old(dst[..])
    ensures forall i :: 0 <= i < dst.Length && !(d <= i < end) ==> dst[i] == old(dst[i])
    ensures src != null ==> forall i :: d + 64 * nrBlocks <= i < end ==> dst[i] == old(dst[i])
    ensures forall i :: 0 <= i < 12 ==> x[i] == old(x[i])
    ensures !panicked ==> x[..] == Final(Amd64(usingAVX2), old(x[..]), nrBlocks)
    ensures !panicked ==> forall i :: d <= i < d + 64 * nrBlocks ==>
              dst[i] == XorByte(old(Input(src, s, 64 * nrBlocks))[i - d],
                                Made(Amd64(usingAVX2), old(x[..]), nrBlocks, i - d))
  {
    hide Val, XorByte, KeyByte, Advance, BlocksAVX2.AvxByte, BlocksAVX2.Feed, BlocksAVX2.WithRow;
    ghost var x0: State := x[..];
    assert x0[..4] == x[..4];
    if nrBlocks == 0 {
      ValBound(x[8]);
      AdvanceNone(x0);
      return false;
    }
    if isIetf && Val(x[8]) + nrBlocks > WORD_LIMIT - 1 {
      return true;
    }
    panicked := false;
    var inp, from := src, s;
    ghost var b := Input(src, s, 64 * nrBlocks);
    if src == null {
      for i := d to end
        invariant x[..] == x0
        invariant forall j :: 0 <= j < dst.Length ==> dst[j] == if d <= j < i then 0 else old(dst[j])
      {
        dst[i] := 0;
      }
      inp, from := dst, d;
      forall k | 0 <= k < 64 * nrBlocks ensures dst[d + k] == b[k] {
        assert dst[d + k] == 0;
      }
    }
    assert forall i :: from <= i < from + 64 * nrBlocks ==> inp[i] == b[i - from] by {
      if src == null {
        forall i | d <= i < d + 64 * nrBlocks ensures dst[i] == b[i - d] {
          assert dst[d + (i - d)] == b[i - d];
        }
      }
    }
    FinalKeeps(Amd64(usingAVX2), x0, nrBlocks);
    if usingAVX2 && nrBlocks > 1 {
      BlocksAVX2.BlocksAmd64AVX2(x, inp, from, dst, d, nrBlocks);
    } else {
      BlocksSSE2.BlocksAmd64SSE2(x, inp, from, dst, d, nrBlocks);
    }
    assert forall i :: 0 <= i < 12 ==> x[..][i] == x0[i];
  }

  /** blocksFn. */
  method Blocks(engine: Engine, x: array<Word>, src: array?<Byte>, s: nat, dst: array<Byte>, d: nat, end: nat,
                nrBlocks: nat, isIetf: bool)
    returns (panicked: bool)
    requires x.Length == 16 && x[..4] == SIGMA
    requires src != null ==> s + 64 * nrBlocks <= src.Length
    requires d + 64 * nrBlocks <= end <= dst.Length && Overlay(src, s, dst, d, 64 * nrBlocks)
    modifies x, dst
    ensures panicked <==> Refuses(old(x[..]), nrBlocks, isIetf)
    ensures panicked <==> isIetf && Val(old(x[8])) + nrBlocks > 0xffff_ffff
    ensures panicked ==> x[..] == old(x[..]) && dst[..] == old(dst[..])
    ensures forall i :: 0 <= i < dst.Length && !(d <= i < end) ==> dst[i] == old(dst[i])
    ensures src != null ==> forall i :: d + 64 * nrBlocks <= i < end ==> dst[i] == old(dst[i])
    ensures forall i :: 0 <= i < 12 ==> x[i] == old(x[i])
    ensures !panicked ==> x[..] == Final(engine, old(x[..]), nrBlocks)
    ensures !panicked ==> forall i :: d <= i < d + 64 * nrBlocks ==>
              dst[i] == XorByte(old(Input(src, s, 64 * nrBlocks))[i - d], Made(engine, old(x[..]), nrBlocks, i - d))
  {
    hide Val, XorByte, KeyByte, Advance;
    if engine.Portable? {
      ghost var x0: State := x[..];
      panicked := BlocksRef(x, src, s, dst, d, nrBlocks, isIetf, engine.useUnsafe);
      FinalKeeps(engine, x0, nrBlocks);
      assert forall i :: 0 <= i < 12 ==> x[..][i] == x0[i];
    } else {
      panicked := BlocksAmd64(x, src, s, dst, d, end, nrBlocks, isIetf, engine.usingAVX2);
    }
  }
}
