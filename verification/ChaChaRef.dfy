/** The portable block function: lib/chacha20/chacha20_ref.go. */
module ChaChaRef {
  import opened Words
  import opened ChaChaCore

  /** The round statements of blocksRef and hChaChaRef, once for all sixteen copies. */
  method QuarterRoundStep(v: State, ia: nat, ib: nat, ic: nat, id: nat) returns (r: State)
    requires ia < 16 && ib < 16 && ic < 16 && id < 16
    ensures r == QuarterRound(v, ia, ib, ic, id)
  {
    hide Add, XorWord, Rotl16, Rotl12, Rotl8, Rotl7;
    var a, b, c, d := v[ia], v[ib], v[ic], v[id];
    a := Add(a, b);
    d := XorWord(d, a);
    d := Rotl16(d);
    c := Add(c, d);
    b := XorWord(b, c);
    b := Rotl12(b);
    a := Add(a, b);
    d := XorWord(d, a);
    d := Rotl8(d);
    c := Add(c, d);
    b := XorWord(b, c);
    b := Rotl7(b);
    r := v[ia := a][ib := b][ic := c][id := d];
  }

  /** The loop over chachaRounds. */
  method RoundLoop(v: State) returns (r: State)
    ensures r == DoubleRounds(v, DOUBLE_ROUNDS)
  {
    hide QuarterRound;
    r := v;
    var i := CHACHA_ROUNDS;
    while i > 0
      invariant 0 <= i <= CHACHA_ROUNDS && i % 2 == 0
      invariant r == DoubleRounds(v, DOUBLE_ROUNDS - i / 2)
    {
      r := QuarterRoundStep(r, 0, 4, 8, 12);
      r := QuarterRoundStep(r, 1, 5, 9, 13);
      r := QuarterRoundStep(r, 2, 6, 10, 14);
      r := QuarterRoundStep(r, 3, 7, 11, 15);
      r := QuarterRoundStep(r, 0, 5, 10, 15);
      r := QuarterRoundStep(r, 1, 6, 11, 12);
      r := QuarterRoundStep(r, 2, 7, 8, 13);
      r := QuarterRoundStep(r, 3, 4, 9, 14);
      i := i - 2;
    }
  }

  /** Two slices that are the same slice or do not overlap, as XORKeyStream demands. */
  predicate Overlay(src: array?<Byte>, s: nat, dst: array<Byte>, d: nat, len: nat) {
    src != dst || s == d || s + len <= d || d + len <= s
  }

  /** Stores one word, xored with the input word when there is an input. */
  method PutWord(src: array?<Byte>, s: nat, dst: array<Byte>, d: nat, w: Word)
    requires src != null ==> s + 4 <= src.Length
    requires d + 4 <= dst.Length
    modifies dst
    ensures forall i :: 0 <= i < dst.Length && !(d <= i < d + 4) ==> dst[i] == old(dst[i])
    ensures forall i :: d <= i < d + 4 ==>
              dst[i] == XorByte(if src == null then 0 else old(src[s + i - d]), WordByte(w, i - d))
  {
    hide WordByte, LoadWord, XorWord, XorByte;
    var v := w;
    if src != null {
      XorLoaded(src[s..s + 4], w);
      v := XorWord(LoadWord(src[s], src[s + 1], src[s + 2], src[s + 3]), w);
    } else {
      XorNothing(w);
    }
    dst[d], dst[d + 1], dst[d + 2], dst[d + 3] :=
      WordByte(v, 0), WordByte(v, 1), WordByte(v, 2), WordByte(v, 3);
  }

  lemma XorLoaded(b: seq<Byte>, w: Word)
    requires |b| == 4
    ensures forall k :: 0 <= k < 4 ==> WordByte(XorWord(WordAt(b, 0), w), k) == XorByte(b[k], WordByte(w, k))
  {
    var x := WordAt(b, 0);
    LoadedBytes(b[0], b[1], b[2], b[3]);
    hide WordByte, LoadWord, XorWord, XorByte;
    XorBytes(x, w, 0);
    XorBytes(x, w, 1);
    XorBytes(x, w, 2);
    XorBytes(x, w, 3);
  }

  lemma XorNothing(w: Word)
    ensures forall k :: 0 <= k < 4 ==> WordByte(w, k) == XorByte(0, WordByte(w, k))
  {
    hide WordByte, XorByte;
    XorTwice(0, WordByte(w, 0));
    XorTwice(0, WordByte(w, 1));
    XorTwice(0, WordByte(w, 2));
    XorTwice(0, WordByte(w, 3));
  }

  /** What the next len input bytes are worth: a nil input counts as zeros. */
  ghost function Input(src: array?<Byte>, s: nat, len: nat): (b: seq<Byte>)
    requires src != null ==> s + len <= src.Length
    reads src
    ensures |b| == len
  {
    if src == null then seq(len, i => 0) else src[s..s + len]
  }

  /** One block of output: sixteen word stores. */
  method PutBlock(src: array?<Byte>, s: nat, dst: array<Byte>, d: nat, v: State)
    requires src != null ==> s + 64 <= src.Length
    requires d + 64 <= dst.Length && Overlay(src, s, dst, d, 64)
    modifies dst
    ensures forall i :: 0 <= i < dst.Length && !(d <= i < d + 64) ==> dst[i] == old(dst[i])
    ensures forall i :: d <= i < d + 64 ==>
              dst[i] == XorByte(old(Input(src, s, 64))[i - d], StateByte(v, i - d))
  {
    hide XorByte, WordByte;
    ghost var b := Input(src, s, 64);
    for i := 0 to 16
      invariant forall j :: 0 <= j < dst.Length && !(d <= j < d + 4 * i) ==> dst[j] == old(dst[j])
      invariant src != null ==> forall j :: s + 4 * i <= j < s + 64 ==> src[j] == b[j - s]
      invariant forall j :: d <= j < d + 4 * i ==> dst[j] == XorByte(b[j - d], StateByte(v, j - d))
    {
      PutWord(src, if src == null then 0 else s + 4 * i, dst, d + 4 * i, v[i]);
      assert forall k :: 4 * i <= k < 4 * i + 4 ==> StateByte(v, k) == WordByte(v[i], k - 4 * i);
    }
  }

  /** The guard of an IETF cipher. It reads word 8, which holds key material. */
  predicate Refuses(x: State, nrBlocks: nat, isIetf: bool) {
    isIetf && Val(x[8]) + nrBlocks > WORD_LIMIT - 1
  }

  /** One pass of the loop of blocksRef: rounds, output, counter. */
  method OneBlock(x: array<Word>, src: array?<Byte>, s: nat, dst: array<Byte>, d: nat)
    requires x.Length == 16
    requires src != null ==> s + 64 <= src.Length
    requires d + 64 <= dst.Length && Overlay(src, s, dst, d, 64)
    modifies x, dst
    ensures forall i :: 0 <= i < dst.Length && !(d <= i < d + 64) ==> dst[i] == old(dst[i])
    ensures x[..] == Advance(old(x[..]), 1)
    ensures forall i :: d <= i < d + 64 ==>
              dst[i] == XorByte(old(Input(src, s, 64))[i - d], StateByte(Block(old(x[..])), i - d))
  {
    hide XorByte, Join, Low, High, DoubleRounds, StateByte, Sum, AddCounter;
    var v: State := RoundLoop(SIGMA + x[4..]);
    v := Sum(v, SIGMA + x[4..]);
    PutBlock(src, s, dst, d, v);
    var ctr := Join(x[12], x[13]);
    ctr := AddCounter(ctr, 1);
    x[12] := Low(ctr);
    x[13] := High(ctr);
    assert Advance(old(x[..]), 1) == CountUp(Advance(old(x[..]), 0));
  }

  /** The first n blocks are out. */
  ghost predicate Written(out: seq<Byte>, d: nat, b: seq<Byte>, n: nat, x0: State) {
    && d + 64 * n <= |out| && 64 * n <= |b|
    && forall i :: d <= i < d + 64 * n ==> out[i] == XorByte(b[i - d], KeyByte(x0, i - d))
  }

  /** The input from block n on is as it was. */
  ghost predicate Ahead(src: array?<Byte>, s: nat, b: seq<Byte>, n: nat, nrBlocks: nat)
    reads src
  {
    && n <= nrBlocks && |b| == 64 * nrBlocks && (src != null ==> s + 64 * nrBlocks <= src.Length)
    && forall k :: 64 * n <= k < 64 * nrBlocks ==> b[k] == if src == null then 0 else src[s + k]
  }

  lemma OneMoreBlock(was: seq<Byte>, now: seq<Byte>, d: nat, b: seq<Byte>, n: nat, x0: State)
    requires Written(was, d, b, n, x0) && |now| == |was| && d + 64 * n + 64 <= |now| && 64 * n + 64 <= |b|
    requires forall i :: d <= i < d + 64 * n ==> now[i] == was[i]
    requires forall i :: d + 64 * n <= i < d + 64 * n + 64 ==>
               now[i] == XorByte(b[i - d], StateByte(Block(Advance(x0, n)), i - (d + 64 * n)))
    ensures Written(now, d, b, n + 1, x0)
  {
    hide XorByte, KeyByte, StateByte, Block, Advance;
    BlockBytes(x0, n);
    forall i | d + 64 * n <= i < d + 64 * n + 64 ensures now[i] == XorByte(b[i - d], KeyByte(x0, i - d)) {
      assert KeyByte(x0, i - d) == StateByte(Block(Advance(x0, n)), i - d - 64 * n);
    }
  }

  /** One pass of the loop, as block n at offset at. */
  method NextBlock(x: array<Word>, src: array?<Byte>, s: nat, dst: array<Byte>, d: nat, at: nat,
                   ghost n: nat, ghost nrBlocks: nat, ghost b: seq<Byte>, ghost x0: State)
    requires x.Length == 16 && n < nrBlocks && at == 64 * n
    requires src != null ==> s + 64 * nrBlocks <= src.Length
    requires d + 64 * nrBlocks <= dst.Length && Overlay(src, s, dst, d, 64 * nrBlocks)
    requires x[..] == Advance(x0, n) && Ahead(src, s, b, n, nrBlocks) && Written(dst[..], d, b, n, x0)
    modifies x, dst
    ensures x[..] == Advance(x0, n + 1) && Ahead(src, s, b, n + 1, nrBlocks) && Written(dst[..], d, b, n + 1, x0)
    ensures forall i :: 0 <= i < dst.Length && !(d + 64 * n <= i < d + 64 * n + 64) ==> dst[i] == old(dst[i])
  {
    hide XorByte, StateByte, KeyByte, Block, Advance, CountUp, Written;
    ghost var was := dst[..];
    OneBlock(x, src, if src == null then 0 else s + at, dst, d + at);
    AdvanceAdd(x0, n, 1);
    OneMoreBlock(was, dst[..], d, b, n, x0);
  }

  method BlocksRef(x: array<Word>, src: array?<Byte>, s: nat, dst: array<Byte>, d: nat,
                   nrBlocks: nat, isIetf: bool, useUnsafe: bool)
    returns (panicked: bool)
    requires x.Length == 16
    requires src != null ==> s + 64 * nrBlocks <= src.Length
    requires d + 64 * nrBlocks <= dst.Length && Overlay(src, s, dst, d, 64 * nrBlocks)
    modifies x, dst
    ensures panicked <==> Refuses(old(x[..]), nrBlocks, isIetf)
    ensures panicked ==> x[..] == old(x[..]) && dst[..] == old(dst[..])
    ensures forall i :: 0 <= i < dst.Length && !(d <= i < d + 64 * nrBlocks) ==> dst[i] == old(dst[i])
    ensures !panicked ==> x[..] == Advance(old(x[..]), nrBlocks)
    ensures !panicked ==> forall i :: d <= i < d + 64 * nrBlocks ==>
              dst[i] == XorByte(old(Input(src, s, 64 * nrBlocks))[i - d], KeyByte(old(x[..]), i - d))
  {
    hide Val, XorByte, KeyByte, Advance, Overlay;
    if isIetf && Val(x[8]) + nrBlocks > WORD_LIMIT - 1 {
      return true;
    }
    panicked := false;
    ghost var x0: State := x[..];
    ghost var b := Input(src, s, 64 * nrBlocks);
    var done := 0;
    AdvanceNone(x0);
    for n := 0 to nrBlocks
      invariant x[..] == Advance(x0, n) && Ahead(src, s, b, n, nrBlocks) && Written(dst[..], d, b, n, x0)
      invariant !useUnsafe ==> done == 64 * n
      invariant forall i :: 0 <= i < dst.Length && !(d <= i < d + 64 * nrBlocks) ==> dst[i] == old(dst[i])
    {
      var at := if useUnsafe then n * BLOCK_SIZE else done;
      NextBlock(x, src, s, dst, d, at, n, nrBlocks, b, x0);
      if !useUnsafe {
        done := done + BLOCK_SIZE;
      }
    }
  }

  lemma AdvanceNone(x: State)
    ensures Advance(x, 0) == x
  {
  }

  lemma BlockBytes(x: State, n: nat)
    ensures forall k :: 64 * n <= k < 64 * n + 64 ==> KeyByte(x, k) == StateByte(Block(Advance(x, n)), k - 64 * n)
  {
    hide Block, Advance, StateByte;
    forall k | 64 * n <= k < 64 * n + 64
      ensures KeyByte(x, k) == StateByte(Block(Advance(x, n)), k - 64 * n)
    {
      assert k / 64 == n && k % 64 == k - 64 * n;
    }
  }
}
