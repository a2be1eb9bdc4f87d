/** blocksAmd64SSE2 of lib/chacha20/chacha20_amd64.py, proved to refine the reference. */
module BlocksSSE2 {
  import opened Words
  import opened ChaChaCore
  import opened ChaChaRef
  import opened Simd

  lemma CounterRow(y: State, n: nat)
    ensures PADDQ(RowOf(Advance(y, n), 3), 1) == RowOf(Advance(y, n + 1), 3)
  {
    CountUpRow(Advance(y, n));
    hide RowOf, PADDQ, CountUp;
  }

  lemma CountUpRow(z: State)
    ensures PADDQ(RowOf(z, 3), 1) == RowOf(CountUp(z), 3)
  {
    hide Join, Low, High, AddCounter;
  }

  /** Only the counter row changes from block to block. */
  lemma RowsAhead(y: State, n: nat)
    ensures RowsOf(Advance(y, n)) == Rows(RowOf(y, 0), RowOf(y, 1), RowOf(y, 2), RowOf(Advance(y, n), 3))
  {
    hide Advance;
    forall i | 0 <= i < 12 ensures Advance(y, n)[i] == y[i] { AdvanceKeeps(y, n, i); }
  }

  function AddRows(p: Rows, q: Rows): Rows {
    Rows(PADDD(p.a, q.a), PADDD(p.b, q.b), PADDD(p.c, q.c), PADDD(p.d, q.d))
  }

  lemma SumRows(v: State, w: State)
    ensures AddRows(RowsOf(v), RowsOf(w)) == RowsOf(Sum(v, w))
  {
    hide Add;
  }

  /** Passes of the rounds loop from a state, plus the state, are its block. */
  lemma BlockRows(y: State)
    requires y[..4] == SIGMA
    ensures AddRows(RowPasses(RowsOf(y), DOUBLE_ROUNDS), RowsOf(y)) == RowsOf(Block(y))
  {
    hide DoubleRounds, RowPasses, RowsOf, Sum, AddRows;
    assert Keyed(y) == y;
    RowPassesAreRounds(y, DOUBLE_ROUNDS);
    SumRows(DoubleRounds(y, DOUBLE_ROUNDS), y);
  }

  /** What the registers of group j hold before the rounds: the block j after state y. */
  ghost function Start(s: Rows, y: State, j: nat): Group {
    Group([s.a], [s.b], [s.c], [RowOf(Advance(y, j), 3)])
  }

  /** After the rounds, adding the state rows and the counter row gives the block. */
  lemma FinishedBlock(s: Rows, y: State, j: nat)
    requires s == RowsOf(y) && y[..4] == SIGMA
    ensures AddRows(LaneOf(PassedGroup(Start(s, y, j), DOUBLE_ROUNDS), 0), s.(d := RowOf(Advance(y, j), 3)))
            == RowsOf(Block(Advance(y, j)))
  {
    hide Advance, Block, RowPasses, PassedGroup, RowsOf;
    RowsParts(y);
    RowsAhead(y, j);
    var z := Advance(y, j);
    assert z[..4] == y[..4] by {
      forall i | 0 <= i < 4 ensures z[i] == y[i] { AdvanceKeeps(y, j, i); }
    }
    PassedLane(Start(s, y, j), DOUBLE_ROUNDS, 0);
    BlockRows(z);
  }

  lemma RowsParts(y: State)
    ensures RowsOf(y) == Rows(RowOf(y, 0), RowOf(y, 1), RowOf(y, 2), RowOf(y, 3))
  {
  }

  method SetUp(regs: array2<Vec>, groups: nat, s: Rows, ghost y: State)
    requires regs.Length0 == 4 && regs.Length1 == 4 && 0 < groups <= 4 && s == RowsOf(y)
    modifies regs
    ensures File(regs, groups, 1)
    ensures forall j :: 0 <= j < groups ==> GroupAt(regs, j) == Start(s, y, j)
  {
    hide PADDQ, Advance;
    AdvanceNone(y);
    var c := s.d;
    for j := 0 to groups
      invariant c == RowOf(Advance(y, j), 3) && File(regs, j, 1)
      invariant forall i :: 0 <= i < j ==> GroupAt(regs, i) == Start(s, y, i)
    {
      regs[j, 0], regs[j, 1], regs[j, 2], regs[j, 3] := [s.a], [s.b], [s.c], [c];
      c := PADDQ(c, 1);
      CounterRow(y, j);
    }
  }

  /** The body of the 4, 2 and 1 block loops: set up the groups, run the rounds, add the
      state back and write out, counting up after every block. */
  method VectorPass(regs: array2<Vec>, groups: nat, s: Rows, src: array<Byte>, from: nat,
                    dst: array<Byte>, to: nat, ghost y: State)
    returns (s3: Row)
    requires regs.Length0 == 4 && regs.Length1 == 4 && 0 < groups <= 4
    requires s == RowsOf(y) && y[..4] == SIGMA
    requires from + 64 * groups <= src.Length && to + 64 * groups <= dst.Length
    requires Overlay(src, from, dst, to, 64 * groups)
    modifies regs, dst
    ensures s3 == RowOf(Advance(y, groups), 3)
    ensures forall i :: 0 <= i < dst.Length && !(to <= i < to + 64 * groups) ==> dst[i] == old(dst[i])
    ensures forall i :: to <= i < to + 64 * groups ==>
              dst[i] == XorByte(old(src[from + i - to]), KeyByte(y, i - to))
  {
    hide RowsOf, RowsByte, XorByte, PADDQ, Advance, KeyByte, Block, StateByte, AddRows, PassedGroup, Start;
    ghost var b := src[from..from + 64 * groups];
    SetUp(regs, groups, s, y);
    RoundsLoop(regs, groups, 1);
    s3 := s.d;
    assert s3 == RowOf(Advance(y, 0), 3) by { RowsParts(y); AdvanceNone(y); }
    for j := 0 to groups
      invariant s3 == RowOf(Advance(y, j), 3)
      invariant File(regs, groups, 1)
      invariant forall i :: 0 <= i < groups ==> GroupAt(regs, i) == PassedGroup(Start(s, y, i), DOUBLE_ROUNDS)
      invariant forall i :: 0 <= i < dst.Length && !(to <= i < to + 64 * j) ==> dst[i] == old(dst[i])
      invariant forall i :: from + 64 * j <= i < from + 64 * groups ==> src[i] == b[i - from]
      invariant forall i :: to <= i < to + 64 * j ==> dst[i] == XorByte(b[i - to], KeyByte(y, i - to))
    {
      var v := Rows(regs[j, 0][0], regs[j, 1][0], regs[j, 2][0], regs[j, 3][0]);
      v := AddRows(v, Rows(s.a, s.b, s.c, s3));
      BlockOut(s, y, j, v, GroupAt(regs, j));
      XorRows(src, from + 64 * j, dst, to + 64 * j, v);
      s3 := PADDQ(s3, 1);
      CounterRow(y, j);
    }
  }

  lemma BlockOut(s: Rows, y: State, j: nat, v: Rows, g: Group)
    requires s == RowsOf(y) && y[..4] == SIGMA
    requires g == PassedGroup(Start(s, y, j), DOUBLE_ROUNDS)
    requires v == AddRows(LaneOf(g, 0), Rows(s.a, s.b, s.c, RowOf(Advance(y, j), 3)))
    ensures forall k :: 64 * j <= k < 64 * j + 64 ==> RowsByte(v, k - 64 * j) == KeyByte(y, k)
  {
    hide RowsOf, RowsByte, Advance, KeyByte, Block, StateByte, AddRows, LaneOf, PassedGroup, Start;
    FinishedBlock(s, y, j);
    BlockBytes(y, j);
    forall k | 64 * j <= k < 64 * j + 64 ensures RowsByte(v, k - 64 * j) == KeyByte(y, k) {
      RowsBytes(Block(Advance(y, j)), k - 64 * j);
    }
  }

  /** A vector pass continues a run that has produced n blocks. */
  method PassOn(regs: array2<Vec>, groups: nat, s: Rows, src: array<Byte>, from: nat, dst: array<Byte>, to: nat,
                p: nat, ghost b: seq<Byte>, ghost key: seq<Byte>, ghost x0: State, ghost n: nat, ghost before: seq<Byte>)
    returns (s3: Row)
    requires regs.Length0 == 4 && regs.Length1 == 4 && 0 < groups <= 4
    requires from + |b| <= src.Length && to + |b| <= dst.Length && Overlay(src, from, dst, to, |b|)
    requires |key| == |b|
    requires p == 64 * n && p + 64 * groups <= |b| && Progress(src, from, dst, to, b, key, p, before)
    requires key == KeyBytes(x0, |b|) && x0[..4] == SIGMA && s == RowsOf(Advance(x0, n))
    modifies regs, dst
    ensures s3 == RowOf(Advance(x0, n + groups), 3)
    ensures Progress(src, from, dst, to, b, key, p + 64 * groups, before)
  {
    hide XorByte, KeyByte, RowsOf, Advance;
    ghost var y := Advance(x0, n);
    assert y[..4] == SIGMA by {
      forall i | 0 <= i < 4 ensures y[i] == x0[i] { AdvanceKeeps(x0, n, i); }
    }
    AdvanceAdd(x0, n, groups);
    s3 := VectorPass(regs, groups, s, src, from + p, dst, to + p, y);
    forall i | to + p <= i < to + p + 64 * groups
      ensures dst[i] == XorByte(b[i - to], key[i - to])
    {
      KeyByteShift(x0, n, i - (to + p));
    }
  }

  method LoadRows(x: array<Word>) returns (s: Rows)
    requires x.Length == 16
    ensures s == RowsOf(x[..])
  {
    var a := LoadRow(x, 0);
    var b := LoadRow(x, 1);
    var c := LoadRow(x, 2);
    var d := LoadRow(x, 3);
    s := Rows(a, b, c, d);
  }

  /** The counter row goes back to memory; the other rows never changed. */
  method StoreCounter(x: array<Word>, s3: Row, ghost x0: State, ghost m: nat, ghost n: nat)
    requires x.Length == 16 && x[..] == Advance(x0, m) && s3 == RowOf(Advance(x0, n), 3)
    modifies x
    ensures x[..] == Advance(x0, n)
  {
    hide Advance;
    ghost var z := Advance(x0, n);
    forall i | 0 <= i < 12 ensures Advance(x0, m)[i] == z[i] {
      AdvanceKeeps(x0, m, i);
      AdvanceKeeps(x0, n, i);
    }
    assert forall i :: 0 <= i < 12 ==> x[..][i] == z[i];
    x[12], x[13], x[14], x[15] := s3.a, s3.b, s3.c, s3.d;
    assert forall i :: 0 <= i < 16 ==> x[i] == z[i];
  }

  lemma OtherRows(x0: State, m: nat, n: nat)
    ensures RowsOf(Advance(x0, n)) == RowsOf(Advance(x0, m)).(d := RowOf(Advance(x0, n), 3))
  {
    hide RowsOf, Advance;
    RowsAhead(x0, m);
    RowsAhead(x0, n);
  }

  /** blocksAmd64SSE2: four blocks a pass while they last, then two, then one. The counter
      lives in memory during the first loop and in a register after it. */
  method BlocksAmd64SSE2(x: array<Word>, src: array<Byte>, from: nat, dst: array<Byte>, to: nat, nrBlocks: nat)
    requires x.Length == 16 && x[..4] == SIGMA
    requires from + 64 * nrBlocks <= src.Length && to + 64 * nrBlocks <= dst.Length
    requires Overlay(src, from, dst, to, 64 * nrBlocks)
    modifies x, dst
    ensures x[..] == Advance(old(x[..]), nrBlocks)
    ensures forall i :: 0 <= i < dst.Length && !(to <= i < to + 64 * nrBlocks) ==> dst[i] == old(dst[i])
    ensures forall i :: to <= i < to + 64 * nrBlocks ==>
              dst[i] == XorByte(old(src[from + i - to]), KeyByte(old(x[..]), i - to))
  {
    hide XorByte, KeyByte, RowsOf, Advance, Progress;
    var regs := new Vec[4, 4];
    ghost var x0: State := x[..];
    ghost var b := src[from..from + 64 * nrBlocks];
    ghost var key := KeyBytes(x0, |b|);
    ghost var before := dst[..];
    AdvanceNone(x0);
    Untouched(src, from, dst, to, b, key, before);
    var p := 0;
    ghost var n := 0;
    var blocks: int := nrBlocks;
    blocks := blocks - 4;
    while blocks >= 0
      invariant blocks >= -4 && p == 64 * n && n == nrBlocks - 4 - blocks
      invariant x[..] == Advance(x0, n)
      invariant Progress(src, from, dst, to, b, key, p, before)
    {
      var s := LoadRows(x);
      var s3 := PassOn(regs, 4, s, src, from, dst, to, p, b, key, x0, n, before);
      StoreCounter(x, s3, x0, n, n + 4);
      p := p + 4 * 64;
      n := n + 4;
      blocks := blocks - 4;
    }
    blocks := blocks + 4;
    if blocks != 0 {
      Remaining(regs, x, src, from, dst, to, blocks, p, b, key, x0, n, before);
    }
    Complete(src, from, dst, to, b, key, before);
  }

  /** The two-block loop and the last block, with the state in registers. */
  method Remaining(regs: array2<Vec>, x: array<Word>, src: array<Byte>, from: nat, dst: array<Byte>, to: nat,
                   nrBlocks: nat, start: nat, ghost b: seq<Byte>, ghost key: seq<Byte>, ghost x0: State, ghost m: nat,
                   ghost before: seq<Byte>)
    requires regs.Length0 == 4 && regs.Length1 == 4
    requires x.Length == 16 && x[..] == Advance(x0, m) && x0[..4] == SIGMA
    requires from + |b| <= src.Length && to + |b| <= dst.Length && Overlay(src, from, dst, to, |b|)
    requires |key| == |b|
    requires key == KeyBytes(x0, |b|) && start == 64 * m && start + 64 * nrBlocks == |b|
    requires Progress(src, from, dst, to, b, key, start, before)
    modifies regs, x, dst
    ensures x[..] == Advance(x0, m + nrBlocks)
    ensures Progress(src, from, dst, to, b, key, |b|, before)
  {
    hide XorByte, KeyByte, RowsOf, Advance, Progress;
    var s := LoadRows(x);
    var p := start;
    ghost var n := m;
    var blocks: int := nrBlocks;
    blocks := blocks - 2;
    while blocks >= 0
      invariant blocks >= -2 && p == 64 * n && n == m + nrBlocks - 2 - blocks
      invariant x[..] == Advance(x0, m) && s == RowsOf(Advance(x0, n))
      invariant Progress(src, from, dst, to, b, key, p, before)
    {
      var s3 := PassOn(regs, 2, s, src, from, dst, to, p, b, key, x0, n, before);
      OtherRows(x0, n, n + 2);
      s := s.(d := s3);
      p := p + 2 * 64;
      n := n + 2;
      blocks := blocks - 2;
    }
    blocks := blocks + 2;
    if blocks != 0 {
      var s3 := PassOn(regs, 1, s, src, from, dst, to, p, b, key, x0, n, before);
      OtherRows(x0, n, n + 1);
      s := s.(d := s3);
      p := p + 64;
      n := n + 1;
    }
    RowsParts(Advance(x0, n));
    StoreCounter(x, s.d, x0, m, n);
  }
}
