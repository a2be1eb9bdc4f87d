/** blocksAmd64AVX2 of lib/chacha20/chacha20_amd64.py: two blocks per register. Its contract
    says exactly which counters it uses; AvxAgreesIff says when they are the right ones. */
module BlocksAVX2 {
  import opened Words
  import opened ChaChaCore
  import opened ChaChaRef
  import opened Simd
  import opened BlocksSSE2

  // The counters of the routine.

  const INC: Row := Row(2, 0, 0, 0)

  /** t additions of 2 in 32-bit arithmetic (ADD_avx2 with mem_inc). */
  function Bump(r: Row, t: nat): Row {
    if t == 0 then r else PADDD(Bump(r, t - 1), INC)
  }

  /** t additions of 2 in 64-bit arithmetic (VPADDQ with mem_inc). */
  function BumpQ(r: Row, t: nat): Row {
    if t == 0 then r else PADDQ(BumpQ(r, t - 1), 2)
  }

  /** The counter row that is added back into block i. */
  function Feed(x: State, i: nat): Row {
    Bump(if i % 2 == 0 then RowOf(x, 3) else PADDQ(RowOf(x, 3), 1), i / 2)
  }

  /** The register group that block i of n is computed in. */
  function GroupOf(n: nat, i: nat): nat {
    if i < n - n % 8 then i % 8 / 2 else if i < n - n % 4 then i % 4 / 2 else 0
  }

  /** The counter row that the rounds of block i of n start from. */
  function Initial(x: State, n: nat, i: nat): Row
    requires 2 * GroupOf(n, i) <= i
  {
    BumpQ(Feed(x, i - 2 * GroupOf(n, i)), GroupOf(n, i))
  }

  lemma GroupFits(n: nat, i: nat)
    ensures 2 * GroupOf(n, i) <= i
  {
  }

  function WithRow(x: State, r: Row): State {
    x[..12] + [r.a, r.b, r.c, r.d]
  }

  function SplitBlock(x: State, ini: Row, feed: Row): State {
    Sum(DoubleRounds(WithRow(x, ini), DOUBLE_ROUNDS), WithRow(x, feed))
  }

  /** Byte p of what the routine xors into its input. */
  function AvxByte(x: State, n: nat, p: nat): Byte {
    GroupFits(n, p / 64);
    StateByte(SplitBlock(x, Initial(x, n, p / 64), Feed(x, p / 64)), p % 64)
  }

  lemma FeedNext(x: State, i: nat)
    ensures PADDD(Feed(x, i), INC) == Feed(x, i + 2)
  {
    hide PADDD, PADDQ, RowOf;
    assert (i + 2) / 2 == i / 2 + 1 && (i + 2) % 2 == i % 2;
  }

  lemma WithRowRows(x: State, r: Row)
    ensures RowsOf(WithRow(x, r)) == RowsOf(x).(d := r)
  {
  }

  /** The rounds from one counter row, with another added back. */
  lemma SplitRows(x: State, ini: Row, feed: Row)
    ensures AddRows(RowPasses(RowsOf(x).(d := ini), DOUBLE_ROUNDS), RowsOf(x).(d := feed)) ==
            RowsOf(SplitBlock(x, ini, feed))
  {
    hide RowsOf, AddRows, Sum, DoubleRounds, RowPasses, WithRow;
    WithRowRows(x, ini);
    WithRowRows(x, feed);
    RowPassesAreRounds(WithRow(x, ini), DOUBLE_ROUNDS);
    SumRows(DoubleRounds(WithRow(x, ini), DOUBLE_ROUNDS), WithRow(x, feed));
  }

  function AvxStart(s: Rows, x: State, m: nat, j: nat): Group {
    Group([s.a, s.a], [s.b, s.b], [s.c, s.c], [BumpQ(Feed(x, m), j), BumpQ(Feed(x, m + 1), j)])
  }

  function VADDQ(u: Vec, inc: bv64): (r: Vec)
    requires |u| == 2
    ensures |r| == 2
  {
    [PADDQ(u[0], inc), PADDQ(u[1], inc)]
  }

  /** VPERM2I128 for the two selectors in use: the low lanes, or the high lanes. */
  function VPERM2I128(u: Vec, v: Vec, imm: nat): (r: Vec)
    requires |u| == 2 && |v| == 2
    ensures |r| == 2
  {
    if imm == 0x20 then [u[0], v[0]] else [u[1], v[1]]
  }

  function HalfOut(g: Group, imm: nat): Rows
    requires |g.a| == 2 && |g.b| == 2 && |g.c| == 2 && |g.d| == 2
  {
    var u, v := VPERM2I128(g.a, g.b, imm), VPERM2I128(g.c, g.d, imm);
    Rows(u[0], u[1], v[0], v[1])
  }

  method SetUpPairs(regs: array2<Vec>, groups: nat, s: Rows, s3: Vec, ghost x: State, ghost m: nat)
    requires regs.Length0 == 4 && regs.Length1 == 4 && 0 < groups <= 4
    requires s3 == [Feed(x, m), Feed(x, m + 1)]
    modifies regs
    ensures File(regs, groups, 2)
    ensures forall j :: 0 <= j < groups ==> GroupAt(regs, j) == AvxStart(s, x, m, j)
  {
    hide PADDQ, Feed;
    var c := s3;
    for j := 0 to groups
      invariant c == [BumpQ(Feed(x, m), j), BumpQ(Feed(x, m + 1), j)] && File(regs, j, 2)
      invariant forall i :: 0 <= i < j ==> GroupAt(regs, i) == AvxStart(s, x, m, i)
    {
      regs[j, 0], regs[j, 1], regs[j, 2], regs[j, 3] := [s.a, s.a], [s.b, s.b], [s.c, s.c], c;
      c := VADDQ(c, 2);
    }
  }

  /** The register sums of group j before they are written. */
  function Finished(g: Group, s: Rows, s3: Vec): (r: Group)
    requires Wide(g, 2) && |s3| == 2
    ensures Wide(r, 2)
  {
    Group(VADD(g.a, [s.a, s.a]), VADD(g.b, [s.b, s.b]), VADD(g.c, [s.c, s.c]), VADD(g.d, s3))
  }

  /** The selectors 0x20 and 0x31 take the block of the low and of the high lane. */
  lemma HalfRows(g: Group, s: Rows, s3: Vec)
    requires Wide(g, 2) && |s3| == 2
    ensures HalfOut(Finished(g, s, s3), 0x20) == AddRows(LaneOf(g, 0), s.(d := s3[0]))
    ensures HalfOut(Finished(g, s, s3), 0x31) == AddRows(LaneOf(g, 1), s.(d := s3[1]))
  {
    hide PADDD;
  }

  /** Lane l of group j holds the rounds of block m + 2j + l. */
  lemma LaneOut(s: Rows, x: State, m: nat, j: nat, l: nat, feed: Row)
    requires s == RowsOf(x) && l < 2
    ensures AddRows(LaneOf(PassedGroup(AvxStart(s, x, m, j), DOUBLE_ROUNDS), l), s.(d := feed))
            == RowsOf(SplitBlock(x, BumpQ(Feed(x, m + l), j), feed))
  {
    hide SplitBlock, RowPasses, PassedGroup, RowsOf, Feed, BumpQ, AddRows;
    PassedLane(AvxStart(s, x, m, j), DOUBLE_ROUNDS, l);
    SplitRows(x, BumpQ(Feed(x, m + l), j), feed);
  }

  lemma BlockOfByte(x: State, n: nat, i: nat, q: Rows)
    requires 2 * GroupOf(n, i) <= i
    requires q == RowsOf(SplitBlock(x, BumpQ(Feed(x, i - 2 * GroupOf(n, i)), GroupOf(n, i)), Feed(x, i)))
    ensures forall k :: 64 * i <= k < 64 * i + 64 ==> RowsByte(q, k - 64 * i) == AvxByte(x, n, k)
  {
    hide SplitBlock, Feed, BumpQ, GroupOf, RowsOf, RowsByte, StateByte;
    forall k | 64 * i <= k < 64 * i + 64 ensures RowsByte(q, k - 64 * i) == AvxByte(x, n, k) {
      assert k / 64 == i && k % 64 == k - 64 * i;
      RowsBytes(SplitBlock(x, Initial(x, n, i), Feed(x, i)), k - 64 * i);
    }
  }

  /** The bytes the routine xors into an input of n blocks. */
  function AvxBytes(x: State, n: nat): (r: seq<Byte>)
    ensures |r| == 64 * n && forall i :: 0 <= i < 64 * n ==> r[i] == AvxByte(x, n, i)
  {
    seq(64 * n, i requires 0 <= i < 64 * n => AvxByte(x, n, i))
  }

  /** Writes one half of a register group as block i. */
  method PutHalf(f: Group, imm: nat, src: array<Byte>, from: nat, dst: array<Byte>, to: nat, p: nat,
                 ghost b: seq<Byte>, ghost key: seq<Byte>, ghost x: State, ghost n: nat, ghost i: nat,
                 ghost before: seq<Byte>)
    requires Wide(f, 2)
    requires from + |b| <= src.Length && to + |b| <= dst.Length && Overlay(src, from, dst, to, |b|)
    requires key == AvxBytes(x, n) && |b| == 64 * n && i < n && p == 64 * i
    requires 2 * GroupOf(n, i) <= i
    requires HalfOut(f, imm) ==
             RowsOf(SplitBlock(x, BumpQ(Feed(x, i - 2 * GroupOf(n, i)), GroupOf(n, i)), Feed(x, i)))
    requires Progress(src, from, dst, to, b, key, p, before)
    modifies dst
    ensures Progress(src, from, dst, to, b, key, p + 64, before)
  {
    hide XorByte, RowsByte, AvxByte, HalfOut, RowsOf, SplitBlock, Feed, BumpQ, GroupOf;
    var q := HalfOut(f, imm);
    BlockOfByte(x, n, i, q);
    XorRows(src, from + p, dst, to + p, q);
  }

  /** The bodies of the 8 and 4 block loops. The initial counters are 64-bit sums, the
      counters added back are 32-bit sums. */
  method PairPass(regs: array2<Vec>, groups: nat, s: Rows, s3: Vec, src: array<Byte>, from: nat,
                  dst: array<Byte>, to: nat, p: nat, ghost b: seq<Byte>, ghost key: seq<Byte>,
                  ghost x: State, ghost n: nat, ghost m: nat, ghost before: seq<Byte>)
    returns (t3: Vec)
    requires regs.Length0 == 4 && regs.Length1 == 4 && 0 < groups <= 4
    requires from + |b| <= src.Length && to + |b| <= dst.Length && Overlay(src, from, dst, to, |b|)
    requires key == AvxBytes(x, n) && |b| == 64 * n && p == 64 * m && m + 2 * groups <= n
    requires s == RowsOf(x) && s3 == [Feed(x, m), Feed(x, m + 1)]
    requires forall i :: m <= i < m + 2 * groups ==> GroupOf(n, i) == (i - m) / 2
    requires Progress(src, from, dst, to, b, key, p, before)
    modifies regs, dst
    ensures t3 == [Feed(x, m + 2 * groups), Feed(x, m + 2 * groups + 1)]
    ensures Progress(src, from, dst, to, b, key, p + 128 * groups, before)
  {
    hide RowsOf, Feed, GroupOf, Progress, PassedGroup, AvxStart, Finished, HalfOut, SplitBlock;
    hide BumpQ, PADDD, AvxBytes, AddRows, LaneOf;
    SetUpPairs(regs, groups, s, s3, x, m);
    RoundsLoop(regs, groups, 2);
    t3 := s3;
    for j := 0 to groups
      invariant t3 == [Feed(x, m + 2 * j), Feed(x, m + 2 * j + 1)]
      invariant File(regs, groups, 2)
      invariant forall i :: 0 <= i < groups ==> GroupAt(regs, i) == PassedGroup(AvxStart(s, x, m, i), DOUBLE_ROUNDS)
      invariant Progress(src, from, dst, to, b, key, p + 128 * j, before)
    {
      var g := Group(regs[j, 0], regs[j, 1], regs[j, 2], regs[j, 3]);
      var f := Finished(g, s, t3);
      HalfRows(g, s, t3);
      ghost var i := m + 2 * j;
      LaneOut(s, x, m, j, 0, Feed(x, i));
      LaneOut(s, x, m, j, 1, Feed(x, i + 1));
      assert GroupOf(n, i) == j && GroupOf(n, i + 1) == j;
      PutHalf(f, 0x20, src, from, dst, to, p + 128 * j, b, key, x, n, i, before);
      PutHalf(f, 0x31, src, from, dst, to, p + 128 * j + 64, b, key, x, n, i + 1, before);
      FeedNext(x, i);
      FeedNext(x, i + 1);
      t3 := [PADDD(t3[0], INC), PADDD(t3[1], INC)];
    }
  }

  lemma FirstPair(x: State)
    ensures [PADDQ(RowOf(x, 3), 0), PADDQ(RowOf(x, 3), 1)] == [Feed(x, 0), Feed(x, 1)]
  {
    AddNothing(RowOf(x, 3));
    hide PADDQ, RowOf;
  }

  lemma AddNothing(r: Row)
    ensures PADDQ(r, 0) == r
  {
  }

  /** Where a pass of the 8 or the 4 block loop can start. */
  ghost predicate OnGrid(n: nat, m: nat, groups: nat) {
    if groups == 4 then m % 8 == 0 else m % 4 == 0 && m >= n - n % 8
  }

  lemma GridStart(n: nat, groups: nat)
    requires groups == 4 || groups == 2
    ensures OnGrid(n, if groups == 4 then 0 else n - n % 8, groups)
  {
  }

  lemma GridStep(n: nat, m: nat, groups: nat)
    requires (groups == 4 || groups == 2) && OnGrid(n, m, groups)
    ensures OnGrid(n, m + 2 * groups, groups)
  {
    if groups == 4 {
      assert (m + 8) % 8 == m % 8;
    } else {
      assert (m + 4) % 4 == m % 4;
    }
  }

  lemma Mod8(m: nat, i: nat)
    requires m % 8 == 0 && m <= i < m + 8
    ensures i % 8 == i - m
  {
    assert i == 8 * (m / 8) + (i - m);
  }

  lemma Mod4(m: nat, i: nat)
    requires m % 4 == 0 && m <= i < m + 4
    ensures i % 4 == i - m
  {
    assert i == 4 * (m / 4) + (i - m);
  }

  lemma Floor8(m: nat, n: nat)
    requires m % 8 == 0 && m <= n
    ensures m <= n - n % 8
  {
    assert m == 8 * (m / 8) && n == 8 * (n / 8) + n % 8;
  }

  lemma Floor4(m: nat, n: nat)
    requires m % 4 == 0 && m <= n
    ensures m <= n - n % 4
  {
    assert m == 4 * (m / 4) && n == 4 * (n / 4) + n % 4;
  }

  lemma GridEnd(n: nat, m: nat, groups: nat)
    requires (groups == 4 || groups == 2) && OnGrid(n, m, groups) && m <= n < m + 2 * groups
    ensures n - m == if groups == 4 then n % 8 else n % 4
  {
    if groups == 4 {
      Mod8(m, n);
    } else {
      Mod4(m, n);
    }
  }

  lemma GroupsFrom(n: nat, m: nat, groups: nat)
    requires (groups == 4 || groups == 2) && OnGrid(n, m, groups) && m + 2 * groups <= n
    ensures forall i :: m <= i < m + 2 * groups ==> GroupOf(n, i) == (i - m) / 2
  {
    if groups == 4 {
      Floor8(m + 8, n);
      forall i | m <= i < m + 8 ensures GroupOf(n, i) == (i - m) / 2 { Mod8(m, i); }
    } else {
      Floor4(m + 4, n);
      forall i | m <= i < m + 4 ensures GroupOf(n, i) == (i - m) / 2 { Mod4(m, i); }
    }
  }

  /** The blocks after the 4 block loop are all computed in group 0. */
  lemma LastGroup(n: nat, i: nat)
    requires n - n % 4 <= i
    ensures GroupOf(n, i) == 0
  {
    assert n % 4 <= n % 8 by { assert n % 8 % 4 == n % 4; }
  }

  /** The 8 block loop (four groups) and the 4 block loop (two groups). */
  method PairLoop(regs: array2<Vec>, groups: nat, s: Rows, s3: Vec, src: array<Byte>, from: nat,
                  dst: array<Byte>, to: nat, start: nat, nrBlocks: nat, ghost b: seq<Byte>, ghost key: seq<Byte>,
                  ghost x: State, ghost n: nat, ghost before: seq<Byte>)
    returns (t3: Vec, p: nat, left: nat)
    requires regs.Length0 == 4 && regs.Length1 == 4
    requires (groups == 4 && start == 0) || (groups == 2 && start == 64 * (n - n % 8))
    requires from + |b| <= src.Length && to + |b| <= dst.Length && Overlay(src, from, dst, to, |b|)
    requires key == AvxBytes(x, n) && |b| == 64 * n && start + 64 * nrBlocks == 64 * n
    requires s == RowsOf(x) && s3 == [Feed(x, start / 64), Feed(x, start / 64 + 1)]
    requires Progress(src, from, dst, to, b, key, start, before)
    modifies regs, dst
    ensures left == (if groups == 4 then n % 8 else n % 4) && p == 64 * (n - left)
    ensures t3 == [Feed(x, n - left), Feed(x, n - left + 1)]
    ensures Progress(src, from, dst, to, b, key, p, before)
  {
    hide RowsOf, Feed, Progress, AvxBytes, GroupOf, OnGrid;
    t3 := s3;
    p := start;
    GridStart(n, groups);
    ghost var m := start / 64;
    var step := if groups == 4 then 8 else 4;
    var blocks: int := nrBlocks;
    blocks := blocks - step;
    while blocks >= 0
      invariant p == 64 * m && m <= n && blocks == n - m - step
      invariant OnGrid(n, m, groups)
      invariant t3 == [Feed(x, m), Feed(x, m + 1)]
      invariant regs.Length0 == 4 && regs.Length1 == 4
      invariant Progress(src, from, dst, to, b, key, p, before)
    {
      GroupsFrom(n, m, groups);
      GridStep(n, m, groups);
      t3 := PairPass(regs, groups, s, t3, src, from, dst, to, p, b, key, x, n, m, before);
      p := p + step * 64;
      m := m + step;
      blocks := blocks - step;
    }
    left := blocks + step;
    GridEnd(n, m, groups);
  }

  /** Two blocks in one register group, up to the write. */
  method OnePair(regs: array2<Vec>, s: Rows, s3: Vec, ghost x: State, ghost m: nat) returns (f: Group)
    requires regs.Length0 == 4 && regs.Length1 == 4
    requires s == RowsOf(x) && s3 == [Feed(x, m), Feed(x, m + 1)]
    modifies regs
    ensures Wide(f, 2)
    ensures HalfOut(f, 0x20) == RowsOf(SplitBlock(x, BumpQ(Feed(x, m), 0), Feed(x, m)))
    ensures HalfOut(f, 0x31) == RowsOf(SplitBlock(x, BumpQ(Feed(x, m + 1), 0), Feed(x, m + 1)))
  {
    hide RowsOf, Feed, PassedGroup, AvxStart, Finished, HalfOut, SplitBlock, BumpQ, AddRows, LaneOf;
    SetUpPairs(regs, 1, s, s3, x, m);
    RoundsLoop(regs, 1, 2);
    var g := Group(regs[0, 0], regs[0, 1], regs[0, 2], regs[0, 3]);
    assert g == GroupAt(regs, 0) == PassedGroup(AvxStart(s, x, m, 0), DOUBLE_ROUNDS);
    f := Finished(g, s, s3);
    HalfRows(g, s, s3);
    LaneOut(s, x, m, 0, 0, Feed(x, m));
    LaneOut(s, x, m, 0, 1, Feed(x, m + 1));
  }

  /** The last three, two or one blocks: one register group, and an early way out after
      the low lane. Says whether that way was taken. */
  method LastPairs(regs: array2<Vec>, s: Rows, s3: Vec, src: array<Byte>, from: nat, dst: array<Byte>, to: nat,
                   start: nat, nrBlocks: nat, ghost b: seq<Byte>, ghost key: seq<Byte>,
                   ghost x: State, ghost n: nat, ghost before: seq<Byte>)
    returns (t3: Vec, odd: bool)
    requires regs.Length0 == 4 && regs.Length1 == 4
    requires from + |b| <= src.Length && to + |b| <= dst.Length && Overlay(src, from, dst, to, |b|)
    requires key == AvxBytes(x, n) && |b| == 64 * n && start == 64 * (n - nrBlocks) && 0 < nrBlocks <= n
    requires forall i :: n - nrBlocks <= i ==> GroupOf(n, i) == 0
    requires s == RowsOf(x) && s3 == [Feed(x, n - nrBlocks), Feed(x, n - nrBlocks + 1)]
    requires Progress(src, from, dst, to, b, key, start, before)
    modifies regs, dst
    ensures |t3| == 2 && (if odd then t3[1] else t3[0]) == Feed(x, n)
    ensures Progress(src, from, dst, to, b, key, |b|, before)
  {
    hide RowsOf, Feed, Progress, HalfOut, SplitBlock, BumpQ, PADDD, AvxBytes, GroupOf;
    t3 := s3;
    odd := false;
    var p := start;
    var blocks := nrBlocks;
    ghost var m := n - nrBlocks;
    while true
      invariant n - nrBlocks <= m && 0 < blocks == n - m && p == 64 * m
      invariant t3 == [Feed(x, m), Feed(x, m + 1)]
      invariant Progress(src, from, dst, to, b, key, p, before)
      decreases blocks
    {
      var f := OnePair(regs, s, t3, x, m);
      PutHalf(f, 0x20, src, from, dst, to, p, b, key, x, n, m, before);
      blocks := blocks - 1;
      if blocks == 0 {
        odd := true;
        break;
      }
      FeedNext(x, m);
      FeedNext(x, m + 1);
      t3 := [PADDD(t3[0], INC), PADDD(t3[1], INC)];
      PutHalf(f, 0x31, src, from, dst, to, p + 64, b, key, x, n, m + 1, before);
      blocks := blocks - 1;
      if blocks == 0 {
        break;
      }
      p := p + 2 * 64;
      m := m + 2;
    }
  }

  method StoreRow(x: array<Word>, r: Row)
    requires x.Length == 16
    modifies x
    ensures x[..] == WithRow(old(x[..]), r)
  {
    x[12], x[13], x[14], x[15] := r.a, r.b, r.c, r.d;
    assert x[..] == old(x[..12]) + [r.a, r.b, r.c, r.d];
  }

  /** blocksAmd64AVX2. The three other state rows are never written. */
  method BlocksAmd64AVX2(x: array<Word>, src: array<Byte>, from: nat, dst: array<Byte>, to: nat, nrBlocks: nat)
    requires x.Length == 16 && x[..4] == SIGMA
    requires from + 64 * nrBlocks <= src.Length && to + 64 * nrBlocks <= dst.Length
    requires Overlay(src, from, dst, to, 64 * nrBlocks)
    modifies x, dst
    ensures x[..] == WithRow(old(x[..]), Feed(old(x[..]), nrBlocks))
    ensures forall i :: 0 <= i < dst.Length && !(to <= i < to + 64 * nrBlocks) ==> dst[i] == old(dst[i])
    ensures forall i :: to <= i < to + 64 * nrBlocks ==>
              dst[i] == XorByte(old(src[from + i - to]), AvxByte(old(x[..]), nrBlocks, i - to))
  {
    hide XorByte, AvxByte, RowsOf, RowOf, Feed, Progress, PADDQ, WithRow;
    var regs := new Vec[4, 4];
    ghost var x0: State, n := x[..], nrBlocks;
    ghost var b := src[from..from + 64 * n];
    ghost var key := AvxBytes(x0, n);
    ghost var before := dst[..];
    Untouched(src, from, dst, to, b, key, before);
    var s := LoadRows(x);
    RowsParts(x0);
    var s3 := [PADDQ(s.d, 0), PADDQ(s.d, 1)];
    FirstPair(x0);
    var odd := false;
    var p, blocks;
    s3, p, blocks := PairLoop(regs, 4, s, s3, src, from, dst, to, 0, nrBlocks, b, key, x0, n, before);
    if blocks != 0 {
      s3, p, blocks := PairLoop(regs, 2, s, s3, src, from, dst, to, p, blocks, b, key, x0, n, before);
      if blocks != 0 {
        forall i | n - n % 4 <= i ensures GroupOf(n, i) == 0 { LastGroup(n, i); }
        s3, odd := LastPairs(regs, s, s3, src, from, dst, to, p, blocks, b, key, x0, n, before);
      }
    }
    if odd {
      s3 := [s3[1], s3[0]];
    }
    StoreRow(x, s3[0]);
    Complete(src, from, dst, to, b, key, before);
  }
}
