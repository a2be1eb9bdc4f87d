/** The vector instructions that lib/chacha20/chacha20_amd64.py emits, the row form of
    the rounds, and the register-file loop shared by blocksAmd64SSE2 and blocksAmd64AVX2. */
module Simd {
  import opened Words
  import opened ChaChaCore
  import opened ChaChaRef

  /** One 128-bit lane: four words, lowest address first. */
  datatype Row = Row(a: Word, b: Word, c: Word, d: Word)

  /** A register: one lane for an xmm register, two for a ymm register. */
  type Vec = seq<Row>

  // Instructions on one lane.

  function PADDD(x: Row, y: Row): Row { Row(Add(x.a, y.a), Add(x.b, y.b), Add(x.c, y.c), Add(x.d, y.d)) }

  function PXOR(x: Row, y: Row): Row {
    Row(XorWord(x.a, y.a), XorWord(x.b, y.b), XorWord(x.c, y.c), XorWord(x.d, y.d))
  }

  function Sll(x: Word, k: nat): Word requires k <= 32 { x << k }
  function Srl(x: Word, k: nat): Word requires k <= 32 { x >> k }

  function PSLLD(x: Row, k: nat): Row requires k <= 32 { Row(Sll(x.a, k), Sll(x.b, k), Sll(x.c, k), Sll(x.d, k)) }

  function PSRLD(x: Row, k: nat): Row requires k <= 32 { Row(Srl(x.a, k), Srl(x.b, k), Srl(x.c, k), Srl(x.d, k)) }

  function Pick(x: Row, i: nat): Word {
    if i == 0 then x.a else if i == 1 then x.b else if i == 2 then x.c else x.d
  }

  function PSHUFD(x: Row, imm: nat): Row {
    Row(Pick(x, imm % 4), Pick(x, imm / 4 % 4), Pick(x, imm / 16 % 4), Pick(x, imm / 64 % 4))
  }

  /** 64-bit addition of a counter increment to the first half of a lane. */
  function PADDQ(x: Row, inc: bv64): Row {
    var c := AddCounter(Join(x.a, x.b), inc);
    Row(Low(c), High(c), x.c, x.d)
  }

  /** The four ROTW helpers: shift both ways and xor. */
  function RotRow(x: Row, k: nat): Row
    requires k <= 32
  {
    PXOR(PSRLD(x, 32 - k), PSLLD(x, k))
  }

  // The rounds on the rows of one block.

  datatype Rows = Rows(a: Row, b: Row, c: Row, d: Row)

  /** a += b; d ^= a; d = ROTW(d, i); c += d; b ^= c; b = ROTW(b, j) */
  function MixRows(q: Rows, i: nat, j: nat): Rows
    requires i <= 32 && j <= 32
  {
    var a := PADDD(q.a, q.b);
    var d := RotRow(PXOR(q.d, a), i);
    var c := PADDD(q.c, d);
    Rows(a, RotRow(PXOR(q.b, c), j), c, d)
  }

  function QuarterRows(q: Rows): Rows {
    MixRows(MixRows(q, 16, 12), 8, 7)
  }

  function Shuffled(q: Rows, b: nat, c: nat, d: nat): Rows {
    Rows(q.a, PSHUFD(q.b, b), PSHUFD(q.c, c), PSHUFD(q.d, d))
  }

  /** One pass of a rounds loop: columns, turn the rows, columns again, turn back. */
  function RowPass(q: Rows): Rows {
    Shuffled(QuarterRows(Shuffled(QuarterRows(q), 0x39, 0x4e, 0x93)), 0x93, 0x4e, 0x39)
  }

  function RowPasses(q: Rows, n: nat): Rows {
    if n == 0 then q else RowPass(RowPasses(q, n - 1))
  }

  function RowOf(v: State, r: nat): Row
    requires r < 4
  {
    Row(v[4 * r], v[4 * r + 1], v[4 * r + 2], v[4 * r + 3])
  }

  function RowsOf(v: State): Rows {
    Rows(RowOf(v, 0), RowOf(v, 1), RowOf(v, 2), RowOf(v, 3))
  }

  // The row form computes the rounds of RFC 7539.

  lemma RotWords(x: Word)
    ensures Rotl16(x) == XorWord(Srl(x, 16), Sll(x, 16))
    ensures Rotl12(x) == XorWord(Srl(x, 20), Sll(x, 12))
    ensures Rotl8(x) == XorWord(Srl(x, 24), Sll(x, 8))
    ensures Rotl7(x) == XorWord(Srl(x, 25), Sll(x, 7))
  {
    assert Srl(x, 16) == x >> 16 && Sll(x, 16) == x << 16;
    assert Srl(x, 20) == x >> 20 && Sll(x, 12) == x << 12;
    assert Srl(x, 24) == x >> 24 && Sll(x, 8) == x << 8;
    assert Srl(x, 25) == x >> 25 && Sll(x, 7) == x << 7;
    hide Sll, Srl;
  }

  lemma RotRow16(x: Row)
    ensures RotRow(x, 16) == Row(Rotl16(x.a), Rotl16(x.b), Rotl16(x.c), Rotl16(x.d))
  {
    hide Rotl16, Rotl12, Rotl8, Rotl7, XorWord, Sll, Srl;
    RotWords(x.a); RotWords(x.b); RotWords(x.c); RotWords(x.d);
  }

  lemma RotRow12(x: Row)
    ensures RotRow(x, 12) == Row(Rotl12(x.a), Rotl12(x.b), Rotl12(x.c), Rotl12(x.d))
  {
    hide Rotl16, Rotl12, Rotl8, Rotl7, XorWord, Sll, Srl;
    RotWords(x.a); RotWords(x.b); RotWords(x.c); RotWords(x.d);
  }

  lemma RotRow8(x: Row)
    ensures RotRow(x, 8) == Row(Rotl8(x.a), Rotl8(x.b), Rotl8(x.c), Rotl8(x.d))
  {
    hide Rotl16, Rotl12, Rotl8, Rotl7, XorWord, Sll, Srl;
    RotWords(x.a); RotWords(x.b); RotWords(x.c); RotWords(x.d);
  }

  lemma RotRow7(x: Row)
    ensures RotRow(x, 7) == Row(Rotl7(x.a), Rotl7(x.b), Rotl7(x.c), Rotl7(x.d))
  {
    hide Rotl16, Rotl12, Rotl8, Rotl7, XorWord, Sll, Srl;
    RotWords(x.a); RotWords(x.b); RotWords(x.c); RotWords(x.d);
  }

  /** Column i of the rows is a quarter round of column i. */
  ghost predicate ColumnsQuartered(q: Rows, r: Rows) {
    && Quad(r.a.a, r.b.a, r.c.a, r.d.a) == QuarterWords(Quad(q.a.a, q.b.a, q.c.a, q.d.a))
    && Quad(r.a.b, r.b.b, r.c.b, r.d.b) == QuarterWords(Quad(q.a.b, q.b.b, q.c.b, q.d.b))
    && Quad(r.a.c, r.b.c, r.c.c, r.d.c) == QuarterWords(Quad(q.a.c, q.b.c, q.c.c, q.d.c))
    && Quad(r.a.d, r.b.d, r.c.d, r.d.d) == QuarterWords(Quad(q.a.d, q.b.d, q.c.d, q.d.d))
  }

  /** The row operations are four quarter rounds side by side. */
  lemma QuarterRowsColumns(q: Rows)
    ensures ColumnsQuartered(q, QuarterRows(q))
  {
    hide Rotl16, Rotl12, Rotl8, Rotl7, Add, XorWord, RotRow;
    var a1 := PADDD(q.a, q.b);
    RotRow16(PXOR(q.d, a1));
    var d1 := RotRow(PXOR(q.d, a1), 16);
    var c1 := PADDD(q.c, d1);
    RotRow12(PXOR(q.b, c1));
    var b1 := RotRow(PXOR(q.b, c1), 12);
    var a2 := PADDD(a1, b1);
    RotRow8(PXOR(d1, a2));
    var d2 := RotRow(PXOR(d1, a2), 8);
    RotRow7(PXOR(b1, PADDD(c1, d2)));
  }

  /** The state that rows stand for. */
  function Stacked(q: Rows): State {
    [q.a.a, q.a.b, q.a.c, q.a.d, q.b.a, q.b.b, q.b.c, q.b.d, q.c.a, q.c.b, q.c.c, q.c.d, q.d.a, q.d.b, q.d.c, q.d.d]
  }

  lemma StackedRows(q: Rows)
    ensures RowsOf(Stacked(q)) == q
  {
  }

  lemma RowsRoundColumns(v: State)
    ensures RowsOf(ColumnRound(v)) == QuarterRows(RowsOf(v))
  {
    hide QuarterWords, QuarterRows, ColumnRound;
    var r := QuarterRows(RowsOf(v));
    QuarterRowsColumns(RowsOf(v));
    StackedRows(r);
    Columns(v, Stacked(r));
  }

  lemma Turns(x: Row)
    ensures PSHUFD(x, 0x39) == Row(x.b, x.c, x.d, x.a)
    ensures PSHUFD(x, 0x4e) == Row(x.c, x.d, x.a, x.b)
    ensures PSHUFD(x, 0x93) == Row(x.d, x.a, x.b, x.c)
  {
    assert 0x39 % 4 == 1 && 0x39 / 4 % 4 == 2 && 0x39 / 16 % 4 == 3 && 0x39 / 64 % 4 == 0;
    assert 0x4e % 4 == 2 && 0x4e / 4 % 4 == 3 && 0x4e / 16 % 4 == 0 && 0x4e / 64 % 4 == 1;
    assert 0x93 % 4 == 3 && 0x93 / 4 % 4 == 0 && 0x93 / 16 % 4 == 1 && 0x93 / 64 % 4 == 2;
  }

  /** Turning the rows makes the diagonals columns: the vector form of a diagonal round. */
  lemma RowsRoundDiagonals(v: State)
    ensures RowsOf(DiagonalRound(v)) ==
            Shuffled(QuarterRows(Shuffled(RowsOf(v), 0x39, 0x4e, 0x93)), 0x93, 0x4e, 0x39)
  {
    hide QuarterWords, QuarterRows, PSHUFD, DiagonalRound;
    var q := RowsOf(v);
    Turns(q.b); Turns(q.c); Turns(q.d);
    var t := Shuffled(q, 0x39, 0x4e, 0x93);
    var u := QuarterRows(t);
    Turns(u.b); Turns(u.c); Turns(u.d);
    QuarterRowsColumns(t);
    var r := Shuffled(u, 0x93, 0x4e, 0x39);
    StackedRows(r);
    Diagonals(v, Stacked(r));
  }

  /** Main result on the rounds: n passes of the vector loop are n double rounds. */
  lemma {:induction false} RowPassesAreRounds(v: State, n: nat)
    ensures RowPasses(RowsOf(v), n) == RowsOf(DoubleRounds(v, n))
  {
    hide RowsOf, Shuffled, QuarterRows, ColumnRound, DiagonalRound;
    if n > 0 {
      RowPassesAreRounds(v, n - 1);
      var w := DoubleRounds(v, n - 1);
      RowsRoundColumns(w);
      RowsRoundDiagonals(ColumnRound(w));
      assert RowPasses(RowsOf(v), n) == RowPass(RowsOf(w));
    }
  }

  // The register file: register v(4j + r) of the generator is regs[j, r], row r of
  // the block (or pair of blocks) of group j.

  function VADD(u: Vec, v: Vec): (r: Vec)
    requires |u| == |v|
    ensures |r| == |u|
  {
    seq(|u|, i requires 0 <= i < |u| => PADDD(u[i], v[i]))
  }

  function VXOR(u: Vec, v: Vec): (r: Vec)
    requires |u| == |v|
    ensures |r| == |u|
  {
    seq(|u|, i requires 0 <= i < |u| => PXOR(u[i], v[i]))
  }

  function VSLL(u: Vec, k: nat): (r: Vec)
    requires k <= 32
    ensures |r| == |u|
  {
    seq(|u|, i requires 0 <= i < |u| => PSLLD(u[i], k))
  }

  function VSRL(u: Vec, k: nat): (r: Vec)
    requires k <= 32
    ensures |r| == |u|
  {
    seq(|u|, i requires 0 <= i < |u| => PSRLD(u[i], k))
  }

  function VSHUF(u: Vec, imm: nat): (r: Vec)
    ensures |r| == |u|
  {
    seq(|u|, i requires 0 <= i < |u| => PSHUFD(u[i], imm))
  }

  ghost predicate File(regs: array2<Vec>, groups: nat, lanes: nat)
    reads regs
  {
    && regs.Length0 == 4 && regs.Length1 == 4 && groups <= 4
    && forall j, r :: 0 <= j < groups && 0 <= r < 4 ==> |regs[j, r]| == lanes
  }

  method AddInto(regs: array2<Vec>, groups: nat, lanes: nat, x: nat, y: nat)
    requires File(regs, groups, lanes) && x < 4 && y < 4 && x != y
    requires forall j :: 0 <= j < groups ==> |regs[j, x]| == |regs[j, y]|
    modifies regs
    ensures forall j, r :: 0 <= j < 4 && 0 <= r < 4 ==>
              regs[j, r] == if j < groups && r == x then VADD(old(regs[j, x]), old(regs[j, y])) else old(regs[j, r])
  {
    for n := 0 to groups
      invariant forall j, r :: 0 <= j < 4 && 0 <= r < 4 ==>
              regs[j, r] == if j < n && r == x then VADD(old(regs[j, x]), old(regs[j, y])) else old(regs[j, r])
    {
      regs[n, x] := VADD(regs[n, x], regs[n, y]);
    }
  }

  method XorInto(regs: array2<Vec>, groups: nat, lanes: nat, x: nat, y: nat)
    requires File(regs, groups, lanes) && x < 4 && y < 4 && x != y
    modifies regs
    ensures forall j, r :: 0 <= j < 4 && 0 <= r < 4 ==>
              regs[j, r] == if j < groups && r == x then VXOR(old(regs[j, x]), old(regs[j, y])) else old(regs[j, r])
  {
    for n := 0 to groups
      invariant forall j, r :: 0 <= j < 4 && 0 <= r < 4 ==>
              regs[j, r] == if j < n && r == x then VXOR(old(regs[j, x]), old(regs[j, y])) else old(regs[j, r])
    {
      regs[n, x] := VXOR(regs[n, x], regs[n, y]);
    }
  }

  function VROT(u: Vec, k: nat): (r: Vec)
    requires k <= 32
    ensures |r| == |u|
  {
    VXOR(VSRL(u, 32 - k), VSLL(u, k))
  }

  /** ROTW on row x of every group. Register v12, which is regs[3, 0], is the scratch register. */
  method RotInto(regs: array2<Vec>, groups: nat, lanes: nat, x: nat, k: nat)
    requires File(regs, groups, lanes) && 0 < x < 4 && k <= 32
    modifies regs
    ensures forall j, r :: 0 <= j < 4 && 0 <= r < 4 && !(j == 3 && r == 0) ==>
              regs[j, r] == if j < groups && r == x then VROT(old(regs[j, x]), k) else old(regs[j, r])
    ensures groups > 0 ==> |regs[3, 0]| == lanes
  {
    hide VXOR, VSLL, VSRL;
    for n := 0 to groups
      invariant forall j, r :: 0 <= j < 4 && 0 <= r < 4 && !(j == 3 && r == 0) ==>
              regs[j, r] == if j < n && r == x then VROT(old(regs[j, x]), k) else old(regs[j, r])
      invariant n > 0 ==> |regs[3, 0]| == lanes
    {
      regs[3, 0] := regs[n, x];
      regs[3, 0] := VSLL(regs[3, 0], k);
      regs[n, x] := VSRL(regs[n, x], 32 - k);
      regs[n, x] := VXOR(regs[n, x], regs[3, 0]);
    }
  }

  method ShuffleInto(regs: array2<Vec>, groups: nat, lanes: nat, x: nat, imm: nat)
    requires File(regs, groups, lanes) && 0 < x < 4
    modifies regs
    ensures forall j, r :: 0 <= j < 4 && 0 <= r < 4 ==>
              regs[j, r] == if j < groups && r == x then VSHUF(old(regs[j, x]), imm) else old(regs[j, r])
  {
    for n := 0 to groups
      invariant forall j, r :: 0 <= j < 4 && 0 <= r < 4 ==>
              regs[j, r] == if j < n && r == x then VSHUF(old(regs[j, x]), imm) else old(regs[j, r])
    {
      regs[n, x] := VSHUF(regs[n, x], imm);
    }
  }

  /** The four registers of group j, as a value. */
  datatype Group = Group(a: Vec, b: Vec, c: Vec, d: Vec)

  ghost function GroupAt(regs: array2<Vec>, j: nat): Group
    requires regs.Length0 == 4 && regs.Length1 == 4 && j < 4
    reads regs
  {
    Group(regs[j, 0], regs[j, 1], regs[j, 2], regs[j, 3])
  }

  ghost predicate Wide(g: Group, lanes: nat) {
    |g.a| == lanes && |g.b| == lanes && |g.c| == lanes && |g.d| == lanes
  }

  ghost function LaneOf(g: Group, l: nat): Rows
    requires Wide(g, |g.a|) && l < |g.a|
  {
    Rows(g.a[l], g.b[l], g.c[l], g.d[l])
  }

  ghost function MixGroup(g: Group, i: nat, j: nat): (r: Group)
    requires Wide(g, |g.a|) && i <= 32 && j <= 32
    ensures Wide(r, |g.a|)
  {
    var a := VADD(g.a, g.b);
    var d := VROT(VXOR(g.d, a), i);
    var c := VADD(g.c, d);
    Group(a, VROT(VXOR(g.b, c), j), c, d)
  }

  lemma MixLane(g: Group, i: nat, j: nat, l: nat)
    requires Wide(g, |g.a|) && i <= 32 && j <= 32 && l < |g.a|
    ensures LaneOf(MixGroup(g, i, j), l) == MixRows(LaneOf(g, l), i, j)
  {
    hide PADDD, PXOR, PSLLD, PSRLD;
  }

  /** Half of a round up to its last rotation. The rotations use v12 as scratch, so when
      the fourth group is in use v12 is saved first: its value comes back in spill. */
  method Mix(regs: array2<Vec>, groups: nat, lanes: nat, i: nat, k: nat) returns (spill: Vec)
    requires File(regs, groups, lanes) && groups > 0 && i <= 32 && k <= 32
    modifies regs
    ensures regs.Length0 == 4 && regs.Length1 == 4
    ensures forall j :: 0 <= j < groups ==>
              GroupAt(regs, j).(a := if j == 3 then spill else regs[j, 0]) == MixGroup(old(GroupAt(regs, j)), i, k)
    ensures File(regs, groups, lanes) && (groups == 4 ==> |spill| == lanes)
  {
    hide VADD, VXOR, VROT, VSLL, VSRL;
    AddInto(regs, groups, lanes, 0, 1);
    XorInto(regs, groups, lanes, 3, 0);
    spill := regs[3, 0];
    RotInto(regs, groups, lanes, 3, i);
    AddInto(regs, groups, lanes, 2, 3);
    XorInto(regs, groups, lanes, 1, 2);
    RotInto(regs, groups, lanes, 1, k);
  }

  ghost function ShuffledGroup(g: Group, sb: nat, sc: nat, sd: nat): (r: Group)
    requires Wide(g, |g.a|)
    ensures Wide(r, |g.a|)
  {
    Group(g.a, VSHUF(g.b, sb), VSHUF(g.c, sc), VSHUF(g.d, sd))
  }

  ghost function TurnedGroup(g: Group, sb: nat, sc: nat, sd: nat): (r: Group)
    requires Wide(g, |g.a|)
    ensures Wide(r, |g.a|)
  {
    ShuffledGroup(MixGroup(MixGroup(g, 16, 12), 8, 7), sb, sc, sd)
  }

  ghost function PassGroup(g: Group): (r: Group)
    requires Wide(g, |g.a|)
    ensures Wide(r, |g.a|)
  {
    TurnedGroup(TurnedGroup(g, 0x39, 0x4e, 0x93), 0x93, 0x4e, 0x39)
  }

  lemma TurnedLane(g: Group, sb: nat, sc: nat, sd: nat, l: nat)
    requires Wide(g, |g.a|) && l < |g.a|
    ensures LaneOf(TurnedGroup(g, sb, sc, sd), l) == Shuffled(QuarterRows(LaneOf(g, l)), sb, sc, sd)
  {
    hide MixGroup, MixRows, PSHUFD;
    MixLane(g, 16, 12, l);
    MixLane(MixGroup(g, 16, 12), 8, 7, l);
  }

  lemma PassLane(g: Group, l: nat)
    requires Wide(g, |g.a|) && l < |g.a|
    ensures LaneOf(PassGroup(g), l) == RowPass(LaneOf(g, l))
  {
    hide TurnedGroup, Shuffled, QuarterRows;
    TurnedLane(g, 0x39, 0x4e, 0x93, l);
    TurnedLane(TurnedGroup(g, 0x39, 0x4e, 0x93), 0x93, 0x4e, 0x39, l);
  }

  /** The shuffles after a round, and the reload of v12 that follows them. */
  method ShuffleAll(regs: array2<Vec>, groups: nat, lanes: nat, spill: Vec, sb: nat, sc: nat, sd: nat)
    requires File(regs, groups, lanes) && groups > 0 && (groups == 4 ==> |spill| == lanes)
    modifies regs
    ensures File(regs, groups, lanes)
    ensures forall j :: 0 <= j < groups ==>
              GroupAt(regs, j) ==
              ShuffledGroup(old(GroupAt(regs, j)).(a := if j == 3 then spill else old(regs[j, 0])), sb, sc, sd)
  {
    hide VSHUF;
    ShuffleInto(regs, groups, lanes, 1, sb);
    ShuffleInto(regs, groups, lanes, 2, sc);
    ShuffleInto(regs, groups, lanes, 3, sd);
    if groups == 4 {
      regs[3, 0] := spill;
    }
  }

  /** One round with the shuffles after it. */
  method Turn(regs: array2<Vec>, groups: nat, lanes: nat, sb: nat, sc: nat, sd: nat)
    requires File(regs, groups, lanes) && groups > 0
    modifies regs
    ensures File(regs, groups, lanes)
    ensures forall j :: 0 <= j < groups ==> GroupAt(regs, j) == TurnedGroup(old(GroupAt(regs, j)), sb, sc, sd)
  {
    hide MixGroup, ShuffledGroup;
    var spill := Mix(regs, groups, lanes, 16, 12);
    if groups == 4 {
      regs[3, 0] := spill;
    }
    assert forall j :: 0 <= j < groups ==> GroupAt(regs, j) == MixGroup(old(GroupAt(regs, j)), 16, 12);
    spill := Mix(regs, groups, lanes, 8, 7);
    ShuffleAll(regs, groups, lanes, spill, sb, sc, sd);
  }

  ghost function PassedGroup(g: Group, n: nat): (r: Group)
    requires Wide(g, |g.a|)
    ensures Wide(r, |g.a|)
  {
    if n == 0 then g else PassGroup(PassedGroup(g, n - 1))
  }

  lemma {:induction false} PassedLane(g: Group, n: nat, l: nat)
    requires Wide(g, |g.a|) && l < |g.a|
    ensures LaneOf(PassedGroup(g, n), l) == RowPasses(LaneOf(g, l), n)
  {
    hide PassGroup, RowPass;
    if n > 0 {
      PassedLane(g, n - 1, l);
      PassLane(PassedGroup(g, n - 1), l);
    }
  }

  /** The rounds loop of all six vector paths, for 4, 2 or 1 register groups of one or two lanes. */
  method RoundsLoop(regs: array2<Vec>, groups: nat, lanes: nat)
    requires File(regs, groups, lanes) && groups > 0
    modifies regs
    ensures File(regs, groups, lanes)
    ensures forall j :: 0 <= j < groups ==> GroupAt(regs, j) == PassedGroup(old(GroupAt(regs, j)), DOUBLE_ROUNDS)
  {
    hide TurnedGroup;
    var rounds := CHACHA_ROUNDS;
    while rounds != 0
      invariant 0 <= rounds <= CHACHA_ROUNDS && rounds % 2 == 0
      invariant File(regs, groups, lanes)
      invariant forall j :: 0 <= j < groups ==>
                  GroupAt(regs, j) == PassedGroup(old(GroupAt(regs, j)), DOUBLE_ROUNDS - rounds / 2)
    {
      Turn(regs, groups, lanes, 0x39, 0x4e, 0x93);
      Turn(regs, groups, lanes, 0x93, 0x4e, 0x39);
      rounds := rounds - 2;
    }
  }

  // Memory.

  function RowByte(r: Row, k: nat): Byte
    requires k < 16
  {
    WordByte(Pick(r, k / 4), k % 4)
  }

  function RowsByte(q: Rows, k: nat): Byte
    requires k < 64
  {
    if k < 16 then RowByte(q.a, k)
    else if k < 32 then RowByte(q.b, k - 16)
    else if k < 48 then RowByte(q.c, k - 32)
    else RowByte(q.d, k - 48)
  }

  lemma RowsBytes(v: State, k: nat)
    requires k < 64
    ensures RowsByte(RowsOf(v), k) == StateByte(v, k)
  {
    hide WordByte;
    if k < 16 {
      assert k / 4 < 4;
    } else if k < 32 {
      assert k / 4 == 4 + (k - 16) / 4 && k % 4 == (k - 16) % 4;
    } else if k < 48 {
      assert k / 4 == 8 + (k - 32) / 4 && k % 4 == (k - 32) % 4;
    } else {
      assert k / 4 == 12 + (k - 48) / 4 && k % 4 == (k - 48) % 4;
    }
  }

  method LoadRow(x: array<Word>, r: nat) returns (v: Row)
    requires x.Length == 16 && r < 4
    ensures v == RowOf(x[..], r)
  {
    v := Row(x[4 * r], x[4 * r + 1], x[4 * r + 2], x[4 * r + 3]);
  }

  /** Reads 16 input bytes, xors a row into them and writes them out. */
  method XorRow(src: array<Byte>, s: nat, dst: array<Byte>, d: nat, r: Row)
    requires s + 16 <= src.Length && d + 16 <= dst.Length && Overlay(src, s, dst, d, 16)
    modifies dst
    ensures forall i :: 0 <= i < dst.Length && !(d <= i < d + 16) ==> dst[i] == old(dst[i])
    ensures forall i :: d <= i < d + 16 ==> dst[i] == XorByte(old(src[s + i - d]), RowByte(r, i - d))
  {
    hide XorByte, WordByte, Pick;
    ghost var b := src[s..s + 16];
    for w := 0 to 4
      invariant forall i :: 0 <= i < dst.Length && !(d <= i < d + 4 * w) ==> dst[i] == old(dst[i])
      invariant forall i :: s + 4 * w <= i < s + 16 ==> src[i] == b[i - s]
      invariant forall i :: d <= i < d + 4 * w ==> dst[i] == XorByte(b[i - d], RowByte(r, i - d))
    {
      PutWord(src, s + 4 * w, dst, d + 4 * w, Pick(r, w));
      assert forall k :: 4 * w <= k < 4 * w + 4 ==> RowByte(r, k) == WordByte(Pick(r, w), k - 4 * w);
    }
  }

  /** WriteXor of one block. */
  method XorRows(src: array<Byte>, s: nat, dst: array<Byte>, d: nat, q: Rows)
    requires s + 64 <= src.Length && d + 64 <= dst.Length && Overlay(src, s, dst, d, 64)
    modifies dst
    ensures forall i :: 0 <= i < dst.Length && !(d <= i < d + 64) ==> dst[i] == old(dst[i])
    ensures forall i :: d <= i < d + 64 ==> dst[i] == XorByte(old(src[s + i - d]), RowsByte(q, i - d))
  {
    hide XorByte, RowByte;
    XorRow(src, s, dst, d, q.a);
    XorRow(src, s + 16, dst, d + 16, q.b);
    XorRow(src, s + 32, dst, d + 32, q.c);
    XorRow(src, s + 48, dst, d + 48, q.d);
  }

  /** How far a block routine has come: p bytes are written, the rest is untouched. */
  ghost predicate Progress(src: array<Byte>, from: nat, dst: array<Byte>, to: nat,
                           b: seq<Byte>, key: seq<Byte>, p: nat, before: seq<Byte>)
    requires from + |b| <= src.Length && to + |b| <= dst.Length && |key| == |b|
    reads src, dst
  {
    && p <= |b| && |before| == dst.Length
    && (forall i :: 0 <= i < dst.Length && !(to <= i < to + p) ==> dst[i] == before[i])
    && (forall i :: from + p <= i < from + |b| ==> src[i] == b[i - from])
    && (forall i :: to <= i < to + p ==> dst[i] == XorByte(b[i - to], key[i - to]))
  }

  lemma Untouched(src: array<Byte>, from: nat, dst: array<Byte>, to: nat, b: seq<Byte>, key: seq<Byte>, before: seq<Byte>)
    requires from + |b| <= src.Length && to + |b| <= dst.Length && |key| == |b|
    requires b == src[from..from + |b|] && before == dst[..]
    ensures Progress(src, from, dst, to, b, key, 0, before)
  {
  }

  lemma Complete(src: array<Byte>, from: nat, dst: array<Byte>, to: nat, b: seq<Byte>, key: seq<Byte>, before: seq<Byte>)
    requires from + |b| <= src.Length && to + |b| <= dst.Length && |key| == |b| && |before| == dst.Length
    requires Progress(src, from, dst, to, b, key, |b|, before)
    ensures forall i :: 0 <= i < dst.Length && !(to <= i < to + |b|) ==> dst[i] == before[i]
    ensures forall i :: to <= i < to + |b| ==> dst[i] == XorByte(b[i - to], key[i - to])
  {
  }
}
