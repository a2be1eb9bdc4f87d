/** ChaCha20 as sections 2.1, 2.3 and 2.4 of RFC 7539 define it, over the 64-bit block
    counter that lib/chacha20 keeps in words 12 and 13. Everything else in the cipher
    is proved against these functions. */
module ChaChaCore {
  import opened Words

  type State = s: seq<Word> | |s| == 16 witness seq(16, i => 0)

  const SIGMA: seq<Word> := [0x61707865, 0x3320646e, 0x79622d32, 0x6b206574]
  const BLOCK_SIZE: nat := 64
  const CHACHA_ROUNDS: nat := 20
  const DOUBLE_ROUNDS: nat := CHACHA_ROUNDS / 2

  // Word operations.

  function Add(x: Word, y: Word): Word { x + y }
  function Rotl16(x: Word): Word { (x << 16) | (x >> 16) }
  function Rotl12(x: Word): Word { (x << 12) | (x >> 20) }
  function Rotl8(x: Word): Word { (x << 8) | (x >> 24) }
  function Rotl7(x: Word): Word { (x << 7) | (x >> 25) }

  datatype Quad = Quad(a: Word, b: Word, c: Word, d: Word)

  /** Section 2.1: the quarter round on four words. */
  function QuarterWords(q: Quad): Quad {
    var a1 := Add(q.a, q.b);
    var d1 := Rotl16(XorWord(q.d, a1));
    var c1 := Add(q.c, d1);
    var b1 := Rotl12(XorWord(q.b, c1));
    var a2 := Add(a1, b1);
    var d2 := Rotl8(XorWord(d1, a2));
    var c2 := Add(c1, d2);
    var b2 := Rotl7(XorWord(b1, c2));
    Quad(a2, b2, c2, d2)
  }

  /** Section 2.2: a quarter round on four positions of the state. */
  function QuarterRound(v: State, a: nat, b: nat, c: nat, d: nat): State
    requires a < 16 && b < 16 && c < 16 && d < 16
  {
    var q := QuarterWords(Quad(v[a], v[b], v[c], v[d]));
    v[a := q.a][b := q.b][c := q.c][d := q.d]
  }

  function ColumnRound(v: State): State {
    QuarterRound(QuarterRound(QuarterRound(QuarterRound(v,
      0, 4, 8, 12), 1, 5, 9, 13), 2, 6, 10, 14), 3, 7, 11, 15)
  }

  function DiagonalRound(v: State): State {
    QuarterRound(QuarterRound(QuarterRound(QuarterRound(v,
      0, 5, 10, 15), 1, 6, 11, 12), 2, 7, 8, 13), 3, 4, 9, 14)
  }

  function DoubleRounds(v: State, n: nat): State {
    if n == 0 then v else DiagonalRound(ColumnRound(DoubleRounds(v, n - 1)))
  }

  function Sum(v: State, w: State): (r: State)
    ensures forall i :: 0 <= i < 16 ==> r[i] == Add(v[i], w[i])
  {
    seq(16, i requires 0 <= i < 16 => Add(v[i], w[i]))
  }

  /** The state with the constants of section 2.3 in its first row. */
  function Keyed(x: State): State {
    SIGMA + x[4..]
  }

  /** Section 2.3: twenty rounds, then the words of the start are added back. */
  function Block(x: State): State {
    Sum(DoubleRounds(Keyed(x), DOUBLE_ROUNDS), Keyed(x))
  }

  /** Byte k of a state in little-endian order. */
  function StateByte(v: State, k: nat): Byte
    requires k < 64
  {
    WordByte(v[k / 4], k % 4)
  }

  // The 64-bit counter in words 12 and 13.

  function Join(lo: Word, hi: Word): bv64 { ((hi as bv64) << 32) | (lo as bv64) }
  function Low(c: bv64): Word { (c & 0xffff_ffff) as Word }
  function High(c: bv64): Word { (c >> 32) as Word }

  function AddCounter(c: bv64, k: bv64): bv64 { c + k }

  function Counter(x: State): bv64 { Join(x[12], x[13]) }

  function WithCounter(x: State, c: bv64): State { x[12 := Low(c)][13 := High(c)] }

  function CountUp(x: State): State { WithCounter(x, AddCounter(Counter(x), 1)) }

  /** The state after n more blocks have been produced. */
  function Advance(x: State, n: nat): State {
    if n == 0 then x else CountUp(Advance(x, n - 1))
  }

  /** Section 2.4: byte p of the keystream that starts at x. */
  function KeyByte(x: State, p: nat): Byte {
    StateByte(Block(Advance(x, p / 64)), p % 64)
  }

  /** The first len bytes of the keystream. */
  function KeyBytes(x: State, len: nat): (r: seq<Byte>)
    ensures |r| == len && forall i :: 0 <= i < len ==> r[i] == KeyByte(x, i)
  {
    seq(len, i requires 0 <= i < len => KeyByte(x, i))
  }

  // Half rounds, position by position.

  /** A half round is four quarter rounds on its columns or diagonals. */
  predicate Quarter(v: State, w: State, a: nat, b: nat, c: nat, d: nat)
    requires a < 16 && b < 16 && c < 16 && d < 16
  {
    QuarterWords(Quad(v[a], v[b], v[c], v[d])) == Quad(w[a], w[b], w[c], w[d])
  }

  lemma Turned(v: State, w: State, a: nat, b: nat, c: nat, d: nat)
    requires a < 16 && b < 16 && c < 16 && d < 16 && a != b && a != c && a != d && b != c && b != d && c != d
    requires Quarter(v, w, a, b, c, d)
    ensures var r := QuarterRound(v, a, b, c, d);
            && r[a] == w[a] && r[b] == w[b] && r[c] == w[c] && r[d] == w[d]
            && forall i :: 0 <= i < 16 && i != a && i != b && i != c && i != d ==> r[i] == v[i]
  {
    hide QuarterWords;
  }

  /** Other positions do not matter. */
  lemma SameQuarter(v: State, u: State, w: State, a: nat, b: nat, c: nat, d: nat)
    requires a < 16 && b < 16 && c < 16 && d < 16 && Quarter(v, w, a, b, c, d)
    requires u[a] == v[a] && u[b] == v[b] && u[c] == v[c] && u[d] == v[d]
    ensures Quarter(u, w, a, b, c, d)
  {
    hide QuarterWords;
  }

  lemma Columns(v: State, w: State)
    requires Quarter(v, w, 0, 4, 8, 12) && Quarter(v, w, 1, 5, 9, 13)
    requires Quarter(v, w, 2, 6, 10, 14) && Quarter(v, w, 3, 7, 11, 15)
    ensures ColumnRound(v) == w
  {
    hide QuarterWords, QuarterRound;
    var v1 := QuarterRound(v, 0, 4, 8, 12);
    Turned(v, w, 0, 4, 8, 12);
    SameQuarter(v, v1, w, 1, 5, 9, 13);
    var v2 := QuarterRound(v1, 1, 5, 9, 13);
    Turned(v1, w, 1, 5, 9, 13);
    SameQuarter(v, v2, w, 2, 6, 10, 14);
    var v3 := QuarterRound(v2, 2, 6, 10, 14);
    Turned(v2, w, 2, 6, 10, 14);
    SameQuarter(v, v3, w, 3, 7, 11, 15);
    var v4 := QuarterRound(v3, 3, 7, 11, 15);
    Turned(v3, w, 3, 7, 11, 15);
  }

  lemma Diagonals(v: State, w: State)
    requires Quarter(v, w, 0, 5, 10, 15) && Quarter(v, w, 1, 6, 11, 12)
    requires Quarter(v, w, 2, 7, 8, 13) && Quarter(v, w, 3, 4, 9, 14)
    ensures DiagonalRound(v) == w
  {
    hide QuarterWords, QuarterRound;
    var v1 := QuarterRound(v, 0, 5, 10, 15);
    Turned(v, w, 0, 5, 10, 15);
    SameQuarter(v, v1, w, 1, 6, 11, 12);
    var v2 := QuarterRound(v1, 1, 6, 11, 12);
    Turned(v1, w, 1, 6, 11, 12);
    SameQuarter(v, v2, w, 2, 7, 8, 13);
    var v3 := QuarterRound(v2, 2, 7, 8, 13);
    Turned(v2, w, 2, 7, 8, 13);
    SameQuarter(v, v3, w, 3, 4, 9, 14);
    var v4 := QuarterRound(v3, 3, 4, 9, 14);
    Turned(v3, w, 3, 4, 9, 14);
  }

  // Laws of the counter.

  lemma PartsJoin(c: bv64)
    ensures Join(Low(c), High(c)) == c
  {
  }

  lemma {:induction false} AdvanceAdd(x: State, m: nat, n: nat)
    ensures Advance(Advance(x, m), n) == Advance(x, m + n)
  {
    hide CountUp;
    if n > 0 {
      AdvanceAdd(x, m, n - 1);
      assert Advance(x, m + n) == CountUp(Advance(x, m + n - 1));
    }
  }

  lemma CountUpKeeps(x: State, i: nat)
    requires i < 16 && i != 12 && i != 13
    ensures CountUp(x)[i] == x[i]
  {
    hide Counter, Low, High;
  }

  lemma {:induction false} AdvanceKeeps(x: State, n: nat, i: nat)
    requires i < 16 && i != 12 && i != 13
    ensures Advance(x, n)[i] == x[i]
  {
    if n > 0 {
      AdvanceKeeps(x, n - 1, i);
      CountUpKeeps(Advance(x, n - 1), i);
    }
  }

  /** The stream after n whole blocks is the stream of the advanced state. */
  lemma KeyByteShift(x: State, n: nat, p: nat)
    ensures KeyByte(Advance(x, n), p) == KeyByte(x, 64 * n + p)
  {
    hide Block, StateByte, Advance;
    AdvanceAdd(x, n, p / 64);
    assert (64 * n + p) / 64 == n + p / 64 && (64 * n + p) % 64 == p % 64;
  }

  lemma StepLow(lo: Word, hi: Word)
    ensures Low(Join(lo, hi) + 1) == Succ(lo)
  {
  }

  lemma StepHigh(lo: Word, hi: Word)
    requires lo != 0xffff_ffff
    ensures High(Join(lo, hi) + 1) == hi
  {
  }

  lemma StepCarry(hi: Word)
    ensures High(Join(0xffff_ffff, hi) + 1) == Succ(hi)
  {
  }

  /** A counter step is an increment of the low word that carries exactly at its wrap. */
  lemma CountUpWords(x: State)
    ensures CountUp(x)[12] == Succ(x[12])
    ensures CountUp(x)[13] == if x[12] == 0xffff_ffff then Succ(x[13]) else x[13]
  {
    StepLow(x[12], x[13]);
    if x[12] == 0xffff_ffff {
      StepCarry(x[13]);
    } else {
      StepHigh(x[12], x[13]);
    }
    hide Low, High, Join, Succ;
  }

  /** While the low word does not wrap, it counts and the high word stays. */
  lemma {:induction false} AdvanceNoCarry(x: State, n: nat)
    requires Val(x[12]) + n < WORD_LIMIT
    ensures Val(Advance(x, n)[12]) == Val(x[12]) + n && Advance(x, n)[13] == x[13]
  {
    if n > 0 {
      hide Val, CountUp, Succ;
      AdvanceNoCarry(x, n - 1);
      var y := Advance(x, n - 1);
      ValMax();
      CountUpWords(y);
      ValSucc(y[12]);
    }
  }

  /** What n blocks from zero leave in the low word, and how often it has carried. */
  function LowCount(n: nat): nat {
    n % WORD_LIMIT
  }

  function Carries(n: nat): nat {
    n / WORD_LIMIT
  }

  lemma NextCount(n: nat)
    ensures if LowCount(n) == WORD_LIMIT - 1 then LowCount(n + 1) == 0 && Carries(n + 1) == Carries(n) + 1
            else LowCount(n + 1) == LowCount(n) + 1 && Carries(n + 1) == Carries(n)
  {
  }

  /** The value of the word after w. */
  lemma SuccValue(w: Word)
    ensures Val(Succ(w)) == if Val(w) == WORD_LIMIT - 1 then 0 else Val(w) + 1
  {
    hide Val, Succ;
    ValMax();
    if Val(w) == WORD_LIMIT - 1 {
      ValInjective(w, 0xffff_ffff);
      WrapsToZero();
    } else {
      ValSucc(w);
    }
  }

  lemma WrapsToZero()
    ensures Val(Succ(0xffff_ffff)) == 0
  {
    ValZero();
  }

  /** From a zero low word, both words for every number of blocks: the low word counts modulo
      2^32, and the high word is moved by the carries. */
  lemma {:induction false} AdvanceWords(x: State, n: nat)
    requires x[12] == 0
    ensures Val(Advance(x, n)[12]) == LowCount(n)
    ensures Val(Advance(x, n)[13]) == LowCount(Val(x[13]) + Carries(n))
  {
    hide Val, CountUp, Succ, LowCount, Carries;
    if n == 0 {
      ValZero();
      ValBound(x[13]);
      CountSmall(0);
      CountSmall(Val(x[13]));
    } else {
      AdvanceWords(x, n - 1);
      var y := Advance(x, n - 1);
      CountUpWords(y);
      SuccValue(y[12]);
      SuccValue(y[13]);
      ValMax();
      NextCount(n - 1);
      NextCount(Val(x[13]) + Carries(n - 1));
      if LowCount(n - 1) == WORD_LIMIT - 1 {
        ValInjective(y[12], 0xffff_ffff);
      }
    }
  }

  lemma CountSmall(n: nat)
    requires n < WORD_LIMIT
    ensures LowCount(n) == n && Carries(n) == 0
  {
  }
}
