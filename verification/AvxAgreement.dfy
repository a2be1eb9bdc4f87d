/** When blocksAmd64AVX2 agrees with the reference: exactly when the low counter word does
    not wrap. Its register set-up adds counters in 64 bits, the rest of it in 32 bits. */
module AvxAgreement {
  import opened Words
  import opened ChaChaCore
  import opened ChaChaRef
  import opened Simd
  import opened BlocksSSE2
  import opened BlocksAVX2

  /** Every block starts from and adds back the counter of the reference, and the counter
      written back is the one the reference leaves. */
  ghost predicate CountersAgree(x: State, n: nat) {
    && (forall i :: 0 <= i < n ==> BlockAgrees(x, n, i))
    && Feed(x, n) == RowOf(Advance(x, n), 3)
  }

  ghost predicate BlockAgrees(x: State, n: nat, i: nat) {
    GroupFits(n, i);
    Initial(x, n, i) == RowOf(Advance(x, i), 3) && Feed(x, i) == RowOf(Advance(x, i), 3)
  }

  lemma AddTwo(lo: Word, hi: Word)
    ensures Add(lo, 2) == Succ(Succ(lo)) && Add(hi, 0) == hi && Succ(hi) != hi
  {
  }

  lemma QuadTwo(c: bv64)
    ensures AddCounter(c, 2) == AddCounter(AddCounter(c, 1), 1)
  {
  }

  lemma QuadTwice(r: Row)
    ensures PADDQ(r, 2) == PADDQ(PADDQ(r, 1), 1)
  {
    QuadTwo(Join(r.a, r.b));
    PartsJoin(AddCounter(Join(r.a, r.b), 1));
    hide Low, High, Join, AddCounter;
  }

  lemma {:induction false} BumpQAhead(x: State, m: nat, g: nat)
    ensures BumpQ(RowOf(Advance(x, m), 3), g) == RowOf(Advance(x, m + 2 * g), 3)
  {
    hide PADDQ, RowOf, Advance;
    if g > 0 {
      BumpQAhead(x, m, g - 1);
      QuadTwice(RowOf(Advance(x, m + 2 * (g - 1)), 3));
      CounterRow(x, m + 2 * (g - 1));
      CounterRow(x, m + 2 * (g - 1) + 1);
    }
  }

  /** A 32-bit step of two keeps the high word, whatever the low word does. */
  lemma FeedStep(x: State, i: nat)
    ensures var r, s := Feed(x, i), Feed(x, i + 2);
            s == Row(Succ(Succ(r.a)), r.b, r.c, r.d)
  {
    hide Feed, Succ;
    FeedNext(x, i);
    var r := Feed(x, i);
    AddTwo(r.a, r.b);
    AddTwo(r.a, r.c);
    AddTwo(r.a, r.d);
    hide Add;
  }

  lemma FeedStart(x: State)
    ensures Feed(x, 0) == RowOf(Advance(x, 0), 3) && Feed(x, 1) == RowOf(Advance(x, 1), 3)
  {
    hide RowOf, PADDQ, CountUp;
    AdvanceNone(x);
    CounterRow(x, 0);
    assert Bump(RowOf(x, 3), 0) == RowOf(x, 3);
    assert Bump(PADDQ(RowOf(x, 3), 1), 0) == PADDQ(RowOf(x, 3), 1);
  }

  /** Two steps of the reference counter that do not wrap the low word. */
  lemma TwoUp(x: State, i: nat)
    requires Val(x[12]) + i + 2 < WORD_LIMIT
    ensures var y, z := Advance(x, i), Advance(x, i + 2);
            RowOf(z, 3) == Row(Succ(Succ(y[12])), y[13], y[14], y[15])
  {
    hide Val, Succ, CountUp;
    AdvanceNoCarry(x, i);
    AdvanceNoCarry(x, i + 1);
    ValMax();
    var y := Advance(x, i);
    CountUpWords(y);
    CountUpWords(CountUp(y));
    CountUpKeeps(y, 14); CountUpKeeps(CountUp(y), 14);
    CountUpKeeps(y, 15); CountUpKeeps(CountUp(y), 15);
    assert Advance(x, i + 2) == CountUp(CountUp(y));
  }

  /** Until the low word wraps, the 32-bit counters are right. */
  lemma {:induction false} FeedRight(x: State, i: nat)
    requires i <= 1 || Val(x[12]) + i < WORD_LIMIT
    ensures Feed(x, i) == RowOf(Advance(x, i), 3)
  {
    hide Feed, Advance, Val, Succ;
    if i <= 1 {
      FeedStart(x);
    } else {
      FeedRight(x, i - 2);
      FeedStep(x, i - 2);
      TwoUp(x, i - 2);
    }
  }

  /** At the wrap, and one block after it, the high word is one too small. */
  lemma FeedWrong(x: State, i: nat)
    requires i >= 2 && (Val(x[12]) + i == WORD_LIMIT || (Val(x[12]) + 1 == WORD_LIMIT && i == 2))
    ensures Feed(x, i) != RowOf(Advance(x, i), 3)
  {
    hide Feed, Val, Succ, CountUp;
    FeedRight(x, i - 2);
    FeedStep(x, i - 2);
    AddTwo(0, x[13]);
    assert Feed(x, i).b == x[13] by { AdvanceNoCarry(x, i - 2); }
    var y := Advance(x, i - 2);
    CountUpWords(y);
    CountUpWords(CountUp(y));
    assert Advance(x, i) == CountUp(CountUp(y));
    ValMax();
    if Val(x[12]) + i == WORD_LIMIT {
      AdvanceNoCarry(x, i - 1);
      AdvanceNoCarry(x, i - 2);
      assert Advance(x, i - 1) == CountUp(y);
      ValInjective(CountUp(y)[12], 0xffff_ffff);
      MaxIsNotNext(y[12]);
    } else {
      assert y == x;
      ValInjective(x[12], 0xffff_ffff);
      ZeroAfterMax();
    }
  }

  lemma MaxIsNotNext(w: Word)
    ensures Succ(w) == 0xffff_ffff ==> w != 0xffff_ffff
  {
  }

  lemma ZeroAfterMax()
    ensures Succ(0xffff_ffff) == 0 && (0 as Word) != 0xffff_ffff
  {
  }

  /** The blocks of the first register groups start from the right counter even across the wrap: the
      set-up adds in 64 bits. */
  lemma FirstGroups(x: State, n: nat, i: nat)
    requires n >= 8 && i < 8
    ensures 2 * GroupOf(n, i) <= i && Initial(x, n, i) == RowOf(Advance(x, i), 3)
  {
    hide Feed, RowOf, BumpQ, Advance;
    var g := i / 2;
    assert GroupOf(n, i) == g && i - 2 * g <= 1;
    FeedRight(x, i - 2 * g);
    BumpQAhead(x, i - 2 * g, g);
  }

  /** What the 32-bit counters hold, for every state and every number of blocks: the low word is
      right modulo 2^32, and the high word moves only if the very first step, in 64 bits, carries. */
  lemma {:induction false} FeedWords(x: State, i: nat)
    ensures var r := Feed(x, i);
            && Val(r.a) == LowCount(Val(x[12]) + i)
            && r.b == (if i % 2 == 1 && x[12] == 0xffff_ffff then Succ(x[13]) else x[13])
            && r.c == x[14] && r.d == x[15]
  {
    hide Feed, Val, Succ, CountUp, LowCount, Carries;
    FeedStart(x);
    if i == 0 {
      ValBound(x[12]);
      CountSmall(Val(x[12]));
    } else if i == 1 {
      CountUpWords(x);
      ValBound(x[12]);
      CountSmall(Val(x[12]));
      SuccLow(x[12], Val(x[12]));
      CountUpKeeps(x, 14);
      CountUpKeeps(x, 15);
      assert Advance(x, 1) == CountUp(Advance(x, 0));
    } else {
      FeedWords(x, i - 2);
      FeedStep(x, i - 2);
      var r := Feed(x, i - 2);
      SuccLow(r.a, Val(x[12]) + i - 2);
      SuccLow(Succ(r.a), Val(x[12]) + i - 1);
    }
  }

  /** The next word holds the next count. */
  lemma SuccLow(w: Word, n: nat)
    requires Val(w) == LowCount(n)
    ensures Val(Succ(w)) == LowCount(n + 1)
  {
    hide Val, Succ;
    SuccValue(w);
  }

  /** The exact condition, for every state and every number of blocks. */
  lemma AvxAgreesIff(x: State, n: nat)
    ensures CountersAgree(x, n) <==> n <= 1 || Val(x[12]) + n < WORD_LIMIT
  {
    hide Val, Feed, Advance, RowOf, BumpQ, GroupOf;
    if n <= 1 || Val(x[12]) + n < WORD_LIMIT {
      FeedRight(x, n);
      forall i | 0 <= i < n ensures BlockAgrees(x, n, i) {
        GroupFits(n, i);
        var m := i - 2 * GroupOf(n, i);
        FeedRight(x, i);
        FeedRight(x, m);
        BumpQAhead(x, m, GroupOf(n, i));
      }
    } else {
      ValBound(x[12]);
      var m := WORD_LIMIT - Val(x[12]);
      var i := if m == 1 then 2 else m;
      FeedWrong(x, i);
      assert i == n || !BlockAgrees(x, n, i);
    }
  }

  /** Within the condition the AVX2 routine produces the bytes and the state of the reference. */
  lemma AvxRefines(x: State, n: nat)
    requires x[..4] == SIGMA
    requires n <= 1 || Val(x[12]) + n < WORD_LIMIT
    ensures WithRow(x, Feed(x, n)) == Advance(x, n)
    ensures forall p :: 0 <= p < 64 * n ==> AvxByte(x, n, p) == KeyByte(x, p)
  {
    hide Val, Feed, Advance, RowOf, Initial, SplitBlock, Block, StateByte, WithRow;
    AvxAgreesIff(x, n);
    RowBack(x, n);
    forall p | 0 <= p < 64 * n ensures AvxByte(x, n, p) == KeyByte(x, p) {
      var i := p / 64;
      assert BlockAgrees(x, n, i);
      SameBlock(x, i);
    }
  }

  lemma RowBack(x: State, n: nat)
    ensures WithRow(x, RowOf(Advance(x, n), 3)) == Advance(x, n)
  {
    hide Advance;
    forall i | 0 <= i < 12 ensures Advance(x, n)[i] == x[i] { AdvanceKeeps(x, n, i); }
  }

  lemma SameBlock(x: State, i: nat)
    requires x[..4] == SIGMA
    ensures SplitBlock(x, RowOf(Advance(x, i), 3), RowOf(Advance(x, i), 3)) == Block(Advance(x, i))
  {
    hide Advance, RowOf, WithRow, DoubleRounds, Sum;
    RowBack(x, i);
    var z := Advance(x, i);
    forall k | 0 <= k < 4 ensures z[k] == x[k] { AdvanceKeeps(x, i, k); }
    assert z[..4] == SIGMA;
    assert Keyed(z) == z;
  }
}
