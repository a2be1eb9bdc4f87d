/** The limit on the keystream of a 12-byte nonce. The guard of blocksRef and blocksAmd64 is
    there to keep the block counter, word 12, from carrying into the nonce, word 13; it adds the
    number of blocks to word 8, a word of the key. */
module CounterGuard {
  import opened Words
  import opened ChaChaCore
  import opened ChaChaRef

  /** The block after the last one of the low word carries. */
  lemma CarriesAt(x: State, n: nat)
    requires n > 0 && Val(x[12]) + n == WORD_LIMIT
    ensures Advance(x, n)[13] == Succ(x[13])
  {
    hide Val, CountUp, Succ;
    AdvanceNoCarry(x, n - 1);
    ValMax();
    var y := Advance(x, n - 1);
    ValInjective(y[12], 0xffff_ffff);
    CountUpWords(y);
  }

  lemma SuccMoves(w: Word)
    ensures Succ(w) != w
  {
  }

  /** The guard protects the nonce if and only if the counter is not above the key word: below
      it, it may refuse too early, above it, it lets the counter carry into the nonce. */
  lemma GuardIff(x: State)
    ensures (forall n: nat :: !Refuses(x, n, true) ==> Advance(x, n)[13] == x[13]) <==> Val(x[12]) <= Val(x[8])
  {
    hide Val, Advance, Succ;
    if Val(x[12]) <= Val(x[8]) {
      forall n: nat | !Refuses(x, n, true) ensures Advance(x, n)[13] == x[13] {
        AdvanceNoCarry(x, n);
      }
    } else {
      ValBound(x[12]);
      var n := WORD_LIMIT - Val(x[12]);
      CarriesAt(x, n);
      SuccMoves(x[13]);
      assert !Refuses(x, n, true) && Advance(x, n)[13] != x[13];
    }
  }

  /** The guard refuses exactly the requests that would carry if and only if the two words are
      equal, which no caller arranges. */
  lemma GuardExactIff(x: State)
    ensures (forall n: nat :: Refuses(x, n, true) <==> Val(x[12]) + n >= WORD_LIMIT) <==> Val(x[12]) == Val(x[8])
  {
    hide Val;
    ValBound(x[12]);
    ValBound(x[8]);
    var n, m := WORD_LIMIT - Val(x[12]), WORD_LIMIT - Val(x[8]);
    assert Refuses(x, n, true) <==> Val(x[8]) + n >= WORD_LIMIT;
    assert Refuses(x, m, true);
  }

  /** A fresh cipher whose key has this word at its maximum gives no keystream at all. */
  lemma FreshRefused(x: State, n: nat)
    requires x[8] == 0xffff_ffff && x[12] == 0 && n > 0
    ensures Refuses(x, n, true) && Val(x[12]) == 0
  {
    ValMax();
    ValZero();
  }
}
