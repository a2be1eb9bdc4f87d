/** Ciphers that were given a key and a nonce reach the counters at which the guard and the AVX2
    routine fail. */
module CounterReach {
  import opened Words
  import opened ChaChaCore
  import opened ChaChaRef
  import Simd
  import opened BlocksAVX2
  import opened AvxAgreement
  import opened CounterGuard
  import opened Engines
  import opened Ciphers

  const AVX2: Engine := Amd64(true)

  // Requests to a cipher with a 12-byte nonce, whichever routine is selected.

  /** The guard lets all the requests pass, one after the other. */
  predicate Accepted(e: Engine, x: State, requests: seq<nat>)
    decreases |requests|
  {
    requests == [] || (!Refuses(x, requests[0], true) && Accepted(e, Final(e, x, requests[0]), requests[1..]))
  }

  function After(e: Engine, x: State, requests: seq<nat>): State
    decreases |requests|
  {
    if requests == [] then x else After(e, Final(e, x, requests[0]), requests[1..])
  }

  /** The nonce is as it was after every accepted sequence of requests. */
  ghost predicate NonceSafe(e: Engine, x: State) {
    forall requests :: Accepted(e, x, requests) ==> After(e, x, requests)[13] == x[13]
  }

  /** Behind a key word at its maximum only empty requests pass. */
  lemma {:induction false} NothingPasses(e: Engine, x: State, requests: seq<nat>)
    requires x[8] == 0xffff_ffff && Accepted(e, x, requests)
    ensures After(e, x, requests) == x
    decreases |requests|
  {
    hide Val, Advance;
    if requests != [] {
      ValMax();
      assert requests[0] == 0;
      AdvanceNone(x);
      NothingPasses(e, x, requests[1..]);
    }
  }

  function Times(m: nat, n: nat): (r: seq<nat>)
    ensures |r| == m
  {
    seq(m, _ => n)
  }

  /** Behind any other key word single blocks pass, as many as one likes. */
  lemma {:induction false} OnesPass(e: Engine, x: State, m: nat)
    requires x[8] != 0xffff_ffff
    ensures Accepted(e, x, Times(m, 1)) && After(e, x, Times(m, 1)) == Advance(x, m)
    decreases m
  {
    hide Val, Advance;
    if m == 0 {
      AdvanceNone(x);
    } else {
      NotMax(x[8]);
      assert !Refuses(x, 1, true);
      assert Times(m, 1)[0] == 1 && Times(m, 1)[1..] == Times(m - 1, 1);
      AdvanceKeeps(x, 1, 8);
      OnesPass(e, Advance(x, 1), m - 1);
      AdvanceAdd(x, 1, m - 1);
    }
  }

  /** From a fresh state the guard protects the nonce if and only if word 8 is at its maximum. */
  lemma NonceSafeIff(e: Engine, x: State)
    requires x[12] == 0
    ensures NonceSafe(e, x) <==> x[8] == 0xffff_ffff
  {
    hide Val, Advance, Final;
    if x[8] == 0xffff_ffff {
      forall requests | Accepted(e, x, requests) ensures After(e, x, requests)[13] == x[13] {
        NothingPasses(e, x, requests);
      }
    } else {
      OnesPass(e, x, WORD_LIMIT);
      ValZero();
      CarriesAt(x, WORD_LIMIT);
      SuccMoves(x[13]);
    }
  }

  lemma FreshCounter(key: seq<Byte>, nonce: seq<Byte>)
    requires |key| == 32 && (|nonce| == 8 || |nonce| == 12)
    ensures var x := FreshState(key, nonce);
            && x[..4] == SIGMA && x[12] == 0 && x[8] == WordAt(key, 16)
            && (|nonce| == 8 ==> x[13] == 0)
  {
    hide WordAt, Keyed8;
    KeyedWords(WordsAt(key, 0, 8), nonce);
    assert FreshState(key, nonce)[4 + 4] == WordsAt(key, 0, 8)[4];
  }

  /** The limit on a 12-byte nonce works for keys whose bytes 16 to 19 are all ones, and then it
      allows no keystream; for every other key accepted requests carry into the nonce, with every
      routine. */
  lemma KeyDecides(e: Engine, key: seq<Byte>, nonce: seq<Byte>)
    requires |key| == 32 && |nonce| == 12
    ensures NonceSafe(e, FreshState(key, nonce)) <==> WordAt(key, 16) == 0xffff_ffff
  {
    hide WordAt, FreshState, NonceSafe;
    FreshCounter(key, nonce);
    NonceSafeIff(e, FreshState(key, nonce));
  }

  /** One request to the AVX2 routine carries into the nonce only from the last counter value. */
  lemma GuardAvxIff(x: State)
    ensures (forall n: nat :: !Refuses(x, n, true) ==> Final(AVX2, x, n)[13] == x[13]) <==>
            x[12] != 0xffff_ffff || x[8] == 0xffff_ffff
  {
    hide Val, CountUp, Feed, Succ;
    SuccMoves(x[13]);
    ValMax();
    CountUpWords(x);
    assert Advance(x, 1) == CountUp(Advance(x, 0));
    hide Advance;
    AdvanceNone(x);
    if x[8] != 0xffff_ffff {
      NotMax(x[8]);
      assert !Refuses(x, 1, true);
    }
    if x[12] != 0xffff_ffff || x[8] == 0xffff_ffff {
      forall n: nat | !Refuses(x, n, true) ensures Final(AVX2, x, n)[13] == x[13] {
        FeedWords(x, n);
      }
    } else {
      assert Final(AVX2, x, 1)[13] != x[13];
    }
  }

  // When the keystream starts over.

  function Total(requests: seq<nat>): nat {
    if requests == [] then 0 else requests[0] + Total(requests[1..])
  }

  /** Requests that the AVX2 routine does not serve count in 64 bits. */
  lemma {:induction false} AfterTotal(e: Engine, x: State, requests: seq<nat>)
    requires e == AVX2 ==> forall n :: n in requests ==> n <= 1
    ensures After(e, x, requests) == Advance(x, Total(requests))
    decreases |requests|
  {
    hide Advance;
    if requests == [] {
      AdvanceNone(x);
    } else {
      assert requests[0] in requests && forall n :: n in requests[1..] ==> n in requests;
      AfterTotal(e, Advance(x, requests[0]), requests[1..]);
      AdvanceAdd(x, requests[0], Total(requests[1..]));
    }
  }

  lemma BothZero(n: nat)
    ensures n % (WORD_LIMIT * WORD_LIMIT) == 0 <==> LowCount(n) == 0 && LowCount(Carries(n)) == 0
  {
  }

  lemma AdvanceReturns(x: State, n: nat)
    requires x[12] == 0
    ensures Advance(x, n) == x <==> n % (WORD_LIMIT * WORD_LIMIT) == 0
  {
    hide Val, Advance, LowCount, Carries;
    AdvanceWords(x, n);
    BothZero(n);
    ValZero();
    ValBound(x[13]);
    WholeTurns(Val(x[13]), Carries(n));
    var y := Advance(x, n);
    if Val(y[12]) == Val(x[12]) { ValInjective(y[12], x[12]); }
    if Val(y[13]) == Val(x[13]) { ValInjective(y[13], x[13]); }
    forall i | 0 <= i < 16 && i != 12 && i != 13 ensures y[i] == x[i] { AdvanceKeeps(x, n, i); }
  }

  /** With every routine but AVX2, requests lead back to the fresh state exactly when their blocks
      are a multiple of 2^64. */
  lemma ReturnsIff(e: Engine, x: State, requests: seq<nat>)
    requires x[12] == 0 && e != AVX2
    ensures After(e, x, requests) == x <==> Total(requests) % (WORD_LIMIT * WORD_LIMIT) == 0
  {
    hide Advance;
    AfterTotal(e, x, requests);
    AdvanceReturns(x, Total(requests));
  }

  /** A request for two blocks moves the low word only. */
  lemma TwoBlocks(x: State, y: State, k: nat)
    requires x[12] == 0 && y == x[12 := y[12]] && Val(y[12]) == LowCount(k)
    ensures var z := Final(AVX2, y, 2); z == x[12 := z[12]] && Val(z[12]) == LowCount(k + 2)
  {
    hide Val, Feed, LowCount;
    FeedWords(y, 2);
    LowAdd(k, 2);
  }

  lemma LowAdd(k: nat, n: nat)
    ensures LowCount(LowCount(k) + n) == LowCount(k + n)
  {
  }

  lemma {:induction false} TwosPass(x: State, y: State, k: nat, m: nat)
    requires x[12] == 0 && y == x[12 := y[12]] && Val(y[12]) == LowCount(k) && Val(x[8]) + 2 < WORD_LIMIT
    ensures Accepted(AVX2, y, Times(m, 2)) && Total(Times(m, 2)) == 2 * m
    ensures var z := After(AVX2, y, Times(m, 2)); z == x[12 := z[12]] && Val(z[12]) == LowCount(k + 2 * m)
    decreases m
  {
    hide Val, Final, LowCount;
    if m == 0 {
      assert Times(m, 2) == [];
    } else {
      assert Times(m, 2)[0] == 2 && Times(m, 2)[1..] == Times(m - 1, 2);
      assert y[8] == x[8];
      TwoBlocks(x, y, k);
      TwosPass(x, Final(AVX2, y, 2), k + 2, m - 1);
      assert k + 2 + 2 * (m - 1) == k + 2 * m;
    }
  }

  /** A key word that is one of the two greatest lets single blocks pass at most. */
  lemma {:induction false} SinglesOnly(e: Engine, x: State, requests: seq<nat>)
    requires Val(x[8]) + 2 >= WORD_LIMIT && Accepted(e, x, requests)
    ensures forall n :: n in requests ==> n <= 1
    decreases |requests|
  {
    hide Val;
    if requests != [] {
      FinalKeeps(e, x, requests[0]);
      hide Final;
      SinglesOnly(e, Final(e, x, requests[0]), requests[1..]);
      assert requests[0] <= 1 && requests == [requests[0]] + requests[1..];
    }
  }

  /** With AVX2 a sequence of accepted requests leads back to the fresh state after 2^32 blocks, so
      that the keystream repeats, if and only if the guard ever accepts two blocks at once. */
  lemma AvxReturnsIff(x: State)
    requires x[12] == 0
    ensures (exists requests :: Accepted(AVX2, x, requests) && Total(requests) == WORD_LIMIT &&
                                After(AVX2, x, requests) == x) <==> Val(x[8]) + 2 < WORD_LIMIT
  {
    hide Val, Advance, Final;
    if Val(x[8]) + 2 < WORD_LIMIT {
      ValZero();
      CountSmall(0);
      TwosPass(x, x, 0, HALF);
      var z := After(AVX2, x, Times(HALF, 2));
      assert LowCount(0 + 2 * HALF) == 0;
      ValInjective(z[12], 0);
      assert z == x;
    } else {
      forall requests | Accepted(AVX2, x, requests) && Total(requests) == WORD_LIMIT
        ensures After(AVX2, x, requests) != x
      {
        SinglesOnly(AVX2, x, requests);
        AfterTotal(AVX2, x, requests);
        AdvanceReturns(x, WORD_LIMIT);
        assert WORD_LIMIT % (WORD_LIMIT * WORD_LIMIT) != 0;
      }
    }
  }

  /** For a keyed cipher: two words in 2^32 escape. */
  lemma KeyReturns(key: seq<Byte>, nonce: seq<Byte>)
    requires |key| == 32 && |nonce| == 12
    ensures var x := FreshState(key, nonce);
            (exists requests :: Accepted(AVX2, x, requests) && Total(requests) == WORD_LIMIT &&
                                After(AVX2, x, requests) == x) <==> Val(WordAt(key, 16)) + 2 < WORD_LIMIT
  {
    hide WordAt, FreshState, Val, Accepted, After, Total;
    FreshCounter(key, nonce);
    AvxReturnsIff(FreshState(key, nonce));
  }

  const HALF: nat := WORD_LIMIT / 2

  /** With a zero key word two requests of half the limit are enough: the nonce changes, or with
      AVX2 the cipher is where it began. */
  lemma TwoRequests(e: Engine, key: seq<Byte>, nonce: seq<Byte>)
    requires |key| == 32 && |nonce| == 12 && WordAt(key, 16) == 0
    ensures var x := FreshState(key, nonce);
            && Accepted(e, x, [HALF, HALF])
            && (if e == AVX2 then After(e, x, [HALF, HALF]) == x
                else After(e, x, [HALF, HALF])[13] == Succ(x[13]) != x[13])
  {
    hide WordAt, FreshState, Val, Advance, Succ, Final;
    FreshCounter(key, nonce);
    var x := FreshState(key, nonce);
    ValZero();
    FinalKeeps(e, x, HALF);
    var y := Final(e, x, HALF);
    assert !Refuses(x, HALF, true) && !Refuses(y, HALF, true);
    Unfold(e, x, HALF, HALF);
    if e == AVX2 {
      HalfTwice(x);
    } else {
      assert [HALF, HALF][1..] == [HALF] && [HALF][1..] == [];
      assert Total([HALF]) == HALF + Total([]) && Total([HALF, HALF]) == HALF + Total([HALF]);
      AfterTotal(e, x, [HALF, HALF]);
      CarriesAt(x, WORD_LIMIT);
      SuccMoves(x[13]);
    }
  }

  lemma Unfold(e: Engine, x: State, m: nat, n: nat)
    ensures var y := Final(e, x, m);
            && (Accepted(e, x, [m, n]) <==> !Refuses(x, m, true) && !Refuses(y, n, true))
            && After(e, x, [m, n]) == Final(e, y, n)
  {
    hide Final, Refuses;
    assert [m, n][1..] == [n] && [n][1..] == [];
    var z := Final(e, Final(e, x, m), n);
    assert Accepted(e, z, []) && After(e, z, []) == z;
    assert Accepted(e, Final(e, x, m), [n]) <==> !Refuses(Final(e, x, m), n, true);
    assert After(e, Final(e, x, m), [n]) == z;
  }

  lemma HalfTwice(x: State)
    requires x[12] == 0
    ensures Final(AVX2, Final(AVX2, x, HALF), HALF) == x
  {
    hide Val, Feed;
    ValZero();
    FeedWords(x, HALF);
    var y := Final(AVX2, x, HALF);
    assert y == x[12 := y[12]];
    FeedWords(y, HALF);
    var z := Final(AVX2, y, HALF);
    assert z == x[12 := z[12]];
    ValInjective(z[12], 0);
  }

  // The AVX2 routine after a Seek.

  const LAST: bv64 := 0xffff_ffff

  /** With an 8-byte nonce, seek to the last block whose number fits one word: on a request for two
      blocks the routine then leaves a counter that is not the next one. */
  lemma AvxAfterSeek(key: seq<Byte>, nonce: seq<Byte>)
    requires |key| == 32 && |nonce| == 8
    ensures var x := Advance(FreshState(key, nonce), CounterValue(LAST));
            !Sound(Amd64(true), x, 2) && Final(Amd64(true), x, 2) != Advance(x, 2)
  {
    hide WordAt, FreshState, Val, Advance, Feed;
    FreshCounter(key, nonce);
    var start := FreshState(key, nonce);
    var x := Advance(start, CounterValue(LAST));
    LastWord();
    SeekLow(start, LAST);
    ValMax();
    FeedWrong(x, 2);
    if Final(Amd64(true), x, 2) == Advance(x, 2) {
      RowFromState(x, Feed(x, 2), Advance(x, 2));
    }
  }

  lemma LastWord()
    ensures High(LAST) == 0 && Low(LAST) == 0xffff_ffff
  {
  }

  lemma RowFromState(x: State, r: Simd.Row, y: State)
    requires WithRow(x, r) == y
    ensures r == Simd.RowOf(y, 3)
  {
    assert y[12] == r.a && y[13] == r.b && y[14] == r.c && y[15] == r.d;
  }
}
