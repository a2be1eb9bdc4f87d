/** The incremental cipher of lib/chacha20/chacha20.go over any of its block functions. */
module Ciphers {
  import opened Words
  import opened ChaChaCore
  import opened ChaChaRef
  import opened Engines
  import opened Keystreams

  // Keys and nonces.

  datatype Error = ErrInvalidKey | ErrInvalidNonce | ErrInvalidCounter
  datatype Outcome = Ok | Err(error: Error)

  function WordsAt(b: seq<Byte>, at: nat, n: nat): (r: seq<Word>)
    requires at + 4 * n <= |b|
    ensures |r| == n
  {
    seq(n, i requires 0 <= i < n => WordAt(b, at + 4 * i))
  }

  function HStart(key: seq<Byte>, nonce: seq<Byte>): State
    requires |key| == 32 && |nonce| == 16
  {
    SIGMA + WordsAt(key, 0, 8) + WordsAt(nonce, 0, 4)
  }

  /** HChaCha20: the first and the last row of the rounds, without the final addition. */
  function HWords(key: seq<Byte>, nonce: seq<Byte>): seq<Word>
    requires |key| == 32 && |nonce| == 16
  {
    var v := DoubleRounds(HStart(key, nonce), DOUBLE_ROUNDS);
    v[..4] + v[12..]
  }

  /** The state for an 8 or 12 byte nonce and a key given as words. */
  function Keyed8(key: seq<Word>, nonce: seq<Byte>): State
    requires |key| == 8 && (|nonce| == 8 || |nonce| == 12)
  {
    SIGMA + key + [0] +
    (if |nonce| == 12 then WordsAt(nonce, 0, 3) else [0] + WordsAt(nonce, 0, 2))
  }

  lemma KeyedWords(key: seq<Word>, nonce: seq<Byte>)
    requires |key| == 8 && (|nonce| == 8 || |nonce| == 12)
    ensures var w := Keyed8(key, nonce);
            && w[..4] == SIGMA && (forall i :: 0 <= i < 8 ==> w[4 + i] == key[i]) && w[12] == 0
            && (|nonce| == 12 ==> w[13] == WordAt(nonce, 0) && w[14] == WordAt(nonce, 4) && w[15] == WordAt(nonce, 8))
            && (|nonce| == 8 ==> w[13] == 0 && w[14] == WordAt(nonce, 0) && w[15] == WordAt(nonce, 4))
  {
    hide WordAt;
  }

  /** The state that ReKey installs. */
  function FreshState(key: seq<Byte>, nonce: seq<Byte>): State
    requires |key| == 32 && (|nonce| == 8 || |nonce| == 12 || |nonce| == 24)
  {
    if |nonce| == 24 then Keyed8(HWords(key, nonce[..16]), nonce[16..])
    else Keyed8(WordsAt(key, 0, 8), nonce)
  }

  /** The words that go into HChaCha20: the constants, the key, and the first 16 bytes of the nonce. */
  function HInput(key: seq<Byte>, nonce: seq<Byte>): State
    requires |key| == 32 && |nonce| >= 16
  {
    [0x61707865, 0x3320646e, 0x79622d32, 0x6b206574] +
    [WordAt(key, 0), WordAt(key, 4), WordAt(key, 8), WordAt(key, 12),
     WordAt(key, 16), WordAt(key, 20), WordAt(key, 24), WordAt(key, 28)] +
    [WordAt(nonce, 0), WordAt(nonce, 4), WordAt(nonce, 8), WordAt(nonce, 12)]
  }

  /** The state word by word. */
  lemma FreshWords(key: seq<Byte>, nonce: seq<Byte>)
    requires |key| == 32 && (|nonce| == 8 || |nonce| == 12 || |nonce| == 24)
    ensures var x := FreshState(key, nonce);
            && x[..4] == [0x61707865, 0x3320646e, 0x79622d32, 0x6b206574] && x[12] == 0
            && (|nonce| != 24 ==> forall i :: 0 <= i < 8 ==> x[4 + i] == WordAt(key, 4 * i))
            && (|nonce| == 8 ==> x[13] == 0 && x[14] == WordAt(nonce, 0) && x[15] == WordAt(nonce, 4))
            && (|nonce| == 12 ==> x[13] == WordAt(nonce, 0) && x[14] == WordAt(nonce, 4) && x[15] == WordAt(nonce, 8))
    ensures |nonce| == 24 ==>
              var x, v := FreshState(key, nonce), DoubleRounds(HInput(key, nonce), 10);
              && x[13] == 0 && x[14] == WordAt(nonce, 16) && x[15] == WordAt(nonce, 20)
              && x[4..8] == v[..4] && x[8..12] == v[12..]
  {
    hide WordAt, DoubleRounds;
    if |nonce| == 24 {
      LongNonce(key, nonce);
    } else {
      hide Keyed8;
      KeyedWords(WordsAt(key, 0, 8), nonce);
    }
  }

  lemma LongNonce(key: seq<Byte>, nonce: seq<Byte>)
    requires |key| == 32 && |nonce| == 24
    ensures var x, v := FreshState(key, nonce), DoubleRounds(HInput(key, nonce), 10);
            && x[..4] == SIGMA && x[12] == 0 && x[13] == 0
            && x[14] == WordAt(nonce, 16) && x[15] == WordAt(nonce, 20)
            && x[4..8] == v[..4] && x[8..12] == v[12..]
  {
    hide LoadWord, DoubleRounds, Keyed8;
    var n, tail := nonce[..16], nonce[16..];
    HStarts(key, nonce);
    assert DOUBLE_ROUNDS == 10;
    var k := HWords(key, n);
    KeyedWords(k, tail);
    assert tail[0] == nonce[16] && tail[1] == nonce[17] && tail[2] == nonce[18] && tail[3] == nonce[19];
    assert tail[4] == nonce[20] && tail[5] == nonce[21] && tail[6] == nonce[22] && tail[7] == nonce[23];
    var w := Keyed8(k, tail);
    var v := DoubleRounds(HInput(key, nonce), 10);
    assert k == v[..4] + v[12..];
    assert w[4..12] == k;
    assert w[4..8] == w[4..12][..4] && w[8..12] == w[4..12][4..];
  }

  lemma HStarts(key: seq<Byte>, nonce: seq<Byte>)
    requires |key| == 32 && |nonce| >= 16
    ensures HStart(key, nonce[..16]) == HInput(key, nonce)
  {
    KeyWords(key);
    NonceWords(nonce);
    hide WordsAt, WordAt;
  }

  lemma KeyWords(key: seq<Byte>)
    requires |key| == 32
    ensures WordsAt(key, 0, 8) ==
      [WordAt(key, 0), WordAt(key, 4), WordAt(key, 8), WordAt(key, 12),
       WordAt(key, 16), WordAt(key, 20), WordAt(key, 24), WordAt(key, 28)]
  {
    hide WordAt;
  }

  lemma NonceWords(nonce: seq<Byte>)
    requires |nonce| >= 16
    ensures WordsAt(nonce[..16], 0, 4) == [WordAt(nonce, 0), WordAt(nonce, 4), WordAt(nonce, 8), WordAt(nonce, 12)]
  {
    hide LoadWord;
  }

  /** hChaChaRef, whose 32 output bytes ReKey reads back as eight words. */
  method HChaCha(key: seq<Byte>, nonce: seq<Byte>) returns (out: seq<Byte>)
    requires |key| == 32 && |nonce| == 16
    ensures |out| == 32 && WordsAt(out, 0, 8) == HWords(key, nonce)
  {
    hide DoubleRounds, WordByte, LoadWord;
    var v := RoundLoop(HStart(key, nonce));
    var w := [v[0], v[1], v[2], v[3], v[12], v[13], v[14], v[15]];
    assert w == HWords(key, nonce);
    out := [];
    for i := 0 to 8
      invariant |out| == 4 * i
      invariant forall j :: 0 <= j < i ==> WordAt(out, 4 * j) == w[j]
    {
      StoredWord(w[i]);
      var more := [WordByte(w[i], 0), WordByte(w[i], 1), WordByte(w[i], 2), WordByte(w[i], 3)];
      assert forall j :: 0 <= j < i ==> WordAt(out + more, 4 * j) == WordAt(out, 4 * j);
      out := out + more;
    }
  }

  function Shorter(m: nat, n: nat): nat {
    if m < n then m else n
  }

  /** The number a 64-bit counter stands for. */
  function CounterValue(c: bv64): nat {
    Val(Low(c)) + WORD_LIMIT * Val(High(c))
  }

  /** From a zero low word, the low word counts blocks while they fit in it. */
  lemma SeekLow(x: State, c: bv64)
    requires x[12] == 0 && High(c) == 0
    ensures Advance(x, CounterValue(c)) == x[12 := Low(c)]
  {
    hide Low, High, Advance;
    var n := CounterValue(c);
    ValBound(Low(c));
    ValZero();
    AdvanceNoCarry(x, n);
    ValInjective(Advance(x, n)[12], Low(c));
    forall i | 0 <= i < 16 && i != 12 && i != 13 ensures Advance(x, n)[i] == x[i] { AdvanceKeeps(x, n, i); }
  }

  /** From a zero counter, the two words together count the blocks. */
  lemma AdvanceCounts(x: State, n: nat)
    requires x[12] == 0 && x[13] == 0 && n < WORD_LIMIT * WORD_LIMIT
    ensures Val(Advance(x, n)[12]) + WORD_LIMIT * Val(Advance(x, n)[13]) == n
  {
    hide Val, Advance;
    ValZero();
    AdvanceWords(x, n);
    CountSmall(Carries(n));
  }

  /** The high word is back at its value after a whole number of turns. */
  lemma HighKept(x: State, n: nat)
    requires x[12] == 0
    ensures Advance(x, n)[13] == x[13] <==> LowCount(Carries(n)) == 0
  {
    hide Val, Advance, Carries;
    AdvanceWords(x, n);
    ValBound(x[13]);
    WholeTurns(Val(x[13]), Carries(n));
    if Val(Advance(x, n)[13]) == Val(x[13]) {
      ValInjective(Advance(x, n)[13], x[13]);
    }
  }

  lemma WholeTurns(a: nat, q: nat)
    requires a < WORD_LIMIT
    ensures LowCount(a + q) == a <==> LowCount(q) == 0
  {
  }

  lemma SeekBoth(x: State, c: bv64)
    requires x[12] == 0 && x[13] == 0
    ensures Advance(x, CounterValue(c)) == x[12 := Low(c)][13 := High(c)]
  {
    hide Low, High, Advance, Val;
    var n := CounterValue(c);
    var z := Advance(x, n);
    ValBound(Low(c));
    ValBound(High(c));
    AdvanceCounts(x, n);
    ValBound(z[12]);
    Digits(Val(z[12]), Val(z[13]), Val(Low(c)), Val(High(c)));
    ValInjective(z[12], Low(c));
    ValInjective(z[13], High(c));
    forall i | 0 <= i < 16 && i != 12 && i != 13 ensures z[i] == x[i] { AdvanceKeeps(x, n, i); }
  }

  /** The state after seeking. */
  function Sought(x: State, c: bv64, ietf: bool): State {
    if ietf then x[12 := Low(c)] else x[12 := Low(c)][13 := High(c)]
  }

  /** It is that many blocks after the start of a stream, of the same one unless the word of the
      nonce that the carries of n blocks reach has changed. */
  lemma SoughtTells(x: State, start: State, n: nat, c: bv64, ietf: bool)
    requires x == Advance(start, n) && start[12] == 0
    requires if ietf then High(c) == 0 else start[13] == 0
    ensures var now := if ietf then start[13 := x[13]] else start;
            && Sought(x, c, ietf) == Advance(now, CounterValue(c))
            && (ietf ==> (now == start <==> LowCount(Carries(n)) == 0))
  {
    hide Val, Low, High, Advance, LowCount, Carries;
    HighKept(start, n);
    forall i | 0 <= i < 16 && i != 12 && i != 13 ensures x[i] == start[i] { AdvanceKeeps(start, n, i); }
    if ietf {
      SeekLow(start[13 := x[13]], c);
    } else {
      SeekBoth(start, c);
    }
  }

  lemma Digits(a: nat, b: nat, c: nat, d: nat)
    requires a < WORD_LIMIT && c < WORD_LIMIT && a + WORD_LIMIT * b == c + WORD_LIMIT * d
    ensures a == c && b == d
  {
  }

  lemma HighZero(c: bv64)
    ensures c > 0xffff_ffff <==> High(c) != 0
  {
  }

  /** The requests that panic, in numbers: the largest number of blocks asked for at once, 1 for less
      than a block, is added to a word of the key. */
  lemma GuardSays(x: State, off: nat, n: nat, ietf: bool)
    requires off <= 64
    ensures NeedsRefused(x, off, n, ietf) <==>
      var left := n - (64 - off); ietf && left > 0 && Val(x[8]) + (if left < 64 then 1 else left / 64) > 0xffff_ffff
  {
    hide Val;
  }

  /** A cipher: start fixes its keystream, pos bytes of it are used up. */
  class Cipher {
    const engine: Engine
    const state: array<Word>
    const buf: array<Byte>
    var off: nat
    var ietf: bool
    ghost var start: State
    ghost var pos: nat

    ghost predicate Shape()
      reads this, state
    {
      && state.Length == 16 && buf.Length == 64 && off <= 64
      && state[..4] == SIGMA
    }

    ghost function M(): Machine
      requires state.Length == 16
      reads this, state, buf
    {
      Machine(state[..], off, buf[..])
    }

    /** The machine tells position pos of the keystream of start. */
    ghost predicate Valid()
      reads this, state, buf
    {
      Shape() && start[12] == 0 && (!ietf ==> start[13] == 0) && Tells(M(), start, pos)
    }

    /** A cipher with no key yet, as new(Cipher) makes it. */
    constructor (engine: Engine)
      ensures this.engine == engine && state.Length == 16 && buf.Length == 64
      ensures fresh(state) && fresh(buf)
    {
      this.engine := engine;
      state := new Word[16](i => 0);
      buf := new Byte[64](i => 0);
      off := 0;
      ietf := false;
      start := seq(16, i => 0);
      pos := 0;
    }

    method Reset()
      requires state.Length == 16 && buf.Length == 64
      modifies state, buf
      ensures forall i :: 0 <= i < 16 ==> state[i] == 0
      ensures forall i :: 0 <= i < 64 ==> buf[i] == 0
    {
      for i := 0 to 16
        invariant forall j :: 0 <= j < i ==> state[j] == 0
      {
        state[i] := 0;
      }
      for i := 0 to 64
        invariant forall j :: 0 <= j < 16 ==> state[j] == 0
        invariant forall j :: 0 <= j < i ==> buf[j] == 0
      {
        buf[i] := 0;
      }
    }

    /** A new key and nonce start a new stream at its first byte; a bad one changes nothing. */
    method ReKey(key: seq<Byte>, nonce: seq<Byte>) returns (r: Outcome)
      requires state.Length == 16 && buf.Length == 64
      modifies this, state, buf
      ensures |key| != 32 ==> r == Err(ErrInvalidKey)
      ensures |key| == 32 && |nonce| != 8 && |nonce| != 12 && |nonce| != 24 ==> r == Err(ErrInvalidNonce)
      ensures |key| == 32 && (|nonce| == 8 || |nonce| == 12 || |nonce| == 24) ==>
                && r == Ok && Valid() && start == FreshState(key, nonce) && pos == 0 && ietf == (|nonce| == 12)
                && off == 64 && state[..] == start
      ensures r == Ok ==> state[..4] == [0x61707865, 0x3320646e, 0x79622d32, 0x6b206574] && state[12] == 0
      ensures r == Ok && |nonce| != 24 ==> forall i :: 0 <= i < 8 ==> state[4 + i] == WordAt(key, 4 * i)
      ensures r == Ok && |nonce| == 8 ==> state[13] == 0 && state[14] == WordAt(nonce, 0) && state[15] == WordAt(nonce, 4)
      ensures r == Ok && |nonce| == 12 ==>
                state[13] == WordAt(nonce, 0) && state[14] == WordAt(nonce, 4) && state[15] == WordAt(nonce, 8)
      ensures r == Ok && |nonce| == 24 ==>
                && state[13] == 0 && state[14] == WordAt(nonce, 16) && state[15] == WordAt(nonce, 20)
                && var v := DoubleRounds(HInput(key, nonce), 10);
                   state[4..8] == v[..4] && state[8..12] == v[12..]
      ensures r != Ok ==> unchanged(this) && unchanged(state) && unchanged(buf)
    {
      hide WordAt, WordsAt, HWords, HInput, DoubleRounds, Keyed8, KeyBlock, Advance;
      if |key| != 32 {
        return Err(ErrInvalidKey);
      }
      var k, n := key, nonce;
      if |nonce| == 24 {
        k := HChaCha(key, nonce[0..16]);
        n := nonce[16..24];
        assert nonce[0..16] == nonce[..16] && nonce[16..24] == nonce[16..];
      } else if |nonce| != 8 && |nonce| != 12 {
        return Err(ErrInvalidNonce);
      }
      Reset();
      Install(k, n);
      FreshWords(key, nonce);
      off := 64;
      start := state[..];
      pos := 0;
      AdvanceNone(start);
      KeyedWords(WordsAt(k, 0, 8), n);
      r := Ok;
    }

    /** The word assignments of ReKey. */
    method Install(k: seq<Byte>, n: seq<Byte>)
      requires state.Length == 16 && |k| == 32 && (|n| == 8 || |n| == 12)
      modifies `ietf, state
      ensures state[..] == Keyed8(WordsAt(k, 0, 8), n) && ietf == (|n| == 12)
    {
      hide WordAt, Keyed8;
      ghost var key := WordsAt(k, 0, 8);
      KeyedWords(key, n);
      for i := 0 to 4
        invariant forall j :: 0 <= j < i ==> state[j] == SIGMA[j]
      {
        state[i] := SIGMA[i];
      }
      for i := 0 to 8
        invariant forall j :: 0 <= j < 4 ==> state[j] == SIGMA[j]
        invariant forall j :: 4 <= j < 4 + i ==> state[j] == key[j - 4]
      {
        state[4 + i] := WordAt(k, 4 * i);
      }
      hide WordsAt;
      state[12] := 0;
      if |n| == 12 {
        state[13], state[14], state[15] := WordAt(n, 0), WordAt(n, 4), WordAt(n, 8);
        ietf := true;
      } else {
        state[13] := 0;
        state[14], state[15] := WordAt(n, 0), WordAt(n, 4);
        ietf := false;
      }
      ghost var w := Keyed8(key, n);
      assert forall i :: 0 <= i < 4 ==> state[i] == w[..4][i];
      assert forall i :: 4 <= i < 12 ==> state[i] == w[4 + (i - 4)];
      assert forall i :: 0 <= i < 16 ==> state[i] == w[i];
    }

    /** The blocks of the stream that were produced, the one in the buffer included. */
    ghost function Produced(): nat
      reads this
    {
      pos / 64 + if off == 64 then 0 else 1
    }

    /** Seek: the stream continues at block blockCounter. For a 12-byte nonce that is so exactly
        when the carries of the blocks produced so far, one for every 2^32, have left word 13 as
        it was; else another stream continues there. */
    method Seek(blockCounter: bv64) returns (r: Outcome)
      requires Shape()
      modifies this, state
      ensures Shape() && ietf == old(ietf)
      ensures r == if ietf && High(blockCounter) != 0 then Err(ErrInvalidCounter) else Ok
      ensures r != Ok ==> unchanged(this) && unchanged(state)
      ensures r == Ok ==> M() == Machine(Sought(old(state[..]), blockCounter, ietf), 64, old(buf[..]))
      ensures r == Ok && old(Valid()) ==> Valid() && pos == 64 * CounterValue(blockCounter)
      ensures r == Ok && old(Valid()) ==>
                start == if ietf then old(start)[13 := Advance(old(start), old(Produced()))[13]] else old(start)
      ensures r == Ok && old(Valid()) && ietf ==> (start == old(start) <==> LowCount(Carries(old(Produced()))) == 0)
    {
      hide Val, Low, High, KeyBlock, Advance, LowCount, Carries;
      ghost var x: State := state[..];
      HighZero(blockCounter);
      if ietf {
        if blockCounter > 0xffff_ffff {
          return Err(ErrInvalidCounter);
        }
        state[12] := Low(blockCounter);
      } else {
        state[12] := Low(blockCounter);
        state[13] := High(blockCounter);
      }
      off := 64;
      assert state[..] == Sought(x, blockCounter, ietf);
      if old(Valid()) {
        SoughtTells(x, start, old(Produced()), blockCounter, ietf);
        start := if ietf then start[13 := x[13]] else start;
        pos := 64 * CounterValue(blockCounter);
        assert pos / 64 == CounterValue(blockCounter);
        assert forall i :: 0 <= i < 4 ==> start[i] == start[..4][i];
      }
      r := Ok;
    }

    /** One block of keystream into the internal buffer. */
    method Refill() returns (panicked: bool)
      requires Shape() && off == 64
      modifies `off, state, buf
      ensures Shape()
      ensures panicked <==> Refuses(old(state[..]), 1, ietf)
      ensures M() == if panicked then old(M()) else Machine(Advance(old(state[..]), 1), 0, KeyBlock(old(state[..])))
    {
      hide Val, XorByte, KeyByte, Advance, Refuses;
      ghost var x: State := state[..];
      panicked := Blocks(engine, state, null, 0, buf, 0, 64, 1, ietf);
      assert state[..4] == x[..4];
      if !panicked {
        off := 0;
        forall i | 0 <= i < 64 ensures buf[i] == KeyByte(x, i) {
          XorTwice(0, KeyByte(x, i));
        }
        assert buf[..] == KeyBlock(x);
      }
    }

    /** At a block boundary: all whole blocks at once, then one block into the buffer if a
        partial block is left. */
    method Produce(src: array?<Byte>, s: nat, dst: array<Byte>, d: nat, end: nat, remaining: nat)
      returns (panicked: bool, written: nat)
      requires Shape() && off == 64 && remaining > 0
      requires src != null ==> s + remaining <= src.Length
      requires d + remaining <= end <= dst.Length && Overlay(src, s, dst, d, remaining)
      requires dst != buf && src != buf
      modifies `off, state, buf, dst
      ensures Shape()
      ensures panicked <==> Refuses(old(state[..]), FirstRequest(remaining), ietf)
      ensures panicked ==> M() == old(M()) && dst[..] == old(dst[..])
      ensures written == if panicked then 0 else remaining - remaining % 64
      ensures forall i :: 0 <= i < dst.Length && !(d <= i < end) ==> dst[i] == old(dst[i])
      ensures src != null ==> forall i :: d + written <= i < end ==> dst[i] == old(dst[i])
      ensures !panicked ==>
                && M() == Left(engine, old(M()), remaining).(off := if remaining % 64 == 0 then 64 else 0)
                && Coded(dst[..], d, old(Input(src, s, remaining)), written, Fresh(engine, old(state[..]), remaining))
    {
      hide Val, XorByte, KeyByte, Advance, KeyBlock, Made, Final;
      ghost var b, x: State := Input(src, s, remaining), state[..];
      var nrBlocks := remaining / 64;
      written := 0;
      if nrBlocks > 0 {
        InputFront(src, s, remaining, 64 * nrBlocks);
        panicked := Blocks(engine, state, src, s, dst, d, end, nrBlocks, ietf);
        assert state[..4] == x[..4] && state[8] == x[8];
        if panicked {
          return;
        }
        written := 64 * nrBlocks;
        ghost var key := Fresh(engine, x, remaining);
        forall i | d <= i < d + written ensures dst[i] == XorByte(b[i - d], key[i - d]) {
          assert b[..64 * nrBlocks][i - d] == b[i - d];
        }
        if written == remaining {
          return;
        }
      } else {
        FinalNone(engine, x);
      }
      assert nrBlocks > 0 ==> !Refuses(x, 1, ietf);
      panicked := Refill();
    }

    /** Partial blocks from the buffer: xored into the input, or copied when there is none. */
    method Take(src: array?<Byte>, s: nat, dst: array<Byte>, d: nat, count: nat)
      requires Shape() && off + count <= 64
      requires src != null ==> s + count <= src.Length
      requires d + count <= dst.Length && Overlay(src, s, dst, d, count)
      requires dst != buf && src != buf
      modifies `off, dst
      ensures Shape() && M() == old(M()).(off := old(off) + count)
      ensures forall i :: 0 <= i < dst.Length && !(d <= i < d + count) ==> dst[i] == old(dst[i])
      ensures Coded(dst[..], d, old(Input(src, s, count)), count, old(buf[off..off + count]))
    {
      hide XorByte;
      ghost var b, key := Input(src, s, count), buf[off..off + count];
      for i := 0 to count
        invariant Shape() && off == old(off)
        invariant forall j :: 0 <= j < dst.Length && !(d <= j < d + i) ==> dst[j] == old(dst[j])
        invariant src != null ==> forall j :: s + i <= j < s + count ==> src[j] == b[j - s]
        invariant forall j :: d <= j < d + i ==> dst[j] == XorByte(b[j - d], key[j - d])
      {
        XorTwice(0, buf[off + i]);
        dst[d + i] := if src == null then buf[off + i] else XorByte(src[s + i], buf[off + i]);
      }
      off := off + count;
    }

    /** One pass of the loops of XORKeyStream and, without input, of KeyStream: the rest of the
        buffer, or from a boundary all that is wanted. */
    method Pass(src: array?<Byte>, s: nat, dst: array<Byte>, d: nat, remaining: nat)
      returns (panicked: bool, moved: nat)
      requires Shape() && remaining > 0
      requires src != null ==> s + remaining <= src.Length
      requires d + remaining <= dst.Length && Overlay(src, s, dst, d, remaining)
      requires dst != buf && src != buf
      modifies `off, state, buf, dst
      ensures Shape()
      ensures panicked <==> old(off) == 64 && Refuses(old(state[..]), FirstRequest(remaining), ietf)
      ensures panicked ==> moved == 0 && M() == old(M()) && dst[..] == old(dst[..])
      ensures forall i :: 0 <= i < dst.Length && !(d <= i < d + remaining) ==> dst[i] == old(dst[i])
      ensures forall i :: d + moved <= i < d + remaining ==> dst[i] == old(dst[i])
      ensures !panicked ==>
                && moved == Reach(old(M()), remaining) && M() == After(engine, old(M()), moved)
                && Unread(src, s, remaining, moved, old(Input(src, s, remaining)))
                && Coded(dst[..], d, old(Input(src, s, remaining)), moved, Stream(engine, old(M()), moved))
    {
      hide XorByte, KeyBlock, Refuses, FirstRequest, Fresh, Final, Advance, Coded, Unread;
      ghost var b, m := Input(src, s, remaining), M();
      if off == 64 {
        panicked, moved := WholePass(src, s, dst, d, remaining);
        assert [] + Fresh(engine, m.x, remaining) == Fresh(engine, m.x, remaining);
        return;
      }
      panicked := false;
      moved := if remaining < 64 - off then remaining else 64 - off;
      ghost var dstWas, srcWas := dst[..], if src == null then [] else src[..];
      InputFront(src, s, remaining, moved);
      Take(src, s, dst, d, moved);
      UnreadKept(srcWas, src, s, dstWas, dst, d, remaining, moved, b);
      assert Stream(engine, m, moved)[..moved] == m.buf[m.off..m.off + moved];
      CodedLonger(dst[..], d, b, moved, Stream(engine, m, moved));
    }

    /** A pass that starts at a block boundary. */
    method WholePass(src: array?<Byte>, s: nat, dst: array<Byte>, d: nat, n: nat) returns (panicked: bool, moved: nat)
      requires Shape() && off == 64 && n > 0
      requires src != null ==> s + n <= src.Length
      requires d + n <= dst.Length && Overlay(src, s, dst, d, n)
      requires dst != buf && src != buf
      modifies `off, state, buf, dst
      ensures Shape()
      ensures panicked <==> Refuses(old(state[..]), FirstRequest(n), ietf)
      ensures moved == if panicked then 0 else n
      ensures panicked ==> M() == old(M()) && dst[..] == old(dst[..])
      ensures forall i :: 0 <= i < dst.Length && !(d <= i < d + n) ==> dst[i] == old(dst[i])
      ensures !panicked ==>
                && M() == Left(engine, old(M()), n)
                && Unread(src, s, n, n, old(Input(src, s, n)))
                && Coded(dst[..], d, old(Input(src, s, n)), n, Fresh(engine, old(state[..]), n))
    {
      hide XorByte, KeyBlock, Refuses, FirstRequest, Final, Advance, Coded, Unread;
      ghost var b, x: State := Input(src, s, n), state[..];
      ghost var dstWas, srcWas := dst[..], if src == null then [] else src[..];
      panicked, moved := Produce(src, s, dst, d, d + n, n);
      if panicked {
        return;
      }
      UnreadKept(srcWas, src, s, dstWas, dst, d, n, moved, b);
      var toMove := n - moved;
      if toMove > 0 {
        TailKey(engine, x, n);
        Finish(src, s, dst, d, n, moved, b, Fresh(engine, x, n));
        moved := n;
      }
      UnreadKept(srcWas, src, s, dstWas, dst, d, n, n, b);
    }

    /** The partial block at the end of such a pass. */
    method Finish(src: array?<Byte>, s: nat, dst: array<Byte>, d: nat, n: nat, done: nat, ghost b: seq<Byte>,
                  ghost key: seq<Byte>)
      requires Shape() && off == 0 && done <= n <= done + 64 && |key| == n
      requires src != null ==> s + n <= src.Length
      requires d + n <= dst.Length && Overlay(src, s, dst, d, n)
      requires dst != buf && src != buf
      requires Unread(src, s, n, done, b) && Coded(dst[..], d, b, done, key) && key[done..] == buf[..n - done]
      modifies `off, dst
      ensures Shape() && M() == old(M()).(off := n - done) && Coded(dst[..], d, b, n, key)
      ensures forall i :: 0 <= i < dst.Length && !(d + done <= i < d + n) ==> dst[i] == old(dst[i])
    {
      hide XorByte, Coded, Unread;
      ghost var mid, m := dst[..], n - done;
      UnreadFront(src, s, n, done, b, m);
      UnreadAll(src, s, n, done, b);
      assert key[done..][..m] == buf[0..m] && key[done..done + m] == key[done..];
      Take(src, if src == null then 0 else s + done, dst, d + done, n - done);
      CodedLonger(dst[..], d + done, b[done..], m, key[done..]);
      CodedMore(mid, dst[..], d, b, done, m, key);
    }

    /** A pass that goes on where the last one stopped: b is the text, done bytes of it are done. */
    method Resume(src: array<Byte>, s: nat, dst: array<Byte>, d: nat, n: nat, done: nat, ghost b: seq<Byte>, ghost m0: Machine)
      returns (panicked: bool, moved: nat)
      requires Shape() && done < n && s + n <= src.Length && d + n <= dst.Length
      requires Overlay(src, s, dst, d, n) && dst != buf && src != buf
      requires Formed(m0) && Unread(src, s, n, done, b) && Underway(engine, m0, M(), done, n, ietf)
      requires Coded(dst[..], d, b, done, Stream(engine, m0, n))
      modifies `off, state, buf, dst
      ensures Shape()
      ensures panicked ==> NeedsRefused(m0.x, m0.off, n, ietf) && M() == m0.(off := 64) && done == 64 - m0.off
      ensures panicked ==> dst[..] == old(dst[..])
      ensures forall i :: 0 <= i < dst.Length && !(d + done <= i < d + n) ==> dst[i] == old(dst[i])
      ensures !panicked ==> 0 < moved <= n - done && Underway(engine, m0, M(), done + moved, n, ietf)
      ensures !panicked ==> Unread(src, s, n, done + moved, b) && Coded(dst[..], d, b, done + moved, Stream(engine, m0, n))
      ensures forall i :: d + done + moved <= i < d + n ==> dst[i] == old(dst[i])
    {
      hide XorByte, Refuses, FirstRequest, Coded, Unread, NeedsRefused, Underway, Stream, After;
      ghost var m, before := M(), dst[..];
      UnreadRest(src, s, n, done, b);
      assert Formed(m);
      panicked, moved := Pass(src, s + done, dst, d + done, n - done);
      if panicked {
        UnderwayPanics(engine, m0, m, done, n, ietf);
        return;
      }
      UnderwayStep(engine, m0, m, done, n, ietf);
      UnreadMore(src, s, n, done, moved, b);
      CodedMore(before, dst[..], d, b, done, moved, Stream(engine, m0, n));
    }

    /** The loop of XORKeyStream. */
    method XorLoop(dst: array<Byte>, d: nat, src: array<Byte>, s: nat, n: nat) returns (panicked: bool)
      requires Shape() && d + n <= dst.Length && s + n <= src.Length
      requires Overlay(src, s, dst, d, n) && dst != buf && src != buf
      modifies `off, state, buf, dst
      ensures Shape()
      ensures panicked <==> NeedsRefused(old(state[..]), old(off), n, ietf)
      ensures var k := if panicked then 64 - old(off) else n;
              && k <= n
              && M() == After(engine, old(M()), k)
              && Coded(dst[..], d, old(src[s..s + k]), k, Stream(engine, old(M()), k))
              && (forall i :: 0 <= i < dst.Length && !(d <= i < d + k) ==> dst[i] == old(dst[i]))
    {
      hide XorByte, Refuses, FirstRequest, Coded, NeedsRefused, Underway, Stream, After, Overlay;
      ghost var b, m0 := src[s..s + n], M();
      ghost var key := Stream(engine, m0, n);
      StartCoded(dst[..], d, b, key, src, s, n);
      hide Unread;
      UnderwayStart(engine, m0, n, ietf);
      var done: nat, remaining: nat := 0, n;
      while remaining > 0
        invariant 0 <= remaining && done + remaining == n && Shape()
        invariant forall i :: 0 <= i < dst.Length && !(d <= i < d + done) ==> dst[i] == old(dst[i])
        invariant Unread(src, s, n, done, b) && Underway(engine, m0, M(), done, n, ietf) && Coded(dst[..], d, b, done, key)
      {
        var moved;
        panicked, moved := Resume(src, s, dst, d, n, done, b, m0);
        if panicked {
          NeededMore(m0, n, ietf);
          BufferOnly(engine, m0, n, dst[..], d, b);
          assert b[..done] == old(src[s..s + done]);
          return;
        }
        done := done + moved;
        remaining := remaining - moved;
      }
      panicked := false;
      UnderwayEnds(engine, m0, M(), n, ietf);
    }

    /** XORKeyStream on the slices dst[d..] and src[s..] of the shorter length n. It panics
        exactly when a block is needed and the IETF guard refuses the request for it; then only
        the rest of the buffer was used. */
    method XORKeyStream(dst: array<Byte>, d: nat, dstLen: nat, src: array<Byte>, s: nat, srcLen: nat)
      returns (panicked: bool)
      requires Shape() && d + dstLen <= dst.Length && s + srcLen <= src.Length
      requires Overlay(src, s, dst, d, Shorter(dstLen, srcLen))
      requires dst != buf && src != buf
      modifies `off, `pos, state, buf, dst
      ensures Shape()
      ensures panicked <==> NeedsRefused(old(state[..]), old(off), Shorter(dstLen, srcLen), ietf)
      ensures var n := if panicked then 64 - old(off) else Shorter(dstLen, srcLen);
              && n <= Shorter(dstLen, srcLen)
              && M() == After(engine, old(M()), n)
              && Coded(dst[..], d, old(src[s..s + n]), n, Stream(engine, old(M()), n))
              && (forall i :: 0 <= i < dst.Length && !(d <= i < d + n) ==> dst[i] == old(dst[i]))
              && (old(Valid()) && Sound(engine, old(state[..]), n / 64) ==>
                    Valid() && pos == old(pos) + n && Stream(engine, old(M()), n) == KeySpan(start, old(pos), n))
    {
      hide Sound, Coded, NeedsRefused, Stream, After, Tells, KeySpan;
      var n := if dstLen < srcLen then dstLen else srcLen;
      panicked := XorLoop(dst, d, src, s, n);
      ghost var k := if panicked then 64 - old(off) else n;
      pos := pos + k;
      if old(Valid()) && Sound(engine, old(state[..]), k / 64) {
        StreamIs(engine, old(M()), start, old(pos), k);
      }
    }

    /** The same without a text. */
    method ResumeKey(dst: array<Byte>, d: nat, n: nat, done: nat, ghost m0: Machine) returns (panicked: bool, moved: nat)
      requires Shape() && done < n && d + n <= dst.Length && dst != buf
      requires Formed(m0) && Underway(engine, m0, M(), done, n, ietf)
      requires dst[d..d + done] == Stream(engine, m0, n)[..done]
      modifies `off, state, buf, dst
      ensures Shape()
      ensures panicked ==> NeedsRefused(m0.x, m0.off, n, ietf) && M() == m0.(off := 64) && done == 64 - m0.off
      ensures panicked ==> dst[..] == old(dst[..])
      ensures !panicked ==> 0 < moved <= n - done && Underway(engine, m0, M(), done + moved, n, ietf)
      ensures !panicked ==> dst[d..d + done + moved] == Stream(engine, m0, n)[..done + moved]
      ensures forall i :: 0 <= i < dst.Length && !(d + done <= i < d + done + moved) ==> dst[i] == old(dst[i])
    {
      hide XorByte, Refuses, FirstRequest, Coded, NeedsRefused, Underway, Stream, After, Unread;
      ghost var m, was := M(), dst[d..d + done];
      assert Formed(m);
      panicked, moved := Pass(null, 0, dst, d + done, n - done);
      if panicked {
        UnderwayPanics(engine, m0, m, done, n, ietf);
        return;
      }
      UnderwayStep(engine, m0, m, done, n, ietf);
      CodedZeros(dst[..], d + done, n - done, moved, Stream(engine, m, moved));
      assert dst[..][d + done..d + done + moved] == dst[d + done..d + done + moved];
      assert dst[d..d + done] == was;
      assert dst[d..d + done + moved] == dst[d..d + done] + dst[d + done..d + done + moved];
      ghost var key := Stream(engine, m0, n);
      assert key[..done + moved] == key[..done] + key[done..done + moved];
    }

    /** The loop of KeyStream. */
    method KeyLoop(dst: array<Byte>, d: nat, n: nat) returns (panicked: bool)
      requires Shape() && d + n <= dst.Length && dst != buf
      modifies `off, state, buf, dst
      ensures Shape()
      ensures panicked <==> NeedsRefused(old(state[..]), old(off), n, ietf)
      ensures var k := if panicked then 64 - old(off) else n;
              && k <= n
              && M() == After(engine, old(M()), k)
              && dst[d..d + k] == Stream(engine, old(M()), k)
              && (forall i :: 0 <= i < dst.Length && !(d <= i < d + k) ==> dst[i] == old(dst[i]))
    {
      hide Refuses, FirstRequest, NeedsRefused, Underway, Stream, After;
      ghost var m0 := M();
      ghost var key := Stream(engine, m0, n);
      UnderwayStart(engine, m0, n, ietf);
      var done: nat, remaining: nat := 0, n;
      while remaining > 0
        invariant 0 <= remaining && done + remaining == n && Shape()
        invariant forall i :: 0 <= i < dst.Length && !(d <= i < d + done) ==> dst[i] == old(dst[i])
        invariant Underway(engine, m0, M(), done, n, ietf) && dst[d..d + done] == key[..done]
      {
        var moved;
        panicked, moved := ResumeKey(dst, d, n, done, m0);
        if panicked {
          NeededMore(m0, n, ietf);
          StreamSplit(engine, m0, n);
          BufferMachine(engine, m0);
          return;
        }
        done := done + moved;
        remaining := remaining - moved;
      }
      panicked := false;
      UnderwayEnds(engine, m0, M(), n, ietf);
      assert key[..n] == key;
    }

    /** KeyStream on the slice dst[d..d + n]. */
    method KeyStream(dst: array<Byte>, d: nat, n: nat) returns (panicked: bool)
      requires Shape() && d + n <= dst.Length && dst != buf
      modifies `off, `pos, state, buf, dst
      ensures Shape()
      ensures panicked <==> NeedsRefused(old(state[..]), old(off), n, ietf)
      ensures var k := if panicked then 64 - old(off) else n;
              && k <= n
              && M() == After(engine, old(M()), k)
              && dst[d..d + k] == Stream(engine, old(M()), k)
              && (forall i :: 0 <= i < dst.Length && !(d <= i < d + k) ==> dst[i] == old(dst[i]))
              && (old(Valid()) && Sound(engine, old(state[..]), k / 64) ==>
                    Valid() && pos == old(pos) + k && Stream(engine, old(M()), k) == KeySpan(start, old(pos), k))
    {
      hide Sound, NeedsRefused, Stream, After, Tells, KeySpan;
      panicked := KeyLoop(dst, d, n);
      ghost var k := if panicked then 64 - old(off) else n;
      pos := pos + k;
      if old(Valid()) && Sound(engine, old(state[..]), k / 64) {
        StreamIs(engine, old(M()), start, old(pos), k);
      }
    }
  }
}
