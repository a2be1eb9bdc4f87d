/** Machine words as the ciphers and the wire formats use them: bytes, little-endian
    32-bit words, 64-bit counters held in two words, and the numeric value of a word. */
module Words {

  type Byte = bv8
  type Word = bv32

  // Little-endian packing (binary.LittleEndian.Uint32 / PutUint32).

  function LoadWord(b0: Byte, b1: Byte, b2: Byte, b3: Byte): Word {
    (b0 as Word) | ((b1 as Word) << 8) | ((b2 as Word) << 16) | ((b3 as Word) << 24)
  }

  function WordByte(w: Word, k: nat): Byte
    requires k < 4
  {
    if k == 0 then (w & 0xff) as Byte
    else if k == 1 then ((w >> 8) & 0xff) as Byte
    else if k == 2 then ((w >> 16) & 0xff) as Byte
    else ((w >> 24) & 0xff) as Byte
  }

  function WordAt(b: seq<Byte>, i: nat): Word
    requires i + 4 <= |b|
  {
    LoadWord(b[i], b[i + 1], b[i + 2], b[i + 3])
  }

  function XorByte(a: Byte, b: Byte): Byte {
    a ^ b
  }

  function XorWord(x: Word, y: Word): Word {
    x ^ y
  }

  lemma LoadedBytes(b0: Byte, b1: Byte, b2: Byte, b3: Byte)
    ensures var w := LoadWord(b0, b1, b2, b3);
            WordByte(w, 0) == b0 && WordByte(w, 1) == b1 && WordByte(w, 2) == b2 && WordByte(w, 3) == b3
  {
  }

  lemma StoredWord(w: Word)
    ensures LoadWord(WordByte(w, 0), WordByte(w, 1), WordByte(w, 2), WordByte(w, 3)) == w
  {
  }

  lemma XorBytes(x: Word, y: Word, k: nat)
    requires k < 4
    ensures WordByte(XorWord(x, y), k) == XorByte(WordByte(x, k), WordByte(y, k))
  {
    if k == 0 {
    } else if k == 1 {
    } else if k == 2 {
    } else {
    }
  }

  lemma XorTwice(a: Byte, k: Byte)
    ensures XorByte(XorByte(a, k), k) == a && XorByte(0, k) == k
  {
  }

  // The numeric value of a word, bit by bit.

  const WORD_LIMIT: nat := 0x1_0000_0000

  function LowBit(w: Word): nat {
    if w & 1 == 1 then 1 else 0
  }

  function Half(w: Word): (h: Word)
    ensures w != 0 ==> h < w
  {
    w >> 1
  }

  function Val(w: Word): (n: nat)
    decreases w
  {
    if w == 0 then 0 else LowBit(w) + 2 * Val(Half(w))
  }

  lemma HalfAndBit(v: Word, w: Word)
    requires Half(v) == Half(w) && LowBit(v) == LowBit(w)
    ensures v == w
  {
    assert v & 1 == w & 1;
    assert v == ((v >> 1) << 1) | (v & 1);
    assert w == ((w >> 1) << 1) | (w & 1);
  }

  lemma HalfZero(w: Word)
    requires Half(w) == 0 && LowBit(w) == 0
    ensures w == 0
  {
  }

  lemma {:induction false} ValPositive(v: Word)
    requires v != 0
    ensures Val(v) > 0
    decreases v
  {
    hide LowBit, Half;
    if LowBit(v) == 0 {
      if Half(v) == 0 { HalfZero(v); }
      ValPositive(Half(v));
    }
  }

  lemma {:induction false} ValInjective(v: Word, w: Word)
    requires Val(v) == Val(w)
    ensures v == w
    decreases v
  {
    if v == 0 {
      if w != 0 { ValPositive(w); }
    } else if w == 0 {
      ValPositive(v);
    } else {
      hide LowBit, Half;
      Parity(LowBit(v), LowBit(w), Val(Half(v)), Val(Half(w))) by { LowBitRange(v); LowBitRange(w); }
      ValInjective(Half(v), Half(w));
      HalfAndBit(v, w);
    }
  }

  lemma LowBitRange(w: Word)
    ensures LowBit(w) <= 1
  {
  }

  lemma Parity(p: nat, q: nat, x: nat, y: nat)
    requires p <= 1 && q <= 1 && p + 2 * x == q + 2 * y
    ensures p == q && x == y
  {
  }

  function Succ(w: Word): Word {
    w + 1
  }

  lemma SuccEven(w: Word)
    requires LowBit(w) == 0
    ensures Half(Succ(w)) == Half(w) && LowBit(Succ(w)) == 1 && Succ(w) != 0
  {
  }

  lemma SuccOdd(w: Word)
    requires LowBit(w) != 0 && w != 0xffff_ffff
    ensures Half(Succ(w)) == Succ(Half(w)) && LowBit(Succ(w)) == 0 && Half(w) != 0xffff_ffff
    ensures w != 0 && Succ(w) != 0 && LowBit(w) == 1
  {
  }

  lemma {:induction false} ValSucc(w: Word)
    requires w != 0xffff_ffff
    ensures Val(Succ(w)) == Val(w) + 1
    decreases w
  {
    hide LowBit, Half, Succ;
    if LowBit(w) == 0 {
      SuccEven(w);
      if w == 0 { HalfOfZero(); }
    } else {
      SuccOdd(w);
      ValSucc(Half(w));
    }
  }

  lemma HalfOfZero()
    ensures Half(0) == 0
  {
  }

  function Nibble(w: Word): Word {
    w >> 4
  }

  lemma OnesNibble(w: Word)
    requires w & 0xf == 0xf
    ensures Val(w) == 15 + 16 * Val(Nibble(w))
  {
    var h, q, e := Half(w), Half(Half(w)), Half(Half(Half(w)));
    assert w != 0 && h != 0 && q != 0 && e != 0 && Half(e) == Nibble(w);
    assert LowBit(w) == 1 && LowBit(h) == 1 && LowBit(q) == 1 && LowBit(e) == 1;
    OnesChain(w, h, q, e);
  }

  lemma OnesChain(w: Word, h: Word, q: Word, e: Word)
    requires h == Half(w) && q == Half(h) && e == Half(q)
    requires w != 0 && h != 0 && q != 0 && e != 0
    requires LowBit(w) == 1 && LowBit(h) == 1 && LowBit(q) == 1 && LowBit(e) == 1
    ensures Val(w) == 15 + 16 * Val(Half(e))
  {
    hide LowBit, Half;
    assert Val(e) == 1 + 2 * Val(Half(e));
    assert Val(q) == 1 + 2 * Val(e);
    assert Val(h) == 1 + 2 * Val(q);
  }

  /** The largest word is worth 2^32 - 1, so Val + 1 reaches WORD_LIMIT exactly at a wrap. */
  lemma ValMax()
    ensures Val(0xffff_ffff) == WORD_LIMIT - 1
  {
    hide Val;
    OnesNibble(0xffff_ffff);
    OnesNibble(0xfff_ffff);
    OnesNibble(0xff_ffff);
    OnesNibble(0xf_ffff);
    OnesNibble(0xffff);
    OnesNibble(0xfff);
    OnesNibble(0xff);
    OnesNibble(0xf);
    assert Val(0) == 0 by { ValZero(); }
  }

  lemma ValZero()
    ensures Val(0) == 0
  {
  }

  lemma {:induction false} ValBound(w: Word)
    ensures Val(w) < WORD_LIMIT
    decreases 0xffff_ffff - w
  {
    hide Val;
    if w == 0xffff_ffff {
      ValMax();
    } else {
      ValSucc(w);
      ValBound(Succ(w));
    }
  }

  lemma NotMax(w: Word)
    requires w != 0xffff_ffff
    ensures Val(w) < WORD_LIMIT - 1
  {
    hide Val;
    ValBound(w);
    ValMax();
    if Val(w) == WORD_LIMIT - 1 {
      ValInjective(w, 0xffff_ffff);
    }
  }
}
