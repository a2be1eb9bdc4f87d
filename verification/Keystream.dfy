/** What a request to the incremental cipher of lib/chacha20/chacha20.go yields, whichever block
    function is selected: the bytes and the machine it leaves, as functions of the machine it
    finds. */
module Keystreams {
  import opened Words
  import opened ChaChaCore
  import opened ChaChaRef
  import opened Engines

  /** The state and the buffer, whose bytes from off on are not used yet. */
  datatype Machine = Machine(x: State, off: nat, buf: seq<Byte>)

  predicate Formed(m: Machine) {
    m.off <= 64 && |m.buf| == 64
  }

  /** A block of keystream. */
  function KeyBlock(x: State): (r: seq<Byte>)
    ensures |r| == 64
  {
    seq(64, i requires 0 <= i < 64 => KeyByte(x, i))
  }

  /** n bytes from a block boundary on: one request for the whole blocks, and the beginning of
      one block more. */
  function Fresh(e: Engine, x: State, n: nat): (r: seq<Byte>)
    ensures |r| == n
  {
    seq(n, i requires 0 <= i < n =>
      if i < n - n % 64 then Made(e, x, n / 64, i) else KeyByte(Final(e, x, n / 64), i - (n - n % 64)))
  }

  function Stream(e: Engine, m: Machine, n: nat): (r: seq<Byte>)
    requires Formed(m)
    ensures |r| == n
  {
    if n <= 64 - m.off then m.buf[m.off..m.off + n]
    else m.buf[m.off..] + Fresh(e, m.x, n - (64 - m.off))
  }

  /** The machine afterwards. */
  function Left(e: Engine, m: Machine, n: nat): Machine {
    var y := Final(e, m.x, n / 64);
    if n % 64 == 0 then Machine(y, 64, m.buf) else Machine(Advance(y, 1), n % 64, KeyBlock(y))
  }

  function After(e: Engine, m: Machine, n: nat): (r: Machine)
    requires Formed(m)
    ensures Formed(r)
  {
    if n <= 64 - m.off then m.(off := m.off + n) else Left(e, m, n - (64 - m.off))
  }

  lemma FinalNone(e: Engine, x: State)
    ensures Final(e, x, 0) == x
  {
    AdvanceNone(x);
  }

  /** The last bytes from a boundary are the beginning of the block after the whole ones. */
  lemma TailKey(e: Engine, x: State, n: nat)
    ensures Fresh(e, x, n)[n - n % 64..] == KeyBlock(Final(e, x, n / 64))[..n % 64]
  {
    hide KeyByte, Final, Made;
  }

  lemma LeftOfBoundary(e: Engine, m: Machine, n: nat)
    ensures Left(e, m.(off := 64), n) == Left(e, m, n)
  {
  }

  /** A request that uses up the buffer is two: the buffer, and the rest from a boundary. */
  lemma StreamSplit(e: Engine, m: Machine, n: nat)
    requires Formed(m) && n > 64 - m.off
    ensures var a := 64 - m.off;
            && Stream(e, m, n)[..a] == Stream(e, m, a)
            && Stream(e, m, n)[a..] == Stream(e, m.(off := 64), n - a)
            && After(e, m.(off := 64), n - a) == After(e, m, n)
  {
    hide Fresh, Left;
    var rest := Fresh(e, m.x, n - (64 - m.off));
    assert m.buf[64..] + rest == rest;
    LeftOfBoundary(e, m, n - (64 - m.off));
  }

  // The guard.

  /** The largest single request for blocks while producing n > 0 bytes from a block boundary. */
  function FirstRequest(n: nat): nat {
    if n < 64 then 1 else n / 64
  }

  /** Whether producing n more bytes asks the guard for blocks that it refuses. */
  predicate NeedsRefused(x: State, offset: nat, n: nat, ietf: bool)
    requires offset <= 64
  {
    n > 64 - offset && Refuses(x, FirstRequest(n - (64 - offset)), ietf)
  }

  /** The loops after done of n bytes: from m0 to m. A request for blocks is made at most once, when
      the buffer is used up. */
  predicate Underway(e: Engine, m0: Machine, m: Machine, done: nat, n: nat, ietf: bool) {
    && Formed(m0) && done <= n
    && (done == 0 ==> m == m0)
    && (0 < done < n ==> m == m0.(off := 64) && done == 64 - m0.off)
    && (done == n ==> m == After(e, m0, n) && !NeedsRefused(m0.x, m0.off, n, ietf))
  }

  lemma UnderwayStart(e: Engine, m: Machine, n: nat, ietf: bool)
    requires Formed(m)
    ensures Underway(e, m, m, 0, n, ietf)
  {
  }

  /** How far one pass gets. */
  function Reach(m: Machine, n: nat): nat
    requires Formed(m)
  {
    if m.off == 64 || n < 64 - m.off then n else 64 - m.off
  }

  lemma UnderwayStep(e: Engine, m0: Machine, m: Machine, done: nat, n: nat, ietf: bool)
    requires Underway(e, m0, m, done, n, ietf) && done < n
    requires !(m.off == 64 && Refuses(m.x, FirstRequest(n - done), ietf))
    ensures Formed(m)
    ensures var k := Reach(m, n - done);
            && k > 0 && Underway(e, m0, After(e, m, k), done + k, n, ietf)
            && Stream(e, m0, n)[done..done + k] == Stream(e, m, k)
  {
    hide Refuses, FirstRequest, Fresh, Left;
    if n > 64 - m0.off {
      StreamSplit(e, m0, n);
    }
  }

  lemma UnderwayPanics(e: Engine, m0: Machine, m: Machine, done: nat, n: nat, ietf: bool)
    requires Underway(e, m0, m, done, n, ietf) && done < n
    requires m.off == 64 && Refuses(m.x, FirstRequest(n - done), ietf)
    ensures NeedsRefused(m0.x, m0.off, n, ietf) && m == m0.(off := 64) && done == 64 - m0.off
  {
    hide Refuses, FirstRequest, After;
  }

  lemma NeededMore(m: Machine, n: nat, ietf: bool)
    requires Formed(m) && NeedsRefused(m.x, m.off, n, ietf)
    ensures n > 64 - m.off
  {
  }

  lemma BufferMachine(e: Engine, m: Machine)
    requires Formed(m)
    ensures After(e, m, 64 - m.off) == m.(off := 64)
  {
  }

  /** Zeros that are coded are the key. */
  lemma CodedZeros(out: seq<Byte>, d: nat, len: nat, n: nat, key: seq<Byte>)
    requires n <= len && |key| == n && Coded(out, d, seq(len, i => 0), n, key)
    ensures out[d..d + n] == key
  {
    hide XorByte;
    forall i | d <= i < d + n ensures out[i] == key[i - d] {
      XorTwice(0, key[i - d]);
    }
  }

  lemma UnderwayEnds(e: Engine, m0: Machine, m: Machine, n: nat, ietf: bool)
    requires Underway(e, m0, m, n, n, ietf)
    ensures m == After(e, m0, n) && !NeedsRefused(m0.x, m0.off, n, ietf)
  {
    hide NeedsRefused, After;
  }

  // Output.

  /** out[d..d + n] is the text b xored with the key bytes, as far as n. */
  ghost predicate Coded(out: seq<Byte>, d: nat, b: seq<Byte>, n: nat, key: seq<Byte>) {
    && d + n <= |out| && n <= |b| && n <= |key|
    && forall i :: d <= i < d + n ==> out[i] == XorByte(b[i - d], key[i - d])
  }

  lemma InputFront(src: array?<Byte>, s: nat, n: nat, m: nat)
    requires m <= n && (src != null ==> s + n <= src.Length)
    ensures Input(src, s, m) == Input(src, s, n)[..m]
  {
  }

  lemma UnreadAll(src: array?<Byte>, s: nat, n: nat, done: nat, b: seq<Byte>)
    requires Unread(src, s, n, done, b)
    ensures |b| == n && done <= n
  {
  }

  lemma StartCoded(out: seq<Byte>, d: nat, b: seq<Byte>, key: seq<Byte>, src: array<Byte>, s: nat, n: nat)
    requires d <= |out| && s + n <= src.Length && b == src[s..s + n]
    ensures Coded(out, d, b, 0, key) && Unread(src, s, n, 0, b)
  {
    assert b[0..] == b;
  }

  /** When the buffer was used up and no more, the shorter request was served. */
  lemma BufferOnly(e: Engine, m: Machine, n: nat, out: seq<Byte>, d: nat, b: seq<Byte>)
    requires Formed(m) && n > 64 - m.off && Coded(out, d, b, 64 - m.off, Stream(e, m, n))
    ensures var a := 64 - m.off;
            Coded(out, d, b[..a], a, Stream(e, m, a)) && After(e, m, a) == m.(off := 64)
  {
    hide XorByte, Fresh;
    var a := 64 - m.off;
    StreamSplit(e, m, n);
    forall i | d <= i < d + a ensures out[i] == XorByte(b[..a][i - d], Stream(e, m, a)[i - d]) {
      assert Stream(e, m, n)[..a][i - d] == Stream(e, m, n)[i - d];
    }
  }

  /** Coding the next m bytes elsewhere in the output extends what is coded. */
  lemma CodedMore(was: seq<Byte>, now: seq<Byte>, d: nat, b: seq<Byte>, n: nat, m: nat, key: seq<Byte>)
    requires Coded(was, d, b, n, key) && |now| == |was| && d + n + m <= |now| && n + m <= |b| && n + m <= |key|
    requires forall i :: d <= i < d + n ==> now[i] == was[i]
    requires Coded(now, d + n, b[n..], m, key[n..n + m])
    ensures Coded(now, d, b, n + m, key)
  {
    hide XorByte;
    forall i | d + n <= i < d + n + m ensures now[i] == XorByte(b[i - d], key[i - d]) {
      assert b[n..][i - (d + n)] == b[i - d] && key[n..n + m][i - (d + n)] == key[i - d];
    }
  }

  /** Only the first n bytes of text and key matter. */
  lemma CodedLonger(out: seq<Byte>, d: nat, b: seq<Byte>, n: nat, key: seq<Byte>)
    requires n <= |b| && n <= |key| && Coded(out, d, b[..n], n, key[..n])
    ensures Coded(out, d, b, n, key)
  {
    hide XorByte;
    forall i | d <= i < d + n ensures out[i] == XorByte(b[i - d], key[i - d]) {
      assert b[..n][i - d] == b[i - d] && key[..n][i - d] == key[i - d];
    }
  }

  /** Output written over the first m bytes of its place leaves the rest of the input alone; one
      means that input and output are one array. */
  lemma InputKept(srcWas: seq<Byte>, srcNow: seq<Byte>, s: nat, dstWas: seq<Byte>, dstNow: seq<Byte>, d: nat,
                  one: bool, n: nat, m: nat)
    requires m <= n && s + n <= |srcWas| == |srcNow| && d + n <= |dstWas| == |dstNow|
    requires if one then srcWas == dstWas && srcNow == dstNow && (s == d || s + n <= d || d + n <= s)
             else srcNow == srcWas
    requires forall i :: d + m <= i < d + n ==> dstNow[i] == dstWas[i]
    requires forall i :: 0 <= i < |dstNow| && !(d <= i < d + n) ==> dstNow[i] == dstWas[i]
    ensures srcNow[s + m..s + n] == srcWas[s..s + n][m..]
  {
    var a, b := srcNow[s + m..s + n], srcWas[s..s + n][m..];
    forall k | 0 <= k < n - m ensures a[k] == b[k] {
      assert srcNow[s + m + k] == srcWas[s + m + k];
    }
  }

  /** What is still to be coded of the input is what is still to be coded of the text b. */
  ghost predicate Unread(src: array?<Byte>, s: nat, n: nat, done: nat, b: seq<Byte>)
    reads src
  {
    && (src != null ==> s + n <= src.Length) && done <= n == |b|
    && Input(src, s + done, n - done) == b[done..]
  }

  lemma UnreadFront(src: array?<Byte>, s: nat, n: nat, done: nat, b: seq<Byte>, m: nat)
    requires Unread(src, s, n, done, b) && m <= n - done
    ensures Input(src, if src == null then 0 else s + done, m) == b[done..][..m]
  {
    var a := Input(src, s + done, n - done);
    assert Input(src, if src == null then 0 else s + done, m) == a[..m];
  }

  lemma UnreadRest(src: array<Byte>, s: nat, n: nat, done: nat, b: seq<Byte>)
    requires Unread(src, s, n, done, b)
    ensures s + n <= src.Length && done <= n == |b| && Input(src, s + done, n - done) == b[done..]
  {
  }

  lemma UnreadMore(src: array<Byte>, s: nat, n: nat, done: nat, m: nat, b: seq<Byte>)
    requires done <= n == |b| && s + n <= src.Length && Unread(src, s + done, n - done, m, b[done..])
    ensures Unread(src, s, n, done + m, b)
  {
    assert b[done..][m..] == b[done + m..];
  }

  /** Output written over the first m bytes of its place leaves the rest unread. */
  lemma UnreadKept(srcWas: seq<Byte>, src: array?<Byte>, s: nat, dstWas: seq<Byte>, dst: array<Byte>, d: nat,
                   n: nat, m: nat, b: seq<Byte>)
    requires m <= n && d + n <= |dstWas| == dst.Length && Overlay(src, s, dst, d, n)
    requires src != null ==> s + n <= |srcWas| == src.Length && b == srcWas[s..s + n]
    requires src == null ==> b == Input(null, s, n)
    requires src == dst ==> srcWas == dstWas
    requires src != null && src != dst ==> srcWas == src[..]
    requires src != null ==> forall i :: 0 <= i < dst.Length && !(d <= i < d + m) ==> dst[i] == dstWas[i]
    ensures Unread(src, s, n, m, b)
  {
    if src != null {
      InputKept(srcWas, src[..], s, dstWas, dst[..], d, src == dst, n, m);
      assert src[s + m..s + n] == src[..][s + m..s + n];
    } else {
      assert Input(null, s + m, n - m) == b[m..];
    }
  }

  // The one keystream behind it.

  function KeySpan(start: State, pos: nat, n: nat): (r: seq<Byte>)
    ensures |r| == n
  {
    seq(n, i requires 0 <= i < n => KeyByte(start, pos + i))
  }

  /** The buffer, the offset and the counter all tell the same position in the keystream of start. */
  ghost predicate Tells(m: Machine, start: State, pos: nat) {
    && Formed(m) && start[..4] == SIGMA
    && (if m.off == 64 then pos % 64 == 0 && m.x == Advance(start, pos / 64)
        else m.off == pos % 64 && m.x == Advance(start, pos / 64 + 1) && m.buf == KeyBlock(Advance(start, pos / 64)))
  }

  lemma KeyBlockBytes(start: State, q: nat, off: nat, n: nat)
    requires off + n <= 64
    ensures KeyBlock(Advance(start, q))[off..off + n] == KeySpan(start, 64 * q + off, n)
  {
    hide KeyByte, Advance;
    var part := KeyBlock(Advance(start, q))[off..off + n];
    forall i | 0 <= i < n ensures part[i] == KeyByte(start, 64 * q + off + i) {
      KeyByteShift(start, q, off + i);
    }
  }

  /** From a boundary, a sound request gives the keystream. */
  lemma FreshIs(e: Engine, start: State, q: nat, n: nat)
    requires start[..4] == SIGMA && Advance(start, q)[..4] == SIGMA && Sound(e, Advance(start, q), n / 64)
    ensures Fresh(e, Advance(start, q), n) == KeySpan(start, 64 * q, n)
    ensures Final(e, Advance(start, q), n / 64) == Advance(start, q + n / 64)
  {
    hide KeyByte, Advance, Sound, Made, Final;
    var x, r := Advance(start, q), n / 64;
    SoundMade(e, x, r);
    AdvanceAdd(start, q, r);
    forall i | 0 <= i < n ensures Fresh(e, x, n)[i] == KeyByte(start, 64 * q + i) {
      if i < n - n % 64 {
        KeyByteShift(start, q, i);
      } else {
        KeyByteShift(start, q + r, i - 64 * r);
        assert 64 * (q + r) + (i - 64 * r) == 64 * q + i;
      }
    }
  }

  lemma SigmaKept(start: State, q: nat)
    requires start[..4] == SIGMA
    ensures Advance(start, q)[..4] == SIGMA
  {
    hide Advance;
    forall i | 0 <= i < 4 ensures Advance(start, q)[i] == start[i] { AdvanceKeeps(start, q, i); }
  }

  /** Chunking is invisible while the routine is sound: a request gives the next bytes of the one
      keystream, and the machine tells the next position. */
  lemma StreamIs(e: Engine, m: Machine, start: State, pos: nat, n: nat)
    requires Tells(m, start, pos) && Sound(e, m.x, n / 64)
    ensures Stream(e, m, n) == KeySpan(start, pos, n)
    ensures Tells(After(e, m, n), start, pos + n)
  {
    hide KeyByte, Advance, Sound, Made, Final, KeyBlock, KeySpan, Fresh;
    var a, q := 64 - m.off, pos / 64;
    if n <= a {
      BufferIs(e, m, start, pos, n);
    } else {
      BufferIs(e, m, start, pos, a);
      StreamSplit(e, m, n);
      SoundLess(e, m.x, n / 64, (n - a) / 64);
      BoundaryIs(e, m.(off := 64), start, pos + a, n - a);
      KeySpanSplit(start, pos, a, n);
      assert Stream(e, m, n) == Stream(e, m, n)[..a] + Stream(e, m, n)[a..];
    }
  }

  lemma KeySpanSplit(start: State, pos: nat, a: nat, n: nat)
    requires a <= n
    ensures KeySpan(start, pos, n) == KeySpan(start, pos, a) + KeySpan(start, pos + a, n - a)
  {
    hide KeyByte;
    forall i | a <= i < n ensures KeySpan(start, pos, n)[i] == KeySpan(start, pos + a, n - a)[i - a] {
      assert pos + i == pos + a + (i - a);
    }
  }

  lemma BufferIs(e: Engine, m: Machine, start: State, pos: nat, n: nat)
    requires Tells(m, start, pos) && n <= 64 - m.off
    ensures Stream(e, m, n) == KeySpan(start, pos, n) && Tells(m.(off := m.off + n), start, pos + n)
  {
    hide KeyByte, Advance, KeyBlock;
    var q := pos / 64;
    if m.off < 64 {
      KeyBlockBytes(start, q, m.off, n);
      assert 64 * q + m.off == pos;
      if m.off + n == 64 {
        assert pos + n == 64 * (q + 1);
      } else {
        assert (pos + n) / 64 == q && (pos + n) % 64 == m.off + n;
      }
    }
  }

  lemma BoundaryIs(e: Engine, m: Machine, start: State, pos: nat, n: nat)
    requires Tells(m, start, pos) && m.off == 64 && n > 0 && Sound(e, m.x, n / 64)
    ensures Stream(e, m, n) == KeySpan(start, pos, n) && Tells(After(e, m, n), start, pos + n)
  {
    hide KeyByte, Advance, Sound, Made, Final, KeyBlock, KeySpan, Fresh;
    var q, r := pos / 64, n / 64;
    SigmaKept(start, q);
    FreshIs(e, start, q, n);
    assert 64 * q == pos;
    AdvanceAdd(start, q + r, 1);
    assert (pos + n) / 64 == q + r && (pos + n) % 64 == n % 64;
  }
}
