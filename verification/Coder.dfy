/** The duplex cipher layer of lib/streamcoder/streamcoder.go. */
module StreamCoder {
  import opened Words
  import opened ChaChaCore
  import opened Engines
  import opened Keystreams
  import opened Ciphers

  /** One direction of the underlying connection: bytes written and not yet read. */
  class Pipe {
    var bytes: seq<Byte>

    constructor ()
      ensures bytes == []
    {
      bytes := [];
    }
  }

  /** Text xored with the keystream of x from byte pos on. */
  function XorAt(x: State, pos: nat, text: seq<Byte>): (r: seq<Byte>)
    ensures |r| == |text|
  {
    seq(|text|, i requires 0 <= i < |text| => XorByte(text[i], KeyByte(x, pos + i)))
  }

  /** Text xored with as many key bytes. */
  function XorWith(text: seq<Byte>, key: seq<Byte>): (r: seq<Byte>)
    requires |key| == |text|
    ensures |r| == |text|
  {
    seq(|text|, i requires 0 <= i < |text| => XorByte(text[i], key[i]))
  }

  lemma XorAtSpan(x: State, pos: nat, text: seq<Byte>)
    ensures XorAt(x, pos, text) == XorWith(text, KeySpan(x, pos, |text|))
  {
    hide XorByte, KeyByte;
  }

  lemma XorAtTwice(x: State, pos: nat, text: seq<Byte>)
    ensures XorAt(x, pos, XorAt(x, pos, text)) == text
  {
    hide XorByte, KeyByte;
    forall i | 0 <= i < |text| ensures XorAt(x, pos, XorAt(x, pos, text))[i] == text[i] {
      XorTwice(text[i], KeyByte(x, pos + i));
    }
  }

  /** Cutting a text and coding the pieces in turn is coding the whole. */
  lemma XorAtSplit(x: State, pos: nat, a: seq<Byte>, b: seq<Byte>)
    ensures XorAt(x, pos, a + b) == XorAt(x, pos, a) + XorAt(x, pos + |a|, b)
  {
    hide XorByte, KeyByte;
    forall i | 0 <= i < |a + b| ensures XorAt(x, pos, a + b)[i] == (XorAt(x, pos, a) + XorAt(x, pos + |a|, b))[i] {
      if i >= |a| {
        assert pos + |a| + (i - |a|) == pos + i;
      }
    }
  }

  /** The objects that make up a cipher. */
  ghost function Parts(c: Cipher): set<object> {
    {c, c.state, c.buf}
  }

  /** The key and nonce halves: the client encrypts with the first, the server with the second. */
  function HalfState(key: seq<Byte>, nonce: seq<Byte>, first: bool): State
    requires |key| >= 64 && |nonce| >= 24
  {
    if first then FreshState(key[0..32], nonce[0..12]) else FreshState(key[32..64], nonce[12..24])
  }

  /** What a coder knows: two streams and the positions in them. */
  datatype End = End(encStart: State, encPos: nat, decStart: State, decPos: nat, nonce: seq<Byte>, dir: bool)

  function NewEnd(key: seq<Byte>, nonce: seq<Byte>, dir: bool): End
    requires |key| >= 64 && |nonce| >= 24
  {
    End(HalfState(key, nonce, dir), 0, HalfState(key, nonce, !dir), 0, nonce, dir)
  }

  /** Writing text: the bytes that go out, and the coder afterwards. */
  function Encoded(e: End, text: seq<Byte>): seq<Byte> {
    XorAt(e.encStart, e.encPos, text)
  }

  function Wrote(e: End, n: nat): End {
    e.(encPos := e.encPos + n)
  }

  /** Reading bytes: the text that is returned, and the coder afterwards. */
  function Decoded(e: End, bytes: seq<Byte>): seq<Byte> {
    XorAt(e.decStart, e.decPos, bytes)
  }

  function HasRead(e: End, n: nat): End {
    e.(decPos := e.decPos + n)
  }

  /** Applies XORKeyStream to data[..n] in place. */
  method Code(c: Cipher, data: array<Byte>, n: nat) returns (panicked: bool)
    requires c.Shape() && n <= data.Length && data != c.buf
    modifies Parts(c), data
    ensures c.Shape() && forall i :: n <= i < data.Length ==> data[i] == old(data[i])
    ensures panicked <==> NeedsRefused(old(c.state[..]), old(c.off), n, old(c.ietf))
    ensures !panicked ==>
              && c.M() == After(c.engine, old(c.M()), n)
              && data[..n] == XorWith(old(data[..n]), Stream(c.engine, old(c.M()), n))
    ensures !panicked && old(c.Valid()) && Sound(c.engine, old(c.state[..]), n / 64) ==>
              && c.Valid() && c.start == old(c.start) && c.pos == old(c.pos) + n
              && data[..n] == XorAt(c.start, old(c.pos), old(data[..n]))
  {
    hide XorByte, KeyByte, NeedsRefused, Sound, Stream, After, Tells, XorAt, KeySpan;
    ghost var key := Stream(c.engine, c.M(), n);
    panicked := c.XORKeyStream(data, 0, n, data, 0, n);
    if !panicked {
      assert data[..n] == XorWith(old(data[0..n]), key);
      XorAtSpan(c.start, old(c.pos), old(data[..n]));
    }
  }

  class Coder {
    const enc: Cipher
    const dec: Cipher
    const nonce: seq<Byte>
    const dir: bool

    ghost predicate Shape()
      reads Parts(enc), Parts(dec)
    {
      enc.Shape() && dec.Shape() && Parts(enc) !! Parts(dec) && |nonce| >= 24
    }

    ghost function Abs(): End
      reads enc, dec
    {
      End(enc.start, enc.pos, dec.start, dec.pos, nonce, dir)
    }

    /** NewCoder. */
    constructor (key: seq<Byte>, nonce: seq<Byte>, isClient: bool, engine: Engine)
      requires |key| >= 64 && |nonce| >= 24
      ensures Shape() && enc.Valid() && dec.Valid() && Abs() == NewEnd(key, nonce, isClient)
      ensures enc.start == if isClient then FreshState(key[0..32], nonce[0..12]) else FreshState(key[32..64], nonce[12..24])
      ensures dec.start == if isClient then FreshState(key[32..64], nonce[12..24]) else FreshState(key[0..32], nonce[0..12])
      ensures enc.pos == 0 && dec.pos == 0 && enc.ietf && dec.ietf
      ensures enc.engine == engine && dec.engine == engine
      ensures fresh(Parts(enc)) && fresh(Parts(dec))
    {
      hide FreshState, KeyByte, Advance, Tells, DoubleRounds, HInput, WordAt;
      dir := isClient;
      this.nonce := nonce;
      enc := new Cipher(engine);
      dec := new Cipher(engine);
      new;
      var r := enc.ReKey(if isClient then key[0..32] else key[32..64], if isClient then nonce[0..12] else nonce[12..24]);
      r := dec.ReKey(if isClient then key[32..64] else key[0..32], if isClient then nonce[12..24] else nonce[0..12]);
    }

    /** Write: the caller's slice is encrypted in place and handed to the connection. */
    method Write(data: array<Byte>, out: Pipe) returns (panicked: bool)
      requires Shape() && data != enc.buf && data != dec.buf
      modifies Parts(enc), data, out
      ensures Shape()
      ensures panicked <==> NeedsRefused(old(enc.state[..]), old(enc.off), data.Length, old(enc.ietf))
      ensures !panicked && old(enc.Valid()) && Sound(enc.engine, old(enc.state[..]), data.Length / 64) ==>
                && enc.Valid() && Abs() == Wrote(old(Abs()), data.Length)
                && out.bytes == old(out.bytes) + Encoded(old(Abs()), old(data[..]))
      ensures !panicked ==>
                && enc.M() == After(enc.engine, old(enc.M()), data.Length)
                && data[..] == XorWith(old(data[..]), Stream(enc.engine, old(enc.M()), data.Length))
      ensures out.bytes == if panicked then old(out.bytes) else old(out.bytes) + data[..]
    {
      hide NeedsRefused, Sound, XorAt, XorWith, Stream, After;
      panicked := Code(enc, data, data.Length);
      if !panicked {
        assert data[..data.Length] == data[..] && old(data[..data.Length]) == old(data[..]);
        out.bytes := out.bytes + data[..];
      }
    }

    /** Read: the connection fills data[..n] with the next n bytes, which are decrypted in
        place. How many bytes a read returns is up to the connection. */
    method Read(data: array<Byte>, inp: Pipe, n: nat) returns (panicked: bool)
      requires Shape() && data != enc.buf && data != dec.buf
      requires n <= data.Length && n <= |inp.bytes|
      modifies Parts(dec), data, inp
      ensures Shape() && inp.bytes == old(inp.bytes[n..])
      ensures panicked <==> NeedsRefused(old(dec.state[..]), old(dec.off), n, old(dec.ietf))
      ensures !panicked && old(dec.Valid()) && Sound(dec.engine, old(dec.state[..]), n / 64) ==>
                && dec.Valid() && Abs() == HasRead(old(Abs()), n)
                && data[..n] == Decoded(old(Abs()), old(inp.bytes[..n]))
      ensures !panicked ==>
                && dec.M() == After(dec.engine, old(dec.M()), n)
                && data[..n] == XorWith(old(inp.bytes[..n]), Stream(dec.engine, old(dec.M()), n))
      ensures forall i :: n <= i < data.Length ==> data[i] == old(data[i])
    {
      hide NeedsRefused, Sound, XorAt, XorWith, Stream, After;
      Receive(data, inp, n);
      panicked := Code(dec, data, n);
    }

    /** The connection's Read. */
    method Receive(data: array<Byte>, inp: Pipe, n: nat)
      requires n <= data.Length && n <= |inp.bytes|
      modifies data, inp
      ensures data[..n] == old(inp.bytes[..n]) && inp.bytes == old(inp.bytes[n..])
      ensures forall i :: n <= i < data.Length ==> data[i] == old(data[i])
    {
      for i := 0 to n
        invariant inp.bytes == old(inp.bytes) && data[..i] == inp.bytes[..i]
        invariant forall j :: n <= j < data.Length ==> data[j] == old(data[j])
      {
        data[i] := inp.bytes[i];
      }
      inp.bytes := inp.bytes[n..];
    }

    /** ReKey; the SHA-512 of the new key is a parameter. */
    method ReKey(digest: seq<Byte>)
      requires Shape() && |digest| == 64
      modifies Parts(enc), Parts(dec)
      ensures Shape() && enc.Valid() && dec.Valid() && Abs() == NewEnd(digest, nonce, dir)
      ensures enc.start == if dir then FreshState(digest[0..32], nonce[0..12]) else FreshState(digest[32..64], nonce[12..24])
      ensures dec.start == if dir then FreshState(digest[32..64], nonce[12..24]) else FreshState(digest[0..32], nonce[0..12])
      ensures enc.pos == 0 && dec.pos == 0 && enc.ietf && dec.ietf
    {
      hide FreshState, Tells, DoubleRounds, HInput, WordAt;
      var key := digest[0..64];
      assert key == digest;
      var encKey, decKey, encNonce, decNonce;
      if dir {
        encKey, encNonce := key[0..32], nonce[0..12];
        decKey, decNonce := key[32..64], nonce[12..24];
      } else {
        encKey, encNonce := key[32..64], nonce[12..24];
        decKey, decNonce := key[0..32], nonce[0..12];
      }
      var r := enc.ReKey(encKey, encNonce);
      r := dec.ReKey(decKey, decNonce);
    }
  }
}
