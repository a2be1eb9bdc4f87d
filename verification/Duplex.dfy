/** Two coders at the ends of a connection, built from the same key and nonce: every run of
    writes, reads and common re-keyings, in both directions. Link has the objects themselves;
    the effect of each of its operations is a step. */
module Duplex {
  import opened Words
  import opened ChaChaCore
  import opened Engines
  import opened Keystreams
  import opened Ciphers
  import opened StreamCoder

  datatype Net = Net(client: End, server: End, up: seq<Byte>, down: seq<Byte>,
                     upSent: seq<Byte>, upGot: seq<Byte>, downSent: seq<Byte>, downGot: seq<Byte>)

  /** up is true for the direction from the client to the server. A read takes the next n bytes. */
  datatype Event = Write(up: bool, text: seq<Byte>) | Read(up: bool, n: nat) | ReKey(digest: seq<Byte>)

  function Start(key: seq<Byte>, nonce: seq<Byte>): Net
    requires |key| >= 64 && |nonce| >= 24
  {
    Net(NewEnd(key, nonce, true), NewEnd(key, nonce, false), [], [], [], [], [], [])
  }

  /** Reads take what has arrived; keys change together while nothing is under way. */
  predicate Enabled(s: Net, e: Event) {
    match e
    case Write(_, _) => true
    case Read(up, n) => n <= |if up then s.up else s.down|
    case ReKey(digest) => |digest| == 64 && s.up == [] && s.down == [] && |s.client.nonce| >= 24 && |s.server.nonce| >= 24
  }

  function Step(s: Net, e: Event): Net
    requires Enabled(s, e)
  {
    match e
    case Write(true, text) =>
      s.(client := Wrote(s.client, |text|), up := s.up + Encoded(s.client, text), upSent := s.upSent + text)
    case Write(false, text) =>
      s.(server := Wrote(s.server, |text|), down := s.down + Encoded(s.server, text), downSent := s.downSent + text)
    case Read(true, n) =>
      s.(server := HasRead(s.server, n), up := s.up[n..], upGot := s.upGot + Decoded(s.server, s.up[..n]))
    case Read(false, n) =>
      s.(client := HasRead(s.client, n), down := s.down[n..], downGot := s.downGot + Decoded(s.client, s.down[..n]))
    case ReKey(digest) =>
      s.(client := NewEnd(digest, s.client.nonce, s.client.dir), server := NewEnd(digest, s.server.nonce, s.server.dir))
  }

  /** A run: every event is enabled when its turn comes. */
  ghost predicate Run(s: Net, events: seq<Event>, t: Net)
    decreases |events|
  {
    if events == [] then s == t
    else Enabled(s, events[0]) && Run(Step(s, events[0]), events[1..], t)
  }

  /** One direction: the streams are the same, the reader is behind by the bytes under way,
      and decrypting those bytes gives exactly what was written and not yet read. */
  predicate InStep(wStart: State, wPos: nat, rStart: State, rPos: nat, line: seq<Byte>, sent: seq<Byte>, got: seq<Byte>) {
    wStart == rStart && wPos == rPos + |line| && sent == got + XorAt(rStart, rPos, line)
  }

  predicate Paired(s: Net) {
    && InStep(s.client.encStart, s.client.encPos, s.server.decStart, s.server.decPos, s.up, s.upSent, s.upGot)
    && InStep(s.server.encStart, s.server.encPos, s.client.decStart, s.client.decPos, s.down, s.downSent, s.downGot)
    && s.client.nonce == s.server.nonce && |s.client.nonce| >= 24 && s.client.dir && !s.server.dir
  }

  lemma WriteInStep(x: State, wPos: nat, rPos: nat, line: seq<Byte>, sent: seq<Byte>, got: seq<Byte>, text: seq<Byte>)
    requires InStep(x, wPos, x, rPos, line, sent, got)
    ensures InStep(x, wPos + |text|, x, rPos, line + XorAt(x, wPos, text), sent + text, got)
  {
    hide XorAt;
    XorAtSplit(x, rPos, line, XorAt(x, wPos, text));
    XorAtTwice(x, wPos, text);
    assert sent + text == got + (XorAt(x, rPos, line) + text);
  }

  lemma ReadInStep(x: State, wPos: nat, rPos: nat, line: seq<Byte>, sent: seq<Byte>, got: seq<Byte>, n: nat)
    requires InStep(x, wPos, x, rPos, line, sent, got) && n <= |line|
    ensures InStep(x, wPos, x, rPos + n, line[n..], sent, got + XorAt(x, rPos, line[..n]))
  {
    hide XorAt;
    assert line == line[..n] + line[n..];
    XorAtSplit(x, rPos, line[..n], line[n..]);
    assert (got + XorAt(x, rPos, line[..n])) + XorAt(x, rPos + n, line[n..]) == got + XorAt(x, rPos, line);
  }

  lemma StepKeepsPaired(s: Net, e: Event)
    requires Paired(s) && Enabled(s, e)
    ensures Paired(Step(s, e))
  {
    hide XorAt, HalfState;
    match e
    case Write(true, text) =>
      WriteInStep(s.client.encStart, s.client.encPos, s.server.decPos, s.up, s.upSent, s.upGot, text);
    case Write(false, text) =>
      WriteInStep(s.server.encStart, s.server.encPos, s.client.decPos, s.down, s.downSent, s.downGot, text);
    case Read(true, n) =>
      ReadInStep(s.client.encStart, s.client.encPos, s.server.decPos, s.up, s.upSent, s.upGot, n);
    case Read(false, n) =>
      ReadInStep(s.server.encStart, s.server.encPos, s.client.decPos, s.down, s.downSent, s.downGot, n);
    case ReKey(digest) =>
      var t := Step(s, e);
      assert XorAt(t.server.decStart, 0, []) == [] && XorAt(t.client.decStart, 0, []) == [];
      assert XorAt(s.server.decStart, s.server.decPos, []) == [] && XorAt(s.client.decStart, s.client.decPos, []) == [];
  }

  /** The round trip, for every key and nonce and every run: each end reads a prefix of what
      the other wrote, the rest is under way, and a drained direction has delivered it all. */
  lemma {:induction false} RoundTrip(key: seq<Byte>, nonce: seq<Byte>, events: seq<Event>, t: Net)
    requires |key| >= 64 && |nonce| >= 24 && Run(Start(key, nonce), events, t)
    ensures t.upSent == t.upGot + XorAt(t.server.decStart, t.server.decPos, t.up)
    ensures t.downSent == t.downGot + XorAt(t.client.decStart, t.client.decPos, t.down)
    ensures t.up == [] ==> t.upGot == t.upSent
    ensures t.down == [] ==> t.downGot == t.downSent
  {
    hide HalfState, KeyByte;
    RunKeepsPaired(Start(key, nonce), events, t);
  }

  lemma {:induction false} RunKeepsPaired(s: Net, events: seq<Event>, t: Net)
    requires Paired(s) && Run(s, events, t)
    ensures Paired(t)
    decreases |events|
  {
    if events != [] {
      hide Step, Paired, Enabled;
      StepKeepsPaired(s, events[0]);
      RunKeepsPaired(Step(s, events[0]), events[1..], t);
    }
  }

  /** The request does not reach the end of an IETF cipher, and the selected routine is sound. */
  ghost predicate Ready(c: Cipher, n: nat)
    requires c.Shape()
    reads c, c.state
  {
    !NeedsRefused(c.state[..], c.off, n, c.ietf) && Sound(c.engine, c.state[..], n / 64)
  }

  /** Two coders and the connection between them. The texts are history. */
  class Link {
    const client: Coder
    const server: Coder
    const up: Pipe
    const down: Pipe
    ghost var upSent: seq<Byte>
    ghost var upGot: seq<Byte>
    ghost var downSent: seq<Byte>
    ghost var downGot: seq<Byte>

    ghost function Ciphers(): set<object>
      reads client, server
    {
      Parts(client.enc) + Parts(client.dec) + Parts(server.enc) + Parts(server.dec)
    }

    ghost predicate Valid()
      reads this, client, server, Ciphers()
    {
      && client.Shape() && server.Shape() && up != down
      && Parts(client.enc) + Parts(client.dec) !! Parts(server.enc) + Parts(server.dec)
      && client.enc.Valid() && client.dec.Valid() && server.enc.Valid() && server.dec.Valid()
    }

    ghost function Abs(): Net
      reads this, up, down, client, server, Ciphers()
    {
      Net(client.Abs(), server.Abs(), up.bytes, down.bytes, upSent, upGot, downSent, downGot)
    }

    constructor (key: seq<Byte>, nonce: seq<Byte>, engine: Engine)
      requires |key| >= 64 && |nonce| >= 24
      ensures Valid() && Abs() == Start(key, nonce)
    {
      hide HalfState, FreshState, Cipher.Valid;
      client := new Coder(key, nonce, true, engine);
      server := new Coder(key, nonce, false, engine);
      up := new Pipe();
      down := new Pipe();
      upSent, upGot, downSent, downGot := [], [], [], [];
    }

    /** A write of one end. */
    method Write(isUp: bool, data: array<Byte>) returns (panicked: bool)
      requires Valid() && data !in Ciphers()
      modifies this, Ciphers(), up, down, data
      ensures var c := (if isUp then client else server).enc;
              panicked <==> NeedsRefused(old(c.state[..]), old(c.off), data.Length, old(c.ietf))
      ensures panicked ==> up.bytes == old(up.bytes) && down.bytes == old(down.bytes)
      ensures old(Ready((if isUp then client else server).enc, data.Length)) ==>
                !panicked && Valid() && Abs() == Step(old(Abs()), Event.Write(isUp, old(data[..])))
    {
      hide NeedsRefused, Sound, Stream, After, XorWith, Encoded, Decoded, Wrote, HasRead, Cipher.Valid;
      if isUp {
        upSent := upSent + data[..];
        panicked := client.Write(data, up);
      } else {
        downSent := downSent + data[..];
        panicked := server.Write(data, down);
      }
    }

    /** A read of n bytes of what is under way. */
    method Read(isUp: bool, data: array<Byte>, n: nat) returns (panicked: bool)
      requires Valid() && data !in Ciphers() && n <= data.Length
      requires Enabled(Abs(), Event.Read(isUp, n))
      modifies this, Ciphers(), up, down, data
      ensures var c := (if isUp then server else client).dec;
              panicked <==> NeedsRefused(old(c.state[..]), old(c.off), n, old(c.ietf))
      ensures old(Ready((if isUp then server else client).dec, n)) ==>
                !panicked && Valid() && Abs() == Step(old(Abs()), Event.Read(isUp, n))
    {
      hide NeedsRefused, Sound, Stream, After, XorWith, Encoded, Decoded, Wrote, HasRead, Cipher.Valid;
      if isUp {
        panicked := server.Read(data, up, n);
        upGot := upGot + data[..n];
      } else {
        panicked := client.Read(data, down, n);
        downGot := downGot + data[..n];
      }
    }

    /** Both ends take a new key. */
    method ReKey(digest: seq<Byte>)
      requires Valid() && Enabled(Abs(), Event.ReKey(digest))
      modifies Ciphers()
      ensures Valid() && Abs() == Step(old(Abs()), Event.ReKey(digest))
    {
      hide HalfState, FreshState, Cipher.Valid, NewEnd, XorAt, Encoded, Decoded, Wrote, HasRead;
      client.ReKey(digest);
      server.ReKey(digest);
    }
  }
}
