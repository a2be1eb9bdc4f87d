/** The wire format of lib/smux: frame.go, the writer goroutine and readFrame of
    session.go, and split of stream.go. */
module SmuxFrame {
  import opened Octets
  import opened Chunks

  type Cmd = Octet
  const CMD_SYN: Cmd := 0
  const CMD_FIN: Cmd := 1
  const CMD_PSH: Cmd := 2
  const CMD_NOP: Cmd := 3
  const CMD_ACK: Cmd := 4
  const CMD_FUL: Cmd := 5
  const CMD_EMP: Cmd := 6

  const VERSION: Octet := 1
  const HEADER_SIZE: nat := 8
  const MAX_PAYLOAD: nat := 65527

  type Sid = x: int | 0 <= x < 0x1_0000_0000

  datatype Frame = Frame(ver: Octet, cmd: Cmd, sid: Sid, data: seq<Octet>)

  function NewFrame(cmd: Cmd, sid: Sid): Frame {
    Frame(VERSION, cmd, sid, [])
  }

  /** VERSION(1) CMD(1) LENGTH(2) STREAMID(4) DATA; the length is cut to 16 bits. */
  function Encode(f: Frame): seq<Octet> {
    [f.ver, f.cmd] + Put16(|f.data|) + Put32(f.sid) + f.data
  }

  datatype Decoded = Short | BadVersion | Panic | Got(frame: Frame, rest: seq<Octet>)

  /** What readFrame makes of the bytes that arrive. The end of the payload is a 16-bit sum,
      so that a large length makes a slice that ends before it starts. */
  function Decode(wire: seq<Octet>): Decoded {
    if |wire| < HEADER_SIZE then Short
    else if wire[0] != VERSION then BadVersion
    else
      var length := Get16(wire[2..]);
      var end := (HEADER_SIZE + length) % 0x1_0000;
      var f := NewFrame(wire[1], Get32(wire[4..]));
      if length == 0 then Got(f, wire[HEADER_SIZE..])
      else if end < HEADER_SIZE then Panic
      else if |wire| < end then Short
      else Got(f.(data := wire[HEADER_SIZE..end]), wire[end..])
  }

  /** The bytes of a frame, for every command. */
  lemma HeaderBytes(data: seq<Octet>)
    requires |data| == 0x0506
    ensures Encode(NewFrame(CMD_SYN, 0x01020304)) == [1, 0, 0, 0, 4, 3, 2, 1]
    ensures Encode(NewFrame(CMD_FIN, 0x01020304)) == [1, 1, 0, 0, 4, 3, 2, 1]
    ensures Encode(NewFrame(CMD_PSH, 0x01020304).(data := data)) == [1, 2, 6, 5, 4, 3, 2, 1] + data
    ensures Encode(NewFrame(CMD_NOP, 0x01020304)) == [1, 3, 0, 0, 4, 3, 2, 1]
    ensures Encode(NewFrame(CMD_ACK, 0x01020304)) == [1, 4, 0, 0, 4, 3, 2, 1]
    ensures Encode(NewFrame(CMD_FUL, 0x01020304)) == [1, 5, 0, 0, 4, 3, 2, 1]
    ensures Encode(NewFrame(CMD_EMP, 0x01020304)) == [1, 6, 0, 0, 4, 3, 2, 1]
  {
  }

  /** What readFrame makes of given bytes, and of every header with another version. */
  lemma ReadBytes(rest: seq<Octet>, ver: Octet)
    ensures Decode([1, 2, 3, 0, 4, 3, 2, 1, 7, 8, 9] + rest) == Got(Frame(1, 2, 0x01020304, [7, 8, 9]), rest)
    ensures Decode([1, 3, 0, 0, 0, 0, 0, 0] + rest) == Got(Frame(1, 3, 0, []), rest)
    ensures Decode([1, 2, 3, 0, 4, 3, 2, 1, 7, 8]) == Short && Decode([1, 2, 3, 0, 4, 3, 2]) == Short
    ensures ver != 1 ==> Decode([ver, 3, 0, 0, 0, 0, 0, 0] + rest) == BadVersion
  {
    ReadPayload(rest);
    ReadEmpty(rest);
    var w := [ver, 3, 0, 0, 0, 0, 0, 0] + rest;
    assert w[0] == ver && |w| >= 8;
  }

  lemma ReadPayload(rest: seq<Octet>)
    ensures Decode([1, 2, 3, 0, 4, 3, 2, 1, 7, 8, 9] + rest) == Got(Frame(1, 2, 0x01020304, [7, 8, 9]), rest)
  {
    var w := [1, 2, 3, 0, 4, 3, 2, 1, 7, 8, 9] + rest;
    assert w[2..][0] == 3 && w[2..][1] == 0;
    assert w[4..][0] == 4 && w[4..][1] == 3 && w[4..][2] == 2 && w[4..][3] == 1;
    assert w[8..11] == [7, 8, 9] && w[11..] == rest;
  }

  lemma ReadEmpty(rest: seq<Octet>)
    ensures Decode([1, 3, 0, 0, 0, 0, 0, 0] + rest) == Got(Frame(1, 3, 0, []), rest)
  {
    var w := [1, 3, 0, 0, 0, 0, 0, 0] + rest;
    assert w[2..][0] == 0 && w[2..][1] == 0;
    assert w[4..][0] == 0 && w[4..][1] == 0 && w[4..][2] == 0 && w[4..][3] == 0;
    assert w[8..] == rest;
  }

  lemma EncodedParts(f: Frame, rest: seq<Octet>)
    ensures var w := Encode(f) + rest;
            && |w| >= 8 && w[0] == f.ver && w[1] == f.cmd && w[8..] == f.data + rest
            && Get16(w[2..]) == |f.data| % 0x1_0000 && Get32(w[4..]) == f.sid
  {
    hide Put16, Put32, Get16, Get32;
    var w := Encode(f) + rest;
    var tail := f.data + rest;
    assert w == [f.ver, f.cmd] + Put16(|f.data|) + Put32(f.sid) + tail;
    assert w[4..] == Put32(f.sid) + tail;
    assert w[2..] == Put16(|f.data|) + w[4..];
    Got16(|f.data|, w[4..]);
    Got32(f.sid, tail);
  }

  /** Decoding undoes encoding exactly for payloads of at most 65527 bytes, although the
      configuration allows frames of up to 65535. */
  lemma DecodeEncodeIff(f: Frame, rest: seq<Octet>)
    requires f.ver == VERSION && |f.data| <= 0x1_0000
    ensures Decode(Encode(f) + rest) == Got(f, rest) <==> |f.data| <= MAX_PAYLOAD
    ensures MAX_PAYLOAD < |f.data| < 0x1_0000 ==> Decode(Encode(f) + rest) == Panic
  {
    EncodedParts(f, rest);
    hide Encode, Get16, Get32;
    var w := Encode(f) + rest;
    var n := |f.data|;
    if n <= MAX_PAYLOAD {
      assert (f.data + rest)[..n] == f.data && (f.data + rest)[n..] == rest;
      assert w[8..8 + n] == w[8..][..n] && w[8 + n..] == w[8..][n..];
    }
  }

  function EncodeAll(fs: seq<Frame>): seq<Octet> {
    if fs == [] then [] else Encode(fs[0]) + EncodeAll(fs[1..])
  }

  predicate Sendable(f: Frame) {
    f.ver == VERSION && |f.data| <= MAX_PAYLOAD
  }

  lemma DecodeShorter(wire: seq<Octet>)
    ensures Decode(wire).Got? ==> |Decode(wire).rest| < |wire|
  {
  }

  /** The frames read one after the other until the bytes run out. */
  function DecodeAll(wire: seq<Octet>): (r: (seq<Frame>, seq<Octet>))
    decreases |wire|
  {
    DecodeShorter(wire);
    match Decode(wire)
    case Got(f, rest) => var (fs, left) := DecodeAll(rest); ([f] + fs, left)
    case _ => ([], wire)
  }

  /** The format is self-delimiting: a list of frames is read back as that list. */
  lemma {:induction false} SelfDelimiting(fs: seq<Frame>)
    requires forall f :: f in fs ==> Sendable(f)
    ensures DecodeAll(EncodeAll(fs)) == (fs, [])
  {
    hide Encode, Decode;
    if fs == [] {
      assert EncodeAll(fs) == [];
      NothingThere();
    } else {
      assert fs[0] in fs && forall f :: f in fs[1..] ==> f in fs;
      DecodeEncodeIff(fs[0], EncodeAll(fs[1..]));
      SelfDelimiting(fs[1..]);
      DecodeShorter(EncodeAll(fs));
      assert [fs[0]] + fs[1..] == fs;
    }
  }

  lemma NothingThere()
    ensures Decode([]) == Short
  {
  }

  lemma {:induction false} EncodeAllAppend(a: seq<Frame>, b: seq<Frame>)
    ensures EncodeAll(a + b) == EncodeAll(a) + EncodeAll(b)
  {
    hide Encode;
    if a == [] {
      assert a + b == b;
    } else {
      assert (a + b)[1..] == a[1..] + b;
      EncodeAllAppend(a[1..], b);
    }
  }

  /** The writer goroutine: the frame is laid out in the shared buffer and written at once. */
  method WriteFrame(buf: array<Octet>, f: Frame) returns (out: seq<Octet>)
    requires buf.Length == 0x1_0000 + HEADER_SIZE && |f.data| <= 0x1_0000
    modifies buf
    ensures out == Encode(f)
  {
    hide Put16, Put32;
    buf[0] := f.ver;
    buf[1] := f.cmd;
    var l, s := Put16(|f.data|), Put32(f.sid);
    buf[2], buf[3] := l[0], l[1];
    buf[4], buf[5], buf[6], buf[7] := s[0], s[1], s[2], s[3];
    ghost var head := buf[..8];
    assert head == [f.ver, f.cmd] + l + s;
    for i := 0 to |f.data|
      invariant buf[..8] == head && buf[8..8 + i] == f.data[..i]
    {
      buf[HEADER_SIZE + i] := f.data[i];
    }
    out := buf[..HEADER_SIZE + |f.data|];
    assert out == buf[..8] + buf[8..8 + |f.data|];
  }

  /** split of stream.go. */
  method Split(bts: seq<Octet>, cmd: Cmd, sid: Sid, frameSize: nat) returns (frames: seq<Frame>)
    requires frameSize > 0
    ensures frames == FramesOf(bts, cmd, sid, frameSize)
  {
    var rest := bts;
    frames := [];
    ghost var done: seq<seq<Octet>> := [];
    while |rest| > frameSize
      invariant frames == Wrapped(done, cmd, sid)
      invariant done + Pieces(rest, frameSize) == Pieces(bts, frameSize)
      decreases |rest|
    {
      var frame := NewFrame(cmd, sid).(data := rest[..frameSize]);
      PiecesStep(done, rest, frameSize);
      done := done + [rest[..frameSize]];
      rest := rest[frameSize..];
      frames := frames + [frame];
    }
    if |rest| > 0 {
      var frame := NewFrame(cmd, sid).(data := rest);
      done := done + [rest];
      frames := frames + [frame];
    }
    assert done == Pieces(bts, frameSize);
  }

  function Wrapped(ps: seq<seq<Octet>>, cmd: Cmd, sid: Sid): (fs: seq<Frame>)
    ensures |fs| == |ps|
  {
    seq(|ps|, i requires 0 <= i < |ps| => NewFrame(cmd, sid).(data := ps[i]))
  }

  function FramesOf(bts: seq<Octet>, cmd: Cmd, sid: Sid, frameSize: nat): seq<Frame>
    requires frameSize > 0
  {
    Wrapped(Pieces(bts, frameSize), cmd, sid)
  }

  /** The payload that a list of frames carries. */
  function Data(fs: seq<Frame>): seq<Octet> {
    if fs == [] then [] else fs[0].data + Data(fs[1..])
  }

  lemma {:induction false} WrappedData(ps: seq<seq<Octet>>, cmd: Cmd, sid: Sid)
    ensures Data(Wrapped(ps, cmd, sid)) == Flatten(ps)
  {
    if ps != [] {
      assert Wrapped(ps, cmd, sid)[1..] == Wrapped(ps[1..], cmd, sid);
      WrappedData(ps[1..], cmd, sid);
    }
  }

  /** split loses nothing, makes no empty frame and no frame beyond the size. */
  lemma SplitCorrect(bts: seq<Octet>, cmd: Cmd, sid: Sid, frameSize: nat)
    requires frameSize > 0
    ensures var fs := FramesOf(bts, cmd, sid, frameSize);
            && Data(fs) == bts
            && (forall i :: 0 <= i < |fs| ==> 0 < |fs[i].data| <= frameSize && fs[i].cmd == cmd && fs[i].sid == sid)
            && (forall i :: 0 <= i < |fs| - 1 ==> |fs[i].data| == frameSize)
            && (frameSize <= MAX_PAYLOAD ==> forall i :: 0 <= i < |fs| ==> Sendable(fs[i]))
  {
    PiecesCorrect(bts, frameSize);
    var r, fs := Pieces(bts, frameSize), FramesOf(bts, cmd, sid, frameSize);
    assert forall i :: 0 <= i < |fs| ==> fs[i] == NewFrame(cmd, sid).(data := r[i]);
    WrappedData(Pieces(bts, frameSize), cmd, sid);
  }

  /** The bytes that have arrived on the connection and were not read yet. */
  class Conn {
    var wire: seq<Octet>
  }

  datatype ReadResult = Failed | Invalid | Panicked | Delivered(frame: Frame)

  /** io.ReadFull into buffer[lo..hi]. */
  method Fill(conn: Conn, buffer: array<Octet>, lo: nat, hi: nat) returns (ok: bool)
    requires lo <= hi <= buffer.Length
    modifies conn, buffer
    ensures ok <==> hi - lo <= |old(conn.wire)|
    ensures ok ==> buffer[lo..hi] == old(conn.wire[..hi - lo]) && conn.wire == old(conn.wire[hi - lo..])
    ensures forall i :: 0 <= i < buffer.Length && !(lo <= i < hi) ==> buffer[i] == old(buffer[i])
  {
    if hi - lo > |conn.wire| {
      return false;
    }
    for i := lo to hi
      invariant conn.wire == old(conn.wire) && buffer[lo..i] == conn.wire[..i - lo]
      invariant forall j :: 0 <= j < buffer.Length && !(lo <= j < i) ==> buffer[j] == old(buffer[j])
    {
      buffer[i] := conn.wire[i - lo];
    }
    conn.wire := conn.wire[hi - lo..];
    ok := true;
  }

  /** readFrame into the buffer of recvLoop: it is the function Decode. */
  method ReadFrame(conn: Conn, buffer: array<Octet>) returns (r: ReadResult)
    requires buffer.Length == 0x1_0000 + HEADER_SIZE
    modifies conn, buffer
    ensures match Decode(old(conn.wire))
            case Short => r == Failed
            case BadVersion => r == Invalid
            case Panic => r == Panicked
            case Got(f, rest) => r == Delivered(f) && conn.wire == rest
  {
    ghost var w := conn.wire;
    var ok := Fill(conn, buffer, 0, HEADER_SIZE);
    if !ok {
      return Failed;
    }
    SameHeader(w, buffer[..8]);
    if buffer[0] != VERSION {
      return Invalid;
    }
    var f := Frame(buffer[0], buffer[1], Get32(buffer[4..8]), []);
    var length := Get16(buffer[2..4]);
    assert buffer[2..4] == buffer[..8][2..4] && buffer[4..8] == buffer[..8][4..8];
    hide Get16, Get32;
    if length > 0 {
      var end := (HEADER_SIZE + length) % 0x1_0000;
      if end < HEADER_SIZE {
        return Panicked;
      }
      ok := Fill(conn, buffer, HEADER_SIZE, end);
      if !ok {
        return Failed;
      }
      assert w[8..][..end - 8] == w[8..end] && w[8..][end - 8..] == w[end..];
      f := f.(data := buffer[HEADER_SIZE..end]);
    }
    r := Delivered(f);
  }

  lemma SameHeader(w: seq<Octet>, b: seq<Octet>)
    requires |w| >= 8 && b == w[..8]
    ensures Get16(b[2..4]) == Get16(w[2..]) && Get32(b[4..8]) == Get32(w[4..]) && b[0] == w[0] && b[1] == w[1]
  {
  }
}
