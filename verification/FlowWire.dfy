/** The wire format of lib/streamcoder/flowobf.go: two 16-bit lengths, the noise, the data; and
    what a reader makes of it, on a connection that may end anywhere. */
module FlowWire {
  import opened Octets

  function EncodeFrame(noise: seq<Octet>, data: seq<Octet>): seq<Octet> {
    Put16(|noise|) + Put16(|data|) + noise + data
  }

  datatype Parsed = Parsed(noise: seq<Octet>, data: seq<Octet>, rest: seq<Octet>)

  /** A complete frame is at the front. */
  predicate Complete(wire: seq<Octet>) {
    |wire| >= 4 && |wire| >= 4 + Get16(wire) + Get16(wire[2..])
  }

  function Parse(wire: seq<Octet>): (p: Parsed)
    requires Complete(wire)
    ensures |p.noise| == Get16(wire) && |p.data| == Get16(wire[2..])
    ensures |p.rest| == |wire| - 4 - |p.noise| - |p.data|
  {
    var n, l := Get16(wire), Get16(wire[2..]);
    Parsed(wire[4..4 + n], wire[4 + n..4 + n + l], wire[4 + n + l..])
  }

  /** What 16-bit offsets into a buffer of the given capacity can reach. Each end offset is
      used only when its section is not empty. */
  predicate FitsNoise(noise: nat, capacity: nat) {
    noise > 0 ==> 4 + noise < 0x1_0000 && 4 + noise <= capacity
  }

  predicate FitsData(noise: nat, data: nat, capacity: nat) {
    data > 0 ==> 4 + noise + data < 0x1_0000 && 4 + noise + data <= capacity
  }

  predicate Fits(noise: nat, data: nat, capacity: nat) {
    FitsNoise(noise, capacity) && FitsData(noise, data, capacity)
  }

  /** The tests that Go makes of the slice bounds, with offsets of 16 bits. */
  lemma FitsByOffsets(noise: nat, data: nat, capacity: nat)
    requires noise < 0x1_0000 && data < 0x1_0000
    ensures var offNoise, offData := (4 + noise) % 0x1_0000, (4 + noise + data) % 0x1_0000;
            && (FitsNoise(noise, capacity) <==> (noise > 0 ==> 4 <= offNoise <= capacity))
            && (FitsNoise(noise, capacity) ==>
                  && offNoise == 4 + noise
                  && (FitsData(noise, data, capacity) <==> (data > 0 ==> offNoise <= offData <= capacity)))
            && (Fits(noise, data, capacity) && data > 0 ==> offData == 4 + noise + data)
  {
  }

  /** The lengths that mkNoise can draw for l data bytes are those below this bound. */
  function NoiseBound(l: nat, maxNoise: nat): nat {
    if l > maxNoise then 5 else maxNoise
  }

  /** The frame buffers, and the sizes for which the frames always fit. */
  function Capacity(maxData: nat, maxNoise: nat): nat {
    maxData + maxNoise + 4
  }

  predicate Sane(maxData: nat, maxNoise: nat) {
    if maxData > maxNoise then maxNoise >= 4 && maxData <= 0xfff7 && 2 * maxNoise <= 0xfffc
    else maxNoise + maxData <= 0xfffc
  }

  /** Exactly the sane sizes keep every frame within its buffer and its 16-bit offsets. */
  lemma SaneIff(maxData: nat, maxNoise: nat)
    requires maxData > 0
    ensures Sane(maxData, maxNoise) <==>
            forall l, n :: 0 < l <= maxData && 0 <= n < NoiseBound(l, maxNoise) ==> Fits(n, l, Capacity(maxData, maxNoise))
  {
    var c := Capacity(maxData, maxNoise);
    if !Sane(maxData, maxNoise) {
      if maxData > maxNoise && (maxNoise < 4 || maxData > 0xfff7) {
        assert 4 < NoiseBound(maxData, maxNoise) && !Fits(4, maxData, c);
      } else if maxData > maxNoise {
        assert maxNoise - 1 < NoiseBound(maxNoise, maxNoise) && !Fits(maxNoise - 1, maxNoise, c);
      } else {
        assert maxNoise - 1 < NoiseBound(maxData, maxNoise) && !Fits(maxNoise - 1, maxData, c);
      }
    }
  }

  // Parsing.

  lemma ParseEncoded(noise: seq<Octet>, data: seq<Octet>, rest: seq<Octet>)
    requires |noise| < 0x1_0000 && |data| < 0x1_0000
    ensures var w := EncodeFrame(noise, data) + rest;
            Complete(w) && Parse(w) == Parsed(noise, data, rest)
  {
    hide Put16, Get16;
    var w := EncodeFrame(noise, data) + rest;
    var body := noise + data + rest;
    assert w == Put16(|noise|) + (Put16(|data|) + body);
    assert w[2..] == Put16(|data|) + body;
    Got16(|noise|, w[2..]);
    Got16(|data|, body);
    Sections(w[..4], noise, data, rest);
    assert w == w[..4] + body;
  }

  lemma Sections(head: seq<Octet>, noise: seq<Octet>, data: seq<Octet>, rest: seq<Octet>)
    requires |head| == 4
    ensures var w, n, l := head + (noise + data + rest), |noise|, |data|;
            w[4..4 + n] == noise && w[4 + n..4 + n + l] == data && w[4 + n + l..] == rest
  {
  }

  lemma ParseAppend(a: seq<Octet>, b: seq<Octet>)
    requires Complete(a)
    ensures Complete(a + b) && Parse(a + b) == Parse(a).(rest := Parse(a).rest + b)
  {
    var n, l := Get16(a), Get16(a[2..]);
    assert (a + b)[2..] == a[2..] + b;
    hide Get16;
    Get16Append(a, b);
    Get16Append(a[2..], b);
    assert (a + b)[4..4 + n] == a[4..4 + n];
    assert (a + b)[4 + n..4 + n + l] == a[4 + n..4 + n + l];
    assert (a + b)[4 + n + l..] == a[4 + n + l..] + b;
  }

  lemma Get16Append(a: seq<Octet>, b: seq<Octet>)
    requires |a| >= 2
    ensures Get16(a + b) == Get16(a)
  {
  }

  // Reading.

  /** io.ReadFull: no error, io.EOF when nothing was there, io.ErrUnexpectedEOF in between. */
  datatype Error = Nil | EOF | UnexpectedEOF

  function Ended(got: seq<Octet>): Error {
    if got == [] then EOF else UnexpectedEOF
  }

  /** What readFrame makes of the bytes on the connection. */
  datatype Fetched = Panicked | Fetched(bytes: seq<Octet>, rest: seq<Octet>, err: Error)

  function Fetch(wire: seq<Octet>, capacity: nat): Fetched {
    if Complete(wire) then
      var p := Parse(wire);
      if Fits(|p.noise|, |p.data|, capacity) then Fetched(p.data, p.rest, Nil) else Panicked
    else if |wire| < 4 then Fetched([], [], Ended(wire))
    else
      var n, l := Get16(wire), Get16(wire[2..]);
      if !FitsNoise(n, capacity) then Panicked
      else if |wire| < 4 + n then Fetched(wire[4..], [], Ended(wire[4..]))
      else if !FitsData(n, l, capacity) then Panicked
      else Fetched(wire[4 + n..], [], Ended(wire[4 + n..]))
  }

  /** Section by section. */
  lemma FetchSections(wire: seq<Octet>, capacity: nat)
    ensures |wire| < 4 ==> Fetch(wire, capacity) == Fetched([], [], Ended(wire))
    ensures |wire| >= 4 ==>
              var n, l := Get16(wire), Get16(wire[2..]);
              Fetch(wire, capacity) ==
              if !FitsNoise(n, capacity) then Panicked
              else if |wire| < 4 + n then Fetched(wire[4..], [], Ended(wire[4..]))
              else if !FitsData(n, l, capacity) then Panicked
              else if |wire| < 4 + n + l then Fetched(wire[4 + n..], [], Ended(wire[4 + n..]))
              else Fetched(wire[4 + n..4 + n + l], wire[4 + n + l..], Nil)
  {
  }

  /** The bytes of a frame: both lengths little-endian, the noise before the data. */
  lemma FrameBytes(noise: seq<Octet>, data: seq<Octet>)
    requires |noise| == 0x0203 && |data| == 0x0405
    ensures EncodeFrame(noise, data) == [3, 2, 5, 4] + noise + data
  {
  }

  /** What readFrame makes of given bytes: a frame, one that is cut in its data, in its noise, in its
      header, and one that does not fit. */
  lemma ReadBytes(rest: seq<Octet>)
    ensures Fetch([2, 0, 3, 0, 8, 9, 5, 6, 7] + rest, 9) == Fetched([5, 6, 7], rest, Nil)
    ensures Fetch([2, 0, 3, 0, 8, 9, 5], 9) == Fetched([5], [], UnexpectedEOF)
    ensures Fetch([2, 0, 3, 0, 8], 9) == Fetched([8], [], UnexpectedEOF)
    ensures Fetch([2, 0, 3, 0, 8, 9], 9) == Fetched([], [], EOF)
    ensures Fetch([2, 0, 3], 9) == Fetched([], [], UnexpectedEOF) && Fetch([], 9) == Fetched([], [], EOF)
    ensures Fetch([2, 0, 3, 0, 8, 9, 5, 6, 7], 8) == Panicked && Fetch([2, 0, 3, 0], 5) == Panicked
  {
    var w := [2, 0, 3, 0, 8, 9, 5, 6, 7] + rest;
    FetchSections(w, 9);
    FetchSections([2, 0, 3, 0, 8, 9, 5], 9);
    FetchSections([2, 0, 3, 0, 8], 9);
    FetchSections([2, 0, 3, 0, 8, 9], 9);
    FetchSections([2, 0, 3, 0, 8, 9, 5, 6, 7], 8);
    FetchSections([2, 0, 3, 0], 5);
    hide Fetch;
    assert w[2..][0] == 3 && w[2..][1] == 0;
    assert w[6..9] == [5, 6, 7] && w[9..] == rest;
  }

  /** Whatever is on the connection: all that readFrame yields until it panics or fails. */
  function Payload(wire: seq<Octet>, capacity: nat): seq<Octet>
    decreases |wire|
  {
    match Fetch(wire, capacity)
    case Panicked => []
    case Fetched(bytes, rest, err) => if err == Nil then bytes + Payload(rest, capacity) else bytes
  }

  /** Complete frames that fit. */
  predicate Framed(wire: seq<Octet>, capacity: nat)
    decreases |wire|
  {
    wire == [] ||
    (Complete(wire) && (var p := Parse(wire); Fits(|p.noise|, |p.data|, capacity) && Framed(p.rest, capacity)))
  }

  lemma FramedFront(wire: seq<Octet>, capacity: nat)
    requires Framed(wire, capacity) && wire != []
    ensures Complete(wire) && Fits(|Parse(wire).noise|, |Parse(wire).data|, capacity)
    ensures Fetch(wire, capacity) == Fetched(Parse(wire).data, Parse(wire).rest, Nil)
    ensures Framed(Parse(wire).rest, capacity)
    ensures Payload(wire, capacity) == Parse(wire).data + Payload(Parse(wire).rest, capacity)
  {
  }

  lemma {:induction false} FramedAppend(a: seq<Octet>, b: seq<Octet>, capacity: nat)
    requires Framed(a, capacity)
    ensures Payload(a + b, capacity) == Payload(a, capacity) + Payload(b, capacity)
    ensures Framed(b, capacity) ==> Framed(a + b, capacity)
    decreases |a|
  {
    hide Parse, Complete, Fits, Fetch, Payload, Framed;
    if a == [] {
      assert a + b == b;
      EmptyPayload(capacity);
    } else {
      FramedFront(a, capacity);
      var p := Parse(a);
      FramedAppend(p.rest, b, capacity);
      ParseAppend(a, b);
      FrontPayload(a + b, capacity);
      assert p.data + (Payload(p.rest, capacity) + Payload(b, capacity)) ==
             p.data + Payload(p.rest, capacity) + Payload(b, capacity);
    }
  }

  lemma FrontPayload(wire: seq<Octet>, capacity: nat)
    requires Complete(wire) && Fits(|Parse(wire).noise|, |Parse(wire).data|, capacity)
    ensures Payload(wire, capacity) == Parse(wire).data + Payload(Parse(wire).rest, capacity)
    ensures Framed(Parse(wire).rest, capacity) ==> Framed(wire, capacity)
  {
  }

  lemma EmptyPayload(capacity: nat)
    ensures Framed([], capacity) && Payload([], capacity) == []
  {
  }

  lemma FramedOne(noise: seq<Octet>, data: seq<Octet>, capacity: nat)
    requires |noise| < 0x1_0000 && |data| < 0x1_0000 && Fits(|noise|, |data|, capacity)
    ensures var w := EncodeFrame(noise, data);
            Framed(w, capacity) && Payload(w, capacity) == data
  {
    var w := EncodeFrame(noise, data);
    ParseEncoded(noise, data, []);
    assert w + [] == w;
    EmptyPayload(capacity);
    FrontPayload(w, capacity);
  }

  // A connection that is cut.

  /** The size of the frame at the front. */
  function Size(wire: seq<Octet>): nat
    requires Complete(wire)
  {
    4 + |Parse(wire).noise| + |Parse(wire).data|
  }

  /** The data bytes among the first c bytes of the wire. */
  function DataBefore(wire: seq<Octet>, c: nat, capacity: nat): seq<Octet>
    requires Framed(wire, capacity) && c <= |wire|
    decreases |wire|
  {
    if wire == [] then []
    else
      var p := Parse(wire);
      var head := 4 + |p.noise|;
      if c >= Size(wire) then p.data + DataBefore(p.rest, c - Size(wire), capacity)
      else if c > head then p.data[..c - head]
      else []
  }

  /** The first c bytes end inside the noise of a frame, after at least one byte of it. */
  predicate InNoise(wire: seq<Octet>, c: nat, capacity: nat)
    requires Framed(wire, capacity) && c <= |wire|
    decreases |wire|
  {
    wire != [] &&
    (if c >= Size(wire) then InNoise(Parse(wire).rest, c - Size(wire), capacity)
     else 4 < c < 4 + |Parse(wire).noise|)
  }

  lemma {:induction false} DataBeforePrefix(wire: seq<Octet>, c: nat, capacity: nat)
    requires Framed(wire, capacity) && c <= |wire|
    ensures DataBefore(wire, c, capacity) <= Payload(wire, capacity)
    decreases |wire|
  {
    if wire != [] {
      FramedFront(wire, capacity);
      hide Parse, Get16, Fetch, Payload;
      if c >= Size(wire) {
        DataBeforePrefix(Parse(wire).rest, c - Size(wire), capacity);
      }
    }
  }

  /** A reader of a connection that was cut gets the data that came before the cut, if and only
      if the cut is not inside the noise of a frame: there the noise is returned as data. */
  lemma {:induction false} CutIff(wire: seq<Octet>, c: nat, capacity: nat)
    requires Framed(wire, capacity) && c <= |wire|
    ensures Payload(wire[..c], capacity) == DataBefore(wire, c, capacity) <==> !InNoise(wire, c, capacity)
    decreases |wire|
  {
    if wire == [] {
      EmptyPayload(capacity);
    } else if c >= Size(wire) {
      FramedFront(wire, capacity);
      var size, p := Size(wire), Parse(wire);
      CutIff(p.rest, c - size, capacity);
      CutAfter(wire, c);
      FrontPayload(wire[..c], capacity);
      hide Parse, Complete, Get16, Fits, Fetch, Payload;
      SamePrefix(p.data, Payload(p.rest[..c - size], capacity), DataBefore(p.rest, c - size, capacity));
    } else {
      CutFront(wire, c, capacity);
    }
  }

  lemma SamePrefix(a: seq<Octet>, b: seq<Octet>, c: seq<Octet>)
    ensures a + b == a + c <==> b == c
  {
    if a + b == a + c {
      assert b == (a + b)[|a|..] == (a + c)[|a|..] == c;
    }
  }

  lemma CutAfter(wire: seq<Octet>, c: nat)
    requires Complete(wire) && Size(wire) <= c <= |wire|
    ensures Complete(wire[..c]) && Parse(wire[..c]) == Parse(wire).(rest := Parse(wire).rest[..c - Size(wire)])
  {
    var size := Size(wire);
    var front := wire[..size];
    FrontParse(wire);
    assert wire[..c] == front + wire[size..c];
    ParseAppend(front, wire[size..c]);
    hide Parse, Complete, Get16;
    assert wire[size..c] == wire[size..][..c - size] && [] + wire[size..c] == wire[size..c];
  }

  /** The first frame alone. */
  lemma FrontParse(wire: seq<Octet>)
    requires Complete(wire)
    ensures var front := wire[..Size(wire)];
            Complete(front) && Parse(front) == Parse(wire).(rest := []) && Parse(wire).rest == wire[Size(wire)..]
  {
    SameLengths(wire, Size(wire));
    hide Get16;
  }

  lemma SameLengths(wire: seq<Octet>, c: nat)
    requires 4 <= c <= |wire|
    ensures Get16(wire[..c]) == Get16(wire) && Get16(wire[..c][2..]) == Get16(wire[2..])
  {
  }

  lemma CutFront(wire: seq<Octet>, c: nat, capacity: nat)
    requires Framed(wire, capacity) && wire != [] && c < Size(wire)
    ensures Payload(wire[..c], capacity) == DataBefore(wire, c, capacity) <==> !InNoise(wire, c, capacity)
  {
    FramedFront(wire, capacity);
    var p, w := Parse(wire), wire[..c];
    if c >= 4 {
      SameLengths(wire, c);
      hide Get16;
      var n := |p.noise|;
      assert !Complete(w);
      if c < 4 + n {
        assert Payload(w, capacity) == w[4..];
      } else {
        assert Payload(w, capacity) == w[4 + n..];
        assert w[4 + n..] == p.data[..c - 4 - n];
      }
    }
  }

  // One Read.

  function Take(s: seq<Octet>, n: nat): seq<Octet> {
    if n < |s| then s[..n] else s
  }

  function Drop(s: seq<Octet>, n: nat): seq<Octet> {
    if n < |s| then s[n..] else []
  }

  /** What Read returns and leaves, as a function of the remainder and the connection. */
  datatype Outcome = Crash | Outcome(out: seq<Octet>, rem: seq<Octet>, wire: seq<Octet>, err: Error)

  /** First the remainder; if that does not fill the buffer, also from exactly one more frame. */
  function ReadOutcome(rem: seq<Octet>, wire: seq<Octet>, len: nat, capacity: nat): Outcome {
    var first := Take(rem, len);
    if |first| == len then Outcome(first, Drop(rem, len), wire, Nil)
    else
      match Fetch(wire, capacity)
      case Panicked => Crash
      case Fetched(bytes, rest, err) => Outcome(first + Take(bytes, len - |first|), Drop(bytes, len - |first|), rest, err)
  }

  /** The remainder serves a read alone when it is enough, else it goes first and the bytes of one
      more frame follow; what they leave is the new remainder. */
  lemma ReadServes(rem: seq<Octet>, wire: seq<Octet>, len: nat, capacity: nat)
    ensures |rem| >= len ==> ReadOutcome(rem, wire, len, capacity) == Outcome(rem[..len], rem[len..], wire, Nil)
    ensures |rem| < len && Fetch(wire, capacity).Fetched? ==>
              var f, n := Fetch(wire, capacity), len - |rem|;
              ReadOutcome(rem, wire, len, capacity) ==
              if |f.bytes| <= n then Outcome(rem + f.bytes, [], f.rest, f.err)
              else Outcome(rem + f.bytes[..n], f.bytes[n..], f.rest, f.err)
    ensures |rem| < len && Fetch(wire, capacity).Panicked? ==> ReadOutcome(rem, wire, len, capacity) == Crash
  {
    hide Fetch;
  }

  /** No byte that the connection yields is lost, made up or reordered by a read, and the error
      comes only when nothing is left to fetch. */
  lemma ReadConserves(rem: seq<Octet>, wire: seq<Octet>, len: nat, capacity: nat)
    requires !ReadOutcome(rem, wire, len, capacity).Crash?
    ensures var r := ReadOutcome(rem, wire, len, capacity);
            && r.out + r.rem + Payload(r.wire, capacity) == rem + Payload(wire, capacity)
            && |r.out| <= len && (r.err != Nil ==> r.wire == [])
            && (Framed(wire, capacity) ==> Framed(r.wire, capacity) && (r.err == EOF <==> |rem| < len && wire == []))
  {
    hide Parse, Complete, Fetch, Payload, Framed;
    var r := ReadOutcome(rem, wire, len, capacity);
    if |rem| < len {
      var f := Fetch(wire, capacity);
      var k := len - |rem|;
      FetchedPayload(wire, capacity);
      FetchedFramed(wire, capacity);
      assert f.bytes == Take(f.bytes, k) + Drop(f.bytes, k);
      assert r.out + r.rem == rem + f.bytes;
      assert (rem + f.bytes) + Payload(f.rest, capacity) == rem + (f.bytes + Payload(f.rest, capacity));
    }
  }

  lemma FetchedPayload(wire: seq<Octet>, capacity: nat)
    requires Fetch(wire, capacity).Fetched?
    ensures var f := Fetch(wire, capacity);
            Payload(wire, capacity) == f.bytes + Payload(f.rest, capacity) && (f.err != Nil ==> f.rest == [])
  {
    EmptyPayload(capacity);
    hide Parse;
  }

  lemma FetchedFramed(wire: seq<Octet>, capacity: nat)
    ensures Framed(wire, capacity) ==>
              var f := Fetch(wire, capacity);
              f.Fetched? && Framed(f.rest, capacity) && f.err == if wire == [] then EOF else Nil
  {
    if wire != [] && Framed(wire, capacity) {
      FramedFront(wire, capacity);
    }
    hide Parse, Get16;
  }

  /** On complete frames that fit, no read panics. */
  lemma FramedReads(rem: seq<Octet>, wire: seq<Octet>, len: nat, capacity: nat)
    requires Framed(wire, capacity)
    ensures !ReadOutcome(rem, wire, len, capacity).Crash?
  {
  }
}
