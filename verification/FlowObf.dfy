/** The noise-padded framing of lib/streamcoder/flowobf.go. */
module FlowObfs {
  import opened Octets
  import opened Chunks
  import opened FlowWire

  /** What is on its way in one direction of the underlying connection. It may end anywhere. */
  class Conn {
    var wire: seq<Octet>
  }

  /** The random source: the noise of frame k, of some length below the bound it is asked for. */
  type Noise = (nat, nat) -> seq<Octet>

  ghost predicate Random(noise: Noise) {
    forall k, bound :: bound > 0 ==> |noise(k, bound)| < bound
  }

  /** What a frame carries. */
  datatype Packet = Packet(noise: seq<Octet>, data: seq<Octet>)

  /** The pieces ps of a text with the noise drawn for them, numbered from k on. */
  function Packets(ps: seq<seq<Octet>>, maxNoise: nat, noise: Noise, k: nat): seq<Packet> {
    if ps == [] then []
    else [Packet(noise(k, NoiseBound(|ps[0]|, maxNoise)), ps[0])] + Packets(ps[1..], maxNoise, noise, k + 1)
  }

  lemma {:induction false} PacketsAppend(ps: seq<seq<Octet>>, p: seq<Octet>, maxNoise: nat, noise: Noise, k: nat)
    ensures Packets(ps + [p], maxNoise, noise, k) ==
            Packets(ps, maxNoise, noise, k) + [Packet(noise(k + |ps|, NoiseBound(|p|, maxNoise)), p)]
  {
    hide NoiseBound;
    if ps != [] {
      assert (ps + [p])[1..] == ps[1..] + [p];
      PacketsAppend(ps[1..], p, maxNoise, noise, k + 1);
    }
  }

  lemma {:induction false} PacketAt(ps: seq<seq<Octet>>, maxNoise: nat, noise: Noise, k: nat, i: nat)
    requires i < |ps|
    ensures var r := Packets(ps, maxNoise, noise, k);
            |r| == |ps| && r[i] == Packet(noise(k + i, NoiseBound(|ps[i]|, maxNoise)), ps[i])
  {
    hide NoiseBound;
    if i > 0 {
      PacketAt(ps[1..], maxNoise, noise, k + 1, i - 1);
    } else if |ps| > 1 {
      PacketAt(ps[1..], maxNoise, noise, k + 1, 0);
    }
  }

  function Encode(p: Packet): seq<Octet> {
    EncodeFrame(p.noise, p.data)
  }

  /** The drawn noise, and the whole frame, are within a buffer of the given capacity. */
  predicate NoiseHeld(p: Packet, capacity: nat) {
    4 + |p.noise| <= capacity
  }

  predicate Held(p: Packet, capacity: nat) {
    4 + |p.noise| + |p.data| <= capacity
  }

  ghost predicate AllNoiseHeld(ps: seq<Packet>, capacity: nat) {
    forall p :: p in ps ==> NoiseHeld(p, capacity)
  }

  ghost predicate AllHeld(ps: seq<Packet>, capacity: nat) {
    forall p :: p in ps ==> Held(p, capacity)
  }

  /** Every frame can be read back. */
  ghost predicate AllFit(ps: seq<Packet>, capacity: nat) {
    forall p :: p in ps ==> |p.noise| < 0x1_0000 && |p.data| < 0x1_0000 && Fits(|p.noise|, |p.data|, capacity)
  }

  datatype Frame = Frame(d: seq<Octet>, l: nat, rl: nat)

  /** A frame in its buffer: what is beyond the capacity is not there. */
  function Made(p: Packet, capacity: nat): Frame {
    Frame(Take(Encode(p), capacity), 4 + |p.noise| + |p.data|, |p.data|)
  }

  /** What goes out: all frames before the first one that its buffer does not hold. */
  function Sent(ps: seq<Packet>, capacity: nat): seq<Octet> {
    if ps == [] || !Held(ps[0], capacity) then [] else Encode(ps[0]) + Sent(ps[1..], capacity)
  }

  function Counted(ps: seq<Packet>): nat {
    if ps == [] then 0 else |ps[0].data| + Counted(ps[1..])
  }

  lemma {:induction false} SentSnoc(ps: seq<Packet>, p: Packet, capacity: nat)
    requires AllHeld(ps, capacity)
    ensures Sent(ps + [p], capacity) == Sent(ps, capacity) + if Held(p, capacity) then Encode(p) else []
    ensures Counted(ps + [p]) == Counted(ps) + |p.data|
  {
    hide EncodeFrame;
    if ps == [] {
      assert Sent([p], capacity) == (if Held(p, capacity) then Encode(p) + Sent([], capacity) else []);
      assert Counted([p]) == |p.data| + Counted([]);
    } else {
      assert (ps + [p])[1..] == ps[1..] + [p];
      SentSnoc(ps[1..], p, capacity);
    }
  }

  /** Nothing goes out after a frame that its buffer does not hold. */
  lemma {:induction false} SentStops(ps: seq<Packet>, qs: seq<Packet>, capacity: nat)
    requires !AllHeld(ps, capacity)
    ensures Sent(ps + qs, capacity) == Sent(ps, capacity)
  {
    hide EncodeFrame;
    if Held(ps[0], capacity) {
      assert (ps + qs)[1..] == ps[1..] + qs;
      SentStops(ps[1..], qs, capacity);
    }
  }

  /** Frames that can be read back are a wire that carries exactly their data. */
  lemma {:induction false} PacketsCarry(ps: seq<Packet>, capacity: nat)
    requires AllFit(ps, capacity) && AllHeld(ps, capacity)
    ensures var w := Sent(ps, capacity);
            Framed(w, capacity) && Payload(w, capacity) == Flatten(DataOf(ps)) && Counted(ps) == |Flatten(DataOf(ps))|
  {
    hide EncodeFrame, Framed, Payload, Fits;
    if ps == [] {
      EmptyPayload(capacity);
    } else {
      var p := ps[0];
      FramedOne(p.noise, p.data, capacity);
      PacketsCarry(ps[1..], capacity);
      FramedAppend(Encode(p), Sent(ps[1..], capacity), capacity);
      assert DataOf(ps) == [p.data] + DataOf(ps[1..]);
    }
  }

  function DataOf(ps: seq<Packet>): seq<seq<Octet>> {
    if ps == [] then [] else [ps[0].data] + DataOf(ps[1..])
  }

  lemma {:induction false} DataOfPackets(ps: seq<seq<Octet>>, maxNoise: nat, noise: Noise, k: nat)
    ensures DataOf(Packets(ps, maxNoise, noise, k)) == ps
  {
    if ps != [] {
      DataOfPackets(ps[1..], maxNoise, noise, k + 1);
    }
  }

  lemma {:induction false} CountedData(ps: seq<Packet>)
    ensures Counted(ps) == |Flatten(DataOf(ps))|
  {
    if ps != [] {
      CountedData(ps[1..]);
    }
  }

  /** The frames of a text, for given sizes. */
  function PacketsFor(data: seq<Octet>, maxData: nat, maxNoise: nat, noise: Noise): seq<Packet>
    requires maxData > 0
  {
    Packets(Pieces(data, maxData), maxNoise, noise, 0)
  }

  /** Sane sizes leave nothing to the draw: every frame is held and can be read back. */
  lemma SaneFits(data: seq<Octet>, maxData: nat, maxNoise: nat, noise: Noise)
    requires maxData > 0 && Sane(maxData, maxNoise) && Random(noise)
    ensures var ps := PacketsFor(data, maxData, maxNoise, noise); var c := Capacity(maxData, maxNoise);
            AllFit(ps, c) && AllHeld(ps, c)
  {
    var pieces := Pieces(data, maxData);
    var ps, c := PacketsFor(data, maxData, maxNoise, noise), Capacity(maxData, maxNoise);
    PiecesCorrect(data, maxData);
    if pieces != [] { PacketAt(pieces, maxNoise, noise, 0, 0); }
    SaneIff(maxData, maxNoise);
    forall i | 0 <= i < |ps|
      ensures |ps[i].noise| < 0x1_0000 && |ps[i].data| < 0x1_0000
      ensures Fits(|ps[i].noise|, |ps[i].data|, c) && Held(ps[i], c)
    {
      PacketAt(pieces, maxNoise, noise, 0, i);
      hide Packets, Pieces;
    }
    hide Packets, Pieces, Fits, Held;
  }

  /** What is written carries exactly the text. */
  lemma WrittenCarries(data: seq<Octet>, maxData: nat, maxNoise: nat, noise: Noise)
    requires maxData > 0
    requires var ps := PacketsFor(data, maxData, maxNoise, noise); var c := Capacity(maxData, maxNoise);
             AllFit(ps, c) && AllHeld(ps, c)
    ensures var w := Sent(PacketsFor(data, maxData, maxNoise, noise), Capacity(maxData, maxNoise));
            Framed(w, Capacity(maxData, maxNoise)) && Payload(w, Capacity(maxData, maxNoise)) == data
  {
    var pieces := Pieces(data, maxData);
    PiecesCorrect(data, maxData);
    DataOfPackets(pieces, maxNoise, noise, 0);
    hide Packets, Pieces, Sent, Framed, Payload, AllFit, AllHeld;
    PacketsCarry(PacketsFor(data, maxData, maxNoise, noise), Capacity(maxData, maxNoise));
  }

  datatype FrameResult = Panic | Got(lo: nat, hi: nat, err: Error)

  class FlowObf {
    const dataLen: nat
    const noiseMaxLen: nat
    const rbuf: array<Octet>
    var rem: seq<Octet>

    ghost predicate Valid() {
      rbuf.Length == Capacity(dataLen, noiseMaxLen)
    }

    constructor (maxData: nat, maxNoise: nat)
      ensures Valid() && dataLen == maxData && noiseMaxLen == maxNoise && rem == [] && fresh(rbuf)
      ensures rbuf.Length == maxData + maxNoise + 4
    {
      dataLen := maxData;
      noiseMaxLen := maxNoise;
      rbuf := new Octet[maxData + maxNoise + 4](i => 0);
      rem := [];
    }

    /** mkNoise: the noise length into buf[0..2], the noise from buf[4] on. */
    method MkNoise(buf: array<Octet>, dn: nat, noise: Noise, k: nat) returns (panicked: bool, n: nat)
      requires Random(noise) && dn > 0 && buf.Length >= 4
      modifies buf
      ensures n == |noise(k, NoiseBound(dn, noiseMaxLen))| < NoiseBound(dn, noiseMaxLen)
      ensures n == |noise(k, if dn > noiseMaxLen then 5 else noiseMaxLen)|
      ensures panicked <==> 4 + n > buf.Length
      ensures !panicked ==> buf[..2] == Put16(n) && buf[4..4 + n] == noise(k, NoiseBound(dn, noiseMaxLen))
    {
      var bound := if dn > noiseMaxLen then 5 else noiseMaxLen;
      var drawn := noise(k, bound);
      n := |drawn|;
      hide Put16;
      var head := Put16(n);
      buf[0], buf[1] := head[0], head[1];
      if 4 + n > buf.Length {
        return true, n;
      }
      for i := 0 to n
        invariant buf[..2] == head && buf[4..4 + i] == drawn[..i]
      {
        buf[4 + i] := drawn[i];
      }
      panicked := false;
    }

    /** mkFrame: a frame in a pool buffer, whose old contents do not matter. The copy of the
        data stops at the end of the buffer. */
    method MkFrame(bts: seq<Octet>, noise: Noise, k: nat, buf: array<Octet>) returns (panicked: bool, f: Frame)
      requires Random(noise) && |bts| > 0 && buf.Length >= 4
      modifies buf
      ensures var p := Packet(noise(k, NoiseBound(|bts|, noiseMaxLen)), bts);
              (panicked <==> !NoiseHeld(p, buf.Length)) && (!panicked ==> f == Made(p, buf.Length))
    {
      var n;
      panicked, n := MkNoise(buf, |bts|, noise, k);
      f := Frame([], 0, 0);
      if panicked {
        return;
      }
      ghost var drawn := noise(k, NoiseBound(|bts|, noiseMaxLen));
      hide Put16, NoiseBound;
      var len := Put16(|bts|);
      buf[2], buf[3] := len[0], len[1];
      ghost var head := buf[..4 + n];
      assert head == Put16(n) + len + drawn by {
        assert head == buf[..2] + buf[2..4] + buf[4..4 + n];
      }
      var copied := Copy(buf, 4 + n, buf.Length, bts);
      assert buf[..4 + n] == head;
      var l := 4 + n + copied;
      assert buf[..l] == buf[..4 + n] + buf[4 + n..l];
      CutFrame(drawn, bts, buf.Length, copied);
      f := Frame(buf[..l], 4 + n + |bts|, |bts|);
    }

    /** split: all frames are made before the first one is written. */
    method Split(data: seq<Octet>, noise: Noise) returns (panicked: bool, frames: seq<Frame>)
      requires Random(noise)
      ensures panicked <==>
                dataLen == 0 || !AllNoiseHeld(PacketsFor(data, dataLen, noiseMaxLen, noise), Capacity(dataLen, noiseMaxLen))
      ensures !panicked ==>
                frames == AllMade(PacketsFor(data, dataLen, noiseMaxLen, noise), Capacity(dataLen, noiseMaxLen))
    {
      hide Made, Packets, NoiseHeld;
      frames := [];
      if dataLen == 0 {
        return true, frames;                 // the capacity len(bts) / DataLen + 1
      }
      var bts := data;
      var capacity := dataLen + noiseMaxLen + 4;
      ghost var all := Pieces(data, dataLen);
      ghost var done: seq<seq<Octet>> := [];
      NoPackets(noiseMaxLen, noise, capacity);
      while |bts| > dataLen
        invariant var ps := Packets(done, noiseMaxLen, noise, 0); frames == AllMade(ps, capacity) && AllNoiseHeld(ps, capacity)
        invariant |frames| == |done| && done + Pieces(bts, dataLen) == all
        decreases |bts|
      {
        PiecesStep(done, bts, dataLen);
        var f;
        panicked, f := Append(bts[..dataLen], noise, done, frames);
        done := done + [bts[..dataLen]];
        if panicked {
          PrefixNotHeld(done, Pieces(bts[dataLen..], dataLen), noiseMaxLen, noise, capacity);
          return;
        }
        frames := f;
        bts := bts[dataLen..];
      }
      panicked := false;
      if |bts| > 0 {
        assert done + [bts] == all;
        panicked, frames := Append(bts, noise, done, frames);
      } else {
        assert done == all;
      }
    }

    /** One more frame for the list. */
    method Append(bts: seq<Octet>, noise: Noise, ghost done: seq<seq<Octet>>, frames: seq<Frame>)
        returns (panicked: bool, r: seq<Frame>)
      requires Random(noise) && |bts| > 0 && |frames| == |done|
      requires var ps := Packets(done, noiseMaxLen, noise, 0); var c := Capacity(dataLen, noiseMaxLen);
               frames == AllMade(ps, c) && AllNoiseHeld(ps, c)
      ensures var ps := Packets(done + [bts], noiseMaxLen, noise, 0); var c := Capacity(dataLen, noiseMaxLen);
              && (panicked <==> !AllNoiseHeld(ps, c))
              && (!panicked ==> r == AllMade(ps, c) && |r| == |done| + 1)
    {
      hide Made, Packets, NoiseHeld;
      var pool := new Octet[dataLen + noiseMaxLen + 4](i => 0);
      var f;
      panicked, f := MkFrame(bts, noise, |frames|, pool);
      PacketsAppend(done, bts, noiseMaxLen, noise, 0);
      r := frames + [f];
    }

    /** Write: frames go out whole, one after the other, until one is longer than its buffer; the
        result counts the data bytes. With sane sizes that never happens. */
    method Write(data: seq<Octet>, noise: Noise, out: Conn) returns (panicked: bool, n: nat)
      requires Random(noise)
      modifies out
      ensures dataLen == 0 ==> panicked && out.wire == old(out.wire)
      ensures dataLen > 0 ==>
                var ps := PacketsFor(data, dataLen, noiseMaxLen, noise); var c := Capacity(dataLen, noiseMaxLen);
                && (panicked <==> !AllHeld(ps, c))
                && out.wire == old(out.wire) + (if AllNoiseHeld(ps, c) then Sent(ps, c) else [])
                && (!panicked ==> n == |data|)
      ensures dataLen > 0 && Sane(dataLen, noiseMaxLen) ==>
                !panicked && exists w :: WireOf(w, data) && out.wire == old(out.wire) + w
    {
      hide Packets, Made, Framed, Payload, Sane, Sent, Counted, AllFit;
      var frames;
      panicked, frames := Split(data, noise);
      n := 0;
      if dataLen > 0 && Sane(dataLen, noiseMaxLen) {
        SaneFits(data, dataLen, noiseMaxLen, noise);
        WrittenCarries(data, dataLen, noiseMaxLen, noise);
      }
      if panicked {
        return;
      }
      ghost var ps := PacketsFor(data, dataLen, noiseMaxLen, noise);
      AllCounted(data, dataLen, noiseMaxLen, noise);
      panicked, n := WriteFrames(frames, ps, out);
    }

    /** The loop of Write. */
    method WriteFrames(frames: seq<Frame>, ghost ps: seq<Packet>, out: Conn) returns (panicked: bool, n: nat)
      requires frames == AllMade(ps, Capacity(dataLen, noiseMaxLen))
      modifies out
      ensures panicked <==> !AllHeld(ps, Capacity(dataLen, noiseMaxLen))
      ensures out.wire == old(out.wire) + Sent(ps, Capacity(dataLen, noiseMaxLen))
      ensures !panicked ==> n == Counted(ps)
    {
      hide Made, Sent, Counted, Held;
      var capacity := dataLen + noiseMaxLen + 4;
      NothingSent(capacity);
      n := 0;
      for k := 0 to |frames|
        invariant AllHeld(ps[..k], capacity) && out.wire == old(out.wire) + Sent(ps[..k], capacity) && n == Counted(ps[..k])
      {
        assert ps[..k + 1] == ps[..k] + [ps[k]];
        SentSnoc(ps[..k], ps[k], capacity);
        MadeHeld(ps[k], capacity);
        if frames[k].l > capacity {
          assert ps == ps[..k + 1] + ps[k + 1..] && ps[k] in ps[..k + 1];
          SentStops(ps[..k + 1], ps[k + 1..], capacity);
          return true, n;
        }
        out.wire := out.wire + frames[k].d;
        n := n + frames[k].rl;
      }
      assert ps[..|frames|] == ps;
      panicked := false;
    }

    /** io.ReadFull into rbuf[lo..hi]. */
    method ReadFull(inp: Conn, lo: nat, hi: nat) returns (n: nat, err: Error)
      requires lo <= hi <= rbuf.Length
      modifies rbuf, inp
      ensures n == if hi - lo <= |old(inp.wire)| then hi - lo else |old(inp.wire)|
      ensures err == if n == hi - lo then Nil else Ended(old(inp.wire))
      ensures rbuf[lo..lo + n] == old(inp.wire[..n]) && inp.wire == old(inp.wire[n..])
      ensures forall i :: 0 <= i < rbuf.Length && !(lo <= i < lo + n) ==> rbuf[i] == old(rbuf[i])
    {
      n := if hi - lo <= |inp.wire| then hi - lo else |inp.wire|;
      for i := lo to lo + n
        invariant inp.wire == old(inp.wire) && rbuf[lo..i] == inp.wire[..i - lo]
        invariant forall j :: 0 <= j < rbuf.Length && !(lo <= j < i) ==> rbuf[j] == old(rbuf[j])
      {
        rbuf[i] := inp.wire[i - lo];
      }
      inp.wire := inp.wire[n..];
      err := if n == hi - lo then Nil else if n == 0 then EOF else UnexpectedEOF;
    }

    /** readFrame, with the slice bounds computed in 16 bits as the code does. A slice whose
        bounds are out of order or out of range panics. When the connection ends inside a
        section, the part of that section is returned beside the error, even of the noise. */
    method ReadFrame(inp: Conn) returns (r: FrameResult)
      requires rbuf.Length >= 4
      modifies rbuf, inp
      ensures var f := Fetch(old(inp.wire), rbuf.Length);
              && (r.Panic? <==> f.Panicked?)
              && (r.Got? ==> r.err == f.err && inp.wire == f.rest && r.lo <= r.hi <= rbuf.Length && rbuf[r.lo..r.hi] == f.bytes)
    {
      ghost var w := inp.wire;
      FetchSections(w, rbuf.Length);
      hide Get16, Put16, Fetch, FitsNoise, FitsData;
      var n, err := ReadFull(inp, 0, 4);
      if err != Nil {
        return Got(0, 0, err);
      }
      Headers(w, rbuf[..4]);
      assert rbuf[0..2] == rbuf[..4][0..2] && rbuf[2..4] == rbuf[..4][2..4];
      r := ReadSections(inp, Get16(rbuf[0..2]), Get16(rbuf[2..4]), w);
    }

    /** The noise, then the data. */
    method ReadSections(inp: Conn, noiseLen: nat, dataLen: nat, ghost w: seq<Octet>) returns (r: FrameResult)
      requires rbuf.Length >= 4 && |w| >= 4 && inp.wire == w[4..]
      requires noiseLen == Get16(w) && dataLen == Get16(w[2..])
      modifies rbuf, inp
      ensures var f := Fetch(w, rbuf.Length);
              && (r.Panic? <==> f.Panicked?)
              && (r.Got? ==> r.err == f.err && inp.wire == f.rest && r.lo <= r.hi <= rbuf.Length && rbuf[r.lo..r.hi] == f.bytes)
    {
      FetchSections(w, rbuf.Length);
      FitsByOffsets(noiseLen, dataLen, rbuf.Length);
      hide Get16, Fetch, FitsNoise, FitsData;
      var offNoise := (4 + noiseLen) % 0x1_0000;
      var offData := (4 + noiseLen + dataLen) % 0x1_0000;
      var n, err;
      if noiseLen > 0 {
        if !(4 <= offNoise <= rbuf.Length) {
          return Panic;
        }
        n, err := ReadFull(inp, 4, offNoise);
        if err != Nil {
          return Got(4, 4 + n, err);
        }
      }
      ghost var rest := w[4 + noiseLen..];
      assert inp.wire == rest;
      assert |rest| >= dataLen ==> rest[..dataLen] == w[4 + noiseLen..4 + noiseLen + dataLen] &&
                                   rest[dataLen..] == w[4 + noiseLen + dataLen..];
      r := ReadData(inp, offNoise, offData, dataLen);
    }

    method ReadData(inp: Conn, offNoise: nat, offData: nat, dataLen: nat) returns (r: FrameResult)
      requires 0 < dataLen && offNoise <= offData <= rbuf.Length ==> offData == offNoise + dataLen
      modifies rbuf, inp
      ensures var rest := old(inp.wire); var n := if dataLen <= |rest| then dataLen else |rest|;
              && (r.Panic? <==> dataLen > 0 && !(offNoise <= offData <= rbuf.Length))
              && (r.Got? ==>
                    && r.err == (if n == dataLen then Nil else Ended(rest)) && inp.wire == rest[n..]
                    && r.lo <= r.hi <= rbuf.Length && rbuf[r.lo..r.hi] == rest[..n])
    {
      if dataLen > 0 {
        if !(offNoise <= offData <= rbuf.Length) {
          return Panic;
        }
        var n, err := ReadFull(inp, offNoise, offData);
        return Got(offNoise, offNoise + n, err);
      }
      return Got(0, 0, Nil);
    }

    /** Read is the function ReadOutcome, whatever is on the connection. */
    method Read(data: array<Octet>, len: nat, inp: Conn) returns (panicked: bool, n: nat, err: Error)
      requires Valid() && len <= data.Length && data != rbuf
      modifies this, rbuf, inp, data
      ensures var o := ReadOutcome(old(rem), old(inp.wire), len, Capacity(dataLen, noiseMaxLen));
              && (panicked <==> o.Crash?)
              && (!panicked ==> n == |o.out| && data[..n] == o.out && err == o.err && rem == o.rem && inp.wire == o.wire)
      ensures forall i :: (if panicked then len else n) <= i < data.Length ==> data[i] == old(data[i])
    {
      panicked, err := false, Nil;
      n := Serve(data, 0, len);
      ghost var first := data[..n];
      assert first == data[0..n] == Take(old(rem), len);
      if n == len {
        return;
      }
      assert rem == [];
      var n2;
      panicked, n2, err := ReadOn(data, n, len, inp);
      if !panicked {
        assert data[..n + n2] == first + data[n..n + n2];
        hide Take, Drop, Fetch;
        n := n + n2;
      }
    }

    /** The part of Read that fetches a frame when the remainder is used up. */
    method ReadOn(data: array<Octet>, at: nat, len: nat, inp: Conn) returns (panicked: bool, n: nat, err: Error)
      requires Valid() && at <= len <= data.Length && data != rbuf && rem == []
      modifies this, rbuf, inp, data
      ensures var f := Fetch(old(inp.wire), Capacity(dataLen, noiseMaxLen));
              && (panicked <==> f.Panicked?)
              && (!panicked ==>
                    && n == |Take(f.bytes, len - at)| && data[at..at + n] == Take(f.bytes, len - at)
                    && rem == Drop(f.bytes, len - at) && inp.wire == f.rest && err == f.err)
      ensures panicked ==> n == 0
      ensures forall i :: 0 <= i < data.Length && !(at <= i < at + n) ==> data[i] == old(data[i])
    {
      hide Fetch, Take, Drop;
      panicked, n, err := false, 0, Nil;
      var r := ReadFrame(inp);
      if r.Panic? {
        panicked := true;
        return;
      }
      err := r.err;
      rem := rem + rbuf[r.lo..r.hi];
      assert rem == rbuf[r.lo..r.hi];
      n := Serve(data, at, len);
    }

    /** Moves what fits of the remainder into data[at..len]. */
    method Serve(data: array<Octet>, at: nat, len: nat) returns (n: nat)
      requires at <= len <= data.Length && data != rbuf
      modifies `rem, data
      ensures n == |Take(old(rem), len - at)| && data[at..at + n] == Take(old(rem), len - at)
      ensures rem == Drop(old(rem), len - at)
      ensures forall i :: 0 <= i < data.Length && !(at <= i < at + n) ==> data[i] == old(data[i])
    {
      n := Copy(data, at, len, rem);
      if n == |rem| {
        rem := [];
      } else {
        rem := rem[n..];
      }
    }

    ghost predicate WireOf(w: seq<Octet>, data: seq<Octet>) {
      Framed(w, Capacity(dataLen, noiseMaxLen)) && Payload(w, Capacity(dataLen, noiseMaxLen)) == data
    }
  }

  function AllMade(ps: seq<Packet>, capacity: nat): seq<Frame> {
    seq(|ps|, i requires 0 <= i < |ps| => Made(ps[i], capacity))
  }

  lemma NoPackets(maxNoise: nat, noise: Noise, capacity: nat)
    ensures Packets([], maxNoise, noise, 0) == [] && AllMade([], capacity) == []
  {
  }

  lemma NothingSent(capacity: nat)
    ensures Sent([], capacity) == [] && Counted([]) == 0
  {
  }

  lemma PrefixNotHeld(a: seq<seq<Octet>>, b: seq<seq<Octet>>, maxNoise: nat, noise: Noise, capacity: nat)
    requires !AllNoiseHeld(Packets(a, maxNoise, noise, 0), capacity)
    ensures !AllNoiseHeld(Packets(a + b, maxNoise, noise, 0), capacity)
  {
    var ps, qs := Packets(a, maxNoise, noise, 0), Packets(a + b, maxNoise, noise, 0);
    if a != [] { PacketAt(a, maxNoise, noise, 0, 0); }
    hide Packets, NoiseHeld;
    NoPackets(maxNoise, noise, capacity);
    var i :| 0 <= i < |ps| && !NoiseHeld(ps[i], capacity);
    PacketAt(a, maxNoise, noise, 0, i);
    PacketAt(a + b, maxNoise, noise, 0, i);
    assert qs[i] == ps[i];
  }

  lemma MadeHeld(p: Packet, capacity: nat)
    ensures Made(p, capacity).l > capacity <==> !Held(p, capacity)
    ensures Made(p, capacity).rl == |p.data| && (Held(p, capacity) ==> Made(p, capacity).d == Encode(p))
  {
  }

  lemma AllCounted(data: seq<Octet>, maxData: nat, maxNoise: nat, noise: Noise)
    requires maxData > 0
    ensures Counted(PacketsFor(data, maxData, maxNoise, noise)) == |data|
  {
    var pieces := Pieces(data, maxData);
    PiecesCorrect(data, maxData);
    DataOfPackets(pieces, maxNoise, noise, 0);
    hide Pieces, Packets;
    CountedData(PacketsFor(data, maxData, maxNoise, noise));
  }

  /** A buffer that ends inside the data holds that much of the frame. */
  lemma CutFrame(noise: seq<Octet>, data: seq<Octet>, capacity: nat, copied: nat)
    requires 4 + |noise| <= capacity
    requires copied == if |data| < capacity - 4 - |noise| then |data| else capacity - 4 - |noise|
    ensures Take(EncodeFrame(noise, data), capacity) == Put16(|noise|) + Put16(|data|) + noise + data[..copied]
  {
    hide Put16;
    var head := Put16(|noise|) + Put16(|data|) + noise;
    assert data == data[..copied] + data[copied..];
    assert EncodeFrame(noise, data) == (head + data[..copied]) + data[copied..];
    assert |head + data[..copied]| == 4 + |noise| + copied;
  }

  lemma Headers(w: seq<Octet>, b: seq<Octet>)
    requires |w| >= 4 && b == w[..4]
    ensures Get16(b[0..2]) == Get16(w) && Get16(b[2..4]) == Get16(w[2..])
  {
  }

  /** copy(data[at..len], src). */
  method Copy(data: array<Octet>, at: nat, len: nat, src: seq<Octet>) returns (n: nat)
    requires at <= len <= data.Length
    modifies data
    ensures n == if |src| < len - at then |src| else len - at
    ensures data[at..at + n] == src[..n]
    ensures forall i :: 0 <= i < data.Length && !(at <= i < at + n) ==> data[i] == old(data[i])
  {
    n := if |src| < len - at then |src| else len - at;
    for i := 0 to n
      invariant data[at..at + i] == src[..i]
      invariant forall j :: 0 <= j < data.Length && !(at <= j < at + i) ==> data[j] == old(data[j])
    {
      data[at + i] := src[i];
    }
  }
}
