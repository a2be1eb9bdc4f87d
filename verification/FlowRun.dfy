/** Runs of writes at one end of a FlowObf connection and reads at the other, and what a reader
    gets of a connection that is cut. */
module FlowRun {
  import opened Octets
  import opened FlowWire

  datatype Link = Link(rem: seq<Octet>, wire: seq<Octet>, written: seq<Octet>, read: seq<Octet>)

  /** What a write, a read of up to len bytes, may do: the contracts of Write and Read. */
  datatype Event = Wrote(data: seq<Octet>, w: seq<Octet>) | DidRead(len: nat)

  ghost predicate Enabled(l: Link, e: Event, capacity: nat) {
    match e
    case Wrote(data, w) => Framed(w, capacity) && Payload(w, capacity) == data
    case DidRead(len) => !ReadOutcome(l.rem, l.wire, len, capacity).Crash?
  }

  ghost function Step(l: Link, e: Event, capacity: nat): Link
    requires Enabled(l, e, capacity)
  {
    match e
    case Wrote(data, w) => l.(wire := l.wire + w, written := l.written + data)
    case DidRead(len) =>
      var o := ReadOutcome(l.rem, l.wire, len, capacity);
      l.(rem := o.rem, wire := o.wire, read := l.read + o.out)
  }

  ghost predicate Run(l: Link, es: seq<Event>, m: Link, capacity: nat)
    decreases |es|
  {
    if es == [] then l == m
    else Enabled(l, es[0], capacity) && Run(Step(l, es[0], capacity), es[1..], m, capacity)
  }

  ghost predicate Conserved(l: Link, capacity: nat) {
    Framed(l.wire, capacity) && l.read + l.rem + Payload(l.wire, capacity) == l.written
  }

  /** Framing is invisible: for every noise, every write size and every read size, what was
      read, the remainder and the data under way are together what was written, and no read
      panics. */
  lemma {:induction false} RoundTrip(l: Link, es: seq<Event>, m: Link, capacity: nat)
    requires Conserved(l, capacity) && Run(l, es, m, capacity)
    ensures Conserved(m, capacity)
    ensures m.wire == [] && m.rem == [] ==> m.read == m.written
    ensures forall len :: Enabled(m, DidRead(len), capacity)
    decreases |es|
  {
    if es == [] {
      EmptyPayload(capacity);
      forall len ensures Enabled(m, DidRead(len), capacity) {
        FramedReads(m.rem, m.wire, len, capacity);
      }
      hide Framed, Payload, ReadOutcome;
    } else {
      hide Step, Conserved, Enabled;
      StepConserves(l, es[0], capacity);
      RoundTrip(Step(l, es[0], capacity), es[1..], m, capacity);
    }
  }

  lemma StepConserves(l: Link, e: Event, capacity: nat)
    requires Conserved(l, capacity) && Enabled(l, e, capacity)
    ensures Conserved(Step(l, e, capacity), capacity)
  {
    hide ReadOutcome, Parse, Complete, Framed, Payload;
    match e
    case Wrote(data, w) =>
      FramedAppend(l.wire, w, capacity);
      assert l.read + l.rem + (Payload(l.wire, capacity) + data) == l.written + data;
    case DidRead(len) =>
      ReadConserves(l.rem, l.wire, len, capacity);
      var o := ReadOutcome(l.rem, l.wire, len, capacity);
      Regroup(l.read, o.out, o.rem, Payload(o.wire, capacity), l.rem, Payload(l.wire, capacity));
  }

  lemma Regroup(read: seq<Octet>, out: seq<Octet>, rem1: seq<Octet>, wire1: seq<Octet>, rem: seq<Octet>, wire: seq<Octet>)
    requires out + rem1 + wire1 == rem + wire
    ensures (read + out) + rem1 + wire1 == read + rem + wire
  {
    assert (read + out) + rem1 + wire1 == read + (out + rem1 + wire1);
    assert read + rem + wire == read + (rem + wire);
  }

  // A connection that is cut.

  predicate OnlyReads(es: seq<Event>) {
    forall i :: 0 <= i < |es| ==> es[i].DidRead?
  }

  /** The beginning of complete frames that fit. */
  ghost predicate Torn(wire: seq<Octet>, capacity: nat) {
    exists whole :: Framed(whole, capacity) && wire <= whole
  }

  lemma TornFetch(whole: seq<Octet>, wire: seq<Octet>, capacity: nat)
    requires Framed(whole, capacity) && wire <= whole
    ensures Fetch(wire, capacity).Fetched? && Torn(Fetch(wire, capacity).rest, capacity)
  {
    var c := |wire|;
    var f := Fetch(wire, capacity);
    assert wire == whole[..c];
    EmptyPayload(capacity);
    assert Torn([], capacity);
    if whole != [] {
      FramedFront(whole, capacity);
      if c >= Size(whole) {
        CutAfter(whole, c);
        hide Get16, Complete;
        assert f.rest <= Parse(whole).rest;
      } else if c >= 4 {
        SameLengths(whole, c);
        hide Get16;
        assert !Complete(wire);
      }
    }
  }

  lemma TornRead(l: Link, len: nat, capacity: nat)
    requires Torn(l.wire, capacity)
    ensures Enabled(l, DidRead(len), capacity) && Torn(Step(l, DidRead(len), capacity).wire, capacity)
  {
    var whole :| Framed(whole, capacity) && l.wire <= whole;
    TornFetch(whole, l.wire, capacity);
    hide Fetch, Framed;
  }

  /** Reads go on without a panic and deliver all that the cut left. */
  lemma {:induction false} TornRun(l: Link, es: seq<Event>, m: Link, capacity: nat)
    requires Torn(l.wire, capacity) && Run(l, es, m, capacity) && OnlyReads(es)
    ensures Torn(m.wire, capacity)
    ensures m.read + m.rem + Payload(m.wire, capacity) == l.read + l.rem + Payload(l.wire, capacity)
    decreases |es|
  {
    hide Torn, Payload, ReadOutcome, Enabled;
    if es != [] {
      var n := Step(l, es[0], capacity);
      TornRead(l, es[0].len, capacity);
      CanRead(l, es[0].len, capacity);
      ReadConserves(l.rem, l.wire, es[0].len, capacity);
      var o := ReadOutcome(l.rem, l.wire, es[0].len, capacity);
      Regroup(l.read, o.out, o.rem, Payload(o.wire, capacity), l.rem, Payload(l.wire, capacity));
      TornRun(n, es[1..], m, capacity);
    }
  }

  lemma CanRead(l: Link, len: nat, capacity: nat)
    ensures Enabled(l, DidRead(len), capacity) <==> !ReadOutcome(l.rem, l.wire, len, capacity).Crash?
  {
  }

  /** The connection of any run ends after c more bytes. Reading it to the end, in any sizes,
      never panics, and gives what was written before the cut if and only if the cut is not
      inside the noise of a frame. */
  lemma AfterCut(l: Link, c: nat, es: seq<Event>, m: Link, capacity: nat)
    requires Conserved(l, capacity) && c <= |l.wire|
    requires Run(l.(wire := l.wire[..c]), es, m, capacity) && OnlyReads(es)
    ensures forall len :: Enabled(m, DidRead(len), capacity)
    ensures l.read + l.rem + DataBefore(l.wire, c, capacity) <= l.written
    ensures m.wire == [] && m.rem == [] ==>
              (m.read == l.read + l.rem + DataBefore(l.wire, c, capacity) <==> !InNoise(l.wire, c, capacity))
  {
    hide Framed, Payload, DataBefore, InNoise, ReadOutcome, Run;
    var cut := l.(wire := l.wire[..c]);
    assert cut.wire <= l.wire;
    TornRun(cut, es, m, capacity);
    forall len ensures Enabled(m, DidRead(len), capacity) {
      TornRead(m, len, capacity);
    }
    hide Torn, Enabled;
    CutIff(l.wire, c, capacity);
    DataBeforePrefix(l.wire, c, capacity);
    EmptyPayload(capacity);
    SamePrefix(l.read + l.rem, Payload(cut.wire, capacity), DataBefore(l.wire, c, capacity));
  }
}
