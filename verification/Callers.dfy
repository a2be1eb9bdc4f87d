/** OpenStream, Write and Close of lib/smux as users of sendLoop: the first two wait for the result
    of a request before the next one, and only Close may come while a request is under way. */
module Callers {
  import opened SmuxFrame
  import opened SendLoop
  import opened SendInvariant
  import opened SendHazards

  /** The last request of the key has been written, so that its caller has its result. */
  ghost predicate Answered(s: State, k: Key) {
    var lane := Lane(s.submitted, k);
    lane != [] ==> lane[|lane| - 1] in s.wire
  }

  /** SYN and PSH are submitted by a call that has the results of the earlier ones. */
  ghost predicate Waits(s: State, a: Action) {
    a.Submit? && Tracked(a.request) && !IsFin(a.request) ==> Answered(s, KeyOf(a.request))
  }

  /** All requests of a stream but the last few are written. */
  predicate AllBut(lane: seq<Request>, wire: seq<Request>, few: nat) {
    forall i :: 0 <= i < |lane| - few ==> lane[i] in wire
  }

  /** One request of a stream is under way at most, two when the last is its FIN. */
  ghost predicate Orderly(s: State) {
    forall sid: Sid ::
      var lane := Lane(s.submitted, Stream(sid)); AllBut(lane, s.wire, if Finished(lane) then 2 else 1)
  }

  lemma OrderlyStep(s: State, a: Action, size: nat)
    requires Orderly(s) && Enabled(s, a, size) && Waits(s, a)
    ensures Orderly(Next(s, a, size))
  {
    var t := Next(s, a, size);
    forall sid: Sid ensures
      var lane := Lane(t.submitted, Stream(sid)); AllBut(lane, t.wire, if Finished(lane) then 2 else 1)
    {
      var lane := Lane(s.submitted, Stream(sid));
      assert AllBut(lane, s.wire, if Finished(lane) then 2 else 1);
      WireGrows(s, a, size);
      if a.Submit? {
        OrderlySubmit(s, a.request, sid);
      }
      hide Lane, Enabled, Next, Finished;
    }
  }

  lemma WireGrows(s: State, a: Action, size: nat)
    requires Enabled(s, a, size)
    ensures forall x :: x in s.wire ==> x in Next(s, a, size).wire
    ensures Next(s, a, size).submitted == if a.Submit? then s.submitted + [a.request] else s.submitted
  {
    hide Lane, Without;
  }

  lemma OrderlySubmit(s: State, r: Request, sid: Sid)
    requires MaySubmit(s, r) && Waits(s, Submit(r))
    requires var lane := Lane(s.submitted, Stream(sid)); AllBut(lane, s.wire, if Finished(lane) then 2 else 1)
    ensures var lane := Lane(s.submitted + [r], Stream(sid)); AllBut(lane, s.wire, if Finished(lane) then 2 else 1)
  {
    var k := Stream(sid);
    LanePush(s.submitted, r, k);
    NotFinished(s, r);
    hide Lane;
  }

  lemma NotFinished(s: State, r: Request)
    requires MaySubmit(s, r)
    ensures !Finished(Lane(s.submitted, KeyOf(r)))
  {
    var lane := Lane(s.submitted, KeyOf(r));
    LaneMembers(s.submitted, KeyOf(r));
    if lane != [] {
      assert lane[|lane| - 1] in lane;
    }
  }

  /** Distinct requests that are all written are not more than those written. */
  lemma CountWritten(some: seq<Request>, wire: seq<Request>)
    requires Distinct(some) && forall x :: x in some ==> x in wire
    ensures |some| <= |wire|
  {
    assert multiset(some) <= multiset(wire) by {
      forall x ensures multiset(some)[x] <= multiset(wire)[x] {
        assert x in multiset(some) <==> x in some;
        assert x in multiset(wire) <==> x in wire;
      }
    }
    assert multiset(wire) == multiset(some) + (multiset(wire) - multiset(some));
    assert |multiset(wire)| == |multiset(some)| + |multiset(wire) - multiset(some)|;
    assert |multiset(some)| == |some| && |multiset(wire)| == |wire|;
  }

  lemma DistinctPart(rs: seq<Request>, k: Key, n: nat)
    requires Distinct(rs) && n <= |Lane(rs, k)|
    ensures Distinct(Lane(rs, k)[..n])
  {
    var lane := Lane(rs, k);
    forall x ensures multiset(lane[..n])[x] <= 1 {
      LaneCounts(rs, k, x);
      assert lane == lane[..n] + lane[n..];
    }
  }

  /** So the calls keep within two unwritten requests of each stream. */
  lemma WaitingIsModest(s: State, a: Action, size: nat)
    requires Inv(s) && Orderly(s) && Enabled(s, a, size) && Waits(s, a)
    ensures Modest(s, a, 2)
  {
    if a.Submit? && KeyOf(a.request).Stream? {
      var k := KeyOf(a.request);
      NotFinished(s, a.request);
      assert AllBut(Lane(s.submitted, k), s.wire, 1) by {
        hide Inv, Lane, Finished, Enabled, Waits;
      }
      AllButOneWritten(s, k);
      hide Inv, Lane;
    }
  }

  lemma AllButOneWritten(s: State, k: Key)
    requires Distinct(s.submitted) && AllBut(Lane(s.submitted, k), s.wire, 1)
    ensures |Lane(s.submitted, k)| <= |Lane(s.wire, k)| + 1
  {
    var lane := Lane(s.submitted, k);
    if lane != [] {
      var most := lane[..|lane| - 1];
      DistinctPart(s.submitted, k, |lane| - 1);
      LaneMembers(s.submitted, k);
      LaneMembers(s.wire, k);
      hide Lane, Distinct;
      forall x | x in most ensures x in Lane(s.wire, k) {
        assert x in lane;
      }
      CountWritten(most, Lane(s.wire, k));
    }
  }
}
