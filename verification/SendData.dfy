/** The data of a stream is written in order whatever the queue size: a FIN can overtake, but the
    calls submit no data before the data submitted earlier is written. */
module SendData {
  import opened Octets
  import opened Sids
  import opened SmuxFrame
  import opened SendLoop
  import opened SendInvariant
  import opened Callers

  /** The requests that are not FINs. */
  function Plain(rs: seq<Request>): seq<Request> {
    if rs == [] then [] else
      var front := Plain(rs[..|rs| - 1]);
      if IsFin(rs[|rs| - 1]) then front else front + [rs[|rs| - 1]]
  }

  lemma PlainPush(a: seq<Request>, r: Request)
    ensures Plain(a + [r]) == if IsFin(r) then Plain(a) else Plain(a) + [r]
  {
    assert (a + [r])[..|a|] == a;
  }

  lemma {:induction false} PlainCounts(rs: seq<Request>, x: Request)
    ensures multiset(Plain(rs))[x] == if IsFin(x) then 0 else multiset(rs)[x]
  {
    if rs != [] {
      var n := |rs| - 1;
      PlainCounts(rs[..n], x);
      assert rs == rs[..n] + [rs[n]];
    }
  }

  lemma PlainIn(rs: seq<Request>, x: Request)
    ensures x in Plain(rs) <==> x in rs && !IsFin(x)
  {
    PlainCounts(rs, x);
    assert x in Plain(rs) <==> multiset(Plain(rs))[x] > 0;
    assert x in rs <==> multiset(rs)[x] > 0;
    hide Plain;
  }

  /** What was written of a key, but for FINs, is all that was submitted or all but the last. */
  ghost predicate ToldOf(s: State, k: Key) {
    var l, w := Plain(Lane(s.submitted, k)), Plain(Lane(s.wire, k));
    w <= l && |l| <= |w| + 1
  }

  ghost predicate Told(s: State) {
    forall sid: Sid :: ToldOf(s, Stream(sid))
  }

  lemma OnceSubmitted(s: State, x: Request, k: Key)
    requires Distinct(s.submitted)
    ensures multiset(Plain(Lane(s.submitted, k)))[x] <= 1
  {
    PlainCounts(Lane(s.submitted, k), x);
    LaneCounts(s.submitted, k, x);
    hide Plain, Lane;
  }

  /** A request was written or waits in the channel, not both. */
  lemma SentOnce(s: State, x: Request)
    requires Inv(s)
    ensures multiset(s.wire)[x] + multiset(s.out)[x] <= 1
    ensures x in s.wire || x in s.out ==> x in s.submitted
  {
    var k := KeyOf(x);
    LaneCounts(s.popped, k, x);
    LaneCounts(s.submitted, k, x);
    hide Placed, FinLast, Retired, DirectAlone, Lane, Incoming, Queue;
    assert multiset(Lane(s.popped, k) + Queue(s, k) + Lane(Incoming(s), k)) == multiset(Lane(s.submitted, k));
    assert multiset(s.popped)[x] == multiset(Sent(s))[x] + multiset(s.held)[x];
    assert multiset(Sent(s)) == multiset(s.wire) + multiset(s.out);
    assert x in s.wire || x in s.out ==> multiset(s.submitted)[x] > 0;
  }

  lemma ToldSubmit(s: State, r: Request, k: Key)
    requires Inv(s) && ToldOf(s, k) && MaySubmit(s, r) && Waits(s, Submit(r)) && k.Stream?
    ensures var l, w := Plain(Lane(s.submitted + [r], k)), Plain(Lane(s.wire, k)); w <= l && |l| <= |w| + 1
  {
    hide Inv, Plain, Lane, MaySubmit;
    LanePush(s.submitted, r, k);
    PlainPush(Lane(s.submitted, k), r);
    if KeyOf(r) == k && !IsFin(r) {
      NotFinished(s, r);
      AllTold(s, k);
    }
  }

  lemma Twice(l: seq<Request>, i: nat, j: nat)
    requires i < j < |l| && l[i] == l[j]
    ensures multiset(l)[l[i]] >= 2
  {
    assert l == l[..j] + l[j..];
    assert l[i] in l[..j] && l[j] in l[j..];
  }

  lemma NoneMissing(l: seq<Request>, w: seq<Request>)
    requires w <= l && |l| <= |w| + 1 && forall x :: multiset(l)[x] <= 1
    requires l != [] ==> l[|l| - 1] in w
    ensures l == w
  {
    if |l| == |w| + 1 {
      var i :| 0 <= i < |w| && w[i] == l[|l| - 1];
      Twice(l, i, |l| - 1);
    }
  }

  lemma NextMissing(l: seq<Request>, w: seq<Request>, x: Request)
    requires w <= l && |l| <= |w| + 1 && x in l && x !in w
    ensures l == w + [x]
  {
    assert l == w + l[|w|..];
    assert x in l[|w|..];
  }

  /** When the last request is written, all are. */
  lemma AllTold(s: State, k: Key)
    requires Inv(s) && ToldOf(s, k) && Answered(s, k) && !Finished(Lane(s.submitted, k))
    ensures Plain(Lane(s.submitted, k)) == Plain(Lane(s.wire, k))
  {
    hide Placed, Conserved, Accounted, FinLast, Retired, DirectAlone, Distinct, Plain, Lane;
    var lane := Lane(s.submitted, k);
    var l, w := Plain(lane), Plain(Lane(s.wire, k));
    forall x ensures multiset(l)[x] <= 1 {
      OnceSubmitted(s, x, k);
    }
    if lane == [] {
      PlainNone();
    } else {
      LastPlain(lane);
      LaneMembers(s.submitted, k);
      LaneMembers(s.wire, k);
      PlainIn(Lane(s.wire, k), lane[|lane| - 1]);
      NoneMissing(l, w);
    }
  }

  lemma PlainNone()
    ensures Plain([]) == []
  {
  }

  lemma LastPlain(rs: seq<Request>)
    requires rs != [] && !IsFin(rs[|rs| - 1])
    ensures Plain(rs) != [] && Plain(rs)[|Plain(rs)| - 1] == rs[|rs| - 1]
  {
  }

  lemma ToldWrite(s: State, x: Request, k: Key)
    requires Inv(s) && ToldOf(s, k) && s.out != [] && x == s.out[0]
    ensures var l, w := Plain(Lane(s.submitted, k)), Plain(Lane(s.wire + [x], k)); w <= l && |l| <= |w| + 1
  {
    hide Inv, Plain, Lane;
    LanePush(s.wire, x, k);
    PlainPush(Lane(s.wire, k), x);
    if KeyOf(x) == k && !IsFin(x) {
      FirstOfOut(s, x);
      LaneMembers(s.submitted, k);
      LaneMembers(s.wire, k);
      PlainIn(Lane(s.submitted, k), x);
      PlainIn(Lane(s.wire, k), x);
      NextMissing(Plain(Lane(s.submitted, k)), Plain(Lane(s.wire, k)), x);
    }
  }

  lemma FirstOfOut(s: State, x: Request)
    requires Inv(s) && s.out != [] && x == s.out[0]
    ensures x in s.submitted && x !in s.wire
  {
    SentOnce(s, x);
    hide Inv;
    assert x in s.out && multiset(s.out)[x] > 0;
    assert x in s.wire <==> multiset(s.wire)[x] > 0;
  }

  /** What steps do to the two ends. */
  lemma EndsStep(s: State, a: Action, size: nat)
    requires Enabled(s, a, size)
    ensures Next(s, a, size).submitted == if a.Submit? then s.submitted + [a.request] else s.submitted
    ensures a.Submit? ==> MaySubmit(s, a.request)
    ensures Next(s, a, size).wire == if a.Write? then s.wire + [s.out[0]] else s.wire
    ensures a.Write? ==> s.out != []
  {
    hide Lane, Without, Sorted, MaySubmit;
  }

  lemma ToldStep(s: State, a: Action, size: nat)
    requires Inv(s) && Told(s) && Enabled(s, a, size) && Waits(s, a)
    ensures Told(Next(s, a, size))
  {
    hide Inv, Plain, Lane, Without, Waits, Enabled, Next;
    var t := Next(s, a, size);
    EndsStep(s, a, size);
    forall sid: Sid ensures ToldOf(t, Stream(sid)) {
      assert ToldOf(s, Stream(sid));
      if a.Submit? {
        ToldSubmit(s, a.request, Stream(sid));
      } else if a.Write? {
        ToldWrite(s, s.out[0], Stream(sid));
      }
    }
  }

  // Data.

  function Payload(rs: seq<Request>): seq<Octet> {
    if rs == [] then [] else Payload(rs[..|rs| - 1]) + rs[|rs| - 1].frame.data
  }

  lemma {:induction false} PayloadAppend(a: seq<Request>, b: seq<Request>)
    ensures Payload(a + b) == Payload(a) + Payload(b)
  {
    if b == [] {
      assert a + b == a;
    } else {
      var front := b[..|b| - 1];
      assert (a + b)[..|a + b| - 1] == a + front;
      PayloadAppend(a, front);
    }
  }

  lemma PayloadPush(a: seq<Request>, r: Request)
    ensures Payload(a + [r]) == Payload(a) + r.frame.data
  {
    assert (a + [r])[..|a|] == a;
  }

  /** FINs are bare. */
  predicate FinsBare(rs: seq<Request>) {
    forall x :: x in rs && IsFin(x) ==> x.frame.data == []
  }

  lemma {:induction false} PlainPayload(rs: seq<Request>)
    requires FinsBare(rs)
    ensures Payload(Plain(rs)) == Payload(rs)
  {
    if rs != [] {
      var n := |rs| - 1;
      PlainPayload(rs[..n]);
      PayloadPush(Plain(rs[..n]), rs[n]);
    }
  }

  /** The requests of a key that were submitted and not written yet. */
  function Unwritten(s: State, k: Key): seq<Request> {
    Lane(s.out, k) + (Lane(s.held, k) + (Queue(s, k) + Lane(Incoming(s), k)))
  }

  lemma UnwrittenBag(s: State, k: Key)
    requires Inv(s)
    ensures multiset(Lane(s.submitted, k)) == multiset(Lane(s.wire, k)) + multiset(Unwritten(s, k))
  {
    hide Placed, FinLast, Retired, DirectAlone, Distinct, InHand, Lane, Incoming, Queue;
    assert Lane(s.popped, k) + Queue(s, k) + Lane(Incoming(s), k) == Lane(s.submitted, k);
    assert multiset(s.popped) == multiset(Sent(s) + s.held);
    LaneBag(s.popped, Sent(s) + s.held, k);
    LaneAppend(Sent(s), s.held, k);
    LaneAppend(s.wire, s.out, k);
    hide Inv;
    assert multiset(Lane(s.submitted, k)) == multiset(Lane(s.popped, k)) + multiset(Queue(s, k)) + multiset(Lane(Incoming(s), k));
  }

  /** At most one request but FINs is not written. */
  lemma PlainParts(s: State, k: Key)
    requires Inv(s) && ToldOf(s, k)
    ensures Plain(Lane(s.submitted, k)) == Plain(Lane(s.wire, k)) + Plain(Unwritten(s, k))
  {
    var l, w, u := Plain(Lane(s.submitted, k)), Plain(Lane(s.wire, k)), Plain(Unwritten(s, k));
    UnwrittenBag(s, k);
    forall x ensures multiset(l)[x] == multiset(w)[x] + multiset(u)[x] {
      PlainCounts(Lane(s.submitted, k), x);
      PlainCounts(Lane(s.wire, k), x);
      PlainCounts(Unwritten(s, k), x);
    }
    hide Inv, Plain, Lane, Unwritten;
    Rest(l, w, u);
  }

  lemma Rest(l: seq<Request>, w: seq<Request>, u: seq<Request>)
    requires forall x :: multiset(l)[x] == multiset(w)[x] + multiset(u)[x]
    requires w <= l && |l| <= |w| + 1
    ensures l == w + u
  {
    assert multiset(l) == multiset(w) + multiset(u);
    assert |multiset(l)| == |multiset(w)| + |multiset(u)|;
    assert |multiset(l)| == |l| && |multiset(w)| == |w| && |multiset(u)| == |u|;
    if |u| == 1 {
      assert l == w + [l[|w|]];
      assert multiset(l) == multiset(w) + multiset{l[|w|]};
      assert u == [u[0]] && multiset(u) == multiset{u[0]};
      assert multiset(u)[u[0]] == 1;
      assert multiset{l[|w|]}[u[0]] == 1;
    }
  }

  /** So the data that was submitted is the data that was written and the data that was not. */
  lemma DataParts(s: State, k: Key)
    requires Inv(s) && ToldOf(s, k) && FinsBare(Lane(s.submitted, k))
    ensures Payload(Lane(s.submitted, k)) == Payload(Lane(s.wire, k)) + Payload(Unwritten(s, k))
  {
    UnwrittenBag(s, k);
    PlainParts(s, k);
    hide Inv, Plain, Lane, Unwritten, Payload;
    forall x | x in Lane(s.wire, k) || x in Unwritten(s, k) ensures x in Lane(s.submitted, k) {
      assert x in multiset(Lane(s.wire, k)) + multiset(Unwritten(s, k));
    }
    PlainPayload(Lane(s.submitted, k));
    PlainPayload(Lane(s.wire, k));
    PlainPayload(Unwritten(s, k));
    PayloadAppend(Plain(Lane(s.wire, k)), Plain(Unwritten(s, k)));
  }
}
