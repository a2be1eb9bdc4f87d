/** In what order the requests of one stream leave. */
module SendOrder {
  import opened Sids
  import opened SendLoop
  import opened SendInvariant

  predicate IsPrefix<T(==)>(a: seq<T>, b: seq<T>) {
    |a| <= |b| && a == b[..|a|]
  }

  /** Every stream's requests left in the order of their submission. */
  ghost predicate InOrder(s: State) {
    forall k: Key :: IsPrefix(Lane(Sent(s), k), Lane(s.submitted, k))
  }

  /** The step sends a request while an earlier one of the same stream is still in hand. */
  ghost predicate Overtakes(s: State, a: Action, size: nat)
    requires Enabled(s, a, size)
  {
    Sends(a) && !IsPrefix([SentBy(s, a, size)], Lane(s.held, KeyOf(SentBy(s, a, size))))
  }

  ghost predicate NeverOvertakes(s: State, actions: seq<Action>, size: nat)
    decreases |actions|
  {
    actions == [] ||
    (Enabled(s, actions[0], size) && !Overtakes(s, actions[0], size) &&
     NeverOvertakes(Next(s, actions[0], size), actions[1..], size))
  }

  /** What left a queue was sent, or is in hand behind all that was sent. */
  ghost predicate Aligned(s: State) {
    forall k: Key :: Lane(s.popped, k) == Lane(Sent(s), k) + Lane(s.held, k)
  }

  lemma {:induction false} LaneWithout(rs: seq<Request>, r: Request, k: Key)
    ensures Lane(Without(rs, r), k) == if KeyOf(r) == k then Without(Lane(rs, k), r) else Lane(rs, k)
  {
    hide KeyOf;
    if rs == [] {
      NoLane(k);
    } else {
      var x, tail := rs[0], rs[1..];
      assert rs == [x] + tail;
      LaneAppend([x], tail, k);
      LaneOne(x, k);
      hide Lane;
      var rest := Lane(tail, k);
      assert ([x] + rest)[1..] == rest && [] + rest == rest;
      if x != r {
        LaneAppend([x], Without(tail, r), k);
        LaneWithout(tail, r, k);
        assert [] + Lane(Without(tail, r), k) == Lane(Without(tail, r), k);
      }
    }
  }

  lemma AlignedStep(s: State, a: Action, size: nat)
    requires Aligned(s) && Enabled(s, a, size) && !Overtakes(s, a, size)
    ensures Aligned(Next(s, a, size))
  {
    hide Enabled, Next, Sent, SentBy, TakenBy, Lane, Without, KeyOf;
    var t := Next(s, a, size);
    forall k: Key ensures Lane(t.popped, k) == Lane(Sent(t), k) + Lane(t.held, k) {
      assert Lane(s.popped, k) == Lane(Sent(s), k) + Lane(s.held, k);
      if Sends(a) {
        SendEffect(s, a, size);
        var r := SentBy(s, a, size);
        LanePush(Sent(s), r, k);
        LaneWithout(s.held, r, k);
        if KeyOf(r) == k {
          HeadFirst(Lane(s.held, k), r);
        }
      } else {
        OtherEffect(s, a, size);
        OtherSent(s, a, size);
        LaneAppend(s.popped, TakenBy(s, a, size), k);
        LaneAppend(s.held, TakenBy(s, a, size), k);
      }
    }
  }

  lemma HeadFirst(held: seq<Request>, r: Request)
    requires IsPrefix([r], held)
    ensures held == [r] + Without(held, r)
  {
    assert held[0] == held[..1][0];
    assert held == [held[0]] + held[1..];
  }

  /** The step that overtakes breaks the order. */
  lemma OvertakingBreaks(s: State, a: Action, size: nat)
    requires Inv(s) && Aligned(s) && Enabled(s, a, size) && Overtakes(s, a, size)
    ensures !InOrder(Next(s, a, size))
  {
    hide Enabled, Next, SentBy, Lane, Without, KeyOf, Placed, FinLast, Retired, DirectAlone, Distinct, InHand, Sent;
    var t, r := Next(s, a, size), SentBy(s, a, size);
    var k := KeyOf(r);
    SendEffect(s, a, size);
    SendFreesHand(s, a, size);
    LanePush(Sent(s), r, k);
    LaneMembers(s.held, k);
    assert r in multiset(s.held);
    var held := Lane(s.held, k);
    assert r in held;
    assert Lane(s.popped, k) + Queue(s, k) + Lane(Incoming(s), k) == Lane(s.submitted, k);
    assert Lane(s.popped, k) == Lane(Sent(s), k) + held;
    var n := |Lane(Sent(s), k)|;
    assert held[0] != r by {
      assert held[..1] == [held[0]];
    }
    assert Lane(s.submitted, k)[n] == held[0] && Lane(Sent(t), k)[n] == r;
    assert !IsPrefix(Lane(Sent(t), k), Lane(s.submitted, k));
  }

  /** Once broken the order stays broken. */
  lemma BrokenStays(s: State, a: Action, size: nat)
    requires Inv(s) && Enabled(s, a, size) && !InOrder(s)
    ensures !InOrder(Next(s, a, size))
  {
    var t := Next(s, a, size);
    var k: Key :| !IsPrefix(Lane(Sent(s), k), Lane(s.submitted, k));
    SentBounded(s, k);
    Grows(s, a, size, k);
    hide *;
    if InOrder(t) {
      OrderAt(t, k);
      PrefixOfBoth(Lane(Sent(s), k), Lane(Sent(t), k), Lane(s.submitted, k), Lane(t.submitted, k));
    }
  }

  lemma OrderAt(s: State, k: Key)
    requires InOrder(s)
    ensures IsPrefix(Lane(Sent(s), k), Lane(s.submitted, k))
  {
  }

  lemma PrefixOfBoth<T>(a: seq<T>, b: seq<T>, c: seq<T>, d: seq<T>)
    requires IsPrefix(a, b) && IsPrefix(c, d) && |a| <= |c| && IsPrefix(b, d)
    ensures IsPrefix(a, c)
  {
    assert d[..|b|][..|a|] == d[..|a|] == d[..|c|][..|a|];
  }

  lemma SentBounded(s: State, k: Key)
    requires Inv(s)
    ensures |Lane(Sent(s), k)| <= |Lane(s.submitted, k)|
  {
    hide Placed, FinLast, Retired, DirectAlone, Distinct, Lane, Sent, Incoming, Queue, InHand;
    LaneAppend(Sent(s), s.held, k);
    LaneBag(s.popped, Sent(s) + s.held, k);
    assert Lane(s.popped, k) + Queue(s, k) + Lane(Incoming(s), k) == Lane(s.submitted, k);
  }

  lemma Grows(s: State, a: Action, size: nat, k: Key)
    requires Enabled(s, a, size)
    ensures IsPrefix(Lane(Sent(s), k), Lane(Sent(Next(s, a, size)), k))
    ensures IsPrefix(Lane(s.submitted, k), Lane(Next(s, a, size).submitted, k))
  {
    SubmittedGrows(s, a, size, k);
    hide Enabled, Next, Lane, Sent, SentBy;
    if Sends(a) {
      SendEffect(s, a, size);
      LanePush(Sent(s), SentBy(s, a, size), k);
    } else {
      OtherSent(s, a, size);
    }
  }

  lemma SubmittedGrows(s: State, a: Action, size: nat, k: Key)
    requires Enabled(s, a, size)
    ensures IsPrefix(Lane(s.submitted, k), Lane(Next(s, a, size).submitted, k))
  {
    hide Lane, Without, Queue, Sorted;
    if a.Submit? {
      LanePush(s.submitted, a.request, k);
    }
  }

  lemma AlignedOrdered(s: State)
    requires Inv(s) && Aligned(s)
    ensures InOrder(s)
  {
    hide Placed, FinLast, Retired, DirectAlone, Distinct, Lane, Accounted, Sent;
    forall k: Key ensures IsPrefix(Lane(Sent(s), k), Lane(s.submitted, k)) {
      assert Lane(s.popped, k) + Queue(s, k) + Lane(Incoming(s), k) == Lane(s.submitted, k);
      assert Lane(s.popped, k) == Lane(Sent(s), k) + Lane(s.held, k);
    }
  }

  lemma {:induction false} BrokenRun(s: State, actions: seq<Action>, t: State, size: nat)
    requires Inv(s) && Run(s, actions, t, size) && !InOrder(s)
    ensures !InOrder(t)
    decreases |actions|
  {
    hide Inv, Enabled, Next, InOrder;
    if actions != [] {
      InvStep(s, actions[0], size);
      BrokenStays(s, actions[0], size);
      BrokenRun(Next(s, actions[0], size), actions[1..], t, size);
    }
  }

  lemma {:induction false} OrderRun(s: State, actions: seq<Action>, t: State, size: nat)
    requires Inv(s) && Aligned(s) && Run(s, actions, t, size)
    ensures InOrder(t) <==> NeverOvertakes(s, actions, size)
    decreases |actions|
  {
    hide Inv, Enabled, Next, InOrder, Overtakes, Aligned;
    if actions == [] {
      AlignedOrdered(s);
    } else {
      InvStep(s, actions[0], size);
      if Overtakes(s, actions[0], size) {
        OvertakingBreaks(s, actions[0], size);
        BrokenRun(Next(s, actions[0], size), actions[1..], t, size);
      } else {
        AlignedStep(s, actions[0], size);
        OrderRun(Next(s, actions[0], size), actions[1..], t, size);
      }
    }
  }

  lemma InitAligned()
    ensures Aligned(INIT)
  {
  }

  /** Every stream's requests leave in order if and only if no goroutine ever sends one while
      the other still holds an earlier one of that stream. */
  lemma OrderIff(actions: seq<Action>, t: State, size: nat)
    requires Run(INIT, actions, t, size)
    ensures InOrder(t) <==> NeverOvertakes(INIT, actions, size)
  {
    InitInv();
    InitAligned();
    hide *;
    OrderRun(INIT, actions, t, size);
  }
}
