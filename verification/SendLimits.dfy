/** How many unwritten requests a stream may have: up to WriteRequestQueueSize, and not one more.
    The runs that go wrong exist for every size. */
module SendLimits {
  import opened Sids
  import opened SmuxFrame
  import opened SendLoop
  import opened SendInvariant
  import opened SendOrder
  import opened SendHazards

  /** A state that is reached while no submission leaves its stream with more than bound
      unwritten requests. */
  ghost predicate Within(s: State, bound: nat, size: nat) {
    exists actions :: Run(INIT, actions, s, size) && AllModest(INIT, actions, bound, size)
  }

  lemma {:induction false} ModestExtend(s: State, actions: seq<Action>, t: State, a: Action, bound: nat, size: nat)
    requires Run(s, actions, t, size) && AllModest(s, actions, bound, size)
    requires Enabled(t, a, size) && Modest(t, a, bound)
    ensures AllModest(s, actions + [a], bound, size)
    decreases |actions|
  {
    hide Enabled, Next, Modest;
    if actions == [] {
      assert (actions + [a])[1..] == [];
      assert AllModest(Next(t, a, size), [], bound, size);
    } else {
      ModestExtend(Next(s, actions[0], size), actions[1..], t, a, bound, size);
      assert (actions + [a])[1..] == actions[1..] + [a];
    }
  }

  lemma GoModest(s: State, a: Action, t: State, bound: nat, size: nat)
    requires Within(s, bound, size) && Enabled(s, a, size) && Modest(s, a, bound) && Next(s, a, size) == t
    ensures Within(t, bound, size)
  {
    hide Enabled, Next, Run, AllModest, Modest;
    var actions :| Run(INIT, actions, s, size) && AllModest(INIT, actions, bound, size);
    RunExtend(INIT, actions, s, a, size);
    ModestExtend(INIT, actions, s, a, bound, size);
  }

  lemma Go(s: State, a: Action, t: State, bound: nat, size: nat)
    requires !a.Submit? && Within(s, bound, size) && Enabled(s, a, size) && Next(s, a, size) == t
    ensures Within(t, bound, size)
  {
    hide Enabled, Next, Within;
    GoModest(s, a, t, bound, size);
  }

  // One stream with more and more requests.

  const SID: Sid := 3

  function Req(i: nat): Request {
    Request(NewFrame(CMD_PSH, SID), i)
  }

  function Batch(n: nat): (rs: seq<Request>)
    ensures |rs| == n
  {
    seq(n, i requires 0 <= i < n => Req(i))
  }

  lemma BatchPush(n: nat)
    ensures Batch(n) + [Req(n)] == Batch(n + 1)
  {
  }

  lemma {:induction false} BatchLane(n: nat)
    ensures Lane(Batch(n), Stream(SID)) == Batch(n)
  {
    hide Lane;
    if n == 0 {
      NoLane(Stream(SID));
      assert Batch(0) == [];
    } else {
      BatchLane(n - 1);
      BatchPush(n - 1);
      LanePush(Batch(n - 1), Req(n - 1), Stream(SID));
    }
  }

  /** n requests are queued and announced, and the scheduler has not moved yet. */
  function Filled(n: nat): State {
    State(if n == 0 then map[] else map[SID := Batch(n)], [], [], Idle, Waiting, n > 0, n, Batch(n), [], [])
  }

  lemma FilledSubmit(n: nat, bound: nat, size: nat) returns (t: State)
    requires n < bound && Within(Filled(n), bound, size)
    ensures Within(t, bound, size)
    ensures t == Filled(n).(disp := Enqueue(Req(n)), submitted := Batch(n + 1), queues := map[SID := Batch(n)])
  {
    BatchLane(n);
    BatchPush(n);
    NoLane(Stream(SID));
    hide Within, Lane, Sorted, Without;
    assert Batch(0) == [];
    var s := Filled(n);
    var s1 := s.(disp := Received(Req(n)), submitted := Batch(n + 1));
    GoModest(s, Submit(Req(n)), s1, bound, size);
    t := s1.(disp := Enqueue(Req(n)), queues := map[SID := Batch(n)]);
    Go(s1, DoLookup, t, bound, size);
  }

  lemma FilledStep(n: nat, bound: nat, size: nat)
    requires n < size && n < bound && Within(Filled(n), bound, size)
    ensures Within(Filled(n + 1), bound, size)
  {
    var s := FilledSubmit(n, bound, size);
    BatchPush(n);
    hide Within, Lane, Sorted, Without, Batch;
    var s1 := s.(disp := Count, queues := map[SID := Batch(n + 1)]);
    Go(s, DoEnqueue, s1, bound, size);
    Go(s1, DoCount, s1.(disp := Signal, count := n + 1), bound, size);
    Go(s1.(disp := Signal, count := n + 1), DoSignal, Filled(n + 1), bound, size);
  }

  lemma {:induction false} FilledWithin(n: nat, bound: nat, size: nat)
    requires n <= size && n <= bound
    ensures Within(Filled(n), bound, size)
  {
    if n == 0 {
      assert Run(INIT, [], INIT, size) && AllModest(INIT, [], bound, size);
      assert Batch(0) == [];
    } else {
      hide Within, Filled;
      FilledWithin(n - 1, bound, size);
      FilledStep(n - 1, bound, size);
    }
  }

  /** The queue is full and the dispatcher has one more. */
  function Full(size: nat): State {
    State(map[SID := Batch(size)], [], [], Take(Req(size)), Waiting, size > 0, size, Batch(size + 1), [], [])
  }

  lemma FullWithin(size: nat)
    ensures Within(Full(size), size + 1, size)
  {
    FilledWithin(size, size + 1, size);
    var s := FilledSubmit(size, size + 1, size);
    hide Within, Lane, Sorted, Without, Batch;
    Go(s, DoEnqueue, Full(size), size + 1, size);
  }

  /** The scheduler comes to the stream's queue. */
  lemma ToPop(s: State, t: State, bound: nat, size: nat)
    requires Within(s, bound, size) && s.sched.Checking? && s.count > 0 && s.queues.Keys == {SID}
    requires t == s.(sched := Popping(SID, []))
    ensures Within(t, bound, size)
  {
    SortedUnique(Sorted({SID}), [SID]);
    hide Within, Lane, Sorted, Without;
    Go(s, Check, s.(sched := Listing), bound, size);
    var s1 := s.(sched := Passing([SID]));
    Go(s.(sched := Listing), List, s1, bound, size);
    Go(s1, Pass, t, bound, size);
  }

  // The scheduler is faster than the dispatcher that exchanges the first request.

  /** The dispatcher has taken the first and put the last, and the scheduler wakes up. */
  function Exchanged(size: nat): State
    requires size >= 1
  {
    State(map[SID := Batch(size + 1)[1..]], [], [], Forward(Req(0)), Checking, false, size,
          Batch(size + 1), [Req(0)], [Req(0)])
  }

  lemma ExchangedWithin(size: nat)
    requires size >= 1
    ensures Within(Exchanged(size), size + 1, size)
  {
    FullWithin(size);
    BatchPush(size);
    assert Batch(size)[1..] + [Req(size)] == Batch(size + 1)[1..];
    hide Within, Lane, Sorted, Without, Batch;
    var s := Full(size);
    var s1 := s.(disp := Put(Req(size), Req(0)), queues := map[SID := Batch(size)[1..]],
                 popped := [Req(0)], held := [Req(0)]);
    Go(s, DoTake, s1, size + 1, size);
    var s2 := s1.(disp := Forward(Req(0)), queues := map[SID := Batch(size + 1)[1..]]);
    Go(s1, DoPut, s2, size + 1, size);
    Go(s2, Wake, Exchanged(size), size + 1, size);
  }

  /** The dispatcher has the first in hand, the scheduler the second. */
  lemma BothWithin(size: nat) returns (t: State)
    requires size >= 1
    ensures Within(t, size + 1, size)
    ensures t.sched == Sending(Req(1), []) && t.held == [Req(0), Req(1)] && t.wire == t.out == []
    ensures t.submitted == Batch(size + 1)
  {
    ExchangedWithin(size);
    var q := Batch(size + 1)[1..];
    assert q[0] == Req(1);
    hide Within, Lane, Sorted, Without, Batch;
    var s := Exchanged(size).(sched := Popping(SID, []));
    ToPop(Exchanged(size), s, size + 1, size);
    t := s.(sched := Sending(Req(1), []), queues := map[SID := q[1..]],
            popped := [Req(0), Req(1)], held := [Req(0), Req(1)]);
    Go(s, Pop, t, size + 1, size);
  }

  /** For every queue size, one request too many and the second leaves before the first. */
  lemma OvertakingReachable(size: nat) returns (t: State)
    requires size >= 1
    ensures Within(t, size + 1, size) && !InOrder(t)
    ensures t.submitted == Batch(size + 1) && Sent(t) == [Req(1)]
  {
    var s := BothWithin(size);
    hide Within, Lane, Sorted, Without, Batch, InOrder;
    t := s.(sched := Uncounting([]), out := [Req(1)], held := Without([Req(0), Req(1)], Req(1)));
    Go(s, Send, t, size + 1, size);
    assert Sent(t) == [Req(1)];
    SecondFirst(t, size);
  }

  lemma SecondFirst(t: State, size: nat)
    requires size >= 1 && t.submitted == Batch(size + 1) && Sent(t) == [Req(1)]
    ensures !InOrder(t)
  {
    BatchLane(size + 1);
    LaneOne(Req(1), Stream(SID));
    hide Lane, Sent;
    assert !IsPrefix(Lane(Sent(t), Stream(SID)), Lane(t.submitted, Stream(SID)));
  }

  // The scheduler empties the queue before the dispatcher takes from it.

  /** The first j requests were sent and written. */
  function Left(j: nat, size: nat): State
    requires j <= size
  {
    State(map[SID := Batch(size)[j..]], [], Batch(j), Take(Req(size)), Checking, false, size - j, Batch(size + 1), Batch(j), [])
  }

  /** The scheduler has the request at position j in hand. */
  lemma Popped(j: nat, size: nat) returns (t: State)
    requires j < size && Within(Left(j, size), size + 1, size)
    ensures Within(t, size + 1, size)
    ensures t == Left(j, size).(sched := Sending(Req(j), []), queues := map[SID := Batch(size)[j + 1..]],
                                popped := Batch(j + 1), held := [Req(j)])
  {
    BatchPush(j);
    assert Batch(size)[j..][1..] == Batch(size)[j + 1..] && Batch(size)[j..][0] == Req(j);
    hide Within, Lane, Sorted, Without, Batch;
    var s := Left(j, size);
    var s1 := s.(sched := Popping(SID, []));
    ToPop(s, s1, size + 1, size);
    t := s.(sched := Sending(Req(j), []), queues := map[SID := Batch(size)[j + 1..]], popped := Batch(j + 1), held := [Req(j)]);
    Go(s1, Pop, t, size + 1, size);
  }

  /** The request in hand is sent and written. */
  lemma Wrote(s: State, j: nat, bound: nat, size: nat) returns (t: State)
    requires Within(s, bound, size) && s.sched == Sending(Req(j), []) && s.out == [] && s.held == [Req(j)]
    ensures Within(t, bound, size)
    ensures t == s.(sched := Uncounting([]), held := [], wire := s.wire + [Req(j)])
  {
    var r := Req(j);
    assert Without([r], r) == [] && [] + [r] == [r];
    hide Within, Lane, Sorted, Without, Req;
    var s1 := s.(sched := Uncounting([]), out := [r], held := []);
    Go(s, Send, s1, bound, size);
    t := WroteOne(s1, r, bound, size);
  }

  lemma WroteOne(s: State, r: Request, bound: nat, size: nat) returns (t: State)
    requires Within(s, bound, size) && s.out == [r]
    ensures Within(t, bound, size) && t == s.(out := [], wire := s.wire + [r])
  {
    hide Within, Lane, Sorted, Without;
    t := s.(out := [], wire := s.wire + [r]);
    Go(s, Write, t, bound, size);
  }

  lemma LeftStep(j: nat, size: nat)
    requires j < size && Within(Left(j, size), size + 1, size)
    ensures Within(Left(j + 1, size), size + 1, size)
  {
    var s := Popped(j, size);
    BatchPush(j);
    hide Within, Lane, Sorted, Without, Batch;
    s := Wrote(s, j, size + 1, size);
    var s1 := s.(sched := Passing([]), count := size - j - 1);
    Go(s, Uncount, s1, size + 1, size);
    Go(s1, Pass, Left(j + 1, size), size + 1, size);
  }

  lemma {:induction false} LeftWithin(j: nat, size: nat)
    requires size >= 1 && j <= size
    ensures Within(Left(j, size), size + 1, size)
  {
    if j == 0 {
      FullWithin(size);
      assert Batch(0) == [] && Batch(size)[0..] == Batch(size);
      hide Within, Lane, Sorted, Without, Batch;
      Go(Full(size), Wake, Left(0, size), size + 1, size);
    } else {
      LeftWithin(j - 1, size);
      LeftStep(j - 1, size);
    }
  }

  /** For every queue size, one request too many and the dispatcher is stuck. */
  lemma StuckReachable(size: nat) returns (t: State)
    requires size >= 1
    ensures Within(t, size + 1, size) && Stuck(t)
  {
    LeftWithin(size - 1, size);
    t := Popped(size - 1, size);
    assert Batch(size)[size..] == [];
  }

  // The exact bound.

  lemma WithinMore(s: State, bound: nat, more: nat, size: nat)
    requires bound <= more && Within(s, bound, size)
    ensures Within(s, more, size)
  {
    hide Run, AllModest;
    var actions :| Run(INIT, actions, s, size) && AllModest(INIT, actions, bound, size);
    ModestMore(INIT, actions, bound, more, size);
  }

  lemma WithinIsOrdered(s: State, bound: nat, size: nat)
    requires bound <= size && Within(s, bound, size)
    ensures InOrder(s) && !Stuck(s)
  {
    hide Run, AllModest, InOrder;
    var actions :| Run(INIT, actions, s, size) && AllModest(INIT, actions, bound, size);
    ModestInOrder(actions, s, bound, size);
  }

  /** All runs that keep every stream within bound unwritten requests are in order if and only
      if the bound is at most the queue size. */
  lemma OrderedIff(bound: nat, size: nat)
    requires size >= 1
    ensures (forall s :: Within(s, bound, size) ==> InOrder(s)) <==> bound <= size
  {
    hide Within, InOrder;
    if bound <= size {
      forall s | Within(s, bound, size) ensures InOrder(s) {
        WithinIsOrdered(s, bound, size);
      }
    } else {
      var t := OvertakingReachable(size);
      WithinMore(t, size + 1, bound, size);
    }
  }

  /** And exactly then no run gets the dispatcher stuck. */
  lemma UnstuckIff(bound: nat, size: nat)
    requires size >= 1
    ensures (forall s :: Within(s, bound, size) ==> !Stuck(s)) <==> bound <= size
  {
    hide Within, Stuck;
    if bound <= size {
      forall s | Within(s, bound, size) ensures !Stuck(s) {
        WithinIsOrdered(s, bound, size);
      }
    } else {
      var t := StuckReachable(size);
      WithinMore(t, size + 1, bound, size);
    }
  }
}
