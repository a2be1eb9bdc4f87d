/** When streams keep within WriteRequestQueueSize the dispatcher never exchanges requests;
    what can happen when one does not. */
module SendHazards {
  import opened Sids
  import opened SmuxFrame
  import opened SendLoop
  import opened SendInvariant
  import opened SendOrder

  /** A request is submitted only while its stream has fewer than bound unwritten ones. */
  ghost predicate Modest(s: State, a: Action, bound: nat) {
    a.Submit? && KeyOf(a.request).Stream? ==>
      |Lane(s.submitted, KeyOf(a.request))| < |Lane(s.wire, KeyOf(a.request))| + bound
  }

  /** No submission of the run leaves its stream with more than bound unwritten requests. */
  ghost predicate AllModest(s: State, actions: seq<Action>, bound: nat, size: nat)
    decreases |actions|
  {
    actions == [] ||
    (Enabled(s, actions[0], size) && Modest(s, actions[0], bound) &&
     AllModest(Next(s, actions[0], size), actions[1..], bound, size))
  }

  predicate Exchanging(d: Dispatcher) {
    d.Take? || d.Put? || d.Forward?
  }

  ghost predicate Small(s: State, size: nat) {
    && (forall sid: Sid :: |Lane(s.submitted, Stream(sid))| <= |Lane(s.wire, Stream(sid))| + size)
    && !Exchanging(s.disp)
  }

  /** A stream's requests, counted by where they are. */
  lemma LaneLengths(s: State, k: Key)
    requires Inv(s)
    ensures |Lane(s.submitted, k)| ==
      |Lane(s.wire, k)| + |Lane(s.out, k)| + |Lane(s.held, k)| + |Queue(s, k)| + |Lane(Incoming(s), k)|
  {
    hide Placed, FinLast, Retired, DirectAlone, Distinct, Lane, Incoming, Queue, InHand;
    LaneAppend(Sent(s), s.held, k);
    LaneAppend(s.wire, s.out, k);
    LaneBag(s.popped, Sent(s) + s.held, k);
    assert Lane(s.popped, k) + Queue(s, k) + Lane(Incoming(s), k) == Lane(s.submitted, k);
  }

  lemma SmallStep(s: State, a: Action, size: nat)
    requires Inv(s) && Small(s, size) && Enabled(s, a, size) && Modest(s, a, size)
    ensures Small(Next(s, a, size), size)
  {
    hide Inv, Next, Modest;
    var t := Next(s, a, size);
    forall sid: Sid ensures |Lane(t.submitted, Stream(sid))| <= |Lane(t.wire, Stream(sid))| + size {
      assert |Lane(s.submitted, Stream(sid))| <= |Lane(s.wire, Stream(sid))| + size;
      SmallAt(s, a, size, Stream(sid));
    }
    if a.DoEnqueue? {
      RoomInQueue(s, size);
    }
    NoExchange(s, a, size);
  }

  lemma NoExchange(s: State, a: Action, size: nat)
    requires Enabled(s, a, size) && !Exchanging(s.disp)
    requires a.DoEnqueue? ==> |s.queues[s.disp.r.frame.sid]| < size
    ensures !Exchanging(Next(s, a, size).disp)
  {
    hide Lane, Sorted, Without, Queue;
  }

  lemma SmallAt(s: State, a: Action, size: nat, k: Key)
    requires Enabled(s, a, size) && Modest(s, a, size) && k.Stream?
    requires |Lane(s.submitted, k)| <= |Lane(s.wire, k)| + size
    ensures |Lane(Next(s, a, size).submitted, k)| <= |Lane(Next(s, a, size).wire, k)| + size
  {
    hide Lane, Sorted, Without, Queue;
    if a.Submit? {
      LanePush(s.submitted, a.request, k);
    } else if a.Write? {
      LanePush(s.wire, s.out[0], k);
    }
  }

  lemma RoomInQueue(s: State, size: nat)
    requires Inv(s) && Small(s, size) && s.disp.Enqueue?
    ensures s.disp.r.frame.sid in s.queues && |s.queues[s.disp.r.frame.sid]| < size
  {
    var k := KeyOf(s.disp.r);
    LaneLengths(s, k);
    LaneOne(s.disp.r, k);
    hide Lane;
    assert |Lane(s.submitted, k)| <= |Lane(s.wire, k)| + size;
  }

  lemma HandLanes(s: State, k: Key)
    requires Accounted(s)
    ensures |Lane(s.held, k)| == |Lane(DispHolds(s.disp), k)| + |Lane(SchedHolds(s.sched), k)|
  {
    hide Lane, DispHolds, SchedHolds;
    var both := DispHolds(s.disp) + SchedHolds(s.sched);
    assert multiset(both) == multiset(s.held);
    LaneBag(s.held, both, k);
    LaneAppend(DispHolds(s.disp), SchedHolds(s.sched), k);
  }

  /** Without an exchange the two goroutines never hold requests of one stream. */
  lemma OneInHand(s: State, k: Key)
    requires Inv(s) && !Exchanging(s.disp)
    ensures |Lane(s.held, k)| <= 1
  {
    if s.disp.Direct? && Tracked(s.disp.r) && KeyOf(s.disp.r) == k {
      DirectHeld(s, k);
    } else {
      HandLanes(s, k);
      NoLane(k);
      hide Conserved, Accounted, Distinct, FinLast, Retired, DirectAlone, Lane;
      if s.disp.Direct? {
        LaneOne(s.disp.r, k);
      }
      if s.sched.Retiring? || s.sched.Sending? {
        LaneOne(s.sched.r, k);
      }
    }
  }

  lemma DirectHeld(s: State, k: Key)
    requires Inv(s) && s.disp.Direct? && Tracked(s.disp.r) && k == KeyOf(s.disp.r)
    ensures |Lane(s.held, k)| <= 1
  {
    hide Placed, FinLast, Retired, Distinct, Lane, Incoming, Queue, InHand;
    LaneAppend(Sent(s), s.held, k);
    LaneBag(s.popped, Sent(s) + s.held, k);
  }

  lemma SmallNeverOvertakes(s: State, a: Action, size: nat)
    requires Inv(s) && Enabled(s, a, size) && !Exchanging(s.disp)
    ensures !Overtakes(s, a, size)
  {
    hide Enabled, Next, SentBy, Lane, Placed, Conserved, Distinct, FinLast, Retired, DirectAlone, InHand, KeyOf;
    if Sends(a) {
      var r := SentBy(s, a, size);
      SendFreesHand(s, a, size);
      assert r in multiset(s.held);
      LaneMembers(s.held, KeyOf(r));
      OneInHand(s, KeyOf(r));
      assert r in Lane(s.held, KeyOf(r));
      assert Lane(s.held, KeyOf(r)) == [r];
    }
  }

  lemma {:induction false} ModestRun(s: State, actions: seq<Action>, t: State, size: nat)
    requires Inv(s) && Small(s, size) && Run(s, actions, t, size) && AllModest(s, actions, size, size)
    ensures Small(t, size) && NeverOvertakes(s, actions, size)
    decreases |actions|
  {
    hide Inv, Enabled, Next, Overtakes, Modest;
    if actions != [] {
      InvStep(s, actions[0], size);
      SmallStep(s, actions[0], size);
      SmallNeverOvertakes(s, actions[0], size);
      ModestRun(Next(s, actions[0], size), actions[1..], t, size);
    }
  }

  /** While no stream has more than size requests unwritten, the queue-full exchange never
      happens and every stream's requests leave in order. */
  lemma ModestInOrder(actions: seq<Action>, t: State, bound: nat, size: nat)
    requires bound <= size && Run(INIT, actions, t, size) && AllModest(INIT, actions, bound, size)
    ensures InOrder(t) && !Exchanging(t.disp)
  {
    InitInv();
    InitSmall(size);
    ModestMore(INIT, actions, bound, size, size);
    hide Run, AllModest, Inv, InOrder, NeverOvertakes;
    ModestRun(INIT, actions, t, size);
    OrderIff(actions, t, size);
  }

  lemma {:induction false} ModestMore(s: State, actions: seq<Action>, bound: nat, more: nat, size: nat)
    requires bound <= more && AllModest(s, actions, bound, size)
    ensures AllModest(s, actions, more, size)
    decreases |actions|
  {
    hide Enabled, Next;
    if actions != [] {
      ModestMore(Next(s, actions[0], size), actions[1..], bound, more, size);
    }
  }

  lemma InitSmall(size: nat)
    ensures Small(INIT, size)
  {
  }

  // The dispatcher that waits for a request to exchange.

  predicate Stuck(s: State) {
    s.disp.Take? && Queue(s, Stream(s.disp.r.frame.sid)) == []
  }

  /** If the scheduler empties the queue before the dispatcher takes its head, the dispatcher
      waits for ever: no request of any stream is accepted again. */
  lemma {:induction false} StuckForever(s: State, actions: seq<Action>, t: State, size: nat)
    requires Stuck(s) && Run(s, actions, t, size)
    ensures Stuck(t) && t.submitted == s.submitted
    decreases |actions|
  {
    if actions != [] {
      StuckStep(s, actions[0], size);
      hide Stuck, Enabled, Next;
      StuckForever(Next(s, actions[0], size), actions[1..], t, size);
    }
  }

  lemma StuckStep(s: State, a: Action, size: nat)
    requires Stuck(s) && Enabled(s, a, size)
    ensures Stuck(Next(s, a, size)) && Next(s, a, size).submitted == s.submitted
  {
    hide Lane, Sorted, Without;
  }

  /** The one step that gets the dispatcher stuck: the scheduler receives the last request of
      the queue whose head the dispatcher is about to take. */
  lemma StuckIff(s: State, a: Action, size: nat)
    requires size >= 1 && Inv(s) && Enabled(s, a, size) && !Stuck(s)
    ensures Stuck(Next(s, a, size)) <==>
      a.Pop? && s.disp.Take? && s.sched.sid == s.disp.r.frame.sid && |Queue(s, Stream(s.sched.sid))| == 1
  {
    hide Conserved, Accounted, Distinct, FinLast, Retired, DirectAlone, Lane, Sorted, Without;
    if a.Retire? {
      RetireFrees(s);
    }
  }

  // Reachable states.

  ghost predicate Reachable(s: State, size: nat) {
    exists actions :: Run(INIT, actions, s, size)
  }

  lemma {:induction false} RunExtend(s: State, actions: seq<Action>, t: State, a: Action, size: nat)
    requires Run(s, actions, t, size) && Enabled(t, a, size)
    ensures Run(s, actions + [a], Next(t, a, size), size)
    decreases |actions|
  {
    hide Enabled, Next;
    if actions == [] {
      assert (actions + [a])[1..] == [];
      assert Run(Next(t, a, size), [], Next(t, a, size), size);
    } else {
      RunExtend(Next(s, actions[0], size), actions[1..], t, a, size);
      assert (actions + [a])[1..] == actions[1..] + [a];
    }
  }
}
