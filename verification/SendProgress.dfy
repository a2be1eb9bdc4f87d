/** reqCount and the wake-up of the scheduler: queued work is never left lying. */
module SendProgress {
  import opened Sids
  import opened SmuxFrame
  import opened Sums
  import opened SendLoop
  import opened SendInvariant
  import opened SendHazards

  ghost function Lengths(queues: map<Sid, seq<Request>>): map<Sid, nat> {
    map sid | sid in queues :: |queues[sid]|
  }

  /** The number of queued requests. */
  ghost function Total(queues: map<Sid, seq<Request>>): nat {
    Sum(Lengths(queues))
  }

  lemma TotalPick(queues: map<Sid, seq<Request>>, sid: Sid)
    requires sid in queues
    ensures Total(queues) == |queues[sid]| + Total(queues - {sid})
  {
    hide Sum;
    SumPick(Lengths(queues), sid);
    assert Lengths(queues - {sid}) == Lengths(queues) - {sid};
  }

  lemma TotalSet(queues: map<Sid, seq<Request>>, sid: Sid, q: seq<Request>)
    ensures Total(queues[sid := q]) == Total(queues - {sid}) + |q|
    ensures Total(queues) == Total(queues - {sid}) + if sid in queues then |queues[sid]| else 0
  {
    hide Total;
    TotalPick(queues[sid := q], sid);
    assert queues[sid := q] - {sid} == queues - {sid};
    if sid in queues {
      TotalPick(queues, sid);
    } else {
      assert queues - {sid} == queues;
    }
  }

  function One(b: bool): int {
    if b then 1 else 0
  }

  /** A request that the scheduler took out of a queue and still counts. */
  predicate Undecremented(c: Scheduler) {
    c.Retiring? || c.Sending? || c.Uncounting?
  }

  /** reqCount, whatever the interleaving: a request being exchanged stays counted, one just
      queued is not counted yet. */
  ghost predicate Counted(s: State) {
    s.count == Total(s.queues) + One(Undecremented(s.sched)) + One(s.disp.Put?) - One(s.disp.Count?)
  }

  /** The scheduler sleeps beside queued work only when the dispatcher is about to signal. */
  ghost predicate Awake(s: State) {
    s.sched.Waiting? && !s.notify && Total(s.queues) > 0 ==> s.disp.Count? || s.disp.Signal? || s.disp.Forward?
  }

  /** How many requests a step adds to the queues. */
  ghost function Added(s: State, a: Action, size: nat): int
    requires Enabled(s, a, size)
  {
    if a.DoPut? || (a.DoEnqueue? && |s.queues[s.disp.r.frame.sid]| < size) then 1
    else if a.DoTake? || (a.Pop? && Queue(s, Stream(s.sched.sid)) != []) then -1
    else 0
  }

  lemma TotalStep(s: State, a: Action, size: nat)
    requires Enabled(s, a, size) && (a.Retire? ==> Queue(s, Stream(s.sched.r.frame.sid)) == [])
    ensures Total(Next(s, a, size).queues) == Total(s.queues) + Added(s, a, size)
  {
    hide Total, Lane, Without, Sorted;
    if a.DoLookup? {
      TotalSet(s.queues, s.disp.r.frame.sid, []);
    } else if a.DoEnqueue? || a.DoPut? {
      TotalSet(s.queues, s.disp.r.frame.sid, s.queues[s.disp.r.frame.sid] + [s.disp.r]);
    } else if a.DoTake? {
      TotalSet(s.queues, s.disp.r.frame.sid, s.queues[s.disp.r.frame.sid][1..]);
    } else if a.Pop? && Queue(s, Stream(s.sched.sid)) != [] {
      TotalSet(s.queues, s.sched.sid, s.queues[s.sched.sid][1..]);
    } else if a.Retire? {
      TotalSet(s.queues, s.sched.r.frame.sid, []);
    }
  }

  ghost function Flags(s: State): int {
    One(Undecremented(s.sched)) + One(s.disp.Put?) - One(s.disp.Count?)
  }

  lemma FlagStep(s: State, a: Action, size: nat)
    requires Enabled(s, a, size)
    ensures Next(s, a, size).count - Flags(Next(s, a, size)) == s.count - Flags(s) + Added(s, a, size)
  {
    hide Lane, Without, Sorted;
  }

  lemma CountedStep(s: State, a: Action, size: nat)
    requires Counted(s) && Enabled(s, a, size) && Inv(s)
    ensures Counted(Next(s, a, size))
  {
    if a.Retire? {
      RetireFrees(s);
    }
    hide Inv, Next, Added, Total, Lane;
    TotalStep(s, a, size);
    FlagStep(s, a, size);
  }

  lemma AwakeStep(s: State, a: Action, size: nat)
    requires Counted(s) && Awake(s) && Enabled(s, a, size)
    ensures Awake(Next(s, a, size))
  {
    hide Total, Lane, Without, Sorted;
    if a.DoLookup? {
      TotalSet(s.queues, s.disp.r.frame.sid, []);
    } else if a.DoTake? {
      var sid := s.disp.r.frame.sid;
      TotalSet(s.queues, sid, s.queues[sid][1..]);
    }
  }

  /** The queue of a stream whose FIN has left it is being deleted, or is gone. */
  ghost predicate Reclaimed(s: State) {
    forall sid: Sid :: sid in s.queues && Finished(Lane(s.popped, Stream(sid))) ==>
      s.sched.Retiring? && s.sched.r.frame.sid == sid
  }

  lemma ReclaimedStep(s: State, a: Action, size: nat)
    requires Inv(s) && Reclaimed(s) && Enabled(s, a, size)
    ensures Reclaimed(Next(s, a, size))
  {
    var t := Next(s, a, size);
    InvStep(s, a, size);
    forall sid: Sid | sid in t.queues && Finished(Lane(t.popped, Stream(sid)))
      ensures t.sched.Retiring? && t.sched.r.frame.sid == sid
    {
      NothingBehindFin(t, Stream(sid));
      ReclaimedAt(s, a, size, sid);
    }
  }

  lemma ReclaimedAt(s: State, a: Action, size: nat, sid: Sid)
    requires Placed(s) && Reclaimed(s) && Enabled(s, a, size) && sid in Next(s, a, size).queues
    requires Finished(Lane(Next(s, a, size).popped, Stream(sid))) && Lane(Incoming(Next(s, a, size)), Stream(sid)) == []
    ensures Next(s, a, size).sched.Retiring? && Next(s, a, size).sched.r.frame.sid == sid
  {
    hide Lane, Without, Sorted;
    var t, k := Next(s, a, size), Stream(sid);
    if a.DoLookup? {
      LanePush(s.popped, s.disp.r, k);
      LaneOne(s.disp.r, k);
    } else if a.DoTake? {
      HeadIsPlaced(s, s.disp.r.frame.sid);
      LanePush(s.popped, s.queues[s.disp.r.frame.sid][0], k);
      LaneOne(s.disp.r, k);
    } else if a.Pop? && Queue(s, Stream(s.sched.sid)) != [] {
      HeadIsPlaced(s, s.sched.sid);
      LanePush(s.popped, s.queues[s.sched.sid][0], k);
    }
  }

  lemma {:induction false} ProgressRun(s: State, actions: seq<Action>, t: State, size: nat)
    requires Inv(s) && Counted(s) && Awake(s) && Reclaimed(s) && Run(s, actions, t, size)
    ensures Inv(t) && Counted(t) && Awake(t) && Reclaimed(t)
    decreases |actions|
  {
    hide Inv, Enabled, Next, Counted, Awake, Reclaimed;
    if actions != [] {
      InvStep(s, actions[0], size);
      ReclaimedStep(s, actions[0], size);
      CountedStep(s, actions[0], size);
      AwakeStep(s, actions[0], size);
      ProgressRun(Next(s, actions[0], size), actions[1..], t, size);
    }
  }

  /** The count, the wake-up and the end of queues hold in every reachable state. */
  lemma NothingStranded(t: State, size: nat)
    requires Reachable(t, size)
    ensures Inv(t) && Counted(t) && Awake(t) && Reclaimed(t)
  {
    InitInv();
    hide Inv;
    var actions :| Run(INIT, actions, t, size);
    ProgressRun(INIT, actions, t, size);
  }

  /** No goroutine can take a step; only a new request could start one. */
  ghost predicate Quiescent(s: State, size: nat) {
    forall a: Action :: Enabled(s, a, size) ==> a.Submit?
  }

  lemma SchedulerAsleep(s: State, size: nat)
    requires Quiescent(s, size)
    ensures s.sched.Waiting? && !s.notify && s.out == []
  {
    assert !Enabled(s, Write, size) && !Enabled(s, Wake, size);
    NotInPass(s, size);
    assert !Enabled(s, Check, size) && !Enabled(s, List, size);
    hide Quiescent;
  }

  lemma NotInPass(s: State, size: nat)
    requires Quiescent(s, size)
    ensures !s.sched.Passing? && !s.sched.Popping? && !s.sched.Retiring? && !s.sched.Sending? && !s.sched.Uncounting?
  {
    assert !Enabled(s, Write, size) && !Enabled(s, Pass, size) && !Enabled(s, Pop, size);
    assert !Enabled(s, Retire, size) && !Enabled(s, Send, size) && !Enabled(s, Uncount, size);
    hide Quiescent;
  }

  lemma DispatcherAsleep(s: State, size: nat)
    requires Quiescent(s, size) && s.out == []
    ensures s.disp.Idle? || s.disp.Enqueue? || s.disp.Take? || s.disp.Put?
    ensures !Enabled(s, DoEnqueue, size) && !Enabled(s, DoTake, size) && !Enabled(s, DoPut, size)
  {
    assert !Enabled(s, DoLookup, size) && !Enabled(s, DoForward, size) && !Enabled(s, DoDirect, size);
    assert !Enabled(s, DoCount, size) && !Enabled(s, DoSignal, size);
    assert !Enabled(s, DoEnqueue, size) && !Enabled(s, DoTake, size) && !Enabled(s, DoPut, size);
    hide Quiescent;
  }

  lemma QueueCounted(queues: map<Sid, seq<Request>>, sid: Sid)
    requires sid in queues
    ensures |queues[sid]| <= Total(queues)
  {
    TotalPick(queues, sid);
  }

  /** When sendLoop comes to rest, every request submitted has been written - unless the
      dispatcher is stuck in an exchange with an empty queue. */
  lemma RestIsDelivered(s: State, size: nat)
    requires size >= 1 && Reachable(s, size) && Quiescent(s, size)
    ensures Stuck(s) || (s.disp.Idle? && multiset(s.wire) == multiset(s.submitted))
  {
    NothingStranded(s, size);
    AtRestWritten(s, size);
  }

  lemma AtRestWritten(s: State, size: nat)
    requires size >= 1 && Inv(s) && Counted(s) && Awake(s) && Quiescent(s, size)
    ensures Stuck(s) || (s.disp.Idle? && multiset(s.wire) == multiset(s.submitted))
  {
    SchedulerAsleep(s, size);
    DispatcherAsleep(s, size);
    if s.disp.Idle? {
      hide Quiescent, Total, Inv;
      AllWritten(s);
    } else {
      hide Quiescent, Total, Enabled, Conserved, Accounted, Distinct, FinLast, Retired, DirectAlone, Counted;
      BusyAtRest(s, size);
    }
  }

  /** A dispatcher that cannot go on while the scheduler sleeps is stuck in an exchange. */
  lemma BusyAtRest(s: State, size: nat)
    requires size >= 1 && Placed(s) && Awake(s) && s.sched.Waiting? && !s.notify
    requires s.disp.Enqueue? || s.disp.Take? || s.disp.Put?
    requires !Enabled(s, DoEnqueue, size) && !Enabled(s, DoTake, size) && !Enabled(s, DoPut, size)
    ensures Stuck(s)
  {
    hide Total;
    QueueCounted(s.queues, s.disp.r.frame.sid);
  }

  lemma AllWritten(s: State)
    requires Inv(s) && s.disp.Idle? && s.sched.Waiting? && s.out == [] && Total(s.queues) == 0
    ensures multiset(s.wire) == multiset(s.submitted)
  {
    hide Total, Placed, FinLast, Retired, DirectAlone, Lane;
    assert multiset(s.popped) == multiset(s.wire) by {
      assert Sent(s) == s.wire;
    }
    forall x ensures multiset(s.popped)[x] == multiset(s.submitted)[x] {
      var k := KeyOf(x);
      LaneCounts(s.popped, k, x);
      LaneCounts(s.submitted, k, x);
      NoLane(k);
      if k.Stream? && k.sid in s.queues {
        QueueCounted(s.queues, k.sid);
      }
      assert Lane(s.popped, k) + Queue(s, k) + Lane(Incoming(s), k) == Lane(s.submitted, k);
      assert Lane(s.popped, k) == Lane(s.submitted, k);
    }
  }
}
