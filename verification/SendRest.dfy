/** sendLoop always can come to rest: from every reachable state its goroutines can run, with no
    new submission, until all is written or the dispatcher is stuck. */
module SendRest {
  import opened Sids
  import opened Sums
  import opened SmuxFrame
  import opened SendLoop
  import opened SendInvariant
  import opened SendHazards
  import opened SendLimits
  import opened SendProgress

  /** What holds in every reachable state. */
  ghost predicate Good(s: State) {
    Inv(s) && Counted(s) && Awake(s) && Reclaimed(s)
  }

  lemma GoodStep(s: State, a: Action, size: nat)
    requires Good(s) && Enabled(s, a, size)
    ensures Good(Next(s, a, size))
  {
    hide Inv, Counted, Awake, Reclaimed, Enabled, Next;
    InvStep(s, a, size);
    CountedStep(s, a, size);
    AwakeStep(s, a, size);
    ReclaimedStep(s, a, size);
  }

  // A schedule: the writer first, then the dispatcher as long as it can, then the scheduler.

  /** How far the dispatcher is from being idle. */
  function DispRank(d: Dispatcher): nat {
    match d
    case Received(_) => 8
    case Enqueue(_) => 7
    case Take(_) => 6
    case Put(_, _) => 5
    case Forward(_) => 4
    case Direct(_) => 4
    case Count => 2
    case Signal => 1
    case Idle => 0
  }

  /** The pass comes to a queue with requests. */
  predicate Hot(s: State, sids: seq<Sid>) {
    exists i :: 0 <= i < |sids| && Queue(s, Stream(sids[i])) != []
  }

  /** How far the scheduler is from receiving a request or going to sleep. */
  ghost function SchedRank(s: State): nat {
    var k := 2 * |s.queues.Keys|;
    match s.sched
    case Waiting => 0
    case Checking => k + 3
    case Listing => if Total(s.queues) > 0 then k + 2 else 2 * k + 6
    case Passing(sids) => if Hot(s, sids) then 2 * |sids| else k + 4 + 2 * |sids|
    case Popping(sid, sids) => if Hot(s, [sid] + sids) then 2 * |sids| + 1 else k + 5 + 2 * |sids|
    case Uncounting(sids) => k + 6 + 2 * |sids|
    case Sending(_, sids) => k + 7 + 2 * |sids|
    case Retiring(_, sids) => k + 8 + 2 * |sids|
  }

  function NotifyRank(s: State): nat {
    if s.notify then 1 else 0
  }

  /** The dispatcher cannot go on. */
  ghost predicate Blocked(s: State, size: nat) {
    match s.disp
    case Idle => true
    case Enqueue(_) => !Enabled(s, DoEnqueue, size)
    case Take(_) => !Enabled(s, DoTake, size)
    case Put(_, _) => !Enabled(s, DoPut, size)
    case _ => false
  }

  /** The dispatcher's next step. */
  function DispAction(d: Dispatcher): Action {
    match d
    case Received(_) => DoLookup
    case Enqueue(_) => DoEnqueue
    case Take(_) => DoTake
    case Put(_, _) => DoPut
    case Forward(_) => DoForward
    case Direct(_) => DoDirect
    case Count => DoCount
    case _ => DoSignal
  }

  /** The scheduler's. */
  function SchedAction(c: Scheduler): Action {
    match c
    case Waiting => Wake
    case Checking => Check
    case Listing => List
    case Passing(_) => Pass
    case Popping(_, _) => Pop
    case Retiring(_, _) => Retire
    case Sending(_, _) => Send
    case Uncounting(_) => Uncount
  }

  /** A blocked dispatcher leaves the count positive only beside queued requests. */
  lemma CountMeansQueued(s: State, size: nat)
    requires Good(s) && size >= 1 && Blocked(s, size) && s.sched.Checking? && s.count > 0
    ensures Total(s.queues) > 0
  {
    hide Conserved, Accounted, FinLast, Retired, DirectAlone, Total;
    if s.disp.Put? {
      QueueCounted(s.queues, s.disp.r.frame.sid);
    }
  }

  /** A snapshot taken while something is queued finds it. */
  lemma ListedHot(s: State)
    requires Total(s.queues) > 0
    ensures Hot(s, Sorted(s.queues.Keys))
  {
    hide Sorted;
    SumPositive(Lengths(s.queues));
    var sid :| sid in Lengths(s.queues) && Lengths(s.queues)[sid] > 0;
    assert sid in s.queues.Keys;
    var order := Sorted(s.queues.Keys);
    var i :| 0 <= i < |order| && order[i] == sid;
    assert Queue(s, Stream(order[i])) != [];
  }

  lemma HotFront(s: State, sid: Sid, sids: seq<Sid>)
    ensures Hot(s, [sid] + sids) <==> Queue(s, Stream(sid)) != [] || Hot(s, sids)
  {
    hide Queue;
    var all := [sid] + sids;
    assert all[0] == sid && forall i :: 0 <= i < |sids| ==> all[i + 1] == sids[i];
    if Hot(s, all) {
      var i :| 0 <= i < |all| && Queue(s, Stream(all[i])) != [];
      assert i == 0 || all[i] == sids[i - 1];
    }
  }

  lemma SameHot(s: State, t: State, sids: seq<Sid>)
    requires s.queues == t.queues
    ensures Hot(s, sids) <==> Hot(t, sids)
  {
  }

  /** The ranks that the scheduler and the writer bring down while the dispatcher waits. */
  ghost predicate Lower(t: State, s: State) {
    Total(t.queues) < Total(s.queues) ||
    (Total(t.queues) == Total(s.queues) &&
     (NotifyRank(t) < NotifyRank(s) || (NotifyRank(t) == NotifyRank(s) && SchedRank(t) < SchedRank(s))))
  }

  lemma DispStep(s: State, size: nat)
    requires Good(s) && s.out == [] && !Blocked(s, size)
    ensures Enabled(s, DispAction(s.disp), size)
    ensures DispRank(Next(s, DispAction(s.disp), size).disp) < DispRank(s.disp)
  {
    hide Inv, Counted, Awake, Reclaimed, Lane, Without, Sorted;
  }

  lemma SchedStep(s: State, size: nat)
    requires Good(s) && size >= 1 && s.out == [] && Blocked(s, size) && !(s.sched.Waiting? && !s.notify)
    ensures var a := SchedAction(s.sched);
            Enabled(s, a, size) && Next(s, a, size).disp == s.disp && Lower(Next(s, a, size), s)
  {
    hide Good, Total, Blocked, Hot, Lane, Without, Sorted;
    match s.sched
    case Checking => if s.count > 0 { CountMeansQueued(s, size); }
    case Listing => ListStep(s, size);
    case Passing(sids) => PassStep(s, size);
    case Popping(sid, sids) => PopStep(s, size);
    case Retiring(r, sids) => RetireStep(s, size);
    case Sending(r, sids) =>
    case Uncounting(sids) => SameHot(s, Next(s, Uncount, size), sids);
    case Waiting =>
  }

  lemma ListStep(s: State, size: nat)
    requires s.sched.Listing?
    ensures var t := Next(s, List, size); t.disp == s.disp && Lower(t, s)
  {
    hide Total, Sorted;
    var t := Next(s, List, size);
    SortedSize(s.queues.Keys);
    SameHot(s, t, t.sched.sids);
    if Total(s.queues) > 0 { ListedHot(s); }
    hide Hot;
  }

  lemma PassStep(s: State, size: nat)
    requires s.sched.Passing?
    ensures var t := Next(s, Pass, size); t.disp == s.disp && Lower(t, s)
  {
    hide Total;
    var sids, t := s.sched.sids, Next(s, Pass, size);
    if sids != [] {
      assert sids == [sids[0]] + sids[1..];
      HotFront(s, sids[0], sids[1..]);
      SameHot(s, t, sids);
      SameHot(s, t, sids[1..]);
      hide Hot;
    }
  }

  lemma PopStep(s: State, size: nat)
    requires s.sched.Popping?
    ensures var t := Next(s, Pop, size); t.disp == s.disp && Lower(t, s)
  {
    var sid, sids, t := s.sched.sid, s.sched.sids, Next(s, Pop, size);
    TotalStep(s, Pop, size);
    hide Total;
    if Queue(s, Stream(sid)) == [] {
      HotFront(s, sid, sids);
      SameHot(s, t, sids);
    }
    hide Hot, SchedRank;
    if Queue(s, Stream(sid)) == [] {
      PopCold(s, t);
    }
  }

  /** Nothing was there to receive. */
  lemma PopCold(s: State, t: State)
    requires s.sched.Popping? && t == s.(sched := Passing(s.sched.sids))
    requires Hot(s, [s.sched.sid] + s.sched.sids) <==> Hot(t, s.sched.sids)
    ensures SchedRank(t) < SchedRank(s)
  {
    hide Hot, Total;
  }

  lemma RetireStep(s: State, size: nat)
    requires Good(s) && s.sched.Retiring?
    ensures var t := Next(s, Retire, size); t.disp == s.disp && Lower(t, s)
  {
    hide Inv, Counted, Awake, Reclaimed, Total, Hot, Lane, Without, Sorted;
    RetireFrees(s);
    TotalStep(s, Retire, size);
    var t := Next(s, Retire, size);
    assert t.queues.Keys <= s.queues.Keys;
    SubsetSize(t.queues.Keys, s.queues.Keys);
  }

  lemma SubsetSize(a: set<Sid>, b: set<Sid>)
    requires a <= b
    ensures |a| <= |b|
  {
    assert b == a + (b - a);
  }

  // The run.

  /** From s, the goroutines alone come to t. */
  ghost predicate Leads(s: State, t: State, size: nat) {
    exists actions: seq<Action> :: Run(s, actions, t, size) && forall a :: a in actions ==> !a.Submit?
  }

  lemma LeadsOn(s: State, a: Action, t: State, size: nat)
    requires Enabled(s, a, size) && !a.Submit? && Leads(Next(s, a, size), t, size)
    ensures Leads(s, t, size)
  {
    hide Enabled, Next;
    var rest: seq<Action> :| Run(Next(s, a, size), rest, t, size) && forall b :: b in rest ==> !b.Submit?;
    var actions := [a] + rest;
    assert actions[0] == a && actions[1..] == rest;
    forall b | b in actions ensures !b.Submit? {
      assert b == a || b in rest;
    }
    assert Run(s, actions, t, size);
  }

  lemma AtRest(s: State, size: nat)
    requires s.out == [] && Blocked(s, size) && s.sched.Waiting? && !s.notify
    ensures Quiescent(s, size) && Leads(s, s, size)
  {
    var none: seq<Action> := [];
    assert Run(s, none, s, size) && forall a :: a in none ==> !a.Submit?;
    hide Run;
    forall a: Action | Enabled(s, a, size) ensures a.Submit? {
    }
  }

  lemma WriteStep(s: State, size: nat)
    requires s.out != []
    ensures var t := Next(s, Write, size);
            t.disp == s.disp && Total(t.queues) == Total(s.queues) && t.notify == s.notify &&
            SchedRank(t) == SchedRank(s) && |t.out| < |s.out|
  {
    hide Total;
    var t := Next(s, Write, size);
    forall sids ensures Hot(s, sids) <==> Hot(t, sids) {
      SameHot(s, t, sids);
    }
    hide Hot;
  }

  /** All ranks together. */
  ghost predicate Nearer(t: State, s: State) {
    DispRank(t.disp) < DispRank(s.disp) ||
    (DispRank(t.disp) == DispRank(s.disp) &&
     (Lower(t, s) ||
      (Total(t.queues) == Total(s.queues) && NotifyRank(t) == NotifyRank(s) && SchedRank(t) == SchedRank(s) &&
       |t.out| < |s.out|)))
  }

  lemma Chosen(s: State, size: nat) returns (a: Action)
    requires Good(s) && size >= 1 && !(s.out == [] && Blocked(s, size) && s.sched.Waiting? && !s.notify)
    ensures Enabled(s, a, size) && !a.Submit? && Nearer(Next(s, a, size), s)
  {
    hide Good, Next, Total, SchedRank, Blocked;
    if s.out != [] {
      WriteStep(s, size);
      a := Write;
    } else if !Blocked(s, size) {
      DispStep(s, size);
      a := DispAction(s.disp);
    } else {
      SchedStep(s, size);
      a := SchedAction(s.sched);
    }
    hide Enabled, Lower;
  }

  lemma Unsubmitted(s: State, a: Action, size: nat)
    requires Enabled(s, a, size) && !a.Submit?
    ensures Next(s, a, size).submitted == s.submitted
  {
    hide Lane, Without, Sorted;
  }

  lemma {:induction false} Settles(s: State, size: nat) returns (t: State)
    requires Good(s) && size >= 1
    ensures Good(t) && Quiescent(t, size) && Leads(s, t, size) && t.submitted == s.submitted
    decreases DispRank(s.disp), Total(s.queues), NotifyRank(s), SchedRank(s), |s.out|
  {
    hide Good, Enabled, Next, Leads, Total, SchedRank, NotifyRank, Quiescent, Blocked;
    if s.out == [] && Blocked(s, size) && s.sched.Waiting? && !s.notify {
      AtRest(s, size);
      t := s;
    } else {
      var a := Chosen(s, size);
      GoodStep(s, a, size);
      Unsubmitted(s, a, size);
      t := Settles(Next(s, a, size), size);
      LeadsOn(s, a, t, size);
    }
  }

  /** From every reachable state the goroutines can come to rest by themselves; then all that was
      submitted is written, or the dispatcher is stuck. */
  lemma RestReachable(s: State, size: nat) returns (t: State)
    requires size >= 1 && Reachable(s, size)
    ensures Leads(s, t, size) && Quiescent(t, size) && t.submitted == s.submitted
    ensures Stuck(t) || (t.disp.Idle? && multiset(t.wire) == multiset(s.submitted))
  {
    hide Reachable, Leads, Quiescent, Stuck, Inv, Counted, Awake, Reclaimed;
    NothingStranded(s, size);
    t := Settles(s, size);
    AtRestWritten(t, size);
  }

  lemma {:induction false} UnsubmittedModest(s: State, actions: seq<Action>, t: State, size: nat)
    requires Run(s, actions, t, size) && forall a :: a in actions ==> !a.Submit?
    ensures AllModest(s, actions, size, size)
    decreases |actions|
  {
    hide Enabled, Next;
    if actions != [] {
      assert actions[0] in actions && forall a :: a in actions[1..] ==> a in actions;
      UnsubmittedModest(Next(s, actions[0], size), actions[1..], t, size);
    }
  }

  /** While no stream has more than WriteRequestQueueSize requests unwritten, everything submitted
      can always still be written. */
  lemma ModestDelivered(s: State, bound: nat, size: nat) returns (t: State)
    requires size >= 1 && bound <= size && Within(s, bound, size)
    ensures Leads(s, t, size) && t.disp.Idle? && multiset(t.wire) == multiset(s.submitted)
  {
    InitInv();
    InitSmall(size);
    hide Inv, Small, Run, AllModest, Stuck, Quiescent;
    var actions :| Run(INIT, actions, s, size) && AllModest(INIT, actions, bound, size);
    ModestMore(INIT, actions, bound, size, size);
    ModestRun(INIT, actions, s, size);
    InvRun(INIT, actions, s, size);
    t := RestReachable(s, size);
    var more: seq<Action> :| Run(s, more, t, size) && forall a :: a in more ==> !a.Submit?;
    UnsubmittedModest(s, more, t, size);
    ModestRun(s, more, t, size);
    SmallUnstuck(t, size);
  }

  lemma SmallUnstuck(t: State, size: nat)
    requires Small(t, size)
    ensures !Stuck(t)
  {
  }
}
