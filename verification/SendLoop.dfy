/** The three goroutines of sendLoop in lib/smux/session.go - dispatcher, scheduler and
    writer - as a step system. A step is one atomic operation or one critical section. */
module SendLoop {
  import opened Sids
  import opened SmuxFrame

  /** A writeRequest: a frame and the identity of its result channel. */
  datatype Request = Request(frame: Frame, id: nat)

  /** Where the dispatcher is; r is the request it has received. */
  datatype Dispatcher =
    | Idle
    | Received(r: Request)
    | Enqueue(r: Request)                // before the select that sends to the queue
    | Take(r: Request)                   // queue full: before request2 := <-queue
    | Put(r: Request, head: Request)     // before queue <- request
    | Forward(head: Request)             // before writes <- request2
    | Direct(r: Request)                 // before writes <- request
    | Count                              // before reqCount + 1
    | Signal                             // before the send to writeNotify

  /** Where the scheduler is; sids are the streams left in the pass. */
  datatype Scheduler =
    | Waiting                                // on writeNotify
    | Checking                               // before the load of reqCount
    | Listing                                // before the snapshot of the stream ids
    | Passing(sids: seq<Sid>)                // before the lookup of the next queue
    | Popping(sid: Sid, sids: seq<Sid>)      // before the receive from the queue
    | Retiring(r: Request, sids: seq<Sid>)   // FIN received, before the queue is deleted
    | Sending(r: Request, sids: seq<Sid>)    // before writes <- request
    | Uncounting(sids: seq<Sid>)             // before reqCount - 1

  /** out is the channel writes, wire what the writer has written. submitted, popped and
      held are history: what was submitted, what left a queue or bypassed the queues, and
      which of those a goroutine still has in hand, oldest first. */
  datatype State = State(
    queues: map<Sid, seq<Request>>, out: seq<Request>, wire: seq<Request>,
    disp: Dispatcher, sched: Scheduler, notify: bool, count: int,
    submitted: seq<Request>, popped: seq<Request>, held: seq<Request>)

  const WRITES_CAPACITY: nat := 32

  datatype Action =
    | Submit(request: Request)
    | DoLookup | DoEnqueue | DoTake | DoPut | DoForward | DoDirect | DoCount | DoSignal
    | Wake | Check | List | Pass | Pop | Retire | Send | Uncount
    | Write

  /** The commands that travel through a stream queue. */
  predicate Tracked(r: Request) {
    r.frame.cmd == CMD_SYN || r.frame.cmd == CMD_FIN || r.frame.cmd == CMD_PSH
  }

  predicate IsFin(r: Request) {
    r.frame.cmd == CMD_FIN
  }

  /** Requests whose order matters: those of one stream, and those that bypass the queues. */
  datatype Key = Stream(sid: Sid) | Control

  function KeyOf(r: Request): Key {
    if Tracked(r) then Stream(r.frame.sid) else Control
  }

  /** The requests of one key, in order. */
  function Lane(rs: seq<Request>, k: Key): seq<Request> {
    if rs == [] then [] else
      var front := Lane(rs[..|rs| - 1], k);
      if KeyOf(rs[|rs| - 1]) == k then front + [rs[|rs| - 1]] else front
  }

  function Queue(s: State, k: Key): seq<Request> {
    if k.Stream? && k.sid in s.queues then s.queues[k.sid] else []
  }

  /** What a goroutine that sends r still has in hand afterwards. */
  function Without(rs: seq<Request>, r: Request): seq<Request> {
    if rs == [] then [] else if rs[0] == r then rs[1..] else [rs[0]] + Without(rs[1..], r)
  }

  /** Requests are distinct, and nothing is submitted on a stream after its FIN. */
  ghost predicate MaySubmit(s: State, r: Request) {
    && r !in s.submitted
    && (forall x :: x in s.submitted && KeyOf(x) == KeyOf(r) ==> !IsFin(x))
  }

  ghost predicate Enabled(s: State, a: Action, size: nat) {
    match a
    case Submit(r) => s.disp.Idle? && MaySubmit(s, r)
    case DoLookup => s.disp.Received?
    case DoEnqueue =>
      && s.disp.Enqueue? && s.disp.r.frame.sid in s.queues
      && (s.disp.r.frame.cmd == CMD_SYN ==> |s.queues[s.disp.r.frame.sid]| < size)
    case DoTake => s.disp.Take? && s.disp.r.frame.sid in s.queues && s.queues[s.disp.r.frame.sid] != []
    case DoPut => s.disp.Put? && s.disp.r.frame.sid in s.queues && |s.queues[s.disp.r.frame.sid]| < size
    case DoForward => s.disp.Forward? && |s.out| < WRITES_CAPACITY
    case DoDirect => s.disp.Direct? && |s.out| < WRITES_CAPACITY
    case DoCount => s.disp.Count?
    case DoSignal => s.disp.Signal?
    case Wake => s.sched.Waiting? && s.notify
    case Check => s.sched.Checking?
    case List => s.sched.Listing?
    case Pass => s.sched.Passing?
    case Pop => s.sched.Popping?
    case Retire => s.sched.Retiring?
    case Send => s.sched.Sending? && |s.out| < WRITES_CAPACITY
    case Uncount => s.sched.Uncounting?
    case Write => s.out != []
  }

  ghost function Next(s: State, a: Action, size: nat): State
    requires Enabled(s, a, size)
  {
    match a
    case Submit(r) => s.(disp := Received(r), submitted := s.submitted + [r])
    case DoLookup =>
      var r := s.disp.r;
      var sid := r.frame.sid;
      if r.frame.cmd == CMD_SYN || r.frame.cmd == CMD_PSH then
        s.(disp := Enqueue(r), queues := if sid in s.queues then s.queues else s.queues[sid := []])
      else if r.frame.cmd == CMD_FIN && sid in s.queues then
        s.(disp := Enqueue(r))
      else
        s.(disp := Direct(r), popped := s.popped + [r], held := s.held + [r])
    case DoEnqueue =>
      var r := s.disp.r;
      var q := s.queues[r.frame.sid];
      if |q| < size then s.(disp := Count, queues := s.queues[r.frame.sid := q + [r]])
      else s.(disp := Take(r))
    case DoTake =>
      var r := s.disp.r;
      var q := s.queues[r.frame.sid];
      s.(disp := Put(r, q[0]), queues := s.queues[r.frame.sid := q[1..]],
         popped := s.popped + [q[0]], held := s.held + [q[0]])
    case DoPut =>
      var r := s.disp.r;
      s.(disp := Forward(s.disp.head), queues := s.queues[r.frame.sid := s.queues[r.frame.sid] + [r]])
    case DoForward =>
      s.(disp := Signal, out := s.out + [s.disp.head], held := Without(s.held, s.disp.head))
    case DoDirect =>
      s.(disp := if IsFin(s.disp.r) then Signal else Idle, out := s.out + [s.disp.r],
         held := Without(s.held, s.disp.r))
    case DoCount => s.(disp := Signal, count := s.count + 1)
    case DoSignal => s.(disp := Idle, notify := true)
    case Wake => s.(sched := Checking, notify := false)
    case Check => s.(sched := if s.count > 0 then Listing else Waiting)
    case List => s.(sched := Passing(Sorted(s.queues.Keys)))
    case Pass =>
      var sids := s.sched.sids;
      if sids == [] then s.(sched := Checking)
      else if sids[0] in s.queues then s.(sched := Popping(sids[0], sids[1..]))
      else s.(sched := Passing(sids[1..]))
    case Pop =>
      var sid, sids := s.sched.sid, s.sched.sids;
      if Queue(s, Stream(sid)) == [] then s.(sched := Passing(sids)) else
        var q := s.queues[sid];
        s.(sched := if IsFin(q[0]) then Retiring(q[0], sids) else Sending(q[0], sids),
           queues := s.queues[sid := q[1..]], popped := s.popped + [q[0]], held := s.held + [q[0]])
    case Retire =>
      s.(sched := Sending(s.sched.r, s.sched.sids), queues := s.queues - {s.sched.r.frame.sid})
    case Send =>
      s.(sched := Uncounting(s.sched.sids), out := s.out + [s.sched.r], held := Without(s.held, s.sched.r))
    case Uncount => s.(sched := Passing(s.sched.sids), count := s.count - 1)
    case Write => s.(wire := s.wire + [s.out[0]], out := s.out[1..])
  }

  const INIT: State := State(map[], [], [], Idle, Waiting, false, 0, [], [], [])

  /** A run: every action is enabled when its turn comes; size is WriteRequestQueueSize. */
  ghost predicate Run(s: State, actions: seq<Action>, t: State, size: nat)
    decreases |actions|
  {
    if actions == [] then s == t
    else Enabled(s, actions[0], size) && Run(Next(s, actions[0], size), actions[1..], t, size)
  }

  // What the goroutines have in hand.

  /** The request the dispatcher has not queued yet. */
  function Incoming(s: State): seq<Request> {
    match s.disp
    case Received(r) => [r]
    case Enqueue(r) => [r]
    case Take(r) => [r]
    case Put(r, _) => [r]
    case _ => []
  }

  /** The request the dispatcher has to forward. */
  function DispHolds(d: Dispatcher): seq<Request> {
    match d
    case Put(_, head) => [head]
    case Forward(head) => [head]
    case Direct(r) => [r]
    case _ => []
  }

  function SchedHolds(c: Scheduler): seq<Request> {
    match c
    case Retiring(r, _) => [r]
    case Sending(r, _) => [r]
    case _ => []
  }

  /** What has left for the connection, in order. */
  function Sent(s: State): seq<Request> {
    s.wire + s.out
  }

  // Laws of lanes.

  lemma {:induction false} LaneAppend(a: seq<Request>, b: seq<Request>, k: Key)
    ensures Lane(a + b, k) == Lane(a, k) + Lane(b, k)
  {
    hide KeyOf;
    if b == [] {
      assert a + b == a;
    } else {
      var front := b[..|b| - 1];
      assert (a + b)[..|a + b| - 1] == a + front;
      LaneAppend(a, front, k);
    }
  }

  lemma LaneOne(r: Request, k: Key)
    ensures Lane([r], k) == if KeyOf(r) == k then [r] else []
  {
    hide KeyOf;
    assert [r][..0] == [];
  }

  lemma LanePush(a: seq<Request>, r: Request, k: Key)
    ensures Lane(a + [r], k) == if KeyOf(r) == k then Lane(a, k) + [r] else Lane(a, k)
  {
    hide KeyOf;
    LaneAppend(a, [r], k);
    LaneOne(r, k);
  }

  lemma {:induction false} LaneMembers(rs: seq<Request>, k: Key)
    ensures forall x :: x in Lane(rs, k) <==> x in rs && KeyOf(x) == k
  {
    hide KeyOf;
    if rs != [] {
      LaneMembers(rs[..|rs| - 1], k);
      assert rs == rs[..|rs| - 1] + [rs[|rs| - 1]];
    }
  }

  /** How often a request is on a lane depends only on how often it is there at all. */
  lemma {:induction false} LaneCounts(rs: seq<Request>, k: Key, x: Request)
    ensures multiset(Lane(rs, k))[x] == if KeyOf(x) == k then multiset(rs)[x] else 0
  {
    hide KeyOf;
    if rs != [] {
      var n := |rs| - 1;
      LaneCounts(rs[..n], k, x);
      assert rs == rs[..n] + [rs[n]];
    }
  }

  lemma LaneBag(a: seq<Request>, b: seq<Request>, k: Key)
    requires multiset(a) == multiset(b)
    ensures multiset(Lane(a, k)) == multiset(Lane(b, k)) && |Lane(a, k)| == |Lane(b, k)|
  {
    forall x ensures multiset(Lane(a, k))[x] == multiset(Lane(b, k))[x] {
      LaneCounts(a, k, x);
      LaneCounts(b, k, x);
    }
    assert multiset(Lane(a, k)) == multiset(Lane(b, k));
    assert |multiset(Lane(a, k))| == |Lane(a, k)|;
  }

  lemma {:induction false} WithoutBag(rs: seq<Request>, r: Request)
    requires r in rs
    ensures multiset(Without(rs, r)) == multiset(rs) - multiset{r}
  {
    if rs[0] == r {
      assert rs == [r] + rs[1..];
    } else {
      assert rs == [rs[0]] + rs[1..];
      WithoutBag(rs[1..], r);
    }
  }
}
