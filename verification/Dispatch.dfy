/** The dispatcher of sendLoop in lib/smux on the variables that it updates: one turn of its
    loop, when nothing interferes, is the run of its steps in SendLoop. */
module Dispatch {
  import opened SmuxFrame
  import opened SendLoop

  /** What the dispatcher does next. */
  function NextOf(d: Dispatcher): Action
    requires !d.Idle?
  {
    match d
    case Received(_) => DoLookup
    case Enqueue(_) => DoEnqueue
    case Take(_) => DoTake
    case Put(_, _) => DoPut
    case Forward(_) => DoForward
    case Direct(_) => DoDirect
    case Count => DoCount
    case Signal => DoSignal
  }

  function Rank(d: Dispatcher): nat {
    match d
    case Received(_) => 7
    case Enqueue(_) => 6
    case Take(_) => 5
    case Put(_, _) => 4
    case Forward(_) => 2
    case Direct(_) => 2
    case Count => 2
    case Signal => 1
    case Idle => 0
  }

  /** The dispatcher runs on alone until it is idle or has to wait. */
  ghost function Alone(s: State, size: nat): State
    decreases Rank(s.disp)
  {
    if s.disp.Idle? || !Enabled(s, NextOf(s.disp), size) then s
    else RankFalls(s, size); Alone(Next(s, NextOf(s.disp), size), size)
  }

  lemma RankFalls(s: State, size: nat)
    requires !s.disp.Idle? && Enabled(s, NextOf(s.disp), size)
    ensures Rank(Next(s, NextOf(s.disp), size).disp) < Rank(s.disp)
  {
    hide Lane, Without;
  }

  lemma AloneStep(s: State, size: nat)
    requires !s.disp.Idle? && Enabled(s, NextOf(s.disp), size)
    ensures Alone(s, size) == Alone(Next(s, NextOf(s.disp), size), size)
  {
    hide Next, Enabled;
  }

  lemma AloneDone(s: State, size: nat)
    requires s.disp.Idle?
    ensures Alone(s, size) == s
  {
  }

  /** Running alone is a run. */
  lemma {:induction false} AloneIsRun(s: State, size: nat) returns (actions: seq<Action>)
    ensures Run(s, actions, Alone(s, size), size)
    decreases Rank(s.disp)
  {
    if s.disp.Idle? || !Enabled(s, NextOf(s.disp), size) {
      actions := [];
    } else {
      RankFalls(s, size);
      var a := NextOf(s.disp);
      var rest := AloneIsRun(Next(s, a, size), size);
      AloneStep(s, size);
      hide Next, Enabled, Alone;
      actions := [a] + rest;
      assert actions[1..] == rest;
    }
  }

  // What a turn comes to, path by path.

  /** A step that has to wait. */
  lemma AloneWaits(s: State, size: nat)
    requires !s.disp.Idle? && !Enabled(s, NextOf(s.disp), size)
    ensures Alone(s, size) == s
  {
  }

  /** The last steps: the signal. */
  lemma SignalAlone(s: State, size: nat)
    requires s.disp.Signal?
    ensures Alone(s, size) == s.(disp := Idle, notify := true)
  {
    hide Alone;
    AloneStep(s, size);
    AloneDone(Next(s, DoSignal, size), size);
  }

  /** Room in the queue. */
  lemma EnqueueAlone(s: State, size: nat)
    requires s.disp.Enqueue? && s.disp.r.frame.sid in s.queues && |s.queues[s.disp.r.frame.sid]| < size
    ensures var sid := s.disp.r.frame.sid;
            Alone(s, size) == s.(queues := s.queues[sid := s.queues[sid] + [s.disp.r]], count := s.count + 1,
                                 disp := Idle, notify := true)
  {
    hide Alone;
    AloneStep(s, size);
    var s1 := Next(s, DoEnqueue, size);
    AloneStep(s1, size);
    SignalAlone(Next(s1, DoCount, size), size);
  }

  /** The queue is full: its head is exchanged for the request, and sent on when there is room. */
  lemma ExchangeAlone(s: State, size: nat)
    requires size >= 1 && s.disp.Enqueue? && s.disp.r.frame.cmd != CMD_SYN
    requires s.disp.r.frame.sid in s.queues && |s.queues[s.disp.r.frame.sid]| == size
    ensures var sid, q := s.disp.r.frame.sid, s.queues[s.disp.r.frame.sid];
            var t := s.(queues := s.queues[sid := q[1..] + [s.disp.r]], popped := s.popped + [q[0]], held := s.held + [q[0]]);
            Alone(s, size) ==
            if |s.out| < WRITES_CAPACITY then
              t.(out := s.out + [q[0]], held := Without(s.held + [q[0]], q[0]), disp := Idle, notify := true)
            else t.(disp := Forward(q[0]))
  {
    hide Alone, Without, Lane;
    var sid, q := s.disp.r.frame.sid, s.queues[s.disp.r.frame.sid];
    AloneStep(s, size);
    var s1 := s.(disp := Take(s.disp.r));
    AloneStep(s1, size);
    var s2 := Next(s1, DoTake, size);
    AloneStep(s2, size);
    var s3 := Next(s2, DoPut, size);
    assert s.queues[sid := q[1..]][sid := q[1..] + [s.disp.r]] == s.queues[sid := q[1..] + [s.disp.r]];
    if |s.out| < WRITES_CAPACITY {
      AloneStep(s3, size);
      SignalAlone(Next(s3, DoForward, size), size);
    } else {
      AloneWaits(s3, size);
    }
  }

  /** Past the queues. */
  lemma DirectAlone(s: State, size: nat)
    requires s.disp.Direct? && |s.out| < WRITES_CAPACITY
    ensures Alone(s, size) == s.(out := s.out + [s.disp.r], held := Without(s.held, s.disp.r), disp := Idle,
                                 notify := s.notify || IsFin(s.disp.r))
  {
    hide Alone, Without, Lane;
    AloneStep(s, size);
    var s1 := Next(s, DoDirect, size);
    if IsFin(s.disp.r) {
      SignalAlone(s1, size);
    } else {
      AloneDone(s1, size);
    }
  }

  /** What a request for a queue q comes to, field by field: appended, counted and signalled; or, when
      the queue is full, exchanged with its head, which is sent on when writes has room - a SYN waits. */
  predicate Queued(r: Request, waits: bool, q: seq<Request>, queues: map<Sid, seq<Request>>, queues1: map<Sid, seq<Request>>,
                   writes: seq<Request>, writes1: seq<Request>, count: int, count1: int, notify: bool, notify1: bool, size: nat)
  {
    var sid := r.frame.sid;
    if |q| < size then
      !waits && queues1 == queues[sid := q + [r]] && writes1 == writes && count1 == count + 1 && notify1
    else if r.frame.cmd == CMD_SYN then
      waits && queues1 == queues[sid := q] && writes1 == writes && count1 == count && notify1 == notify
    else
      && q != [] && queues1 == queues[sid := q[1..] + [r]] && count1 == count
      && waits == (|writes| >= 32) && writes1 == (if waits then writes else writes + [q[0]]) && notify1 == (notify || !waits)
  }

  class Loop {
    const queueSize: nat
    var streamQueues: map<Sid, seq<Request>>
    var writes: seq<Request>
    var reqCount: int
    var writeNotify: bool
    ghost var popped: seq<Request>
    ghost var held: seq<Request>

    ghost function Abs(disp: Dispatcher, sched: Scheduler, wire: seq<Request>, submitted: seq<Request>): State
      reads this
    {
      State(streamQueues, writes, wire, disp, sched, writeNotify, reqCount, submitted, popped, held)
    }

    constructor (size: nat)
      ensures queueSize == size && Abs(Idle, Waiting, [], []) == INIT
    {
      queueSize := size;
      streamQueues, writes, reqCount, writeNotify := map[], [], 0, false;
      popped, held := [], [];
    }

    /** The case of the select that takes a request. It ends with the turn, or where the goroutine
        has to wait: for room in writes, or with a SYN for room in its queue. */
    method Dispatch(request: Request, ghost sched: Scheduler, ghost wire: seq<Request>, ghost submitted: seq<Request>)
      returns (waits: bool, ghost at: Dispatcher)
      requires queueSize >= 1
      requires forall sid :: sid in streamQueues ==> |streamQueues[sid]| <= queueSize
      modifies this
      ensures Abs(at, sched, wire, submitted) == Alone(old(Abs(Received(request), sched, wire, submitted)), queueSize)
      ensures waits == !at.Idle?
      ensures forall sid :: sid in streamQueues ==> |streamQueues[sid]| <= queueSize
      ensures var f, sid := request.frame, request.frame.sid;
              if f.cmd == CMD_SYN || f.cmd == CMD_PSH || (f.cmd == CMD_FIN && sid in old(streamQueues)) then
                Queued(request, waits, if sid in old(streamQueues) then old(streamQueues)[sid] else [],
                       old(streamQueues), streamQueues, old(writes), writes, old(reqCount), reqCount,
                       old(writeNotify), writeNotify, queueSize)
              else
                && streamQueues == old(streamQueues) && reqCount == old(reqCount) && waits == (|old(writes)| >= 32)
                && writes == (if waits then old(writes) else old(writes) + [request])
                && writeNotify == (old(writeNotify) || (!waits && f.cmd == CMD_FIN))
    {
      ghost var s := Abs(Received(request), sched, wire, submitted);
      AloneStep(s, queueSize);
      ghost var s1 := Next(s, DoLookup, queueSize);
      hide Alone, Without, Lane;
      var f := request.frame;
      if f.cmd == CMD_SYN || f.cmd == CMD_PSH {
        if f.sid !in streamQueues {
          streamQueues := streamQueues[f.sid := []];
        }
        waits, at := Queue(request, s1);
      } else if f.cmd == CMD_FIN && f.sid in streamQueues {
        waits, at := Queue(request, s1);
      } else {
        waits, at := Send(request, s1);
      }
    }

    /** Past the queues. */
    method Send(request: Request, ghost s: State) returns (waits: bool, ghost at: Dispatcher)
      requires s.disp == Direct(request)
      requires s == Abs(s.disp, s.sched, s.wire, s.submitted).(popped := popped + [request], held := held + [request])
      modifies this
      ensures Abs(at, s.sched, s.wire, s.submitted) == Alone(s, queueSize) && waits == !at.Idle?
      ensures streamQueues == old(streamQueues) && reqCount == old(reqCount) && waits == (|old(writes)| >= 32)
      ensures writes == if waits then old(writes) else old(writes) + [request]
      ensures writeNotify == (old(writeNotify) || (!waits && request.frame.cmd == CMD_FIN))
    {
      hide Alone, Without, Lane;
      popped, held := popped + [request], held + [request];
      waits, at := true, Direct(request);
      if |writes| >= WRITES_CAPACITY {
        AloneWaits(s, queueSize);
        return;
      }
      DirectAlone(s, queueSize);
      held := Without(held, request);
      writes := writes + [request];
      if request.frame.cmd == CMD_FIN {
        writeNotify := true;
      }
      waits, at := false, Idle;
    }

    /** Into the stream's queue, or through it when it is full. */
    method Queue(request: Request, ghost s: State) returns (waits: bool, ghost at: Dispatcher)
      requires queueSize >= 1
      requires s == Abs(Enqueue(request), s.sched, s.wire, s.submitted) && request.frame.sid in streamQueues
      requires forall sid :: sid in streamQueues ==> |streamQueues[sid]| <= queueSize
      modifies this
      ensures Abs(at, s.sched, s.wire, s.submitted) == Alone(s, queueSize) && waits == !at.Idle?
      ensures Queued(request, waits, old(streamQueues)[request.frame.sid], old(streamQueues), streamQueues, old(writes), writes,
                     old(reqCount), reqCount, old(writeNotify), writeNotify, queueSize)
      ensures forall sid :: sid in streamQueues ==> |streamQueues[sid]| <= queueSize
    {
      hide Alone, Without, Lane;
      var sid := request.frame.sid;
      var queue := streamQueues[sid];
      if |queue| < queueSize {
        EnqueueAlone(s, queueSize);
        streamQueues := streamQueues[sid := queue + [request]];
        reqCount := reqCount + 1;
      } else if request.frame.cmd == CMD_SYN {
        AloneWaits(s, queueSize);
        return true, Enqueue(request);
      } else {
        ExchangeAlone(s, queueSize);
        var request2 := queue[0];
        streamQueues := streamQueues[sid := queue[1..] + [request]];
        popped, held := popped + [request2], held + [request2];
        if |writes| >= WRITES_CAPACITY {
          return true, Forward(request2);
        }
        held := Without(held, request2);
        writes := writes + [request2];
      }
      writeNotify := true;
      waits, at := false, Idle;
    }
  }
}
