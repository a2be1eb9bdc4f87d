/** Stretches of runs of sendLoop in which nothing is submitted and nothing written. */
module SendStretches {
  import opened Sids
  import opened SmuxFrame
  import opened SendLoop
  import opened SendHazards

  /** From s, sendLoop comes to t by steps that neither take a request nor write. */
  ghost predicate Silent(s: State, t: State, size: nat) {
    exists actions: seq<Action> :: Run(s, actions, t, size) && forall a :: a in actions ==> !a.Submit? && !a.Write?
  }

  lemma Still(s: State, size: nat)
    ensures Silent(s, s, size)
  {
    assert Run(s, [], s, size);
  }

  lemma Hop(s: State, t: State, a: Action, u: State, size: nat)
    requires Silent(s, t, size) && !a.Submit? && !a.Write?
    requires Enabled(t, a, size) && Next(t, a, size) == u
    ensures Silent(s, u, size)
  {
    hide Enabled, Next, Run;
    var actions: seq<Action> :| Run(s, actions, t, size) && forall b :: b in actions ==> !b.Submit? && !b.Write?;
    RunExtend(s, actions, t, a, size);
    assert forall b :: b in actions + [a] ==> !b.Submit? && !b.Write?;
  }

  // Stretches of a run.

  /** The dispatcher queues the request that it has received. */
  lemma Queued(s: State, r: Request, sid: Sid, q: seq<Request>, size: nat) returns (t: State)
    requires s.disp == Received(r) && r.frame.sid == sid && |q| < size
    requires r.frame.cmd == CMD_SYN || r.frame.cmd == CMD_PSH || (IsFin(r) && sid in s.queues)
    requires if sid in s.queues then s.queues[sid] == q else q == []
    ensures Silent(s, t, size)
    ensures t == s.(queues := s.queues[sid := q + [r]], count := s.count + 1, disp := Idle, notify := true)
  {
    Still(s, size);
    hide Silent, Lane, Without, Sorted;
    var s1 := s.(disp := Enqueue(r), queues := if sid in s.queues then s.queues else s.queues[sid := []]);
    Hop(s, s, DoLookup, s1, size);
    var s2 := s.(disp := Count, queues := s.queues[sid := q + [r]]);
    Hop(s, s1, DoEnqueue, s2, size);
    var s3 := s2.(disp := Signal, count := s.count + 1);
    Hop(s, s2, DoCount, s3, size);
    t := s3.(disp := Idle, notify := true);
    Hop(s, s3, DoSignal, t, size);
  }

  /** The scheduler wakes up and comes to the one queue there is. */
  lemma Woken(s: State, sid: Sid, size: nat) returns (t: State)
    requires s.sched.Waiting? && s.notify && s.count > 0 && s.queues.Keys == {sid}
    ensures Silent(s, t, size) && t == s.(notify := false, sched := Popping(sid, []))
  {
    SortedUnique(Sorted({sid}), [sid]);
    Still(s, size);
    hide Silent, Lane, Without, Sorted;
    var u := s.(notify := false);
    Hop(s, s, Wake, u.(sched := Checking), size);
    Hop(s, u.(sched := Checking), Check, u.(sched := Listing), size);
    Hop(s, u.(sched := Listing), List, u.(sched := Passing([sid])), size);
    t := u.(sched := Popping(sid, []));
    Hop(s, u.(sched := Passing([sid])), Pass, t, size);
  }

  /** It receives the request there. */
  lemma Popped(o: State, s: State, sid: Sid, r: Request, size: nat) returns (t: State)
    requires Silent(o, s, size) && s.sched == Popping(sid, []) && s.queues == map[sid := [r]]
    ensures Silent(o, t, size)
    ensures t == s.(popped := s.popped + [r], held := s.held + [r], queues := map[sid := []],
                    sched := if IsFin(r) then Retiring(r, []) else Sending(r, []))
  {
    hide Silent, Lane, Without, Sorted;
    assert [r][1..] == [];
    t := s.(popped := s.popped + [r], held := s.held + [r], queues := map[sid := []],
            sched := if IsFin(r) then Retiring(r, []) else Sending(r, []));
    Hop(o, s, Pop, t, size);
  }

  /** After a FIN the queue is deleted. */
  lemma QueueGone(o: State, s: State, sid: Sid, r: Request, size: nat) returns (t: State)
    requires Silent(o, s, size) && s.sched == Retiring(r, []) && s.queues.Keys == {sid} && r.frame.sid == sid
    ensures Silent(o, t, size) && t == s.(queues := map[], sched := Sending(r, []))
  {
    hide Silent, Lane, Without, Sorted;
    assert s.queues - {sid} == map[];
    t := s.(queues := map[], sched := Sending(r, []));
    Hop(o, s, Retire, t, size);
  }

  /** The request in hand is sent. */
  lemma SentOn(o: State, s: State, r: Request, size: nat) returns (t: State)
    requires Silent(o, s, size) && s.sched == Sending(r, []) && s.out == []
    ensures Silent(o, t, size)
    ensures t == s.(sched := Uncounting([]), out := [r], held := Without(s.held, r))
  {
    hide Silent, Lane, Without, Sorted;
    assert [] + [r] == [r];
    t := s.(sched := Uncounting([]), out := [r], held := Without(s.held, r));
    Hop(o, s, Send, t, size);
  }

  /** Nothing is left to send. */
  lemma Rested(s: State, size: nat) returns (t: State)
    requires s.sched == Uncounting([]) && s.count == 1
    ensures Silent(s, t, size) && t == s.(sched := Waiting, count := 0)
  {
    Still(s, size);
    hide Silent, Lane, Without, Sorted;
    var u := s.(count := 0);
    Hop(s, s, Uncount, u.(sched := Passing([])), size);
    Hop(s, u.(sched := Passing([])), Pass, u.(sched := Checking), size);
    t := u.(sched := Waiting);
    Hop(s, u.(sched := Checking), Check, t, size);
  }

  /** The dispatcher finds the queue full. */
  lemma Refused(s: State, p: Request, r: Request, sid: Sid) returns (t: State)
    requires s.disp == Received(r) && IsFin(r) && r.frame.sid == sid && s.queues == map[sid := [p]]
    ensures Silent(s, t, 1) && t == s.(disp := Take(r))
  {
    Still(s, 1);
    hide Silent, Lane, Without, Sorted;
    Hop(s, s, DoLookup, s.(disp := Enqueue(r)), 1);
    t := s.(disp := Take(r));
    Hop(s, s.(disp := Enqueue(r)), DoEnqueue, t, 1);
  }

  /** It exchanges its request for the one there. */
  lemma Exchanged(o: State, s: State, p: Request, r: Request, sid: Sid) returns (t: State)
    requires Silent(o, s, 1) && s.disp == Take(r) && r.frame.sid == sid && s.queues == map[sid := [p]]
    ensures Silent(o, t, 1)
    ensures t == s.(queues := map[sid := [r]], disp := Forward(p), popped := s.popped + [p], held := s.held + [p])
  {
    hide Silent, Lane, Without, Sorted;
    var v := s.(popped := s.popped + [p], held := s.held + [p]);
    assert [p][1..] == [] && [] + [r] == [r];
    var s1 := v.(disp := Put(r, p), queues := map[sid := []]);
    Hop(o, s, DoTake, s1, 1);
    t := v.(disp := Forward(p), queues := map[sid := [r]]);
    Hop(o, s1, DoPut, t, 1);
  }
}
