/** What becomes of a request that is submitted on a stream after its FIN. A Write that races with
    Close can do that: its select may choose the session's channel although the stream is closed. */
module SendRace {
  import opened Sids
  import opened SmuxFrame
  import opened SendLoop
  import opened SendInvariant
  import opened SendProgress
  import opened SendStretches

  /** sendLoop as it is, where late says whether callers may submit after a FIN. */
  ghost predicate Allowed(s: State, a: Action, size: nat, late: bool) {
    if a.Submit? then s.disp.Idle? && (MaySubmit(s, a.request) || (late && a.request !in s.submitted))
    else Enabled(s, a, size)
  }

  ghost function After(s: State, a: Action, size: nat, late: bool): State
    requires Allowed(s, a, size, late)
  {
    if a.Submit? then s.(disp := Received(a.request), submitted := s.submitted + [a.request])
    else Next(s, a, size)
  }

  ghost predicate RunLate(s: State, actions: seq<Action>, t: State, size: nat, late: bool)
    decreases |actions|
  {
    if actions == [] then s == t
    else Allowed(s, actions[0], size, late) && RunLate(After(s, actions[0], size, late), actions[1..], t, size, late)
  }

  ghost predicate ReachableLate(s: State, size: nat, late: bool) {
    exists actions :: RunLate(INIT, actions, s, size, late)
  }

  lemma {:induction false} InTime(s: State, actions: seq<Action>, t: State, size: nat)
    requires RunLate(s, actions, t, size, false)
    ensures Run(s, actions, t, size)
    decreases |actions|
  {
    hide MaySubmit, Lane, Without, Sorted;
    if actions != [] {
      InTime(After(s, actions[0], size, false), actions[1..], t, size);
    }
  }

  // A request that is lost.

  lemma {:induction false} RunLateExtend(s: State, actions: seq<Action>, t: State, a: Action, size: nat)
    requires RunLate(s, actions, t, size, true) && Allowed(t, a, size, true)
    ensures RunLate(s, actions + [a], After(t, a, size, true), size, true)
    decreases |actions|
  {
    hide Allowed, After;
    if actions == [] {
      assert (actions + [a])[1..] == [];
      assert RunLate(After(t, a, size, true), [], After(t, a, size, true), size, true);
    } else {
      RunLateExtend(After(s, actions[0], size, true), actions[1..], t, a, size);
      assert (actions + [a])[1..] == actions[1..] + [a];
    }
  }

  lemma GoLate(s: State, a: Action, t: State, size: nat)
    requires ReachableLate(s, size, true) && Allowed(s, a, size, true) && After(s, a, size, true) == t
    ensures ReachableLate(t, size, true)
  {
    hide Allowed, After, RunLate;
    var actions :| RunLate(INIT, actions, s, size, true);
    RunLateExtend(INIT, actions, s, a, size);
  }

  lemma {:induction false} LiftLate(s: State, actions: seq<Action>, t: State, size: nat)
    requires ReachableLate(s, size, true) && Run(s, actions, t, size) && forall a :: a in actions ==> !a.Submit?
    ensures ReachableLate(t, size, true)
    decreases |actions|
  {
    hide Enabled, Next, ReachableLate;
    if actions != [] {
      assert actions[0] in actions && forall a :: a in actions[1..] ==> a in actions;
      GoLate(s, actions[0], Next(s, actions[0], size), size);
      LiftLate(Next(s, actions[0], size), actions[1..], t, size);
    }
  }

  lemma Lifted(s: State, t: State, size: nat)
    requires ReachableLate(s, size, true) && Silent(s, t, size)
    ensures ReachableLate(t, size, true)
  {
    hide Run, ReachableLate;
    var actions: seq<Action> :| Run(s, actions, t, size) && forall a :: a in actions ==> !a.Submit? && !a.Write?;
    LiftLate(s, actions, t, size);
  }

  const SID: Sid := 3
  const FIRST: Request := Request(NewFrame(CMD_PSH, SID), 0)
  const FIN: Request := Request(NewFrame(CMD_FIN, SID), 1)
  const LATE: Request := Request(NewFrame(CMD_PSH, SID), 2)

  /** The first request is written, and its queue is empty. */
  const BEGUN: State := State(map[SID := []], [], [FIRST], Idle, Waiting, false, 0, [FIRST], [FIRST], [])

  lemma SubmittedLate(s: State, r: Request, size: nat) returns (t: State)
    requires ReachableLate(s, size, true) && s.disp.Idle? && r !in s.submitted
    ensures ReachableLate(t, size, true) && t == s.(disp := Received(r), submitted := s.submitted + [r])
  {
    hide ReachableLate, MaySubmit;
    t := s.(disp := Received(r), submitted := s.submitted + [r]);
    GoLate(s, Submit(r), t, size);
  }

  lemma WroteLate(s: State, r: Request, size: nat) returns (t: State)
    requires ReachableLate(s, size, true) && s.out == [r]
    ensures ReachableLate(t, size, true) && t == s.(out := [], wire := s.wire + [r])
  {
    hide ReachableLate, Lane, Without, Sorted;
    t := s.(out := [], wire := s.wire + [r]);
    GoLate(s, Write, t, size);
  }

  lemma BegunReachable(size: nat)
    requires size >= 1
    ensures ReachableLate(BEGUN, size, true)
  {
    assert RunLate(INIT, [], INIT, size, true);
    assert Without([FIRST], FIRST) == [] && [] + [FIRST] == [FIRST];
    hide RunLate, ReachableLate, Lane, Without, Sorted, Silent;
    var s := SubmittedLate(INIT, FIRST, size);
    var u := Queued(s, FIRST, SID, [], size);
    Lifted(s, u, size);
    var v := Woken(u, SID, size);
    v := Popped(u, v, SID, FIRST, size);
    v := SentOn(u, v, FIRST, size);
    Lifted(u, v, size);
    var w := WroteLate(v, FIRST, size);
    u := Rested(w, size);
    Lifted(w, u, size);
    assert u == BEGUN;
  }

  /** The scheduler has received the FIN and is about to delete the queue. */
  const CLOSING: State :=
    State(map[SID := []], [], [FIRST], Idle, Retiring(FIN, []), false, 1, [FIRST, FIN], [FIRST, FIN], [FIN])

  lemma ClosingReachable(size: nat)
    requires size >= 1
    ensures ReachableLate(CLOSING, size, true)
  {
    BegunReachable(size);
    hide RunLate, ReachableLate, Lane, Without, Sorted, Silent;
    assert [FIRST] + [FIN] == [FIRST, FIN] && [] + [FIN] == [FIN];
    var s := SubmittedLate(BEGUN, FIN, size);
    var u := Queued(s, FIN, SID, [], size);
    Lifted(s, u, size);
    var v := Woken(u, SID, size);
    v := Popped(u, v, SID, FIN, size);
    Lifted(u, v, size);
    assert v == CLOSING;
  }

  /** The late request was in the queue that the scheduler deleted. */
  const LOST: State :=
    State(map[], [], [FIRST, FIN], Idle, Passing([]), true, 1, [FIRST, FIN, LATE], [FIRST, FIN], [])

  /** The late request is queued behind the FIN that the scheduler has in hand. */
  lemma LateQueued(size: nat) returns (t: State)
    requires size >= 1
    ensures ReachableLate(t, size, true)
    ensures t == CLOSING.(queues := map[SID := [LATE]], count := 2, notify := true, submitted := [FIRST, FIN, LATE])
  {
    ClosingReachable(size);
    hide RunLate, ReachableLate, Lane, Without, Sorted, Silent;
    assert [FIRST, FIN] + [LATE] == [FIRST, FIN, LATE] && [] + [LATE] == [LATE];
    var s := SubmittedLate(CLOSING, LATE, size);
    t := Queued(s, LATE, SID, [], size);
    Lifted(s, t, size);
  }

  lemma LostReachable(size: nat)
    requires size >= 1
    ensures ReachableLate(LOST, size, true)
  {
    assert Without([FIN], FIN) == [];
    hide RunLate, ReachableLate, Lane, Without, Sorted, Silent;
    var u := LateQueued(size);
    Still(u, size);
    var v := QueueGone(u, u, SID, FIN, size);
    v := SentOn(u, v, FIN, size);
    Lifted(u, v, size);
    assert [FIRST] + [FIN] == [FIRST, FIN];
    v := WroteLate(v, FIN, size);
    GoLate(v, Uncount, LOST, size);
  }

  /** It is nowhere. */
  lemma LostPlaces()
    ensures LATE in LOST.submitted && Places(LOST, LATE) == 0
  {
    hide Lane;
  }

  /** The calls that submit nothing after a FIN are necessary, and sufficient, for every submitted
      request to be in exactly one place in every reachable state. */
  lemma LossIff(size: nat, late: bool)
    requires size >= 1
    ensures (forall t, x :: ReachableLate(t, size, late) ==> Places(t, x) == if x in t.submitted then 1 else 0) <==> !late
  {
    if late {
      LostReachable(size);
      LostPlaces();
    } else {
      forall t, x | ReachableLate(t, size, late) ensures Places(t, x) == if x in t.submitted then 1 else 0 {
        hide Places;
        var actions :| RunLate(INIT, actions, t, size, late);
        InTime(INIT, actions, t, size);
        ExactlyOnce(actions, t, size, x);
      }
    }
    hide ReachableLate, Places;
  }

  // And the scheduler does not sleep again.

  /** reqCount is positive, and there is nothing that it counts. */
  predicate Spinning(s: State) {
    && s.queues == map[] && s.count > 0 && s.disp.Idle?
    && (s.sched.Checking? || s.sched.Listing? || s.sched == Passing([]))
  }

  /** Until there is a new submission the scheduler goes round and round. */
  lemma {:induction false} SpinsForever(s: State, actions: seq<Action>, t: State, size: nat)
    requires Spinning(s) && Run(s, actions, t, size) && forall a :: a in actions ==> !a.Submit?
    ensures Spinning(t) && !Quiescent(t, size)
    decreases |actions|
  {
    hide Lane, Without;
    if actions == [] {
      Restless(s, size);
    } else {
      assert actions[0] in actions && forall a :: a in actions[1..] ==> a in actions;
      SpinStep(s, actions[0], size);
      hide Spinning, Enabled, Next, Quiescent;
      SpinsForever(Next(s, actions[0], size), actions[1..], t, size);
    }
  }

  lemma SpinStep(s: State, a: Action, size: nat)
    requires Spinning(s) && Enabled(s, a, size) && !a.Submit?
    ensures Spinning(Next(s, a, size))
  {
    hide Lane, Without;
    NoneSorted(s.queues.Keys);
    hide Sorted;
  }

  lemma NoneSorted(sids: set<Sid>)
    ensures sids == {} ==> Sorted(sids) == []
  {
  }

  lemma Restless(s: State, size: nat)
    requires Spinning(s)
    ensures !Quiescent(s, size)
  {
    hide Lane, Without, Sorted;
    assert Enabled(s, if s.sched.Checking? then Check else if s.sched.Listing? then List else Pass, size);
  }

  /** After the loss sendLoop never comes to rest by itself. */
  lemma LostSpins(actions: seq<Action>, t: State, size: nat)
    requires Run(LOST, actions, t, size) && forall a :: a in actions ==> !a.Submit?
    ensures !Quiescent(t, size) && t.count > 0 && t.queues == map[]
  {
    hide Run, Quiescent;
    SpinsForever(LOST, actions, t, size);
  }
}
