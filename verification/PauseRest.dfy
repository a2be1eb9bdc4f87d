/** What a whole run of the flow control of one stream leaves behind: exactly which runs end
    with the sender paused although everything was read. */
module PauseRest {
  import opened SmuxFrame
  import opened Pause
  import opened Sums

  /** All that arrived was read, and the tokens were given back. */
  ghost predicate Drained(s: State) {
    s.buffer == 0 && forall u: Tid :: !At(s, u).Took?
  }

  predicate Brings(a: Action) {
    a.Push? && a.n > 0
  }

  predicate NoMore(actions: seq<Action>) {
    forall i :: 0 <= i < |actions| ==> !Brings(actions[i])
  }

  /** The run has a late pause after which no payload byte arrives. */
  ghost predicate LastPauseLate(s: State, actions: seq<Action>, limit: nat)
    decreases |actions|
  {
    actions != [] && Enabled(s, actions[0], limit) &&
    ((LatePause(s, actions[0]) && NoMore(actions[1..])) ||
     LastPauseLate(Next(s, actions[0], limit), actions[1..], limit))
  }

  /** Readers hold only what they took. */
  ghost predicate Took(s: State) {
    forall u: Tid :: At(s, u).Took? ==> At(s, u).n > 0
  }

  lemma TookStep(s: State, a: Action, limit: nat)
    requires Took(s) && Enabled(s, a, limit)
    ensures Took(Next(s, a, limit))
  {
    var n := Next(s, a, limit);
    assert forall u: Tid :: At(n, u) == At(s, u) || !At(n, u).Took? || a == Take(u, At(n, u).n);
  }

  // A late pause lasts.

  /** Paused, drained, and nobody is about to resume. */
  ghost predicate Asleep(s: State) {
    !s.empflag && Drained(s) && !ResumeComing(s) && Uncounted(s.pusher) == 0
  }

  lemma LatePauseDrains(s: State, a: Action, limit: nat)
    requires Level(s) && Took(s) && Enabled(s, a, limit) && LatePause(s, a)
    ensures Asleep(Next(s, a, limit))
  {
    var n := Next(s, a, limit);
    forall u: Tid ensures !At(s, u).Took? {
      if At(s, u).Took? {
        SumOne(Held(s.readers), u);
      }
    }
    hide Sum, Held;
    assert forall u: Tid :: At(n, u) == At(s, u);
  }

  lemma AsleepStep(s: State, a: Action, limit: nat)
    requires Asleep(s) && Enabled(s, a, limit) && !Brings(a)
    ensures Asleep(Next(s, a, limit))
  {
    var n := Next(s, a, limit);
    assert forall u: Tid :: At(n, u) == At(s, u) || At(n, u).Idle?;
  }

  lemma {:induction false} AsleepRun(s: State, actions: seq<Action>, t: State, limit: nat)
    requires Asleep(s) && Run(s, actions, t, limit) && NoMore(actions)
    ensures Asleep(t)
    decreases |actions|
  {
    hide Asleep, Enabled, Next, Brings;
    if actions != [] {
      AsleepStep(s, actions[0], limit);
      AsleepRun(Next(s, actions[0], limit), actions[1..], t, limit);
    }
  }

  lemma {:induction false} LateStalls(s: State, actions: seq<Action>, t: State, limit: nat)
    requires Level(s) && Took(s) && Run(s, actions, t, limit) && LastPauseLate(s, actions, limit)
    ensures Asleep(t)
    decreases |actions|
  {
    hide Asleep, Enabled, Next, LatePause, NoMore, Level, Took;
    var a, n := actions[0], Next(s, actions[0], limit);
    LevelStep(s, a, limit);
    TookStep(s, a, limit);
    if LatePause(s, a) && NoMore(actions[1..]) {
      LatePauseDrains(s, a, limit);
      AsleepRun(n, actions[1..], t, limit);
    } else {
      LateStalls(n, actions[1..], t, limit);
    }
  }

  // Nothing else stalls.

  /** A drained stream that is stalled after a step was so before, or the step was a late pause. */
  lemma StalledBefore(s: State, a: Action, limit: nat)
    requires Enabled(s, a, limit) && !Lively(Next(s, a, limit)) && Drained(Next(s, a, limit))
    ensures LatePause(s, a) || (!Lively(s) && Drained(s) && !Brings(a))
  {
    var n := Next(s, a, limit);
    if Lively(s) {
      LivelyIff(s, a, limit);
    } else {
      var t := if a.Take? || a.Return? then a.t else 0;
      assert !At(n, t).Took? && !At(n, t).Resuming?;
      assert forall u: Tid :: At(s, u).Took? ==> At(n, u) == At(s, u);
    }
  }

  lemma {:induction false} StalledWasLate(s: State, actions: seq<Action>, t: State, limit: nat)
    requires Run(s, actions, t, limit) && !Lively(t) && Drained(t)
    ensures LastPauseLate(s, actions, limit) || (!Lively(s) && Drained(s) && NoMore(actions))
    decreases |actions|
  {
    hide Lively, Drained, Enabled, Next, LatePause, Brings;
    if actions != [] {
      StalledWasLate(Next(s, actions[0], limit), actions[1..], t, limit);
      if NoMore(actions[1..]) && !LastPauseLate(s, actions, limit) {
        StalledBefore(s, actions[0], limit);
        assert actions == [actions[0]] + actions[1..];
      }
    }
  }

  /** At rest, a stream is not lively exactly if it is paused and empty. */
  lemma RestIdle(t: State)
    requires Level(t) && AtRest(t)
    ensures NobodyHas(t) && (!Lively(t) <==> !t.empflag && t.buffer == 0) && (t.buffer == 0 ==> Drained(t))
  {
    assert forall u :: u in t.readers ==> Held(t.readers)[u] == 0;
    SumZero(Held(t.readers));
    hide Sum, Held;
    assert forall u: Tid :: At(t, u).Idle?;
  }

  lemma {:induction false} LevelRun(s: State, actions: seq<Action>, t: State, limit: nat)
    requires Level(s) && Run(s, actions, t, limit)
    ensures Level(t)
    decreases |actions|
  {
    hide Level, Enabled, Next;
    if actions != [] {
      LevelStep(s, actions[0], limit);
      LevelRun(Next(s, actions[0], limit), actions[1..], t, limit);
    }
  }

  lemma InitLevel()
    ensures Level(INIT) && Took(INIT) && Lively(INIT)
  {
    assert Held(INIT.readers) == map[];
  }

  /** Every run that comes to rest, read to the end: the receiving end has it paused if and only if
      it paused late, when all was read and nobody was about to resume, and no byte arrived
      afterwards. The sender is paused exactly if the command submitted last is FUL, and agrees
      with the receiver exactly if that is the command of the last toggle - as it is when the
      commands are submitted in turn. */
  lemma StalledIff(actions: seq<Action>, t: State, limit: nat)
    requires Run(INIT, actions, t, limit) && AtRest(t)
    ensures !t.empflag && t.buffer == 0 <==> LastPauseLate(INIT, actions, limit)
    ensures t.fulflag <==> Eventually(t)
    ensures t.fulflag == !t.empflag <==> LastIsLast(t)
    ensures TakesTurns(INIT, actions, limit) ==> LastIsLast(t)
  {
    InitFlags();
    InitLevel();
    hide Run, TakesTurns, LastPauseLate, Level, Took, Flags, InStep, NobodyHas, Lively, Drained, AtRest, LastIsLast, Eventually;
    LevelRun(INIT, actions, t, limit);
    RestIdle(t);
    InStepRun(INIT, actions, t, limit);
    RestFlags(t);
    if LastPauseLate(INIT, actions, limit) {
      LateStalls(INIT, actions, t, limit);
      AsleepEmpty(t);
    } else if !t.empflag && t.buffer == 0 {
      StalledWasLate(INIT, actions, t, limit);
    }
  }

  lemma AsleepEmpty(t: State)
    requires Asleep(t)
    ensures !t.empflag && t.buffer == 0
  {
  }

  /** The command submitted last is that of the last toggle. */
  predicate LastIsLast(s: State) {
    && |s.submitted| == |s.toggled|
    && (s.submitted != [] ==>
          (s.submitted[|s.submitted| - 1] == CMD_FUL <==> s.toggled[|s.toggled| - 1] == CMD_FUL))
  }

  lemma RestFlags(t: State)
    requires Flags(t) && AtRest(t) && NobodyHas(t)
    ensures t.fulflag <==> Eventually(t)
    ensures t.fulflag == !t.empflag <==> LastIsLast(t)
    ensures InStep(t) ==> LastIsLast(t)
  {
    AllSubmitted(t);
    hide Sum, Waiting;
  }
}
