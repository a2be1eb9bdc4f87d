/** Flow control of one stream of lib/smux: the receiving end asks the sending end to pause
    (FUL) and to resume (EMP). A step is one atomic operation or one critical section; whether
    the estimate guessBucket asks for a pause or a resume is an arbitrary choice. */
module Pause {
  import opened SmuxFrame
  import opened Sums

  type Tid = nat

  /** recvLoop in pushBytes. */
  datatype Pusher =
    | Ready
    | Written(n: nat)     // n bytes are in the buffer: before bucket + n
    | Pausing             // in sendPause, before the toggle of empflag
    | Full                // toggled: before writeFrame(FUL)

  /** A goroutine in Read. */
  datatype Reader =
    | Idle
    | Took(n: nat)        // before bucket - n
    | Resuming            // in sendResume, before the toggle of empflag
    | Empty               // toggled: before writeFrame(EMP)

  /** used is the stream's bucket. toggled and submitted are history: the commands in the order
      in which empflag changed, and in which they were handed to the session. delivered of the
      latter have reached the sending end, where fulflag is. */
  datatype State = State(
    buffer: nat, used: int, empflag: bool, fulflag: bool,
    pusher: Pusher, readers: map<Tid, Reader>,
    toggled: seq<Cmd>, submitted: seq<Cmd>, delivered: nat)

  datatype Action =
    | Push(n: nat) | Count(pause: bool) | TogglePause | SubmitFul
    | Take(t: Tid, n: nat) | Return(t: Tid, resume: bool) | ToggleResume(t: Tid) | SubmitEmp(t: Tid)
    | Deliver

  function At(s: State, t: Tid): Reader {
    if t in s.readers then s.readers[t] else Idle
  }

  predicate Enabled(s: State, a: Action, limit: nat) {
    match a
    case Push(n) => s.pusher.Ready?
    case Count(pause) => s.pusher.Written? && (s.used + s.pusher.n > limit ==> pause)
    case TogglePause => s.pusher.Pausing?
    case SubmitFul => s.pusher.Full?
    case Take(t, n) => At(s, t).Idle? && 0 < n <= s.buffer
    case Return(t, resume) => At(s, t).Took? && (s.used - At(s, t).n <= 0 ==> resume)
    case ToggleResume(t) => At(s, t).Resuming?
    case SubmitEmp(t) => At(s, t).Empty?
    case Deliver => s.delivered < |s.submitted|
  }

  function Next(s: State, a: Action, limit: nat): State
    requires Enabled(s, a, limit)
  {
    match a
    case Push(n) => s.(buffer := s.buffer + n, pusher := Written(n))
    case Count(pause) => s.(used := s.used + s.pusher.n, pusher := if pause then Pausing else Ready)
    case TogglePause =>
      if s.empflag then s.(empflag := false, toggled := s.toggled + [CMD_FUL], pusher := Full)
      else s.(pusher := Ready)
    case SubmitFul => s.(submitted := s.submitted + [CMD_FUL], pusher := Ready)
    case Take(t, n) => s.(buffer := s.buffer - n, readers := s.readers[t := Took(n)])
    case Return(t, resume) =>
      s.(used := s.used - At(s, t).n, readers := s.readers[t := if resume then Resuming else Idle])
    case ToggleResume(t) =>
      if !s.empflag then s.(empflag := true, toggled := s.toggled + [CMD_EMP], readers := s.readers[t := Empty])
      else s.(readers := s.readers[t := Idle])
    case SubmitEmp(t) => s.(submitted := s.submitted + [CMD_EMP], readers := s.readers[t := Idle])
    case Deliver => s.(fulflag := s.submitted[s.delivered] == CMD_FUL, delivered := s.delivered + 1)
  }

  const INIT: State := State(0, 0, true, false, Ready, map[], [], [], 0)

  predicate Run(s: State, actions: seq<Action>, t: State, limit: nat)
    decreases |actions|
  {
    if actions == [] then s == t
    else Enabled(s, actions[0], limit) && Run(Next(s, actions[0], limit), actions[1..], t, limit)
  }

  // The flags.

  /** FUL and EMP alternate, and the last one is what empflag says. */
  predicate Alternates(s: State) {
    && (forall i :: 0 <= i < |s.toggled| ==> s.toggled[i] == if i % 2 == 0 then CMD_FUL else CMD_EMP)
    && s.empflag == (|s.toggled| % 2 == 0)
  }

  /** fulflag is what the last delivered command says. */
  predicate Applied(s: State) {
    s.delivered <= |s.submitted| && s.fulflag == (s.delivered > 0 && s.submitted[s.delivered - 1] == CMD_FUL)
  }

  /** The commands were submitted in the order of the toggles. */
  predicate InStep(s: State) {
    s.submitted <= s.toggled
  }

  function Weight(r: Reader): nat {
    if r.Empty? then 1 else 0
  }

  ghost function Waiting(readers: map<Tid, Reader>): map<Tid, nat> {
    map t | t in readers :: Weight(readers[t])
  }

  /** Every toggle is submitted or its goroutine is about to do so. */
  ghost predicate Pending(s: State) {
    |s.toggled| == |s.submitted| + (if s.pusher.Full? then 1 else 0) + Sum(Waiting(s.readers))
  }

  ghost predicate Flags(s: State) {
    Alternates(s) && Applied(s) && Pending(s)
  }

  lemma ReaderChanges(readers: map<Tid, Reader>, t: Tid, r: Reader)
    ensures Sum(Waiting(readers[t := r])) ==
      Sum(Waiting(readers)) - (if t in readers then Weight(readers[t]) else 0) + Weight(r)
  {
    hide Sum;
    assert Waiting(readers[t := r]) == Waiting(readers)[t := Weight(r)];
    SumSet(Waiting(readers), t, Weight(r));
  }

  lemma FlagsStep(s: State, a: Action, limit: nat)
    requires Flags(s) && Enabled(s, a, limit)
    ensures Flags(Next(s, a, limit))
  {
    hide Sum, Waiting;
    var n := Next(s, a, limit);
    if a.Take? || a.Return? || a.ToggleResume? || a.SubmitEmp? {
      ReaderChanges(s.readers, a.t, n.readers[a.t]);
    }
  }

  /** A goroutine submits although another one changed the flag before it did. */
  predicate OutOfTurn(s: State, a: Action) {
    && (a.SubmitFul? || a.SubmitEmp?)
    && !(|s.submitted| < |s.toggled| && s.toggled[|s.submitted|] == if a.SubmitFul? then CMD_FUL else CMD_EMP)
  }

  predicate TakesTurns(s: State, actions: seq<Action>, limit: nat)
    decreases |actions|
  {
    actions == [] ||
    (Enabled(s, actions[0], limit) && !OutOfTurn(s, actions[0]) &&
     TakesTurns(Next(s, actions[0], limit), actions[1..], limit))
  }

  lemma InStepStep(s: State, a: Action, limit: nat)
    requires Flags(s) && Enabled(s, a, limit)
    ensures InStep(Next(s, a, limit)) <==> InStep(s) && !OutOfTurn(s, a)
  {
    if a.SubmitEmp? {
      EmptyCounts(s.readers, a.t);
    }
    hide Sum, Waiting, Alternates, Applied;
  }

  lemma EmptyCounts(readers: map<Tid, Reader>, t: Tid)
    requires t in readers && readers[t].Empty?
    ensures Sum(Waiting(readers)) >= 1
  {
    SumOne(Waiting(readers), t);
  }

  lemma {:induction false} InStepRun(s: State, actions: seq<Action>, t: State, limit: nat)
    requires Flags(s) && Run(s, actions, t, limit)
    ensures Flags(t)
    ensures InStep(t) <==> InStep(s) && TakesTurns(s, actions, limit)
    decreases |actions|
  {
    hide Flags, InStep, Enabled, Next, OutOfTurn;
    if actions != [] {
      FlagsStep(s, actions[0], limit);
      InStepStep(s, actions[0], limit);
      InStepRun(Next(s, actions[0], limit), actions[1..], t, limit);
    }
  }

  ghost predicate NobodyHas(s: State) {
    !s.pusher.Full? && forall t: Tid :: !At(s, t).Empty?
  }

  /** When nobody holds a command back, all toggles were submitted. */
  lemma AllSubmitted(s: State)
    requires Flags(s) && NobodyHas(s)
    ensures |s.submitted| == |s.toggled|
  {
    forall t | t in s.readers ensures Waiting(s.readers)[t] == 0 {
      assert !At(s, t).Empty?;
    }
    SumZero(Waiting(s.readers));
  }

  /** The value of fulflag once all that is in flight is delivered. */
  predicate Eventually(s: State) {
    s.submitted != [] && s.submitted[|s.submitted| - 1] == CMD_FUL
  }

  /** Commands that are in step alternate, each the opposite of what it meets, and when nobody
      holds one back their effect is that fulflag is 1 - empflag. */
  lemma InStepAgrees(s: State)
    requires Flags(s) && InStep(s)
    ensures forall i :: s.delivered <= i < |s.submitted| ==>
              (s.submitted[i] == CMD_FUL) != (if i == s.delivered then s.fulflag else s.submitted[i - 1] == CMD_FUL)
    ensures NobodyHas(s) ==> Eventually(s) == !s.empflag
    ensures NobodyHas(s) && s.delivered == |s.submitted| ==> s.fulflag == !s.empflag
  {
    assert forall i :: 0 <= i < |s.submitted| ==> s.submitted[i] == s.toggled[i];
    if NobodyHas(s) {
      forall t | t in s.readers ensures Waiting(s.readers)[t] == 0 {
        assert !At(s, t).Empty?;
      }
      SumZero(Waiting(s.readers));
    }
    hide Sum, Waiting;
  }

  /** In every run the commands reach the sending end in the order of the toggles if and only if
      no goroutine submits its command out of turn. */
  lemma PauseOrderIff(actions: seq<Action>, t: State, limit: nat)
    requires Run(INIT, actions, t, limit)
    ensures InStep(t) <==> TakesTurns(INIT, actions, limit)
  {
    InitFlags();
    hide Run, TakesTurns, Flags, InStep;
    InStepRun(INIT, actions, t, limit);
  }

  lemma InitFlags()
    ensures Flags(INIT) && InStep(INIT)
  {
    assert Waiting(INIT.readers) == map[];
  }

  // The level.

  function Tokens(r: Reader): nat {
    match r
    case Took(n) => n
    case _ => 0
  }

  ghost function Held(readers: map<Tid, Reader>): map<Tid, nat> {
    map t | t in readers :: Tokens(readers[t])
  }

  function Uncounted(p: Pusher): nat {
    match p
    case Written(n) => n
    case _ => 0
  }

  /** The stream's bucket counts the bytes that are buffered or were just read. */
  ghost predicate Level(s: State) {
    s.used == s.buffer + Sum(Held(s.readers)) - Uncounted(s.pusher)
  }

  lemma LevelStep(s: State, a: Action, limit: nat)
    requires Level(s) && Enabled(s, a, limit)
    ensures Level(Next(s, a, limit))
  {
    hide Sum;
    var n := Next(s, a, limit);
    if a.Take? || a.Return? || a.ToggleResume? || a.SubmitEmp? {
      assert Held(n.readers) == Held(s.readers)[a.t := Tokens(n.readers[a.t])];
      SumSet(Held(s.readers), a.t, Tokens(n.readers[a.t]));
    }
  }

  ghost predicate ResumeComing(s: State) {
    exists t: Tid :: At(s, t).Resuming?
  }

  /** The stream is paused only while there is something left to read, or is about to resume. */
  ghost predicate Lively(s: State) {
    !s.empflag ==> s.used > 0 || ResumeComing(s)
  }

  /** The pause takes effect when all is read already and nobody is about to resume. */
  ghost predicate LatePause(s: State, a: Action) {
    a.TogglePause? && s.empflag && s.used <= 0 && !ResumeComing(s)
  }

  lemma ResumeStays(s: State, a: Action, limit: nat)
    requires Enabled(s, a, limit) && ResumeComing(s)
    ensures ResumeComing(Next(s, a, limit)) || (a.ToggleResume? && Next(s, a, limit).empflag)
  {
    var n := Next(s, a, limit);
    var t: Tid :| At(s, t).Resuming?;
    assert At(n, t).Resuming? || a == ToggleResume(t);
  }

  /** A late pause is the one way to stall. */
  lemma LivelyIff(s: State, a: Action, limit: nat)
    requires Lively(s) && Enabled(s, a, limit)
    ensures Lively(Next(s, a, limit)) <==> !LatePause(s, a)
  {
    var n := Next(s, a, limit);
    if ResumeComing(s) {
      ResumeStays(s, a, limit);
    }
    if a.Return? && a.resume {
      assert At(n, a.t).Resuming?;
    }
    if LatePause(s, a) {
      assert forall t: Tid :: At(n, t) == At(s, t);
    }
  }

  /** No payload is empty, and no reader gives tokens back between the push of a payload and the
      toggle that follows. */
  predicate Prompt(s: State, a: Action) {
    (a.Push? ==> a.n > 0) && (a.Return? ==> s.pusher.Ready? || s.pusher.Full?)
  }

  predicate AllPrompt(s: State, actions: seq<Action>, limit: nat)
    decreases |actions|
  {
    actions == [] ||
    (Enabled(s, actions[0], limit) && Prompt(s, actions[0]) &&
     AllPrompt(Next(s, actions[0], limit), actions[1..], limit))
  }

  ghost predicate Steady(s: State) {
    Level(s) && Lively(s) && s.used >= 0 && (s.pusher.Pausing? ==> s.used > 0)
    && (s.pusher.Written? ==> s.pusher.n > 0)
  }

  lemma SteadyStep(s: State, a: Action, limit: nat)
    requires Steady(s) && Enabled(s, a, limit) && Prompt(s, a)
    ensures Steady(Next(s, a, limit))
  {
    LevelStep(s, a, limit);
    LivelyIff(s, a, limit);
    hide Lively, Sum, Held, ResumeComing;
  }

  lemma {:induction false} SteadyRun(s: State, actions: seq<Action>, t: State, limit: nat)
    requires Steady(s) && Run(s, actions, t, limit) && AllPrompt(s, actions, limit)
    ensures Steady(t)
    decreases |actions|
  {
    hide Steady, Enabled, Next, Prompt;
    if actions != [] {
      SteadyStep(s, actions[0], limit);
      SteadyRun(Next(s, actions[0], limit), actions[1..], t, limit);
    }
  }

  predicate AtRest(s: State) {
    s.pusher.Ready? && (forall t :: t in s.readers ==> s.readers[t].Idle?) && s.delivered == |s.submitted|
  }

  /** If pushing a payload and submitting a command are single steps, a stream that was read to
      the end never leaves its sender paused. */
  lemma DrainedResumes(actions: seq<Action>, t: State, limit: nat)
    requires Run(INIT, actions, t, limit) && AllPrompt(INIT, actions, limit) && TakesTurns(INIT, actions, limit)
    requires AtRest(t)
    ensures t.fulflag == !t.empflag && (t.fulflag ==> t.buffer > 0)
  {
    InitFlags();
    InitSteady();
    hide Run, TakesTurns, AllPrompt, Steady, Flags, InStep, NobodyHas;
    SteadyRun(INIT, actions, t, limit);
    RestLevel(t);
    InStepRun(INIT, actions, t, limit);
    InStepAgrees(t);
  }

  lemma InitSteady()
    ensures Steady(INIT)
  {
    assert Held(INIT.readers) == map[];
  }

  lemma RestLevel(t: State)
    requires Steady(t) && AtRest(t)
    ensures NobodyHas(t) && (!t.empflag ==> t.buffer > 0)
  {
    assert forall u :: u in t.readers ==> Held(t.readers)[u] == 0;
    SumZero(Held(t.readers));
    hide Sum, Held;
    assert forall u: Tid :: At(t, u).Idle?;
  }

  // What happens when the steps are not single.

  ghost predicate Reachable(s: State, limit: nat) {
    exists actions :: Run(INIT, actions, s, limit)
  }

  lemma {:induction false} RunExtend(s: State, actions: seq<Action>, t: State, a: Action, limit: nat)
    requires Run(s, actions, t, limit) && Enabled(t, a, limit)
    ensures Run(s, actions + [a], Next(t, a, limit), limit)
    decreases |actions|
  {
    hide Enabled, Next;
    if actions == [] {
      assert (actions + [a])[1..] == [];
      assert Run(Next(t, a, limit), [], Next(t, a, limit), limit);
    } else {
      RunExtend(Next(s, actions[0], limit), actions[1..], t, a, limit);
      assert (actions + [a])[1..] == actions[1..] + [a];
    }
  }

  lemma Reach(s: State, a: Action, t: State, limit: nat)
    requires Reachable(s, limit) && Enabled(s, a, limit) && Next(s, a, limit) == t
    ensures Reachable(t, limit)
  {
    hide Enabled, Next, Run;
    var actions :| Run(INIT, actions, s, limit);
    RunExtend(INIT, actions, s, a, limit);
  }

  const LIMIT: nat := 1
  const READER: Tid := 1

  /** Two bytes have arrived, one more than the limit, and recvLoop is in sendPause. */
  const OVER: State := INIT.(buffer := 2, used := 2, pusher := Pausing)

  lemma OverReachable()
    ensures Reachable(OVER, LIMIT)
  {
    assert Run(INIT, [], INIT, LIMIT);
    hide Run, Reachable;
    Reach(INIT, Push(2), INIT.(buffer := 2, pusher := Written(2)), LIMIT);
    Reach(INIT.(buffer := 2, pusher := Written(2)), Count(true), OVER, LIMIT);
  }

  /** A reader takes both bytes. */
  lemma Drained(s: State, t: State)
    requires Reachable(s, LIMIT) && s.buffer == 2 && s.used == 2 && s.readers == map[]
    requires t == s.(buffer := 0, used := 0, readers := map[READER := Resuming])
    ensures Reachable(t, LIMIT)
  {
    hide Run, Reachable;
    var s1 := s.(buffer := 0, readers := map[READER := Took(2)]);
    Reach(s, Take(READER, 2), s1, LIMIT);
    Reach(s1, Return(READER, true), t, LIMIT);
  }

  /** The reader is done before the flag is toggled: the sender is paused, everything was read,
      and no goroutine has anything left to do. */
  lemma StalledReachable() returns (t: State)
    ensures Reachable(t, LIMIT) && AtRest(t) && InStep(t) && t.fulflag && t.buffer == 0
  {
    OverReachable();
    hide Run, Reachable;
    var s1 := OVER.(buffer := 0, used := 0, readers := map[READER := Resuming]);
    Drained(OVER, s1);
    var s2 := s1.(readers := map[READER := Idle]);
    Reach(s1, ToggleResume(READER), s2, LIMIT);
    var s3 := s2.(empflag := false, toggled := [CMD_FUL], pusher := Full);
    Reach(s2, TogglePause, s3, LIMIT);
    t := ToSender(s3);
  }

  /** The only command is submitted and delivered. */
  lemma ToSender(s: State) returns (t: State)
    requires Reachable(s, LIMIT) && s.pusher.Full? && s.submitted == [] && s.delivered == 0
    ensures Reachable(t, LIMIT)
    ensures t == s.(submitted := [CMD_FUL], delivered := 1, fulflag := true, pusher := Ready)
  {
    hide Run, Reachable;
    var s1 := s.(submitted := [CMD_FUL], pusher := Ready);
    Reach(s, SubmitFul, s1, LIMIT);
    t := s1.(delivered := 1, fulflag := true);
    Reach(s1, Deliver, t, LIMIT);
  }

  /** Nothing but new data from the paused sender could end that. */
  lemma OnlyDataWakes(s: State, a: Action, limit: nat)
    requires AtRest(s) && s.buffer == 0 && Enabled(s, a, limit)
    ensures a.Push?
  {
  }

  /** The FUL is submitted after the EMP that follows it: the sender is paused although the
      receiver has asked it to resume. */
  lemma SwappedReachable() returns (t: State)
    ensures Reachable(t, LIMIT) && AtRest(t) && t.empflag && t.fulflag && t.buffer == 0 && !InStep(t)
  {
    OverReachable();
    hide Run, Reachable;
    var s1 := OVER.(empflag := false, toggled := [CMD_FUL], pusher := Full);
    Reach(OVER, TogglePause, s1, LIMIT);
    var s2 := s1.(buffer := 0, used := 0, readers := map[READER := Resuming]);
    Drained(s1, s2);
    var s3 := s2.(empflag := true, toggled := [CMD_FUL, CMD_EMP], readers := map[READER := Empty]);
    Reach(s2, ToggleResume(READER), s3, LIMIT);
    var s4 := s3.(submitted := [CMD_EMP], readers := map[READER := Idle]);
    Reach(s3, SubmitEmp(READER), s4, LIMIT);
    var s5 := s4.(submitted := [CMD_EMP, CMD_FUL], pusher := Ready);
    Reach(s4, SubmitFul, s5, LIMIT);
    Reach(s5, Deliver, s5.(delivered := 1), LIMIT);
    t := s5.(delivered := 2, fulflag := true);
    Reach(s5.(delivered := 1), Deliver, t, LIMIT);
  }
}
