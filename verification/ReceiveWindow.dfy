/** The token bucket of a session and the wake-up of recvLoop. */
module ReceiveWindow {
  import opened SmuxFrame
  import opened Sums
  import opened Receiver

  /** What the streams of the map hold. */
  ghost function Sizes(s: State): map<Sid, nat> {
    map sid | sid in s.open :: |Buffer(s, sid)|
  }

  /** Tokens a goroutine has taken from a stream and not given back yet. */
  function Tokens(w: Worker): nat {
    match w
    case Returning(n) => n
    case Refunding(_, n) => n
    case _ => 0
  }

  ghost function Held(workers: map<Tid, Worker>): map<Tid, nat> {
    map t | t in workers :: Tokens(workers[t])
  }

  /** Bytes charged to the bucket that are not in the buffer yet. */
  function Arriving(r: RecvLoop): nat {
    match r
    case Pushing(f) => |f.data|
    case _ => 0
  }

  /** No token is lost or made. */
  ghost predicate Balanced(s: State, max: int) {
    s.bucket + Sum(Sizes(s)) + Sum(Held(s.workers)) + Arriving(s.recv) == max
  }

  lemma WorkerChanges(s: State, t: Tid, w: Worker)
    ensures Sum(Held(s.workers[t := w])) == Sum(Held(s.workers)) - Tokens(At(s, t)) + Tokens(w)
  {
    hide Sum;
    assert Held(s.workers[t := w]) == Held(s.workers)[t := Tokens(w)];
    SumSet(Held(s.workers), t, Tokens(w));
  }

  /** The buffers change in one open stream at most. */
  lemma StreamChanges(s: State, n: State, sid: Sid)
    requires Emptied(s) && n.open == s.open
    requires forall x: Sid :: x != sid ==> Buffer(n, x) == Buffer(s, x)
    requires sid !in s.open ==> Buffer(n, sid) == []
    ensures Sum(Sizes(n)) == Sum(Sizes(s)) - |Buffer(s, sid)| + |Buffer(n, sid)|
  {
    hide Sum;
    if sid in s.open {
      assert Sizes(n) == Sizes(s)[sid := |Buffer(n, sid)|];
      SumSet(Sizes(s), sid, |Buffer(n, sid)|);
    } else {
      assert Sizes(n) == Sizes(s);
    }
  }

  /** An empty stream enters or leaves the map. */
  lemma MapChanges(s: State, n: State, sid: Sid)
    requires Emptied(s) && Buffer(s, sid) == []
    requires forall x: Sid :: Buffer(n, x) == Buffer(s, x)
    requires n.open == s.open + {sid} || n.open == s.open - {sid}
    ensures Sum(Sizes(n)) == Sum(Sizes(s))
  {
    hide Sum;
    if sid in s.open {
      SumPick(Sizes(s), sid);
      assert Sizes(n) == Sizes(s) || Sizes(n) == Sizes(s) - {sid};
    } else {
      SumSet(Sizes(s), sid, 0);
      assert Sizes(n) == Sizes(s) || Sizes(n) == Sizes(s)[sid := 0];
    }
  }

  predicate TouchesStream(a: Action) {
    a.Push? || a.Read? || a.Recycle?
  }

  predicate TouchesMap(s: State, a: Action) {
    a.OpenStream? || a.Delete? || (a.Handle? && s.recv.Locking? && s.recv.f.cmd == CMD_SYN && s.recv.f.sid !in s.open)
  }

  /** The stream a step is about. */
  function Target(s: State, a: Action, most: nat): Sid
    requires Enabled(s, a, most) && (TouchesStream(a) || TouchesMap(s, a))
  {
    match a
    case Push => s.recv.f.sid
    case Read(_, sid, _) => sid
    case Recycle(t) => At(s, t).sid
    case OpenStream(_, sid) => sid
    case Delete(t) => At(s, t).sid
    case _ => s.recv.f.sid
  }

  /** How many bytes a step adds to the stream it is about. */
  function Growth(s: State, a: Action, most: nat): int
    requires Enabled(s, a, most)
  {
    match a
    case Push => |s.recv.f.data|
    case Read(_, sid, max) => -(if max < |s.all[sid].buffer| then max else |s.all[sid].buffer|)
    case Recycle(t) => -|s.all[At(s, t).sid].buffer|
    case _ => 0
  }

  lemma SizesStep(s: State, a: Action, most: nat)
    requires Inv(s) && Enabled(s, a, most)
    ensures Sum(Sizes(Next(s, a, most))) == Sum(Sizes(s)) + Growth(s, a, most)
  {
    hide Sum, Sizes;
    var n := Next(s, a, most);
    if TouchesStream(a) {
      StreamChanges(s, n, Target(s, a, most));
    } else if TouchesMap(s, a) {
      if a.Delete? {
        assert HasLock(At(s, a.t));
      }
      MapChanges(s, n, Target(s, a, most));
    } else {
      UntouchedStreams(s, a, most);
    }
  }

  lemma UntouchedStreams(s: State, a: Action, most: nat)
    requires Enabled(s, a, most) && !TouchesStream(a) && !TouchesMap(s, a)
    ensures Sizes(Next(s, a, most)) == Sizes(s)
  {
  }

  predicate ByWorkerStep(a: Action) {
    !(a.LoadBucket? || a.LookDie? || a.Unpark? || a.Receive? || a.Fail? || a.Handle? || a.Charge? || a.Push?)
  }

  lemma HeldStep(s: State, a: Action, most: nat)
    requires Enabled(s, a, most)
    ensures var n := Next(s, a, most);
            if ByWorkerStep(a)
            then Sum(Held(n.workers)) == Sum(Held(s.workers)) - Tokens(At(s, a.t)) + Tokens(At(n, a.t))
            else n.workers == s.workers
  {
    hide Sum, Held, Tokens;
    var n := Next(s, a, most);
    if ByWorkerStep(a) {
      WorkerChanges(s, a.t, At(n, a.t));
      WorkerChanges(s, a.t, At(s, a.t));
      OneWorker(s, a, most);
    }
  }

  lemma OneWorker(s: State, a: Action, most: nat)
    requires Enabled(s, a, most) && ByWorkerStep(a)
    ensures var n := Next(s, a, most);
            n.workers == s.workers || n.workers == s.workers[a.t := At(n, a.t)]
  {
  }

  /** What a step takes from one place it puts into another. */
  lemma FlowStep(s: State, a: Action, most: nat)
    requires Enabled(s, a, most)
    ensures var n := Next(s, a, most);
            n.bucket + Arriving(n.recv) + Growth(s, a, most) +
            (if ByWorkerStep(a) then Tokens(At(n, a.t)) - Tokens(At(s, a.t)) else 0) == s.bucket + Arriving(s.recv)
  {
    if ByWorkerStep(a) {
      WorkerFlow(s, a, most);
    } else {
      RecvFlow(s, a, most);
    }
    hide Enabled, Next, Growth, Tokens, Arriving, At;
  }

  lemma WorkerFlow(s: State, a: Action, most: nat)
    requires Enabled(s, a, most) && ByWorkerStep(a)
    ensures var n := Next(s, a, most);
            n.bucket + Growth(s, a, most) + Tokens(At(n, a.t)) == s.bucket + Tokens(At(s, a.t)) && n.recv == s.recv
  {
  }

  lemma RecvFlow(s: State, a: Action, most: nat)
    requires Enabled(s, a, most) && !ByWorkerStep(a)
    ensures var n := Next(s, a, most);
            n.bucket + Arriving(n.recv) + Growth(s, a, most) == s.bucket + Arriving(s.recv)
  {
  }

  lemma BalancedStep(s: State, a: Action, most: nat, max: int)
    requires Inv(s) && Balanced(s, max) && Enabled(s, a, most)
    ensures Balanced(Next(s, a, most), max)
  {
    hide Inv, Enabled, Next, Sum, Sizes, Held, Tokens, Arriving, Growth, At;
    SizesStep(s, a, most);
    HeldStep(s, a, most);
    FlowStep(s, a, most);
  }

  /** While the session is open, recvLoop reads only with a positive bucket, so that one frame
      at most exceeds it. */
  ghost predicate Bounded(s: State, most: nat) {
    !s.closed ==>
      && s.bucket >= 1 - most
      && (s.recv.Reading? || s.recv.Locking? || s.recv.Charging? ==> s.bucket > 0)
      && (s.recv.Charging? ==> |s.recv.f.data| <= most)
  }

  lemma BoundedStep(s: State, a: Action, most: nat)
    requires most > 0 && Bounded(s, most) && Enabled(s, a, most)
    ensures Bounded(Next(s, a, most), most)
  {
  }

  // The wake-up of recvLoop.

  /** The worker is about to send to bucketNotify. */
  predicate WillPost(w: Worker) {
    w.Posting? || w.PostingLocked?
  }

  ghost predicate PostComing(s: State) {
    exists t: Tid :: WillPost(At(s, t))
  }

  ghost predicate CloserComing(s: State) {
    exists t: Tid :: At(s, t).Sweeping?
  }

  /** Between seeing an empty bucket and sleeping, and while it sleeps, recvLoop does not miss
      that there are tokens again or that the session was closed. */
  ghost predicate Wakes(s: State) {
    && (s.recv.CheckDie? || s.recv.Park? ==> s.bucket > 0 ==> s.notify || PostComing(s))
    && (s.recv.Park? && s.closed ==> s.notify || PostComing(s) || CloserComing(s))
  }

  /** A post that is coming comes, or has come. */
  lemma PostStays(s: State, a: Action, most: nat)
    requires Enabled(s, a, most) && PostComing(s) && !a.Unpark?
    ensures Next(s, a, most).notify || PostComing(Next(s, a, most))
  {
    var n := Next(s, a, most);
    var t: Tid :| WillPost(At(s, t));
    assert n.notify || WillPost(At(n, t));
  }

  lemma CloserStays(s: State, a: Action, most: nat)
    requires Enabled(s, a, most) && CloserComing(s) && !a.Unpark?
    ensures PostComing(Next(s, a, most)) || CloserComing(Next(s, a, most))
  {
    var n := Next(s, a, most);
    var t: Tid :| At(s, t).Sweeping?;
    assert At(n, t).Sweeping? || WillPost(At(n, t));
  }

  /** Whoever makes the bucket positive posts. */
  lemma RefillPosts(s: State, a: Action, most: nat)
    requires Enabled(s, a, most) && s.bucket <= 0 < Next(s, a, most).bucket
    ensures ByWorkerStep(a) && WillPost(At(Next(s, a, most), a.t))
  {
  }

  lemma NotifyStays(s: State, a: Action, most: nat)
    requires Enabled(s, a, most) && s.notify && !a.Unpark?
    ensures Next(s, a, most).notify
  {
  }

  /** Only recvLoop itself gets to where it goes to sleep, after it has looked. */
  lemma FallsAsleep(s: State, a: Action, most: nat)
    requires Enabled(s, a, most)
    ensures var n := Next(s, a, most);
            && (n.recv.CheckDie? && !s.recv.CheckDie? ==> n.bucket <= 0)
            && (n.recv.Park? && !s.recv.Park? ==> s.recv.CheckDie? && n.bucket == s.bucket && !n.closed)
            && (a.Unpark? ==> n.recv.Load?)
            && (n.closed && !s.closed ==> a.CloseSession? && At(n, a.t).Sweeping?)
  {
  }

  lemma WakesStep(s: State, a: Action, most: nat)
    requires Wakes(s) && Enabled(s, a, most)
    ensures Wakes(Next(s, a, most))
  {
    hide Enabled, Next, At, WillPost, PostComing, CloserComing;
    var n := Next(s, a, most);
    FallsAsleep(s, a, most);
    if !a.Unpark? {
      if s.notify {
        NotifyStays(s, a, most);
      }
      if PostComing(s) {
        PostStays(s, a, most);
      }
      if CloserComing(s) {
        CloserStays(s, a, most);
      }
      if s.bucket <= 0 < n.bucket {
        RefillPosts(s, a, most);
        Coming(n, a.t);
      }
      if n.closed && !s.closed {
        Coming(n, a.t);
      }
    }
  }

  lemma Coming(s: State, t: Tid)
    ensures WillPost(At(s, t)) ==> PostComing(s)
    ensures At(s, t).Sweeping? ==> CloserComing(s)
  {
  }

  // Over whole runs.

  ghost predicate Safe(s: State, most: nat, max: int) {
    Inv(s) && Balanced(s, max) && Bounded(s, most) && Wakes(s)
  }

  lemma InitSafe(most: nat, max: nat)
    requires max > 0 && most > 0
    ensures Safe(Init(max), most, max)
  {
    assert Sizes(Init(max)) == map[] && Held(map[]) == map[];
  }

  lemma {:induction false} SafeRun(s: State, actions: seq<Action>, t: State, most: nat, max: int)
    requires most > 0 && Safe(s, most, max) && Run(s, actions, t, most)
    ensures Safe(t, most, max)
    decreases |actions|
  {
    hide Inv, Balanced, Bounded, Wakes, Enabled, Next;
    if actions != [] {
      InvStep(s, actions[0], most);
      BalancedStep(s, actions[0], most, max);
      BoundedStep(s, actions[0], most);
      WakesStep(s, actions[0], most);
      SafeRun(Next(s, actions[0], most), actions[1..], t, most, max);
    }
  }

  ghost predicate Reachable(s: State, most: nat, max: nat) {
    exists actions :: Run(Init(max), actions, s, most)
  }

  lemma ReachableSafe(s: State, most: nat, max: nat)
    requires max > 0 && most > 0 && Reachable(s, most, max)
    ensures Safe(s, most, max)
  {
    hide Safe, Run;
    var actions :| Run(Init(max), actions, s, most);
    InitSafe(most, max);
    SafeRun(Init(max), actions, s, most, max);
  }

  /** In every reachable state bucket, buffers and what the goroutines hold add up. Until the
      session closes the bucket stays in range and the buffers exceed MaxReceiveBuffer by less
      than a frame. */
  lemma TokensConserved(s: State, most: nat, max: nat)
    requires max > 0 && most > 0 && Reachable(s, most, max)
    ensures s.bucket + Sum(Sizes(s)) + Sum(Held(s.workers)) + Arriving(s.recv) == max
    ensures !s.closed ==> 1 - most <= s.bucket <= max && Sum(Sizes(s)) <= max + most - 1
    ensures max < 0x8000_0000 && most <= MAX_PAYLOAD && !s.closed ==> -0x8000_0000 <= s.bucket < 0x8000_0000
  {
    hide Reachable;
    ReachableSafe(s, most, max);
  }

  /** recvLoop sleeps with tokens in the bucket, or in a closed session, only while a token is
      in the channel or somebody is about to post one. */
  lemma NoLostWakeup(s: State, most: nat, max: nat)
    requires max > 0 && most > 0 && Reachable(s, most, max) && s.recv.Park? && !s.notify
    ensures s.bucket > 0 ==> PostComing(s)
    ensures s.closed ==> PostComing(s) || CloserComing(s)
  {
    hide Reachable;
    ReachableSafe(s, most, max);
  }

  /** So when recvLoop sleeps and nobody else is at work, there is data to read: a reader can
      wake it up. */
  lemma SleepMeansData(s: State, most: nat, max: nat)
    requires max > 0 && most > 0 && Reachable(s, most, max) && s.recv.Park? && !s.notify
    requires forall t: Tid :: At(s, t).Idle?
    ensures !s.closed && exists sid: Sid :: sid in s.open && Buffer(s, sid) != []
  {
    ReachableSafe(s, most, max);
    assert !PostComing(s) && !CloserComing(s);
    assert Sum(Held(s.workers)) == 0 by {
      forall t: Tid | t in s.workers ensures Held(s.workers)[t] == 0 {
        assert At(s, t).Idle?;
      }
      SumZero(Held(s.workers));
    }
    SumPositive(Sizes(s));
    var sid :| sid in Sizes(s) && Sizes(s)[sid] > 0;
    assert Buffer(s, sid) != [];
  }
}
