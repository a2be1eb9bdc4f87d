/** The methods of Stream in lib/smux that pause and resume the sending end, on the fields that
    they update. Each, when nothing interferes, is the run of its goroutine's steps in Pause. */
module StreamFlow {
  import opened SmuxFrame
  import opened Pause

  /** pushBytes of n bytes; soft is the outcome of the estimate. */
  function Pushed(s: State, n: nat, soft: bool, limit: nat): State
    requires s.pusher.Ready?
  {
    var s1 := Next(s, Push(n), limit);
    var pause := s1.used + n > limit || soft;
    var s2 := Next(s1, Count(pause), limit);
    if pause then Toggled(s2, limit) else s2
  }

  /** sendPause. */
  function Toggled(s: State, limit: nat): State
    requires s.pusher.Pausing?
  {
    var s1 := Next(s, TogglePause, limit);
    if s1.pusher.Full? then Next(s1, SubmitFul, limit) else s1
  }

  /** sendResume. */
  function Untoggled(s: State, t: Tid, limit: nat): State
    requires At(s, t).Resuming?
  {
    var s1 := Next(s, ToggleResume(t), limit);
    if At(s1, t).Empty? then Next(s1, SubmitEmp(t), limit) else s1
  }

  /** returnTokens of n bytes; soft is the outcome of the estimate. */
  function Returned(s: State, t: Tid, soft: bool, limit: nat): State
    requires At(s, t).Took?
  {
    var resume := s.used - At(s, t).n <= 0 || soft;
    var s1 := Next(s, Return(t, resume), limit);
    if resume then Untoggled(s1, t, limit) else s1
  }

  lemma ReturnStep(s: State, t: Tid, n: nat, resume: bool, limit: nat, now: State, readers: map<Tid, Reader>)
    requires t in readers && readers[t].Idle? && s.readers == readers[t := Took(n)]
    requires now == s.(used := s.used - n, readers := readers) && (now.used <= 0 ==> resume)
    ensures Next(s, Return(t, resume), limit) == now.(readers := if resume then readers[t := Resuming] else readers)
  {
    assert readers[t := Took(n)][t := Resuming] == readers[t := Resuming] && readers[t := Took(n)][t := Idle] == readers;
  }

  class Stream {
    var buffer: nat
    var bucket: int
    var empflag: bool
    var fulflag: bool
    var bucketNotify: bool
    var sess: seq<Cmd>          // what was handed to the session's writeFrame
    ghost var toggled: seq<Cmd>

    /** The receiving end of the stream as a state of the step system; peer is the fulflag of
        the sending end. */
    ghost function Abs(peer: bool, delivered: nat, pusher: Pusher, readers: map<Tid, Reader>): State
      reads this
    {
      State(buffer, bucket, empflag, peer, pusher, readers, toggled, sess, delivered)
    }

    /** newStream. */
    constructor ()
      ensures Abs(false, 0, Ready, map[]) == INIT && !fulflag && !bucketNotify
    {
      buffer, bucket, empflag, fulflag, bucketNotify := 0, 0, true, false, false;
      sess, toggled := [], [];
    }

    method SendPause(ghost peer: bool, ghost delivered: nat, ghost readers: map<Tid, Reader>, ghost limit: nat)
      modifies `empflag, `sess, `toggled
      ensures Abs(peer, delivered, Ready, readers) == Toggled(old(Abs(peer, delivered, Pausing, readers)), limit)
      ensures !empflag && sess == old(sess) + if old(empflag) then [CMD_FUL] else []
    {
      if empflag {
        empflag := false;
        toggled := toggled + [CMD_FUL];
        sess := sess + [CMD_FUL];
      }
    }

    method SendResume(ghost peer: bool, ghost delivered: nat, ghost pusher: Pusher, ghost readers: map<Tid, Reader>,
                      ghost t: Tid, ghost limit: nat)
      requires t in readers && readers[t].Idle?
      modifies `empflag, `sess, `toggled
      ensures Abs(peer, delivered, pusher, readers) ==
              Untoggled(old(Abs(peer, delivered, pusher, readers[t := Resuming])), t, limit)
      ensures empflag && sess == old(sess) + if old(empflag) then [] else [CMD_EMP]
    {
      assert readers[t := Resuming][t := Idle] == readers && readers[t := Resuming][t := Empty][t := Idle] == readers;
      if !empflag {
        empflag := true;
        toggled := toggled + [CMD_EMP];
        sess := sess + [CMD_EMP];
      }
    }

    /** pushBytes; enabled is EnableStreamBuffer. */
    method PushBytes(n: nat, limit: nat, soft: bool, enabled: bool, ghost peer: bool, ghost delivered: nat,
                     ghost readers: map<Tid, Reader>)
      modifies `buffer, `bucket, `empflag, `sess, `toggled
      ensures Abs(peer, delivered, Ready, readers) ==
              if enabled then Pushed(old(Abs(peer, delivered, Ready, readers)), n, soft, limit)
              else old(Abs(peer, delivered, Ready, readers)).(buffer := old(buffer) + n)
      ensures buffer == old(buffer) + n && bucket == old(bucket) + if enabled then n else 0
      ensures enabled && (soft || old(bucket) + n > limit) ==>
                !empflag && sess == old(sess) + if old(empflag) then [CMD_FUL] else []
      ensures !enabled || (!soft && old(bucket) + n <= limit) ==> empflag == old(empflag) && sess == old(sess)
    {
      buffer := buffer + n;
      if !enabled {
        return;
      }
      bucket := bucket + n;
      var used := bucket;
      if used > limit {
        SendPause(peer, delivered, readers, limit);
        return;
      }
      if soft {
        SendPause(peer, delivered, readers, limit);
      }
    }

    /** returnTokens of the stream. */
    method ReturnTokens(n: nat, limit: nat, soft: bool, enabled: bool, ghost peer: bool, ghost delivered: nat,
                        ghost pusher: Pusher, ghost readers: map<Tid, Reader>, ghost t: Tid)
      requires t in readers && readers[t].Idle?
      modifies `bucket, `empflag, `sess, `toggled
      ensures Abs(peer, delivered, pusher, readers) ==
              if enabled then Returned(old(Abs(peer, delivered, pusher, readers[t := Took(n)])), t, soft, limit)
              else old(Abs(peer, delivered, pusher, readers))
      ensures bucket == old(bucket) - if enabled then n else 0
      ensures enabled && (soft || old(bucket) - n <= 0) ==>
                empflag && sess == old(sess) + if old(empflag) then [] else [CMD_EMP]
      ensures !enabled || (!soft && old(bucket) - n > 0) ==> empflag == old(empflag) && sess == old(sess)
    {
      if !enabled {
        return;
      }
      hide Untoggled;
      ghost var s := Abs(peer, delivered, pusher, readers[t := Took(n)]);
      bucket := bucket - n;
      var used := bucket;
      ghost var resume := used <= 0 || soft;
      ReturnStep(s, t, n, resume, limit, Abs(peer, delivered, pusher, readers), readers);
      hide Next;
      if used <= 0 || soft {
        SendResume(peer, delivered, pusher, readers, t, limit);
      }
    }

    /** pauseWrite and resumeWrite of the sending end, when recvLoop has the command: fulflag
        becomes what the step of the delivery makes of it. */
    method PauseWrite()
      modifies `fulflag
      ensures fulflag
      ensures forall s: State, limit: nat :: Enabled(s, Deliver, limit) && s.submitted[s.delivered] == CMD_FUL ==>
                Next(s, Deliver, limit).fulflag == fulflag
    {
      fulflag := true;
    }

    method ResumeWrite()
      modifies `fulflag, `bucketNotify
      ensures !fulflag && bucketNotify == (old(bucketNotify) || old(fulflag))
      ensures forall s: State, limit: nat :: Enabled(s, Deliver, limit) && s.submitted[s.delivered] == CMD_EMP ==>
                Next(s, Deliver, limit).fulflag == fulflag
    {
      if fulflag {
        bucketNotify := true;
      }
      fulflag := false;
    }
  }

  /** Pushing without interference is prompt and takes its turn, so that Pause.DrainedResumes
      applies: it keeps the invariants. */
  lemma PushedKeeps(s: State, n: nat, soft: bool, limit: nat)
    requires s.pusher.Ready? && n > 0 && Flags(s) && InStep(s) && Steady(s) && NobodyHas(s)
    ensures var t := Pushed(s, n, soft, limit); Flags(t) && InStep(t) && Steady(t) && NobodyHas(t)
  {
    hide Flags, Steady, InStep, NobodyHas;
    var s1 := Next(s, Push(n), limit);
    Keeps(s, Push(n), limit);
    var pause := s1.used + n > limit || soft;
    var s2 := Next(s1, Count(pause), limit);
    Keeps(s1, Count(pause), limit);
    if pause {
      var s3 := Next(s2, TogglePause, limit);
      SubmitsAtOnce(s2, limit);
    }
  }

  lemma Keeps(s: State, a: Action, limit: nat)
    requires Enabled(s, a, limit) && ((a.Push? && a.n > 0) || a.Count?)
    requires Flags(s) && InStep(s) && Steady(s) && NobodyHas(s)
    ensures var t := Next(s, a, limit); Flags(t) && InStep(t) && Steady(t) && NobodyHas(t)
  {
    FlagsStep(s, a, limit);
    InStepStep(s, a, limit);
    SteadyStep(s, a, limit);
    hide Flags, InStep, Steady;
    var t := Next(s, a, limit);
    assert forall u: Tid :: At(t, u) == At(s, u);
  }

  lemma SubmitsAtOnce(s: State, limit: nat)
    requires s.pusher.Pausing? && Flags(s) && InStep(s) && Steady(s) && NobodyHas(s)
    ensures var t := Toggled(s, limit); Flags(t) && InStep(t) && Steady(t) && NobodyHas(t)
  {
    AllSubmitted(s);
    FlagsStep(s, TogglePause, limit);
    InStepStep(s, TogglePause, limit);
    SteadyStep(s, TogglePause, limit);
    var s1 := Next(s, TogglePause, limit);
    if s1.pusher.Full? {
      FlagsStep(s1, SubmitFul, limit);
      InStepStep(s1, SubmitFul, limit);
      SteadyStep(s1, SubmitFul, limit);
    }
    hide Flags, InStep, Steady;
    var t := Toggled(s, limit);
    assert forall u: Tid :: At(t, u) == At(s, u);
  }
}
