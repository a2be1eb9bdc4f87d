/** What Read returns, and when its EOF is the end of the stream. */
module ReceiveEof {
  import opened Octets
  import opened SmuxFrame
  import opened Receiver
  import opened ReceiveWindow

  predicate Whole(st: Stream) {
    st.pushed == st.read + st.lost + st.buffer
  }

  /** A byte pushed to a stream was read, was dropped when the stream was closed, or is in the
      buffer, in this order. */
  ghost predicate Recorded(s: State) {
    forall sid: Sid :: sid in s.all ==> Whole(s.all[sid])
  }

  /** Bytes are dropped only as their stream leaves the map. */
  ghost predicate LostClosed(s: State) {
    forall sid: Sid :: sid in s.all && s.all[sid].lost != [] ==>
      && sid in s.dead
      && (sid !in s.open || (s.lock.ByWorker? && HasLock(At(s, s.lock.t)) && At(s, s.lock.t).sid == sid))
  }

  lemma LostClosedStep(s: State, a: Action, most: nat)
    requires Inv(s) && LostClosed(s) && Enabled(s, a, most)
    ensures LostClosed(Next(s, a, most))
  {
    hide ClosedOnce;
    var n := Next(s, a, most);
    forall sid: Sid | sid in n.all && n.all[sid].lost != []
      ensures sid in n.dead &&
              (sid !in n.open || (n.lock.ByWorker? && HasLock(At(n, n.lock.t)) && At(n, n.lock.t).sid == sid))
    {
      LostAt(s, a, most, sid);
    }
  }

  lemma LostAt(s: State, a: Action, most: nat, sid: Sid)
    requires Inv(s) && LostClosed(s) && Enabled(s, a, most)
    requires var n := Next(s, a, most); sid in n.all && n.all[sid].lost != []
    ensures var n := Next(s, a, most);
            sid in n.dead &&
            (sid !in n.open || (n.lock.ByWorker? && HasLock(At(n, n.lock.t)) && At(n, n.lock.t).sid == sid))
  {
    SetsStep(s, a, most);
    StreamBefore(s, a, most, sid);
    if s.all[sid].lost == [] {
      assert a.Recycle? && IsClosing(At(s, a.t));
      LocksStream(s, a.t, most);
    } else if sid in s.open {
      HolderStep(s, a, most, s.lock.t);
    }
    hide Next, Enabled, ClosedOnce, Known, Emptied, Locked;
  }

  lemma LocksStream(s: State, t: Tid, most: nat)
    requires Enabled(s, Recycle(t), most)
    ensures var n := Next(s, Recycle(t), most);
            n.lock == ByWorker(t) && HasLock(At(n, t)) && At(n, t).sid == At(s, t).sid && n.dead == s.dead
  {
  }

  /** A stream with a history was there before the step. */
  lemma StreamBefore(s: State, a: Action, most: nat, sid: Sid)
    requires Inv(s) && Enabled(s, a, most) && sid in Next(s, a, most).all && Next(s, a, most).all[sid] != FRESH
    ensures sid in s.all && Next(s, a, most).all[sid] == StreamAfter(s, a, sid)
  {
    if sid in s.all {
      StreamStep(s, a, most, sid);
    } else {
      NewStream(s, a, most, sid);
    }
    hide Next, Enabled;
  }

  lemma RecordedStep(s: State, a: Action, most: nat)
    requires Inv(s) && LostClosed(s) && Recorded(s) && Enabled(s, a, most)
    ensures Recorded(Next(s, a, most))
  {
    var n := Next(s, a, most);
    forall sid: Sid | sid in n.all ensures Whole(n.all[sid]) {
      RecordedAt(s, a, most, sid);
    }
  }

  lemma RecordedAt(s: State, a: Action, most: nat, sid: Sid)
    requires Inv(s) && LostClosed(s) && Recorded(s) && Enabled(s, a, most)
    requires sid in Next(s, a, most).all
    ensures Whole(Next(s, a, most).all[sid])
  {
    WholeFresh();
    if Next(s, a, most).all[sid] != FRESH {
      StreamBefore(s, a, most, sid);
      assert Whole(s.all[sid]);
      if s.all[sid].lost != [] {
        LostNotChanged(s, sid);
      }
      hide Inv, LostClosed, Next, Enabled, Whole;
      var st := s.all[sid];
      if a.Push? && s.recv.Pushing? && s.recv.f.sid == sid {
        WholeAppend(st, s.recv.f.data);
      } else if a.Read? && a.sid == sid && st.buffer != [] {
        WholeTake(st, if a.max < |st.buffer| then a.max else |st.buffer|);
      } else if a.Read? && a.sid == sid {
        WholeIdle(st);
      } else if a.Recycle? {
        WholeDrop(st);
      }
    }
  }

  lemma WholeIdle(st: Stream)
    requires Whole(st) && st.buffer == []
    ensures Whole(st.(buffer := [][0..], read := st.read + [][..0]))
  {
  }

  /** A stream that lost bytes is empty, and nothing is pushed to it. */
  lemma LostNotChanged(s: State, sid: Sid)
    requires Inv(s) && LostClosed(s) && sid in s.all && s.all[sid].lost != []
    ensures s.all[sid].buffer == [] && !(s.recv.Pushing? && s.recv.f.sid == sid)
  {
    hide ClosedOnce, Known;
    if sid in s.open {
      assert HasLock(At(s, s.lock.t));
    }
    assert Buffer(s, sid) == [];
  }

  lemma WholeFresh()
    ensures Whole(FRESH)
  {
  }

  lemma WholeAppend(st: Stream, data: seq<Octet>)
    requires Whole(st) && st.lost == []
    ensures Whole(st.(buffer := st.buffer + data, pushed := st.pushed + data))
  {
    assert st.read + [] + (st.buffer + data) == st.read + [] + st.buffer + data;
  }

  lemma WholeTake(st: Stream, n: nat)
    requires Whole(st) && st.lost == [] && n <= |st.buffer|
    ensures Whole(st.(buffer := st.buffer[n..], read := st.read + st.buffer[..n]))
  {
    assert st.buffer == st.buffer[..n] + st.buffer[n..];
  }

  lemma WholeDrop(st: Stream)
    requires Whole(st)
    ensures Whole(st.(buffer := [], lost := st.lost + st.buffer))
  {
  }

  ghost predicate Account(s: State) {
    Inv(s) && LostClosed(s) && Recorded(s)
  }

  lemma AccountStep(s: State, a: Action, most: nat)
    requires Account(s) && Enabled(s, a, most)
    ensures Account(Next(s, a, most))
  {
    InvStep(s, a, most);
    LostClosedStep(s, a, most);
    RecordedStep(s, a, most);
  }

  lemma {:induction false} AccountRun(s: State, actions: seq<Action>, t: State, most: nat)
    requires Account(s) && Run(s, actions, t, most)
    ensures Account(t)
    decreases |actions|
  {
    hide Account, Enabled, Next;
    if actions != [] {
      AccountStep(s, actions[0], most);
      AccountRun(Next(s, actions[0], most), actions[1..], t, most);
    }
  }

  lemma ReachableAccount(s: State, most: nat, max: nat)
    requires Reachable(s, most, max)
    ensures Account(s)
  {
    hide Run;
    var actions :| Run(Init(max), actions, s, most);
    AccountRun(Init(max), actions, s, most);
  }

  /** However readers and closers interleave: while a stream is open, what was read and what
      is in its buffer is what was pushed to it, in order. */
  lemma ReadInOrder(s: State, most: nat, max: nat, sid: Sid)
    requires Reachable(s, most, max) && sid in s.all
    ensures sid !in s.dead ==> s.all[sid].read + s.all[sid].buffer == s.all[sid].pushed
    ensures s.all[sid].read <= s.all[sid].pushed
  {
    hide Reachable;
    ReachableAccount(s, most, max);
  }

  // EOF.

  /** Payload for the stream arrives. */
  predicate Feeds(s: State, a: Action, sid: Sid) {
    a.Push? && s.recv.Pushing? && s.recv.f.sid == sid && s.recv.f.data != []
  }

  /** Nothing arrives for the stream during the run. */
  ghost predicate NothingArrives(s: State, actions: seq<Action>, sid: Sid, most: nat)
    decreases |actions|
  {
    actions == [] ||
    (Enabled(s, actions[0], most) && !Feeds(s, actions[0], sid) &&
     NothingArrives(Next(s, actions[0], most), actions[1..], sid, most))
  }

  /** Nobody else reads or closes the stream during the run. */
  predicate Undisturbed(s: State, actions: seq<Action>, sid: Sid, most: nat)
    decreases |actions|
  {
    actions == [] ||
    (Enabled(s, actions[0], most) && !Drains(s, actions[0], sid) &&
     Undisturbed(Next(s, actions[0], most), actions[1..], sid, most))
  }

  predicate Drains(s: State, a: Action, sid: Sid) {
    (a.Read? && a.sid == sid) || (a.Recycle? && At(s, a.t).Closing? && At(s, a.t).sid == sid)
  }

  /** Without other readers the buffer grows exactly by what arrives. */
  lemma BufferStep(s: State, a: Action, most: nat, sid: Sid)
    requires Account(s) && Enabled(s, a, most) && !Drains(s, a, sid) && sid in s.all
    ensures sid in Next(s, a, most).all
    ensures Next(s, a, most).all[sid].read == s.all[sid].read
    ensures |s.all[sid].buffer| <= |Next(s, a, most).all[sid].buffer|
    ensures Feeds(s, a, sid) <==> |s.all[sid].buffer| < |Next(s, a, most).all[sid].buffer|
  {
    StreamStep(s, a, most, sid);
    hide Account, Enabled, Next;
  }

  lemma {:induction false} BufferRun(s: State, actions: seq<Action>, t: State, most: nat, sid: Sid)
    requires Account(s) && Run(s, actions, t, most) && Undisturbed(s, actions, sid, most) && sid in s.all
    ensures sid in t.all && t.all[sid].read == s.all[sid].read && |s.all[sid].buffer| <= |t.all[sid].buffer|
    ensures NothingArrives(s, actions, sid, most) <==> |s.all[sid].buffer| == |t.all[sid].buffer|
    decreases |actions|
  {
    hide Account, Enabled, Next, Drains, Feeds;
    if actions != [] {
      var a, n := actions[0], Next(s, actions[0], most);
      BufferStep(s, a, most, sid);
      AccountStep(s, a, most);
      BufferRun(n, actions[1..], t, most, sid);
    }
  }

  /** A Read that found the buffer empty and later finds rstflag set returns EOF. If it is the
      stream's only reader, all that came before the FIN was read - exactly if nothing arrived
      between its two looks. */
  lemma EofIff(s: State, r: Tid, max: nat, actions: seq<Action>, t: State, most: nat, sid: Sid)
    requires Account(s) && Enabled(s, Read(r, sid, max), most) && sid !in s.dead
    requires var looked := Next(s, Read(r, sid, max), most);
             && At(looked, r) == Checking(sid)
             && Run(looked, actions, t, most) && Undisturbed(looked, actions, sid, most)
    requires At(t, r) == Checking(sid) && sid in t.reset
    ensures At(Next(t, CheckFlag(r), most), r) == Eof(sid) && sid in t.all
    ensures t.all[sid].read == t.all[sid].pushed <==>
            NothingArrives(Next(s, Read(r, sid, max), most), actions, sid, most)
  {
    hide Account, Run, Undisturbed, NothingArrives;
    var look := Read(r, sid, max);
    var looked := Next(s, look, most);
    AccountStep(s, look, most);
    LookedEmpty(s, r, max, most, sid);
    hide Next, Enabled;
    BufferRun(looked, actions, t, most, sid);
    AccountRun(looked, actions, t, most);
    LostStays(looked, actions, t, most, sid);
    AllReadIff(t, sid);
    SeesReset(t, r, most, sid);
  }

  /** Whatever other readers and closers do: when nothing arrives between the two looks, all
      that came before the FIN was read. */
  lemma EofQuiet(s: State, r: Tid, max: nat, actions: seq<Action>, t: State, most: nat, sid: Sid)
    requires Account(s) && Enabled(s, Read(r, sid, max), most) && sid !in s.dead
    requires var looked := Next(s, Read(r, sid, max), most);
             && At(looked, r) == Checking(sid)
             && Run(looked, actions, t, most) && NothingArrives(looked, actions, sid, most)
    ensures sid in t.all && t.all[sid].read == t.all[sid].pushed
  {
    hide Account, Run, NothingArrives;
    var look := Read(r, sid, max);
    AccountStep(s, look, most);
    LookedEmpty(s, r, max, most, sid);
    hide Next, Enabled;
    QuietRun(Next(s, look, most), actions, t, most, sid);
    AllReadIff(t, sid);
  }

  predicate Spent(st: Stream) {
    st.buffer == [] && st.lost == []
  }

  lemma {:induction false} QuietRun(s: State, actions: seq<Action>, t: State, most: nat, sid: Sid)
    requires Account(s) && Run(s, actions, t, most) && NothingArrives(s, actions, sid, most)
    requires sid in s.all && Spent(s.all[sid])
    ensures Account(t) && sid in t.all && Spent(t.all[sid])
    decreases |actions|
  {
    hide Account, Enabled, Next, Feeds, Spent;
    if actions != [] {
      QuietStep(s, actions[0], most, sid);
      AccountStep(s, actions[0], most);
      QuietRun(Next(s, actions[0], most), actions[1..], t, most, sid);
    }
  }

  lemma QuietStep(s: State, a: Action, most: nat, sid: Sid)
    requires Account(s) && Enabled(s, a, most) && !Feeds(s, a, sid) && sid in s.all && Spent(s.all[sid])
    ensures sid in Next(s, a, most).all && Spent(Next(s, a, most).all[sid])
  {
    StreamStep(s, a, most, sid);
    hide Account, Enabled, Next;
  }

  lemma AllReadIff(s: State, sid: Sid)
    requires Account(s) && sid in s.all && s.all[sid].lost == []
    ensures s.all[sid].read == s.all[sid].pushed <==> |s.all[sid].buffer| == 0
  {
    hide Inv, LostClosed;
    var st := s.all[sid];
    assert Whole(st);
    assert st.pushed == st.read + [] + st.buffer;
  }

  lemma SeesReset(s: State, r: Tid, most: nat, sid: Sid)
    requires At(s, r) == Checking(sid) && sid in s.reset
    ensures Enabled(s, CheckFlag(r), most) && At(Next(s, CheckFlag(r), most), r) == Eof(sid)
  {
  }

  lemma LookedEmpty(s: State, r: Tid, max: nat, most: nat, sid: Sid)
    requires Account(s) && Enabled(s, Read(r, sid, max), most) && sid !in s.dead
    requires At(Next(s, Read(r, sid, max), most), r) == Checking(sid)
    ensures var looked := Next(s, Read(r, sid, max), most);
            sid in looked.all && looked.all[sid].buffer == [] && looked.all[sid].lost == []
  {
    hide Inv;
  }

  lemma {:induction false} LostStays(s: State, actions: seq<Action>, t: State, most: nat, sid: Sid)
    requires Account(s) && Run(s, actions, t, most) && Undisturbed(s, actions, sid, most) && sid in s.all
    ensures sid in t.all && t.all[sid].lost == s.all[sid].lost
    decreases |actions|
  {
    hide Account, Enabled, Next, Drains;
    if actions != [] {
      LostStaysStep(s, actions[0], most, sid);
      AccountStep(s, actions[0], most);
      LostStays(Next(s, actions[0], most), actions[1..], t, most, sid);
    }
  }

  lemma LostStaysStep(s: State, a: Action, most: nat, sid: Sid)
    requires Enabled(s, a, most) && !Drains(s, a, sid) && sid in s.all
    ensures sid in Next(s, a, most).all && Next(s, a, most).all[sid].lost == s.all[sid].lost
  {
    StreamStep(s, a, most, sid);
    hide Next, Enabled;
  }

  /** What was pushed to a stream, and what recvLoop is pushing. */
  function Taken(s: State, sid: Sid): seq<Octet>
    requires sid in s.all
  {
    s.all[sid].pushed + if (s.recv.Charging? || s.recv.Pushing?) && s.recv.f.sid == sid then s.recv.f.data else []
  }

  /** recvLoop deals with payload of the stream. */
  predicate Payload(s: State, a: Action, sid: Sid) {
    a.Handle? && s.recv.Locking? && s.recv.f.cmd == CMD_PSH && s.recv.f.sid == sid && sid in s.open && s.recv.f.data != []
  }

  ghost predicate NoPayload(s: State, actions: seq<Action>, sid: Sid, most: nat)
    decreases |actions|
  {
    actions == [] ||
    (Enabled(s, actions[0], most) && !Payload(s, actions[0], sid) &&
     NoPayload(Next(s, actions[0], most), actions[1..], sid, most))
  }

  lemma TakenStep(s: State, a: Action, most: nat, sid: Sid)
    requires Inv(s) && Enabled(s, a, most) && sid in s.all
    ensures sid in Next(s, a, most).all
    ensures Taken(Next(s, a, most), sid) == Taken(s, sid) + if Payload(s, a, sid) then s.recv.f.data else []
  {
    StreamStep(s, a, most, sid);
    hide Inv;
  }

  /** What a FIN leaves is all there will be - whoever reads or closes - if and only if no payload
      of the stream follows it. */
  lemma {:induction false} NothingAfterFin(s: State, actions: seq<Action>, t: State, most: nat, sid: Sid)
    requires Account(s) && Run(s, actions, t, most) && sid in s.all
    ensures sid in t.all && |Taken(s, sid)| <= |Taken(t, sid)|
    ensures Taken(t, sid) == Taken(s, sid) <==> NoPayload(s, actions, sid, most)
    decreases |actions|
  {
    hide Inv, Recorded, LostClosed, Enabled, Next, Taken;
    if actions != [] {
      TakenStep(s, actions[0], most, sid);
      AccountStep(s, actions[0], most);
      NothingAfterFin(Next(s, actions[0], most), actions[1..], t, most, sid);
    }
  }

  // A Read that looks at the buffer before the last payload and at the flag after the FIN.

  lemma {:induction false} RunExtend(s: State, actions: seq<Action>, t: State, a: Action, most: nat)
    requires Run(s, actions, t, most) && Enabled(t, a, most)
    ensures Run(s, actions + [a], Next(t, a, most), most)
    decreases |actions|
  {
    hide Enabled, Next;
    if actions == [] {
      assert (actions + [a])[1..] == [];
      assert Run(Next(t, a, most), [], Next(t, a, most), most);
    } else {
      RunExtend(Next(s, actions[0], most), actions[1..], t, a, most);
      assert (actions + [a])[1..] == actions[1..] + [a];
    }
  }

  lemma Reach(s: State, a: Action, t: State, most: nat, max: nat)
    requires Reachable(s, most, max) && Enabled(s, a, most) && Next(s, a, most) == t
    ensures Reachable(t, most, max)
  {
    hide Enabled, Next, Run;
    var actions :| Run(Init(max), actions, s, most);
    RunExtend(Init(max), actions, s, a, most);
  }

  const SID: Sid := 3
  const READER: Tid := 1
  const SYN: Frame := NewFrame(CMD_SYN, SID)
  const FIN: Frame := NewFrame(CMD_FIN, SID)
  const PAYLOAD: Frame := Frame(VERSION, CMD_PSH, SID, [7])

  /** recvLoop takes the next frame and gets the lock. */
  lemma Receives(s: State, f: Frame, t: State, most: nat, max: nat)
    requires Reachable(s, most, max) && s.recv.Load? && s.bucket > 0 && s.lock.Free?
    requires f.cmd == CMD_SYN || f.cmd == CMD_FIN || f.cmd == CMD_PSH
    requires Honest(s, f, most) && t == Handled(s.(recv := Locking(f)), f)
    ensures Reachable(t, most, max)
  {
    hide Run, Reachable;
    Reach(s, LoadBucket, s.(recv := Reading), most, max);
    Reach(s.(recv := Reading), Receive(f), s.(recv := Locking(f)), most, max);
    Reach(s.(recv := Locking(f)), Handle, t, most, max);
  }

  const MAX_BUFFER: nat := 2

  /** The stream is open, nothing has arrived, and Read has found the buffer empty. */
  const LOOKED: State := State(2, false, false, Free, map[SID := FRESH], {SID}, {}, {}, Load, map[READER := Checking(SID)])

  lemma LookedReachable()
    ensures Reachable(LOOKED, 1, MAX_BUFFER)
  {
    assert Run(Init(2), [], Init(2), 1);
    hide Run;
    var s1 := Init(2).(all := map[SID := FRESH], open := {SID});
    Receives(Init(2), SYN, s1, 1, 2);
    hide Reachable;
    assert FRESH.buffer[0..] == [] && FRESH.read + FRESH.buffer[..0] == [];
    Reach(s1, Read(READER, SID, 10), LOOKED, 1, 2);
  }

  /** The payload and the FIN arrive. */
  const FED: State := LOOKED.(bucket := 1, all := map[SID := Stream([7], [7], [], [])], reset := {SID})

  lemma FedReachable()
    ensures Reachable(FED, 1, MAX_BUFFER)
  {
    LookedReachable();
    hide Run, Reachable;
    var s1 := LOOKED.(recv := Charging(PAYLOAD), lock := ByRecvLoop);
    Receives(LOOKED, PAYLOAD, s1, 1, 2);
    var s2 := s1.(recv := Pushing(PAYLOAD), bucket := 1);
    Reach(s1, Charge, s2, 1, 2);
    assert [] + [7] == [7];
    Reach(s2, Push, FED.(reset := {}), 1, 2);
    Receives(FED.(reset := {}), FIN, FED, 1, 2);
  }

  const ENDED: State := FED.(workers := map[READER := Eof(SID)])

  lemma EndedReachable()
    ensures Reachable(ENDED, 1, MAX_BUFFER)
  {
    FedReachable();
    hide Run, Reachable;
    Reach(FED, CheckFlag(READER), ENDED, 1, 2);
  }

  /** Read returns EOF although a byte came before the FIN. */
  lemma EofTooEarly() returns (s: State)
    ensures Reachable(s, 1, MAX_BUFFER) && At(s, READER) == Eof(SID)
    ensures SID in s.all && s.all[SID].pushed == [7] && s.all[SID].read == []
  {
    EndedReachable();
    s := ENDED;
  }

  const LEAVING: State := ENDED.(dead := {SID}, workers := map[READER := Closing(SID)])

  lemma LeavingReachable()
    ensures Reachable(LEAVING, 1, MAX_BUFFER)
  {
    EndedReachable();
    hide Run, Reachable;
    Reach(ENDED, CloseStream(READER, SID), LEAVING, 1, 2);
  }

  /** Closing the stream then drops it. */
  lemma ByteLost() returns (t: State)
    ensures Reachable(t, 1, MAX_BUFFER) && SID in t.all && t.all[SID].lost == [7]
  {
    LeavingReachable();
    hide Run, Reachable;
    assert [] + [7] == [7];
    t := LEAVING.(lock := ByWorker(READER), all := map[SID := Stream([], [7], [], [7])],
                  workers := map[READER := Refunding(SID, 1)]);
    Reach(LEAVING, Recycle(READER), t, 1, 2);
  }
}
