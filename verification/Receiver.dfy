/** The receiving side of a session of lib/smux: recvLoop, and any number of goroutines that
    read and close streams or close the session. A step is one atomic operation or one
    critical section; streamLock, held over several of them, is part of the state. */
module Receiver {
  import opened Octets
  import opened SmuxFrame

  type Tid = nat

  datatype RecvLoop =
    | Load                     // before the load of bucket
    | CheckDie                 // bucket was not positive: before IsClosed
    | Park                     // on bucketNotify
    | Reading                  // in readFrame
    | Locking(f: Frame)        // before streamLock
    | Charging(f: Frame)       // PSH of a known stream: before bucket - len(data)
    | Pushing(f: Frame)        // before the write to the stream's buffer
    | Done

  datatype Worker =
    | Idle
    | Checking(sid: Sid)               // Read found the buffer empty: before the load of rstflag
    | Eof(sid: Sid)                    // Read is to close the stream and return EOF
    | Returning(n: nat)                // before bucket + n
    | Posting                          // before the send to bucketNotify
    | Closing(sid: Sid)                // in streamClosed, before streamLock
    | Refunding(sid: Sid, n: nat)      // before bucket + n
    | PostingLocked(sid: Sid)          // before the send to bucketNotify
    | Deleting(sid: Sid)               // before the delete from streams
    | Sweeping                         // in Session.Close, before streamLock

  datatype Lock = Free | ByRecvLoop | ByWorker(t: Tid)

  /** One Stream. pushed is all that was ever written to the buffer, read what Read returned,
      lost what recycleTokens dropped. */
  datatype Stream = Stream(buffer: seq<Octet>, pushed: seq<Octet>, read: seq<Octet>, lost: seq<Octet>)

  /** all has every stream ever registered, open the keys of the map streams, dead the streams
      whose die is closed, reset those whose rstflag is set. */
  datatype State = State(
    bucket: int, notify: bool, closed: bool, lock: Lock,
    all: map<Sid, Stream>, open: set<Sid>, dead: set<Sid>, reset: set<Sid>,
    recv: RecvLoop, workers: map<Tid, Worker>)

  datatype Action =
    | LoadBucket | LookDie | Unpark | Receive(f: Frame) | Fail | Handle | Charge | Push
    | OpenStream(t: Tid, sid: Sid)
    | Read(t: Tid, sid: Sid, max: nat) | CheckFlag(t: Tid) | Return(t: Tid) | Post(t: Tid)
    | CloseStream(t: Tid, sid: Sid) | Recycle(t: Tid) | Refund(t: Tid) | PostLocked(t: Tid) | Delete(t: Tid)
    | CloseSession(t: Tid) | Sweep(t: Tid) | Tick(t: Tid)

  function At(s: State, t: Tid): Worker {
    if t in s.workers then s.workers[t] else Idle
  }

  /** The peer is honest: it does not use an id twice, and no payload is longer than most. */
  predicate Honest(s: State, f: Frame, most: nat) {
    |f.data| <= most && (f.cmd == CMD_SYN ==> f.sid in s.open || f.sid !in s.all)
  }

  predicate Enabled(s: State, a: Action, most: nat) {
    match a
    case LoadBucket => s.recv.Load?
    case LookDie => s.recv.CheckDie?
    case Unpark => s.recv.Park? && s.notify
    case Receive(f) => s.recv.Reading?
    case Fail => s.recv.Reading?
    case Handle => s.recv.Locking? && s.lock.Free? && Honest(s, s.recv.f, most)
    case Charge => s.recv.Charging?
    case Push => s.recv.Pushing?
    case OpenStream(t, sid) => At(s, t).Idle? && s.lock.Free? && sid !in s.all
    case Read(t, sid, max) => At(s, t).Idle? && sid in s.all
    case CheckFlag(t) => At(s, t).Checking?
    case Return(t) => At(s, t).Returning?
    case Post(t) => At(s, t).Posting?
    case CloseStream(t, sid) => (At(s, t).Idle? || At(s, t) == Eof(sid)) && sid in s.all
    case Recycle(t) => At(s, t).Closing? && s.lock.Free? && At(s, t).sid in s.open && At(s, t).sid in s.all
    case Refund(t) => At(s, t).Refunding?
    case PostLocked(t) => At(s, t).PostingLocked?
    case Delete(t) => At(s, t).Deleting?
    case CloseSession(t) => At(s, t).Idle?
    case Sweep(t) => At(s, t).Sweeping? && s.lock.Free?
    case Tick(t) => At(s, t).Idle?
  }

  const FRESH: Stream := Stream([], [], [], [])

  function Now(s: State, t: Tid, w: Worker): State {
    s.(workers := s.workers[t := w])
  }

  /** recvLoop with the lock: the whole critical section, except that for the payload of a
      known stream the lock stays held. */
  function Handled(s: State, f: Frame): State {
    if f.cmd == CMD_SYN && f.sid !in s.open then
      s.(recv := Load, all := s.all[f.sid := FRESH], open := s.open + {f.sid})
    else if f.cmd == CMD_FIN && f.sid in s.open then
      s.(recv := Load, reset := s.reset + {f.sid})
    else if f.cmd == CMD_PSH && f.sid in s.open then
      s.(recv := Charging(f), lock := ByRecvLoop)
    else
      s.(recv := Load)
  }

  function ReadFrom(s: State, t: Tid, sid: Sid, max: nat): State
    requires sid in s.all
  {
    var st := s.all[sid];
    var n := if max < |st.buffer| then max else |st.buffer|;
    var after := s.(all := s.all[sid := st.(buffer := st.buffer[n..], read := st.read + st.buffer[..n])]);
    Now(after, t, if n > 0 then Returning(n) else if st.buffer != [] then Idle else Checking(sid))
  }

  function Next(s: State, a: Action, most: nat): State
    requires Enabled(s, a, most)
  {
    match a
    case LoadBucket => s.(recv := if s.bucket <= 0 then CheckDie else Reading)
    case LookDie => s.(recv := if s.closed then Reading else Park)
    case Unpark => s.(recv := Load, notify := false)
    case Receive(f) =>
      s.(recv := if f.cmd == CMD_NOP || f.cmd == CMD_ACK then Load else if f.cmd <= CMD_EMP then Locking(f) else Done)
    case Fail => s.(recv := Done)
    case Handle => Handled(s, s.recv.f)
    case Charge => s.(recv := Pushing(s.recv.f), bucket := s.bucket - |s.recv.f.data|)
    case Push =>
      var f := s.recv.f;
      var st := if f.sid in s.all then s.all[f.sid] else FRESH;
      s.(recv := Load, lock := Free,
         all := s.all[f.sid := st.(buffer := st.buffer + f.data, pushed := st.pushed + f.data)])
    case OpenStream(t, sid) => s.(all := s.all[sid := FRESH], open := s.open + {sid})
    case Read(t, sid, max) => ReadFrom(s, t, sid, max)
    case CheckFlag(t) => Now(s, t, if At(s, t).sid in s.reset then Eof(At(s, t).sid) else Idle)
    case Return(t) =>
      var b := s.bucket + At(s, t).n;
      Now(s.(bucket := b), t, if b > 0 then Posting else Idle)
    case Post(t) => Now(s.(notify := true), t, Idle)
    case CloseStream(t, sid) =>
      if sid in s.dead then Now(s, t, Idle) else Now(s.(dead := s.dead + {sid}), t, Closing(sid))
    case Recycle(t) =>
      var sid := At(s, t).sid;
      var st := s.all[sid];
      var after := s.(lock := ByWorker(t), all := s.all[sid := st.(buffer := [], lost := st.lost + st.buffer)]);
      Now(after, t, if st.buffer != [] then Refunding(sid, |st.buffer|) else Deleting(sid))
    case Refund(t) =>
      var b := s.bucket + At(s, t).n;
      Now(s.(bucket := b), t, if b > 0 then PostingLocked(At(s, t).sid) else Deleting(At(s, t).sid))
    case PostLocked(t) => Now(s.(notify := true), t, Deleting(At(s, t).sid))
    case Delete(t) => Now(s.(open := s.open - {At(s, t).sid}, lock := Free), t, Idle)
    case CloseSession(t) => if s.closed then s else Now(s.(closed := true), t, Sweeping)
    case Sweep(t) => Now(s.(dead := s.dead + s.open), t, Posting)
    case Tick(t) => Now(s, t, Posting)
  }

  function Init(max: nat): State {
    State(max, false, false, Free, map[], {}, {}, {}, Load, map[])
  }

  predicate Run(s: State, actions: seq<Action>, t: State, most: nat)
    decreases |actions|
  {
    if actions == [] then s == t
    else Enabled(s, actions[0], most) && Run(Next(s, actions[0], most), actions[1..], t, most)
  }

  // Locks and streams.

  predicate HasLock(w: Worker) {
    w.Refunding? || w.PostingLocked? || w.Deleting?
  }

  predicate IsClosing(w: Worker) {
    w.Closing? || HasLock(w)
  }

  ghost predicate Locked(s: State) {
    && (s.recv.Charging? || s.recv.Pushing? ==> s.lock == ByRecvLoop)
    && (forall t: Tid :: HasLock(At(s, t)) ==> s.lock == ByWorker(t))
  }

  /** A stream that nobody closes is in the map; one that is not in the map holds nothing. */
  ghost predicate Known(s: State) {
    && (forall sid: Sid :: sid in s.open ==> sid in s.all)
    && (forall sid: Sid :: sid in s.all && sid !in s.dead ==> sid in s.open)
    && (forall t: Tid :: At(s, t).Checking? ==> At(s, t).sid in s.all)
  }

  /** streamClosed finds its stream in the map. */
  ghost predicate InMap(s: State) {
    forall t: Tid :: IsClosing(At(s, t)) ==> At(s, t).sid in s.open && At(s, t).sid in s.dead
  }

  /** It runs once for a stream. */
  ghost predicate ClosedOnce(s: State) {
    forall t: Tid, u: Tid ::
      IsClosing(At(s, t)) && IsClosing(At(s, u)) && At(s, t).sid == At(s, u).sid ==> t == u
  }

  function Buffer(s: State, sid: Sid): seq<Octet> {
    if sid in s.all then s.all[sid].buffer else []
  }

  /** A stream that is not in the map holds nothing, nor does one just recycled. */
  ghost predicate Emptied(s: State) {
    && (forall sid: Sid :: sid !in s.open ==> Buffer(s, sid) == [])
    && (forall t: Tid :: HasLock(At(s, t)) ==> Buffer(s, At(s, t).sid) == [])
    && (s.recv.Charging? || s.recv.Pushing? ==> s.recv.f.sid in s.open && s.recv.f.cmd == CMD_PSH)
  }

  ghost predicate Registered(s: State) {
    Known(s) && InMap(s) && ClosedOnce(s) && Emptied(s)
  }

  // What one step changes.

  /** A stream after a step: appended to, taken from, emptied, or as it was. */
  function StreamAfter(s: State, a: Action, sid: Sid): Stream
    requires sid in s.all
  {
    var st := s.all[sid];
    if a.Push? && s.recv.Pushing? && s.recv.f.sid == sid then
      st.(buffer := st.buffer + s.recv.f.data, pushed := st.pushed + s.recv.f.data)
    else if a.Read? && a.sid == sid then
      var n := if a.max < |st.buffer| then a.max else |st.buffer|;
      st.(buffer := st.buffer[n..], read := st.read + st.buffer[..n])
    else if a.Recycle? && At(s, a.t).Closing? && At(s, a.t).sid == sid then
      st.(buffer := [], lost := st.lost + st.buffer)
    else st
  }

  lemma StreamStep(s: State, a: Action, most: nat, sid: Sid)
    requires Enabled(s, a, most) && sid in s.all
    ensures sid in Next(s, a, most).all && Next(s, a, most).all[sid] == StreamAfter(s, a, sid)
  {
  }

  lemma NewStream(s: State, a: Action, most: nat, sid: Sid)
    requires Enabled(s, a, most) && (s.recv.Pushing? ==> s.recv.f.sid in s.all)
    requires sid !in s.all && sid in Next(s, a, most).all
    ensures Next(s, a, most).all[sid] == FRESH
  {
  }

  lemma SetsStep(s: State, a: Action, most: nat)
    requires Enabled(s, a, most)
    ensures var n := Next(s, a, most);
            && s.dead <= n.dead && s.reset <= n.reset
            && (forall sid: Sid :: sid in n.open && sid !in s.open ==> sid !in s.all && sid in n.all)
            && (forall sid: Sid :: sid in s.open && sid !in n.open ==> a.Delete? && At(s, a.t).Deleting? && At(s, a.t).sid == sid)
  {
  }

  /** Whoever holds the lock for a closed stream keeps it until the stream leaves the map. */
  lemma HolderStep(s: State, a: Action, most: nat, t: Tid)
    requires Enabled(s, a, most) && Locked(s) && HasLock(At(s, t))
    ensures var n := Next(s, a, most);
            if a == Delete(t) then At(s, t).sid !in n.open
            else HasLock(At(n, t)) && At(n, t).sid == At(s, t).sid && n.lock == s.lock
  {
  }

  /** The lock is taken by recycling a stream. */
  lemma NewHolder(s: State, a: Action, most: nat, t: Tid)
    requires Enabled(s, a, most) && HasLock(At(Next(s, a, most), t))
    ensures var n := Next(s, a, most);
            if HasLock(At(s, t)) then At(n, t).sid == At(s, t).sid
            else a == Recycle(t) && At(s, t).Closing? && At(n, t).sid == At(s, t).sid && n.lock == ByWorker(t)
  {
  }

  lemma LockedStep(s: State, a: Action, most: nat)
    requires Locked(s) && Enabled(s, a, most)
    ensures Locked(Next(s, a, most))
  {
  }

  lemma KnownStep(s: State, a: Action, most: nat)
    requires Registered(s) && Enabled(s, a, most)
    ensures Known(Next(s, a, most))
  {
    hide ClosedOnce;
    var n := Next(s, a, most);
    if a.Delete? {
      assert IsClosing(At(s, a.t));
    }
    forall t: Tid | At(n, t).Checking? ensures At(n, t).sid in n.all {
      CheckingStays(s, a, most, t);
    }
  }

  lemma CheckingStays(s: State, a: Action, most: nat, t: Tid)
    requires Known(s) && Emptied(s) && Enabled(s, a, most) && At(Next(s, a, most), t).Checking?
    ensures At(Next(s, a, most), t).sid in Next(s, a, most).all
  {
    assert At(s, t).Checking? || a.Read?;
  }

  lemma InMapStep(s: State, a: Action, most: nat)
    requires Registered(s) && Enabled(s, a, most)
    ensures InMap(Next(s, a, most))
  {
    hide Emptied;
    var n := Next(s, a, most);
    forall t: Tid | IsClosing(At(n, t)) ensures At(n, t).sid in n.open && At(n, t).sid in n.dead {
      StillClosing(s, a, most, t);
      if a.Delete? {
        assert IsClosing(At(s, a.t)) && a.t != t;
      }
    }
  }

  lemma StillClosing(s: State, a: Action, most: nat, t: Tid)
    requires Enabled(s, a, most) && IsClosing(At(Next(s, a, most), t))
    ensures var sid := At(Next(s, a, most), t).sid;
            (a == CloseStream(t, sid) && sid !in s.dead) || (IsClosing(At(s, t)) && At(s, t).sid == sid)
  {
  }

  lemma ClosedOnceStep(s: State, a: Action, most: nat)
    requires Registered(s) && Enabled(s, a, most)
    ensures ClosedOnce(Next(s, a, most))
  {
    hide Emptied, Known, Next, Enabled, At;
    var n := Next(s, a, most);
    forall t: Tid, u: Tid | IsClosing(At(n, t)) && IsClosing(At(n, u)) && At(n, t).sid == At(n, u).sid
      ensures t == u
    {
      StillClosing(s, a, most, t);
      StillClosing(s, a, most, u);
    }
  }

  lemma EmptiedStep(s: State, a: Action, most: nat)
    requires Locked(s) && Registered(s) && Enabled(s, a, most)
    ensures Emptied(Next(s, a, most))
  {
    hide ClosedOnce, InMap;
    var n := Next(s, a, most);
    forall sid: Sid | sid !in n.open ensures Buffer(n, sid) == [] {
      if a.Delete? {
        assert HasLock(At(s, a.t));
      }
    }
    forall t: Tid | HasLock(At(n, t)) ensures Buffer(n, At(n, t).sid) == [] {
      RecycledStays(s, a, most, t);
    }
    PushTargetStays(s, a, most);
  }

  lemma RecycledStays(s: State, a: Action, most: nat, t: Tid)
    requires Locked(s) && Registered(s) && Enabled(s, a, most) && HasLock(At(Next(s, a, most), t))
    ensures Buffer(Next(s, a, most), At(Next(s, a, most), t).sid) == []
  {
    NewHolder(s, a, most, t);
    var sid := At(s, t).sid;
    assert IsClosing(At(s, t)) && sid in s.all;
    StreamStep(s, a, most, sid);
    hide Next, Enabled, ClosedOnce, Known;
  }

  lemma PushTargetStays(s: State, a: Action, most: nat)
    requires Locked(s) && Emptied(s) && Enabled(s, a, most)
    ensures var n := Next(s, a, most);
            n.recv.Charging? || n.recv.Pushing? ==> n.recv.f.sid in n.open && n.recv.f.cmd == CMD_PSH
  {
    if a.Delete? {
      assert HasLock(At(s, a.t));
    }
  }

  ghost predicate Inv(s: State) {
    Locked(s) && Registered(s)
  }

  lemma InvStep(s: State, a: Action, most: nat)
    requires Inv(s) && Enabled(s, a, most)
    ensures Inv(Next(s, a, most))
  {
    LockedStep(s, a, most);
    KnownStep(s, a, most);
    InMapStep(s, a, most);
    ClosedOnceStep(s, a, most);
    EmptiedStep(s, a, most);
  }

  /** streamClosed never looks up a stream that is not there, whatever closes meanwhile. */
  lemma CloserFindsStream(s: State, t: Tid)
    requires Inv(s) && At(s, t).Closing?
    ensures At(s, t).sid in s.open && At(s, t).sid in s.all
    ensures s.lock.Free? ==> forall most: nat :: Enabled(s, Recycle(t), most)
  {
    assert IsClosing(At(s, t));
  }
}
