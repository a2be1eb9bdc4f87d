/** The methods of Session and Stream in lib/smux that recvLoop, readers and closers run, on the
    fields that they update. Each method, when nothing interferes, is the run of its goroutine's
    steps in Receiver. */
module Sessions {
  import opened Octets
  import opened SmuxFrame
  import opened Receiver

  /** What a goroutine does next. */
  function NextOf(t: Tid, w: Worker): Action {
    match w
    case Checking(_) => CheckFlag(t)
    case Eof(sid) => CloseStream(t, sid)
    case Returning(_) => Return(t)
    case Posting => Post(t)
    case Closing(_) => Recycle(t)
    case Refunding(_, _) => Refund(t)
    case PostingLocked(_) => PostLocked(t)
    case Deleting(_) => Delete(t)
    case Sweeping => Sweep(t)
    case Idle => Tick(t)
  }

  /** How many steps it may have left. */
  function Rank(w: Worker): nat {
    match w
    case Checking(_) => 8
    case Eof(_) => 7
    case Closing(_) => 6
    case Refunding(_, _) => 5
    case PostingLocked(_) => 4
    case Deleting(_) => 3
    case Returning(_) => 2
    case Sweeping => 2
    case Posting => 1
    case Idle => 0
  }

  /** Goroutine t runs on alone until it is done or has to wait. */
  function Alone(s: State, t: Tid, most: nat): State
    decreases Rank(At(s, t))
  {
    var a := NextOf(t, At(s, t));
    if At(s, t).Idle? || !Enabled(s, a, most) then s else Alone(Next(s, a, most), t, most)
  }

  lemma AloneStep(s: State, t: Tid, most: nat)
    requires !At(s, t).Idle? && Enabled(s, NextOf(t, At(s, t)), most)
    ensures Alone(s, t, most) == Alone(Next(s, NextOf(t, At(s, t)), most), t, most)
  {
  }

  lemma AloneDone(s: State, t: Tid, most: nat)
    requires At(s, t).Idle?
    ensures Alone(s, t, most) == s
  {
  }

  /** recvLoop deals with the frame it has read. */
  function Dealt(s: State, most: nat): State
    requires Enabled(s, Handle, most)
  {
    var h := Next(s, Handle, most);
    if h.recv.Charging? then Next(Next(h, Charge, most), Push, most) else h
  }

  // What the goroutines have done when they are done.

  function Refilled(s: State, n: nat): State {
    s.(bucket := s.bucket + n, notify := s.notify || s.bucket + n > 0)
  }

  function Removed(s: State, sid: Sid): State
    requires sid in s.all
  {
    var st := s.all[sid];
    var e := s.(all := s.all[sid := st.(buffer := [], lost := st.lost + st.buffer)], open := s.open - {sid});
    if st.buffer == [] then e else Refilled(e, |st.buffer|)
  }

  lemma ReturningAlone(s: State, t: Tid, most: nat)
    requires At(s, t).Returning?
    ensures Alone(s, t, most) == Now(Refilled(s, At(s, t).n), t, Idle)
  {
    hide Alone;
    AloneStep(s, t, most);
    var s1 := Next(s, Return(t), most);
    if At(s1, t).Posting? {
      AloneStep(s1, t, most);
    }
    AloneDone(Now(Refilled(s, At(s, t).n), t, Idle), t, most);
    assert s.workers[t := Posting][t := Idle] == s.workers[t := Idle];
  }

  lemma RefundingAlone(s: State, t: Tid, most: nat)
    requires At(s, t).Refunding?
    ensures Alone(s, t, most) ==
      Now(Refilled(s, At(s, t).n).(open := s.open - {At(s, t).sid}, lock := Free), t, Idle)
  {
    hide Alone;
    var sid := At(s, t).sid;
    AloneStep(s, t, most);
    var s1 := Next(s, Refund(t), most);
    var s2 := if At(s1, t).PostingLocked? then Next(s1, PostLocked(t), most) else s1;
    if At(s1, t).PostingLocked? {
      AloneStep(s1, t, most);
    }
    assert s2.workers == s.workers[t := Deleting(sid)];
    DeletingAlone(s2, t, most);
    assert s.workers[t := Deleting(sid)][t := Idle] == s.workers[t := Idle];
  }

  lemma DeletingAlone(s: State, t: Tid, most: nat)
    requires At(s, t).Deleting?
    ensures Alone(s, t, most) == Now(s.(open := s.open - {At(s, t).sid}, lock := Free), t, Idle)
  {
    hide Alone;
    AloneStep(s, t, most);
    AloneDone(Next(s, Delete(t), most), t, most);
  }

  /** streamClosed, with the lock free. */
  lemma ClosingAlone(s: State, t: Tid, most: nat)
    requires At(s, t).Closing? && s.lock.Free? && At(s, t).sid in s.open && At(s, t).sid in s.all
    ensures Alone(s, t, most) == Now(Removed(s, At(s, t).sid), t, Idle)
  {
    hide Alone;
    var sid := At(s, t).sid;
    AloneStep(s, t, most);
    var s1 := Next(s, Recycle(t), most);
    if s.all[sid].buffer != [] {
      RefundingAlone(s1, t, most);
    } else {
      DeletingAlone(s1, t, most);
    }
    assert s.workers[t := At(s1, t)][t := Idle] == s.workers[t := Idle];
  }

  /** What closing a stream comes to. */
  function Closed(s: State, sid: Sid): State
    requires sid in s.all
  {
    if sid in s.dead then s else Removed(s.(dead := s.dead + {sid}), sid)
  }

  lemma CloseAlone(s: State, t: Tid, most: nat, sid: Sid)
    requires At(s, t).Idle? && s.lock.Free? && sid in s.all && (sid !in s.dead ==> sid in s.open)
    ensures Alone(Next(s, CloseStream(t, sid), most), t, most) == Now(Closed(s, sid), t, Idle)
  {
    hide Alone;
    var s1 := Next(s, CloseStream(t, sid), most);
    if sid in s.dead {
      AloneDone(s1, t, most);
    } else {
      ClosingAlone(s1, t, most);
      assert s.workers[t := Closing(sid)][t := Idle] == s.workers[t := Idle];
    }
  }

  lemma EofAlone(s: State, t: Tid, most: nat, sid: Sid)
    requires At(s, t) == Eof(sid) && s.lock.Free? && sid in s.all && (sid !in s.dead ==> sid in s.open)
    ensures Alone(s, t, most) == Now(Closed(s, sid), t, Idle)
  {
    hide Alone;
    AloneStep(s, t, most);
    var s1 := Next(s, CloseStream(t, sid), most);
    if sid in s.dead {
      AloneDone(s1, t, most);
    } else {
      ClosingAlone(s1, t, most);
      assert s.workers[t := Closing(sid)][t := Idle] == s.workers[t := Idle];
    }
  }

  /** What a Read comes to: bytes and their tokens, or nothing to read, or the end. */
  function ReadDone(s: State, t: Tid, sid: Sid, max: nat): State
    requires sid in s.all
  {
    var n := if max < |s.all[sid].buffer| then max else |s.all[sid].buffer|;
    var r := ReadFrom(s, t, sid, max);
    if n > 0 then Now(Refilled(r, n), t, Idle)
    else if s.all[sid].buffer == [] && sid in s.reset then Now(Closed(r, sid), t, Idle)
    else Now(r, t, Idle)
  }

  lemma ReadAlone(s: State, t: Tid, most: nat, sid: Sid, max: nat)
    requires At(s, t).Idle? && s.lock.Free? && sid in s.all && (sid !in s.dead ==> sid in s.open)
    ensures Alone(Next(s, Read(t, sid, max), most), t, most) == ReadDone(s, t, sid, max)
  {
    hide Alone;
    var s1 := Next(s, Read(t, sid, max), most);
    if At(s1, t).Returning? {
      ReturningAlone(s1, t, most);
    } else if At(s1, t).Idle? {
      AloneDone(s1, t, most);
      assert s1.workers[t := Idle] == s1.workers;
    } else {
      AloneStep(s1, t, most);
      var s2 := Next(s1, CheckFlag(t), most);
      if sid in s.reset {
        EofAlone(s2, t, most, sid);
        assert s2 == s1.(workers := s1.workers[t := Eof(sid)]);
        assert s1.workers[t := Eof(sid)][t := Idle] == s1.workers[t := Idle];
      } else {
        AloneDone(s2, t, most);
      }
    }
  }

  datatype Outcome = Bytes(bytes: seq<Octet>) | EndOfFile | Wait

  lemma SweepAlone(s: State, t: Tid, most: nat)
    requires At(s, t).Sweeping? && s.lock.Free?
    ensures Alone(s, t, most) == Now(s.(dead := s.dead + s.open, notify := true), t, Idle)
  {
    hide Alone;
    AloneStep(s, t, most);
    var s1 := Next(s, Sweep(t), most);
    AloneStep(s1, t, most);
    AloneDone(Next(s1, Post(t), most), t, most);
    assert s.workers[t := Posting][t := Idle] == s.workers[t := Idle];
  }

  /** Running alone is a run, so that everything proved of runs holds after it. */
  lemma {:induction false} AloneIsRun(s: State, t: Tid, most: nat) returns (actions: seq<Action>)
    ensures Run(s, actions, Alone(s, t, most), most)
    decreases Rank(At(s, t))
  {
    var a := NextOf(t, At(s, t));
    if At(s, t).Idle? || !Enabled(s, a, most) {
      actions := [];
    } else {
      RankFalls(s, t, most);
      var rest := AloneIsRun(Next(s, a, most), t, most);
      AloneStep(s, t, most);
      hide Next, Enabled, Alone;
      actions := [a] + rest;
      assert actions[1..] == rest;
    }
  }

  lemma RankFalls(s: State, t: Tid, most: nat)
    requires !At(s, t).Idle? && Enabled(s, NextOf(t, At(s, t)), most)
    ensures Rank(At(Next(s, NextOf(t, At(s, t)), most), t)) < Rank(At(s, t))
  {
  }

  /** The unread bytes of a stream were dropped. */
  predicate Gone(was: map<Sid, Stream>, now: map<Sid, Stream>, sid: Sid)
    requires sid in was
  {
    var st := was[sid]; now == was[sid := st.(buffer := [], lost := st.lost + st.buffer)]
  }

  /** Reading or dropping an empty buffer changes nothing. */
  lemma EmptyRead(was: map<Sid, Stream>, sid: Sid)
    requires sid in was && was[sid].buffer == []
    ensures var st := was[sid];
            && st.(buffer := st.buffer[0..], read := st.read + st.buffer[..0]) == st
            && st.(buffer := [], lost := st.lost + st.buffer) == st && was[sid := st] == was
  {
  }

  class Session {
    var bucket: int
    var bucketNotify: bool
    var closed: bool
    var all: map<Sid, Stream>
    var open: set<Sid>
    var dead: set<Sid>
    var rst: set<Sid>
    var frames: seq<Frame>      // what was handed to writeFrame
    var connClosed: bool

    /** The fields as a state of the step system. */
    ghost function Abs(recv: RecvLoop, workers: map<Tid, Worker>): State
      reads this
    {
      State(bucket, bucketNotify, closed, Free, all, open, dead, rst, recv, workers)
    }

    predicate Valid()
      reads this
    {
      forall sid :: sid in open ==> sid in all
    }

    /** newSession. */
    constructor (max: nat)
      ensures Valid() && Abs(Load, map[]) == Init(max) && frames == [] && !connClosed
      ensures bucket == max && !bucketNotify && !closed && all == map[] && open == dead == rst == {}
    {
      bucket := max;
      bucketNotify, closed := false, false;
      all, open, dead, rst := map[], {}, {}, {};
      frames, connClosed := [], false;
    }

    method NotifyBucket()
      modifies `bucketNotify
      ensures bucketNotify
    {
      bucketNotify := true;
    }

    /** returnTokens of the session. */
    method ReturnTokens(n: nat, ghost recv: RecvLoop, ghost ws: map<Tid, Worker>, ghost t: Tid, ghost most: nat)
      requires t in ws && ws[t].Idle?
      modifies `bucket, `bucketNotify
      ensures Abs(recv, ws) == Alone(old(Abs(recv, ws[t := Returning(n)])), t, most)
      ensures bucket == old(bucket) + n && bucketNotify == (old(bucketNotify) || bucket > 0)
    {
      ReturningAlone(Abs(recv, ws[t := Returning(n)]), t, most);
      bucket := bucket + n;
      if bucket > 0 {
        NotifyBucket();
      }
      assert ws[t := Returning(n)][t := Idle] == ws;
    }

    /** recycleTokens of a stream. */
    method RecycleTokens(sid: Sid) returns (n: nat)
      requires sid in all
      modifies `all
      ensures n == |old(all)[sid].buffer|
      ensures var st := old(all)[sid]; all == old(all)[sid := st.(buffer := [], lost := st.lost + st.buffer)]
    {
      var st := all[sid];
      n := |st.buffer|;
      all := all[sid := st.(buffer := [], lost := st.lost + st.buffer)];
    }

    /** streamClosed, which needs the stream to be in the map. */
    method StreamClosed(sid: Sid, ghost recv: RecvLoop, ghost ws: map<Tid, Worker>)
      requires Valid() && sid in open
      modifies `bucket, `bucketNotify, `all, `open
      ensures Valid() && Abs(recv, ws) == Removed(old(Abs(recv, ws)), sid)
      ensures Gone(old(all), all, sid) && open == old(open) - {sid}
      ensures var n := |old(all)[sid].buffer|;
              bucket == old(bucket) + n && bucketNotify == (old(bucketNotify) || (n > 0 && bucket > 0))
    {
      var n := RecycleTokens(sid);
      if n > 0 {
        bucket := bucket + n;
        if bucket > 0 {
          NotifyBucket();
        }
      }
      open := open - {sid};
    }

    /** Close of a stream; writeFails is the outcome of writeFrame. */
    method CloseStream(sid: Sid, writeFails: bool, ghost recv: RecvLoop, ghost ws: map<Tid, Worker>, ghost t: Tid,
                       ghost most: nat)
      returns (failed: bool)
      requires Valid() && sid in all && (sid !in dead ==> sid in open) && t in ws && ws[t].Idle?
      modifies `bucket, `bucketNotify, `all, `open, `dead, `frames
      ensures Valid() && failed == if sid in old(dead) then sid !in old(rst) else writeFails
      ensures frames == old(frames) + if sid in old(dead) then [] else [NewFrame(CMD_FIN, sid)]
      ensures dead == old(dead) + {sid}
      ensures sid in old(dead) ==>
                all == old(all) && open == old(open) && bucket == old(bucket) && bucketNotify == old(bucketNotify)
      ensures sid !in old(dead) ==>
                && Gone(old(all), all, sid) && open == old(open) - {sid}
                && var n := |old(all)[sid].buffer|;
                   bucket == old(bucket) + n && bucketNotify == (old(bucketNotify) || (n > 0 && bucket > 0))
      ensures Abs(recv, ws) == Alone(Next(old(Abs(recv, ws)), Action.CloseStream(t, sid), most), t, most)
    {
      ghost var s := Abs(recv, ws);
      CloseAlone(s, t, most, sid);
      assert ws[t := Idle] == ws;
      if sid in dead {
        return sid !in rst;
      }
      dead := dead + {sid};
      StreamClosed(sid, recv, ws);
      frames := frames + [NewFrame(CMD_FIN, sid)];
      failed := writeFails;
    }

    /** Read of a stream, until it would wait. */
    method Read(sid: Sid, max: nat, writeFails: bool, ghost recv: RecvLoop, ghost ws: map<Tid, Worker>, ghost t: Tid,
                ghost most: nat)
      returns (r: Outcome)
      requires Valid() && sid in all && (sid !in dead ==> sid in open) && t in ws && ws[t].Idle?
      modifies `bucket, `bucketNotify, `all, `open, `dead, `frames
      ensures Valid()
      ensures frames == old(frames) + if r == EndOfFile && sid !in old(dead) then [NewFrame(CMD_FIN, sid)] else []
      ensures Abs(recv, ws) == Alone(Next(old(Abs(recv, ws)), Action.Read(t, sid, max), most), t, most)
      ensures var b := old(all)[sid].buffer;
              r == if b != [] then Bytes(if max < |b| then b[..max] else b) else if sid in rst then EndOfFile else Wait
      ensures var st := old(all)[sid]; var n := if max < |st.buffer| then max else |st.buffer|;
              && bucket == old(bucket) + n && bucketNotify == (old(bucketNotify) || (n > 0 && bucket > 0))
              && all == old(all)[sid := st.(buffer := st.buffer[n..], read := st.read + st.buffer[..n])]
      ensures if r == EndOfFile && sid !in old(dead) then open == old(open) - {sid} else open == old(open)
      ensures dead == if r == EndOfFile then old(dead) + {sid} else old(dead)
    {
      hide Alone, Next;
      ghost var s := Abs(recv, ws);
      ReadAlone(s, t, most, sid, max);
      if all[sid].buffer == [] {
        EmptyRead(all, sid);
      }
      r := ReadSteps(sid, max, writeFails, recv, ws, t, most);
    }

    /** The steps of that. */
    method ReadSteps(sid: Sid, max: nat, writeFails: bool, ghost recv: RecvLoop, ghost ws: map<Tid, Worker>, ghost t: Tid,
                     ghost most: nat)
      returns (r: Outcome)
      requires Valid() && sid in all && (sid !in dead ==> sid in open) && t in ws && ws[t].Idle?
      modifies `bucket, `bucketNotify, `all, `open, `dead, `frames
      ensures Valid()
      ensures frames == old(frames) + if r == EndOfFile && sid !in old(dead) then [NewFrame(CMD_FIN, sid)] else []
      ensures Abs(recv, ws) == Alone(Next(old(Abs(recv, ws)), Action.Read(t, sid, max), most), t, most)
      ensures var b := old(all)[sid].buffer;
              r == if b != [] then Bytes(if max < |b| then b[..max] else b) else if sid in rst then EndOfFile else Wait
    {
      ghost var s := Abs(recv, ws);
      ReadAlone(s, t, most, sid, max);
      hide Alone, Next;
      assert ws[t := Idle] == ws;
      ghost var st := all[sid];
      var bytes, rem := ReadBuffer(sid, max);
      ghost var mid := Abs(recv, ws);
      if |bytes| > 0 {
        ReturnTokens(|bytes|, recv, ws, t, most);
        ReturningAlone(mid.(workers := ws[t := Returning(|bytes|)]), t, most);
        assert ws[t := Returning(|bytes|)][t := Idle] == ws;
        return Bytes(bytes);
      } else if rem > 0 {
        return Bytes([]);
      } else if sid in rst {
        hide Gone, ReadFrom;
        var failed := CloseStream(sid, writeFails, recv, ws, t, most);
        CloseAlone(mid, t, most, sid);
        return EndOfFile;
      }
      r := Wait;
    }

    /** The buffer's Read, and how much is left. */
    method ReadBuffer(sid: Sid, max: nat) returns (bytes: seq<Octet>, rem: nat)
      requires sid in all
      modifies `all
      ensures var st := old(all)[sid]; var n := if max < |st.buffer| then max else |st.buffer|;
              && bytes == st.buffer[..n] && rem == |st.buffer| - n
              && all == old(all)[sid := st.(buffer := st.buffer[n..], read := st.read + st.buffer[..n])]
    {
      var st := all[sid];
      var n := if max < |st.buffer| then max else |st.buffer|;
      all := all[sid := st.(buffer := st.buffer[n..], read := st.read + st.buffer[..n])];
      bytes, rem := st.buffer[..n], |st.buffer| - n;
    }

    /** Close of the session; connFails is the outcome of the connection's Close. */
    method Close(connFails: bool, ghost recv: RecvLoop, ghost ws: map<Tid, Worker>, ghost t: Tid, ghost most: nat)
      returns (failed: bool)
      requires Valid() && t in ws && ws[t].Idle?
      modifies `closed, `dead, `bucketNotify, `connClosed
      ensures Valid() && failed == (old(closed) || connFails) && connClosed == (old(connClosed) || !old(closed))
      ensures Abs(recv, ws) == Alone(Next(old(Abs(recv, ws)), CloseSession(t), most), t, most)
      ensures closed && dead == old(dead) + (if old(closed) then {} else open)
      ensures bucketNotify == (old(bucketNotify) || !old(closed))
    {
      ghost var s1 := Next(Abs(recv, ws), CloseSession(t), most);
      assert ws[t := Idle] == ws && ws[t := Sweeping][t := Idle] == ws;
      if closed {
        AloneDone(s1, t, most);
        return true;
      }
      SweepAlone(s1, t, most);
      hide Alone, Next;
      closed := true;
      dead := dead + open;
      NotifyBucket();
      connClosed := true;
      failed := connFails;
    }

    /** The switch of recvLoop, for the commands that concern a stream. */
    method Receive(f: Frame, ghost ws: map<Tid, Worker>, ghost most: nat)
      requires Valid() && CMD_SYN <= f.cmd <= CMD_EMP && f.cmd != CMD_NOP && f.cmd != CMD_ACK
      requires Honest(Abs(Locking(f), ws), f, most)
      modifies `bucket, `all, `open, `rst
      ensures Valid() && Abs(Load, ws) == Dealt(old(Abs(Locking(f), ws)), most)
      ensures open == if f.cmd == CMD_SYN then old(open) + {f.sid} else old(open)
      ensures rst == if f.cmd == CMD_FIN && f.sid in open then old(rst) + {f.sid} else old(rst)
      ensures bucket == old(bucket) - if f.cmd == CMD_PSH && f.sid in open then |f.data| else 0
      ensures f.cmd == CMD_SYN && f.sid !in old(open) ==> all == old(all)[f.sid := Stream([], [], [], [])]
      ensures f.cmd == CMD_PSH && f.sid in open ==>
                var st := old(all)[f.sid];
                all == old(all)[f.sid := st.(buffer := st.buffer + f.data, pushed := st.pushed + f.data)]
      ensures !(f.cmd == CMD_SYN && f.sid !in old(open)) && !(f.cmd == CMD_PSH && f.sid in open) ==> all == old(all)
    {
      if f.cmd == CMD_SYN {
        if f.sid !in open {
          all := all[f.sid := FRESH];
          open := open + {f.sid};
        }
      } else if f.cmd == CMD_FIN {
        if f.sid in open {
          rst := rst + {f.sid};
        }
      } else if f.cmd == CMD_PSH {
        if f.sid in open {
          bucket := bucket - |f.data|;
          PushBytes(f.sid, f.data);
        }
      }
    }

    /** pushBytes, as far as the buffer goes. */
    method PushBytes(sid: Sid, p: seq<Octet>)
      requires sid in all
      modifies `all
      ensures var st := old(all)[sid]; all == old(all)[sid := st.(buffer := st.buffer + p, pushed := st.pushed + p)]
    {
      var st := all[sid];
      all := all[sid := st.(buffer := st.buffer + p, pushed := st.pushed + p)];
    }
  }
}
