/** The direction of Delivery with WriteRequestQueueSize 1, which the configuration allows: a FIN
    can then overtake the data before it. */
module ShortQueue {
  import opened SmuxFrame
  import opened Sids
  import opened Integrity
  import opened Delivery
  import opened SendStretches
  import opened Stretches
  import S = SendLoop
  import R = Receiver

  // The run: OpenStream, then Write of one byte, and Close before the byte is written.

  predicate Short(c: Config) {
    c.size == 1 && 0 < c.frameSize <= MAX_PAYLOAD && 0 <= c.side <= 1
  }

  function First(c: Config): Sid
    requires Short(c)
  {
    2 + c.side
  }

  function Psh(sid: Sid): Request {
    OneByte(sid, 1)
  }

  lemma LanesOf(c: Config)
    requires Short(c)
    ensures var k := S.Stream(First(c));
            S.Lane([], k) == [] && S.Lane([Syn(First(c), 0)], k) == [Syn(First(c), 0)]
  {
    S.LaneOne(Syn(First(c), 0), S.Stream(First(c)));
  }

  /** OpenStream has its result. */
  function Opened(c: Config, max: nat): State
    requires Short(c)
  {
    var sid, syn := First(c), Syn(First(c), 0);
    State(S.State(map[sid := []], [], [syn], S.Idle, S.Waiting, false, 0, [syn], [syn], []), Encode(syn.frame), 0,
          R.Init(max), map[sid := []], map[sid := []], {})
  }

  lemma OpenedReachable(c: Config, max: nat)
    requires Short(c)
    ensures Reachable(Opened(c, max), c, max)
  {
    assert Run(Init(max), [], Init(max), c);
    LanesOf(c);
    var sid, syn := First(c), Syn(First(c), 0);
    hide Run, S.Lane, Sorted, Encode;
    var s := Init(max).(send := S.INIT.(disp := S.Received(syn), submitted := [syn]),
                        written := map[sid := []], unsent := map[sid := []]);
    Go(Init(max), Open(sid, 0), s, c, max);
    hide Reachable, Enabled, Next;
    OpenedOn(s, c, max);
  }

  lemma OpenedOn(s: State, c: Config, max: nat)
    requires Short(c) && Reachable(s, c, max)
    requires var sid, syn := First(c), Syn(First(c), 0);
             s == Init(max).(send := S.INIT.(disp := S.Received(syn), submitted := [syn]),
                             written := map[sid := []], unsent := map[sid := []])
    ensures Reachable(Opened(c, max), c, max)
  {
    hide Reachable, S.Lane, Sorted, Encode;
    var sid, syn := First(c), Syn(First(c), 0);
    assert S.Without([syn], syn) == [] && [] + [syn] == [syn] && [] + Encode(syn.frame) == Encode(syn.frame);
    hide Silent;
    var u := Queued(s.send, syn, sid, [], c.size);
    Lift(s, u, c, max);
    var v := Woken(u, sid, c.size);
    v := Popped(u, v, sid, syn, c.size);
    v := SentOn(u, v, syn, c.size);
    Lift(s.(send := u), v, c, max);
    var t := Written(s.(send := v), syn, c, max);
    u := Rested(t.send, c.size);
    Lift(t, u, c, max);
    assert t.(send := u) == Opened(c, max);
  }

  /** Write waits for the result of its only frame, which is queued. */
  function Writing(c: Config, max: nat): State
    requires Short(c)
  {
    var sid, syn, psh := First(c), Syn(First(c), 0), Psh(First(c));
    State(S.State(map[sid := [psh]], [], [syn], S.Idle, S.Waiting, true, 1, [syn, psh], [syn], []), Encode(syn.frame), 0,
          R.Init(max), map[sid := [7]], map[sid := []], {})
  }

  /** Write has split its argument. */
  lemma SplitUp(c: Config, max: nat) returns (t: State)
    requires Short(c)
    ensures Reachable(t, c, max)
    ensures var sid := First(c);
            t == Opened(c, max).(written := map[sid := [7]], unsent := map[sid := [Psh(sid).frame]])
  {
    OpenedReachable(c, max);
    OneFrame(First(c), 1, c);
    LanesOf(c);
    var sid, psh := First(c), Psh(First(c));
    hide Reachable, S.Lane, S.Without, Sorted, Encode, FramesOf;
    t := Opened(c, max).(written := map[sid := [7]], unsent := map[sid := [psh.frame]]);
    assert [] + [7] == [7];
    Go(Opened(c, max), Write(sid, [7]), t, c, max);
  }

  /** And submitted the frame. */
  lemma Submitting(c: Config, max: nat) returns (t: State)
    requires Short(c)
    ensures Reachable(t, c, max)
    ensures var sid, syn, psh := First(c), Syn(First(c), 0), Psh(First(c));
            t == Opened(c, max).(written := map[sid := [7]],
                                 send := Opened(c, max).send.(disp := S.Received(psh), submitted := [syn, psh]))
  {
    LanesOf(c);
    var sid, syn, psh := First(c), Syn(First(c), 0), Psh(First(c));
    hide Reachable, S.Lane, S.Without, Sorted, Encode, FramesOf;
    var s := SplitUp(c, max);
    t := s.(unsent := map[sid := []], send := s.send.(disp := S.Received(psh), submitted := [syn, psh]));
    assert [psh.frame][1..] == [] && [syn] + [psh] == [syn, psh];
    Go(s, SubmitNext(sid, 1), t, c, max);
  }

  lemma WritingReachable(c: Config, max: nat)
    requires Short(c)
    ensures Reachable(Writing(c, max), c, max)
  {
    hide Reachable, S.Lane, S.Without, Sorted, Encode;
    var sid, psh := First(c), Psh(First(c));
    var t := Submitting(c, max);
    assert [] + [psh] == [psh];
    var u := Queued(t.send, psh, sid, [], c.size);
    Lift(t, u, c, max);
    assert t.(send := u) == Writing(c, max);
  }

  /** Close has exchanged the FIN for the frame. */
  function Closing(c: Config, max: nat): State
    requires Short(c)
  {
    var sid, syn, psh, fin := First(c), Syn(First(c), 0), Psh(First(c)), Fin(First(c), 2);
    State(S.State(map[sid := [fin]], [], [syn], S.Forward(psh), S.Waiting, true, 1, [syn, psh, fin], [syn, psh], [psh]),
          Encode(syn.frame), 0, R.Init(max), map[sid := [7]], map[sid := []], {})
  }

  /** Close submits the FIN. */
  lemma Finishing(c: Config, max: nat) returns (t: State)
    requires Short(c)
    ensures Reachable(t, c, max)
    ensures var syn, psh, fin := Syn(First(c), 0), Psh(First(c)), Fin(First(c), 2);
            t == Writing(c, max).(send := Writing(c, max).send.(disp := S.Received(fin), submitted := [syn, psh, fin]))
  {
    WritingReachable(c, max);
    LanesOf(c);
    var syn, psh, fin := Syn(First(c), 0), Psh(First(c)), Fin(First(c), 2);
    hide Reachable, S.Lane, S.Without, Sorted, Encode;
    var s := Writing(c, max);
    assert [syn, psh] + [fin] == [syn, psh, fin];
    t := s.(send := s.send.(disp := S.Received(fin), submitted := [syn, psh, fin]));
    Go(s, Finish(First(c), 2), t, c, max);
  }

  lemma ClosingReachable(c: Config, max: nat)
    requires Short(c)
    ensures Reachable(Closing(c, max), c, max)
  {
    var sid, syn, psh, fin := First(c), Syn(First(c), 0), Psh(First(c)), Fin(First(c), 2);
    hide Reachable, S.Lane, S.Without, Sorted, Encode, Enabled, Next;
    var s := Finishing(c, max);
    assert [syn] + [psh] == [syn, psh] && [] + [psh] == [psh];
    var u := Refused(s.send, psh, fin, sid);
    u := Exchanged(s.send, u, psh, fin, sid);
    Lift(s, u, c, max);
    assert s.(send := u) == Closing(c, max);
  }

  /** The scheduler has sent the FIN, and the writer written it, while the dispatcher still holds
      the frame. */
  lemma FinWritten(c: Config, max: nat) returns (t: State)
    requires Short(c)
    ensures Reachable(t, c, max)
    ensures var sid, syn, fin := First(c), Syn(First(c), 0), Fin(First(c), 2);
            && t.conn == Encode(syn.frame) + Encode(fin.frame) && t.recv == R.Init(max)
            && t.written == map[sid := [7]] && t.unsent == map[sid := []]
  {
    ClosingReachable(c, max);
    var sid, fin := First(c), Fin(First(c), 2);
    hide Reachable, S.Lane, S.Without, Sorted, Encode;
    t := Closing(c, max);
    var u := Woken(t.send, sid, c.size);
    u := Popped(t.send, u, sid, fin, c.size);
    u := QueueGone(t.send, u, sid, fin, c.size);
    u := SentOn(t.send, u, fin, c.size);
    Lift(t, u, c, max);
    t := Written(t.(send := u), fin, c, max);
  }

  /** The acceptor has dealt with the FIN, and the byte that was written before it is missing. */
  lemma FinFirst(c: Config, max: nat) returns (t: State)
    requires Short(c) && max > 0
    ensures Reachable(t, c, max)
    ensures var sid := First(c);
            && sid in t.written && t.written[sid] == [7] && sid in t.unsent && t.unsent[sid] == []
            && sid in t.recv.open && sid in t.recv.reset && Arrived(t, sid) == []
  {
    var sid, syn, fin := First(c), Syn(First(c), 0), Fin(First(c), 2);
    hide Reachable, Encode;
    t := FinWritten(c, max);
    t := Dealt(t, syn.frame, Encode(fin.frame), c, max);
    assert t.conn == Encode(fin.frame) + [];
    t := Dealt(t, fin.frame, [], c, max);
  }

  // The exact condition.

  /** What Delivery.FinMeansAll promises of one stream. */
  ghost predicate Ends(s: State, sid: Sid)
    requires sid in s.written
  {
    sid in s.recv.reset && sid in s.recv.open ==>
      sid in s.unsent && s.written[sid] == Arrived(s, sid) + Data(s.unsent[sid])
  }

  /** The FIN of every stream is the end of its data if and only if the queues hold two. */
  lemma FinEndsIff(c: Config, max: nat)
    requires c.size >= 1 && 0 < c.frameSize <= MAX_PAYLOAD && 0 <= c.side <= 1 && max > 0
    ensures (forall s, sid :: Reachable(s, c, max) && sid in s.written && Mine(sid, c) ==> Ends(s, sid)) <==> c.size >= 2
  {
    if c.size >= 2 {
      forall s, sid | Reachable(s, c, max) && sid in s.written && Mine(sid, c) ensures Ends(s, sid) {
        hide Reachable, Arrived, OnItsWay, Data;
        if sid in s.recv.reset && sid in s.recv.open {
          FinMeansAll(s, c, max, sid);
        }
      }
    } else {
      var t := FinFirst(c, max);
      hide Reachable, Arrived, OnItsWay;
      assert !Ends(t, First(c)) && Mine(First(c), c);
    }
  }
}
