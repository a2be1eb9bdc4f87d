/** The streams that the sending side has accepted. The other side's OpenStream registers a stream
    after its SYN is written, and recvLoop drops the payload of a stream that is not registered. */
module Replies {
  import opened Octets
  import opened SmuxFrame
  import opened SendData
  import opened Integrity
  import opened Delivery
  import S = SendLoop
  import opened SendStretches
  import opened Stretches
  import R = Receiver

  // The receiving side.

  /** What arrived of a stream, and what is in recvLoop's hand. */
  function Total(r: R.State, sid: Sid): seq<Octet> {
    (if sid in r.all then r.all[sid].pushed else []) + InHand(r.recv, sid)
  }

  /** The stream has not been closed. */
  predicate Alive(r: R.State, sid: Sid) {
    sid in r.all ==> sid in r.open
  }

  /** recvLoop meets payload for a stream that is not registered. */
  predicate Early(r: R.State, b: R.Action, sid: Sid) {
    b.Handle? && InHand(r.recv, sid) != [] && sid !in r.open
  }

  lemma TotalStep(r: R.State, b: R.Action, most: nat, sid: Sid)
    requires R.Inv(r) && R.Enabled(r, b, most) && !b.Receive? && Alive(R.Next(r, b, most), sid)
    ensures Alive(r, sid)
    ensures var n := R.Next(r, b, most);
            if Early(r, b, sid) then Total(n, sid) == [] && Total(r, sid) != [] else Total(n, sid) == Total(r, sid)
  {
    hide R.Locked, R.InMap, R.ClosedOnce;
    var n := R.Next(r, b, most);
    R.SetsStep(r, b, most);
    if sid in r.all {
      R.StreamStep(r, b, most, sid);
    } else if sid in n.all {
      R.NewStream(r, b, most, sid);
    }
    HandStep(r, b, most, sid);
    hide R.Next, R.Enabled, InHand;
  }

  /** recvLoop's hand. */
  lemma HandStep(r: R.State, b: R.Action, most: nat, sid: Sid)
    requires R.Emptied(r) && R.Enabled(r, b, most) && !b.Receive?
    ensures InHand(R.Next(r, b, most).recv, sid) ==
      if b.Push? || (b.Handle? && sid !in r.open) then [] else InHand(r.recv, sid)
    ensures b.Push? ==> r.recv.Pushing? && r.recv.f.cmd == CMD_PSH && InHand(r.recv, sid) ==
                                                                      if r.recv.f.sid == sid then r.recv.f.data else []
    ensures b.Push? ==> r.recv.f.sid in r.open
  {
  }

  lemma TotalReceive(r: R.State, x: Request, most: nat, sid: Sid)
    requires r.recv.Reading? && (S.KeyOf(x) == S.Stream(sid) ==> x.frame.cmd == CMD_PSH || x.frame.data == [])
    ensures Total(R.Next(r, R.Receive(x.frame), most), sid) ==
      Total(r, sid) + if S.KeyOf(x) == S.Stream(sid) then x.frame.data else []
    ensures Alive(R.Next(r, R.Receive(x.frame), most), sid) <==> Alive(r, sid)
  {
    ReceiveKeeps(r, x.frame, most);
    hide R.Next;
  }

  // Both sides together.

  /** All that was read of the stream has arrived, or less. */
  predicate Balanced(s: State, sid: Sid, whole: bool) {
    Alive(s.recv, sid) ==>
      if whole then Total(s.recv, sid) == Payload(Seen(s, sid)) else |Total(s.recv, sid)| < |Payload(Seen(s, sid))|
  }

  predicate DropsEarly(s: State, a: Action, sid: Sid) {
    a.RecvStep? && Early(s.recv, a.b, sid)
  }

  lemma BalanceStep(s: State, a: Action, c: Config, sid: Sid, whole: bool)
    requires Whole(s, c) && Enabled(s, a, c) && !Mine(sid, c) && Balanced(s, sid, whole)
    ensures Balanced(Next(s, a, c), sid, whole && !DropsEarly(s, a, sid))
  {
    if a.Deliver? {
      BalanceDeliver(s, a.f, c, sid, whole);
    } else {
      SeenStays(s, a, c, sid);
      if a.RecvStep? {
        BalanceRecv(s, a.b, c, sid, whole);
      }
    }
  }

  lemma BalanceRecv(s: State, b: R.Action, c: Config, sid: Sid, whole: bool)
    requires R.Inv(s.recv) && Enabled(s, RecvStep(b), c) && Balanced(s, sid, whole)
    requires Seen(Next(s, RecvStep(b), c), sid) == Seen(s, sid)
    ensures Balanced(Next(s, RecvStep(b), c), sid, whole && !DropsEarly(s, RecvStep(b), sid))
  {
    hide Seen, Payload, Total, Early, R.Next, R.Enabled, R.Inv;
    if Alive(R.Next(s.recv, b, c.most), sid) {
      TotalStep(s.recv, b, c.most, sid);
    }
  }

  lemma BalanceDeliver(s: State, f: Frame, c: Config, sid: Sid, whole: bool)
    requires Sender(s) && Carried(s) && Source(s, c)
    requires Enabled(s, Deliver(f), c) && !Mine(sid, c) && Balanced(s, sid, whole)
    ensures Balanced(Next(s, Deliver(f), c), sid, whole)
  {
    hide Sender, Carried, Source, Seen, Payload, Total, Alive, R.Next, Decode;
    var x := DeliveredBare(s, f, c, sid);
    SeenGrows(s, f, c, sid);
    TotalReceive(s.recv, x, c.most, sid);
    PayloadPush(Seen(s, sid), x);
    assert Next(s, Deliver(f), c).recv == R.Next(s.recv, R.Receive(f), c.most);
  }

  /** The frame that is read. */
  lemma DeliveredBare(s: State, f: Frame, c: Config, sid: Sid) returns (x: Request)
    requires Sender(s) && Carried(s) && Source(s, c)
    requires Enabled(s, Deliver(f), c) && !Mine(sid, c)
    ensures s.taken < |s.send.wire| && x == s.send.wire[s.taken] && x.frame == f
    ensures S.KeyOf(x) == S.Stream(sid) ==> x.frame.cmd == CMD_PSH || x.frame.data == []
  {
    DeliversNext(s, f, c);
    x := s.send.wire[s.taken];
    SentOnce(s.send, x);
    S.LaneMembers(s.send.submitted, S.Stream(sid));
    assert SourceAt(s, sid, c);
    hide Sender, Carried, Source, S.Lane, Decode;
  }

  /** In the run the payload of the stream comes only after it was registered. */
  ghost predicate InTime(s: State, actions: seq<Action>, sid: Sid, c: Config)
    decreases |actions|
  {
    actions == [] ||
    (Enabled(s, actions[0], c) && !DropsEarly(s, actions[0], sid) && InTime(Next(s, actions[0], c), actions[1..], sid, c))
  }

  lemma {:induction false} BalanceRun(s: State, actions: seq<Action>, t: State, c: Config, sid: Sid, whole: bool)
    requires Whole(s, c) && Run(s, actions, t, c) && !Mine(sid, c) && Balanced(s, sid, whole)
    ensures Whole(t, c) && Balanced(t, sid, whole && InTime(s, actions, sid, c))
    decreases |actions|
  {
    hide Enabled, Next, Balanced, DropsEarly;
    if actions != [] {
      var a, n := actions[0], Next(s, actions[0], c);
      WholeStep(s, a, c);
      BalanceStep(s, a, c, sid, whole);
      hide Whole;
      BalanceRun(n, actions[1..], t, c, sid, whole && !DropsEarly(s, a, sid));
    }
  }

  lemma InitBalanced(c: Config, max: nat, sid: Sid)
    ensures Balanced(Init(max), sid, true)
  {
    assert S.Lane([], S.Stream(sid)) == [];
    assert Payload([]) == [];
  }

  /** Whatever else goes on: until the opener closes the stream, all that the acceptor passes to
      Write has arrived or is on its way if and only if no payload came before the opener had
      registered the stream. */
  lemma ReplyIff(actions: seq<Action>, t: State, c: Config, max: nat, sid: Sid)
    requires Proper(c) && Run(Init(max), actions, t, c) && !Mine(sid, c) && sid in t.written && Alive(t.recv, sid)
    ensures t.written[sid] == Arrived(t, sid) + OnItsWay(t, sid) <==> InTime(Init(max), actions, sid, c)
    ensures InTime(Init(max), actions, sid, c) && sid in t.recv.all && sid !in t.recv.dead ==>
      t.written[sid] == t.recv.all[sid].read + t.recv.all[sid].buffer + OnItsWay(t, sid)
  {
    InitWhole(c, max);
    InitBalanced(c, max, sid);
    hide Run, InTime, Whole;
    BalanceRun(Init(max), actions, t, c, sid, true);
    if sid in t.recv.all {
      ReadParts(t, sid, c);
    }
    WrittenParts(t, sid, c);
    hide Seen, OnConnection, Unwritten, InHand, Payload, Data;
    var conn, unwritten := Payload(OnConnection(t, sid)), Payload(Unwritten(t.send, S.Stream(sid)));
    SameFront(Arrived(t, sid), InHand(t.recv.recv, sid), conn, unwritten, Data(t.unsent[sid]), Payload(Seen(t, sid)));
  }

  lemma SameFront(a: seq<Octet>, h: seq<Octet>, conn: seq<Octet>, unwritten: seq<Octet>, unsent: seq<Octet>,
                  seen: seq<Octet>)
    ensures seen + (conn + unwritten) + unsent == a + (h + conn + unwritten + unsent) <==> seen == a + h
  {
    var rest := conn + unwritten + unsent;
    assert seen + (conn + unwritten) + unsent == seen + rest;
    assert a + (h + conn + unwritten + unsent) == (a + h) + rest;
    if seen + rest == (a + h) + rest {
      assert |seen| == |a + h|;
      assert seen == (seen + rest)[..|seen|] == ((a + h) + rest)[..|seen|] == a + h;
    }
  }

  // A payload that comes too early.

  /** A stream of the receiving side, and a byte for it. */
  function Theirs(c: Config): Sid
    requires 0 <= c.side <= 1
  {
    3 - c.side
  }

  function Byte(sid: Sid): Request {
    OneByte(sid, 0)
  }

  /** The opener has written its SYN, and the acceptor answers with a byte. */
  lemma Answering(c: Config, max: nat) returns (t: State)
    requires Proper(c) && 0 <= c.side <= 1
    ensures Reachable(t, c, max)
    ensures var sid := Theirs(c);
            t == Init(max).(offered := {sid}, written := map[sid := [7]], unsent := map[sid := [Byte(sid).frame]])
  {
    var sid := Theirs(c);
    assert Run(Init(max), [], Init(max), c);
    OneFrame(sid, 0, c);
    hide Run, Reachable, S.Lane, Encode, FramesOf;
    var s := Init(max).(offered := {sid});
    Go(Init(max), Offer(sid), s, c, max);
    var s1 := s.(written := map[sid := []], unsent := map[sid := []]);
    Go(s, Accept(sid), s1, c, max);
    assert [] + [7] == [7];
    t := s1.(written := map[sid := [7]], unsent := map[sid := [Byte(sid).frame]]);
    Go(s1, Write(sid, [7]), t, c, max);
  }

  lemma ByteSubmitted(c: Config, max: nat) returns (t: State)
    requires Proper(c) && 0 <= c.side <= 1
    ensures Reachable(t, c, max)
    ensures var sid := Theirs(c);
            t == Init(max).(offered := {sid}, written := map[sid := [7]], unsent := map[sid := []],
                            send := S.INIT.(disp := S.Received(Byte(sid)), submitted := [Byte(sid)]))
  {
    var s := Answering(c, max);
    var sid := Theirs(c);
    assert S.Lane([], S.Stream(sid)) == [];
    assert [Byte(sid).frame][1..] == [];
    hide Reachable, S.Lane, Encode;
    t := s.(unsent := map[sid := []], send := S.INIT.(disp := S.Received(Byte(sid)), submitted := [Byte(sid)]));
    Go(s, SubmitNext(sid, 0), t, c, max);
  }

  /** The byte is on the connection. */
  lemma ByteWritten(c: Config, max: nat) returns (t: State)
    requires Proper(c) && 0 <= c.side <= 1 && c.size >= 1
    ensures Reachable(t, c, max)
    ensures var sid, psh := Theirs(c), Byte(Theirs(c));
            && t.send.submitted == t.send.wire == [psh] && t.conn == Encode(psh.frame) && t.taken == 0
            && t.send.held == t.send.out == [] && t.send.disp.Idle? && t.send.queues == map[sid := []]
            && t.recv == R.Init(max) && t.offered == {sid} && t.written == map[sid := [7]] && t.unsent == map[sid := []]
  {
    var sid, psh := Theirs(c), Byte(Theirs(c));
    var s := ByteSubmitted(c, max);
    assert S.Without([psh], psh) == [] && [] + [psh] == [psh] && [] + Encode(psh.frame) == Encode(psh.frame);
    hide Reachable, S.Lane, S.Without, Encode, Silent;
    var u := Queued(s.send, psh, sid, [], c.size);
    Lift(s, u, c, max);
    var v := Woken(u, sid, c.size);
    v := Popped(u, v, sid, psh, c.size);
    v := SentOn(u, v, psh, c.size);
    Lift(s.(send := u), v, c, max);
    t := Written(s.(send := v), psh, c, max);
  }

  /** recvLoop meets the byte after the opener's SYN is written and before OpenStream registers the
      stream: nothing is on its way, the stream is open, and the byte is lost. */
  lemma EarlyReply(c: Config, max: nat) returns (t: State)
    requires Proper(c) && 0 <= c.side <= 1 && c.size >= 1 && c.most >= 1 && max > 0
    ensures Reachable(t, c, max)
    ensures var sid := Theirs(c);
            && !Mine(sid, c) && sid in t.recv.open && sid !in t.recv.dead
            && sid in t.written && t.written[sid] == [7] && Arrived(t, sid) == [] && OnItsWay(t, sid) == []
  {
    hide Reachable, S.Lane, Payload, Arrived, OnItsWay;
    t := Dropped(c, max);
    NothingComing(t, Theirs(c));
  }

  lemma Dropped(c: Config, max: nat) returns (t: State)
    requires Proper(c) && 0 <= c.side <= 1 && c.size >= 1 && c.most >= 1 && max > 0
    ensures Reachable(t, c, max)
    ensures var sid := Theirs(c);
            && t.send.wire == [Byte(sid)] && t.taken == 1
            && t.send.held == t.send.out == [] && t.send.disp.Idle? && t.send.queues == map[sid := []]
            && t.written == map[sid := [7]] && t.unsent == map[sid := []]
            && t.recv == R.Init(max).(all := map[sid := R.FRESH], open := {sid})
  {
    var sid, psh := Theirs(c), Byte(Theirs(c));
    hide Reachable, S.Lane, Encode;
    var s := ByteWritten(c, max);
    assert s.conn == Encode(psh.frame) + [];
    var u := Dealt(s, psh.frame, [], c, max);
    assert R.Init(max).(recv := R.Load) == R.Init(max);
    t := u.(recv := R.Init(max).(all := map[sid := R.FRESH], open := {sid}));
    Go(u, RecvStep(R.OpenStream(0, sid)), t, c, max);
  }

  lemma NothingComing(t: State, sid: Sid)
    requires t.send.wire == [Byte(sid)] && t.taken == 1
    requires t.send.held == t.send.out == [] && t.send.disp.Idle? && t.send.queues == map[sid := []]
    requires t.recv.recv.Load? && t.recv.all == map[sid := R.FRESH] && t.unsent == map[sid := []]
    ensures OnItsWay(t, sid) == [] && Arrived(t, sid) == []
  {
    assert t.send.wire[1..] == [];
    assert S.Lane([], S.Stream(sid)) == [];
    assert Payload([]) == [] && Data([]) == [];
  }
}
