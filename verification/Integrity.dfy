/** One direction of a smux connection, from the Write calls of one side to the Read calls of the
    other, through sendLoop, the bytes of the connection and recvLoop: the streams that the
    sending side opens, and those that it accepts and answers. */
module Integrity {
  import opened Octets
  import opened Chunks
  import opened SmuxFrame
  import opened SendData
  import S = SendLoop
  import SI = SendInvariant
  import SO = SendOrder
  import SH = SendHazards
  import C = Callers
  import R = Receiver

  type Request = S.Request
  type Key = S.Key

  /** size is WriteRequestQueueSize, frameSize MaxFrameSize; the ids that the sending side opens
      have the parity side; most is the largest payload the receiving side meets. */
  datatype Config = Config(side: int, size: nat, frameSize: nat, most: nat)

  /** Frames that readFrame can read. */
  predicate Proper(c: Config) {
    0 < c.frameSize <= MAX_PAYLOAD
  }

  /** conn holds the bytes that were written and not read yet, taken counts the frames that
      were read; written has the bytes passed to Write on each stream, unsent the frames of the
      last Write that were not submitted yet; offered has the streams of the other side whose
      SYN it has written. */
  datatype State = State(
    send: S.State, conn: seq<Octet>, taken: nat, recv: R.State,
    written: map<Sid, seq<Octet>>, unsent: map<Sid, seq<Frame>>, offered: set<Sid>)

  datatype Action =
    | Open(sid: Sid, id: nat)                  // OpenStream submits SYN
    | Offer(sid: Sid)                          // the other side's OpenStream has written its SYN
    | Accept(sid: Sid)                         // AcceptStream returns
    | Write(sid: Sid, bytes: seq<Octet>)       // Write splits its argument
    | SubmitNext(sid: Sid, id: nat)            // Write submits the next frame
    | Finish(sid: Sid, id: nat)                // Close submits FIN
    | SubmitOther(r: Request)                  // control frames
    | SendStep(a: S.Action)
    | Deliver(f: Frame)                        // readFrame returns
    | RecvStep(b: R.Action)

  predicate Mine(sid: Sid, c: Config) {
    sid % 2 == c.side
  }

  /** sendLoop accepts the request, and its caller has the result of the one before. A FIN does
      not wait: Close may come while a Write does. */
  ghost predicate Submits(s: State, r: Request, c: Config) {
    S.Enabled(s.send, S.Submit(r), c.size) && C.Waits(s.send, S.Submit(r))
  }

  function Syn(sid: Sid, id: nat): Request {
    S.Request(NewFrame(CMD_SYN, sid), id)
  }

  function Fin(sid: Sid, id: nat): Request {
    S.Request(NewFrame(CMD_FIN, sid), id)
  }

  /** OpenStream has returned: its SYN is written. */
  ghost predicate Returned(s: State, sid: Sid, c: Config) {
    Mine(sid, c) ==> S.Lane(s.send.wire, S.Stream(sid)) != []
  }

  ghost predicate Enabled(s: State, a: Action, c: Config) {
    match a
    case Open(sid, id) => Mine(sid, c) && sid !in s.written && Submits(s, Syn(sid, id), c)
    case Offer(sid) => !Mine(sid, c) && sid !in s.offered
    case Accept(sid) => sid in s.offered && sid !in s.written
    case Write(sid, bytes) =>
      c.frameSize > 0 && sid in s.written && sid in s.unsent && s.unsent[sid] == [] && Returned(s, sid, c)
    case SubmitNext(sid, id) =>
      sid in s.unsent && s.unsent[sid] != [] && Submits(s, S.Request(s.unsent[sid][0], id), c)
    case Finish(sid, id) => sid in s.written && Returned(s, sid, c) && Submits(s, Fin(sid, id), c)
    case SubmitOther(r) => !S.Tracked(r) && Sendable(r.frame) && Submits(s, r, c)
    case SendStep(b) => !b.Submit? && S.Enabled(s.send, b, c.size)
    case Deliver(f) => s.recv.recv.Reading? && Decode(s.conn).Got? && Decode(s.conn).frame == f
    case RecvStep(b) => !b.Receive? && R.Enabled(s.recv, b, c.most) && (b.OpenStream? ==> b.sid in s.offered)
  }

  ghost function Submitted(s: State, r: Request, c: Config): State
    requires Submits(s, r, c)
  {
    s.(send := S.Next(s.send, S.Submit(r), c.size))
  }

  ghost function Next(s: State, a: Action, c: Config): State
    requires Enabled(s, a, c)
  {
    match a
    case Open(sid, id) =>
      Submitted(s, Syn(sid, id), c).(written := s.written[sid := []], unsent := s.unsent[sid := []])
    case Offer(sid) => s.(offered := s.offered + {sid})
    case Accept(sid) => s.(written := s.written[sid := []], unsent := s.unsent[sid := []])
    case Write(sid, bytes) =>
      s.(written := s.written[sid := s.written[sid] + bytes],
         unsent := s.unsent[sid := FramesOf(bytes, CMD_PSH, sid, c.frameSize)])
    case SubmitNext(sid, id) =>
      Submitted(s, S.Request(s.unsent[sid][0], id), c).(unsent := s.unsent[sid := s.unsent[sid][1..]])
    case Finish(sid, id) => Submitted(s, Fin(sid, id), c)
    case SubmitOther(r) => Submitted(s, r, c)
    case SendStep(b) =>
      s.(send := S.Next(s.send, b, c.size),
         conn := if b.Write? then s.conn + Encode(s.send.out[0].frame) else s.conn)
    case Deliver(f) =>
      s.(conn := Decode(s.conn).rest, taken := s.taken + 1, recv := R.Next(s.recv, R.Receive(f), c.most))
    case RecvStep(b) => s.(recv := R.Next(s.recv, b, c.most))
  }

  function Init(max: nat): State {
    State(S.INIT, [], 0, R.Init(max), map[], map[], {})
  }

  ghost predicate Run(s: State, actions: seq<Action>, t: State, c: Config)
    decreases |actions|
  {
    if actions == [] then s == t
    else Enabled(s, actions[0], c) && Run(Next(s, actions[0], c), actions[1..], t, c)
  }

  function Frames(rs: seq<Request>): (fs: seq<Frame>)
    ensures |fs| == |rs|
  {
    seq(|rs|, i requires 0 <= i < |rs| => rs[i].frame)
  }

  /** Write cuts its argument into full frames and the rest: what MaxFrameSize holds is one frame. */
  lemma WriteCuts(s: State, sid: Sid, bytes: seq<Octet>, c: Config)
    requires Enabled(s, Write(sid, bytes), c)
    ensures var fs := Next(s, Write(sid, bytes), c).unsent[sid];
            && Data(fs) == bytes
            && (forall i :: 0 <= i < |fs| ==> fs[i].cmd == CMD_PSH && fs[i].sid == sid && 0 < |fs[i].data| <= c.frameSize)
            && (forall i :: 0 <= i < |fs| - 1 ==> |fs[i].data| == c.frameSize)
            && (0 < |bytes| <= c.frameSize ==> fs == [NewFrame(CMD_PSH, sid).(data := bytes)])
    ensures Next(s, Write(sid, bytes), c) ==
      s.(written := s.written[sid := s.written[sid] + bytes],
         unsent := s.unsent[sid := Next(s, Write(sid, bytes), c).unsent[sid]])
  {
    SplitCorrect(bytes, CMD_PSH, sid, c.frameSize);
    hide S.Enabled, S.Lane, Data;
  }

  // What each step does to the side it does not belong to.

  predicate SubmitsRequest(a: Action) {
    a.Open? || a.SubmitNext? || a.Finish? || a.SubmitOther?
  }

  /** The request that a step submits. */
  function RequestOf(s: State, a: Action): Request
    requires SubmitsRequest(a) && (a.SubmitNext? ==> a.sid in s.unsent && s.unsent[a.sid] != [])
  {
    match a
    case Open(sid, id) => Syn(sid, id)
    case SubmitNext(sid, id) => S.Request(s.unsent[sid][0], id)
    case Finish(sid, id) => Fin(sid, id)
    case SubmitOther(r) => r
  }

  lemma SubmitEffect(s: State, a: Action, c: Config)
    requires Enabled(s, a, c) && SubmitsRequest(a)
    ensures var n, r := Next(s, a, c), RequestOf(s, a);
            && Submits(s, r, c)
            && n.send == S.Next(s.send, S.Submit(r), c.size)
            && n.send.submitted == s.send.submitted + [r] && n.send.wire == s.send.wire
            && n.conn == s.conn && n.taken == s.taken && n.recv == s.recv
  {
    hide S.Lane;
  }

  lemma SendEffect(s: State, b: S.Action, c: Config)
    requires Enabled(s, SendStep(b), c)
    ensures var n := Next(s, SendStep(b), c);
            && n.send == S.Next(s.send, b, c.size)
            && n.send.submitted == s.send.submitted
            && n.send.wire == (if b.Write? then s.send.wire + [s.send.out[0]] else s.send.wire)
  {
    hide S.Lane, S.Without;
  }

  /** The sending side keeps its own invariants, whatever the queue size. */
  ghost predicate Sender(s: State) {
    SI.Inv(s.send) && Told(s.send)
  }

  lemma SenderStep(s: State, a: Action, c: Config)
    requires Sender(s) && Enabled(s, a, c)
    ensures Sender(Next(s, a, c))
  {
    if SubmitsRequest(a) {
      SubmitEffect(s, a, c);
      SendSide(s.send, S.Submit(RequestOf(s, a)), c.size);
    } else if a.SendStep? {
      SendEffect(s, a.a, c);
      SendSide(s.send, a.a, c.size);
    }
  }

  lemma SendSide(s: S.State, b: S.Action, size: nat)
    requires SI.Inv(s) && Told(s) && S.Enabled(s, b, size) && C.Waits(s, b)
    ensures var n := S.Next(s, b, size); SI.Inv(n) && Told(n)
  {
    SI.InvStep(s, b, size);
    ToldStep(s, b, size);
  }

  /** With room in a queue for a frame and the FIN behind it, the FIN does not overtake either. */
  ghost predicate Ordered(s: State, c: Config) {
    SO.Aligned(s.send) && SH.Small(s.send, c.size) && C.Orderly(s.send)
  }

  lemma OrderedStep(s: State, a: Action, c: Config)
    requires c.size >= 2 && Sender(s) && Ordered(s, c) && Enabled(s, a, c)
    ensures Ordered(Next(s, a, c), c)
  {
    if SubmitsRequest(a) {
      SubmitEffect(s, a, c);
      OrderedSide(s.send, S.Submit(RequestOf(s, a)), c.size);
    } else if a.SendStep? {
      SendEffect(s, a.a, c);
      OrderedSide(s.send, a.a, c.size);
    }
  }

  /** Callers that wait keep within two requests, and so within the queue. */
  lemma OrderedSide(s: S.State, b: S.Action, size: nat)
    requires size >= 2 && SI.Inv(s) && SO.Aligned(s) && SH.Small(s, size) && C.Orderly(s)
    requires S.Enabled(s, b, size) && C.Waits(s, b)
    ensures var n := S.Next(s, b, size); SO.Aligned(n) && SH.Small(n, size) && C.Orderly(n)
  {
    C.WaitingIsModest(s, b, size);
    C.OrderlyStep(s, b, size);
    SH.SmallStep(s, b, size);
    SH.SmallNeverOvertakes(s, b, size);
    SO.AlignedStep(s, b, size);
  }

  // The connection.

  /** The connection holds the encodings of the frames that were written and not read yet. */
  ghost predicate Carried(s: State) {
    && s.taken <= |s.send.wire|
    && s.conn == EncodeAll(Frames(s.send.wire[s.taken..]))
    && forall x :: x in s.send.submitted ==> Sendable(x.frame)
  }

  lemma EncodeOneMore(a: seq<Request>, x: Request)
    ensures EncodeAll(Frames(a + [x])) == EncodeAll(Frames(a)) + Encode(x.frame)
  {
    hide Encode;
    assert Frames(a + [x]) == Frames(a) + [x.frame];
    EncodeAllAppend(Frames(a), [x.frame]);
    assert [x.frame][1..] == [];
    assert EncodeAll([x.frame]) == Encode(x.frame) + EncodeAll([]);
  }

  /** The frame that readFrame returns is the next one that was written. */
  lemma DeliversNext(s: State, f: Frame, c: Config)
    requires Sender(s) && Carried(s) && Enabled(s, Deliver(f), c)
    ensures s.taken < |s.send.wire| && s.send.wire[s.taken].frame == f
    ensures Decode(s.conn).rest == EncodeAll(Frames(s.send.wire[s.taken + 1..]))
  {
    var ahead := s.send.wire[s.taken..];
    NothingThere();
    if ahead == [] {
      assert false;
    } else {
      assert ahead[1..] == s.send.wire[s.taken + 1..];
      assert ahead[0] == s.send.wire[s.taken];
      SentOnce(s.send, ahead[0]);
      hide Encode, Decode, SI.Inv, Sender;
      var fs := Frames(ahead);
      assert fs[1..] == Frames(ahead[1..]);
      assert EncodeAll(fs) == Encode(fs[0]) + EncodeAll(fs[1..]);
      DecodeEncodeIff(fs[0], EncodeAll(fs[1..]));
    }
  }

  lemma CarriedStep(s: State, a: Action, c: Config)
    requires Sender(s) && Carried(s) && Source(s, c) && Enabled(s, a, c)
    ensures Carried(Next(s, a, c))
  {
    hide Sender, Source, Carried, S.Enabled, S.Next, R.Next, R.Enabled;
    if a.Deliver? {
      CarriedDeliver(s, a.f, c);
    } else if SubmitsRequest(a) {
      CarriedSubmit(s, a, c);
    } else if a.SendStep? {
      CarriedSend(s, a.a, c);
    } else {
      CarriedElse(s, a, c);
    }
  }

  lemma CarriedDeliver(s: State, f: Frame, c: Config)
    requires Sender(s) && Carried(s) && Enabled(s, Deliver(f), c)
    ensures Carried(Next(s, Deliver(f), c))
  {
    hide Sender, S.Next, R.Next, R.Enabled, EncodeAll, Encode, Decode;
    DeliversNext(s, f, c);
  }

  /** The other steps do not touch the connection. */
  lemma CarriedElse(s: State, a: Action, c: Config)
    requires Carried(s) && Enabled(s, a, c) && (a.Offer? || a.Accept? || a.Write? || a.RecvStep?)
    ensures Carried(Next(s, a, c))
  {
    hide S.Next, S.Enabled, S.Lane, R.Next, R.Enabled, EncodeAll, Encode, Decode;
    var n := Next(s, a, c);
    assert n.send == s.send && n.conn == s.conn && n.taken == s.taken;
  }

  lemma CarriedSubmit(s: State, a: Action, c: Config)
    requires Carried(s) && Source(s, c) && Enabled(s, a, c) && SubmitsRequest(a)
    ensures Carried(Next(s, a, c))
  {
    SubmitEffect(s, a, c);
    assert Sendable(RequestOf(s, a).frame) by {
      if a.SubmitNext? {
        assert SourceAt(s, a.sid, c) && s.unsent[a.sid][0] in s.unsent[a.sid];
      }
    }
    hide Enabled, Next, Source, EncodeAll, S.Enabled, S.Next;
  }

  lemma CarriedSend(s: State, b: S.Action, c: Config)
    requires Carried(s) && Enabled(s, SendStep(b), c)
    ensures Carried(Next(s, SendStep(b), c))
  {
    SendEffect(s, b, c);
    assert b.Write? ==> Next(s, SendStep(b), c).conn == s.conn + Encode(s.send.out[0].frame);
    hide S.Next, EncodeAll, Encode;
    if b.Write? {
      var ahead := s.send.wire[s.taken..];
      assert (s.send.wire + [s.send.out[0]])[s.taken..] == ahead + [s.send.out[0]];
      EncodeOneMore(ahead, s.send.out[0]);
    }
  }

  // The calls.

  /** On the streams of the sending side SYN comes first and only first, on the others never, and
      only PSH carries data. */
  predicate Shaped(rs: seq<Request>, mine: bool) {
    && (forall i :: 0 <= i < |rs| ==> (rs[i].frame.cmd == CMD_SYN <==> mine && i == 0))
    && (forall i :: 0 <= i < |rs| ==> rs[i].frame.cmd == CMD_PSH || rs[i].frame.data == [])
  }

  predicate Ready(fs: seq<Frame>, sid: Sid) {
    forall f :: f in fs ==> f.cmd == CMD_PSH && f.sid == sid && Sendable(f)
  }

  /** What was submitted on a stream and what was not yet is what was written. */
  predicate Books(lane: seq<Request>, written: seq<Octet>, unsent: seq<Frame>, sid: Sid) {
    Ready(unsent, sid) && Payload(lane) + Data(unsent) == written
  }

  ghost predicate SourceAt(s: State, sid: Sid, c: Config) {
    var lane := S.Lane(s.send.submitted, S.Stream(sid));
    && Shaped(lane, Mine(sid, c))
    && (if sid in s.written then
          sid in s.unsent && Books(lane, s.written[sid], s.unsent[sid], sid) && (Mine(sid, c) ==> lane != [])
        else lane == [] && sid !in s.unsent)
  }

  ghost predicate Source(s: State, c: Config) {
    && (forall sid: Sid :: SourceAt(s, sid, c))
    && (forall sid: Sid :: sid in s.offered ==> !Mine(sid, c))
  }

  lemma SourceStep(s: State, a: Action, c: Config)
    requires Proper(c) && Source(s, c) && Enabled(s, a, c)
    ensures Source(Next(s, a, c), c)
  {
    var n := Next(s, a, c);
    forall sid: Sid ensures SourceAt(n, sid, c) {
      SourceAtStep(s, a, c, sid);
    }
    OfferedStep(s, a, c);
  }

  lemma OfferedStep(s: State, a: Action, c: Config)
    requires Enabled(s, a, c) && forall sid: Sid :: sid in s.offered ==> !Mine(sid, c)
    ensures forall sid: Sid :: sid in Next(s, a, c).offered ==> !Mine(sid, c)
  {
    hide S.Enabled, S.Next, S.Lane, R.Enabled, R.Next, Decode, Encode;
  }

  lemma SourceAtStep(s: State, a: Action, c: Config, sid: Sid)
    requires Proper(c) && Source(s, c) && Enabled(s, a, c)
    ensures SourceAt(Next(s, a, c), sid, c)
  {
    assert SourceAt(s, sid, c);
    if SubmitsRequest(a) {
      SourceSubmit(s, a, c, sid);
    } else if a.SendStep? {
      SendEffect(s, a.a, c);
      hide S.Enabled, S.Next, S.Lane, Payload, Shaped;
    } else if a.Write? {
      SourceWrite(s, a, c, sid);
    } else if a.Accept? {
      SourceAccept(s, a, c, sid);
    } else {
      hide S.Enabled, S.Next, S.Lane, Payload, Shaped, R.Enabled, R.Next, Decode;
    }
  }

  lemma SourceAccept(s: State, a: Action, c: Config, sid: Sid)
    requires Source(s, c) && Enabled(s, a, c) && a.Accept? && SourceAt(s, sid, c)
    ensures SourceAt(Next(s, a, c), sid, c)
  {
    hide S.Lane, S.Enabled;
    assert Payload([]) == [] && Data([]) == [];
    hide Payload, Data, Shaped;
  }

  lemma SourceWrite(s: State, a: Action, c: Config, sid: Sid)
    requires Proper(c) && Enabled(s, a, c) && a.Write? && SourceAt(s, sid, c)
    ensures SourceAt(Next(s, a, c), sid, c)
  {
    hide S.Lane, Payload, Shaped, S.Enabled;
    if a.sid == sid {
      SplitCorrect(a.bytes, CMD_PSH, sid, c.frameSize);
      hide FramesOf, Pieces;
      assert Data([]) == [];
    }
    hide Data;
  }

  /** A request on a stream comes from that stream's own calls. */
  lemma RequestKey(s: State, a: Action, c: Config)
    requires Source(s, c) && Enabled(s, a, c) && SubmitsRequest(a)
    ensures var r := RequestOf(s, a);
            if a.SubmitOther? then S.KeyOf(r) == S.Control
            else
              && S.KeyOf(r) == S.Stream(a.sid)
              && (r.frame.cmd == CMD_SYN <==> a.Open?) && (a.Open? ==> Mine(a.sid, c))
              && (r.frame.cmd == CMD_PSH || r.frame.data == [])
              && (a.sid in s.written <==> !a.Open?)
  {
    if a.SubmitNext? {
      assert SourceAt(s, a.sid, c) && s.unsent[a.sid][0] in s.unsent[a.sid];
    }
    hide S.Enabled, S.Lane, Submits, Data, Payload, Returned;
  }

  lemma ShapedPush(lane: seq<Request>, mine: bool, r: Request)
    requires Shaped(lane, mine) && (r.frame.cmd == CMD_SYN <==> mine && lane == [])
    requires r.frame.cmd == CMD_PSH || r.frame.data == []
    ensures Shaped(lane + [r], mine)
  {
  }

  /** The steps that submit, as they change the books of one stream. */
  lemma BooksStep(s: State, a: Action, c: Config, sid: Sid)
    requires Enabled(s, a, c) && SubmitsRequest(a)
    ensures var n := Next(s, a, c);
            if a.Open? && a.sid == sid then
              sid in n.written && sid in n.unsent && n.written[sid] == [] && n.unsent[sid] == []
            else
              && (sid in n.written <==> sid in s.written) && (sid in n.unsent <==> sid in s.unsent)
              && (sid in s.written ==> n.written[sid] == s.written[sid])
              && (sid in s.unsent ==>
                    n.unsent[sid] == if a.SubmitNext? && a.sid == sid then s.unsent[sid][1..] else s.unsent[sid])
  {
    hide S.Enabled, S.Next, S.Lane, Submits, Returned;
  }

  lemma BooksOpen(r: Request, sid: Sid)
    requires r.frame.data == []
    ensures Books([] + [r], [], [], sid)
  {
    PayloadPush([], r);
  }

  lemma BooksNext(lane: seq<Request>, written: seq<Octet>, unsent: seq<Frame>, sid: Sid, r: Request)
    requires Books(lane, written, unsent, sid) && unsent != [] && r.frame == unsent[0]
    ensures Books(lane + [r], written, unsent[1..], sid)
  {
    PayloadPush(lane, r);
  }

  lemma BooksFin(lane: seq<Request>, written: seq<Octet>, unsent: seq<Frame>, sid: Sid, r: Request)
    requires Books(lane, written, unsent, sid) && r.frame.data == []
    ensures Books(lane + [r], written, unsent, sid)
  {
    PayloadPush(lane, r);
  }

  lemma SourceSubmit(s: State, a: Action, c: Config, sid: Sid)
    requires Source(s, c) && Enabled(s, a, c) && SubmitsRequest(a)
    ensures SourceAt(Next(s, a, c), sid, c)
  {
    assert SourceAt(s, sid, c);
    SubmitEffect(s, a, c);
    BooksStep(s, a, c, sid);
    RequestKey(s, a, c);
    var r, lane := RequestOf(s, a), S.Lane(s.send.submitted, S.Stream(sid));
    S.LanePush(s.send.submitted, r, S.Stream(sid));
    var mine := S.KeyOf(r) == S.Stream(sid);
    assert mine && a.SubmitNext? ==> r.frame == s.unsent[sid][0];
    assert mine && a.Finish? ==> r.frame.data == [];
    hide Source, Enabled, Next, S.Next, S.Lane, S.KeyOf, RequestOf, Books, Shaped, Submits, Mine;
    if mine {
      if a.Open? {
        BooksOpen(r, sid);
      } else if a.SubmitNext? {
        BooksNext(lane, s.written[sid], s.unsent[sid], sid, r);
      } else {
        BooksFin(lane, s.written[sid], s.unsent[sid], sid, r);
      }
      ShapedPush(lane, Mine(sid, c), r);
    }
  }

  // What is written first.

  /** No FIN comes to the connection before the SYN of its stream. */
  ghost predicate Begun(s: State, c: Config) {
    && (forall x :: x in s.send.submitted && S.IsFin(x) && Mine(x.frame.sid, c) ==> S.Lane(s.send.wire, S.KeyOf(x)) != [])
    && (forall sid: Sid :: Mine(sid, c) && S.Lane(s.send.wire, S.Stream(sid)) != [] ==>
          !S.IsFin(S.Lane(s.send.wire, S.Stream(sid))[0]))
  }

  lemma BegunStep(s: State, a: Action, c: Config)
    requires Sender(s) && Source(s, c) && Begun(s, c) && Enabled(s, a, c)
    ensures Begun(Next(s, a, c), c)
  {
    hide Sender, Source, Begun, S.Enabled, S.Next, S.Lane, R.Enabled, R.Next, Decode;
    if SubmitsRequest(a) {
      BegunSubmit(s, a, c);
    } else if a.SendStep? && a.a.Write? {
      BegunWrite(s, a, c);
    } else {
      BegunElse(s, a, c);
    }
  }

  /** Neither a submission nor a write. */
  lemma BegunElse(s: State, a: Action, c: Config)
    requires Begun(s, c) && Enabled(s, a, c) && !SubmitsRequest(a) && !(a.SendStep? && a.a.Write?)
    ensures Begun(Next(s, a, c), c)
  {
    var n := Next(s, a, c);
    if a.SendStep? {
      SendEffect(s, a.a, c);
    }
    hide S.Enabled, S.Next, S.Lane, R.Enabled, R.Next, Decode;
    assert n.send.wire == s.send.wire && n.send.submitted == s.send.submitted;
  }

  lemma BegunSubmit(s: State, a: Action, c: Config)
    requires Source(s, c) && Begun(s, c) && Enabled(s, a, c) && SubmitsRequest(a)
    ensures Begun(Next(s, a, c), c)
  {
    SubmitEffect(s, a, c);
    RequestKey(s, a, c);
    var r := RequestOf(s, a);
    assert S.IsFin(r) && Mine(r.frame.sid, c) ==> S.Lane(s.send.wire, S.KeyOf(r)) != [] by {
      if a.SubmitNext? {
        assert SourceAt(s, a.sid, c) && s.unsent[a.sid][0] in s.unsent[a.sid];
      }
      hide Source, S.Lane, S.Enabled, Submits;
    }
    hide Source, Enabled, Next, S.Next, S.Lane, RequestOf, Submits, Mine, Returned;
  }

  lemma BegunWrite(s: State, a: Action, c: Config)
    requires Sender(s) && Begun(s, c) && Enabled(s, a, c) && a.SendStep? && a.a.Write?
    ensures Begun(Next(s, a, c), c)
  {
    SendEffect(s, a.a, c);
    assert s.send.out != [];
    var x, n := s.send.out[0], Next(s, a, c);
    FirstOfOut(s.send, x);
    hide Sender, Next, Enabled, S.Next, S.Lane;
    forall k: Key
      ensures S.Lane(n.send.wire, k) == if S.KeyOf(x) == k then S.Lane(s.send.wire, k) + [x] else S.Lane(s.send.wire, k)
    {
      S.LanePush(s.send.wire, x, k);
    }
    forall sid: Sid | Mine(sid, c) && S.Lane(n.send.wire, S.Stream(sid)) != []
      ensures !S.IsFin(S.Lane(n.send.wire, S.Stream(sid))[0])
    {
      if S.KeyOf(x) == S.Stream(sid) && S.Lane(s.send.wire, S.Stream(sid)) == [] {
        assert S.IsFin(x) ==> x.frame.sid == sid;
      }
    }
  }

  lemma {:induction false} PlainFirst(rs: seq<Request>)
    requires rs != [] && !S.IsFin(rs[0])
    ensures Plain(rs) != [] && Plain(rs)[0] == rs[0]
  {
    if |rs| > 1 {
      PlainFirst(rs[..|rs| - 1]);
    } else {
      assert rs[..0] == [];
    }
  }

  /** So what was written of a stream has the shape of what was submitted. */
  lemma WireShaped(s: State, sid: Sid, c: Config)
    requires Sender(s) && Source(s, c) && Begun(s, c)
    ensures Shaped(S.Lane(s.send.wire, S.Stream(sid)), Mine(sid, c))
  {
    var k := S.Stream(sid);
    var wire, lane := S.Lane(s.send.wire, k), S.Lane(s.send.submitted, k);
    assert SourceAt(s, sid, c) && ToldOf(s.send, k);
    S.LaneMembers(s.send.wire, k);
    S.LaneMembers(s.send.submitted, k);
    forall x ensures multiset(wire)[x] <= 1 && (x in wire ==> x in lane) {
      SentOnce(s.send, x);
      S.LaneCounts(s.send.wire, k, x);
    }
    assert wire != [] && Mine(sid, c) ==> !S.IsFin(wire[0]);
    hide Sender, Source, Begun, SourceAt, S.Lane, Plain;
    if wire != [] && Mine(sid, c) {
      PlainFirst(wire);
      assert wire[0] in lane;
      assert lane[0].frame.cmd == CMD_SYN;
      PlainFirst(lane);
      assert wire[0] == lane[0];
    }
    ShapedWire(lane, wire, Mine(sid, c));
  }

  lemma ShapedWire(lane: seq<Request>, wire: seq<Request>, mine: bool)
    requires Shaped(lane, mine) && (forall x :: x in wire ==> x in lane) && (forall x :: multiset(wire)[x] <= 1)
    requires mine && wire != [] ==> lane != [] && wire[0] == lane[0]
    ensures Shaped(wire, mine)
  {
    forall i | 0 <= i < |wire| ensures wire[i].frame.cmd == CMD_SYN <==> mine && i == 0 {
      assert wire[i] in lane;
      if i > 0 && wire[i] == wire[0] {
        Twice(wire, 0, i);
      }
    }
    forall i | 0 <= i < |wire| ensures wire[i].frame.cmd == CMD_PSH || wire[i].frame.data == [] {
      assert wire[i] in lane;
    }
  }
}
