/** The accepting side: what arrives in the buffer of a stream is what its opener wrote, whatever
    the queue size; and when its FIN is the end. */
module Delivery {
  import opened Octets
  import opened SmuxFrame
  import opened SendData
  import opened Integrity
  import S = SendLoop
  import SI = SendInvariant
  import SO = SendOrder
  import SH = SendHazards
  import R = Receiver
  import RE = ReceiveEof

  /** The frame that recvLoop has read and not dealt with yet. */
  function Hand(r: R.RecvLoop): seq<Frame> {
    match r
    case Locking(f) => [f]
    case Charging(f) => [f]
    case Pushing(f) => [f]
    case _ => []
  }

  /** The payload for a stream in recvLoop's hand. */
  function InHand(r: R.RecvLoop, sid: Sid): seq<Octet> {
    if Hand(r) != [] && Hand(r)[0].sid == sid && Hand(r)[0].cmd == CMD_PSH then Hand(r)[0].data else []
  }

  /** A frame in hand is the last one of its stream that was read. */
  predicate LastInHand(r: R.State, seen: seq<Request>, sid: Sid) {
    Hand(r.recv) != [] && S.KeyOf(S.Request(Hand(r.recv)[0], 0)) == S.Stream(sid) ==>
      seen != [] && seen[|seen| - 1].frame == Hand(r.recv)[0]
  }

  predicate OfStream(rs: seq<Request>, sid: Sid) {
    forall x :: x in rs ==> S.KeyOf(x) == S.Stream(sid)
  }

  /** The stream, given the requests of it that were read from the connection: it is unknown
      until its SYN is dealt with; while it is in the map every payload arrives, and later none. */
  predicate Sunk(r: R.State, seen: seq<Request>, sid: Sid) {
    if sid !in r.all then
      sid !in r.reset && (seen == [] || (|seen| == 1 && r.recv == R.Locking(seen[0].frame)))
    else
      && seen != []
      && !(Hand(r.recv) != [] && Hand(r.recv)[0].sid == sid && Hand(r.recv)[0].cmd == CMD_SYN)
      && (if sid in r.open then r.all[sid].pushed + InHand(r.recv, sid) == Payload(seen)
          else SO.IsPrefix(r.all[sid].pushed, Payload(seen)))
      && (sid in r.reset ==> HasFin(seen))
  }

  predicate HasFin(rs: seq<Request>) {
    exists i :: 0 <= i < |rs| && S.IsFin(rs[i])
  }

  /** Steps of the receiving side other than reading a frame. */
  lemma SunkStep(r: R.State, b: R.Action, most: nat, seen: seq<Request>, sid: Sid)
    requires R.Inv(r) && R.Enabled(r, b, most) && !b.Receive? && (b.OpenStream? ==> b.sid != sid)
    requires OfStream(seen, sid) && Shaped(seen, true) && LastInHand(r, seen, sid) && Sunk(r, seen, sid)
    ensures var n := R.Next(r, b, most); LastInHand(n, seen, sid) && Sunk(n, seen, sid)
  {
    if b.Handle? {
      SunkHandle(r, most, seen, sid);
    } else if b.Push? {
      SunkPush(r, most, seen, sid);
    } else {
      hide Payload, Shaped, R.Registered, R.Locked;
      SunkElse(r, b, most, seen, sid);
    }
  }

  lemma SunkHandle(r: R.State, most: nat, seen: seq<Request>, sid: Sid)
    requires R.Inv(r) && R.Enabled(r, R.Handle, most)
    requires OfStream(seen, sid) && Shaped(seen, true) && LastInHand(r, seen, sid) && Sunk(r, seen, sid)
    ensures var n := R.Next(r, R.Handle, most); LastInHand(n, seen, sid) && Sunk(n, seen, sid)
  {
    hide R.Locked, R.InMap, R.ClosedOnce;
    assert seen != [] ==> S.KeyOf(seen[0]) == S.Stream(sid);
    if |seen| == 1 && seen[0].frame.data == [] {
      assert seen[..0] == [] && Payload([]) == [];
      assert Payload(seen) == Payload([]) + seen[0].frame.data;
    }
    hide Payload;
  }

  lemma SunkPush(r: R.State, most: nat, seen: seq<Request>, sid: Sid)
    requires R.Inv(r) && R.Enabled(r, R.Push, most)
    requires LastInHand(r, seen, sid) && Sunk(r, seen, sid)
    ensures var n := R.Next(r, R.Push, most); LastInHand(n, seen, sid) && Sunk(n, seen, sid)
  {
    hide Payload, R.Locked;
  }

  lemma SunkElse(r: R.State, b: R.Action, most: nat, seen: seq<Request>, sid: Sid)
    requires R.Enabled(r, b, most) && !b.Receive? && !b.Handle? && !b.Push? && (b.OpenStream? ==> b.sid != sid)
    requires LastInHand(r, seen, sid) && Sunk(r, seen, sid)
    ensures var n := R.Next(r, b, most); LastInHand(n, seen, sid) && Sunk(n, seen, sid)
  {
    hide Payload;
  }

  lemma ReceiveKeeps(r: R.State, f: Frame, most: nat)
    requires r.recv.Reading?
    ensures var n := R.Next(r, R.Receive(f), most);
            && n.all == r.all && n.open == r.open && n.reset == r.reset
            && n.recv == (if f.cmd == CMD_NOP || f.cmd == CMD_ACK then R.Load
                          else if f.cmd <= CMD_EMP then R.Locking(f) else R.Done)
  {
  }

  /** recvLoop reads the next frame. */
  lemma SunkDeliver(r: R.State, x: Request, most: nat, seen: seq<Request>, sid: Sid)
    requires r.recv.Reading? && Sunk(r, seen, sid)
    requires S.KeyOf(x) == S.Stream(sid) ==> Shaped(seen + [x], true)
    ensures var n := R.Next(r, R.Receive(x.frame), most);
            var now := if S.KeyOf(x) == S.Stream(sid) then seen + [x] else seen;
            LastInHand(n, now, sid) && Sunk(n, now, sid)
  {
    hide Payload, R.Next;
    ReceiveKeeps(r, x.frame, most);
    if S.KeyOf(x) == S.Stream(sid) {
      PayloadPush(seen, x);
      assert (seen + [x])[|seen|] == x;
      assert forall i :: 0 <= i < |seen| ==> (seen + [x])[i] == seen[i];
    }
  }

  // Both sides together.

  /** The requests of a stream that were read from the connection. */
  function Seen(s: State, sid: Sid): seq<Request> {
    if s.taken <= |s.send.wire| then S.Lane(s.send.wire[..s.taken], S.Stream(sid)) else []
  }

  /** The requests of a stream that were written and not read yet. */
  function OnConnection(s: State, sid: Sid): seq<Request> {
    if s.taken <= |s.send.wire| then S.Lane(s.send.wire[s.taken..], S.Stream(sid)) else []
  }

  lemma SendLanes(s: S.State, k: S.Key)
    requires SI.Inv(s) && SO.Aligned(s)
    ensures S.Lane(s.submitted, k) == S.Lane(s.wire, k) + Unwritten(s, k)
  {
    S.LaneAppend(s.wire, s.out, k);
    assert S.Sent(s) == s.wire + s.out;
    assert S.Lane(s.popped, k) + S.Queue(s, k) + S.Lane(S.Incoming(s), k) == S.Lane(s.submitted, k);
    assert S.Lane(s.popped, k) == S.Lane(S.Sent(s), k) + S.Lane(s.held, k);
    hide *;
    hide S.Lane, SI.Inv, SO.Aligned, S.Sent;
    Reassociate(S.Lane(s.wire, k), S.Lane(s.out, k), S.Lane(s.held, k), S.Queue(s, k), S.Lane(S.Incoming(s), k));
  }

  lemma Reassociate(a: seq<Request>, b: seq<Request>, d: seq<Request>, e: seq<Request>, f: seq<Request>)
    ensures ((a + b) + d) + e + f == a + (b + (d + (e + f)))
  {
  }

  lemma WireParts(s: State, sid: Sid)
    requires s.taken <= |s.send.wire|
    ensures S.Lane(s.send.wire, S.Stream(sid)) == Seen(s, sid) + OnConnection(s, sid)
  {
    hide S.Lane;
    S.LaneAppend(s.send.wire[..s.taken], s.send.wire[s.taken..], S.Stream(sid));
    assert s.send.wire[..s.taken] + s.send.wire[s.taken..] == s.send.wire;
  }

  /** If nothing overtakes, every request of a stream was read, or is on the connection, or was not
      written yet, in this order. */
  lemma LaneParts(s: State, sid: Sid, c: Config)
    requires Sender(s) && Ordered(s, c) && Carried(s)
    ensures S.Lane(s.send.submitted, S.Stream(sid)) ==
      Seen(s, sid) + (OnConnection(s, sid) + Unwritten(s.send, S.Stream(sid)))
  {
    hide S.Lane, Seen, OnConnection, Unwritten, SI.Inv, SO.Aligned, SH.Small, Told, Frames, EncodeAll;
    WireParts(s, sid);
    SendLanes(s.send, S.Stream(sid));
    Associate(Seen(s, sid), OnConnection(s, sid), Unwritten(s.send, S.Stream(sid)));
  }

  lemma Associate<T>(a: seq<T>, b: seq<T>, d: seq<T>)
    ensures (a + b) + d == a + (b + d)
  {
  }

  lemma ShapedPrefix(all: seq<Request>, seen: seq<Request>, mine: bool)
    requires Shaped(all, mine) && SO.IsPrefix(seen, all)
    ensures Shaped(seen, mine)
  {
    assert forall i :: 0 <= i < |seen| ==> seen[i] == all[i];
  }

  /** What was read of a stream is well formed. */
  lemma SeenShaped(s: State, sid: Sid, c: Config)
    requires Sender(s) && Carried(s) && Source(s, c) && Begun(s, c)
    ensures Shaped(Seen(s, sid), Mine(sid, c)) && OfStream(Seen(s, sid), sid)
  {
    var k := S.Stream(sid);
    WireParts(s, sid);
    WireShaped(s, sid, c);
    S.LaneMembers(s.send.wire[..s.taken], k);
    hide Sender, Source, Begun, S.Lane, OnConnection, Shaped;
    ShapedPrefix(S.Lane(s.send.wire, k), Seen(s, sid), Mine(sid, c));
  }

  ghost predicate Sink(s: State, c: Config) {
    forall sid: Sid :: Mine(sid, c) ==> LastInHand(s.recv, Seen(s, sid), sid) && Sunk(s.recv, Seen(s, sid), sid)
  }

  ghost predicate Whole(s: State, c: Config) {
    Proper(c) && Sender(s) && Carried(s) && Source(s, c) && Begun(s, c) && Sink(s, c) && RE.Account(s.recv)
  }

  /** Steps that read nothing from the connection do not change what was read. */
  lemma SeenStays(s: State, a: Action, c: Config, sid: Sid)
    requires Carried(s) && Enabled(s, a, c) && !a.Deliver?
    ensures Seen(Next(s, a, c), sid) == Seen(s, sid)
    ensures !a.RecvStep? ==> Next(s, a, c).recv == s.recv
  {
    if SubmitsRequest(a) {
      SubmitEffect(s, a, c);
    } else if a.SendStep? {
      SendEffect(s, a.a, c);
      assert Next(s, a, c).send.wire[..s.taken] == s.send.wire[..s.taken];
    }
    hide S.Lane, S.Next, R.Next, S.Enabled, R.Enabled;
  }

  lemma SinkStep(s: State, a: Action, c: Config)
    requires Whole(s, c) && Enabled(s, a, c)
    ensures Sink(Next(s, a, c), c)
  {
    var n := Next(s, a, c);
    forall sid: Sid | Mine(sid, c)
      ensures LastInHand(n.recv, Seen(n, sid), sid) && Sunk(n.recv, Seen(n, sid), sid)
    {
      assert LastInHand(s.recv, Seen(s, sid), sid) && Sunk(s.recv, Seen(s, sid), sid);
      SeenShaped(s, sid, c);
      if a.Deliver? {
        SinkDeliver(s, a.f, c, sid);
      } else {
        SeenStays(s, a, c, sid);
        if a.RecvStep? {
          SinkRecv(s, a.b, c, sid);
        }
      }
    }
  }

  lemma SinkRecv(s: State, b: R.Action, c: Config, sid: Sid)
    requires R.Inv(s.recv) && Source(s, c) && Enabled(s, RecvStep(b), c) && Mine(sid, c)
    requires OfStream(Seen(s, sid), sid) && Shaped(Seen(s, sid), true)
    requires LastInHand(s.recv, Seen(s, sid), sid) && Sunk(s.recv, Seen(s, sid), sid)
    ensures var n := Next(s, RecvStep(b), c); LastInHand(n.recv, Seen(s, sid), sid) && Sunk(n.recv, Seen(s, sid), sid)
  {
    assert b.OpenStream? ==> b.sid != sid;
    hide Source, Seen, Shaped, OfStream, LastInHand, Sunk, R.Enabled, R.Next, R.Inv;
    SunkStep(s.recv, b, c.most, Seen(s, sid), sid);
  }

  lemma SinkDeliver(s: State, f: Frame, c: Config, sid: Sid)
    requires Whole(s, c) && Enabled(s, Deliver(f), c) && Mine(sid, c)
    ensures var n := Next(s, Deliver(f), c); LastInHand(n.recv, Seen(n, sid), sid) && Sunk(n.recv, Seen(n, sid), sid)
  {
    hide Sender, Carried, Source, Begun, Sink, Shaped, OfStream, LastInHand, Sunk, Seen;
    hide S.Lane, RE.Account, Decode;
    var n := Next(s, Deliver(f), c);
    DeliversNext(s, f, c);
    CarriedStep(s, Deliver(f), c);
    SourceStep(s, Deliver(f), c);
    SenderStep(s, Deliver(f), c);
    BegunStep(s, Deliver(f), c);
    SeenShaped(n, sid, c);
    SeenGrows(s, f, c, sid);
    SinkAt(s, c, sid);
    SunkDeliver(s.recv, s.send.wire[s.taken], c.most, Seen(s, sid), sid);
  }

  lemma SinkAt(s: State, c: Config, sid: Sid)
    requires Sink(s, c) && Mine(sid, c)
    ensures LastInHand(s.recv, Seen(s, sid), sid) && Sunk(s.recv, Seen(s, sid), sid)
  {
  }

  lemma SeenGrows(s: State, f: Frame, c: Config, sid: Sid)
    requires Enabled(s, Deliver(f), c) && s.taken < |s.send.wire|
    ensures Seen(Next(s, Deliver(f), c), sid) ==
      if S.KeyOf(s.send.wire[s.taken]) == S.Stream(sid) then Seen(s, sid) + [s.send.wire[s.taken]] else Seen(s, sid)
  {
    hide S.Lane, Decode, R.Next;
    var x := s.send.wire[s.taken];
    assert s.send.wire[..s.taken + 1] == s.send.wire[..s.taken] + [x];
    S.LanePush(s.send.wire[..s.taken], x, S.Stream(sid));
  }

  lemma AccountStep(s: State, a: Action, c: Config)
    requires RE.Account(s.recv) && Enabled(s, a, c)
    ensures RE.Account(Next(s, a, c).recv)
  {
    hide RE.Account, S.Enabled, S.Next, S.Lane;
    if a.Deliver? {
      RE.AccountStep(s.recv, R.Receive(a.f), c.most);
    } else if a.RecvStep? {
      RE.AccountStep(s.recv, a.b, c.most);
    }
  }

  lemma WholeStep(s: State, a: Action, c: Config)
    requires Whole(s, c) && Enabled(s, a, c)
    ensures Whole(Next(s, a, c), c)
  {
    hide Sender, Carried, Source, Begun, Sink, RE.Account, Enabled, Next;
    SenderStep(s, a, c);
    CarriedStep(s, a, c);
    SourceStep(s, a, c);
    BegunStep(s, a, c);
    SinkStep(s, a, c);
    AccountStep(s, a, c);
  }

  lemma {:induction false} WholeRun(s: State, actions: seq<Action>, t: State, c: Config)
    requires Whole(s, c) && Run(s, actions, t, c)
    ensures Whole(t, c) && (c.size >= 2 && Ordered(s, c) ==> Ordered(t, c))
    decreases |actions|
  {
    hide Sender, Carried, Source, Begun, Sink, RE.Account, Ordered, Enabled, Next;
    if actions != [] {
      WholeStep(s, actions[0], c);
      if c.size >= 2 && Ordered(s, c) {
        OrderedStep(s, actions[0], c);
      }
      hide Whole;
      WholeRun(Next(s, actions[0], c), actions[1..], t, c);
    }
  }

  lemma InitWhole(c: Config, max: nat)
    requires Proper(c)
    ensures Whole(Init(max), c)
  {
    SI.InitInv();
    hide SI.Inv;
    assert Frames([]) == [] && Payload([]) == [];
  }

  lemma InitOrdered(c: Config, max: nat)
    ensures Ordered(Init(max), c)
  {
    SO.InitAligned();
    SH.InitSmall(c.size);
    hide SO.Aligned, SH.Small;
  }

  ghost predicate Reachable(s: State, c: Config, max: nat) {
    exists actions :: Run(Init(max), actions, s, c)
  }

  lemma ReachableWhole(s: State, c: Config, max: nat)
    requires Proper(c) && Reachable(s, c, max)
    ensures Whole(s, c) && (c.size >= 2 ==> Ordered(s, c))
  {
    InitWhole(c, max);
    InitOrdered(c, max);
    hide Whole, Ordered, Run;
    var actions :| Run(Init(max), actions, s, c);
    WholeRun(Init(max), actions, s, c);
  }

  // The theorems.

  /** Payload of a stream that is on its way: in recvLoop's hand, on the connection, in the
      channel, in a goroutine's hand, in the queue, not queued yet, not submitted yet. */
  function OnItsWay(s: State, sid: Sid): seq<Octet> {
    InHand(s.recv.recv, sid)
    + Payload(OnConnection(s, sid)) + Payload(Unwritten(s.send, S.Stream(sid)))
    + if sid in s.unsent then Data(s.unsent[sid]) else []
  }

  /** The bytes that the accepting side has got of a stream. */
  function Arrived(s: State, sid: Sid): seq<Octet> {
    if sid in s.recv.all then s.recv.all[sid].pushed else []
  }

  /** Payload of a stream that was written is read, on its way, or not submitted yet - the same
      bytes in the same order, whatever the queue size. */
  lemma WrittenParts(s: State, sid: Sid, c: Config)
    requires Whole(s, c) && sid in s.written
    ensures sid in s.unsent
    ensures s.written[sid] ==
      Payload(Seen(s, sid)) + (Payload(OnConnection(s, sid)) + Payload(Unwritten(s.send, S.Stream(sid)))) +
      Data(s.unsent[sid])
  {
    var k := S.Stream(sid);
    assert SourceAt(s, sid, c) && ToldOf(s.send, k);
    WireParts(s, sid);
    BareFins(S.Lane(s.send.submitted, k), Mine(sid, c));
    hide Carried, Source, Begun, Sink, S.Lane, Seen, OnConnection, Unwritten, Payload, Data, Plain, SI.Inv;
    DataParts(s.send, k);
    PayloadAppend(Seen(s, sid), OnConnection(s, sid));
    Associate(Payload(Seen(s, sid)), Payload(OnConnection(s, sid)), Payload(Unwritten(s.send, k)));
  }

  lemma BareFins(lane: seq<Request>, mine: bool)
    requires Shaped(lane, mine)
    ensures FinsBare(lane)
  {
  }

  /** A stream that is not in the map because its SYN has not been dealt with yet. */
  lemma NothingBeforeSyn(s: State, sid: Sid, c: Config)
    requires Whole(s, c) && Mine(sid, c) && sid !in s.recv.all
    ensures Payload(Seen(s, sid)) == [] && InHand(s.recv.recv, sid) == []
  {
    SeenShaped(s, sid, c);
    SinkAt(s, c, sid);
    hide Whole, Seen, S.Lane, Payload;
    SynOnly(s.recv, Seen(s, sid), sid);
  }

  lemma SynOnly(r: R.State, seen: seq<Request>, sid: Sid)
    requires OfStream(seen, sid) && Shaped(seen, true) && LastInHand(r, seen, sid) && Sunk(r, seen, sid) && sid !in r.all
    ensures Payload(seen) == [] && InHand(r.recv, sid) == []
  {
    if seen == [] {
      assert Payload(seen) == [];
    } else {
      assert S.KeyOf(seen[0]) == S.Stream(sid);
      assert seen[..0] == [] && Payload([]) == [];
      assert Payload(seen) == Payload(seen[..0]) + seen[0].frame.data;
    }
    hide Payload;
  }

  /** What arrived of what was read from the connection. */
  lemma ArrivedParts(s: State, sid: Sid, c: Config)
    requires Whole(s, c) && Mine(sid, c)
    ensures sid !in s.recv.all || sid in s.recv.open ==>
      Payload(Seen(s, sid)) == Arrived(s, sid) + InHand(s.recv.recv, sid)
    ensures SO.IsPrefix(Arrived(s, sid), Payload(Seen(s, sid)))
  {
    hide Sender, Carried, Source, Begun, RE.Account, Seen, Payload, LastInHand, Hand, InHand, Sink;
    if sid !in s.recv.all {
      NothingBeforeSyn(s, sid, c);
    }
    SinkAt(s, c, sid);
    var payload := Payload(Seen(s, sid));
    if sid in s.recv.all && sid !in s.recv.open {
      assert SO.IsPrefix(s.recv.all[sid].pushed, payload);
    } else {
      assert payload == Arrived(s, sid) + InHand(s.recv.recv, sid);
    }
  }

  lemma ReadParts(s: State, sid: Sid, c: Config)
    requires Whole(s, c) && sid in s.recv.all
    ensures sid !in s.recv.dead ==>
      Arrived(s, sid) == s.recv.all[sid].read + s.recv.all[sid].buffer && sid in s.recv.open
    ensures SO.IsPrefix(s.recv.all[sid].read, Arrived(s, sid))
  {
    hide Sender, Carried, Source, Sink;
    var st := s.recv.all[sid];
    assert RE.Whole(st);
    assert sid !in s.recv.dead ==> st.lost == [];
  }

  /** In every reachable state, stream by stream: what the acceptor has got followed by what is
      on its way is what the opener wrote - until the acceptor closes the stream. */
  lemma StreamIntegrity(s: State, c: Config, max: nat, sid: Sid)
    requires Proper(c) && Reachable(s, c, max) && sid in s.written && Mine(sid, c)
    requires sid in s.recv.all ==> sid in s.recv.open
    ensures s.written[sid] == Arrived(s, sid) + OnItsWay(s, sid)
    ensures sid in s.recv.all && sid !in s.recv.dead ==>
      s.written[sid] == s.recv.all[sid].read + s.recv.all[sid].buffer + OnItsWay(s, sid)
  {
    hide Reachable, Whole, Arrived, InHand, Seen, OnConnection, Unwritten, Payload, Data;
    ReachableWhole(s, c, max);
    WrittenParts(s, sid, c);
    ArrivedParts(s, sid, c);
    if sid in s.recv.all {
      ReadParts(s, sid, c);
    }
    Regroup(Arrived(s, sid), InHand(s.recv.recv, sid), Payload(OnConnection(s, sid)),
            Payload(Unwritten(s.send, S.Stream(sid))), Data(s.unsent[sid]));
  }

  lemma Regroup(a: seq<Octet>, b: seq<Octet>, d: seq<Octet>, e: seq<Octet>, f: seq<Octet>)
    ensures (a + b) + (d + e) + f == a + (b + d + e + f)
  {
  }

  /** At any time, closed or not, what Read has returned is the beginning of what was written:
      nothing is lost in between, doubled, reordered or taken from another stream. */
  lemma ReadsBeginning(s: State, c: Config, max: nat, sid: Sid)
    requires Proper(c) && Reachable(s, c, max) && sid in s.written && sid in s.recv.all && Mine(sid, c)
    ensures SO.IsPrefix(s.recv.all[sid].read, s.written[sid])
  {
    hide Reachable, Whole, Arrived, Seen, OnConnection, Unwritten, Payload, Data;
    ReachableWhole(s, c, max);
    WrittenParts(s, sid, c);
    ArrivedParts(s, sid, c);
    ReadParts(s, sid, c);
    PrefixTrans(s.recv.all[sid].read, Arrived(s, sid), Payload(Seen(s, sid)));
    PrefixTrans(s.recv.all[sid].read, Payload(Seen(s, sid)), s.written[sid]);
  }

  lemma PrefixTrans(a: seq<Octet>, b: seq<Octet>, d: seq<Octet>)
    requires SO.IsPrefix(a, b) && SO.IsPrefix(b, d)
    ensures SO.IsPrefix(a, d)
  {
    assert d[..|b|][..|a|] == d[..|a|];
  }

  /** With a queue size of at least 2: when the FIN has been dealt with, all that was submitted on
      the stream has arrived: EOF is then the end of what was written, but for what Write had not
      submitted when it was cut off. */
  lemma FinMeansAll(s: State, c: Config, max: nat, sid: Sid)
    requires Proper(c) && c.size >= 2 && Reachable(s, c, max) && sid in s.written && Mine(sid, c)
    requires sid in s.recv.reset && sid in s.recv.open
    ensures sid in s.unsent && s.written[sid] == Arrived(s, sid) + Data(s.unsent[sid])
  {
    assert Payload([]) == [];
    hide Reachable, Whole, Ordered, Arrived, InHand, Seen, OnConnection, Unwritten, Payload, Data;
    ReachableWhole(s, c, max);
    WrittenParts(s, sid, c);
    ArrivedParts(s, sid, c);
    NothingAfterFin(s, sid, c);
    Nothing(Arrived(s, sid), Data(s.unsent[sid]));
  }

  lemma Nothing(a: seq<Octet>, f: seq<Octet>)
    ensures (a + []) + ([] + []) + f == a + f
  {
  }

  lemma NothingAfterFin(s: State, sid: Sid, c: Config)
    requires Whole(s, c) && Ordered(s, c) && Mine(sid, c) && sid in s.recv.reset && sid in s.recv.open
    ensures OnConnection(s, sid) == [] && Unwritten(s.send, S.Stream(sid)) == [] && InHand(s.recv.recv, sid) == []
  {
    var k := S.Stream(sid);
    LaneParts(s, sid, c);
    SinkAt(s, c, sid);
    assert sid in s.recv.all;
    assert SI.FinOnlyLast(S.Lane(s.send.submitted, k));
    hide Sender, Ordered, Carried, Source, Begun, Sink, RE.Account, Seen, OnConnection, Unwritten, S.Lane, Payload;
    FinEnds(s.recv, Seen(s, sid), OnConnection(s, sid) + Unwritten(s.send, k), sid);
  }

  lemma FinEnds(r: R.State, seen: seq<Request>, rest: seq<Request>, sid: Sid)
    requires HasFin(seen) && SI.FinOnlyLast(seen + rest) && LastInHand(r, seen, sid)
    ensures rest == [] && InHand(r.recv, sid) == []
  {
    var i :| 0 <= i < |seen| && S.IsFin(seen[i]);
    assert (seen + rest)[i] == seen[i];
  }

  /** The assumption about the peer that the receiving side makes holds of this opener. */
  lemma OpenerIsHonest(s: State, c: Config, max: nat)
    requires Proper(c) && c.most == MAX_PAYLOAD && Reachable(s, c, max)
    requires s.recv.recv.Locking? && S.Tracked(S.Request(s.recv.recv.f, 0)) && Mine(s.recv.recv.f.sid, c)
    ensures R.Honest(s.recv, s.recv.recv.f, c.most)
  {
    hide Whole, Reachable, Seen, Sunk, LastInHand, R.Honest, Payload, S.Lane, Shaped;
    ReachableWhole(s, c, max);
    HonestSeen(s, c);
  }

  /** With a queue size of at least 2 no payload follows the FIN of its stream. */
  lemma NoneFollowsFin(s: State, c: Config, max: nat)
    requires Proper(c) && c.size >= 2 && Reachable(s, c, max)
    requires s.recv.recv.Locking? && s.recv.recv.f.cmd == CMD_PSH && Mine(s.recv.recv.f.sid, c)
    requires s.recv.recv.f.sid in s.recv.open
    ensures s.recv.recv.f.sid !in s.recv.reset
  {
    var sid := s.recv.recv.f.sid;
    hide Reachable, Ordered, Sender, Carried, Source, Begun, Seen, OnConnection, Unwritten, Payload, S.Lane;
    ReachableWhole(s, c, max);
    if sid in s.recv.reset {
      FinInTheLane(s, sid, c);
      SinkAt(s, c, sid);
      var seen := Seen(s, sid);
      FinIsLast(s.recv, seen, sid);
    }
  }

  lemma FinInTheLane(s: State, sid: Sid, c: Config)
    requires Whole(s, c) && Ordered(s, c)
    ensures SI.FinOnlyLast(Seen(s, sid))
  {
    LaneParts(s, sid, c);
    assert SI.FinOnlyLast(S.Lane(s.send.submitted, S.Stream(sid)));
    hide Sender, Ordered, Carried, Source, Begun, Sink, Seen, OnConnection, Unwritten, S.Lane;
    var seen, rest := Seen(s, sid), OnConnection(s, sid) + Unwritten(s.send, S.Stream(sid));
    assert forall i :: 0 <= i < |seen| ==> (seen + rest)[i] == seen[i];
  }

  lemma FinIsLast(r: R.State, seen: seq<Request>, sid: Sid)
    requires HasFin(seen) && SI.FinOnlyLast(seen) && LastInHand(r, seen, sid)
    requires r.recv.Locking?
    ensures !(r.recv.f.cmd == CMD_PSH && r.recv.f.sid == sid)
  {
    var i :| 0 <= i < |seen| && S.IsFin(seen[i]);
  }

  lemma HonestSeen(s: State, c: Config)
    requires c.most == MAX_PAYLOAD && Whole(s, c)
    requires s.recv.recv.Locking? && S.Tracked(S.Request(s.recv.recv.f, 0)) && Mine(s.recv.recv.f.sid, c)
    ensures R.Honest(s.recv, s.recv.recv.f, c.most)
  {
    var sid := s.recv.recv.f.sid;
    SinkAt(s, c, sid);
    LastSeen(s, sid, c);
    hide Whole, Seen, Sunk, LastInHand, R.Honest, Payload, S.Lane;
    HonestFrame(s.recv, Seen(s, sid), sid, c.most);
  }

  lemma HonestFrame(r: R.State, seen: seq<Request>, sid: Sid, most: nat)
    requires r.recv.Locking? && r.recv.f.sid == sid && S.Tracked(S.Request(r.recv.f, 0))
    requires LastInHand(r, seen, sid) && Sunk(r, seen, sid)
    requires most == MAX_PAYLOAD && forall x :: x in seen ==> Sendable(x.frame)
    ensures R.Honest(r, r.recv.f, most)
  {
    hide Payload;
    assert seen[|seen| - 1] in seen;
  }

  lemma LastSeen(s: State, sid: Sid, c: Config)
    requires Whole(s, c)
    ensures forall x :: x in Seen(s, sid) ==> Sendable(x.frame)
  {
    hide Source, Begun, Sink, RE.Account;
    forall x | x in Seen(s, sid) ensures Sendable(x.frame) {
      S.LaneMembers(s.send.wire[..s.taken], S.Stream(sid));
      assert x in s.send.wire;
      SentOnce(s.send, x);
    }
  }
}
