/** Runs of a whole direction, put together from steps and from stretches of runs of sendLoop. */
module Stretches {
  import opened Octets
  import opened Chunks
  import opened SmuxFrame
  import opened Sids
  import opened Integrity
  import opened Delivery
  import opened SendStretches
  import S = SendLoop
  import R = Receiver

  lemma {:induction false} RunExtend(s: State, actions: seq<Action>, t: State, a: Action, c: Config)
    requires Run(s, actions, t, c) && Enabled(t, a, c)
    ensures Run(s, actions + [a], Next(t, a, c), c)
    decreases |actions|
  {
    hide Enabled, Next;
    if actions == [] {
      assert (actions + [a])[1..] == [];
      assert Run(Next(t, a, c), [], Next(t, a, c), c);
    } else {
      RunExtend(Next(s, actions[0], c), actions[1..], t, a, c);
      assert (actions + [a])[1..] == actions[1..] + [a];
    }
  }

  lemma Go(s: State, a: Action, t: State, c: Config, max: nat)
    requires Reachable(s, c, max) && Enabled(s, a, c) && Next(s, a, c) == t
    ensures Reachable(t, c, max)
  {
    hide Enabled, Next, Run;
    var actions :| Run(Init(max), actions, s, c);
    RunExtend(Init(max), actions, s, a, c);
  }

  /** Such steps are steps of the whole. */
  lemma Lift(s: State, u: S.State, c: Config, max: nat)
    requires Reachable(s, c, max) && Silent(s.send, u, c.size)
    ensures Reachable(s.(send := u), c, max)
  {
    hide S.Run, Reachable;
    var actions: seq<S.Action> :| S.Run(s.send, actions, u, c.size) && forall a :: a in actions ==> !a.Submit? && !a.Write?;
    LiftRun(s, actions, u, c, max);
  }

  lemma {:induction false} LiftRun(s: State, actions: seq<S.Action>, u: S.State, c: Config, max: nat)
    requires Reachable(s, c, max) && S.Run(s.send, actions, u, c.size)
    requires forall a :: a in actions ==> !a.Submit? && !a.Write?
    ensures Reachable(s.(send := u), c, max)
    decreases |actions|
  {
    hide S.Enabled, S.Next, Reachable;
    if actions != [] {
      assert actions[0] in actions && forall a :: a in actions[1..] ==> a in actions;
      var t := s.(send := S.Next(s.send, actions[0], c.size));
      Go(s, SendStep(actions[0]), t, c, max);
      LiftRun(t, actions[1..], u, c, max);
    }
  }

  lemma Receive(s: State, a: R.Action, u: R.State, c: Config, max: nat)
    requires Reachable(s, c, max) && !a.Receive? && !a.OpenStream?
    requires R.Enabled(s.recv, a, c.most) && R.Next(s.recv, a, c.most) == u
    ensures Reachable(s.(recv := u), c, max)
  {
    hide R.Enabled, R.Next, Reachable;
    Go(s, RecvStep(a), s.(recv := u), c, max);
  }

  /** The writer writes what was sent. */
  lemma Written(s: State, r: Request, c: Config, max: nat) returns (t: State)
    requires Reachable(s, c, max) && s.send.out == [r]
    ensures Reachable(t, c, max)
    ensures t == s.(send := s.send.(out := [], wire := s.send.wire + [r]), conn := s.conn + Encode(r.frame))
  {
    hide Reachable, S.Lane, S.Without, Sorted, Encode;
    t := s.(send := s.send.(out := [], wire := s.send.wire + [r]), conn := s.conn + Encode(r.frame));
    Go(s, SendStep(S.Write), t, c, max);
  }

  /** recvLoop reads a frame. */
  lemma Fetched(s: State, f: Frame, rest: seq<Octet>, c: Config, max: nat) returns (t: State)
    requires Reachable(s, c, max) && s.recv.recv.Load? && s.recv.bucket > 0
    requires f.cmd == CMD_SYN || f.cmd == CMD_FIN || f.cmd == CMD_PSH
    requires Sendable(f) && s.conn == Encode(f) + rest
    ensures Reachable(t, c, max)
    ensures t == s.(recv := s.recv.(recv := R.Locking(f)), conn := rest, taken := s.taken + 1)
  {
    DecodeEncodeIff(f, rest);
    hide Reachable, Encode, Decode;
    var r := s.recv.(recv := R.Reading);
    Receive(s, R.LoadBucket, r, c, max);
    t := s.(recv := s.recv.(recv := R.Locking(f)), conn := rest, taken := s.taken + 1);
    Go(s.(recv := r), Deliver(f), t, c, max);
  }

  /** And deals with it. */
  lemma Dealt(s: State, f: Frame, rest: seq<Octet>, c: Config, max: nat) returns (t: State)
    requires Reachable(s, c, max) && s.recv.recv.Load? && s.recv.bucket > 0 && s.recv.lock.Free?
    requires f.cmd == CMD_SYN || f.cmd == CMD_FIN || f.cmd == CMD_PSH
    requires Sendable(f) && s.conn == Encode(f) + rest && R.Honest(s.recv, f, c.most)
    ensures Reachable(t, c, max)
    ensures t == s.(recv := R.Handled(s.recv.(recv := R.Locking(f)), f), conn := rest, taken := s.taken + 1)
  {
    hide Reachable, Encode, Decode;
    t := Fetched(s, f, rest, c, max);
    var r := R.Handled(t.recv, f);
    Receive(t, R.Handle, r, c, max);
    t := t.(recv := r);
  }

  // One byte.

  function OneByte(sid: Sid, id: nat): Request {
    S.Request(Frame(VERSION, CMD_PSH, sid, [7]), id)
  }

  lemma OneFrame(sid: Sid, id: nat, c: Config)
    requires Proper(c)
    ensures FramesOf([7], CMD_PSH, sid, c.frameSize) == [OneByte(sid, id).frame]
  {
    var ps: seq<seq<Octet>> := Pieces([7], c.frameSize);
    assert ps == [[7]];
    var fs := Wrapped(ps, CMD_PSH, sid);
    assert fs[0] == NewFrame(CMD_PSH, sid).(data := ps[0]);
    assert fs == [OneByte(sid, id).frame];
  }
}
