/** What every step of sendLoop keeps: no request is lost, doubled or moved to another
    stream, whichever goroutine runs when. */
module SendInvariant {
  import opened Sids
  import opened SmuxFrame
  import opened SendLoop

  /** Queues and hands hold only what belongs there. */
  ghost predicate Placed(s: State) {
    && (forall k: Key, x :: x in Queue(s, k) ==> KeyOf(x) == k)
    && (s.disp.Enqueue? || s.disp.Take? || s.disp.Put? ==>
          Tracked(s.disp.r) && s.disp.r.frame.sid in s.queues)
    && (s.disp.Put? ==> KeyOf(s.disp.head) == KeyOf(s.disp.r))
    && (s.sched.Retiring? ==> s.sched.r in s.popped && IsFin(s.sched.r))
    && (s.sched.Retiring? || s.sched.Sending? ==> Tracked(s.sched.r))
  }

  /** Key by key, nothing is lost, doubled or overtaken on the way into and out of the queues. */
  ghost predicate Conserved(s: State) {
    forall k: Key :: Lane(s.popped, k) + Queue(s, k) + Lane(Incoming(s), k) == Lane(s.submitted, k)
  }

  function InHand(s: State): multiset<Request> {
    multiset(DispHolds(s.disp)) + multiset(SchedHolds(s.sched))
  }

  /** What left the queues is in a goroutine's hand, in the channel or on the wire. */
  ghost predicate Accounted(s: State) {
    && multiset(s.popped) == multiset(Sent(s)) + multiset(s.held)
    && multiset(s.held) == InHand(s)
  }

  ghost predicate Distinct(rs: seq<Request>) {
    forall x :: multiset(rs)[x] <= 1
  }

  predicate FinOnlyLast(rs: seq<Request>) {
    forall i :: 0 <= i < |rs| - 1 ==> !IsFin(rs[i])
  }

  ghost predicate FinLast(s: State) {
    forall k: Key :: FinOnlyLast(Lane(s.submitted, k))
  }

  predicate Finished(rs: seq<Request>) {
    rs != [] && IsFin(rs[|rs| - 1])
  }

  /** A stream has no queue only before its first request and after its FIN. */
  ghost predicate Retired(s: State) {
    forall sid: Sid :: sid !in s.queues ==> Lane(s.popped, Stream(sid)) == [] || Finished(Lane(s.popped, Stream(sid)))
  }

  /** A stream's request bypasses the queues only as the first of its stream, a FIN. */
  ghost predicate DirectAlone(s: State) {
    s.disp.Direct? && Tracked(s.disp.r) ==>
      && IsFin(s.disp.r) && Lane(s.popped, KeyOf(s.disp.r)) == [s.disp.r]
  }

  ghost predicate Inv(s: State) {
    Placed(s) && Conserved(s) && Accounted(s) && Distinct(s.submitted) && FinLast(s) && Retired(s) && DirectAlone(s)
  }

  lemma InitInv()
    ensures Inv(INIT)
  {
  }

  // Distinct requests.

  lemma DistinctPush(rs: seq<Request>, r: Request)
    requires Distinct(rs) && r !in rs
    ensures Distinct(rs + [r])
  {
  }

  /** Once its FIN has left the queue, a stream has nothing behind it. */
  lemma NothingBehindFin(s: State, k: Key)
    requires Conserved(s) && FinLast(s)
    requires Finished(Lane(s.popped, k)) || exists x :: x in s.popped && KeyOf(x) == k && IsFin(x)
    ensures Finished(Lane(s.popped, k))
    ensures Queue(s, k) == [] && Lane(Incoming(s), k) == [] && Lane(s.popped, k) == Lane(s.submitted, k)
  {
    var p, all := Lane(s.popped, k), Lane(s.submitted, k);
    LaneMembers(s.popped, k);
    var i: nat;
    if Finished(p) {
      i := |p| - 1;
    } else {
      var x :| x in s.popped && KeyOf(x) == k && IsFin(x);
      i :| 0 <= i < |p| && p[i] == x;
    }
    assert all == p + (Queue(s, k) + Lane(Incoming(s), k));
    assert all[i] == p[i];
  }

  // One step, invariant by invariant.

  lemma PlacedStep(s: State, a: Action, size: nat)
    requires Inv(s) && Enabled(s, a, size)
    ensures Placed(Next(s, a, size))
  {
    var t := Next(s, a, size);
    QueuesPlaced(s, a, size);
    HandsPlaced(s, a, size);
    hide Inv, Next, Enabled;
  }

  lemma QueuesPlaced(s: State, a: Action, size: nat)
    requires Inv(s) && Enabled(s, a, size)
    ensures forall k: Key, x :: x in Queue(Next(s, a, size), k) ==> KeyOf(x) == k
  {
    hide Conserved, Accounted, Distinct, FinLast, Retired, DirectAlone, Lane, Without, Sorted;
    var t := Next(s, a, size);
    forall k: Key, x | x in Queue(t, k) ensures KeyOf(x) == k {
      assert x in Queue(s, k) || (x in Incoming(s) && KeyOf(x) == k);
    }
  }

  lemma HandsPlaced(s: State, a: Action, size: nat)
    requires Inv(s) && Enabled(s, a, size)
    ensures var t := Next(s, a, size);
            && (t.disp.Enqueue? || t.disp.Take? || t.disp.Put? ==> Tracked(t.disp.r) && t.disp.r.frame.sid in t.queues)
            && (t.disp.Put? ==> KeyOf(t.disp.head) == KeyOf(t.disp.r))
            && (t.sched.Retiring? ==> t.sched.r in t.popped && IsFin(t.sched.r))
            && (t.sched.Retiring? || t.sched.Sending? ==> Tracked(t.sched.r))
  {
    hide Conserved, Accounted, Distinct, FinLast, Retired, DirectAlone, Lane, Without, Sorted;
    var t := Next(s, a, size);
    if a.Retire? {
      RetireFrees(s);
    } else if a.Pop? && Queue(s, Stream(s.sched.sid)) != [] {
      HeadIsPlaced(s, s.sched.sid);
      assert s.queues[s.sched.sid][0] in t.popped;
    } else if a.DoTake? {
      HeadIsPlaced(s, s.disp.r.frame.sid);
    }
  }

  /** The queue that the scheduler deletes is empty and nobody is about to add to it. */
  lemma RetireFrees(s: State)
    requires Inv(s) && s.sched.Retiring?
    ensures var k := KeyOf(s.sched.r);
            k == Stream(s.sched.r.frame.sid) && Queue(s, k) == [] && Lane(Incoming(s), k) == [] && Finished(Lane(s.popped, k))
    ensures s.disp.Enqueue? || s.disp.Take? || s.disp.Put? ==> s.disp.r.frame.sid != s.sched.r.frame.sid
  {
    var k := KeyOf(s.sched.r);
    NothingBehindFin(s, k);
    if s.disp.Enqueue? || s.disp.Take? || s.disp.Put? {
      LaneOne(s.disp.r, k);
    }
  }

  /** The steps that change what is queued, popped, submitted or incoming. */
  predicate MovesRequests(a: Action) {
    a.Submit? || a.DoLookup? || a.DoEnqueue? || a.DoTake? || a.DoPut? || a.Pop? || a.Retire?
  }

  lemma ConservedStep(s: State, a: Action, size: nat)
    requires Inv(s) && Enabled(s, a, size)
    ensures Conserved(Next(s, a, size))
  {
    var t := Next(s, a, size);
    forall k: Key ensures Lane(t.popped, k) + Queue(t, k) + Lane(Incoming(t), k) == Lane(t.submitted, k) {
      assert Lane(s.popped, k) + Queue(s, k) + Lane(Incoming(s), k) == Lane(s.submitted, k);
      if MovesRequests(a) {
        ConservedAt(s, a, size, k);
      } else {
        StaysPut(s, a, size, k);
      }
    }
  }

  lemma StaysPut(s: State, a: Action, size: nat, k: Key)
    requires Enabled(s, a, size) && !MovesRequests(a)
    ensures var t := Next(s, a, size);
            t.popped == s.popped && Queue(t, k) == Queue(s, k) && Incoming(t) == Incoming(s) && t.submitted == s.submitted
  {
    hide Lane, Without, Sorted;
  }

  lemma ConservedAt(s: State, a: Action, size: nat, k: Key)
    requires Inv(s) && Enabled(s, a, size) && MovesRequests(a)
    requires Lane(s.popped, k) + Queue(s, k) + Lane(Incoming(s), k) == Lane(s.submitted, k)
    ensures var t := Next(s, a, size);
            Lane(t.popped, k) + Queue(t, k) + Lane(Incoming(t), k) == Lane(t.submitted, k)
  {
    hide *;
    if a.Submit? || a.DoLookup? {
      ConservedArrival(s, a, size, k);
    } else if a.Pop? || a.Retire? {
      if a.Pop? {
        ConservedPop(s, size, k);
      } else {
        ConservedRetire(s, size, k);
      }
    } else {
      assert a.DoEnqueue? || a.DoTake? || a.DoPut? by { ThreeLeft(a); }
      ConservedDispatcher(s, a, size, k);
    }
  }

  lemma ThreeLeft(a: Action)
    requires MovesRequests(a) && !a.Submit? && !a.DoLookup? && !a.Pop? && !a.Retire?
    ensures a.DoEnqueue? || a.DoTake? || a.DoPut?
  {
  }

  lemma ConservedArrival(s: State, a: Action, size: nat, k: Key)
    requires Inv(s) && Enabled(s, a, size) && (a.Submit? || a.DoLookup?)
    requires Lane(s.popped, k) + Queue(s, k) + Lane(Incoming(s), k) == Lane(s.submitted, k)
    ensures var t := Next(s, a, size);
            Lane(t.popped, k) + Queue(t, k) + Lane(Incoming(t), k) == Lane(t.submitted, k)
  {
    hide Conserved, Accounted, Distinct, FinLast, Retired, DirectAlone, Lane, Without, Sorted;
    NoLane(k);
    if a.Submit? {
      LanePush(s.submitted, a.request, k);
      LaneOne(a.request, k);
    } else {
      LaneOne(s.disp.r, k);
      LanePush(s.popped, s.disp.r, k);
    }
  }

  lemma ConservedPop(s: State, size: nat, k: Key)
    requires Inv(s) && Enabled(s, Pop, size)
    requires Lane(s.popped, k) + Queue(s, k) + Lane(Incoming(s), k) == Lane(s.submitted, k)
    ensures var t := Next(s, Pop, size);
            Lane(t.popped, k) + Queue(t, k) + Lane(Incoming(t), k) == Lane(t.submitted, k)
  {
    hide Conserved, Accounted, Distinct, FinLast, Retired, DirectAlone, Lane, Without, Sorted;
    var sid := s.sched.sid;
    if Queue(s, Stream(sid)) != [] {
      var q := s.queues[sid];
      LanePush(s.popped, q[0], k);
      HeadIsPlaced(s, sid);
      hide KeyOf, Placed, Incoming;
      if k == Stream(sid) {
        Shift(Lane(s.popped, k), q, Lane(Incoming(s), k));
      }
    }
  }

  lemma Shift(p: seq<Request>, q: seq<Request>, rest: seq<Request>)
    requires q != []
    ensures p + [q[0]] + q[1..] + rest == p + q + rest
  {
    assert [q[0]] + q[1..] == q;
    assert p + [q[0]] + q[1..] == p + ([q[0]] + q[1..]);
  }

  lemma ConservedRetire(s: State, size: nat, k: Key)
    requires Inv(s) && Enabled(s, Retire, size)
    requires Lane(s.popped, k) + Queue(s, k) + Lane(Incoming(s), k) == Lane(s.submitted, k)
    ensures var t := Next(s, Retire, size);
            Lane(t.popped, k) + Queue(t, k) + Lane(Incoming(t), k) == Lane(t.submitted, k)
  {
    hide Inv, Lane, Incoming, Without, Sorted;
    RetireFrees(s);
    hide Queue, Next;
    var t := Next(s, Retire, size);
    assert Queue(t, k) == Queue(s, k) && t.popped == s.popped && Incoming(t) == Incoming(s) && t.submitted == s.submitted by {
      RetireKeeps(s, size, k);
    }
  }

  lemma RetireKeeps(s: State, size: nat, k: Key)
    requires Enabled(s, Retire, size) && Queue(s, Stream(s.sched.r.frame.sid)) == []
    ensures var t := Next(s, Retire, size);
            Queue(t, k) == Queue(s, k) && t.popped == s.popped && Incoming(t) == Incoming(s) && t.submitted == s.submitted
  {
  }

  lemma ConservedDispatcher(s: State, a: Action, size: nat, k: Key)
    requires Inv(s) && Enabled(s, a, size) && (a.DoEnqueue? || a.DoTake? || a.DoPut?)
    requires Lane(s.popped, k) + Queue(s, k) + Lane(Incoming(s), k) == Lane(s.submitted, k)
    ensures var t := Next(s, a, size);
            Lane(t.popped, k) + Queue(t, k) + Lane(Incoming(t), k) == Lane(t.submitted, k)
  {
    hide Conserved, Accounted, Distinct, FinLast, Retired, DirectAlone, Lane, Without, Sorted;
    var r := s.disp.r;
    assert KeyOf(r) == Stream(r.frame.sid);
    hide KeyOf;
    NoLane(k);
    LaneOne(r, k);
    if a.DoTake? {
      LanePush(s.popped, s.queues[r.frame.sid][0], k);
      HeadIsPlaced(s, r.frame.sid);
    }
    hide Placed;
  }

  lemma NoLane(k: Key)
    ensures Lane([], k) == []
  {
  }

  lemma HeadIsPlaced(s: State, sid: Sid)
    requires Placed(s) && sid in s.queues && s.queues[sid] != []
    ensures KeyOf(s.queues[sid][0]) == Stream(sid)
    ensures s.queues[sid] == [s.queues[sid][0]] + s.queues[sid][1..]
  {
    assert s.queues[sid][0] in Queue(s, Stream(sid));
  }

  // What goes from a hand to the channel.

  predicate Sends(a: Action) {
    a.DoForward? || a.DoDirect? || a.Send?
  }

  /** The request that a sending step puts into the channel. */
  ghost function SentBy(s: State, a: Action, size: nat): Request
    requires Enabled(s, a, size) && Sends(a)
  {
    if a.DoForward? then s.disp.head else if a.DoDirect? then s.disp.r else s.sched.r
  }

  lemma SendEffect(s: State, a: Action, size: nat)
    requires Enabled(s, a, size) && Sends(a)
    ensures var t := Next(s, a, size);
            var r := SentBy(s, a, size);
            && Sent(t) == Sent(s) + [r] && t.held == Without(s.held, r)
            && t.popped == s.popped && t.submitted == s.submitted
  {
    hide Without, Sorted, Queue;
    assert s.wire + (s.out + [SentBy(s, a, size)]) == s.wire + s.out + [SentBy(s, a, size)];
  }

  lemma SendHands(s: State, a: Action, size: nat)
    requires Enabled(s, a, size) && Sends(a)
    ensures var t := Next(s, a, size);
            var r := SentBy(s, a, size);
            if a.Send?
            then SchedHolds(s.sched) == [r] && SchedHolds(t.sched) == [] && DispHolds(t.disp) == DispHolds(s.disp)
            else DispHolds(s.disp) == [r] && DispHolds(t.disp) == [] && SchedHolds(t.sched) == SchedHolds(s.sched)
  {
    hide Without, Sorted, Queue;
  }

  lemma SendFreesHand(s: State, a: Action, size: nat)
    requires Enabled(s, a, size) && Sends(a)
    ensures SentBy(s, a, size) in InHand(s)
    ensures InHand(Next(s, a, size)) == InHand(s) - multiset{SentBy(s, a, size)}
  {
    SendHands(s, a, size);
    hide *;
    InHandSum(s);
    InHandSum(Next(s, a, size));
  }

  lemma InHandSum(s: State)
    ensures InHand(s) == multiset(DispHolds(s.disp)) + multiset(SchedHolds(s.sched))
  {
  }

  /** The request that any other step takes in hand, if it takes one. */
  ghost function TakenBy(s: State, a: Action, size: nat): seq<Request>
    requires Enabled(s, a, size) && !Sends(a)
  {
    if a.DoLookup? && Next(s, a, size).disp.Direct? then [s.disp.r]
    else if a.DoTake? then [s.queues[s.disp.r.frame.sid][0]]
    else if a.Pop? && Queue(s, Stream(s.sched.sid)) != [] then [s.queues[s.sched.sid][0]]
    else []
  }

  lemma OtherEffect(s: State, a: Action, size: nat)
    requires Enabled(s, a, size) && !Sends(a)
    ensures var t := Next(s, a, size);
            t.popped == s.popped + TakenBy(s, a, size) && t.held == s.held + TakenBy(s, a, size)
  {
    hide Without, Sorted;
  }

  lemma OtherSent(s: State, a: Action, size: nat)
    requires Enabled(s, a, size) && !Sends(a)
    ensures Sent(Next(s, a, size)) == Sent(s)
  {
    hide Without, Sorted, Queue;
    if a.Write? {
      assert [s.out[0]] + s.out[1..] == s.out;
      assert s.wire + [s.out[0]] + s.out[1..] == s.wire + ([s.out[0]] + s.out[1..]);
    }
  }

  lemma OtherHands(s: State, a: Action, size: nat)
    requires Enabled(s, a, size) && !Sends(a)
    ensures var t, r := Next(s, a, size), TakenBy(s, a, size);
            if a.Pop?
            then DispHolds(t.disp) == DispHolds(s.disp) && SchedHolds(s.sched) == [] && SchedHolds(t.sched) == r
            else if a.DoLookup? || a.DoTake?
            then DispHolds(t.disp) == r && DispHolds(s.disp) == [] && SchedHolds(s.sched) == SchedHolds(t.sched)
            else r == [] && DispHolds(t.disp) == DispHolds(s.disp) && SchedHolds(s.sched) == SchedHolds(t.sched)
  {
    hide Without, Sorted;
  }

  lemma OtherHand(s: State, a: Action, size: nat)
    requires Enabled(s, a, size) && !Sends(a)
    ensures InHand(Next(s, a, size)) == InHand(s) + multiset(TakenBy(s, a, size))
  {
    OtherHands(s, a, size);
    hide *;
    InHandSum(s);
    InHandSum(Next(s, a, size));
  }

  lemma AccountedStep(s: State, a: Action, size: nat)
    requires Accounted(s) && Enabled(s, a, size)
    ensures Accounted(Next(s, a, size))
  {
    hide Without, Enabled, Next, InHand, Sent, SentBy, TakenBy;
    var t := Next(s, a, size);
    if Sends(a) {
      SendEffect(s, a, size);
      SendFreesHand(s, a, size);
      var r := SentBy(s, a, size);
      assert r in multiset(s.held);
      WithoutBag(s.held, r);
    } else {
      OtherEffect(s, a, size);
      OtherHand(s, a, size);
      OtherSent(s, a, size);
    }
  }

  // History.

  lemma HistoryStep(s: State, a: Action, size: nat)
    requires Inv(s) && Enabled(s, a, size)
    ensures Distinct(Next(s, a, size).submitted) && FinLast(Next(s, a, size))
  {
    hide Placed, Accounted, Conserved, Retired, DirectAlone, Lane, Without, Sorted;
    var t := Next(s, a, size);
    if a.Submit? {
      var r := a.request;
      DistinctPush(s.submitted, r);
      forall k: Key ensures FinOnlyLast(Lane(t.submitted, k)) {
        LanePush(s.submitted, r, k);
        LaneMembers(s.submitted, k);
        assert FinOnlyLast(Lane(s.submitted, k));
        assert forall x :: x in Lane(s.submitted, k) ==> x in s.submitted && KeyOf(x) == k;
      }
    } else {
      assert t.submitted == s.submitted;
    }
  }

  lemma RetiredStep(s: State, a: Action, size: nat)
    requires Inv(s) && Enabled(s, a, size)
    ensures Retired(Next(s, a, size))
  {
    hide Conserved, Accounted, FinLast, DirectAlone, Distinct, Lane, Without, Sorted, Finished, Enabled, Next;
    var t := Next(s, a, size);
    forall sid: Sid | sid !in t.queues
      ensures Lane(t.popped, Stream(sid)) == [] || Finished(Lane(t.popped, Stream(sid)))
    {
      if a.Retire? {
        RetiredAfter(s, size, sid);
      } else if a.DoLookup? {
        LookedUp(s, size, sid);
      } else {
        NotRetired(s, a, size, sid);
      }
    }
  }

  lemma RetiredAfter(s: State, size: nat, sid: Sid)
    requires Inv(s) && Enabled(s, Retire, size) && sid !in Next(s, Retire, size).queues
    ensures var t := Next(s, Retire, size); Lane(t.popped, Stream(sid)) == [] || Finished(Lane(t.popped, Stream(sid)))
  {
    hide Conserved, Accounted, FinLast, DirectAlone, Distinct, Lane, Without, Sorted;
    RetireFrees(s);
  }

  lemma LookedUp(s: State, size: nat, sid: Sid)
    requires Inv(s) && Enabled(s, DoLookup, size) && sid !in Next(s, DoLookup, size).queues
    ensures var t := Next(s, DoLookup, size); Lane(t.popped, Stream(sid)) == [] || Finished(Lane(t.popped, Stream(sid)))
  {
    hide Placed, Conserved, Accounted, FinLast, DirectAlone, Distinct, Lane, Without, Sorted;
    LanePush(s.popped, s.disp.r, Stream(sid));
  }

  lemma NotRetired(s: State, a: Action, size: nat, sid: Sid)
    requires Placed(s) && Enabled(s, a, size) && !a.Retire? && !a.DoLookup?
    requires sid !in Next(s, a, size).queues
    ensures sid !in s.queues && Lane(Next(s, a, size).popped, Stream(sid)) == Lane(s.popped, Stream(sid))
  {
    hide Lane, Without, Sorted;
    if a.DoTake? {
      HeadIsPlaced(s, s.disp.r.frame.sid);
      LanePush(s.popped, s.queues[s.disp.r.frame.sid][0], Stream(sid));
    } else if a.Pop? && Queue(s, Stream(s.sched.sid)) != [] {
      HeadIsPlaced(s, s.sched.sid);
      LanePush(s.popped, s.queues[s.sched.sid][0], Stream(sid));
    }
  }

  lemma DirectAloneStep(s: State, a: Action, size: nat)
    requires Inv(s) && Enabled(s, a, size)
    ensures DirectAlone(Next(s, a, size))
  {
    hide Placed, Accounted, Distinct, Without, Sorted, Lane, FinLast, Conserved, Sent;
    var t := Next(s, a, size);
    if t.disp.Direct? && Tracked(t.disp.r) {
      if a.DoLookup? {
        FirstIsFin(s, size);
      } else {
        var k := KeyOf(s.disp.r);
        NothingBehindFin(s, k);
        if a.Pop? && Queue(s, Stream(s.sched.sid)) != [] {
          HeadIsPlaced(s, s.sched.sid);
          LanePush(s.popped, s.queues[s.sched.sid][0], k);
        }
      }
    }
  }

  /** A FIN that finds no queue is the first request of its stream. */
  lemma FirstIsFin(s: State, size: nat)
    requires Inv(s) && Enabled(s, DoLookup, size) && Tracked(s.disp.r) && Next(s, DoLookup, size).disp.Direct?
    ensures IsFin(s.disp.r) && Lane(Next(s, DoLookup, size).popped, KeyOf(s.disp.r)) == [s.disp.r]
  {
    hide Placed, Accounted, Distinct, Lane, FinLast, Conserved;
    var r, k := s.disp.r, KeyOf(s.disp.r);
    LanePush(s.popped, r, k);
    LaneOne(r, k);
    if Finished(Lane(s.popped, k)) {
      NothingBehindFin(s, k);
    }
  }

  lemma InvStep(s: State, a: Action, size: nat)
    requires Inv(s) && Enabled(s, a, size)
    ensures Inv(Next(s, a, size))
  {
    PlacedStep(s, a, size);
    ConservedStep(s, a, size);
    AccountedStep(s, a, size);
    HistoryStep(s, a, size);
    RetiredStep(s, a, size);
    DirectAloneStep(s, a, size);
  }

  lemma {:induction false} InvRun(s: State, actions: seq<Action>, t: State, size: nat)
    requires Inv(s) && Run(s, actions, t, size)
    ensures Inv(t)
    decreases |actions|
  {
    hide Inv, Enabled, Next;
    if actions != [] {
      InvStep(s, actions[0], size);
      InvRun(Next(s, actions[0], size), actions[1..], t, size);
    }
  }

  /** How many times a request is somewhere between submission and the wire. */
  function Places(s: State, x: Request): nat {
    multiset(Incoming(s))[x] + multiset(Queue(s, KeyOf(x)))[x] +
    multiset(DispHolds(s.disp))[x] + multiset(SchedHolds(s.sched))[x] + multiset(s.out)[x] + multiset(s.wire)[x]
  }

  /** In every reachable state every submitted request is in exactly one place, and nothing
      else is anywhere. */
  lemma ExactlyOnce(actions: seq<Action>, t: State, size: nat, x: Request)
    requires Run(INIT, actions, t, size)
    ensures Places(t, x) == if x in t.submitted then 1 else 0
  {
    hide Run, Lane, Incoming, Queue, DispHolds, SchedHolds;
    InitInv();
    InvRun(INIT, actions, t, size);
    OnePlace(t, x);
  }

  lemma OnePlace(t: State, x: Request)
    requires Inv(t)
    ensures Places(t, x) == if x in t.submitted then 1 else 0
  {
    hide Placed, FinLast, Retired, DirectAlone, Lane, Incoming, Queue, DispHolds, SchedHolds;
    var k := KeyOf(x);
    LaneCounts(t.popped, k, x);
    LaneCounts(Incoming(t), k, x);
    LaneCounts(t.submitted, k, x);
    assert multiset(Lane(t.popped, k) + Queue(t, k) + Lane(Incoming(t), k)) == multiset(Lane(t.submitted, k));
  }
}
