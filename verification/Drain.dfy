/** The scheduler of sendLoop while nothing is submitted: how the queues are emptied. */
module Drain {
  import opened Sids
  import opened SmuxFrame
  import opened Sums
  import opened SendLoop
  import opened SendProgress

  type Queues = map<Sid, seq<Request>>

  function At(queues: Queues, sid: Sid): seq<Request> {
    if sid in queues then queues[sid] else []
  }

  /** FIN is the last request of its stream. */
  predicate FinsLast(queues: Queues) {
    forall sid, i :: sid in queues && 0 <= i < |queues[sid]| - 1 ==> !IsFin(queues[sid][i])
  }

  /** The requests at position p of the queues, in the given order of the streams. */
  function Column(queues: Queues, order: seq<Sid>, p: nat): seq<Request> {
    if order == [] then [] else
      (if p < |At(queues, order[0])| then [At(queues, order[0])[p]] else []) + Column(queues, order[1..], p)
  }

  /** The first n columns, streams in ascending order: all heads, then all seconds, ... */
  ghost function Columns(queues: Queues, n: nat): seq<Request> {
    if n == 0 then [] else Columns(queues, n - 1) + Column(queues, Sorted(queues.Keys), n - 1)
  }

  /** Two streams in numbers: both heads, the smaller id first, then the second request. */
  lemma TwoStreams(a: Request, b: Request, c: Request)
    ensures Columns(map[5 := [c], 2 := [a, b]], 2) == [a, c, b]
  {
    var queues: Queues := map[5 := [c], 2 := [a, b]];
    SortedUnique(Sorted(queues.Keys), [2, 5]);
    hide Sorted;
    assert [2, 5][1..] == [5] && [5][1..] == [];
    assert Column(queues, [], 0) == [] && Column(queues, [], 1) == [];
    assert Column(queues, [5], 0) == [c] && Column(queues, [5], 1) == [];
    assert Column(queues, [2, 5], 0) == [a] + Column(queues, [5], 0);
    assert Column(queues, [2, 5], 1) == [b] + Column(queues, [5], 1);
    assert Columns(queues, 0) == [] && Columns(queues, 1) == [] + Column(queues, [2, 5], 0);
    assert Columns(queues, 2) == Columns(queues, 1) + Column(queues, [2, 5], 1);
  }

  /** The queues after the scheduler has received from one of them. */
  function Popped(queues: Queues, sid: Sid): Queues {
    var q := At(queues, sid);
    if q == [] then queues else if IsFin(q[0]) then queues - {sid} else queues[sid := q[1..]]
  }

  /** The queues after n passes, on each stream. */
  predicate Advanced(was: Queues, now: Queues, n: nat) {
    && now.Keys <= was.Keys
    && forall sid: Sid :: sid in was ==> At(now, sid) == if n <= |was[sid]| then was[sid][n..] else []
  }

  /** A pass is under way: the streams of order[..i] have had their turn. */
  predicate Midway(was: Queues, now: Queues, order: seq<Sid>, i: nat)
    requires i <= |order|
  {
    && now.Keys <= was.Keys
    && (forall sid: Sid :: sid in order[..i] ==> At(now, sid) == if At(was, sid) == [] then [] else At(was, sid)[1..])
    && (forall sid: Sid :: sid !in order[..i] ==> At(now, sid) == At(was, sid))
  }

  lemma {:induction false} ColumnAppend(queues: Queues, a: seq<Sid>, sid: Sid, p: nat)
    ensures Column(queues, a + [sid], p) ==
      Column(queues, a, p) + if p < |At(queues, sid)| then [At(queues, sid)[p]] else []
  {
    if a == [] {
      assert (a + [sid])[1..] == [];
      assert Column(queues, [], p) == [];
    } else {
      assert (a + [sid])[1..] == a[1..] + [sid];
      ColumnAppend(queues, a[1..], sid, p);
    }
  }

  lemma ColumnSorted(queues: Queues, sids: set<Sid>, m: Sid, p: nat)
    requires IsLeast(m, sids)
    ensures Column(queues, Sorted(sids), p) ==
      (if p < |At(queues, m)| then [At(queues, m)[p]] else []) + Column(queues, Sorted(sids - {m}), p)
  {
    LeastOf(sids, m);
    var rest := Sorted(sids - {m});
    assert Sorted(sids) == [m] + rest;
    hide Sorted;
    assert ([m] + rest)[1..] == rest;
  }

  /** A stream without a request at the position does not matter. */
  lemma {:induction false} ColumnWithout(queues: Queues, sids: set<Sid>, sid: Sid, p: nat)
    requires |At(queues, sid)| <= p
    ensures Column(queues, Sorted(sids), p) == Column(queues, Sorted(sids - {sid}), p)
    decreases |sids|
  {
    hide Sorted, Column, At;
    if sid !in sids {
      assert sids - {sid} == sids;
    } else {
      var m := Least(sids);
      ColumnSorted(queues, sids, m, p);
      if m == sid {
        assert [] + Column(queues, Sorted(sids - {sid}), p) == Column(queues, Sorted(sids - {sid}), p);
      } else {
        ColumnSorted(queues, sids - {sid}, m, p);
        assert sids - {sid} - {m} == sids - {m} - {sid};
        ColumnWithout(queues, sids - {m}, sid, p);
      }
    }
  }

  lemma LeastOf(sids: set<Sid>, m: Sid)
    requires IsLeast(m, sids)
    ensures Least(sids) == m
  {
  }

  /** Only the streams that still have a request at the position matter. */
  lemma {:induction false} ColumnRestrict(queues: Queues, few: set<Sid>, all: set<Sid>, p: nat)
    requires few <= all && forall sid: Sid :: sid in all && sid !in few ==> |At(queues, sid)| <= p
    ensures Column(queues, Sorted(few), p) == Column(queues, Sorted(all), p)
    decreases |all|
  {
    if few != all {
      var sid :| sid in all && sid !in few;
      ColumnWithout(queues, all, sid, p);
      ColumnRestrict(queues, few, all - {sid}, p);
    }
  }

  /** After n passes the heads are what was at position n. */
  lemma {:induction false} ColumnShift(was: Queues, now: Queues, order: seq<Sid>, n: nat)
    requires Advanced(was, now, n) && forall sid :: sid in order ==> sid in was
    ensures Column(now, order, 0) == Column(was, order, n)
  {
    if order != [] {
      assert order[0] in order;
      ColumnShift(was, now, order[1..], n);
    }
  }

  lemma HeadsAfter(was: Queues, now: Queues, n: nat)
    requires Advanced(was, now, n)
    ensures Column(now, Sorted(now.Keys), 0) == Column(was, Sorted(was.Keys), n)
  {
    hide Column;
    ColumnRestrict(now, now.Keys, was.Keys, 0);
    ColumnShift(was, now, Sorted(was.Keys), n);
  }

  // The scheduler.

  /** A queue that is empty after n passes stays so. */
  lemma NextPass(was: Queues, mid: Queues, now: Queues, order: seq<Sid>, n: nat)
    requires Advanced(was, mid, n) && Midway(mid, now, order, |order|)
    requires forall sid :: sid in order <==> sid in mid
    ensures Advanced(was, now, n + 1)
  {
    assert order[..|order|] == order;
    hide At;
    forall sid: Sid | sid in was
      ensures At(now, sid) == if n + 1 <= |was[sid]| then was[sid][n + 1..] else []
    {
      assert At(mid, sid) == if n <= |was[sid]| then was[sid][n..] else [];
      if sid !in order {
        AtNone(mid, sid);
      }
      NextTail(was[sid], n);
    }
  }

  lemma AtNone(queues: Queues, sid: Sid)
    requires sid !in queues
    ensures At(queues, sid) == []
  {
  }

  lemma NextTail(q: seq<Request>, n: nat)
    ensures n < |q| ==> q[n..] != [] && q[n..][1..] == q[n + 1..]
  {
  }

  lemma PoppedAt(queues: Queues, sid: Sid, other: Sid)
    requires FinsLast(queues)
    ensures At(Popped(queues, sid), other) ==
      if other != sid || At(queues, sid) == [] then At(queues, other) else At(queues, sid)[1..]
    ensures Popped(queues, sid).Keys <= queues.Keys && FinsLast(Popped(queues, sid))
  {
    var q := At(queues, sid);
    if q != [] && IsFin(q[0]) {
      assert |q| == 1;
    }
  }

  lemma PoppedTotal(queues: Queues, sid: Sid)
    requires FinsLast(queues)
    ensures Total(Popped(queues, sid)) == Total(queues) - if At(queues, sid) == [] then 0 else 1
  {
    hide Total;
    var q := At(queues, sid);
    if q != [] {
      TotalSet(queues, sid, q[1..]);
      if IsFin(q[0]) {
        assert |q| == 1;
      }
    }
  }

  /** The snapshot of the ids and sort.Slice. */
  method Listed(ids: set<Sid>) returns (order: seq<Sid>)
    ensures order == Sorted(ids)
    ensures forall i, j :: 0 <= i < j < |order| ==> order[i] < order[j]
  {
    var rest := ids;
    order := [];
    while rest != {}
      invariant rest <= ids && Ascending(order) && forall x :: x in order <==> x in ids && x !in rest
      decreases rest
    {
      var sid :| sid in rest;
      order := Inserted(order, sid);
      rest := rest - {sid};
    }
    SortedUnique(order, Sorted(ids));
  }

  method Inserted(order: seq<Sid>, sid: Sid) returns (r: seq<Sid>)
    requires Ascending(order) && sid !in order
    ensures Ascending(r) && forall x :: x in r <==> x in order || x == sid
  {
    var i := 0;
    while i < |order| && order[i] < sid
      invariant i <= |order| && forall j :: 0 <= j < i ==> order[j] < sid
    {
      i := i + 1;
    }
    InsertedAscending(order, sid, i);
    r := order[..i] + [sid] + order[i..];
  }

  lemma InsertedAscending(order: seq<Sid>, sid: Sid, i: nat)
    requires Ascending(order) && i <= |order| && sid !in order
    requires forall j :: 0 <= j < i ==> order[j] < sid
    requires i < |order| ==> sid <= order[i]
    ensures var r := order[..i] + [sid] + order[i..];
            Ascending(r) && forall x :: x in r <==> x in order || x == sid
  {
    var a, b := order[..i], order[i..];
    assert order == a + b;
    assert Ascending(a) && Ascending(b) by {
      assert forall j :: 0 <= j < |b| ==> b[j] == order[i + j];
    }
    assert b != [] ==> b[0] == order[i] && order[i] in order;
    AscendingJoin(a, sid, b);
  }

  lemma AscendingJoin(a: seq<Sid>, sid: Sid, b: seq<Sid>)
    requires Ascending(a) && Ascending(b)
    requires (forall j :: 0 <= j < |a| ==> a[j] < sid) && (b != [] ==> sid < b[0])
    ensures Ascending(a + [sid] + b)
  {
    var r := a + [sid] + b;
    assert forall j :: 0 <= j < |b| ==> sid < b[j];
    forall j, k | 0 <= j < k < |r| ensures r[j] < r[k] {
      assert r[j] == if j < |a| then a[j] else if j == |a| then sid else b[j - |a| - 1];
      assert r[k] == if k < |a| then a[k] else if k == |a| then sid else b[k - |a| - 1];
    }
  }

  lemma {:induction false} ColumnBusy(queues: Queues, order: seq<Sid>, sid: Sid)
    requires sid in order && At(queues, sid) != []
    ensures Column(queues, order, 0) != []
  {
    if order[0] != sid {
      ColumnBusy(queues, order[1..], sid);
    }
  }

  lemma TotalBusy(queues: Queues)
    requires Total(queues) > 0
    ensures exists sid :: sid in queues && queues[sid] != []
  {
    SumPositive(Lengths(queues));
    var sid :| sid in Lengths(queues) && Lengths(queues)[sid] > 0;
    assert sid in queues && queues[sid] != [];
  }

  /** The number of passes that empties the queues. */
  ghost predicate IsDepth(queues: Queues, n: nat) {
    (forall sid: Sid :: |At(queues, sid)| <= n) && Deep(queues, n)
  }

  ghost predicate Deep(queues: Queues, n: nat) {
    n > 0 ==> exists sid: Sid :: |At(queues, sid)| >= n
  }

  class Scheduler {
    var streamQueues: Queues
    var reqCount: int
    var writes: seq<Request>

    predicate Valid() reads this {
      FinsLast(streamQueues)
    }

    /** One turn of a stream: its oldest request goes out; a FIN takes the queue with it. */
    method Turn(sid: Sid)
      requires Valid()
      modifies this
      ensures Valid() && streamQueues == Popped(old(streamQueues), sid)
      ensures writes == old(writes) + Column(old(streamQueues), [sid], 0)
      ensures reqCount == old(reqCount) - |Column(old(streamQueues), [sid], 0)|
      ensures var q := At(old(streamQueues), sid);
              if q == [] then streamQueues == old(streamQueues) && writes == old(writes) && reqCount == old(reqCount)
              else
                && writes == old(writes) + [q[0]] && reqCount == old(reqCount) - 1
                && streamQueues == if q[0].frame.cmd == CMD_FIN then old(streamQueues) - {sid}
                                   else old(streamQueues)[sid := q[1..]]
    {
      assert Column(streamQueues, [sid], 0) == (if At(streamQueues, sid) != [] then [At(streamQueues, sid)[0]] else []) by {
        ColumnAppend(streamQueues, [], sid, 0);
        assert [] + [sid] == [sid];
        assert Column(streamQueues, [], 0) == [];
      }
      PoppedAt(streamQueues, sid, sid);
      if sid in streamQueues {
        var queue := streamQueues[sid];
        if queue != [] {
          var request := queue[0];
          streamQueues := streamQueues[sid := queue[1..]];
          if IsFin(request) {
            streamQueues := streamQueues - {sid};
          }
          writes := writes + [request];
          reqCount := reqCount - 1;
        }
      }
    }

    /** One pass over the streams that have a queue when it begins. */
    method Pass()
      requires Valid() && reqCount == Total(streamQueues)
      modifies this
      ensures Valid() && reqCount == Total(streamQueues)
      ensures writes == old(writes) + Column(old(streamQueues), Sorted(old(streamQueues.Keys)), 0)
      ensures reqCount == old(reqCount) - |Column(old(streamQueues), Sorted(old(streamQueues.Keys)), 0)|
      ensures var order := Sorted(old(streamQueues.Keys)); Midway(old(streamQueues), streamQueues, order, |order|)
    {
      hide Column, Total, Sorted, Popped, Midway, FinsLast;
      ghost var was, written, counted := streamQueues, writes, reqCount;
      var sids := Listed(streamQueues.Keys);
      ghost var done: seq<Request> := [];
      MidwayStart(was, sids);
      for i := 0 to |sids|
        invariant Valid() && reqCount == Total(streamQueues)
        invariant Midway(was, streamQueues, sids, i)
        invariant done == Column(was, sids[..i], 0)
        invariant writes == written + done && reqCount == counted - |done|
      {
        ghost var before := streamQueues;
        Turn(sids[i]);
        TurnColumn(was, before, sids, i);
        TurnMidway(was, before, sids, i);
        PoppedTotal(before, sids[i]);
        done := done + Column(before, [sids[i]], 0);
      }
      assert sids[..|sids|] == sids;
    }

    /** The scheduler's loop when nothing else is submitted. */
    method Drain() returns (passes: nat)
      requires Valid() && reqCount == Total(streamQueues)
      modifies this
      ensures reqCount == 0 && forall sid :: sid in streamQueues ==> streamQueues[sid] == []
      ensures IsDepth(old(streamQueues), passes)
      ensures writes == old(writes) + Columns(old(streamQueues), passes)
    {
      hide Column, Columns, Total, Sorted, Midway, Advanced, Deep, FinsLast, IsDepth;
      ghost var was, written := streamQueues, writes;
      passes := 0;
      AdvancedStart(was);
      while reqCount > 0
        invariant Valid() && reqCount == Total(streamQueues)
        invariant Advanced(was, streamQueues, passes)
        invariant Deep(was, passes)
        invariant writes == written + Columns(was, passes)
        decreases reqCount
      {
        ghost var before := streamQueues;
        Pass();
        PassDone(was, before, streamQueues, passes);
        passes := passes + 1;
      }
      Emptied(was, streamQueues, passes);
    }
  }

  lemma MidwayStart(was: Queues, sids: seq<Sid>)
    ensures Midway(was, was, sids, 0) && Column(was, sids[..0], 0) == []
  {
  }

  lemma TurnColumn(was: Queues, before: Queues, sids: seq<Sid>, i: nat)
    requires i < |sids| && Ascending(sids) && Midway(was, before, sids, i)
    ensures Column(was, sids[..i + 1], 0) == Column(was, sids[..i], 0) + Column(before, [sids[i]], 0)
    ensures |Column(before, [sids[i]], 0)| == if At(before, sids[i]) == [] then 0 else 1
  {
    var sid := sids[i];
    assert sids[..i + 1] == sids[..i] + [sid];
    assert sid !in sids[..i];
    assert At(before, sid) == At(was, sid);
    ColumnAppend(was, sids[..i], sid, 0);
    ColumnAppend(before, [], sid, 0);
    assert [] + [sid] == [sid] && Column(before, [], 0) == [];
  }

  lemma TurnMidway(was: Queues, before: Queues, sids: seq<Sid>, i: nat)
    requires i < |sids| && Ascending(sids) && FinsLast(before) && Midway(was, before, sids, i)
    ensures Midway(was, Popped(before, sids[i]), sids, i + 1)
  {
    hide FinsLast;
    var sid, now := sids[i], Popped(before, sids[i]);
    PoppedAt(before, sid, sid);
    hide Popped, At;
    assert sids[..i + 1] == sids[..i] + [sid];
    assert sid !in sids[..i];
    forall other: Sid ensures At(now, other) ==
      if other in sids[..i + 1] then (if At(was, other) == [] then [] else At(was, other)[1..]) else At(was, other)
    {
      PoppedAt(before, sid, other);
    }
  }

  /** A pass with work to do takes the next column, and that is not empty. */
  lemma PassDone(was: Queues, before: Queues, now: Queues, n: nat)
    requires Advanced(was, before, n) && Total(before) > 0
    requires Midway(before, now, Sorted(before.Keys), |Sorted(before.Keys)|)
    ensures Advanced(was, now, n + 1) && Deep(was, n + 1)
    ensures Columns(was, n + 1) == Columns(was, n) + Column(before, Sorted(before.Keys), 0)
    ensures Column(before, Sorted(before.Keys), 0) != []
  {
    hide Column, Sorted;
    NextPass(was, before, now, Sorted(before.Keys), n);
    HeadsAfter(was, before, n);
    TotalBusy(before);
    var sid :| sid in before && before[sid] != [];
    ColumnBusy(before, Sorted(before.Keys), sid);
    assert |At(was, sid)| >= n + 1;
  }

  lemma AdvancedStart(was: Queues)
    ensures Advanced(was, was, 0) && Deep(was, 0) && Columns(was, 0) == []
  {
  }

  lemma Emptied(was: Queues, now: Queues, n: nat)
    requires Advanced(was, now, n) && Total(now) == 0
    requires Deep(was, n)
    ensures IsDepth(was, n) && forall sid :: sid in now ==> now[sid] == []
  {
    hide Total;
    forall sid | sid in now ensures now[sid] == [] {
      QueueCounted(now, sid);
    }
    assert forall sid: Sid :: |At(was, sid)| <= n;
  }

  // Fairness.

  lemma {:induction false} ColumnsGrow(queues: Queues, m: nat, n: nat)
    requires m <= n
    ensures |Columns(queues, m)| <= |Columns(queues, n)|
    ensures Columns(queues, n)[..|Columns(queues, m)|] == Columns(queues, m)
  {
    hide Column, Sorted;
    if m < n {
      ColumnsGrow(queues, m, n - 1);
      var a, b := Columns(queues, n - 1), Columns(queues, m);
      assert (a + Column(queues, Sorted(queues.Keys), n - 1))[..|b|] == a[..|b|];
    }
  }

  lemma {:induction false} InColumn(queues: Queues, order: seq<Sid>, sid: Sid, p: nat) returns (j: nat)
    requires p < |At(queues, sid)| && sid in order
    ensures j < |Column(queues, order, p)| && Column(queues, order, p)[j] == At(queues, sid)[p]
  {
    if order[0] == sid {
      j := 0;
    } else {
      j := InColumn(queues, order[1..], sid, p);
      j := if p < |At(queues, order[0])| then j + 1 else j;
    }
  }

  lemma {:induction false} SortedLength(sids: set<Sid>)
    ensures |Sorted(sids)| == |sids|
    decreases |sids|
  {
    if sids != {} {
      SortedLength(sids - {Least(sids)});
    }
  }

  /** In n passes at most n requests of every stream leave. */
  lemma {:induction false} ColumnsBound(queues: Queues, n: nat)
    ensures |Columns(queues, n)| <= n * |queues.Keys|
  {
    hide Sorted, Column;
    if n > 0 {
      var k := |queues.Keys|;
      var before, column := Columns(queues, n - 1), Column(queues, Sorted(queues.Keys), n - 1);
      ColumnsBound(queues, n - 1);
      ColumnLength(queues, Sorted(queues.Keys), n - 1);
      SortedLength(queues.Keys);
      OneMore(n, k);
      calc {
        |Columns(queues, n)|;
        |before| + |column|;
      <= (n - 1) * k + k;
        n * k;
      }
    }
  }

  lemma OneMore(n: nat, k: nat)
    requires n > 0
    ensures n * k == (n - 1) * k + k
  {
  }

  lemma {:induction false} ColumnLength(queues: Queues, order: seq<Sid>, p: nat)
    ensures |Column(queues, order, p)| <= |order|
  {
    if order != [] {
      ColumnLength(queues, order[1..], p);
    }
  }

  /** The request at position p of a queue leaves in pass p + 1, however long the other queues
      are. */
  lemma LeavesInPass(queues: Queues, n: nat, sid: Sid, p: nat) returns (i: nat)
    requires p < |At(queues, sid)| <= n
    ensures |Columns(queues, p)| <= i < |Columns(queues, p + 1)| <= |Columns(queues, n)|
    ensures Columns(queues, n)[i] == At(queues, sid)[p]
  {
    hide *;
    var column, j := NextColumn(queues, sid, p);
    ColumnsGrow(queues, p + 1, n);
    Inside(Columns(queues, p), column, Columns(queues, n), j);
    i := |Columns(queues, p)| + j;
  }

  lemma NextColumn(queues: Queues, sid: Sid, p: nat) returns (column: seq<Request>, j: nat)
    requires p < |At(queues, sid)|
    ensures Columns(queues, p + 1) == Columns(queues, p) + column
    ensures j < |column| && column[j] == At(queues, sid)[p]
  {
    hide Column, Sorted;
    column := Column(queues, Sorted(queues.Keys), p);
    j := InColumn(queues, Sorted(queues.Keys), sid, p);
  }

  lemma Inside(a: seq<Request>, b: seq<Request>, all: seq<Request>, j: nat)
    requires j < |b| && |a + b| <= |all| && all[..|a + b|] == a + b
    ensures all[|a| + j] == b[j]
  {
    assert all[..|a + b|][|a| + j] == b[j];
  }

  // The same turn in the step system.

  /** The actions of the scheduler for one stream, from the lookup on. */
  function TurnActions(queues: Queues, sid: Sid): seq<Action> {
    if sid !in queues then [Action.Pass]
    else if queues[sid] == [] then [Action.Pass, Pop]
    else if IsFin(queues[sid][0]) then [Action.Pass, Pop, Retire, Send, Uncount]
    else [Action.Pass, Pop, Send, Uncount]
  }

  ghost predicate TurnEnd(s: State, t: State, sid: Sid, rest: seq<Sid>) {
    && t.queues == Popped(s.queues, sid) && t.sched == Passing(rest)
    && t.out == s.out + Column(s.queues, [sid], 0) && t.count == s.count - |Column(s.queues, [sid], 0)|
    && t.disp == s.disp && t.wire == s.wire && t.notify == s.notify && t.submitted == s.submitted
  }

  lemma ColumnOfOne(queues: Queues, sid: Sid)
    ensures Column(queues, [sid], 0) == if At(queues, sid) == [] then [] else [At(queues, sid)[0]]
  {
    assert [sid][1..] == [];
    assert Column(queues, [], 0) == [];
  }

  /** The steps of a turn, run without interference, have the effect of Scheduler.Turn. */
  lemma TurnIsRun(s: State, sid: Sid, rest: seq<Sid>, size: nat) returns (t: State)
    requires s.sched == Passing([sid] + rest) && |s.out| < WRITES_CAPACITY
    requires forall x :: x in At(s.queues, sid) ==> x.frame.sid == sid
    ensures Run(s, TurnActions(s.queues, sid), t, size) && TurnEnd(s, t, sid, rest)
  {
    hide Lane, Without, Run, Column, Sorted;
    ColumnOfOne(s.queues, sid);
    assert ([sid] + rest)[1..] == rest;
    var s1 := Next(s, Action.Pass, size);
    if sid !in s.queues {
      t := s1;
      RunOf1(s, Action.Pass, t, size);
    } else {
      var q := s.queues[sid];
      var s2 := Next(s1, Pop, size);
      if q == [] {
        t := s2;
        RunOf2(s, Action.Pass, s1, Pop, t, size);
      } else {
        assert q[0] in At(s.queues, sid);
        t := PoppedTurn(s, s1, s2, sid, rest, size);
      }
    }
  }

  lemma PoppedTurn(s: State, s1: State, s2: State, sid: Sid, rest: seq<Sid>, size: nat) returns (t: State)
    requires s.sched == Passing([sid] + rest) && |s.out| < WRITES_CAPACITY && At(s.queues, sid) != []
    requires s1 == Next(s, Action.Pass, size) && s1.sched == Popping(sid, rest) && s2 == Next(s1, Pop, size)
    requires At(s.queues, sid)[0].frame.sid == sid
    ensures Run(s, TurnActions(s.queues, sid), t, size) && TurnEnd(s, t, sid, rest)
  {
    hide Lane, Without, Run, Column, Sorted;
    ColumnOfOne(s.queues, sid);
    var q := s.queues[sid];
    assert Enabled(s1, Pop, size) && Enabled(s, Action.Pass, size);
    if IsFin(q[0]) {
      var s3 := Next(s2, Retire, size);
      t := SentTurn(s3, size);
      assert s.queues[sid := q[1..]] - {sid} == s.queues - {sid};
      RunMore(s2, Retire, s3, [Send, Uncount], t, size);
      hide Enabled, Next;
      RunMore(s1, Pop, s2, [Retire, Send, Uncount], t, size);
      RunMore(s, Action.Pass, s1, [Pop, Retire, Send, Uncount], t, size);
    } else {
      t := SentTurn(s2, size);
      hide Enabled, Next;
      RunMore(s1, Pop, s2, [Send, Uncount], t, size);
      RunMore(s, Action.Pass, s1, [Pop, Send, Uncount], t, size);
    }
  }

  lemma SentTurn(s: State, size: nat) returns (t: State)
    requires s.sched.Sending? && |s.out| < WRITES_CAPACITY
    ensures Run(s, [Send, Uncount], t, size)
    ensures t == s.(out := s.out + [s.sched.r], count := s.count - 1, sched := Passing(s.sched.sids),
                    held := Without(s.held, s.sched.r))
  {
    hide Lane, Without, Run;
    var s1 := Next(s, Send, size);
    t := Next(s1, Uncount, size);
    RunOf2(s, Send, s1, Uncount, t, size);
  }

  lemma RunMore(s: State, a: Action, u: State, actions: seq<Action>, t: State, size: nat)
    requires Enabled(s, a, size) && Next(s, a, size) == u && Run(u, actions, t, size)
    ensures Run(s, [a] + actions, t, size)
    ensures |actions| == 2 ==> [a] + actions == [a, actions[0], actions[1]]
    ensures |actions| == 3 ==> [a] + actions == [a, actions[0], actions[1], actions[2]]
    ensures |actions| == 4 ==> [a] + actions == [a, actions[0], actions[1], actions[2], actions[3]]
  {
    hide Enabled, Next;
    assert ([a] + actions)[1..] == actions;
  }

  lemma RunOf1(s: State, a: Action, t: State, size: nat)
    requires Enabled(s, a, size) && Next(s, a, size) == t
    ensures Run(s, [a], t, size)
  {
    hide Enabled, Next;
    assert Run(t, [], t, size);
    RunMore(s, a, t, [], t, size);
    assert [a] + [] == [a];
  }

  lemma RunOf2(s: State, a: Action, u: State, b: Action, t: State, size: nat)
    requires Enabled(s, a, size) && Next(s, a, size) == u && Enabled(u, b, size) && Next(u, b, size) == t
    ensures Run(s, [a, b], t, size)
  {
    hide Enabled, Next;
    RunOf1(u, b, t, size);
    RunMore(s, a, u, [b], t, size);
    assert [a] + [b] == [a, b];
  }
}
