/** The stream ids of a map in ascending order, as sort.Slice leaves them in sendLoop. */
module Sids {
  import opened SmuxFrame

  predicate Ascending(order: seq<Sid>) {
    forall i, j :: 0 <= i < j < |order| ==> order[i] < order[j]
  }

  predicate IsLeast(m: Sid, sids: set<Sid>) {
    m in sids && forall x :: x in sids ==> m <= x
  }

  lemma {:induction false} LeastExists(sids: set<Sid>) returns (m: Sid)
    requires sids != {}
    ensures IsLeast(m, sids)
  {
    var x :| x in sids;
    if sids - {x} == {} {
      assert sids == {x};
      m := x;
    } else {
      var y := LeastExists(sids - {x});
      m := if x < y then x else y;
      assert forall z :: z in sids ==> z == x || z in sids - {x};
    }
  }

  ghost function Least(sids: set<Sid>): (m: Sid)
    requires sids != {}
    ensures IsLeast(m, sids)
  {
    LeastThere(sids);
    var m: Sid :| IsLeast(m, sids);
    m
  }

  lemma LeastThere(sids: set<Sid>)
    requires sids != {}
    ensures exists m: Sid :: IsLeast(m, sids)
  {
    var m := LeastExists(sids);
  }

  ghost function Sorted(sids: set<Sid>): (order: seq<Sid>)
    ensures Ascending(order) && forall x :: x in order <==> x in sids
    decreases |sids|
  {
    if sids == {} then [] else
      var m := Least(sids);
      var rest := Sorted(sids - {m});
      assert forall x :: x in rest ==> m < x;
      [m] + rest
  }

  lemma {:induction false} SortedSize(sids: set<Sid>)
    ensures |Sorted(sids)| == |sids|
    decreases |sids|
  {
    if sids != {} {
      SortedSize(sids - {Least(sids)});
    }
  }

  /** The list is that of the numbers, the smallest first. */
  lemma SortedNumbers(sids: set<Sid>)
    ensures var r := Sorted(sids);
            && (forall i, j :: 0 <= i < j < |r| ==> r[i] < r[j]) && (forall x :: x in r <==> x in sids)
    ensures Sorted({5, 2, 9}) == [2, 5, 9]
  {
    hide Sorted;
    var r := Sorted({5, 2, 9});
    SortedUnique(r, [2, 5, 9]);
  }

  lemma NotEmpty(a: seq<Sid>, b: seq<Sid>)
    requires a != [] && forall x :: x in a ==> x in b
    ensures b != []
  {
    assert a[0] in b;
  }

  lemma InTail(a: seq<Sid>, x: Sid)
    requires Ascending(a) && a != []
    ensures x in a[1..] <==> x in a && x != a[0]
  {
    assert a == [a[0]] + a[1..];
  }

  /** The order is the only one there is. */
  lemma {:induction false} SortedUnique(a: seq<Sid>, b: seq<Sid>)
    requires Ascending(a) && Ascending(b) && forall x :: x in a <==> x in b
    ensures a == b
  {
    if a != [] {
      NotEmpty(a, b);
    }
    if b != [] {
      NotEmpty(b, a);
      assert a[0] in b && b[0] in a;
      assert a[0] == b[0];
      forall x ensures x in a[1..] <==> x in b[1..] {
        InTail(a, x);
        InTail(b, x);
      }
      SortedUnique(a[1..], b[1..]);
    }
  }
}
