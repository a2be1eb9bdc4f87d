/** Sums over finite maps. */
module Sums {
  ghost function Sum<K(!new)>(m: map<K, nat>): nat
    decreases |m|
  {
    if m == map[] then 0 else
      var k :| k in m;
      assert |m - {k}| < |m| by { Fewer(m, k); }
      m[k] + Sum(m - {k})
  }

  lemma Fewer<K, V>(m: map<K, V>, k: K)
    requires k in m
    ensures |m - {k}| < |m|
  {
    assert m == (m - {k})[k := m[k]];
  }

  /** The sum may be taken in any order. */
  lemma {:induction false} SumPick<K(!new)>(m: map<K, nat>, k: K)
    requires k in m
    ensures Sum(m) == m[k] + Sum(m - {k})
    decreases |m|
  {
    var first :| first in m && Sum(m) == m[first] + Sum(m - {first});
    if first != k {
      Fewer(m, first);
      Fewer(m, k);
      SumPick(m - {first}, k);
      SumPick(m - {k}, first);
      assert m - {first} - {k} == m - {k} - {first};
    }
  }

  /** Changing one value changes the sum by as much. */
  lemma SumSet<K(!new)>(m: map<K, nat>, k: K, v: nat)
    ensures Sum(m[k := v]) == Sum(m) - (if k in m then m[k] else 0) + v
  {
    hide Sum;
    SumPick(m[k := v], k);
    assert m[k := v] - {k} == m - {k};
    if k in m {
      SumPick(m, k);
    } else {
      assert m - {k} == m;
    }
  }

  lemma SumOne<K(!new)>(m: map<K, nat>, k: K)
    requires k in m
    ensures m[k] <= Sum(m)
  {
    SumPick(m, k);
  }

  lemma {:induction false} SumPositive<K(!new)>(m: map<K, nat>)
    requires Sum(m) > 0
    ensures exists k :: k in m && m[k] > 0
    decreases |m|
  {
    var k :| k in m && Sum(m) == m[k] + Sum(m - {k});
    if m[k] == 0 {
      Fewer(m, k);
      SumPositive(m - {k});
      var other :| other in m - {k} && (m - {k})[other] > 0;
      assert other in m && m[other] > 0;
    }
  }

  lemma {:induction false} SumZero<K(!new)>(m: map<K, nat>)
    requires forall k :: k in m ==> m[k] == 0
    ensures Sum(m) == 0
    decreases |m|
  {
    if m != map[] {
      var k :| k in m && Sum(m) == m[k] + Sum(m - {k});
      Fewer(m, k);
      SumZero(m - {k});
    }
  }
}
