/** Cutting a byte string into pieces of bounded size, as both split functions do. */
module Chunks {

  /** The pieces: as many of the full size as fit before the last one, which is not empty. */
  function Pieces<T>(s: seq<T>, size: nat): (r: seq<seq<T>>)
    requires size > 0
  {
    if |s| > size then [s[..size]] + Pieces(s[size..], size)
    else if |s| > 0 then [s]
    else []
  }

  function Flatten<T>(ss: seq<seq<T>>): seq<T> {
    if ss == [] then [] else ss[0] + Flatten(ss[1..])
  }

  lemma {:induction false} FlattenAppend<T>(a: seq<seq<T>>, b: seq<seq<T>>)
    ensures Flatten(a + b) == Flatten(a) + Flatten(b)
  {
    if a == [] {
      assert a + b == b;
    } else {
      assert (a + b)[1..] == a[1..] + b;
      FlattenAppend(a[1..], b);
    }
  }

  /** The pieces put together are the input; all are full except the last; none is empty. */
  lemma {:induction false} PiecesCorrect<T>(s: seq<T>, size: nat)
    requires size > 0
    ensures var r := Pieces(s, size);
            && Flatten(r) == s
            && (forall i :: 0 <= i < |r| ==> 0 < |r[i]| <= size)
            && (forall i :: 0 <= i < |r| - 1 ==> |r[i]| == size)
  {
    if |s| > size {
      PiecesCorrect(s[size..], size);
      var r := Pieces(s[size..], size);
      assert ([s[..size]] + r)[1..] == r;
      assert s == s[..size] + s[size..];
    } else if |s| > 0 {
      assert Flatten([s]) == s + Flatten([s][1..]);
    }
  }

  /** A loop that has cut off some pieces leaves the pieces of the rest. */
  lemma PiecesStep<T>(done: seq<seq<T>>, s: seq<T>, size: nat)
    requires size > 0 && |s| > size
    ensures done + Pieces(s, size) == done + [s[..size]] + Pieces(s[size..], size)
  {
  }
}
