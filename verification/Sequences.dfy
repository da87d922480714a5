// Sequences turned round.

module Sequences {

  function Reversed<T>(s: seq<T>): (r: seq<T>)
    ensures |r| == |s| && forall i :: 0 <= i < |s| ==> r[i] == s[|s| - 1 - i]
  {
    if s == [] then [] else [s[|s| - 1]] + Reversed(s[..|s| - 1])
  }

  lemma ReversedJoin<T>(a: seq<T>, b: seq<T>)
    ensures Reversed(a + b) == Reversed(b) + Reversed(a)
  {
    var s := a + b;
    forall i | 0 <= i < |s| ensures Reversed(s)[i] == (Reversed(b) + Reversed(a))[i] {
      assert Reversed(s)[i] == s[|s| - 1 - i];
    }
  }

  lemma ReversedTwice<T>(s: seq<T>)
    ensures Reversed(Reversed(s)) == s
  {
    forall i | 0 <= i < |s| ensures Reversed(Reversed(s))[i] == s[i] {
      assert Reversed(Reversed(s))[i] == Reversed(s)[|s| - 1 - i];
    }
  }
}
