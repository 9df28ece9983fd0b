/** Order-preserving selection from a list. */
module Sequences {

  /** `a` is `b` with some elements removed, the rest kept in order; matched from the end. */
  predicate IsSubsequence<T(==)>(a: seq<T>, b: seq<T>)
    decreases |b|
  {
    if |a| == 0 then true
    else if |b| == 0 then false
    else if a[|a| - 1] == b[|b| - 1] then IsSubsequence(a[..|a| - 1], b[..|b| - 1])
    else IsSubsequence(a, b[..|b| - 1])
  }

  /** Dropping the last element of a subsequence leaves a subsequence. */
  lemma {:induction false} SubsequenceInit<T>(a: seq<T>, b: seq<T>)
    requires |a| > 0 && IsSubsequence(a, b)
    ensures IsSubsequence(a[..|a| - 1], b)
    decreases |b|
  {
    var a' := a[..|a| - 1];
    var b' := b[..|b| - 1];
    if a[|a| - 1] == b[|b| - 1] {
      if |a'| > 0 && a'[|a'| - 1] == b[|b| - 1] {
        SubsequenceInit(a', b');
      }
    } else {
      SubsequenceInit(a, b');
      if |a'| > 0 && a'[|a'| - 1] == b[|b| - 1] {
        SubsequenceInit(a', b');
      }
    }
  }

  /** Extending the longer list keeps a subsequence a subsequence. */
  lemma {:induction false} SubsequenceSnoc<T>(a: seq<T>, b: seq<T>, x: T)
    requires IsSubsequence(a, b)
    ensures IsSubsequence(a, b + [x])
    ensures IsSubsequence(a + [x], b + [x])
  {
    assert (b + [x])[..|b|] == b;
    assert (a + [x])[..|a|] == a;
    if |a| > 0 && a[|a| - 1] == x {
      SubsequenceInit(a, b);
    }
  }

  /** Every element of a subsequence is an element of the list. */
  lemma {:induction false} SubsequenceMembers<T>(a: seq<T>, b: seq<T>)
    requires IsSubsequence(a, b)
    ensures forall x :: x in a ==> x in b
    decreases |b|
  {
    if |a| > 0 && |b| > 0 {
      if a[|a| - 1] == b[|b| - 1] {
        SubsequenceMembers(a[..|a| - 1], b[..|b| - 1]);
        forall x | x in a ensures x in b {
          if x != a[|a| - 1] {
            assert x in a[..|a| - 1];
          } else {
            assert b[|b| - 1] in b;
          }
        }
      } else {
        SubsequenceMembers(a, b[..|b| - 1]);
      }
    }
  }

  /** Subsequences of two lists, concatenated, are a subsequence of the concatenated lists. */
  lemma {:induction false} SubsequenceAppend<T>(a1: seq<T>, b1: seq<T>, a2: seq<T>, b2: seq<T>)
    requires IsSubsequence(a1, b1) && IsSubsequence(a2, b2)
    ensures IsSubsequence(a1 + a2, b1 + b2)
    decreases |b2|
  {
    if |b2| == 0 {
      assert a1 + a2 == a1 && b1 + b2 == b1;
    } else {
      var x := b2[|b2| - 1];
      var b2' := b2[..|b2| - 1];
      assert b1 + b2 == (b1 + b2') + [x];
      if |a2| > 0 && a2[|a2| - 1] == x {
        var a2' := a2[..|a2| - 1];
        SubsequenceAppend(a1, b1, a2', b2');
        assert a1 + a2 == (a1 + a2') + [x];
        SubsequenceSnoc(a1 + a2', b1 + b2', x);
      } else {
        SubsequenceAppend(a1, b1, a2, b2');
        SubsequenceSnoc(a1 + a2, b1 + b2', x);
      }
    }
  }
}
