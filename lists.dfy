/** Sequences without repeated entries, as used for lists of distinct
    particle objects. */
module Lists {

  /** No entry occurs twice: the last one is not among the others, and so on
      down the prefix. */
  predicate Distinct<T(==)>(s: seq<T>)
    decreases |s|
  {
    |s| == 0 || (s[|s| - 1] !in s[..|s| - 1] && Distinct(s[..|s| - 1]))
  }

  lemma DistinctAppend<T>(s: seq<T>, x: T)
    requires Distinct(s) && x !in s
    ensures Distinct(s + [x])
  {
    assert (s + [x])[..|s|] == s;
  }

  lemma {:induction false} DistinctApart<T>(s: seq<T>, i: nat, j: nat)
    requires Distinct(s) && i < j < |s|
    ensures s[i] != s[j]
    decreases |s|
  {
    var init := s[..|s| - 1];
    if j == |s| - 1 {
      assert init[i] == s[i];
    } else {
      DistinctApart(init, i, j);
    }
  }

  /** In a list without repeats, entry `k` occurs neither before nor after
      position `k`. */
  lemma DistinctSplit<T>(s: seq<T>, k: nat)
    requires Distinct(s) && k < |s|
    ensures forall i :: 0 <= i < |s| && i != k ==> s[i] != s[k]
    ensures s[k] !in s[..k]
  {
    forall i | 0 <= i < |s| && i != k
      ensures s[i] != s[k]
    {
      if i < k {
        DistinctApart(s, i, k);
      } else {
        DistinctApart(s, k, i);
      }
    }
  }
}
