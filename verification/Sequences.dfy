/** What several components need: sequences without repetitions, and small numbers. */
module Sequences {

  function Unit(b: bool): nat { if b then 1 else 0 }

  function Max(a: int, b: int): int { if a < b then b else a }

  ghost predicate Distinct<T>(s: seq<T>) { forall i, j :: 0 <= i < j < |s| ==> s[i] != s[j] }

  function Without<T>(s: seq<T>, i: nat): seq<T>
    requires i < |s|
  {
    s[..i] + s[i + 1..]
  }

  lemma DistinctAppend<T>(s: seq<T>, x: T)
    requires Distinct(s) && x !in s
    ensures Distinct(s + [x])
  {
  }

  lemma DistinctWithout<T>(s: seq<T>, i: nat)
    requires Distinct(s) && i < |s|
    ensures Distinct(Without(s, i)) && s[i] !in Without(s, i)
  {
  }

  lemma StandsOnce<T>(s: seq<T>, i: int)
    requires Distinct(s)
    ensures 0 <= i < |s| ==> forall k :: 0 <= k < |s| && k != i ==> s[k] != s[i]
  {
  }
}
