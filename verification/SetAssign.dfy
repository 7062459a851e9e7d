/** set_assign_union and set_assign_difference: merges of a sorted range into a sorted container, in place. */
module SetAssign {
  import opened Sequences

  type Less<!T> = (T, T) -> bool

  /** A strict weak order: what the comparator (or operator<) must be. */
  ghost predicate StrictWeakOrder<T(!new)>(less: Less<T>) {
    && (forall a, b :: less(a, b) ==> !less(b, a))
    && (forall a, b, c :: less(a, c) ==> less(a, b) || less(b, c))
  }

  ghost predicate Sorted<T>(s: seq<T>, less: Less<T>) { forall i, j :: 0 <= i < j < |s| ==> !less(s[j], s[i]) }

  predicate Equivalent<T>(a: T, b: T, less: Less<T>) { !less(a, b) && !less(b, a) }

  /** How many elements are equivalent to x. */
  function Count<T>(s: seq<T>, x: T, less: Less<T>): nat {
    if s == [] then 0 else (if Equivalent(s[0], x, less) then 1 else 0) + Count(s[1..], x, less)
  }

  // ---------- the merges ----------

  function Union<T>(d: seq<T>, s: seq<T>, less: Less<T>): seq<T> {
    if d == [] then s
    else if s == [] then d
    else if less(d[0], s[0]) then [d[0]] + Union(d[1..], s, less)
    else if less(s[0], d[0]) then [s[0]] + Union(d, s[1..], less)
    else [d[0]] + Union(d[1..], s[1..], less)
  }

  function Difference<T>(d: seq<T>, s: seq<T>, less: Less<T>): seq<T> {
    if d == [] || s == [] then d
    else if less(d[0], s[0]) then [d[0]] + Difference(d[1..], s, less)
    else if less(s[0], d[0]) then Difference(d, s[1..], less)
    else Difference(d[1..], s[1..], less)
  }

  /** x is not behind a, and a is before everything in s. */
  lemma {:induction false} NoneEquivalent<T(!new)>(s: seq<T>, a: T, x: T, less: Less<T>)
    requires StrictWeakOrder(less) && Sorted(s, less) && Equivalent(a, x, less)
    requires s != [] ==> less(a, s[0])
    ensures Count(s, x, less) == 0
  {
    if s != [] {
      assert less(x, s[0]);
      if |s| > 1 {
        assert !less(s[1], s[0]);
        assert less(a, s[1]);
      }
      SortedTail(s, less);
      NoneEquivalent(s[1..], a, x, less);
    }
  }

  lemma SortedTail<T>(s: seq<T>, less: Less<T>)
    requires Sorted(s, less) && s != []
    ensures Sorted(s[1..], less) && forall x :: x in s[1..] ==> !less(x, s[0])
  {
  }

  lemma CountFirst<T>(a: T, s: seq<T>, x: T, less: Less<T>)
    ensures Count([a] + s, x, less) == (if Equivalent(a, x, less) then 1 else 0) + Count(s, x, less)
  {
    assert ([a] + s)[1..] == s;
  }

  /** In every class of equivalent elements the union has the larger multiplicity. */
  lemma {:induction false} UnionCounts<T(!new)>(d: seq<T>, s: seq<T>, x: T, less: Less<T>)
    requires StrictWeakOrder(less) && Sorted(d, less) && Sorted(s, less)
    ensures Count(Union(d, s, less), x, less) == Max(Count(d, x, less), Count(s, x, less))
  {
    if d != [] && s != [] {
      SortedTail(d, less);
      SortedTail(s, less);
      if less(d[0], s[0]) {
        UnionCounts(d[1..], s, x, less);
        CountFirst(d[0], Union(d[1..], s, less), x, less);
        if Equivalent(d[0], x, less) {
          NoneEquivalent(s, d[0], x, less);
        }
      } else if less(s[0], d[0]) {
        UnionCounts(d, s[1..], x, less);
        CountFirst(s[0], Union(d, s[1..], less), x, less);
        if Equivalent(s[0], x, less) {
          NoneEquivalent(d, s[0], x, less);
        }
      } else {
        UnionCounts(d[1..], s[1..], x, less);
        CountFirst(d[0], Union(d[1..], s[1..], less), x, less);
        SameClass(d[0], s[0], x, less);
      }
    }
  }

  lemma SameClass<T(!new)>(a: T, b: T, x: T, less: Less<T>)
    requires StrictWeakOrder(less) && Equivalent(a, b, less)
    ensures Equivalent(a, x, less) == Equivalent(b, x, less)
  {
  }

  /** The difference keeps as many as there are too many. */
  lemma {:induction false} DifferenceCounts<T(!new)>(d: seq<T>, s: seq<T>, x: T, less: Less<T>)
    requires StrictWeakOrder(less) && Sorted(d, less) && Sorted(s, less)
    ensures Count(Difference(d, s, less), x, less) == Max(0, Count(d, x, less) - Count(s, x, less))
  {
    if d != [] && s != [] {
      SortedTail(d, less);
      SortedTail(s, less);
      if less(d[0], s[0]) {
        DifferenceCounts(d[1..], s, x, less);
        CountFirst(d[0], Difference(d[1..], s, less), x, less);
        if Equivalent(d[0], x, less) {
          NoneEquivalent(s, d[0], x, less);
        }
      } else if less(s[0], d[0]) {
        DifferenceCounts(d, s[1..], x, less);
        if Equivalent(s[0], x, less) {
          NoneEquivalent(d, s[0], x, less);
        }
      } else {
        DifferenceCounts(d[1..], s[1..], x, less);
        SameClass(d[0], s[0], x, less);
      }
    }
  }

  /** No two elements are equivalent. */
  ghost predicate IsSet<T(!new)>(s: seq<T>, less: Less<T>) { forall x :: Count(s, x, less) <= 1 }

  ghost predicate Has<T>(s: seq<T>, x: T, less: Less<T>) { Count(s, x, less) > 0 }

  /** On sets the merges are union and difference. */
  lemma SetsMerge<T(!new)>(d: seq<T>, s: seq<T>, less: Less<T>)
    requires StrictWeakOrder(less) && Sorted(d, less) && Sorted(s, less) && IsSet(d, less) && IsSet(s, less)
    ensures IsSet(Union(d, s, less), less) && IsSet(Difference(d, s, less), less)
    ensures forall x :: Has(Union(d, s, less), x, less) <==> Has(d, x, less) || Has(s, x, less)
    ensures forall x :: Has(Difference(d, s, less), x, less) <==> Has(d, x, less) && !Has(s, x, less)
  {
    hide Count, Union, Difference;
    forall x
      ensures Count(Union(d, s, less), x, less) == Max(Count(d, x, less), Count(s, x, less))
      ensures Count(Difference(d, s, less), x, less) == Max(0, Count(d, x, less) - Count(s, x, less))
    {
      UnionCounts(d, s, x, less);
      DifferenceCounts(d, s, x, less);
    }
  }

  // ---------- which elements ----------

  /** The elements that are equivalent to x, in order. */
  function Class<T>(s: seq<T>, x: T, less: Less<T>): seq<T> {
    if s == [] then [] else (if Equivalent(s[0], x, less) then [s[0]] else []) + Class(s[1..], x, less)
  }

  function Drop<T>(s: seq<T>, n: nat): seq<T> { if n < |s| then s[n..] else [] }

  lemma ClassFirst<T>(a: T, s: seq<T>, x: T, less: Less<T>)
    ensures Class([a] + s, x, less) == (if Equivalent(a, x, less) then [a] else []) + Class(s, x, less)
  {
    assert ([a] + s)[1..] == s;
  }

  lemma {:induction false} ClassCounts<T>(s: seq<T>, x: T, less: Less<T>)
    ensures |Class(s, x, less)| == Count(s, x, less)
  {
    if s != [] {
      ClassCounts(s[1..], x, less);
    }
  }

  /** Where x is equivalent to something before all of s, s has nothing equivalent to it. */
  lemma NoClass<T(!new)>(s: seq<T>, a: T, x: T, less: Less<T>)
    requires StrictWeakOrder(less) && Sorted(s, less) && Equivalent(a, x, less)
    requires s != [] ==> less(a, s[0])
    ensures Class(s, x, less) == []
  {
    NoneEquivalent(s, a, x, less);
    ClassCounts(s, x, less);
  }

  lemma DropFirst<T>(a: seq<T>, b: T, c: seq<T>)
    ensures Drop([b] + c, |a| + 1) == Drop(c, |a|) && [b] + (a + Drop(c, |a|)) == [b] + a + Drop(c, |a|)
    ensures a + [] == a && Drop<T>([], |a|) == [] && Drop(c, 0) == c && [] + c == c
  {
  }

  /** Of equivalent elements the union has all of the destination, and behind them those of the source from the
      number on that the destination has. */
  lemma {:induction false} UnionClasses<T(!new)>(d: seq<T>, s: seq<T>, x: T, less: Less<T>)
    requires StrictWeakOrder(less) && Sorted(d, less) && Sorted(s, less)
    ensures var a := Class(d, x, less); Class(Union(d, s, less), x, less) == a + Drop(Class(s, x, less), |a|)
  {
    if d == [] {
      DropFirst([], x, Class(s, x, less));
    } else if s == [] {
      DropFirst(Class(d, x, less), x, []);
    } else {
      SortedTail(d, less);
      SortedTail(s, less);
      if less(d[0], s[0]) {
        UnionClasses(d[1..], s, x, less);
        UnionTakes(d[0], d[1..], s, s, x, less);
      } else if less(s[0], d[0]) {
        UnionClasses(d, s[1..], x, less);
        if Equivalent(s[0], x, less) {
          NoClass(d, s[0], x, less);
        }
        ClassFirst(s[0], Union(d, s[1..], less), x, less);
        DropFirst([], s[0], Class(s[1..], x, less));
      } else {
        UnionClasses(d[1..], s[1..], x, less);
        SameClass(d[0], s[0], x, less);
        UnionTakes(d[0], d[1..], s, s[1..], x, less);
      }
    }
  }

  /** A step of the union that takes y from the destination, and an equivalent element of the source with it. */
  lemma UnionTakes<T(!new)>(y: T, d: seq<T>, s: seq<T>, t: seq<T>, x: T, less: Less<T>)
    requires StrictWeakOrder(less) && s != [] && Sorted(s, less)
    requires if less(y, s[0]) then t == s else t == s[1..] && Equivalent(y, x, less) == Equivalent(s[0], x, less)
    requires var a := Class(d, x, less); Class(Union(d, t, less), x, less) == a + Drop(Class(t, x, less), |a|)
    ensures var a := Class([y] + d, x, less);
            Class([y] + Union(d, t, less), x, less) == a + Drop(Class(s, x, less), |a|)
  {
    hide Union, Drop, Sorted;
    var a := Class(d, x, less);
    ClassFirst(y, d, x, less);
    ClassFirst(y, Union(d, t, less), x, less);
    if Equivalent(y, x, less) {
      if less(y, s[0]) {
        NoClass(s, y, x, less);
        DropFirst(a, y, []);
        DropFirst([y] + a, y, []);
      } else {
        DropFirst(a, s[0], Class(t, x, less));
        DropFirst(a, y, Class(t, x, less));
        assert |[y] + a| == |a| + 1;
      }
    } else {
      assert [] + a == a && [] + Class(Union(d, t, less), x, less) == Class(Union(d, t, less), x, less);
      assert [] + Class(s[1..], x, less) == Class(s[1..], x, less);
    }
  }

  /** And the difference has those of the destination from the number on that the source has. */
  lemma {:induction false} DifferenceClasses<T(!new)>(d: seq<T>, s: seq<T>, x: T, less: Less<T>)
    requires StrictWeakOrder(less) && Sorted(d, less) && Sorted(s, less)
    ensures Class(Difference(d, s, less), x, less) == Drop(Class(d, x, less), |Class(s, x, less)|)
  {
    if d != [] && s != [] {
      SortedTail(d, less);
      SortedTail(s, less);
      hide Sorted;
      if less(d[0], s[0]) {
        DifferenceClasses(d[1..], s, x, less);
        ClassFirst(d[0], Difference(d[1..], s, less), x, less);
        if Equivalent(d[0], x, less) {
          NoClass(s, d[0], x, less);
        }
      } else if less(s[0], d[0]) {
        DifferenceClasses(d, s[1..], x, less);
        if Equivalent(s[0], x, less) {
          NoClass(d, s[0], x, less);
        }
      } else {
        DifferenceClasses(d[1..], s[1..], x, less);
        SameClass(d[0], s[0], x, less);
        BothFirst(d, s, x, less);
      }
    }
  }

  lemma BothFirst<T>(d: seq<T>, s: seq<T>, x: T, less: Less<T>)
    requires d != [] && s != [] && Equivalent(d[0], x, less) == Equivalent(s[0], x, less)
    ensures Drop(Class(d, x, less), |Class(s, x, less)|) == Drop(Class(d[1..], x, less), |Class(s[1..], x, less)|)
  {
    hide Drop, Equivalent;
    var a, b := Class(d[1..], x, less), Class(s[1..], x, less);
    if Equivalent(d[0], x, less) {
      DropFirst(b, d[0], a);
      assert |[s[0]] + b| == |b| + 1;
    } else {
      assert [] + a == a && [] + b == b;
    }
  }

  // ---------- order ----------

  lemma {:induction false} UnionFrom<T>(d: seq<T>, s: seq<T>, less: Less<T>)
    ensures forall x :: x in Union(d, s, less) ==> x in d || x in s
  {
    if d != [] && s != [] {
      if less(d[0], s[0]) {
        UnionFrom(d[1..], s, less);
      } else if less(s[0], d[0]) {
        UnionFrom(d, s[1..], less);
      } else {
        UnionFrom(d[1..], s[1..], less);
      }
    }
  }

  lemma SortedFirst<T>(a: T, s: seq<T>, less: Less<T>)
    requires Sorted(s, less) && forall x :: x in s ==> !less(x, a)
    ensures Sorted([a] + s, less)
  {
  }

  /** Nothing in a sorted sequence is before its first element, nor before anything that is not behind it. */
  lemma NotBefore<T(!new)>(s: seq<T>, a: T, less: Less<T>)
    requires StrictWeakOrder(less) && Sorted(s, less) && (s != [] ==> !less(s[0], a))
    ensures forall x :: x in s ==> !less(x, a)
  {
    forall x | x in s
      ensures !less(x, a)
    {
      var i :| 0 <= i < |s| && s[i] == x;
      assert i == 0 || !less(s[i], s[0]);
    }
  }

  lemma {:induction false} UnionIsSorted<T(!new)>(d: seq<T>, s: seq<T>, less: Less<T>)
    requires StrictWeakOrder(less) && Sorted(d, less) && Sorted(s, less)
    ensures Sorted(Union(d, s, less), less)
  {
    if d != [] && s != [] {
      SortedTail(d, less);
      SortedTail(s, less);
      if less(d[0], s[0]) {
        UnionIsSorted(d[1..], s, less);
        UnionFrom(d[1..], s, less);
        NotBefore(s, d[0], less);
        SortedFirst(d[0], Union(d[1..], s, less), less);
      } else if less(s[0], d[0]) {
        UnionIsSorted(d, s[1..], less);
        UnionFrom(d, s[1..], less);
        NotBefore(d, s[0], less);
        SortedFirst(s[0], Union(d, s[1..], less), less);
      } else {
        UnionIsSorted(d[1..], s[1..], less);
        UnionFrom(d[1..], s[1..], less);
        NotBefore(s, d[0], less);
        SortedFirst(d[0], Union(d[1..], s[1..], less), less);
      }
    }
  }

  /** a is b without some elements, in the same order. */
  ghost predicate Subsequence<T>(a: seq<T>, b: seq<T>) {
    a == [] || (b != [] && ((a[0] == b[0] && Subsequence(a[1..], b[1..])) || Subsequence(a, b[1..])))
  }

  lemma {:induction false} Itself<T>(a: seq<T>)
    ensures Subsequence(a, a)
  {
    if a != [] {
      Itself(a[1..]);
    }
  }

  lemma SubsequenceFirst<T>(x: T, a: seq<T>, b: seq<T>)
    requires Subsequence(a, b)
    ensures Subsequence([x] + a, [x] + b) && Subsequence(a, [x] + b)
  {
    assert ([x] + a)[1..] == a && ([x] + b)[1..] == b;
  }

  /** The union keeps every element of the destination, in its order. */
  lemma {:induction false} UnionKeepsAll<T>(d: seq<T>, s: seq<T>, less: Less<T>)
    ensures Subsequence(d, Union(d, s, less))
  {
    if d == [] || s == [] {
      Itself(d);
    } else if less(d[0], s[0]) {
      UnionKeepsAll(d[1..], s, less);
      SubsequenceFirst(d[0], d[1..], Union(d[1..], s, less));
    } else if less(s[0], d[0]) {
      UnionKeepsAll(d, s[1..], less);
      SubsequenceFirst(s[0], d, Union(d, s[1..], less));
    } else {
      UnionKeepsAll(d[1..], s[1..], less);
      SubsequenceFirst(d[0], d[1..], Union(d[1..], s[1..], less));
    }
    assert d == [] || [d[0]] + d[1..] == d;
  }

  /** The difference only leaves elements out. */
  lemma {:induction false} DifferenceKeepsOrder<T>(d: seq<T>, s: seq<T>, less: Less<T>)
    ensures Subsequence(Difference(d, s, less), d)
  {
    if d == [] || s == [] {
      Itself(d);
    } else {
      assert [d[0]] + d[1..] == d;
      if less(d[0], s[0]) {
        DifferenceKeepsOrder(d[1..], s, less);
        SubsequenceFirst(d[0], Difference(d[1..], s, less), d[1..]);
      } else if less(s[0], d[0]) {
        DifferenceKeepsOrder(d, s[1..], less);
      } else {
        DifferenceKeepsOrder(d[1..], s[1..], less);
        SubsequenceFirst(d[0], Difference(d[1..], s[1..], less), d[1..]);
      }
    }
  }

  lemma {:induction false} SubsequenceIsSorted<T(!new)>(a: seq<T>, b: seq<T>, less: Less<T>)
    requires Subsequence(a, b) && Sorted(b, less)
    ensures Sorted(a, less) && forall x :: x in a ==> x in b
    decreases |b|
  {
    if a != [] {
      SortedTail(b, less);
      if a[0] == b[0] && Subsequence(a[1..], b[1..]) {
        SubsequenceIsSorted(a[1..], b[1..], less);
        SortedFirst(a[0], a[1..], less);
        assert [a[0]] + a[1..] == a;
      } else {
        SubsequenceIsSorted(a, b[1..], less);
      }
    }
  }

  // ---------- the code ----------

  /** A linked container: inserting and erasing move no other iterator. An iterator is a position. */
  class Container<T> {
    var items: seq<T>

    /** The new element stands at pos, the iterator moves on with its own element. */
    method Insert(pos: nat, x: T)
      requires pos <= |items|
      modifies this
      ensures |items| == old(|items|) + 1
      ensures items[..pos] == old(items[..pos]) && items[pos] == x && items[pos + 1..] == old(items[pos..])
    {
      items := items[..pos] + [x] + items[pos..];
    }

    method Erase(pos: nat)
      requires pos < |items|
      modifies this
      ensures items == old(items[..pos]) + old(items[pos + 1..])
    {
      items := items[..pos] + items[pos + 1..];
    }
  }

  /** Both overloads: without a comparator, less is operator<. */
  method SetAssignUnion<T>(dest: Container<T>, src: seq<T>, less: Less<T>)
    modifies dest
    ensures dest.items == Union(old(dest.items), src, less)
  {
    hide Union;
    ghost var all := Union(dest.items, src, less);
    var firstDest, first := 0, 0;
    while firstDest != |dest.items| && first != |src|
      invariant firstDest <= |dest.items| && first <= |src|
      invariant dest.items[..firstDest] + Union(dest.items[firstDest..], src[first..], less) == all
      decreases |dest.items| - firstDest + |src| - first
    {
      UnionUnfolds(dest.items, firstDest, src, first, less);
      ghost var done, rest := dest.items[..firstDest], dest.items[firstDest..];
      if less(dest.items[firstDest], src[first]) {
        Joined(done, dest.items[firstDest], Union(dest.items[firstDest + 1..], src[first..], less));
        Taken(dest.items, firstDest);
        firstDest := firstDest + 1;
      } else if less(src[first], dest.items[firstDest]) {
        Joined(done, src[first], Union(rest, src[first + 1..], less));
        dest.Insert(firstDest, src[first]);
        Taken(dest.items, firstDest);
        firstDest := firstDest + 1;
        first := first + 1;
      } else {
        Joined(done, dest.items[firstDest], Union(dest.items[firstDest + 1..], src[first + 1..], less));
        Taken(dest.items, firstDest);
        firstDest := firstDest + 1;
        first := first + 1;
      }
    }
    UnionEnds(dest.items, firstDest, src, first, less);
    if first != |src| {
      CopyRest(dest, src, first);
    }
  }

  lemma Joined<T>(done: seq<T>, x: T, rest: seq<T>)
    ensures done + ([x] + rest) == (done + [x]) + rest
  {
  }

  lemma Taken<T>(s: seq<T>, i: nat)
    requires i < |s|
    ensures s[..i + 1] == s[..i] + [s[i]]
  {
  }

  /** std::copy with an inserter at the end. */
  method CopyRest<T>(dest: Container<T>, src: seq<T>, from: nat)
    requires from <= |src|
    modifies dest
    ensures dest.items == old(dest.items) + src[from..]
  {
    for first := from to |src|
      invariant dest.items == old(dest.items) + src[from..first]
    {
      ghost var before := dest.items;
      assert before[..|before|] == before;
      dest.Insert(|dest.items|, src[first]);
      Taken(dest.items, |before|);
      assert dest.items == before + [src[first]];
      assert src[from..first + 1] == src[from..first] + [src[first]];
    }
  }

  /** When one of the two is used up, what is left of src is all that is missing. */
  lemma UnionEnds<T>(d: seq<T>, i: nat, s: seq<T>, j: nat, less: Less<T>)
    requires i <= |d| && j <= |s| && (i == |d| || j == |s|)
    ensures d[..i] + Union(d[i..], s[j..], less) == d + s[j..]
  {
    assert d[..i] + d[i..] == d;
    if i < |d| {
      assert s[j..] == [];
      assert d + s[j..] == d;
    } else {
      assert d[i..] == [];
    }
  }

  lemma DifferenceEnds<T>(d: seq<T>, s: seq<T>, less: Less<T>)
    ensures d == [] || s == [] ==> Difference(d, s, less) == d
  {
  }

  lemma UnionUnfolds<T>(d: seq<T>, i: nat, s: seq<T>, j: nat, less: Less<T>)
    requires i < |d| && j < |s|
    ensures Union(d[i..], s[j..], less)
         == if less(d[i], s[j]) then [d[i]] + Union(d[i + 1..], s[j..], less)
            else if less(s[j], d[i]) then [s[j]] + Union(d[i..], s[j + 1..], less)
            else [d[i]] + Union(d[i + 1..], s[j + 1..], less)
  {
    assert d[i..][1..] == d[i + 1..] && s[j..][1..] == s[j + 1..];
  }

  lemma DifferenceUnfolds<T>(d: seq<T>, i: nat, s: seq<T>, j: nat, less: Less<T>)
    requires i < |d| && j < |s|
    ensures Difference(d[i..], s[j..], less)
         == if less(d[i], s[j]) then [d[i]] + Difference(d[i + 1..], s[j..], less)
            else if less(s[j], d[i]) then Difference(d[i..], s[j + 1..], less)
            else Difference(d[i + 1..], s[j + 1..], less)
  {
    assert d[i..][1..] == d[i + 1..] && s[j..][1..] == s[j + 1..];
  }

  method SetAssignDifference<T>(dest: Container<T>, src: seq<T>, less: Less<T>)
    modifies dest
    ensures dest.items == Difference(old(dest.items), src, less)
  {
    hide Difference;
    ghost var all := Difference(dest.items, src, less);
    var firstDest, first := 0, 0;
    while firstDest != |dest.items| && first != |src|
      invariant firstDest <= |dest.items| && first <= |src|
      invariant dest.items[..firstDest] + Difference(dest.items[firstDest..], src[first..], less) == all
      decreases |dest.items| - firstDest + |src| - first
    {
      DifferenceUnfolds(dest.items, firstDest, src, first, less);
      if less(dest.items[firstDest], src[first]) {
        firstDest := firstDest + 1;
      } else if less(src[first], dest.items[firstDest]) {
        first := first + 1;
      } else {
        dest.Erase(firstDest);
        first := first + 1;
      }
    }
    DifferenceEnds(dest.items[firstDest..], src[first..], less);
    assert dest.items[..firstDest] + dest.items[firstDest..] == dest.items;
  }
}
