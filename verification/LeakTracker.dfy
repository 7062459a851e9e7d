/** debug_new: every block carries a header; the headers form a circular doubly linked list around a sentinel. */
module LeakTracker {
  import opened Sequences

  const MAGIC := 0x4442474E

  /** The header in front of a block (new_ptr_list_t). */
  class Header {
    var next: Header?
    var prev: Header?
    var size: nat
    var isArray: bool
    var magic: nat

    constructor ()
    {
      next := null;
      prev := null;
      size := 0;
      isArray := false;
      magic := 0;
    }
  }

  // ---------- the list as a sequence ----------

  /** What stands before and behind position i, with the sentinel at both ends. */
  ghost function Left(list: Header, live: seq<Header>, i: nat): Header
    requires i <= |live|
  {
    if i == 0 then list else live[i - 1]
  }

  ghost function Right(list: Header, live: seq<Header>, i: int): Header
    requires -1 <= i < |live|
  {
    if i == |live| - 1 then list else live[i + 1]
  }

  /** From the sentinel through every live block, in order of allocation, and back; prev is the way back. */
  ghost predicate Linked(list: Header, live: seq<Header>)
    reads list, live
  {
    && list.next == Right(list, live, -1) && list.prev == Left(list, live, |live|)
    && (forall i {:trigger live[i].next} :: 0 <= i < |live| ==> live[i].next == Right(list, live, i))
    && (forall i {:trigger live[i].prev} :: 0 <= i < |live| ==> live[i].prev == Left(list, live, i))
  }

  /** The same without block i: its neighbours point at each other. */
  ghost predicate Bridged(list: Header, live: seq<Header>, i: nat)
    requires i < |live|
    reads list, live
  {
    && (if i == 0 then list else live[i - 1]).next == Right(list, live, i)
    && (if i == |live| - 1 then list else live[i + 1]).prev == Left(list, live, i)
    && (i > 0 ==> list.next == Right(list, live, -1))
    && (i < |live| - 1 ==> list.prev == Left(list, live, |live|))
    && (forall k {:trigger live[k].next} :: 0 <= k < |live| && k != i - 1 ==> live[k].next == Right(list, live, k))
    && (forall k {:trigger live[k].prev} :: 0 <= k < |live| && k != i + 1 ==> live[k].prev == Left(list, live, k))
  }

  lemma Spliced(list: Header, live: seq<Header>, i: nat)
    requires i < |live| && Bridged(list, live, i)
    ensures Linked(list, live[..i] + live[i + 1..])
  {
    var after := live[..i] + live[i + 1..];
    forall k {:trigger after[k].next} | 0 <= k < |after|
      ensures after[k].next == Right(list, after, k)
    {
      var j := if k < i then k else k + 1;
      assert after[k] == live[j];
      if k < |after| - 1 {
        assert after[k + 1] == live[if k + 1 < i then k + 1 else k + 2];
      }
    }
    forall k {:trigger after[k].prev} | 0 <= k < |after|
      ensures after[k].prev == Left(list, after, k)
    {
      var j := if k < i then k else k + 1;
      assert after[k] == live[j];
      if k > 0 {
        assert after[k - 1] == live[if k - 1 < i then k - 1 else k];
      }
    }
  }

  ghost function WithoutBlock(s: seq<Header>, x: Header?): seq<Header> {
    if s == [] then [] else if s[0] == x then s[1..] else [s[0]] + WithoutBlock(s[1..], x)
  }

  lemma {:induction false} WithoutBlockIs(s: seq<Header>, i: nat)
    requires Distinct(s) && i < |s|
    ensures WithoutBlock(s, s[i]) == s[..i] + s[i + 1..]
  {
    if i > 0 {
      assert s[0] != s[i];
      WithoutBlockIs(s[1..], i - 1);
      assert s[..i] == [s[0]] + s[1..][..i - 1];
      assert s[i + 1..] == s[1..][i..];
    }
  }

  ghost function Sizes(s: seq<Header>): (t: seq<nat>)
    reads s
    ensures |t| == |s| && forall i :: 0 <= i < |s| ==> t[i] == s[i].size
  {
    seq(|s|, i requires 0 <= i < |s| reads s => s[i].size)
  }

  function Sum(s: seq<nat>): nat { if s == [] then 0 else Sum(s[..|s| - 1]) + s[|s| - 1] }

  lemma {:induction false} SumWithout(s: seq<nat>, i: nat)
    requires i < |s|
    ensures Sum(s[..i] + s[i + 1..]) == Sum(s) - s[i]
    ensures Sum(s) >= s[i]
  {
    var n := |s| - 1;
    if i == n {
      assert s[..i] + s[i + 1..] == s[..n];
    } else {
      SumWithout(s[..n], i);
      var t := s[..i] + s[i + 1..];
      assert t[..|t| - 1] == s[..n][..i] + s[..n][i + 1..];
    }
  }

  // ---------- runs ----------

  datatype Event = New(block: Header) | Delete(block: Header)

  /** The blocks that a run of allocations and frees leaves, in order of allocation. */
  ghost function LiveAfter(run: seq<Event>): seq<Header> {
    if run == [] then []
    else
      var before, last := LiveAfter(run[..|run| - 1]), run[|run| - 1];
      if last.New? then before + [last.block] else WithoutBlock(before, last.block)
  }

  /** Only blocks that are not live are given out, be it again, and only live ones are freed. */
  ghost predicate Proper(run: seq<Event>) {
    run != [] ==>
      var before, last := run[..|run| - 1], run[|run| - 1];
      Proper(before) && (last.New? <==> last.block !in LiveAfter(before))
  }

  /** p was allocated at i and has not been freed since. */
  ghost predicate KeptSince(run: seq<Event>, p: Header, i: nat) {
    i < |run| && run[i] == New(p) && forall j :: i < j < |run| ==> run[j] != Delete(p)
  }

  ghost predicate Undeleted(run: seq<Event>, p: Header) { exists i :: KeptSince(run, p, i) }

  lemma UndeletedStep(run: seq<Event>, p: Header)
    requires run != []
    ensures Undeleted(run, p)
            <==> run[|run| - 1] == New(p) || (Undeleted(run[..|run| - 1], p) && run[|run| - 1] != Delete(p))
  {
    var n, before := |run| - 1, run[..|run| - 1];
    if run[n] == New(p) {
      assert KeptSince(run, p, n);
    } else if Undeleted(run, p) {
      var i :| KeptSince(run, p, i);
      assert KeptSince(before, p, i);
    } else if Undeleted(before, p) && run[n] != Delete(p) {
      var i :| KeptSince(before, p, i);
      assert KeptSince(run, p, i);
    }
  }

  /** What is left is exactly what was allocated and not freed since, each block once, also where the system gives
      out a place again. */
  lemma {:induction false} LeaksAreUndeleted(run: seq<Event>)
    requires Proper(run)
    ensures Distinct(LiveAfter(run))
    ensures forall p :: p in LiveAfter(run) <==> Undeleted(run, p)
  {
    if run != [] {
      var before, last := run[..|run| - 1], run[|run| - 1];
      LeaksAreUndeleted(before);
      hide Undeleted;
      forall p
        ensures p in LiveAfter(run) <==> Undeleted(run, p)
      {
        UndeletedStep(run, p);
        LiveStep(run, p);
      }
      DistinctStep(run);
    }
  }

  lemma LiveStep(run: seq<Event>, p: Header)
    requires run != [] && Proper(run) && Distinct(LiveAfter(run[..|run| - 1]))
    ensures p in LiveAfter(run)
            <==> run[|run| - 1] == New(p) || (p in LiveAfter(run[..|run| - 1]) && run[|run| - 1] != Delete(p))
  {
    var live, last := LiveAfter(run[..|run| - 1]), run[|run| - 1];
    if last.Delete? {
      var i :| 0 <= i < |live| && live[i] == last.block;
      WithoutBlockIs(live, i);
      OthersStay(live, i);
    }
  }

  lemma DistinctStep(run: seq<Event>)
    requires run != [] && Proper(run) && Distinct(LiveAfter(run[..|run| - 1]))
    ensures Distinct(LiveAfter(run))
  {
    var live, last := LiveAfter(run[..|run| - 1]), run[|run| - 1];
    if last.New? {
      DistinctAppend(live, last.block);
    } else {
      var i :| 0 <= i < |live| && live[i] == last.block;
      WithoutBlockIs(live, i);
      DistinctWithout(live, i);
    }
  }

  lemma OthersStay(s: seq<Header>, i: nat)
    requires Distinct(s) && i < |s|
    ensures forall p :: p in s[..i] + s[i + 1..] <==> p in s && p != s[i]
  {
    StandsOnce(s, i);
  }

  datatype Outcome = Freed | Ignored | InvalidPointer | ArrayMismatch

  lemma WithoutSizes(s: seq<Header>, i: nat)
    requires i < |s|
    ensures Sum(Sizes(s[..i] + s[i + 1..])) == Sum(Sizes(s)) - s[i].size
  {
    SumWithout(Sizes(s), i);
    hide Sum, Sizes;
    assert Sizes(s[..i] + s[i + 1..]) == Sizes(s)[..i] + Sizes(s)[i + 1..];
  }

  lemma TakenOut(s: seq<Header>, i: nat, list: Header)
    requires i < |s| && Distinct(s) && list !in s
    ensures Distinct(s[..i] + s[i + 1..]) && list !in s[..i] + s[i + 1..]
  {
    DistinctWithout(s, i);
  }

  class Tracker {
    const newPtrList: Header
    var totalMemAlloc: nat
    ghost var live: seq<Header>
    ghost var run: seq<Event>

    ghost predicate Valid()
      reads this, newPtrList, live
    {
      && newPtrList !in live && Distinct(live) && Linked(newPtrList, live)
      && totalMemAlloc == Sum(Sizes(live))
      && Proper(run) && live == LiveAfter(run)
    }

    constructor ()
      ensures Valid() && live == [] && fresh(newPtrList)
    {
      var list := new Header();
      newPtrList := list;
      totalMemAlloc := 0;
      live := [];
      run := [];
      new;
      newPtrList.next := newPtrList;
      newPtrList.prev := newPtrList;
      newPtrList.magic := MAGIC;
    }

    /** alloc_mem; memory is what malloc answers: NULL, or a place that is not in use. */
    method AllocMem(size: nat, isArray: bool, memory: Header?) returns (ptr: Header?)
      requires Valid() && (memory != null ==> memory != newPtrList && memory !in live)
      modifies this, newPtrList, live, memory
      ensures Valid() && ptr == memory
      ensures ptr == null ==> live == old(live) && run == old(run)
      ensures ptr != null ==> live == old(live) + [ptr] && run == old(run) + [New(ptr)]
      ensures ptr != null ==> ptr.size == size && ptr.isArray == isArray && ptr.magic == MAGIC
      ensures forall h :: h in old(live) ==>
                h.size == old(h.size) && h.magic == old(h.magic) && h.isArray == old(h.isArray)
    {
      hide Linked, Distinct, Sum, Sizes, Proper, LiveAfter;
      ptr := memory;
      if ptr == null {
        return;
      }
      Occupy(ptr, size, isArray);
      Append(ptr);
      run := run + [New(ptr)];
      RunAllocates(old(run), ptr);
      totalMemAlloc := totalMemAlloc + size;
    }

    /** The header of a new block. */
    method Occupy(ptr: Header, size: nat, isArray: bool)
      requires newPtrList !in live && Linked(newPtrList, live) && ptr !in live && ptr != newPtrList
      modifies ptr`size, ptr`isArray, ptr`magic
      ensures ptr.size == size && ptr.isArray == isArray && ptr.magic == MAGIC
      ensures Linked(newPtrList, live) && Sizes(live) == old(Sizes(live))
    {
      hide Sizes;
      ptr.isArray := isArray;
      ptr.size := size;
      ptr.magic := MAGIC;
    }

    /** The four assignments under the lock. */
    method Append(ptr: Header)
      requires newPtrList !in live && Distinct(live) && Linked(newPtrList, live)
      requires ptr !in live && ptr != newPtrList
      modifies this`live, newPtrList`next, newPtrList`prev, live`next, live`prev, ptr`next, ptr`prev
      ensures newPtrList !in live && Distinct(live) && Linked(newPtrList, live)
      ensures live == old(live) + [ptr] && Sum(Sizes(live)) == old(Sum(Sizes(live))) + ptr.size
    {
      DistinctAppend(live, ptr);
      StandsOnce(live, |live| - 1);
      hide Sum, Sizes, Distinct;
      ptr.prev := newPtrList.prev;
      ptr.next := newPtrList;
      newPtrList.prev.next := ptr;
      newPtrList.prev := ptr;
      live := live + [ptr];
      assert Linked(newPtrList, live);
      hide Linked;
      AppendedSum(old(Sizes(live)), Sizes(live), ptr.size);
    }

    /** The assignments under the lock when a live block is freed. */
    method Unlink(ptr: Header, ghost i: nat)
      requires newPtrList !in live && Distinct(live) && Linked(newPtrList, live)
      requires i < |live| && live[i] == ptr
      modifies newPtrList`next, newPtrList`prev, live`next, live`prev, ptr`magic
      ensures ptr.magic == 0 && Bridged(newPtrList, live, i) && Sizes(live) == old(Sizes(live))
    {
      hide Distinct, Sizes;
      StandsOnce(live, i - 1);
      StandsOnce(live, i);
      StandsOnce(live, i + 1);
      ptr.magic := 0;
      ptr.prev.next := ptr.next;
      ptr.next.prev := ptr.prev;
    }

    method Remove(ptr: Header, ghost i: nat)
      requires newPtrList !in live && Distinct(live) && Linked(newPtrList, live)
      requires i < |live| && live[i] == ptr
      modifies this`live, newPtrList`next, newPtrList`prev, live`next, live`prev, ptr`magic
      ensures ptr.magic == 0 && live == old(live[..i] + live[i + 1..])
      ensures newPtrList !in live && Distinct(live) && Linked(newPtrList, live)
      ensures Sum(Sizes(live)) == old(Sum(Sizes(live))) - ptr.size
    {
      hide Sum, Sizes, Distinct, Linked, Bridged;
      ghost var before := live;
      TakenOut(before, i, newPtrList);
      Unlink(ptr, i);
      live := before[..i] + before[i + 1..];
      Spliced(newPtrList, before, i);
      WithoutSizes(before, i);
    }

    /** free_pointer. The error actions end the program, so they change nothing here. */
    method FreePointer(ptr: Header?, isArray: bool) returns (r: Outcome)
      requires Valid()
      requires ptr == null || ptr in live || ptr.magic != MAGIC
      modifies this, newPtrList`next, newPtrList`prev, live`next, live`prev, live`magic
      ensures Valid()
      ensures r == if ptr == null then Ignored else if old(ptr.magic) != MAGIC then InvalidPointer
                   else if ptr.isArray != isArray then ArrayMismatch else Freed
      ensures r == Freed ==> live == WithoutBlock(old(live), ptr) && run == old(run) + [Delete(ptr)] && ptr.magic == 0
      ensures r != Freed ==> live == old(live) && run == old(run)
      ensures forall h :: h in old(live) && h != ptr ==> h.magic == old(h.magic)
    {
      hide Linked, Distinct, Sum, Sizes, WithoutBlock, Proper, LiveAfter;
      if ptr == null {
        return Ignored;
      }
      if ptr.magic != MAGIC {
        return InvalidPointer;
      }
      if isArray != ptr.isArray {
        return ArrayMismatch;
      }
      ghost var i :| 0 <= i < |live| && live[i] == ptr;
      WithoutBlockIs(live, i);
      SizeInSum(live, i);
      totalMemAlloc := totalMemAlloc - ptr.size;
      RunFrees(run, ptr);
      Remove(ptr, i);
      run := run + [Delete(ptr)];
      return Freed;
    }

    /** check_leaks; reported lists the blocks it prints. */
    method CheckLeaks() returns (leakCnt: nat, reported: seq<Header>)
      requires Valid()
      ensures leakCnt == |live| && reported == live
    {
      hide Distinct, Sum, Sizes;
      leakCnt, reported := 0, [];
      var ptr := newPtrList.next;
      while ptr != newPtrList
        invariant leakCnt <= |live| && reported == live[..leakCnt]
        invariant ptr == Right(newPtrList, live, leakCnt - 1)
        decreases |live| - leakCnt
      {
        assert ptr == live[leakCnt];
        reported := reported + [ptr];
        ptr := ptr.next;
        leakCnt := leakCnt + 1;
      }
    }

    /** check_mem_corruption: the live blocks whose header was overwritten. */
    method CheckMemCorruption() returns (corruptCnt: nat)
      requires Valid()
      ensures corruptCnt == |set h | h in live && h.magic != 0x4442474E|
    {
      hide Distinct, Sum, Sizes, Corrupt, Proper, LiveAfter;
      NoneCorrupt();
      corruptCnt := 0;
      ghost var k := 0;
      var ptr := newPtrList.next;
      while ptr != newPtrList
        invariant k <= |live| && ptr == Right(newPtrList, live, k - 1) && corruptCnt == Corrupt(live[..k])
        decreases |live| - k
      {
        assert ptr == live[k];
        OneMoreCorrupt(live, k);
        if ptr.magic != MAGIC {
          corruptCnt := corruptCnt + 1;
        }
        ptr := ptr.next;
        k := k + 1;
      }
      assert live[..k] == live;
      CorruptCounts(live);
    }
  }

  lemma RunAllocates(run: seq<Event>, p: Header)
    requires Proper(run) && p !in LiveAfter(run)
    ensures Proper(run + [New(p)]) && LiveAfter(run + [New(p)]) == LiveAfter(run) + [p]
  {
    assert (run + [New(p)])[..|run|] == run;
  }

  lemma RunFrees(run: seq<Event>, p: Header)
    requires Proper(run) && p in LiveAfter(run)
    ensures Proper(run + [Delete(p)]) && LiveAfter(run + [Delete(p)]) == WithoutBlock(LiveAfter(run), p)
  {
    assert (run + [Delete(p)])[..|run|] == run;
  }

  /** No leaks are found exactly when every allocation of the run was freed afterwards; then nothing is counted as
      allocated. */
  lemma NoLeaks(t: Tracker)
    requires t.Valid()
    ensures t.live == [] <==> forall p :: !Undeleted(t.run, p)
    ensures t.live == [] ==> t.totalMemAlloc == 0
  {
    LeaksAreUndeleted(t.run);
    hide Undeleted;
    if t.live != [] {
      assert t.live[0] in t.live;
    }
  }

  ghost function Corrupt(s: seq<Header>): nat
    reads s
  {
    if s == [] then 0 else Corrupt(s[..|s| - 1]) + if s[|s| - 1].magic != MAGIC then 1 else 0
  }

  lemma NoneCorrupt()
    ensures Corrupt([]) == 0
  {
  }

  lemma OneMoreCorrupt(s: seq<Header>, k: nat)
    requires k < |s|
    ensures Corrupt(s[..k + 1]) == Corrupt(s[..k]) + if s[k].magic != MAGIC then 1 else 0
  {
    assert s[..k + 1][..k] == s[..k];
  }

  ghost function CorruptBlocks(s: seq<Header>): set<Header>
    reads s
  {
    set h | h in s && h.magic != 0x4442474E
  }

  lemma {:induction false} CorruptCounts(s: seq<Header>)
    requires Distinct(s)
    ensures Corrupt(s) == |CorruptBlocks(s)|
  {
    if s == [] {
      assert CorruptBlocks(s) == {};
    } else {
      hide CorruptBlocks;
      var n := |s| - 1;
      CorruptCounts(s[..n]);
      assert s == s[..n] + [s[n]] && s[n] !in s[..n];
      CorruptBlocksGrow(s[..n], s[n]);
    }
  }

  lemma CorruptBlocksGrow(s: seq<Header>, x: Header)
    requires x !in s
    ensures |CorruptBlocks(s + [x])| == |CorruptBlocks(s)| + if x.magic != MAGIC then 1 else 0
  {
    assert CorruptBlocks(s + [x]) == if x.magic != MAGIC then CorruptBlocks(s) + {x} else CorruptBlocks(s);
  }

  lemma SizeInSum(live: seq<Header>, i: nat)
    requires i < |live|
    ensures Sum(Sizes(live)) >= live[i].size
  {
    SumWithout(Sizes(live), i);
  }

  lemma AppendedSum(s: seq<nat>, t: seq<nat>, x: nat)
    requires |t| == |s| + 1 && t[|s|] == x && forall i :: 0 <= i < |s| ==> t[i] == s[i]
    ensures Sum(t) == Sum(s) + x
  {
    assert t[..|s|] == s;
  }
}
