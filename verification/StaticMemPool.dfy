/** static_mem_pool: a free list threaded through the blocks, and the interleavings of its critical sections. */
module StaticMemPool {
  import opened Sequences

  // ---------- recycling ----------

  /** What recycle keeps: the blocks at even positions, in order. */
  ghost function Evens<T>(s: seq<T>): seq<T> { seq((|s| + 1) / 2, i requires 0 <= i < (|s| + 1) / 2 => s[2 * i]) }

  /** What recycle returns to the system. */
  ghost function Odds<T>(s: seq<T>): seq<T> { seq(|s| / 2, i requires 0 <= i < |s| / 2 => s[2 * i + 1]) }

  lemma EvensAndOdds<T>(s: seq<T>)
    ensures |Evens(s)| + |Odds(s)| == |s|
    ensures forall x :: x in s <==> x in Evens(s) || x in Odds(s)
    ensures Distinct(s) ==> Distinct(Evens(s)) && forall x :: x in Odds(s) ==> x !in Evens(s)
  {
    forall x | x in s
      ensures x in Evens(s) || x in Odds(s)
    {
      var i :| 0 <= i < |s| && s[i] == x;
      if i % 2 == 0 {
        assert Evens(s)[i / 2] == x;
      } else {
        assert Odds(s)[i / 2] == x;
      }
    }
  }

  ghost function Recycled<T>(s: seq<T>, k: nat): seq<T> { if k == 0 then s else Evens(Recycled(s, k - 1)) }

  function Power(k: nat): nat { if k == 0 then 1 else 2 * Power(k - 1) }

  lemma {:induction false} PowerIsPositive(k: nat)
    ensures Power(k) > 0
  {
    if k > 0 {
      PowerIsPositive(k - 1);
    }
  }

  /** k recycles leave the n blocks divided by 2 to the k, rounded up. */
  lemma {:induction false} RecycledCount<T>(s: seq<T>, k: nat)
    ensures Power(k) > 0 && |Recycled(s, k)| == (|s| + Power(k) - 1) / Power(k)
  {
    PowerIsPositive(k);
    if k > 0 {
      RecycledCount(s, k - 1);
      PowerIsPositive(k - 1);
      HalvedCeiling(|s|, Power(k - 1), |Recycled(s, k - 1)|);
    }
  }

  /** A ceiling of a ceiling. */
  lemma HalvedCeiling(n: nat, p: nat, m: nat)
    requires p > 0 && m == (n + p - 1) / p
    ensures (m + 1) / 2 == (n + 2 * p - 1) / (2 * p)
  {
    var q := (m + 1) / 2;
    CeilingIs(n, p, m);
    if m == 2 * q {
      Doubled(p, q);
    } else {
      assert m == 2 * q - 1;
      Doubled(p, q);
    }
    QuotientIs(n + 2 * p - 1, 2 * p, q, 2 * (p * q));
  }

  lemma Doubled(p: nat, q: nat)
    ensures p * (2 * q) == 2 * (p * q) && p * (2 * q - 1) == 2 * (p * q) - p && (2 * p) * q == 2 * (p * q)
  {
  }

  lemma QuotientIs(a: nat, d: nat, q: nat, x: nat)
    requires d > 0 && x == d * q && x <= a < x + d
    ensures a / d == q
  {
    assert a == d * q + (a - x);
    Unique(d, q, a - x, a / d, a % d);
  }

  lemma Unique(d: nat, q: nat, r: nat, q2: nat, r2: nat)
    requires d > 0 && r < d && r2 < d && d * q + r == d * q2 + r2
    ensures q == q2
  {
    if q < q2 {
      Grows(d, q, q2);
    } else if q2 < q {
      Grows(d, q2, q);
    }
  }

  lemma Grows(d: nat, a: nat, b: nat)
    requires a < b
    ensures d * b >= d * a + d
  {
    var c := b - a - 1;
    assert b == a + 1 + c;
    Distribute(d, a, c);
  }

  lemma Distribute(d: nat, a: nat, c: nat)
    ensures d * (a + 1 + c) == d * a + d + d * c && d * c >= 0
  {
  }

  lemma CeilingIs(n: nat, p: nat, m: nat)
    requires p > 0 && m == (n + p - 1) / p
    ensures p * m >= n && p * m < n + p
  {
  }

  // ---------- the class ----------

  class Block {
    var next: Block?

    constructor ()
    {
      next := null;
    }
  }

  function At(s: seq<Block>, i: nat): Block? { if i < |s| then s[i] else null }

  class Pool {
    var memoryBlock: Block?
    ghost var free: seq<Block>

    ghost predicate Valid()
      reads this, free
    {
      Distinct(free) && memoryBlock == At(free, 0) && Chained(free, null)
    }

    constructor ()
      ensures Valid() && free == []
    {
      memoryBlock := null;
      free := [];
    }

    /** The first critical section of allocate; null sends the caller to the system. */
    method Pop() returns (r: Block?)
      requires Valid()
      modifies this
      ensures Valid()
      ensures r == At(old(free), 0) && free == if r == null then old(free) else old(free)[1..]
    {
      r := null;
      if memoryBlock != null {
        r := memoryBlock;
        assert free[0].next == At(free, 1);
        memoryBlock := memoryBlock.next;
        free := free[1..];
      }
    }

    method Deallocate(block: Block)
      requires Valid() && block !in free
      modifies this, block
      ensures Valid() && free == [block] + old(free)
    {
      block.next := memoryBlock;
      memoryBlock := block;
      free := [block] + free;
    }

    /** released lists the blocks in the order of the calls of dealloc_sys. */
    method Recycle() returns (released: seq<Block>)
      requires Valid()
      modifies this`free, free
      ensures Valid() && free == Evens(old(free)) && released == Odds(old(free))
    {
      EvensAndOdds(free);
      FirstKept(free);
      hide Distinct, Evens, Odds;
      ghost var kept;
      released, kept := UnlinkOdds();
      free := kept;
    }

    /** The loop of recycle: every second block is taken out of the chain. */
    method UnlinkOdds() returns (released: seq<Block>, ghost kept: seq<Block>)
      requires Valid()
      modifies free`next
      ensures released == Odds(free) && kept == Evens(free) && Chained(kept, null)
    {
      hide Distinct, Evens, Odds, Chained;
      released := [];
      ghost var pos := 0;
      kept := [];
      NothingRecycled(free);
      NothingChained(memoryBlock);
      assert free[0..] == free;
      var block := memoryBlock;
      while block != null
        invariant pos <= |free| && pos % 2 == 0 && block == At(free, pos)
        invariant kept == Evens(free[..pos]) && released == Odds(free[..pos])
        invariant Chained(kept, block) && Chained(free[pos..], null)
        decreases |free| - pos
      {
        PairRecycled(free, pos);
        FirstTwo(free[pos..]);
        var temp := block.next;
        if temp != null {
          var next := temp.next;
          block.next := next;
          NextKept(kept, block);
          released := released + [temp];
          kept, block, pos := kept + [block], next, pos + 2;
        } else {
          break;
        }
      }
      LastKept(free, pos);
      assert free[pos..] == if block == null then [] else [block];
      if block != null {
        NextKept(kept, block);
        kept := kept + [block];
      }
    }
  }

  /** Every block points at the next one, and the last at end. */
  ghost predicate Chained(s: seq<Block>, end: Block?)
    reads s
  {
    forall i {:trigger s[i].next} :: 0 <= i < |s| ==> s[i].next == if i + 1 < |s| then s[i + 1] else end
  }

  lemma NothingChained(end: Block?)
    ensures Chained([], end)
  {
  }

  lemma FirstTwo(s: seq<Block>)
    requires Chained(s, null) && s != []
    ensures s[0].next == At(s, 1)
    ensures |s| > 1 ==> s[1].next == At(s, 2) && Chained(s[2..], null)
  {
    if |s| > 1 {
      var t := s[2..];
      forall i {:trigger t[i].next} | 0 <= i < |t|
        ensures t[i].next == if i + 1 < |t| then t[i + 1] else null
      {
        assert t[i] == s[i + 2];
      }
    }
  }

  lemma NextKept(kept: seq<Block>, block: Block)
    requires Chained(kept, block)
    ensures Chained(kept + [block], block.next)
  {
    var t := kept + [block];
    forall i {:trigger t[i].next} | 0 <= i < |t|
      ensures t[i].next == if i + 1 < |t| then t[i + 1] else block.next
    {
      if i < |kept| {
        assert t[i] == kept[i];
      }
    }
  }

  lemma FirstKept(s: seq<Block>)
    ensures At(Evens(s), 0) == At(s, 0)
  {
  }

  lemma NothingRecycled<T>(s: seq<T>)
    ensures Evens(s[..0]) == [] && Odds(s[..0]) == []
  {
  }

  /** The next two blocks, of an even number before them. */
  lemma PairRecycled<T>(s: seq<T>, pos: nat)
    requires Distinct(s) && pos < |s| && pos % 2 == 0
    ensures s[pos] !in Evens(s[..pos]) && s[pos..][0] == s[pos]
    ensures pos + 1 < |s| ==> s[pos] !in s[pos + 2..] && s[pos..][1] == s[pos + 1] && s[pos..][2..] == s[pos + 2..]
    ensures pos + 1 < |s| ==> Evens(s[..pos + 2]) == Evens(s[..pos]) + [s[pos]]
    ensures pos + 1 < |s| ==> Odds(s[..pos + 2]) == Odds(s[..pos]) + [s[pos + 1]]
  {
    assert forall i :: 0 <= i < |Evens(s[..pos])| ==> Evens(s[..pos])[i] == s[2 * i];
    if pos + 1 < |s| {
      assert s[..pos + 2] == s[..pos] + [s[pos], s[pos + 1]];
    }
  }

  lemma LastKept<T>(s: seq<T>, pos: nat)
    requires pos <= |s| <= pos + 1 && pos % 2 == 0
    ensures Evens(s) == Evens(s[..pos]) + s[pos..] && Odds(s) == Odds(s[..pos])
  {
  }
}
