/** fixed_mem_pool: one chunk of equal blocks; a free block holds the pointer to the next free block. */
module FixedMemPool {
  import opened Sequences

  /** The blocks of a pool of n blocks, by their number in the chunk; NULL is written as -1. */
  const NULL := -1

  /** What the pointer in block s[i] must be. */
  function After(s: seq<nat>, i: int): int
    requires -1 <= i < |s|
  {
    if i + 1 < |s| then s[i + 1] else NULL
  }

  class Pool {
    /** The chunk, one word for each block: the word of a block that is out belongs to the client. */
    var memPool: array?<int>
    var firstAvail: int
    var allocCnt: nat
    ghost var free: seq<nat>
    ghost var out: set<nat>

    ghost predicate Valid()
      reads this, memPool
    {
      && Distinct(free) && firstAvail == After(free, -1) && allocCnt == |out|
      && if memPool == null then free == [] && out == {}
         else && (forall i :: 0 <= i < |free| ==> free[i] < memPool.Length && free[i] !in out)
              && (forall k :: k in out ==> k < memPool.Length)
              && (forall k: nat :: k < memPool.Length ==> k in free || k in out)
              && (forall i {:trigger memPool[free[i]]} :: 0 <= i < |free| ==> memPool[free[i]] == After(free, i))
    }

    constructor ()
      ensures Valid() && memPool == null
    {
      memPool := null;
      firstAvail := NULL;
      allocCnt := 0;
      free := [];
      out := {};
    }

    /** memory says whether the system has the chunk; its contents are arbitrary. */
    method Initialize(size: nat, memory: bool) returns (ok: bool)
      requires Valid() && memPool == null && size > 0
      modifies this
      ensures Valid() && ok == memory && (ok <==> memPool != null)
      ensures ok ==> fresh(memPool) && memPool.Length == size && out == {} && free == seq(size, i => i)
    {
      if !memory {
        return false;
      }
      var chunk := new int[size];
      memPool := chunk;
      firstAvail := 0;
      var left, block := size, 0;
      free := seq(size, i => i);
      left := left - 1;
      while left != 0
        modifies chunk
        invariant left + block == size - 1
        invariant forall k :: 0 <= k < block ==> chunk[k] == k + 1
      {
        var next := block + 1;
        chunk[block] := next;
        block := next;
        left := left - 1;
      }
      chunk[block] := NULL;
      forall k: nat | k < size
        ensures k in free
      {
        assert free[k] == k;
      }
      return true;
    }

    /** The first free block, or NULL: the default handler gives up at once. */
    method Allocate() returns (r: int)
      requires Valid()
      modifies this`firstAvail, this`allocCnt, this`free, this`out
      ensures Valid()
      ensures r == NULL <==> old(free) == []
      ensures r == NULL ==> free == [] && out == old(out)
      ensures r != NULL ==> r == old(free)[0] && free == old(free)[1..] && out == old(out) + {r}
    {
      r := firstAvail;
      if r == NULL {
        return;
      }
      assert r == free[0] && memPool[free[0]] == After(free, 0);
      firstAvail := memPool[r];
      allocCnt := allocCnt + 1;
      free, out := free[1..], out + {r};
    }

    /** The block goes back to the front of the list. */
    method Deallocate(block: int)
      requires Valid() && (block == NULL || block in out)
      modifies this`firstAvail, this`allocCnt, this`free, this`out, memPool
      ensures Valid()
      ensures block == NULL ==> free == old(free) && out == old(out)
      ensures block != NULL ==> free == [block] + old(free) && out == old(out) - {block}
    {
      if block == NULL {
        return;
      }
      allocCnt := allocCnt - 1;
      memPool[block] := firstAvail;
      firstAvail := block;
      free, out := [block] + free, out - {block};
    }

    /** A client writes to a block that it holds. */
    method ClientWrites(block: nat, word: int)
      requires Valid() && block in out
      modifies memPool
      ensures Valid() && free == old(free) && out == old(out)
    {
      memPool[block] := word;
    }

    method Deinitialize() returns (r: nat)
      requires Valid() && memPool != null
      modifies this
      ensures Valid() && r == old(|out|)
      ensures r == 0 ==> memPool == null && old(out == {} && forall k: nat :: k < memPool.Length ==> k in free)
      ensures r != 0 ==> memPool == old(memPool) && free == old(free) && out == old(out)
    {
      if allocCnt != 0 {
        return allocCnt;
      }
      memPool := null;
      firstAvail := NULL;
      free := [];
      return 0;
    }
  }

  /** Every block is free or out: allocate fails exactly when all of them are out. */
  lemma AllBlocks(p: Pool)
    requires p.Valid() && p.memPool != null
    ensures |p.free| + |p.out| == p.memPool.Length
    ensures p.firstAvail == NULL <==> |p.out| == p.memPool.Length
  {
    var n := p.memPool.Length;
    var all := set k: nat | k < n && k in p.free :: k;
    SetOfDistinct(p.free, all);
    assert all !! p.out;
    NumbersBelow(all + p.out, n);
  }

  lemma {:induction false} SetOfDistinct(s: seq<nat>, t: set<nat>)
    requires Distinct(s) && forall k :: k in t <==> k in s
    ensures |t| == |s|
  {
    if s == [] {
      assert t == {};
    } else {
      SetOfDistinct(s[1..], t - {s[0]});
    }
  }

  lemma {:induction false} NumbersBelow(t: set<nat>, n: nat)
    requires forall k: nat :: k in t <==> k < n
    ensures |t| == n
  {
    if n == 0 {
      assert t == {};
    } else {
      NumbersBelow(t - {n - 1}, n - 1);
    }
  }
}
