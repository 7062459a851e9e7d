/** bool_array: a packed array of booleans, eight to a byte. */
module BoolArray {
  import opened Sequences

  // ---------- bits ----------

  predicate Bit(b: bv8, k: nat)
    requires k < 8
  {
    b & ((1 as bv8) << k) != 0
  }

  function ByteBits(b: bv8): (s: seq<bool>)
    ensures |s| == 8
  {
    [Bit(b, 0), Bit(b, 1), Bit(b, 2), Bit(b, 3), Bit(b, 4), Bit(b, 5), Bit(b, 6), Bit(b, 7)]
  }

  /** All the bits of a buffer, padding included. */
  function AllBits(bytes: seq<bv8>): (s: seq<bool>)
    ensures |s| == 8 * |bytes|
  {
    if bytes == [] then [] else AllBits(bytes[..|bytes| - 1]) + ByteBits(bytes[|bytes| - 1])
  }

  lemma {:induction false} BitOfBuffer(bytes: seq<bv8>, i: nat)
    requires i < 8 * |bytes|
    ensures AllBits(bytes)[i] == Bit(bytes[i / 8], i % 8)
  {
    hide Bit;
    if i < 8 * (|bytes| - 1) {
      BitOfBuffer(bytes[..|bytes| - 1], i);
    }
  }

  function Ones(s: seq<bool>): nat {
    if s == [] then 0 else Ones(s[..|s| - 1]) + if s[|s| - 1] then 1 else 0
  }

  lemma {:induction false} OnesAdd(s: seq<bool>, t: seq<bool>)
    ensures Ones(s + t) == Ones(s) + Ones(t)
  {
    if t == [] {
      assert s + t == s;
    } else {
      OnesAdd(s, t[..|t| - 1]);
      assert (s + t)[..|s + t| - 1] == s + t[..|t| - 1];
    }
  }

  /** Counting is additive over adjacent ranges. */
  lemma OnesSplit(s: seq<bool>, a: nat, b: nat, c: nat)
    requires a <= b <= c <= |s|
    ensures Ones(s[a..c]) == Ones(s[a..b]) + Ones(s[b..c])
  {
    OnesAdd(s[a..b], s[b..c]);
    assert s[a..b] + s[b..c] == s[a..c];
  }

  lemma {:induction false} NoOnes(s: seq<bool>)
    ensures Ones(s) <= |s|
    ensures Ones(s) == 0 <==> forall i :: 0 <= i < |s| ==> !s[i]
  {
    if s != [] {
      NoOnes(s[..|s| - 1]);
    }
  }

  function Flipped(s: seq<bool>): (t: seq<bool>)
    ensures |t| == |s|
  {
    seq(|s|, i requires 0 <= i < |s| => !s[i])
  }

  /** Flipping exchanges the two counts. */
  lemma {:induction false} FlippedOnes(s: seq<bool>)
    ensures Ones(Flipped(s)) == |s| - Ones(s)
  {
    if s != [] {
      FlippedOnes(s[..|s| - 1]);
      assert Flipped(s)[..|s| - 1] == Flipped(s[..|s| - 1]);
    }
  }

  // ---------- the popcount table ----------

  /** The 256 entries of the table, sixteen to a row. */
  const BIT_COUNT: seq<seq<nat>> := [
    [0, 1, 1, 2, 1, 2, 2, 3, 1, 2, 2, 3, 2, 3, 3, 4], [1, 2, 2, 3, 2, 3, 3, 4, 2, 3, 3, 4, 3, 4, 4, 5],
    [1, 2, 2, 3, 2, 3, 3, 4, 2, 3, 3, 4, 3, 4, 4, 5], [2, 3, 3, 4, 3, 4, 4, 5, 3, 4, 4, 5, 4, 5, 5, 6],
    [1, 2, 2, 3, 2, 3, 3, 4, 2, 3, 3, 4, 3, 4, 4, 5], [2, 3, 3, 4, 3, 4, 4, 5, 3, 4, 4, 5, 4, 5, 5, 6],
    [2, 3, 3, 4, 3, 4, 4, 5, 3, 4, 4, 5, 4, 5, 5, 6], [3, 4, 4, 5, 4, 5, 5, 6, 4, 5, 5, 6, 5, 6, 6, 7],
    [1, 2, 2, 3, 2, 3, 3, 4, 2, 3, 3, 4, 3, 4, 4, 5], [2, 3, 3, 4, 3, 4, 4, 5, 3, 4, 4, 5, 4, 5, 5, 6],
    [2, 3, 3, 4, 3, 4, 4, 5, 3, 4, 4, 5, 4, 5, 5, 6], [3, 4, 4, 5, 4, 5, 5, 6, 4, 5, 5, 6, 5, 6, 6, 7],
    [2, 3, 3, 4, 3, 4, 4, 5, 3, 4, 4, 5, 4, 5, 5, 6], [3, 4, 4, 5, 4, 5, 5, 6, 4, 5, 5, 6, 5, 6, 6, 7],
    [3, 4, 4, 5, 4, 5, 5, 6, 4, 5, 5, 6, 5, 6, 6, 7], [4, 5, 5, 6, 5, 6, 6, 7, 5, 6, 6, 7, 6, 7, 7, 8]]

  lemma TableShape()
    ensures |BIT_COUNT| == 16 && forall i :: 0 <= i < 16 ==> |BIT_COUNT[i]| == 16
  {
  }

  function BitCount(b: bv8): nat {
    TableShape();
    BIT_COUNT[(b >> 4) as nat][(b & 15) as nat]
  }

  function OnesOfByte(b: bv8): nat {
    Unit(Bit(b, 0)) + Unit(Bit(b, 1)) + Unit(Bit(b, 2)) + Unit(Bit(b, 3))
    + Unit(Bit(b, 4)) + Unit(Bit(b, 5)) + Unit(Bit(b, 6)) + Unit(Bit(b, 7))
  }

  lemma BitCounts(b: bv8)
    ensures BitCount(b) == OnesOfByte(b)
  {
  }

  lemma ByteOnes(b: bv8)
    ensures Ones(ByteBits(b)) == BitCount(b)
  {
    BitCounts(b);
    hide Bit, BitCount;
    var s := ByteBits(b);
    assert s[..7][..6] == s[..6] && s[..6][..5] == s[..5] && s[..5][..4] == s[..4];
    assert s[..4][..3] == s[..3] && s[..3][..2] == s[..2] && s[..2][..1] == s[..1] && s[..1][..0] == [];
    assert Ones(s[..1]) == Unit(s[0]);
    assert Ones(s[..2]) == Ones(s[..1]) + Unit(s[1]);
    assert Ones(s[..3]) == Ones(s[..2]) + Unit(s[2]);
    assert Ones(s[..4]) == Ones(s[..3]) + Unit(s[3]);
    assert Ones(s[..5]) == Ones(s[..4]) + Unit(s[4]);
    assert Ones(s[..6]) == Ones(s[..5]) + Unit(s[5]);
    assert Ones(s[..7]) == Ones(s[..6]) + Unit(s[6]);
  }

  // ---------- masks ----------

  /** 1 << k */
  function One(k: nat): bv8
    requires k < 8
  {
    (1 as bv8) << k
  }

  /** ~0 << k, cut to a byte */
  function High(k: nat): bv8
    requires k <= 8
  {
    (0xFF as bv8) << k
  }

  predicate Single(m: bv8) { m == 1 || m == 2 || m == 4 || m == 8 || m == 16 || m == 32 || m == 64 || m == 128 }

  lemma OneIs(k: nat)
    requires k < 8
    ensures One(k) == if k == 0 then 1 else if k == 1 then 2 else if k == 2 then 4 else if k == 3 then 8
                      else if k == 4 then 16 else if k == 5 then 32 else if k == 6 then 64 else 128
    ensures Single(One(k))
  {
    if k == 0 {
    } else if k == 1 {
    } else if k == 2 {
    } else if k == 3 {
    } else if k == 4 {
    } else if k == 5 {
    } else if k == 6 {
    } else {
    }
  }

  lemma OnesDiffer(j: nat, k: nat)
    requires j < 8 && k < 8
    ensures One(j) == One(k) <==> j == k
  {
    OneIs(j);
    OneIs(k);
    hide One;
  }

  lemma SingleBits(b: bv8, m: bv8, n: bv8)
    requires Single(m) && Single(n)
    ensures ((b | m) & n != 0) == (m == n || b & n != 0)
    ensures ((b & !m) & n != 0) == (m != n && b & n != 0)
  {
  }

  /** The byte b with bit k set to v. */
  function WithBit(b: bv8, k: nat, v: bool): bv8
    requires k < 8
  {
    if v then b | One(k) else b & !One(k)
  }

  lemma MaskedBits(b: bv8, k: nat, j: nat, v: bool)
    requires k < 8 && j < 8
    ensures Bit(WithBit(b, k, v), j) == if j == k then v else Bit(b, j)
  {
    hide One, Bit;
    OneIs(k);
    OneIs(j);
    OnesDiffer(j, k);
    BitIs(b, j);
    BitIs(WithBit(b, k, v), j);
    SingleBits(b, One(k), One(j));
  }

  lemma BitIs(b: bv8, k: nat)
    requires k < 8
    ensures Bit(b, k) == (b & One(k) != 0)
  {
  }

  lemma HighBit(k: nat, j: nat)
    requires k <= 8 && j < 8
    ensures (High(k) & One(j) != 0) == (j >= k)
  {
    OneIs(j);
    HighIs(k);
    hide One, High;
  }

  lemma HighIs(k: nat)
    requires k <= 8
    ensures High(k) == if k == 0 then 0xFF else if k == 1 then 0xFE else if k == 2 then 0xFC else if k == 3 then 0xF8
                       else if k == 4 then 0xF0 else if k == 5 then 0xE0 else if k == 6 then 0xC0
                       else if k == 7 then 0x80 else 0
  {
    if k == 0 {
    } else if k == 1 {
    } else if k == 2 {
    } else if k == 3 {
    } else if k == 4 {
    } else if k == 5 {
    } else if k == 6 {
    } else if k == 7 {
    } else {
    }
  }

  lemma SingleOfMask(b: bv8, h: bv8, n: bv8)
    requires Single(n)
    ensures ((b & h) & n != 0) == (h & n != 0 && b & n != 0)
    ensures ((b & !h) & n != 0) == (h & n == 0 && b & n != 0)
  {
  }

  lemma RangeMaskedBits(b: bv8, k: nat, j: nat)
    requires k <= 8 && j < 8
    ensures Bit(b & High(k), j) == (j >= k && Bit(b, j))
    ensures Bit(b & !High(k), j) == (j < k && Bit(b, j))
  {
    OneIs(j);
    HighBit(k, j);
    BitIs(b, j);
    BitIs(b & High(k), j);
    BitIs(b & !High(k), j);
    hide One, High, Bit;
    SingleOfMask(b, High(k), One(j));
  }

  lemma InvertedBits(b: bv8, j: nat)
    requires j < 8
    ensures Bit(!b, j) == !Bit(b, j)
  {
    if j == 0 {
    } else if j == 1 {
    } else if j == 2 {
    } else if j == 3 {
    } else if j == 4 {
    } else if j == 5 {
    } else if j == 6 {
    } else {
    }
  }

  lemma ConstantBits(j: nat)
    requires j < 8
    ensures !Bit(0, j) && Bit(0xFF, j)
  {
    InvertedBits(0, j);
  }

  lemma {:induction false} ByteOfBuffer(bytes: seq<bv8>, k: nat)
    requires k < |bytes|
    ensures AllBits(bytes)[8 * k..8 * k + 8] == ByteBits(bytes[k])
  {
    hide Bit, ByteBits;
    var n := |bytes| - 1;
    var rest := AllBits(bytes[..n]);
    assert AllBits(bytes) == rest + ByteBits(bytes[n]);
    if k < n {
      ByteOfBuffer(bytes[..n], k);
      assert AllBits(bytes)[8 * k..8 * k + 8] == rest[8 * k..8 * k + 8];
    } else {
      assert (rest + ByteBits(bytes[n]))[|rest|..] == ByteBits(bytes[n]);
    }
  }

  /** Bits that a mask has cleared outside [lo, hi) do not count. */
  lemma OnesOfMasked(s: seq<bool>, t: seq<bool>, lo: nat, hi: nat)
    requires lo <= hi <= |s| == |t|
    requires forall j :: 0 <= j < |s| ==> t[j] == (lo <= j < hi && s[j])
    ensures Ones(t) == Ones(s[lo..hi])
  {
    hide Ones;
    assert forall j :: 0 <= j < lo ==> !t[0..lo][j];
    assert forall j :: 0 <= j < |t| - hi ==> !t[hi..|t|][j];
    OnesSplit(t, 0, lo, |t|);
    OnesSplit(t, lo, hi, |t|);
    NoOnes(t[0..lo]);
    NoOnes(t[hi..|t|]);
    assert t[0..|t|] == t && t[lo..hi] == s[lo..hi];
  }

  // ---------- the class ----------

  const UINT_MAX := 0xFFFF_FFFF

  /** The bytes that size elements need, size > 0. */
  function BytesFor(size: nat): (n: nat)
    requires size > 0
    ensures 8 * (n - 1) < size <= 8 * n
  {
    (size - 1) / 8 + 1
  }

  /** A value, or std::out_of_range. */
  datatype Result<T> = Ok(value: T) | OutOfRange

  class BoolArray {
    var bytePtr: array?<bv8>
    var length: nat

    constructor ()
      ensures Valid() && bytePtr == null
    {
      bytePtr := null;
      length := 0;
    }

    predicate Valid()
      reads this
    {
      if bytePtr == null then length == 0 else length > 0 && bytePtr.Length == BytesFor(length)
    }

    ghost function Buffer(): (s: seq<bool>)
      reads this, bytePtr
      requires Valid() && bytePtr != null
      ensures |s| == 8 * BytesFor(length) >= length
    {
      AllBits(bytePtr[..])
    }

    /** The array as its users see it. */
    ghost function Elements(): (s: seq<bool>)
      reads this, bytePtr
      requires Valid() && bytePtr != null
      ensures |s| == length
    {
      Buffer()[..length]
    }

    /** The bits behind the last element are zero. */
    ghost predicate Padded()
      reads this, bytePtr
      requires Valid() && bytePtr != null
    {
      forall i :: length <= i < |Buffer()| ==> !Buffer()[i]
    }

    /** memory says whether malloc finds the bytes; their contents are arbitrary. */
    method Create(size: nat, memory: bool) returns (ok: bool)
      requires Valid()
      modifies this
      ensures Valid() && ok == (size != 0 && BytesFor(size) <= UINT_MAX && memory)
      ensures ok ==> bytePtr != null && fresh(bytePtr) && length == size
      ensures size == 0 || BytesFor(size) > UINT_MAX ==> bytePtr == old(bytePtr) && length == old(length)
      ensures !ok && size != 0 && BytesFor(size) <= UINT_MAX ==> bytePtr == null
    {
      if size == 0 {
        return false;
      }
      if (size - 1) / 8 + 1 > UINT_MAX {
        return false;
      }
      var byteCnt := (size - 1) / 8 + 1;
      length := 0;
      if !memory {
        bytePtr := null;
        return false;
      }
      bytePtr := new bv8[byteCnt];
      length := size;
      return true;
    }

    /** The last byte without the bits behind the last element. */
    method Trim()
      requires Valid() && bytePtr != null
      modifies bytePtr
      ensures Elements() == old(Elements()) && Padded()
    {
      hide Bit, AllBits, BytesFor;
      var byteCnt := (length - 1) / 8 + 1;
      var validBits := (length - 1) % 8 + 1;
      LastByte(length);
      assert length == 8 * (byteCnt - 1) + validBits;
      TrimmedBits(bytePtr[..], byteCnt - 1, validBits);
      bytePtr[byteCnt - 1] := bytePtr[byteCnt - 1] & !High(validBits);
      assert bytePtr[..] == old(bytePtr[..])[byteCnt - 1 := bytePtr[byteCnt - 1]];
    }

    method Initialize(value: bool)
      requires Valid() && bytePtr != null
      modifies bytePtr
      ensures Elements() == seq(length, _ => value) && Padded()
    {
      hide Bit, AllBits, BytesFor;
      LastByte(length);
      var byteCnt := (length - 1) / 8 + 1;
      for i := 0 to byteCnt
        invariant forall k :: 0 <= k < i ==> bytePtr[k] == if value then 0xFF else 0
      {
        bytePtr[i] := if value then 0xFF else 0;
      }
      UniformBits(bytePtr[..], value);
      if value {
        Trim();
      }
    }

    method Set(idx: nat) returns (r: Result<()>)
      requires Valid()
      modifies bytePtr
      ensures r.Ok? <==> idx < length
      ensures r.Ok? ==> Elements() == old(Elements())[idx := true] && (old(Padded()) ==> Padded())
      ensures r.OutOfRange? && bytePtr != null ==> bytePtr[..] == old(bytePtr[..])
    {
      hide Bit, AllBits, BytesFor, One;
      if idx >= length {
        return OutOfRange;
      }
      var byteIdx, bitIdx := idx / 8, idx % 8;
      ghost var before := bytePtr[..];
      bytePtr[byteIdx] := bytePtr[byteIdx] | One(bitIdx);
      assert bytePtr[..] == before[byteIdx := WithBit(before[byteIdx], bitIdx, true)];
      Updated(before, bytePtr[..], length, idx, true);
      return Ok(());
    }

    method Reset(idx: nat) returns (r: Result<()>)
      requires Valid()
      modifies bytePtr
      ensures r.Ok? <==> idx < length
      ensures r.Ok? ==> Elements() == old(Elements())[idx := false] && (old(Padded()) ==> Padded())
      ensures r.OutOfRange? && bytePtr != null ==> bytePtr[..] == old(bytePtr[..])
    {
      hide Bit, AllBits, BytesFor, One;
      if idx >= length {
        return OutOfRange;
      }
      var byteIdx, bitIdx := idx / 8, idx % 8;
      ghost var before := bytePtr[..];
      bytePtr[byteIdx] := bytePtr[byteIdx] & !One(bitIdx);
      assert bytePtr[..] == before[byteIdx := WithBit(before[byteIdx], bitIdx, false)];
      Updated(before, bytePtr[..], length, idx, false);
      return Ok(());
    }

    /** The assignment to an _Element, the reference to one bit. */
    method Store(byteIdx: nat, bitIdx: nat, value: bool)
      requires bytePtr != null && byteIdx < bytePtr.Length && bitIdx < 8
      modifies bytePtr
      ensures bytePtr[..] == old(bytePtr[..])[byteIdx := WithBit(old(bytePtr[..])[byteIdx], bitIdx, value)]
    {
      hide One;
      if value {
        bytePtr[byteIdx] := bytePtr[byteIdx] | One(bitIdx);
      } else {
        bytePtr[byteIdx] := bytePtr[byteIdx] & !One(bitIdx);
      }
    }

    /** operator[] followed by the assignment of _Element: the index is only asserted. */
    method Assign(idx: nat, value: bool) returns (r: bool)
      requires Valid() && idx < length
      modifies bytePtr
      ensures r == value && Elements() == old(Elements())[idx := value] && (old(Padded()) ==> Padded())
    {
      hide Bit, AllBits, BytesFor, WithBit;
      ghost var before := bytePtr[..];
      Store(idx / 8, idx % 8, value);
      Updated(before, bytePtr[..], length, idx, value);
      return value;
    }

    method At(idx: nat) returns (r: Result<bool>)
      requires Valid()
      ensures r == if idx < length then Ok(Elements()[idx]) else OutOfRange
    {
      hide Bit, AllBits, BytesFor, One;
      if idx >= length {
        return OutOfRange;
      }
      var byteIdx, bitIdx := idx / 8, idx % 8;
      BitOfBuffer(bytePtr[..], idx);
      BitIs(bytePtr[byteIdx], bitIdx);
      return Ok(bytePtr[byteIdx] & One(bitIdx) != 0);
    }

    /** All the bits of the buffer: the number of true elements exactly when the padding is zero. */
    method Count() returns (trueCnt: nat)
      requires Valid() && bytePtr != null
      ensures trueCnt == Ones(Buffer())
      ensures trueCnt == Ones(Elements()) <==> Padded()
    {
      hide Bit, AllBits, BytesFor, BitCount, Ones;
      LastByte(length);
      trueCnt := 0;
      var byteCnt := (length - 1) / 8 + 1;
      NoOnes([]);
      for i := 0 to byteCnt
        invariant trueCnt == Ones(AllBits(bytePtr[..])[0..8 * i])
      {
        CountedByte(bytePtr[..], 0, i);
        trueCnt := trueCnt + BitCount(bytePtr[i]);
      }
      assert Buffer()[0..8 * byteCnt] == Buffer() && Buffer()[0..length] == Elements();
      OnesSplit(Buffer(), 0, length, |Buffer()|);
      NoOnes(Buffer()[length..|Buffer()|]);
    }

    /** The number of true elements in a range, whatever the padding. */
    method CountRange(beg: nat, end: nat) returns (r: Result<nat>)
      requires Valid() && bytePtr != null
      ensures r == if beg >= end then Ok(0) else if end > length then OutOfRange else Ok(Ones(Elements()[beg..end]))
    {
      hide Bit, AllBits, BytesFor, BitCount, Ones, High;
      if beg >= end {
        return Ok(0);
      }
      if end > length {
        return OutOfRange;
      }
      var last := end - 1;
      var byteIdxBeg, byteIdxEnd := beg / 8, last / 8;
      assert beg == 8 * byteIdxBeg + beg % 8 && end == 8 * byteIdxEnd + (last % 8 + 1);
      var trueCnt := CountEnds(byteIdxBeg, beg % 8, byteIdxEnd, last % 8 + 1);
      trueCnt := AddMiddle(beg, end, byteIdxBeg + 1, byteIdxEnd, trueCnt);
      SliceOfSlice(Buffer(), Elements(), 0, beg, end);
      return Ok(trueCnt);
    }

    /** The first byte from bit lo on and the last byte below bit hi; they may be the same byte. */
    method CountEnds(byteIdxBeg: nat, lo: nat, byteIdxEnd: nat, hi: nat) returns (trueCnt: nat)
      requires Valid() && bytePtr != null && lo < 8 && 0 < hi <= 8
      requires byteIdxBeg <= byteIdxEnd < bytePtr.Length && (byteIdxBeg == byteIdxEnd ==> lo < hi)
      ensures trueCnt ==
        if byteIdxBeg < byteIdxEnd
        then Ones(Buffer()[8 * byteIdxBeg + lo..8 * (byteIdxBeg + 1)]) +
             Ones(Buffer()[8 * byteIdxEnd..8 * byteIdxEnd + hi])
        else Ones(Buffer()[8 * byteIdxBeg + lo..8 * byteIdxEnd + hi])
    {
      hide Bit, AllBits, BytesFor, BitCount, Ones, High;
      trueCnt := 0;
      var byteVal := bytePtr[byteIdxBeg] & High(lo);
      if byteIdxBeg < byteIdxEnd {
        trueCnt := BitCount(byteVal);
        byteVal := bytePtr[byteIdxEnd];
        InnerByte(bytePtr[..], byteIdxBeg, lo, 8);
        InnerByte(bytePtr[..], byteIdxEnd, 0, hi);
      } else {
        InnerByte(bytePtr[..], byteIdxBeg, lo, hi);
      }
      byteVal := byteVal & !High(hi);
      trueCnt := trueCnt + BitCount(byteVal);
    }

    /** The loop over the whole bytes between the first and the last. */
    method AddMiddle(ghost beg: nat, ghost end: nat, first: nat, byteIdxEnd: nat, cnt: nat) returns (trueCnt: nat)
      requires Valid() && bytePtr != null && beg <= 8 * first && 8 * byteIdxEnd <= end <= length
      requires first <= byteIdxEnd ==> cnt == Ones(Buffer()[beg..8 * first]) + Ones(Buffer()[8 * byteIdxEnd..end])
      requires first > byteIdxEnd ==> beg <= end && cnt == Ones(Buffer()[beg..end])
      ensures beg <= end && trueCnt == Ones(Buffer()[beg..end])
    {
      hide Bit, AllBits, BytesFor, BitCount, Ones, High;
      trueCnt := cnt;
      var byteIdxBeg := first;
      while byteIdxBeg < byteIdxEnd
        invariant first <= byteIdxBeg && (first <= byteIdxEnd ==> byteIdxBeg <= byteIdxEnd)
        invariant first > byteIdxEnd ==> trueCnt == cnt
        invariant first <= byteIdxEnd ==>
          trueCnt == Ones(Buffer()[beg..8 * byteIdxBeg]) + Ones(Buffer()[8 * byteIdxEnd..end])
      {
        CountedByte(bytePtr[..], beg, byteIdxBeg);
        trueCnt := trueCnt + BitCount(bytePtr[byteIdxBeg]);
        byteIdxBeg := byteIdxBeg + 1;
      }
      if first <= byteIdxEnd {
        OnesSplit(Buffer(), beg, 8 * byteIdxEnd, end);
      }
    }

    method Flip()
      requires Valid() && bytePtr != null
      modifies bytePtr
      ensures Elements() == Flipped(old(Elements())) && Padded()
    {
      hide Bit, AllBits, BytesFor;
      LastByte(length);
      ghost var before := bytePtr[..];
      var byteCnt := (length - 1) / 8 + 1;
      for i := 0 to byteCnt
        invariant forall k :: 0 <= k < byteCnt ==> bytePtr[k] == if k < i then !before[k] else before[k]
      {
        bytePtr[i] := !bytePtr[i];
      }
      InvertedBuffer(before, bytePtr[..]);
      Trim();
    }
  }

  lemma LastByte(length: nat)
    requires length > 0
    ensures BytesFor(length) == (length - 1) / 8 + 1
  {
  }

  lemma CountedByte(bytes: seq<bv8>, beg: nat, i: nat)
    requires i < |bytes| && beg <= 8 * i
    ensures Ones(AllBits(bytes)[beg..8 * (i + 1)]) == Ones(AllBits(bytes)[beg..8 * i]) + BitCount(bytes[i])
  {
    hide Bit, AllBits, BitCount, ByteBits, Ones;
    OnesSplit(AllBits(bytes), beg, 8 * i, 8 * (i + 1));
    ByteOfBuffer(bytes, i);
    ByteOnes(bytes[i]);
  }

  /** The bits of one byte from lo on and below hi. */
  lemma MaskedByte(b: bv8, lo: nat, hi: nat)
    requires lo <= hi <= 8
    ensures BitCount(b & High(lo) & !High(hi)) == Ones(ByteBits(b)[lo..hi])
  {
    hide Bit, ByteBits, BitCount, High, Ones;
    var t := b & High(lo) & !High(hi);
    forall j: nat | j < 8
      ensures ByteBits(t)[j] == (lo <= j < hi && ByteBits(b)[j])
    {
      ByteBit(t, j);
      ByteBit(b, j);
      RangeMaskedBits(b, lo, j);
      RangeMaskedBits(b & High(lo), hi, j);
    }
    OnesOfMasked(ByteBits(b), ByteBits(t), lo, hi);
    ByteOnes(t);
  }

  lemma ByteBit(b: bv8, j: nat)
    requires j < 8
    ensures ByteBits(b)[j] == Bit(b, j)
  {
    hide Bit;
  }

  lemma NoMask(b: bv8)
    ensures b & !High(8) == b && b & High(0) == b
  {
  }

  lemma SliceOfSlice<T>(s: seq<T>, t: seq<T>, a: nat, lo: nat, hi: nat)
    requires a + |t| <= |s| && s[a..a + |t|] == t && lo <= hi <= |t|
    ensures t[lo..hi] == s[a + lo..a + hi]
  {
    assert forall i :: 0 <= i < |t| ==> t[i] == s[a + i];
    assert forall i :: 0 <= i < hi - lo ==> t[lo..hi][i] == s[a + lo..a + hi][i];
  }

  /** Byte k of the buffer from lo on and below hi. */
  lemma InnerByte(bytes: seq<bv8>, k: nat, lo: nat, hi: nat)
    requires k < |bytes| && lo <= hi <= 8
    ensures BitCount(bytes[k] & High(lo) & !High(hi)) == Ones(AllBits(bytes)[8 * k + lo..8 * k + hi])
    ensures hi == 8 ==> BitCount(bytes[k] & High(lo)) == Ones(AllBits(bytes)[8 * k + lo..8 * k + hi])
    ensures lo == 0 ==> BitCount(bytes[k] & !High(hi)) == Ones(AllBits(bytes)[8 * k + lo..8 * k + hi])
  {
    hide Bit, AllBits, BitCount, High, ByteBits, Ones;
    SliceOfByte(bytes, k, lo, hi);
    MaskedByte(bytes[k], lo, hi);
    NoMask(bytes[k]);
    NoMask(bytes[k] & High(lo));
  }

  lemma SliceOfByte(bytes: seq<bv8>, k: nat, lo: nat, hi: nat)
    requires k < |bytes| && lo <= hi <= 8
    ensures AllBits(bytes)[8 * k + lo..8 * k + hi] == ByteBits(bytes[k])[lo..hi]
  {
    hide Bit, AllBits, ByteBits;
    ByteOfBuffer(bytes, k);
    var at := 8 * k;
    SliceOfSlice(AllBits(bytes), ByteBits(bytes[k]), at, lo, hi);
  }

  lemma UniformBits(bytes: seq<bv8>, value: bool)
    requires forall k :: 0 <= k < |bytes| ==> bytes[k] == if value then 0xFF else 0
    ensures forall i :: 0 <= i < 8 * |bytes| ==> AllBits(bytes)[i] == value
  {
    hide Bit, AllBits;
    forall i | 0 <= i < 8 * |bytes|
      ensures AllBits(bytes)[i] == value
    {
      BitOfBuffer(bytes, i);
      ConstantBits(i % 8);
    }
  }

  lemma InvertedBuffer(before: seq<bv8>, after: seq<bv8>)
    requires |after| == |before| && forall k :: 0 <= k < |before| ==> after[k] == !before[k]
    ensures AllBits(after) == Flipped(AllBits(before))
  {
    hide Bit, AllBits;
    forall i | 0 <= i < 8 * |before|
      ensures AllBits(after)[i] == !AllBits(before)[i]
    {
      BitOfBuffer(before, i);
      BitOfBuffer(after, i);
      InvertedBits(before[i / 8], i % 8);
    }
  }

  lemma TrimmedBits(bytes: seq<bv8>, n: nat, k: nat)
    requires |bytes| == n + 1 && 1 <= k <= 8
    ensures var after := AllBits(bytes[n := bytes[n] & !High(k)]);
            && after[..8 * n + k] == AllBits(bytes)[..8 * n + k]
            && forall i :: 8 * n + k <= i < 8 * |bytes| ==> !after[i]
  {
    var after := AllBits(bytes[n := bytes[n] & !High(k)]);
    hide Bit, AllBits, High;
    forall i: nat | i < 8 * |bytes|
      ensures after[i] == (i < 8 * n + k && AllBits(bytes)[i])
    {
      TrimmedBit(bytes, n, k, i);
    }
  }

  lemma TrimmedBit(bytes: seq<bv8>, n: nat, k: nat, i: nat)
    requires |bytes| == n + 1 && 1 <= k <= 8 && i < 8 * |bytes|
    ensures AllBits(bytes[n := bytes[n] & !High(k)])[i] == (i < 8 * n + k && AllBits(bytes)[i])
  {
    hide Bit, AllBits, High;
    BitOfBuffer(bytes, i);
    BitOfBuffer(bytes[n := bytes[n] & !High(k)], i);
    if i < 8 * n {
      assert i / 8 < n;
    } else {
      assert i / 8 == n && i % 8 == i - 8 * n;
      RangeMaskedBits(bytes[n], k, i - 8 * n);
    }
  }

  /** Setting one bit of one byte sets one element and leaves the padding alone. */
  lemma Updated(before: seq<bv8>, after: seq<bv8>, length: nat, idx: nat, v: bool)
    requires idx < length <= 8 * |before| && after == before[idx / 8 := WithBit(before[idx / 8], idx % 8, v)]
    ensures AllBits(after)[..length] == AllBits(before)[..length][idx := v]
    ensures forall i :: length <= i < 8 * |before| ==> AllBits(after)[i] == AllBits(before)[i]
  {
    hide Bit, AllBits, WithBit;
    forall i: nat | i < 8 * |before|
      ensures AllBits(after)[i] == if i == idx then v else AllBits(before)[i]
    {
      UpdatedBit(before, idx, i, v);
    }
  }

  lemma UpdatedBit(bytes: seq<bv8>, idx: nat, i: nat, v: bool)
    requires idx < 8 * |bytes| && i < 8 * |bytes|
    ensures AllBits(bytes[idx / 8 := WithBit(bytes[idx / 8], idx % 8, v)])[i]
         == if i == idx then v else AllBits(bytes)[i]
  {
    hide Bit, AllBits, WithBit;
    BitOfBuffer(bytes, i);
    BitOfBuffer(bytes[idx / 8 := WithBit(bytes[idx / 8], idx % 8, v)], i);
    SameBit(i, idx);
    if i / 8 == idx / 8 {
      MaskedBits(bytes[idx / 8], idx % 8, i % 8, v);
    }
  }

  lemma SameBit(i: nat, j: nat)
    ensures i == j <==> i / 8 == j / 8 && i % 8 == j % 8
  {
  }

  // ---------- runs ----------

  /** Put is a call of set or reset, Write an assignment through the reference that the subscript returns. */
  datatype Change = Put(idx: nat, value: bool) | Write(idx: nat, value: bool) | Invert

  /** One change to the plain sequence; an index out of range is refused and changes nothing. */
  function Changed(s: seq<bool>, c: Change): (t: seq<bool>)
    ensures |t| == |s|
  {
    match c
    case Put(idx, value) => if idx < |s| then s[idx := value] else s
    case Write(idx, value) => if idx < |s| then s[idx := value] else s
    case Invert => Flipped(s)
  }

  function Run(s: seq<bool>, changes: seq<Change>): (t: seq<bool>)
    ensures |t| == |s|
  {
    if changes == [] then s else Changed(Run(s, changes[..|changes| - 1]), changes[|changes| - 1])
  }

  /** After initialize, any run of set, reset, element assignment and flip is the run on the plain sequence, and count
      is its true count. The subscript asserts that its index is in range. */
  method CountAfterRun(a: BoolArray, value: bool, changes: seq<Change>) returns (cnt: nat)
    requires a.Valid() && a.bytePtr != null
    requires forall i :: 0 <= i < |changes| && changes[i].Write? ==> changes[i].idx < a.length
    modifies a.bytePtr
    ensures a.Elements() == Run(seq(a.length, _ => value), changes) && a.Padded()
    ensures cnt == Ones(Run(seq(a.length, _ => value), changes))
  {
    hide Bit, AllBits, BytesFor, Ones;
    ghost var start := seq(a.length, _ => value);
    a.Initialize(value);
    for i := 0 to |changes|
      invariant a.Elements() == Run(start, changes[..i]) && a.Padded()
    {
      assert changes[..i + 1][..i] == changes[..i];
      match changes[i]
      case Put(idx, true) => var _ := a.Set(idx);
      case Put(idx, false) => var _ := a.Reset(idx);
      case Write(idx, v) => var _ := a.Assign(idx, v);
      case Invert => a.Flip();
    }
    assert changes[..|changes|] == changes;
    cnt := a.Count();
  }

  lemma RunStep(s: seq<bool>, changes: seq<Change>, c: Change)
    ensures Run(s, changes + [c]) == Changed(Run(s, changes), c)
  {
    hide Changed;
    assert (changes + [c])[..|changes|] == changes;
  }

  lemma FlippedTwice(s: seq<bool>)
    ensures Flipped(Flipped(s)) == s
  {
  }

  /** A run and the run with one flip at its end count complementary numbers of elements. */
  lemma FlippedRun(s: seq<bool>, changes: seq<Change>)
    ensures Ones(Run(s, changes + [Invert])) == |s| - Ones(Run(s, changes))
    ensures Run(s, changes + [Invert, Invert]) == Run(s, changes)
  {
    hide Ones, Run, Flipped;
    RunStep(s, changes, Invert);
    RunStep(s, changes + [Invert], Invert);
    assert changes + [Invert, Invert] == changes + [Invert] + [Invert];
    FlippedOnes(Run(s, changes));
    FlippedTwice(Run(s, changes));
  }
}
