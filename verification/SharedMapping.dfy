/** Which parts of an allocation s4bxi_shared_malloc_partial maps onto the shared file: for each shared block,
    whole aligned blocks in the middle, and whole pages below and above them. */
module SharedMapping {
  import opened Wire
  import opened Words
  import opened Align

  /** Bytes lo, lo + 1, ..., hi - 1. */
  datatype Range = Range(lo: nat, hi: nat)

  /** No allocation comes near the end of the signed 64-bit range. */
  const LIMIT: nat := 0x8000_0000_0000_0000

  // ---------------------------------------------------------------- one shared block

  function Middle(offset: nat, stop: nat, block: nat): seq<Range>
    requires block > 0
    decreases stop - offset
  {
    if offset < stop then [Range(offset, offset + block)] + Middle(offset + block, stop, block) else []
  }

  ghost predicate Sized(size: nat, b: Range, block: nat) {
    b.lo < b.hi <= size && 0 < block && size + block <= LIMIT
  }

  /** Where the pages below the aligned blocks end. */
  function LowStop(b: Range, block: nat): nat
    requires 0 < block <= WORD
  {
    var first, pages := AlignUp(b.lo, block), AlignDown(b.hi, PAGE);
    if first < pages then first else pages
  }

  function Low(b: Range, block: nat): seq<Range>
    requires 0 < block <= WORD
  {
    var start := AlignUp(b.lo, PAGE);
    if start < LowStop(b, block) then [Range(start, LowStop(b, block))] else []
  }

  function HighStop(size: nat, b: Range): nat {
    if b.hi == size then size else AlignDown(b.hi, PAGE)
  }

  function High(size: nat, b: Range, block: nat): seq<Range>
    requires 0 < block <= WORD
  {
    var last := AlignDown(b.hi, block);
    if LowStop(b, block) <= last && HighStop(size, b) > last then [Range(last, HighStop(size, b))] else []
  }

  function Mapped(size: nat, b: Range, block: nat): seq<Range>
    requires 0 < block <= WORD
  {
    Middle(AlignUp(b.lo, block), AlignDown(b.hi, block), block) + Low(b, block) + High(size, b, block)
  }

  // ---------------------------------------------------------------- multiples

  lemma {:induction false} PagesInBlock(k: nat)
    requires 12 <= k
    ensures exists n: nat :: Pow2(k) == n * PAGE && n > 0
  {
    assert Pow2(12) == PAGE by { assert Pow2(4) == 16; Pow2Add(4, 4); Pow2Add(8, 4); }
    Pow2Add(k - 12, 12);
    assert Pow2(k) == Pow2(k - 12) * PAGE;
  }

  /** Multiples of `m` that are less than `m` apart are equal. */
  lemma MultiplesOrder(x: nat, y: nat, m: nat)
    requires m > 0 && x % m == 0 && y % m == 0 && x < y + m
    ensures x <= y
  {
    var p, q := x / m, y / m;
    assert x == m * p && y == m * q;
    if q < p { MultiplesApart(m, q, p); }
  }

  lemma MultipleOfMultiple(x: nat, n: nat, m: nat)
    requires m > 0 && n > 0 && x % (n * m) == 0
    ensures x % m == 0
  {
    var q := x / (n * m);
    assert x == (n * m) * q == m * (n * q);
    QuotientUnique(x, m, n * q, 0);
  }

  lemma NextMultiple(x: nat, m: nat)
    requires m > 0 && x % m == 0
    ensures (x + m) % m == 0
  {
    assert x == m * (x / m);
    QuotientUnique(x + m, m, x / m + 1, 0);
  }

  /** The aligned edges of a shared block, and how they lie: either an aligned edge is in the block, or the
      block lies strictly between two of them. */
  ghost predicate Edges(b: Range, block: nat, first: nat, last: nat, low: nat, high: nat) {
    && b.lo <= first < b.lo + block && last <= b.hi < last + block && b.lo <= low < b.lo + PAGE
    && high <= b.hi < high + PAGE
    && first % PAGE == 0 && last % PAGE == 0 && low % PAGE == 0 && high % PAGE == 0 && first % block == 0
    && last % block == 0
    && last <= high && low <= first
    && (first <= last || (last < b.lo && b.hi < first))
  }

  lemma EdgesOf(size: nat, b: Range, k: nat)
    requires 12 <= k < 63 && Sized(size, b, Pow2(k))
    ensures Edges(b, Pow2(k), AlignUp(b.lo, Pow2(k)), AlignDown(b.hi, Pow2(k)),
                  AlignUp(b.lo, PAGE), AlignDown(b.hi, PAGE))
  {
    var block := Pow2(k);
    PageIsPow2();
    Pow2Monotone(12, k);
    MaskIsRounding(b.lo, k);
    MaskIsRounding(b.hi, k);
    MaskIsRounding(b.lo, 12);
    MaskIsRounding(b.hi, 12);
    PagesInBlock(k);
    var n: nat :| block == n * PAGE && n > 0;
    var first, last := AlignUp(b.lo, block), AlignDown(b.hi, block);
    var low, high := AlignUp(b.lo, PAGE), AlignDown(b.hi, PAGE);
    hide AlignUp, AlignDown, Pow2;
    MultipleOfMultiple(first, n, PAGE);
    MultipleOfMultiple(last, n, PAGE);
    MultiplesOrder(last, high, PAGE);
    MultiplesOrder(low, first, PAGE);
    if last >= b.lo { MultiplesOrder(first, last, block); }
    else { MultiplesApartBy(last, first, block); }
  }

  lemma PageIsPow2()
    ensures Pow2(12) == PAGE
  {
    assert Pow2(4) == 16;
    Pow2Add(4, 4);
    Pow2Add(8, 4);
  }

  lemma MultiplesApartBy(x: nat, y: nat, m: nat)
    requires m > 0 && x % m == 0 && y % m == 0 && x < y
    ensures x + m <= y
  {
    var p, q := x / m, y / m;
    assert x == m * p && y == m * q;
    if q <= p { if q < p { MultiplesApart(m, q, p); } }
    else { MultiplesApart(m, p, q); }
  }

  // ---------------------------------------------------------------- the aligned blocks

  ghost predicate Ascending(rs: seq<Range>) {
    forall i, j :: 0 <= i < j < |rs| ==> rs[i].hi <= rs[j].lo
  }

  lemma {:induction false} MiddleTiles(offset: nat, stop: nat, block: nat)
    requires block > 0 && offset % block == 0 && stop % block == 0 && offset <= stop
    ensures Ascending(Middle(offset, stop, block))
    ensures forall r :: r in Middle(offset, stop, block) ==>
      offset <= r.lo && r.hi == r.lo + block && r.hi <= stop && r.lo % block == 0
    decreases stop - offset
  {
    if offset < stop {
      MultiplesApartBy(offset, stop, block);
      NextMultiple(offset, block);
      MiddleTiles(offset + block, stop, block);
      var rest := Middle(offset + block, stop, block);
      assert forall i :: 0 <= i < |rest| ==> rest[i] in rest;
    }
  }

  /** Byte `x` is in some range. */
  ghost predicate Covers(rs: seq<Range>, x: nat) {
    exists r :: r in rs && r.lo <= x < r.hi
  }

  lemma {:induction false} MiddleCovers(offset: nat, stop: nat, block: nat, x: nat)
    requires block > 0 && offset <= x < stop
    ensures Covers(Middle(offset, stop, block), x)
    decreases stop - offset
  {
    var rest := Middle(offset + block, stop, block);
    if x < offset + block {
      assert Range(offset, offset + block) in Middle(offset, stop, block);
    } else {
      MiddleCovers(offset + block, stop, block, x);
      var r :| r in rest && r.lo <= x < r.hi;
      assert r in Middle(offset, stop, block);
    }
  }

  // ---------------------------------------------------------------- theorems about one shared block

  ghost predicate Disjoint(rs: seq<Range>) {
    forall i, j :: 0 <= i < j < |rs| ==> rs[i].hi <= rs[j].lo || rs[j].hi <= rs[i].lo
  }

  /** The one case that goes wrong: a block at the very end of the allocation, smaller than a page and within
      the first page of an aligned block, but not starting that page. */
  predicate Overreaches(size: nat, b: Range, block: nat)
    requires 0 < block <= WORD
  {
    b.hi == size && AlignDown(b.hi, PAGE) == AlignDown(b.hi, block) < b.lo
  }

  lemma Parts(size: nat, b: Range, k: nat)
    requires 12 <= k < 63 && Sized(size, b, Pow2(k))
    ensures var block := Pow2(k);
      var first, last := AlignUp(b.lo, block), AlignDown(b.hi, block);
      var low, high := AlignUp(b.lo, PAGE), AlignDown(b.hi, PAGE);
      && Edges(b, block, first, last, low, high)
      && (first <= last ==> LowStop(b, block) == first)
      && (first > last ==> LowStop(b, block) == high && Middle(first, last, block) == [])
  {
    EdgesOf(size, b, k);
    hide AlignUp, AlignDown, Pow2;
  }

  /** A mapped range is one of the aligned blocks, or what is mapped below or above them. */
  lemma MappedParts(size: nat, b: Range, block: nat, r: Range)
    requires 0 < block <= WORD
    ensures var first, last, low := AlignUp(b.lo, block), AlignDown(b.hi, block), AlignUp(b.lo, PAGE);
      r in Mapped(size, b, block) <==>
        || r in Middle(first, last, block)
        || (low < LowStop(b, block) && r == Range(low, LowStop(b, block)))
        || (LowStop(b, block) <= last < HighStop(size, b) && r == Range(last, HighStop(size, b)))
  {
    hide AlignUp, AlignDown, Middle, LowStop, HighStop;
  }

  /** Nothing outside the shared block is mapped, exactly outside that one case. */
  lemma MappedInside(size: nat, b: Range, k: nat)
    requires 12 <= k < 63 && Sized(size, b, Pow2(k))
    ensures (forall r :: r in Mapped(size, b, Pow2(k)) ==> b.lo <= r.lo && r.hi <= b.hi)
            <==> !Overreaches(size, b, Pow2(k))
  {
    Parts(size, b, k);
    var block := Pow2(k);
    var first, last := AlignUp(b.lo, block), AlignDown(b.hi, block);
    hide AlignUp, AlignDown, Pow2, Middle, Mapped;
    if first <= last { MiddleTiles(first, last, block); }
    if Overreaches(size, b, block) {
      MappedParts(size, b, block, Range(last, size));
    } else {
      forall r | r in Mapped(size, b, block) ensures b.lo <= r.lo && r.hi <= b.hi {
        MappedParts(size, b, block, r);
      }
    }
  }

  /** Exactly what is mapped: the whole pages of the shared block; at the very end of the allocation the last, partial
      page as well, if an aligned edge lies in the block; and in the case that goes wrong everything from the page on
      that the block lies in. */
  lemma MappedExactly(size: nat, b: Range, k: nat, x: nat)
    requires 12 <= k < 63 && Sized(size, b, Pow2(k))
    ensures Covers(Mapped(size, b, Pow2(k)), x) <==>
      || AlignUp(b.lo, PAGE) <= x < AlignDown(b.hi, PAGE)
      || (b.hi == size && AlignUp(b.lo, Pow2(k)) <= AlignDown(b.hi, Pow2(k)) && AlignDown(b.hi, PAGE) <= x < size)
      || (Overreaches(size, b, Pow2(k)) && AlignDown(b.hi, PAGE) <= x < size)
  {
    Parts(size, b, k);
    var block := Pow2(k);
    var first, last, low := AlignUp(b.lo, block), AlignDown(b.hi, block), AlignUp(b.lo, PAGE);
    CoveredParts(size, b, block, x);
    if first <= last && first <= x < last { MiddleCovered(size, b, block, x); }
    if first <= last { MiddleTiles(first, last, block); }
    hide AlignUp, AlignDown, Pow2, Middle, Mapped, Covers;
  }

  /** A byte is mapped by one of the aligned blocks, or below or above them. */
  lemma CoveredParts(size: nat, b: Range, block: nat, x: nat)
    requires 0 < block <= WORD
    ensures var first, last, low := AlignUp(b.lo, block), AlignDown(b.hi, block), AlignUp(b.lo, PAGE);
      Covers(Mapped(size, b, block), x) <==>
        || (exists r :: r in Middle(first, last, block) && r.lo <= x < r.hi)
        || low <= x < LowStop(b, block)
        || (LowStop(b, block) <= last <= x < HighStop(size, b))
  {
    var last, low := AlignDown(b.hi, block), AlignUp(b.lo, PAGE);
    forall r ensures r in Mapped(size, b, block) <==>
      || r in Middle(AlignUp(b.lo, block), last, block)
      || (low < LowStop(b, block) && r == Range(low, LowStop(b, block)))
      || (LowStop(b, block) <= last < HighStop(size, b) && r == Range(last, HighStop(size, b)))
    {
      MappedParts(size, b, block, r);
    }
    hide AlignUp, AlignDown, Middle, LowStop, HighStop, Mapped;
    assert low <= x < LowStop(b, block) ==> Range(low, LowStop(b, block)) in Mapped(size, b, block);
    assert LowStop(b, block) <= last <= x < HighStop(size, b) ==>
      Range(last, HighStop(size, b)) in Mapped(size, b, block);
  }

  lemma MiddleCovered(size: nat, b: Range, block: nat, x: nat)
    requires 0 < block <= WORD && AlignUp(b.lo, block) <= x < AlignDown(b.hi, block)
    ensures Covers(Mapped(size, b, block), x)
  {
    var first, last := AlignUp(b.lo, block), AlignDown(b.hi, block);
    hide AlignUp, AlignDown, Middle, Low, High;
    MiddleCovers(first, last, block, x);
    var r :| r in Middle(first, last, block) && r.lo <= x < r.hi;
    assert r in Mapped(size, b, block);
  }

  lemma DisjointAppend(rs: seq<Range>, r: Range)
    requires Disjoint(rs) && forall q :: q in rs ==> q.hi <= r.lo || r.hi <= q.lo
    ensures Disjoint(rs + [r])
  {
    forall i | 0 <= i < |rs| ensures rs[i].hi <= r.lo || r.hi <= rs[i].lo { assert rs[i] in rs; }
  }

  /** The mapped ranges are not empty, and at most one block long. */
  lemma MappedSmall(size: nat, b: Range, k: nat, r: Range)
    requires 12 <= k < 63 && Sized(size, b, Pow2(k)) && r in Mapped(size, b, Pow2(k))
    ensures r.lo < r.hi <= r.lo + Pow2(k)
  {
    Parts(size, b, k);
    var block := Pow2(k);
    var first, last := AlignUp(b.lo, block), AlignDown(b.hi, block);
    hide AlignUp, AlignDown, Pow2, Middle, Mapped;
    MappedParts(size, b, block, r);
    if first <= last { MiddleTiles(first, last, block); }
  }

  lemma MiddleDisjoint(first: nat, last: nat, block: nat)
    requires block > 0 && first % block == 0 && last % block == 0 && first <= last
    ensures Disjoint(Middle(first, last, block))
    ensures forall r :: r in Middle(first, last, block) ==> first <= r.lo && r.hi <= last
  {
    MiddleTiles(first, last, block);
  }

  /** No byte is mapped twice. */
  lemma MappedDisjoint(size: nat, b: Range, k: nat)
    requires 12 <= k < 63 && Sized(size, b, Pow2(k))
    ensures Disjoint(Mapped(size, b, Pow2(k)))
  {
    Parts(size, b, k);
    var block := Pow2(k);
    var first, last := AlignUp(b.lo, block), AlignDown(b.hi, block);
    var middle, low, high := Middle(first, last, block), Low(b, block), High(size, b, block);
    if first <= last { MiddleDisjoint(first, last, block); }
    hide AlignUp, AlignDown, Pow2, Middle, Disjoint;
    DisjointNone();
    JoinDisjoint(middle, low);
    JoinDisjoint(middle + low, high);
  }

  lemma JoinDisjoint(rs: seq<Range>, more: seq<Range>)
    requires Disjoint(rs) && |more| <= 1 && forall q, r :: q in rs && r in more ==> q.hi <= r.lo || r.hi <= q.lo
    ensures Disjoint(rs + more)
  {
    if more == [] { assert rs + more == rs; }
    else { assert more == [more[0]]; DisjointAppend(rs, more[0]); }
  }

  lemma DisjointNone()
    ensures Disjoint([])
  {
  }

  lemma MiddlePage(first: nat, last: nat, k: nat, page: nat)
    requires 12 <= k && first % Pow2(k) == 0 && last % Pow2(k) == 0 && first <= page < last && page % PAGE == 0
    ensures exists r :: r in Middle(first, last, Pow2(k)) && r.lo <= page && page + PAGE <= r.hi
  {
    var block := Pow2(k);
    PagesInBlock(k);
    var n: nat :| block == n * PAGE && n > 0;
    MiddleTiles(first, last, block);
    MiddleCovers(first, last, block, page);
    hide Middle, Pow2;
    var r :| r in Middle(first, last, block) && r.lo <= page < r.hi;
    NextMultiple(r.lo, block);
    MultipleOfMultiple(r.hi, n, PAGE);
    MultiplesApartBy(page, r.hi, PAGE);
  }

  /** Every whole page inside the shared block is mapped. */
  lemma PagesMapped(size: nat, b: Range, k: nat, page: nat)
    requires 12 <= k < 63 && Sized(size, b, Pow2(k))
    requires page % PAGE == 0 && b.lo <= page && page + PAGE <= b.hi
    ensures exists r :: r in Mapped(size, b, Pow2(k)) && r.lo <= page && page + PAGE <= r.hi
  {
    Parts(size, b, k);
    var block := Pow2(k);
    var first, last := AlignUp(b.lo, block), AlignDown(b.hi, block);
    var low, high := AlignUp(b.lo, PAGE), AlignDown(b.hi, PAGE);
    hide AlignUp, AlignDown, Pow2, Middle;
    PageInside(b, low, high, page);
    if first <= page < last {
      MiddlePage(first, last, k, page);
      var r :| r in Middle(first, last, block) && r.lo <= page && page + PAGE <= r.hi;
      assert r in Mapped(size, b, block);
    } else if first <= last && last <= page {
      assert Range(last, HighStop(size, b)) in Mapped(size, b, block);
    } else {
      if first <= last { MultiplesApartBy(page, first, PAGE); }
      assert Range(low, LowStop(b, block)) in Mapped(size, b, block);
    }
  }

  lemma PageInside(b: Range, low: nat, high: nat, page: nat)
    requires page % PAGE == 0 && low % PAGE == 0 && high % PAGE == 0
    requires b.lo <= page && page + PAGE <= b.hi && low < b.lo + PAGE && b.hi < high + PAGE
    ensures low <= page && page + PAGE <= high
  {
    MultiplesOrder(low, page, PAGE);
    NextMultiple(page, PAGE);
    MultiplesOrder(page + PAGE, high, PAGE);
  }

  // ---------------------------------------------------------------- all shared blocks

  /** What the program checks of the blocks it is given. */
  ghost predicate ValidBlocks(size: nat, bs: seq<Range>) {
    && (forall i :: 0 <= i < |bs| ==> bs[i].lo < bs[i].hi <= size)
    && (forall i :: 0 <= i < |bs| - 1 ==> bs[i].hi < bs[i + 1].lo)
  }

  function AllMapped(size: nat, bs: seq<Range>, block: nat): seq<Range>
    requires 0 < block <= WORD
  {
    if bs == [] then [] else AllMapped(size, bs[..|bs| - 1], block) + Mapped(size, bs[|bs| - 1], block)
  }

  /** The calls to mmap for one shared block. */
  method MapBlock(size: nat, b: Range, block: nat) returns (mapped: seq<Range>)
    requires 0 < block && size + block <= LIMIT
    ensures mapped == Mapped(size, b, block)
  {
    hide AlignUp, AlignDown;
    var startBlock, stopBlock := AlignUp(b.lo, block), AlignDown(b.hi, block);
    mapped := [];
    var offset := startBlock;
    while offset < stopBlock
      invariant Middle(startBlock, stopBlock, block) == mapped + Middle(offset, stopBlock, block)
      decreases stopBlock - offset
    {
      mapped := mapped + [Range(offset, offset + block)];
      offset := offset + block;
    }
    var lowStart := AlignUp(b.lo, PAGE);
    var lowStop := if startBlock < AlignDown(b.hi, PAGE) then startBlock else AlignDown(b.hi, PAGE);
    ghost var middle := mapped;
    if lowStart < lowStop {
      mapped := mapped + [Range(lowStart, lowStop)];
    }
    assert mapped == middle + Low(b, block);
    if lowStop <= stopBlock {
      var highStop := if b.hi == size then size else AlignDown(b.hi, PAGE);
      if highStop > stopBlock {
        mapped := mapped + [Range(stopBlock, highStop)];
      }
    }
  }

  /** The loop over the shared blocks, with its checks; None is an abort. */
  method MapSharedBlocks(size: nat, bs: seq<Range>, block: nat) returns (maps: Option<seq<Range>>)
    requires 0 < block && size + block <= LIMIT
    ensures maps.Some? <==> ValidBlocks(size, bs)
    ensures maps.Some? ==> maps.value == AllMapped(size, bs, block)
  {
    hide Mapped;
    var mapped := [];
    var i := 0;
    while i < |bs|
      invariant 0 <= i <= |bs| && mapped == AllMapped(size, bs[..i], block)
      invariant forall j :: 0 <= j < i ==> bs[j].lo < bs[j].hi <= size && (j < |bs| - 1 ==> bs[j].hi < bs[j + 1].lo)
    {
      if !(bs[i].lo < bs[i].hi) || !(bs[i].hi <= size) {
        return None;
      }
      if i < |bs| - 1 && !(bs[i].hi < bs[i + 1].lo) {
        return None;
      }
      var maps := MapBlock(size, bs[i], block);
      mapped := mapped + maps;
      assert bs[..i + 1][..i] == bs[..i];
      i := i + 1;
    }
    assert bs[..i] == bs;
    return Some(mapped);
  }

  lemma {:induction false} BlocksApart(size: nat, bs: seq<Range>, i: nat, j: nat)
    requires ValidBlocks(size, bs) && i < j < |bs|
    ensures bs[i].hi < bs[j].lo
  {
    if i < j - 1 { BlocksApart(size, bs, i, j - 1); }
  }

  lemma {:induction false} MappedFrom(size: nat, bs: seq<Range>, block: nat, r: Range) returns (i: nat)
    requires 0 < block <= WORD && r in AllMapped(size, bs, block)
    ensures i < |bs| && r in Mapped(size, bs[i], block)
  {
    var n := |bs| - 1;
    if r in Mapped(size, bs[n], block) { i := n; } else { i := MappedFrom(size, bs[..n], block, r); }
  }

  lemma CoversConcat(rs: seq<Range>, ss: seq<Range>, x: nat)
    ensures Covers(rs + ss, x) <==> Covers(rs, x) || Covers(ss, x)
  {
  }

  /** Block `i` of the allocation has byte `x` mapped. */
  ghost predicate MapsByte(size: nat, bs: seq<Range>, block: nat, i: nat, x: nat)
    requires 0 < block <= WORD && i < |bs|
  {
    Covers(Mapped(size, bs[i], block), x)
  }

  /** Over a whole allocation exactly the bytes are mapped that one of its blocks has mapped. */
  lemma {:induction false} EachBlockMapped(size: nat, bs: seq<Range>, block: nat, x: nat)
    requires 0 < block <= WORD
    ensures Covers(AllMapped(size, bs, block), x) <==> exists i :: 0 <= i < |bs| && MapsByte(size, bs, block, i, x)
  {
    hide Covers, Mapped;
    if bs == [] {
      CoversNothing(x);
    } else {
      var n := |bs| - 1;
      EachBlockMapped(size, bs[..n], block, x);
      CoversConcat(AllMapped(size, bs[..n], block), Mapped(size, bs[n], block), x);
      forall i | 0 <= i < n ensures MapsByte(size, bs[..n], block, i, x) == MapsByte(size, bs, block, i, x) { }
      assert MapsByte(size, bs, block, n, x) == Covers(Mapped(size, bs[n], block), x);
      hide MapsByte;
    }
  }

  lemma CoversNothing(x: nat)
    ensures !Covers([], x)
  {
  }

  /** For a whole allocation: what is mapped onto the shared file lies within shared blocks, unless the last
      one is the exceptional case. */
  lemma OnlySharedIsMapped(size: nat, bs: seq<Range>, k: nat, r: Range) returns (i: nat)
    requires 12 <= k < 63 && size + Pow2(k) <= LIMIT && ValidBlocks(size, bs)
    requires Pow2(k) <= WORD && r in AllMapped(size, bs, Pow2(k))
    requires bs != [] ==> !Overreaches(size, bs[|bs| - 1], Pow2(k))
    ensures i < |bs| && bs[i].lo <= r.lo < r.hi <= bs[i].hi
  {
    i := MappedFrom(size, bs, Pow2(k), r);
    if i < |bs| - 1 { BlocksApart(size, bs, i, |bs| - 1); }
    hide Mapped, AllMapped, AlignDown, Pow2;
    MappedInside(size, bs[i], k);
    MappedSmall(size, bs[i], k, r);
  }

  /** Nor is any byte mapped twice. */
  lemma {:induction false} NothingMappedTwice(size: nat, bs: seq<Range>, k: nat)
    requires 12 <= k < 63 && size + Pow2(k) <= LIMIT && ValidBlocks(size, bs) && Pow2(k) <= WORD
    requires bs != [] ==> !Overreaches(size, bs[|bs| - 1], Pow2(k))
    ensures Disjoint(AllMapped(size, bs, Pow2(k)))
  {
    if bs != [] {
      var n, block := |bs| - 1, Pow2(k);
      var before, own := AllMapped(size, bs[..n], block), Mapped(size, bs[n], block);
      if n > 0 { BlocksApart(size, bs, n - 1, n); }
      hide Mapped, AlignDown, Pow2, Disjoint;
      NothingMappedTwice(size, bs[..n], k);
      MappedDisjoint(size, bs[n], k);
      MappedInside(size, bs[n], k);
      forall r | r in before ensures r.hi <= bs[n].lo {
        var i := OnlySharedIsMapped(size, bs[..n], k, r);
        BlocksApart(size, bs, i, n);
      }
      DisjointConcat(before, own, bs[n].lo);
    } else {
      DisjointNone();
    }
  }

  lemma DisjointConcat(rs: seq<Range>, ss: seq<Range>, edge: nat)
    requires Disjoint(rs) && Disjoint(ss)
    requires forall r :: r in rs ==> r.hi <= edge
    requires forall s :: s in ss ==> edge <= s.lo
    ensures Disjoint(rs + ss)
  {
    forall i | 0 <= i < |rs| ensures rs[i].hi <= edge { assert rs[i] in rs; }
    forall i | 0 <= i < |ss| ensures edge <= ss[i].lo { assert ss[i] in ss; }
  }
}
