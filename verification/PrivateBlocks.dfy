/** The private blocks of a partially shared allocation, from the moment they are computed at allocation to
    the moment the blocks of two buffers are intersected for a copy. */
module PrivateBlocks {
  import opened Wire
  import opened Words
  import opened SharedMapping

  /** Sorted, disjoint, none empty. */
  ghost predicate Proper(bs: seq<Range>) {
    && (forall i :: 0 <= i < |bs| ==> bs[i].lo < bs[i].hi)
    && (forall i, j :: 0 <= i < j < |bs| ==> bs[i].hi <= bs[j].lo)
  }

  /** Byte `x` is in one of the blocks. */
  ghost predicate Has(bs: seq<Range>, x: int) {
    exists i :: 0 <= i < |bs| && bs[i].lo <= x < bs[i].hi
  }

  // ---------------------------------------------------------------- complement

  /** The gaps between the first `n` shared blocks, and before the first. */
  function Gaps(bs: seq<Range>, n: nat): seq<Range>
    requires 0 < n <= |bs|
  {
    if n == 1 then (if bs[0].lo > 0 then [Range(0, bs[0].lo)] else [])
    else Gaps(bs, n - 1) + [Range(bs[n - 2].hi, bs[n - 1].lo)]
  }

  /** The private blocks registered with an allocation of `size` bytes. */
  function PrivateOf(size: nat, bs: seq<Range>): seq<Range>
    requires bs != []
  {
    Gaps(bs, |bs|) + if bs[|bs| - 1].hi < size then [Range(bs[|bs| - 1].hi, size)] else []
  }

  lemma {:induction false} GapsProper(size: nat, bs: seq<Range>, n: nat)
    requires 0 < n <= |bs| && ValidBlocks(size, bs)
    ensures Proper(Gaps(bs, n))
    ensures forall i :: 0 <= i < |Gaps(bs, n)| ==> Gaps(bs, n)[i].hi <= bs[n - 1].lo
  {
    if n > 1 { GapsProper(size, bs, n - 1); }
  }

  lemma HasAppend(bs: seq<Range>, b: Range, x: int)
    ensures Has(bs + [b], x) <==> Has(bs, x) || b.lo <= x < b.hi
  {
    if Has(bs, x) { var i :| 0 <= i < |bs| && bs[i].lo <= x < bs[i].hi; assert (bs + [b])[i] == bs[i]; }
    if b.lo <= x < b.hi { assert (bs + [b])[|bs|] == b; }
  }

  lemma {:induction false} GapsComplement(size: nat, bs: seq<Range>, n: nat, x: nat)
    requires 0 < n <= |bs| && ValidBlocks(size, bs) && x < bs[n - 1].hi
    ensures Has(Gaps(bs, n), x) <==> !Has(bs[..n], x)
  {
    assert bs[..n] == bs[..n - 1] + [bs[n - 1]];
    HasAppend(bs[..n - 1], bs[n - 1], x);
    if n == 1 {
      assert Gaps(bs, 1) == [] + Gaps(bs, 1);
      if bs[0].lo > 0 { HasAppend([], Range(0, bs[0].lo), x); }
    } else {
      HasAppend(Gaps(bs, n - 1), Range(bs[n - 2].hi, bs[n - 1].lo), x);
      if x < bs[n - 2].hi { GapsComplement(size, bs, n - 1, x); }
      else { NothingAfter(size, bs, n - 1, x); }
    }
  }

  lemma NothingAfter(size: nat, bs: seq<Range>, n: nat, x: nat)
    requires 0 < n <= |bs| && ValidBlocks(size, bs) && bs[n - 1].hi <= x
    ensures !Has(Gaps(bs, n), x) && !Has(bs[..n], x)
  {
    GapsProper(size, bs, n);
    forall i | 0 <= i < n ensures bs[i].hi <= x { if i < n - 1 { BlocksApart(size, bs, i, n - 1); } }
  }

  /** The private blocks are sorted and disjoint, and hold exactly the bytes of the allocation that are not
      shared. */
  lemma PrivateIsComplement(size: nat, bs: seq<Range>, x: nat)
    requires bs != [] && ValidBlocks(size, bs)
    ensures Proper(PrivateOf(size, bs))
    ensures Has(PrivateOf(size, bs), x) <==> x < size && !Has(bs, x)
  {
    var n := |bs|;
    GapsProper(size, bs, n);
    assert bs[..n] == bs;
    if bs[n - 1].hi < size { HasAppend(Gaps(bs, n), Range(bs[n - 1].hi, size), x); }
    else { assert PrivateOf(size, bs) == Gaps(bs, n); }
    if x < bs[n - 1].hi { GapsComplement(size, bs, n, x); } else { NothingAfter(size, bs, n, x); }
  }

  /** The loop that registers them. */
  method RegisterPrivateBlocks(size: nat, bs: seq<Range>) returns (blocks: seq<Range>)
    requires bs != []
    ensures blocks == PrivateOf(size, bs)
  {
    blocks := [];
    if bs[0].lo > 0 {
      blocks := blocks + [Range(0, bs[0].lo)];
    }
    var i := 0;
    while i < |bs| - 1
      invariant 0 <= i <= |bs| - 1 && blocks == Gaps(bs, i + 1)
    {
      blocks := blocks + [Range(bs[i].hi, bs[i + 1].lo)];
      i := i + 1;
    }
    if bs[i].hi < size {
      blocks := blocks + [Range(bs[i].hi, size)];
    }
  }

  // ---------------------------------------------------------------- s4bxi_is_shared

  /** A registered allocation. */
  datatype Allocation = Allocation(start: nat, size: nat, blocks: seq<Range>)

  datatype Found = Found(offset: nat, blocks: seq<Range>)

  /** The ordered map of allocations: ascending, and no two overlap. */
  ghost predicate Registered(allocs: seq<Allocation>) {
    && (forall i :: 0 <= i < |allocs| ==> allocs[i].size > 0)
    && (forall i, j :: 0 <= i < j < |allocs| ==> allocs[i].start + allocs[i].size <= allocs[j].start)
  }

  /** std::map::lower_bound: the first key that is not below `ptr`. */
  function LowerBound(allocs: seq<Allocation>, ptr: nat): (i: nat)
    ensures i <= |allocs|
    ensures i < |allocs| ==> ptr <= allocs[i].start
    ensures forall j :: 0 <= j < i ==> allocs[j].start < ptr
  {
    if allocs == [] || ptr <= allocs[0].start then 0 else 1 + LowerBound(allocs[1..], ptr)
  }

  /** Which allocation holds `ptr`, looked for one by one. */
  function Scan(allocs: seq<Allocation>, ptr: nat): Option<Found> {
    if allocs == [] then None
    else
      var a := allocs[0];
      if a.start <= ptr < a.start + a.size then Some(Found(ptr - a.start, a.blocks)) else Scan(allocs[1..], ptr)
  }

  lemma {:induction false} ScanFinds(allocs: seq<Allocation>, ptr: nat, k: nat)
    requires k < |allocs| && allocs[k].start <= ptr < allocs[k].start + allocs[k].size
    requires forall j :: 0 <= j < k ==> !(allocs[j].start <= ptr < allocs[j].start + allocs[j].size)
    ensures Scan(allocs, ptr) == Some(Found(ptr - allocs[k].start, allocs[k].blocks))
  {
    if k > 0 { ScanFinds(allocs[1..], ptr, k - 1); }
  }

  lemma {:induction false} ScanMisses(allocs: seq<Allocation>, ptr: nat)
    requires forall j :: 0 <= j < |allocs| ==> !(allocs[j].start <= ptr < allocs[j].start + allocs[j].size)
    ensures Scan(allocs, ptr) == None
  {
    if allocs != [] { ScanMisses(allocs[1..], ptr); }
  }

  /** The lookup through the ordered map agrees with the scan in answer, offset and blocks, and the program's
      own assertion holds. */
  method IsShared(enabled: bool, allocs: seq<Allocation>, ptr: nat) returns (found: Option<Found>)
    requires Registered(allocs)
    ensures found == if enabled then Scan(allocs, ptr) else None
  {
    if allocs == [] || !enabled {
      return None;
    }
    var low := LowerBound(allocs, ptr);
    if low < |allocs| && allocs[low].start == ptr {
      ScanFinds(allocs, ptr, low);
      return Some(Found(0, allocs[low].blocks));
    }
    if low == 0 {
      ScanMisses(allocs, ptr);
      return None;
    }
    low := low - 1;
    if ptr < allocs[low].start + allocs[low].size {
      assert ptr > allocs[low].start;
      ScanFinds(allocs, ptr, low);
      return Some(Found(ptr - allocs[low].start, allocs[low].blocks));
    }
    ScanMisses(allocs, ptr);
    return None;
  }

  // ---------------------------------------------------------------- shift_and_frame_private_blocks

  function Capped(a: nat, limit: nat): nat {
    if a < limit then a else limit
  }

  predicate InWord(b: Range) {
    b.lo < WORD && b.hi < WORD
  }

  function Shifted(b: Range, offset: nat, size: nat): Range
    requires InWord(b) && offset < WORD
  {
    Range(Capped(Minus(b.lo, offset), size), Capped(Minus(b.hi, offset), size))
  }

  predicate Framed(b: Range, size: nat) {
    b.hi > 0 && b.lo < size
  }

  function ShiftAndFrame(bs: seq<Range>, offset: nat, size: nat): seq<Range>
    requires offset < WORD && forall i :: 0 <= i < |bs| ==> InWord(bs[i])
  {
    if bs == [] then []
    else
      var n := |bs| - 1;
      var b := Shifted(bs[n], offset, size);
      ShiftAndFrame(bs[..n], offset, size) + if Framed(b, size) then [b] else []
  }

  method ShiftAndFramePrivateBlocks(bs: seq<Range>, offset: nat, size: nat) returns (result: seq<Range>)
    requires offset < WORD && forall i :: 0 <= i < |bs| ==> InWord(bs[i])
    ensures result == ShiftAndFrame(bs, offset, size)
  {
    result := [];
    var i := 0;
    while i < |bs|
      invariant 0 <= i <= |bs| && result == ShiftAndFrame(bs[..i], offset, size)
    {
      var b := Range(Capped(Minus(bs[i].lo, offset), size), Capped(Minus(bs[i].hi, offset), size));
      if b.hi > 0 && b.lo < size {
        result := result + [b];
      }
      assert bs[..i + 1][..i] == bs[..i];
      i := i + 1;
    }
    assert bs[..i] == bs;
  }

  /** A block that starts before the offset and ends after it. */
  predicate Straddles(b: Range, offset: nat) {
    b.lo < offset < b.hi
  }

  /** One block: what survives of it is its part in the buffer, shifted, except that a straddling block is
      dropped: the wrapped difference sends its start past the end of the buffer. */
  lemma ShiftOne(b: Range, offset: nat, size: nat, x: nat)
    requires InWord(b) && b.lo < b.hi && offset + size <= WORD && offset < WORD
    ensures var s := Shifted(b, offset, size);
      && (Framed(s, size) ==> s.lo < s.hi <= size && offset <= b.lo && s.lo == b.lo - offset && s.hi <= b.hi - offset)
      && (Framed(s, size) && s.lo <= x < s.hi <==>
            x < size && b.lo <= x + offset < b.hi && !Straddles(b, offset))
  {
  }

  lemma {:induction false} ShiftProper(bs: seq<Range>, offset: nat, size: nat)
    requires Proper(bs) && offset < WORD && offset + size <= WORD && forall i :: 0 <= i < |bs| ==> InWord(bs[i])
    ensures Proper(ShiftAndFrame(bs, offset, size)) && |ShiftAndFrame(bs, offset, size)| <= |bs|
    ensures forall k :: 0 <= k < |ShiftAndFrame(bs, offset, size)| ==>
      ShiftAndFrame(bs, offset, size)[k].hi + offset <= bs[|bs| - 1].hi
  {
    if bs != [] {
      var n := |bs| - 1;
      ShiftProper(bs[..n], offset, size);
      ShiftOne(bs[n], offset, size, 0);
      LastIsHighest(bs);
      var before, s := ShiftAndFrame(bs[..n], offset, size), Shifted(bs[n], offset, size);
      hide Shifted, Straddles, ShiftAndFrame, Proper;
      FrameLast(bs, offset, size);
      if Framed(s, size) { ProperAppend(before, s); }
    }
  }

  lemma LastIsHighest(bs: seq<Range>)
    requires Proper(bs) && bs != []
    ensures var n := |bs| - 1; Proper(bs[..n]) && bs[n].lo < bs[n].hi && (n > 0 ==> bs[n - 1].hi <= bs[n].lo)
  {
  }

  lemma ProperAppend(bs: seq<Range>, b: Range)
    requires Proper(bs) && b.lo < b.hi && forall k :: 0 <= k < |bs| ==> bs[k].hi <= b.lo
    ensures Proper(bs + [b])
  {
  }

  lemma FrameLast(bs: seq<Range>, offset: nat, size: nat)
    requires bs != [] && offset < WORD && offset + size <= WORD && forall i :: 0 <= i < |bs| ==> InWord(bs[i])
    ensures var n := |bs| - 1;
      var before, s := ShiftAndFrame(bs[..n], offset, size), Shifted(bs[n], offset, size);
      ShiftAndFrame(bs, offset, size) == if Framed(s, size) then before + [s] else before
  {
  }

  /** Byte `x` of the buffer is in a block that is not dropped. */
  ghost predicate Survives(bs: seq<Range>, offset: nat, x: nat) {
    exists i :: 0 <= i < |bs| && bs[i].lo <= x + offset < bs[i].hi && !Straddles(bs[i], offset)
  }

  lemma SurvivesAppend(bs: seq<Range>, b: Range, offset: nat, x: nat)
    ensures Survives(bs + [b], offset, x) <==>
      Survives(bs, offset, x) || (b.lo <= x + offset < b.hi && !Straddles(b, offset))
  {
    if Survives(bs, offset, x) {
      var i :| 0 <= i < |bs| && bs[i].lo <= x + offset < bs[i].hi && !Straddles(bs[i], offset);
      assert (bs + [b])[i] == bs[i];
    }
    assert (bs + [b])[|bs|] == b;
  }

  lemma {:induction false} ShiftHas(bs: seq<Range>, offset: nat, size: nat, x: nat)
    requires offset < WORD && offset + size <= WORD
    requires forall i :: 0 <= i < |bs| ==> InWord(bs[i]) && bs[i].lo < bs[i].hi
    ensures Has(ShiftAndFrame(bs, offset, size), x) <==> x < size && Survives(bs, offset, x)
  {
    if bs != [] {
      var n := |bs| - 1;
      assert bs == bs[..n] + [bs[n]];
      ShiftHas(bs[..n], offset, size, x);
      ShiftOne(bs[n], offset, size, x);
      HasAppend(ShiftAndFrame(bs[..n], offset, size), Shifted(bs[n], offset, size), x);
      SurvivesAppend(bs[..n], bs[n], offset, x);
      hide Shifted, Survives, Has;
      if !Framed(Shifted(bs[n], offset, size), size) {
        assert ShiftAndFrame(bs, offset, size) == ShiftAndFrame(bs[..n], offset, size);
      }
    }
  }

  /** The framed blocks hold, for every byte of the buffer, what the blocks hold at the offset. */
  ghost predicate FramesExactly(bs: seq<Range>, offset: nat, size: nat)
    requires offset < WORD && forall i :: 0 <= i < |bs| ==> InWord(bs[i])
  {
    forall x: nat {:trigger Has(ShiftAndFrame(bs, offset, size), x)} ::
      Has(ShiftAndFrame(bs, offset, size), x) <==> x < size && Has(bs, x + offset)
  }

  /** Framing is exact precisely if the buffer is empty or no private block straddles its start; either way the
      result is sorted and disjoint. */
  lemma FramingExact(bs: seq<Range>, offset: nat, size: nat)
    requires Proper(bs) && offset < WORD && offset + size <= WORD && forall i :: 0 <= i < |bs| ==> InWord(bs[i])
    ensures Proper(ShiftAndFrame(bs, offset, size))
    ensures FramesExactly(bs, offset, size) <==> size == 0 || forall i :: 0 <= i < |bs| ==> !Straddles(bs[i], offset)
  {
    ShiftProper(bs, offset, size);
    forall x: nat ensures Has(ShiftAndFrame(bs, offset, size), x) <==> x < size && Survives(bs, offset, x) {
      ShiftHas(bs, offset, size, x);
    }
    hide ShiftAndFrame;
    if k :| 0 <= k < |bs| && Straddles(bs[k], offset) && size > 0 {
      assert Has(bs, 0 + offset);
      assert !Survives(bs, offset, 0);
      assert !(Has(ShiftAndFrame(bs, offset, size), 0) <==> 0 < size && Has(bs, 0 + offset));
    }
  }

  // ---------------------------------------------------------------- merge_private_blocks

  /** Both lists still hold byte `x` from `i` and `j` on. */
  ghost predicate Both(a: seq<Range>, b: seq<Range>, i: nat, j: nat, x: int)
    requires i <= |a| && j <= |b|
  {
    Has(a[i..], x) && Has(b[j..], x)
  }

  lemma HasHead(bs: seq<Range>, i: nat, x: int)
    requires i < |bs| && Proper(bs)
    ensures Has(bs[i..], x) <==> bs[i].lo <= x < bs[i].hi || Has(bs[i + 1..], x)
    ensures x < bs[i].lo ==> !Has(bs[i..], x)
    ensures x < bs[i].hi ==> !Has(bs[i + 1..], x)
  {
    if Has(bs[i..], x) {
      var k :| 0 <= k < |bs[i..]| && bs[i..][k].lo <= x < bs[i..][k].hi;
      if k > 0 { assert bs[i + 1..][k - 1] == bs[i..][k]; }
    }
    if bs[i].lo <= x < bs[i].hi { assert bs[i..][0] == bs[i]; }
    if Has(bs[i + 1..], x) {
      var k :| 0 <= k < |bs[i + 1..]| && bs[i + 1..][k].lo <= x < bs[i + 1..][k].hi;
      assert bs[i..][k + 1] == bs[i + 1..][k];
    }
  }

  /** A block that ends before the other list starts adds nothing. */
  lemma SkipBlock(a: seq<Range>, b: seq<Range>, i: nat, j: nat, x: int)
    requires Proper(a) && Proper(b) && i < |a| && j < |b| && a[i].hi <= b[j].lo
    ensures Both(a, b, i, j, x) <==> Both(a, b, i + 1, j, x)
    ensures Both(b, a, j, i, x) <==> Both(b, a, j, i + 1, x)
  {
    HasHead(a, i, x);
    HasHead(b, j, x);
  }

  /** Of two overlapping blocks, the one that ends first contributes its overlap and is done with. */
  lemma TakeBlock(a: seq<Range>, b: seq<Range>, i: nat, j: nat, x: int)
    requires Proper(a) && Proper(b) && i < |a| && j < |b|
    requires a[i].hi > b[j].lo && b[j].hi > a[i].lo && a[i].hi <= b[j].hi
    ensures Both(a, b, i, j, x) <==> (Max(a[i].lo, b[j].lo) <= x < a[i].hi) || Both(a, b, i + 1, j, x)
    ensures Both(b, a, j, i, x) <==> (Max(a[i].lo, b[j].lo) <= x < a[i].hi) || Both(b, a, j, i + 1, x)
  {
    HasHead(a, i, x);
    HasHead(b, j, x);
  }

  function Max(a: nat, b: nat): nat {
    if a < b then b else a
  }

  function Min(a: nat, b: nat): nat {
    if a < b then a else b
  }

  /** Nothing found so far reaches past the later of the two current blocks' starts. */
  ghost predicate Behind(result: seq<Range>, src: seq<Range>, dst: seq<Range>, i: nat, j: nat) {
    i < |src| && j < |dst| ==> forall k :: 0 <= k < |result| ==> result[k].hi <= Max(src[i].lo, dst[j].lo)
  }

  /** The blocks common to two lists. */
  method MergePrivateBlocks(src: seq<Range>, dst: seq<Range>) returns (result: seq<Range>)
    requires Proper(src) && Proper(dst)
    ensures Proper(result)
    ensures forall x :: Has(result, x) <==> Has(src, x) && Has(dst, x)
    ensures |result| <= if src == [] || dst == [] then 0 else |src| + |dst| - 1
  {
    hide Has;
    result := [];
    var i, j := 0, 0;
    assert src[0..] == src && dst[0..] == dst;
    NothingIn();
    while i < |src| && j < |dst|
      invariant 0 <= i <= |src| && 0 <= j <= |dst| && Proper(result) && Behind(result, src, dst, i, j)
      invariant |result| <= i + j
      invariant if src == [] || dst == [] then result == [] else i + j < |src| + |dst|
      invariant forall x :: Has(src, x) && Has(dst, x) <==> Has(result, x) || Both(src, dst, i, j, x)
      decreases |src| + |dst| - i - j
    {
      if src[i].hi <= dst[j].lo {
        forall x ensures Both(src, dst, i, j, x) <==> Both(src, dst, i + 1, j, x) { SkipBlock(src, dst, i, j, x); }
        i := i + 1;
      } else if dst[j].hi <= src[i].lo {
        forall x ensures Both(src, dst, i, j, x) <==> Both(src, dst, i, j + 1, x) { SkipBlock(dst, src, j, i, x); }
        j := j + 1;
      } else {
        var block := Range(Max(src[i].lo, dst[j].lo), Min(src[i].hi, dst[j].hi));
        forall x ensures Has(result + [block], x) <==> Has(result, x) || block.lo <= x < block.hi {
          HasAppend(result, block, x);
        }
        result := result + [block];
        if src[i].hi < dst[j].hi {
          forall x ensures Both(src, dst, i, j, x) <==> block.lo <= x < block.hi || Both(src, dst, i + 1, j, x) {
            TakeBlock(src, dst, i, j, x);
          }
          i := i + 1;
        } else {
          forall x ensures Both(src, dst, i, j, x) <==> block.lo <= x < block.hi || Both(src, dst, i, j + 1, x) {
            TakeBlock(dst, src, j, i, x);
          }
          j := j + 1;
        }
      }
    }
    assert src[i..] == [] || dst[j..] == [];
  }

  lemma NothingIn()
    ensures forall x :: !Has([], x)
  {
  }

  lemma PrivateInWord(size: nat, bs: seq<Range>)
    requires bs != [] && ValidBlocks(size, bs) && size < WORD
    ensures forall i :: 0 <= i < |PrivateOf(size, bs)| ==> InWord(PrivateOf(size, bs)[i])
  {
    GapsProper(size, bs, |bs|);
    var gaps := Gaps(bs, |bs|);
    forall i | 0 <= i < |gaps| ensures InWord(gaps[i]) { assert gaps[i].lo < gaps[i].hi <= bs[|bs| - 1].lo; }
  }

  /** From allocation to buffer: for a buffer within an allocation, whose start is not inside a private block,
      the framed blocks hold exactly the bytes of the buffer that are not shared. */
  lemma PipelineExact(size: nat, shared: seq<Range>, offset: nat, length: nat, x: nat)
    requires shared != [] && ValidBlocks(size, shared) && size < WORD && offset + length <= size
    requires forall i :: 0 <= i < |PrivateOf(size, shared)| ==> !Straddles(PrivateOf(size, shared)[i], offset)
    ensures forall i :: 0 <= i < |PrivateOf(size, shared)| ==> InWord(PrivateOf(size, shared)[i])
    ensures Has(ShiftAndFrame(PrivateOf(size, shared), offset, length), x) <==> x < length && !Has(shared, x + offset)
  {
    PrivateInWord(size, shared);
    PrivateIsComplement(size, shared, x + offset);
    FramingExact(PrivateOf(size, shared), offset, length);
    hide ShiftAndFrame, PrivateOf, Has;
  }
}
