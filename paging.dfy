/**
 * LINQ Skip/Take paging as the catalog queries use it:
 * `.Skip(pageSize * pageIndex).Take(pageSize)`, where the offset is computed
 * in unchecked 32-bit arithmetic.
 */
module Paging {
  import opened Int32

  /** Enumerable.Skip: a count at or below zero skips nothing. */
  function Skip<T>(s: seq<T>, count: int): (r: seq<T>)
    ensures count <= 0 ==> r == s
    ensures 0 <= count <= |s| ==> r == s[count..]
    ensures count >= |s| ==> r == []
  {
    if count <= 0 then s else if count >= |s| then [] else s[count..]
  }

  /** Enumerable.Take: a count at or below zero takes nothing. */
  function Take<T>(s: seq<T>, count: int): (r: seq<T>)
    ensures count <= 0 ==> r == []
    ensures 0 <= count <= |s| ==> r == s[..count]
    ensures count >= |s| ==> r == s
  {
    if count <= 0 then [] else if count >= |s| then s else s[..count]
  }

  /** The offset the queries skip: `pageSize * pageIndex`, wrapped to 32 bits. */
  function Offset(pageSize: int, pageIndex: int): (r: int)
    requires IsInt32(pageSize) && IsInt32(pageIndex)
    ensures IsInt32(r) && (r - pageSize * pageIndex) % Modulus == 0
    ensures IsInt32(pageSize * pageIndex) ==> r == pageSize * pageIndex
  {
    Multiply(pageSize, pageIndex)
  }

  /**
   * One page: at most max(pageSize, 0) consecutive elements of `s`, starting
   * at the offset (or at the front when the offset is negative).
   */
  function Page<T>(s: seq<T>, pageSize: int, pageIndex: int): (r: seq<T>)
    requires IsInt32(pageSize) && IsInt32(pageIndex)
    ensures |r| <= if pageSize > 0 then pageSize else 0
    ensures var start := if Offset(pageSize, pageIndex) <= 0 then 0
                         else if Offset(pageSize, pageIndex) >= |s| then |s|
                         else Offset(pageSize, pageIndex);
            && start + |r| <= |s| && r == s[start..start + |r|]
            && (pageSize > 0 ==> |r| == if start + pageSize <= |s| then pageSize else |s| - start)
  {
    Take(Skip(s, Offset(pageSize, pageIndex)), pageSize)
  }

  /** A page whose offset does not overflow is the slice from the offset, pageSize long or to the end. */
  lemma PageSlice<T>(s: seq<T>, pageSize: int, pageIndex: int, offset: int)
    requires IsInt32(pageSize) && IsInt32(pageIndex) && pageSize > 0
    requires offset == pageSize * pageIndex && IsInt32(offset) && offset >= 0
    ensures var start := if offset <= |s| then offset else |s|;
            var end := if offset + pageSize <= |s| then offset + pageSize else |s|;
            Page(s, pageSize, pageIndex) == s[start..end]
  {
    assert Offset(pageSize, pageIndex) == offset;
  }

  lemma PreviousOffset(pageSize: int, count: int)
    requires pageSize > 0 && count >= 1
    ensures pageSize * count == pageSize * (count - 1) + pageSize
    ensures 0 <= pageSize * (count - 1)
    ensures IsInt32(pageSize * count) ==> IsInt32(pageSize * (count - 1))
  {
  }

  /** Every element of a page is an element of the sequence. */
  lemma PageWithin<T>(s: seq<T>, pageSize: int, pageIndex: int)
    requires IsInt32(pageSize) && IsInt32(pageIndex)
    ensures forall x :: x in Page(s, pageSize, pageIndex) ==> x in s
  {
    var r := Page(s, pageSize, pageIndex);
    var off := Offset(pageSize, pageIndex);
    var start := if off <= 0 then 0 else if off >= |s| then |s| else off;
    SliceWithin(s, start, start + |r|);
  }

  /** Every element of a slice is an element of the sequence. */
  lemma SliceWithin<T>(s: seq<T>, i: int, j: int)
    requires 0 <= i <= j <= |s|
    ensures forall x :: x in s[i..j] ==> x in s
  {
    forall x | x in s[i..j] ensures x in s {
      var k :| i <= k < j && s[k] == x;
    }
  }

  /** Pages 0 to count - 1, one after another. */
  function Pages<T>(s: seq<T>, pageSize: int, count: nat): seq<T>
    requires IsInt32(pageSize) && pageSize > 0 && IsInt32(count) && IsInt32(pageSize * count)
  {
    if count == 0 then []
    else
      PreviousOffset(pageSize, count);
      Pages(s, pageSize, count - 1) + Page(s, pageSize, count - 1)
  }

  /**
   * While the offset does not overflow, consecutive pages tile the sequence:
   * the first `count` pages are exactly its first count * pageSize elements.
   */
  lemma {:induction false} PagesTile<T>(s: seq<T>, pageSize: int, count: nat)
    requires IsInt32(pageSize) && pageSize > 0 && IsInt32(count) && IsInt32(pageSize * count)
    ensures Pages(s, pageSize, count) == s[..if pageSize * count <= |s| then pageSize * count else |s|]
  {
    if count > 0 {
      PreviousOffset(pageSize, count);
      PagesTile(s, pageSize, count - 1);
      var before := pageSize * (count - 1);
      PageSlice(s, pageSize, count - 1, before);
      var start := if before >= |s| then |s| else before;
      var end := if before + pageSize <= |s| then before + pageSize else |s|;
      SliceJoin(s, start, end);
    }
  }

  lemma SliceJoin<T>(s: seq<T>, i: int, j: int)
    requires 0 <= i <= j <= |s|
    ensures s[..i] + s[i..j] == s[..j]
  {
    assert forall k :: 0 <= k < j ==> (s[..i] + s[i..j])[k] == s[k];
  }

  /**
   * The unchecked product wraps: with 65536 items per page, page 32768 starts
   * at offset -2^31, so it is the first page again.
   */
  lemma OverflowedOffsetRestarts<T>(s: seq<T>)
    ensures Offset(65536, 32768) == MinInt32
    ensures Page(s, 65536, 32768) == Page(s, 65536, 0)
  {
    assert 65536 * 32768 == 0x8000_0000;
  }
}
