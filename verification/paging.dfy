/** Local pagination: a Python slice of the items from `(page - 1) * size` up to `size`
    items further, for any integers, including the negative indices Python counts from
    the end. */
module Paging {
  import opened OrderedMaps

  /** CPython's adjustment of one slice bound against a sequence of length `n`. */
  function AdjustIndex(i: int, n: nat): (r: nat)
    ensures r <= n
    ensures 0 <= i <= n ==> r == i
  {
    if i < 0 then (if i + n < 0 then 0 else i + n)
    else if i > n then n
    else i
  }

  /** Python's slice of `xs` from `start` to `end`, step 1. */
  function PySlice<T>(xs: seq<T>, start: int, end: int): seq<T> {
    var a, b := AdjustIndex(start, |xs|), AdjustIndex(end, |xs|);
    if a < b then xs[a..b] else []
  }

  /** The offset of page `page` when pages hold `size` items. */
  function Offset(page: int, size: int): int {
    (page - 1) * size
  }

  /** The items of page `page`, as the services slice them locally. */
  function Page<T>(xs: seq<T>, page: int, size: int): seq<T> {
    var start := Offset(page, size);
    PySlice(xs, start, start + size)
  }

  /** A slice is a contiguous run of the sequence. */
  lemma SliceIsRun<T>(xs: seq<T>, start: int, end: int)
    ensures var a := AdjustIndex(start, |xs|);
      && a + |PySlice(xs, start, end)| <= |xs|
      && PySlice(xs, start, end) == xs[a..a + |PySlice(xs, start, end)|]
  {
  }

  /** A slice whose bounds are ordered holds at most `end - start` items, whatever their sign. */
  lemma SliceBound<T>(xs: seq<T>, start: int, end: int)
    requires start <= end
    ensures |PySlice(xs, start, end)| <= end - start
  {
  }

  /** A page never holds more than `size` items, for any page number. */
  lemma PageBound<T>(xs: seq<T>, page: int, size: int)
    requires 0 <= size
    ensures |Page(xs, page, size)| <= size
  {
    var start := Offset(page, size);
    SliceBound(xs, start, start + size);
  }

  /** For a page number from 1 up, the page is exactly the items from the offset on,
      up to `size` of them, and empty when the offset is past the end. */
  lemma PageContents<T>(xs: seq<T>, page: int, size: int)
    requires 1 <= page && 0 <= size
    ensures var start, r := Offset(page, size), Page(xs, page, size);
      && 0 <= start
      && |r| == (if start >= |xs| then 0 else if |xs| - start < size then |xs| - start else size)
      && forall i :: 0 <= i < |r| ==> r[i] == xs[start + i]
  {
    var start, r := Offset(page, size), Page(xs, page, size);
    var pages: nat := page - 1;
    assert start == pages * size;
    assert 0 <= start by {
      NatProduct(pages, size);
    }
    if start >= |xs| {
      assert r == [];
    } else if |xs| - start < size {
      assert r == xs[start..];
    } else {
      assert r == xs[start..start + size];
    }
  }

  lemma NatProduct(a: nat, b: nat)
    ensures 0 <= a * b
  {
  }

  /** Consecutive pages are adjacent: page `p + 1` starts where page `p` ends, and page 1 at 0. */
  lemma PagesAdjacent(page: int, size: int)
    ensures Offset(1, size) == 0
    ensures Offset(page + 1, size) == Offset(page, size) + size
  {
  }

  /** Pages `p` and `p + 1` together are the slice covering both: pages tile the sequence
      with neither gap nor overlap. */
  lemma PagesTile<T>(xs: seq<T>, page: int, size: int)
    requires 1 <= page && 0 <= size
    ensures Page(xs, page, size) + Page(xs, page + 1, size)
      == PySlice(xs, Offset(page, size), Offset(page, size) + 2 * size)
  {
    PagesAdjacent(page, size);
    var start := Offset(page, size);
    var pages: nat := page - 1;
    assert start == pages * size;
    assert 0 <= start by {
      NatProduct(pages, size);
    }
  }

  /** One page of an insertion-ordered dict's items, rebuilt into a dict. */
  function PagedDict<K(==,!new), V>(d: seq<(K, V)>, page: int, size: int): (r: seq<(K, V)>)
    ensures Distinct(Keys(r))
  {
    Collect(Page(d, page, size))
  }

  /** Paging a dict keeps its keys distinct, so rebuilding a dict from the page changes nothing. */
  lemma PagedDictIsPage<K(!new), V>(d: seq<(K, V)>, page: int, size: int)
    requires Distinct(Keys(d))
    ensures PagedDict(d, page, size) == Page(d, page, size)
  {
    var start := Offset(page, size);
    SliceIsRun(d, start, start + size);
    var a := AdjustIndex(start, |d|);
    var r := Page(d, page, size);
    assert Keys(r) == Keys(d)[a..a + |r|];
    CollectDistinct(r);
  }
}
