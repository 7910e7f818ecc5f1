/** The filter, slice, page-count and page-button logic that the four admin and provider
    listing screens (AdminBookings, ProviderBookings, AdminServices, AdminUsers) each
    repeat with their own predicate and page size, and the state those screens keep. */
module Listing {

  // ---------------------------------------------------------------------------
  // Filtering: Array.prototype.filter
  // ---------------------------------------------------------------------------

  function Filter<T(==)>(xs: seq<T>, keep: T -> bool): (r: seq<T>)
    ensures |r| <= |xs|
    ensures forall k :: 0 <= k < |r| ==> keep(r[k]) && r[k] in xs
    ensures forall k :: 0 <= k < |xs| && keep(xs[k]) ==> xs[k] in r
    decreases |xs|
  {
    if xs == [] then []
    else if keep(xs[0]) then [xs[0]] + Filter(xs[1..], keep)
    else Filter(xs[1..], keep)
  }

  /** r consists of the elements of xs at the strictly increasing positions idx. */
  ghost predicate AtPositions<T>(r: seq<T>, xs: seq<T>, idx: seq<int>) {
    && |idx| == |r|
    && (forall k :: 0 <= k < |idx| ==> 0 <= idx[k] < |xs| && r[k] == xs[idx[k]])
    && (forall k, l :: 0 <= k < l < |idx| ==> idx[k] < idx[l])
  }

  function Shifted(idx: seq<int>): (r: seq<int>)
    ensures |r| == |idx| && forall k :: 0 <= k < |idx| ==> r[k] == idx[k] + 1
  {
    seq(|idx|, k requires 0 <= k < |idx| => idx[k] + 1)
  }

  /** The positions of xs whose element passes the predicate, in increasing order. */
  ghost function KeptPositions<T>(xs: seq<T>, keep: T -> bool): (idx: seq<int>)
    ensures forall k :: 0 <= k < |idx| ==> 0 <= idx[k] < |xs|
    decreases |xs|
  {
    if xs == [] then []
    else (if keep(xs[0]) then [0] else []) + Shifted(KeptPositions(xs[1..], keep))
  }

  lemma {:induction false} KeptPositionsExact<T>(xs: seq<T>, keep: T -> bool, j: int)
    requires 0 <= j < |xs|
    ensures keep(xs[j]) <==> j in KeptPositions(xs, keep)
    decreases |xs|
  {
    var sh := Shifted(KeptPositions(xs[1..], keep));
    if j == 0 {
      assert 0 !in sh;
    } else {
      KeptPositionsExact(xs[1..], keep, j - 1);
      assert xs[j] == xs[1..][j - 1];
      assert j in sh <==> j - 1 in KeptPositions(xs[1..], keep);
    }
  }

  lemma ShiftedSelect<T>(rest: seq<T>, xs: seq<T>, idx: seq<int>)
    requires xs != [] && AtPositions(rest, xs[1..], idx)
    ensures AtPositions(rest, xs, Shifted(idx))
    ensures forall k :: 0 <= k < |idx| ==> 1 <= Shifted(idx)[k]
  {
    var sh := Shifted(idx);
    forall k | 0 <= k < |sh|
      ensures 0 <= sh[k] < |xs| && rest[k] == xs[sh[k]]
    {
      assert xs[sh[k]] == xs[1..][idx[k]];
    }
  }

  lemma ConsSelect<T>(x: T, rest: seq<T>, xs: seq<T>, idx: seq<int>)
    requires xs != [] && x == xs[0] && AtPositions(rest, xs, idx)
    requires forall k :: 0 <= k < |idx| ==> 1 <= idx[k]
    ensures AtPositions([x] + rest, xs, [0] + idx)
  {
    var r, ix := [x] + rest, [0] + idx;
    forall k | 0 <= k < |ix|
      ensures 0 <= ix[k] < |xs| && r[k] == xs[ix[k]]
    {
      if k > 0 {
        assert r[k] == rest[k - 1] && ix[k] == idx[k - 1];
      }
    }
    forall k, l | 0 <= k < l < |ix|
      ensures ix[k] < ix[l]
    {
      if k > 0 {
        assert ix[k] == idx[k - 1] && ix[l] == idx[l - 1];
      }
    }
  }

  lemma {:induction false} KeptPositionsSelect<T>(xs: seq<T>, keep: T -> bool)
    ensures AtPositions(Filter(xs, keep), xs, KeptPositions(xs, keep))
    decreases |xs|
  {
    if xs != [] {
      var rest := Filter(xs[1..], keep);
      var idx := KeptPositions(xs[1..], keep);
      KeptPositionsSelect(xs[1..], keep);
      ShiftedSelect(rest, xs, idx);
      if keep(xs[0]) {
        ConsSelect(xs[0], rest, xs, Shifted(idx));
        assert Filter(xs, keep) == [xs[0]] + rest;
        assert KeptPositions(xs, keep) == [0] + Shifted(idx);
      } else {
        assert Filter(xs, keep) == rest;
        assert KeptPositions(xs, keep) == [] + Shifted(idx);
      }
    }
  }

  /** The filter keeps the order of the list: its result is the list restricted to exactly
      the positions whose element satisfies the predicate. */
  lemma FilterKeepsOrder<T>(xs: seq<T>, keep: T -> bool)
    ensures exists idx :: AtPositions(Filter(xs, keep), xs, idx) &&
                          forall j :: 0 <= j < |xs| ==> (keep(xs[j]) <==> j in idx)
  {
    var idx := KeptPositions(xs, keep);
    KeptPositionsSelect(xs, keep);
    forall j | 0 <= j < |xs|
      ensures keep(xs[j]) <==> j in idx
    {
      KeptPositionsExact(xs, keep, j);
    }
  }

  /** Filtering a concatenation filters each part. */
  lemma {:induction false} FilterAppend<T>(a: seq<T>, b: seq<T>, keep: T -> bool)
    ensures Filter(a + b, keep) == Filter(a, keep) + Filter(b, keep)
    decreases |a|
  {
    if a == [] {
      assert a + b == b;
    } else {
      assert (a + b)[0] == a[0];
      assert (a + b)[1..] == a[1..] + b;
      FilterAppend(a[1..], b, keep);
    }
  }

  /** A list every element of which passes the predicate is kept whole. */
  lemma {:induction false} FilterKeepsAll<T>(xs: seq<T>, keep: T -> bool)
    requires forall k :: 0 <= k < |xs| ==> keep(xs[k])
    ensures Filter(xs, keep) == xs
    decreases |xs|
  {
    if xs != [] {
      FilterKeepsAll(xs[1..], keep);
    }
  }

  /** A list no element of which passes the predicate filters to the empty list. */
  lemma {:induction false} FilterKeepsNone<T>(xs: seq<T>, keep: T -> bool)
    requires forall k :: 0 <= k < |xs| ==> !keep(xs[k])
    ensures Filter(xs, keep) == []
    decreases |xs|
  {
    if xs != [] {
      FilterKeepsNone(xs[1..], keep);
    }
  }

  /** When exactly the element at position j passes, the filter yields that one. */
  lemma {:induction false} FilterExactlyOne<T>(xs: seq<T>, keep: T -> bool, j: int)
    requires 0 <= j < |xs| && keep(xs[j])
    requires forall k :: 0 <= k < |xs| && k != j ==> !keep(xs[k])
    ensures Filter(xs, keep) == [xs[j]]
    decreases |xs|
  {
    var tail := xs[1..];
    assert forall k :: 0 <= k < |tail| ==> tail[k] == xs[k + 1];
    if j == 0 {
      FilterKeepsNone(tail, keep);
    } else {
      FilterExactlyOne(tail, keep, j - 1);
    }
  }

  /** When exactly the elements at positions i < j pass, the filter yields those two, in
      that order. */
  lemma {:induction false} FilterExactlyTwo<T>(xs: seq<T>, keep: T -> bool, i: int, j: int)
    requires 0 <= i < j < |xs| && keep(xs[i]) && keep(xs[j])
    requires forall k :: 0 <= k < |xs| && k != i && k != j ==> !keep(xs[k])
    ensures Filter(xs, keep) == [xs[i], xs[j]]
    decreases |xs|
  {
    var tail := xs[1..];
    assert forall k :: 0 <= k < |tail| ==> tail[k] == xs[k + 1];
    if i == 0 {
      FilterExactlyOne(tail, keep, j - 1);
    } else {
      FilterExactlyTwo(tail, keep, i - 1, j - 1);
    }
  }

  /** Re-filtering a filtered list with the same predicate changes nothing. */
  lemma FilterIdempotent<T>(xs: seq<T>, keep: T -> bool)
    ensures Filter(Filter(xs, keep), keep) == Filter(xs, keep)
  {
    FilterKeepsAll(Filter(xs, keep), keep);
  }

  /** The filtered suffix from position k is the element at k, when it passes, followed by the
      filtered suffix from k + 1. */
  lemma FilterPrefixStep<T>(xs: seq<T>, keep: T -> bool, k: int)
    requires 0 <= k < |xs|
    ensures Filter(xs[k..], keep) == (if keep(xs[k]) then [xs[k]] else []) + Filter(xs[k + 1..], keep)
  {
    assert xs[k..][0] == xs[k];
    assert xs[k..][1..] == xs[k + 1..];
  }

  /** Appending one element to the list adds it to the filtered list exactly when it passes. */
  lemma FilterSnoc<T>(xs: seq<T>, x: T, keep: T -> bool)
    ensures Filter(xs + [x], keep) == Filter(xs, keep) + (if keep(x) then [x] else [])
  {
    FilterAppend(xs, [x], keep);
    assert [x][1..] == [];
  }

  // ---------------------------------------------------------------------------
  // Pagination: slice, Math.ceil, and the current page's items
  // ---------------------------------------------------------------------------

  function Min(a: int, b: int): int { if a <= b then a else b }

  /** How `Array.prototype.slice` normalises an index: negative counts from the end. */
  function SliceIndex(i: int, n: nat): (r: nat)
    ensures r <= n
  {
    if i < 0 then (if n + i < 0 then 0 else n + i) else Min(i, n)
  }

  /** `xs.slice(start, end)`. */
  function Slice<T>(xs: seq<T>, start: int, end: int): seq<T> {
    var s := SliceIndex(start, |xs|);
    var e := SliceIndex(end, |xs|);
    if s < e then xs[s..e] else []
  }

  /** The items of page `page` (numbered from 1):
      `xs.slice(page * size - size, page * size)`. */
  function PageItems<T>(xs: seq<T>, page: int, size: int): (r: seq<T>)
    ensures 0 < size && 1 <= page ==>
              (page - 1) * size <= |xs| ==> r == xs[(page - 1) * size..Min(page * size, |xs|)]
    ensures 0 < size && 1 <= page ==> |xs| < (page - 1) * size ==> r == []
    ensures 0 < size ==> |r| <= size
    ensures page == 0 ==> r == []
  {
    MulStep(page, size);
    Slice(xs, page * size - size, page * size)
  }

  lemma MulStep(page: int, size: int)
    ensures page * size - size == (page - 1) * size
    ensures 0 < size && 1 <= page ==> 0 <= (page - 1) * size
    ensures 0 < size && page == 0 ==> page * size == 0
  {
  }

  lemma CeilDivBounds(n: nat, size: int)
    requires 0 < size
    ensures var t := (n + size - 1) / size;
            0 <= t && (n == 0 <==> t == 0) && n <= t * size && (0 < t ==> (t - 1) * size < n)
  {
    var t := (n + size - 1) / size;
    var m := (n + size - 1) % size;
    assert n + size - 1 == t * size + m;
    assert (t - 1) * size == t * size - size;
  }

  /** `Math.ceil(n / size)`. */
  function TotalPages(n: nat, size: int): (t: nat)
    requires 0 < size
    ensures n == 0 <==> t == 0
    ensures n <= t * size
    ensures 0 < t ==> (t - 1) * size < n
  {
    CeilDivBounds(n, size);
    (n + size - 1) / size
  }

  /** The pages 1 .. k put back together. */
  function PagesThrough<T>(xs: seq<T>, size: int, k: nat): seq<T> {
    if k == 0 then [] else PagesThrough(xs, size, k - 1) + PageItems(xs, k, size)
  }

  /** Page k is the stretch between the first (k - 1) * size and the first k * size items. */
  lemma PageBetween<T>(xs: seq<T>, size: int, k: int)
    requires 0 < size && 1 <= k
    ensures Min((k - 1) * size, |xs|) <= Min(k * size, |xs|)
    ensures PageItems(xs, k, size) == xs[Min((k - 1) * size, |xs|)..Min(k * size, |xs|)]
  {
    MulStep(k, size);
    if |xs| < (k - 1) * size {
      assert Min((k - 1) * size, |xs|) == |xs| == Min(k * size, |xs|);
    }
  }

  lemma PrefixThenStretch<T>(xs: seq<T>, lo: int, hi: int)
    requires 0 <= lo <= hi <= |xs|
    ensures xs[..lo] + xs[lo..hi] == xs[..hi]
  {
  }

  /** Pages 1 .. k together are the first k * size items, in order, with nothing repeated. */
  lemma {:induction false} PagesThroughArePrefix<T>(xs: seq<T>, size: int, k: nat)
    requires 0 < size
    ensures PagesThrough(xs, size, k) == xs[..Min(k * size, |xs|)]
  {
    if k > 0 {
      var lo := Min((k - 1) * size, |xs|);
      var hi := Min(k * size, |xs|);
      PageBetween(xs, size, k);
      calc {
        PagesThrough(xs, size, k);
        PagesThrough(xs, size, k - 1) + PageItems(xs, k, size);
        { PagesThroughArePrefix(xs, size, k - 1); }
        xs[..lo] + xs[lo..hi];
        { PrefixThenStretch(xs, lo, hi); }
        xs[..hi];
      }
    }
  }

  /** Pages 1 .. totalPages partition the filtered list: concatenated, they give it back. */
  lemma PagesPartitionList<T>(xs: seq<T>, size: int)
    requires 0 < size
    ensures PagesThrough(xs, size, TotalPages(|xs|, size)) == xs
  {
    PagesThroughArePrefix(xs, size, TotalPages(|xs|, size));
  }

  /** A page past the last one is empty (the current page is not reset when a filter
      shrinks the list). */
  lemma PageBeyondEndIsEmpty<T>(xs: seq<T>, page: int, size: int)
    requires 0 < size && TotalPages(|xs|, size) < page
    ensures PageItems(xs, page, size) == []
  {
    var t := TotalPages(|xs|, size);
    assert t * size <= (page - 1) * size by {
      assert t <= page - 1;
      MulMono(t, page - 1, size);
    }
    if |xs| == (page - 1) * size {
      assert xs[(page - 1) * size..Min(page * size, |xs|)] == [];
    }
  }

  lemma MulMono(a: int, b: int, c: int)
    requires a <= b && 0 < c
    ensures a * c <= b * c
  {
  }

  // ---------------------------------------------------------------------------
  // The page buttons
  // ---------------------------------------------------------------------------

  /** The number written on the i-th of the (at most five) page buttons. */
  function WindowPage(current: int, total: int, i: int): int {
    if total <= 5 then i + 1
    else if current <= 3 then i + 1
    else if current >= total - 2 then total - 4 + i
    else current - 2 + i
  }

  /** `Array.from({ length: Math.min(totalPages, 5) }).map(...)`: the page buttons shown. */
  function PageWindow(current: int, total: nat): (w: seq<int>)
    ensures |w| == Min(total, 5)
    ensures forall i :: 0 <= i < |w| ==> 1 <= w[i] <= total
    ensures forall i :: 0 <= i < |w| - 1 ==> w[i + 1] == w[i] + 1
    ensures 1 <= current <= total ==> current in w
  {
    var w := seq(Min(total, 5), i requires 0 <= i < Min(total, 5) => WindowPage(current, total, i));
    assert 1 <= current <= total ==> w[current - WindowPage(current, total, 0)] == current;
    w
  }

  /** The "previous" arrow: `Math.max(1, currentPage - 1)`. */
  function PrevPage(current: int): (p: int)
    ensures 1 <= p
    ensures 2 <= current ==> p == current - 1
    ensures current <= 2 ==> p == 1
  {
    if current - 1 < 1 then 1 else current - 1
  }

  /** The "next" arrow: `Math.min(totalPages, currentPage + 1)`. */
  function NextPage(current: int, total: nat): (p: int)
    ensures p <= total
    ensures current < total ==> p == current + 1
    ensures 1 <= current <= total ==> 1 <= p
    ensures total == 0 && 0 <= current ==> p == 0
  {
    if total < current + 1 then total else current + 1
  }

  // ---------------------------------------------------------------------------
  // The state of a listing screen
  // ---------------------------------------------------------------------------

  /** The state every listing screen keeps: its search term, its drop-down filter of type F,
      its current page; the page size is fixed when the screen is created. Changing the term
      or the drop-down does not reset the current page. */
  class ListingScreen<F> {
    var searchTerm: string
    var filter: F
    var currentPage: int
    const pageSize: int

    constructor (initialFilter: F, size: int)
      ensures searchTerm == "" && filter == initialFilter && currentPage == 1 && pageSize == size
    {
      searchTerm := "";
      filter := initialFilter;
      currentPage := 1;
      pageSize := size;
    }

    method SetSearchTerm(term: string)
      modifies this
      ensures searchTerm == term
      ensures filter == old(filter) && currentPage == old(currentPage)
    {
      searchTerm := term;
    }

    method SetFilter(f: F)
      modifies this
      ensures filter == f
      ensures searchTerm == old(searchTerm) && currentPage == old(currentPage)
    {
      filter := f;
    }

    /** `handlePageChange(page)`, as a page-number button calls it. */
    method ChangePage(page: int)
      modifies this
      ensures currentPage == page
      ensures searchTerm == old(searchTerm) && filter == old(filter)
    {
      currentPage := page;
    }

    /** A click on the "previous" arrow, which is disabled on page 1. */
    method PressPrevious()
      modifies this
      ensures currentPage == if old(currentPage) == 1 then 1 else PrevPage(old(currentPage))
      ensures old(currentPage) >= 1 ==> 1 <= currentPage <= old(currentPage)
      ensures searchTerm == old(searchTerm) && filter == old(filter)
    {
      if currentPage != 1 {
        currentPage := PrevPage(currentPage);
      }
    }

    /** A click on the "next" arrow, which is disabled when the current page equals the page
        count (so with no pages at all a click on page 1 moves to page 0). */
    method PressNext(totalPages: nat)
      modifies this
      ensures currentPage == if old(currentPage) == totalPages then totalPages
                             else NextPage(old(currentPage), totalPages)
      ensures 1 <= old(currentPage) <= totalPages ==> 1 <= currentPage <= totalPages
      ensures totalPages == 0 && old(currentPage) >= 0 ==> currentPage == 0
      ensures searchTerm == old(searchTerm) && filter == old(filter)
    {
      if currentPage != totalPages {
        currentPage := NextPage(currentPage, totalPages);
      }
    }
  }
}
