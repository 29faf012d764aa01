/** The page-button bar of src/components/Pagination/Pagination.tsx: the list of
    page numbers with "..." gaps that `generatePagination` builds, and the enabling
    of the previous, next and page buttons. Page numbers are JavaScript numbers,
    modelled as integers; `currentPage` may lie outside 1..totalPages (it comes from
    the URL). */
module Pagination {
  import opened Common

  /** One button of the bar: a page number or the "..." placeholder. */
  datatype PageItem = Num(n: int) | Ellipsis

  function Max(a: int, b: int): int { if a >= b then a else b }

  function Min(a: int, b: int): int { if a <= b then a else b }

  /** The buttons `lo`, `lo + 1`, ..., `hi`; none when `lo > hi`. */
  function Run(lo: int, hi: int): (r: seq<PageItem>)
    ensures |r| == (if lo <= hi then hi - lo + 1 else 0)
    ensures forall i :: 0 <= i < |r| ==> r[i] == Num(lo + i)
    decreases hi - lo
  {
    if lo <= hi then [Num(lo)] + Run(lo + 1, hi) else []
  }

  /** The list `generatePagination(currentPage, totalPages)` returns: every page when
      there are at most seven, otherwise the first page, an optional gap, up to
      two neighbours on each side of the current page, an optional gap, and the last
      page. */
  function PageWindow(currentPage: int, totalPages: int): seq<PageItem>
  {
    if totalPages <= 7 then Run(1, totalPages)
    else
      [Num(1)] + (if currentPage > 4 then [Ellipsis] else []) +
      Run(Max(2, currentPage - 2), Min(totalPages - 1, currentPage + 2)) +
      (if currentPage < totalPages - 3 then [Ellipsis] else []) + [Num(totalPages)]
  }

  /** One more button at the end of a run. */
  lemma RunExtend(lo: int, hi: int)
    requires lo <= hi + 1
    ensures Run(lo, hi + 1) == Run(lo, hi) + [Num(hi + 1)]
  {
    var a, b := Run(lo, hi + 1), Run(lo, hi) + [Num(hi + 1)];
    assert |a| == |b|;
    assert forall i :: 0 <= i < |a| ==> a[i] == b[i];
  }

  /** `generatePagination`, pushing onto `pages`. */
  method GeneratePagination(currentPage: int, totalPages: int) returns (pages: seq<PageItem>)
    ensures pages == PageWindow(currentPage, totalPages)
  {
    pages := [];
    if totalPages <= 7 {
      pages := PushRun(pages, 1, totalPages);
      assert pages == Run(1, totalPages);
    } else {
      ghost var left := if currentPage > 4 then [Ellipsis] else [];
      ghost var right := if currentPage < totalPages - 3 then [Ellipsis] else [];
      ghost var mid := Run(Max(2, currentPage - 2), Min(totalPages - 1, currentPage + 2));
      pages := pages + [Num(1)];
      if currentPage > 4 {
        pages := pages + [Ellipsis];
      }
      assert pages == [Num(1)] + left;
      pages := PushRun(pages, Max(2, currentPage - 2), Min(totalPages - 1, currentPage + 2));
      if currentPage < totalPages - 3 {
        pages := pages + [Ellipsis];
      }
      assert pages == [Num(1)] + left + mid + right;
      pages := pages + [Num(totalPages)];
    }
  }

  /** A `for` loop pushing the pages `lo` to `hi` onto `pages`. */
  method PushRun(pages: seq<PageItem>, lo: int, hi: int) returns (out: seq<PageItem>)
    ensures out == pages + Run(lo, hi)
  {
    out := pages;
    var i := lo;
    while i <= hi
      invariant lo <= i <= Max(lo, hi + 1)
      invariant out == pages + Run(lo, i - 1)
    {
      RunExtend(lo, i - 1);
      out := out + [Num(i)];
      i := i + 1;
    }
  }

  /** The numbers that appear in the list. */
  predicate HasPage(pages: seq<PageItem>, n: int)
  {
    Num(n) in pages
  }

  /** Up to seven pages, the list is exactly 1, 2, ..., totalPages, and empty when
      totalPages is zero or negative. */
  lemma SmallTotalListsEveryPage(currentPage: int, totalPages: int)
    requires totalPages <= 7
    ensures var r := PageWindow(currentPage, totalPages);
      |r| == Max(totalPages, 0) && forall i :: 0 <= i < |r| ==> r[i] == Num(i + 1)
  {
  }

  /** The pieces of a list for more than seven pages, by position. */
  lemma {:induction false} LargeShape(c: int, t: int)
    requires t > 7
    ensures var r := PageWindow(c, t);
      var k := if c > 4 then 1 else 0;
      var lo := Max(2, c - 2);
      var m := |Run(lo, Min(t - 1, c + 2))|;
      var e := if c < t - 3 then 1 else 0;
      |r| == 2 + k + m + e &&
      r[0] == Num(1) && r[|r| - 1] == Num(t) &&
      (k == 1 ==> r[1] == Ellipsis) &&
      (forall p :: 1 + k <= p < 1 + k + m ==> r[p] == Num(lo + p - 1 - k)) &&
      (e == 1 ==> r[1 + k + m] == Ellipsis) &&
      (m > 0 ==> 2 <= lo && lo + m - 1 <= t - 1 && lo + m - 1 <= c + 2)
  {
    var r := PageWindow(c, t);
    var left := if c > 4 then [Ellipsis] else [];
    var mid := Run(Max(2, c - 2), Min(t - 1, c + 2));
    var right := if c < t - 3 then [Ellipsis] else [];
    assert r == [Num(1)] + left + mid + right + [Num(t)];
    var k := |left|;
    var m := |mid|;
    forall p | 1 + k <= p < 1 + k + m
      ensures r[p] == Num(Max(2, c - 2) + p - 1 - k)
    {
      assert r[p] == mid[p - 1 - k];
    }
    if |right| == 1 {
      assert r[1 + k + m] == right[0];
    }
  }

  /** Beyond seven pages the list starts at page 1 and ends at the last page. */
  lemma LargeTotalEnds(currentPage: int, totalPages: int)
    requires totalPages > 7
    ensures var r := PageWindow(currentPage, totalPages);
      |r| >= 2 && r[0] == Num(1) && r[|r| - 1] == Num(totalPages)
  {
    LargeShape(currentPage, totalPages);
  }

  /** Whatever the current page, the numbers in the list are pages that exist,
      listed in strictly increasing order. */
  lemma NumbersIncreasingInRange(currentPage: int, totalPages: int)
    ensures var r := PageWindow(currentPage, totalPages);
      (forall i :: 0 <= i < |r| && r[i].Num? ==> 1 <= r[i].n <= totalPages) &&
      (forall i, j :: 0 <= i < j < |r| && r[i].Num? && r[j].Num? ==> r[i].n < r[j].n)
  {
    if totalPages > 7 {
      LargeShape(currentPage, totalPages);
    }
  }

  /** Pages are left out only where a gap is shown: two neighbouring numbers are
      consecutive pages. */
  lemma NoPageSkippedSilently(currentPage: int, totalPages: int)
    ensures var r := PageWindow(currentPage, totalPages);
      forall i :: 0 <= i < |r| - 1 && r[i].Num? && r[i + 1].Num? ==> r[i + 1].n == r[i].n + 1
  {
    if totalPages > 7 {
      LargeShape(currentPage, totalPages);
    }
  }

  /** Every gap sits between two numbers and stands for at least one page the list
      leaves out. */
  lemma EllipsisMarksOmittedPages(currentPage: int, totalPages: int)
    ensures var r := PageWindow(currentPage, totalPages);
      forall i :: 0 <= i < |r| && r[i] == Ellipsis ==>
        0 < i < |r| - 1 && r[i - 1].Num? && r[i + 1].Num? && r[i + 1].n - r[i - 1].n >= 2
  {
    if totalPages > 7 {
      LargeShape(currentPage, totalPages);
    }
  }

  function CountEllipses(pages: seq<PageItem>): nat
  {
    if pages == [] then 0 else (if pages[0] == Ellipsis then 1 else 0) + CountEllipses(pages[1..])
  }

  lemma {:induction false} CountEllipsesAppend(a: seq<PageItem>, b: seq<PageItem>)
    ensures CountEllipses(a + b) == CountEllipses(a) + CountEllipses(b)
    decreases |a|
  {
    if a != [] {
      assert (a + b)[1..] == a[1..] + b;
      CountEllipsesAppend(a[1..], b);
    } else {
      assert a + b == b;
    }
  }

  lemma {:induction false} RunHasNoEllipsis(lo: int, hi: int)
    ensures CountEllipses(Run(lo, hi)) == 0
    decreases hi - lo
  {
    if lo <= hi {
      assert Run(lo, hi)[1..] == Run(lo + 1, hi);
      RunHasNoEllipsis(lo + 1, hi);
    }
  }

  /** Beyond seven pages there is a gap after page 1 iff the current page is above
      4, and a gap before the last page iff the current page is below
      totalPages - 3; for a current page inside 1..totalPages the gaps sit right
      after the first and right before the last button. */
  lemma EllipsisPlacement(currentPage: int, totalPages: int)
    requires totalPages > 7
    ensures var r := PageWindow(currentPage, totalPages);
      CountEllipses(r) == (if currentPage > 4 then 1 else 0) + (if currentPage < totalPages - 3 then 1 else 0)
    ensures var r := PageWindow(currentPage, totalPages);
      1 <= currentPage <= totalPages ==>
        (r[1] == Ellipsis <==> currentPage > 4) && (r[|r| - 2] == Ellipsis <==> currentPage < totalPages - 3)
  {
    var c, t := currentPage, totalPages;
    var left := if c > 4 then [Ellipsis] else [];
    var mid := Run(Max(2, c - 2), Min(t - 1, c + 2));
    var right := if c < t - 3 then [Ellipsis] else [];
    assert PageWindow(c, t) == [Num(1)] + left + mid + right + [Num(t)];
    CountEllipsesAppend([Num(1)] + left + mid + right, [Num(t)]);
    CountEllipsesAppend([Num(1)] + left + mid, right);
    CountEllipsesAppend([Num(1)] + left, mid);
    CountEllipsesAppend([Num(1)], left);
    RunHasNoEllipsis(Max(2, c - 2), Min(t - 1, c + 2));
    assert CountEllipses([Num(t)]) == 0;
    assert CountEllipses([Num(1)]) == 0;
    LargeShape(c, t);
  }

  /** A current page that exists is always offered. */
  lemma CurrentPageListed(currentPage: int, totalPages: int)
    requires 1 <= currentPage <= totalPages
    ensures HasPage(PageWindow(currentPage, totalPages), currentPage)
  {
    var r := PageWindow(currentPage, totalPages);
    if totalPages <= 7 {
      assert r[currentPage - 1] == Num(currentPage);
    } else {
      LargeShape(currentPage, totalPages);
      var k := if currentPage > 4 then 1 else 0;
      if currentPage == 1 {
        assert r[0] == Num(currentPage);
      } else if currentPage == totalPages {
        assert r[|r| - 1] == Num(currentPage);
      } else {
        var lo := Max(2, currentPage - 2);
        assert r[1 + k + (currentPage - lo)] == Num(currentPage);
      }
    }
  }

  /** The bar never holds more than nine buttons between the arrows. */
  lemma AtMostNineButtons(currentPage: int, totalPages: int)
    ensures |PageWindow(currentPage, totalPages)| <= 9
  {
    if totalPages > 7 {
      LargeShape(currentPage, totalPages);
    }
  }

  /** The previous-page button is disabled exactly on page 1, that is, exactly when
      it would ask for page 0. */
  predicate PrevDisabled(currentPage: int)
    ensures PrevDisabled(currentPage) <==> currentPage - 1 == 0
  {
    currentPage == 1
  }

  /** The next-page button is disabled exactly on the last page, that is, exactly
      when it would ask for the page after the last. */
  predicate NextDisabled(currentPage: int, totalPages: int)
    ensures NextDisabled(currentPage, totalPages) <==> currentPage + 1 == totalPages + 1
  {
    currentPage == totalPages
  }

  /** The page a click on a list button asks for: its number, or none for "...",
      which is disabled and whose click handler only acts on numbers. */
  function ClickTarget(item: PageItem): (r: Option<int>)
    ensures r.Some? <==> item.Num?
    ensures r.Some? ==> r.value == item.n
  {
    match item
    case Num(n) => Some(n)
    case Ellipsis => None
  }

  /** Every page a list button can ask for exists. */
  lemma ClickTargetsExist(currentPage: int, totalPages: int, i: int)
    requires 0 <= i < |PageWindow(currentPage, totalPages)|
    ensures var t := ClickTarget(PageWindow(currentPage, totalPages)[i]);
      t.Some? ==> 1 <= t.value <= totalPages
  {
    NumbersIncreasingInRange(currentPage, totalPages);
  }

  /** On a page within 1..totalPages, an enabled arrow asks for the neighbouring
      page, which exists. */
  lemma ArrowTargetsExist(currentPage: int, totalPages: int)
    ensures 1 <= currentPage <= totalPages && !PrevDisabled(currentPage) ==> 1 <= currentPage - 1 <= totalPages
    ensures 1 <= currentPage <= totalPages && !NextDisabled(currentPage, totalPages) ==> 1 <= currentPage + 1 <= totalPages
  {
  }

  /** With no pages at all, or a current page beyond the last, the next-page button
      stays enabled and asks for a page that does not exist. */
  lemma NextEnabledPastTheEnd(currentPage: int, totalPages: int)
    requires currentPage >= totalPages && currentPage != totalPages
    ensures !NextDisabled(currentPage, totalPages) && currentPage + 1 > totalPages
  {
  }
}
