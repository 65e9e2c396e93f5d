/**
 * The pager (src/components/Pagination.tsx): the strip of page buttons with ellipses, the
 * "Mostrando start-end" range, when the pager is drawn, and which buttons are enabled and
 * what clicking them asks for.
 */
module Pagination {
  import opened Wrappers

  /** One button of the strip: a page number or the '...' marker. */
  datatype PageItem = Page(n: int) | Ellipsis

  const MaxVisiblePages: int := 5

  /** The pages `lo`, `lo + 1`, ..., `hi` (empty when `hi < lo`). */
  function Pages(lo: int, hi: int): (r: seq<PageItem>)
    ensures |r| == if hi < lo then 0 else hi - lo + 1
    ensures forall k :: 0 <= k < |r| ==> r[k] == Page(lo + k)
  {
    if hi < lo then [] else seq(hi - lo + 1, k => Page(lo + k))
  }

  /**
   * The strip `getPageNumbers` builds: every page when there are at most five; otherwise the
   * first four, the first and last four, or the first, the current with its neighbours and
   * the last, with an ellipsis wherever pages are skipped.
   */
  function Strip(current: int, total: int): (r: seq<PageItem>)
    ensures |r| <= MaxVisiblePages + 2
    ensures total >= 1 ==> |r| > 0 && r[0] == Page(1) && r[|r| - 1] == Page(total)
  {
    if total <= MaxVisiblePages then Pages(1, total)
    else if current <= 3 then Pages(1, 4) + [Ellipsis, Page(total)]
    else if current >= total - 2 then [Page(1), Ellipsis] + Pages(total - 3, total)
    else [Page(1), Ellipsis] + Pages(current - 1, current + 1) + [Ellipsis, Page(total)]
  }

  /** One `for` loop of `getPageNumbers`: push the pages `lo..hi` one by one. */
  method PushPages(pages: seq<PageItem>, lo: int, hi: int) returns (r: seq<PageItem>)
    ensures r == pages + Pages(lo, hi)
  {
    r := pages;
    var i := lo;
    while i <= hi
      invariant lo <= i && (if hi < lo then i == lo else i <= hi + 1)
      invariant r == pages + Pages(lo, i - 1)
    {
      r := r + [Page(i)];
      i := i + 1;
    }
  }

  /** `getPageNumbers`: builds the strip by pushing onto an initially empty array. */
  method GetPageNumbers(currentPage: int, totalPages: int) returns (pages: seq<PageItem>)
    ensures pages == Strip(currentPage, totalPages)
  {
    pages := [];
    if totalPages <= MaxVisiblePages {
      pages := PushPages(pages, 1, totalPages);
    } else if currentPage <= 3 {
      pages := PushPages(pages, 1, 4);
      pages := pages + [Ellipsis];
      pages := pages + [Page(totalPages)];
    } else if currentPage >= totalPages - 2 {
      pages := pages + [Page(1)];
      pages := pages + [Ellipsis];
      pages := PushPages(pages, totalPages - 3, totalPages);
    } else {
      pages := pages + [Page(1)];
      pages := pages + [Ellipsis];
      pages := PushPages(pages, currentPage - 1, currentPage + 1);
      pages := pages + [Ellipsis];
      pages := pages + [Page(totalPages)];
    }
  }

  /** The page numbers of a strip appear in strictly increasing order. */
  ghost predicate Increasing(s: seq<PageItem>) {
    forall i, j :: 0 <= i < j < |s| && s[i].Page? && s[j].Page? ==> s[i].n < s[j].n
  }

  /** Every ellipsis stands between two page numbers and hides at least one page. */
  ghost predicate EllipsesHidePages(s: seq<PageItem>) {
    forall k :: 0 <= k < |s| && s[k].Ellipsis? ==>
      0 < k < |s| - 1 && s[k - 1].Page? && s[k + 1].Page? && s[k - 1].n + 1 < s[k + 1].n
  }

  /**
   * For a current page within range, the strip starts at page 1, ends at the last page,
   * shows the current page, numbers pages in increasing order, only skips pages under an
   * ellipsis, and has at most seven buttons.
   */
  lemma StripShape(current: int, total: int)
    requires 1 <= current <= total
    ensures var s := Strip(current, total);
      && 1 <= |s| <= 7
      && s[0] == Page(1) && s[|s| - 1] == Page(total)
      && (exists k :: 0 <= k < |s| && s[k] == Page(current))
      && Increasing(s)
      && EllipsesHidePages(s)
  {
    StripOrdered(current, total);
    var s := Strip(current, total);
    if total <= MaxVisiblePages {
      assert s[current - 1] == Page(current);
    } else if current <= 3 {
      assert s[current - 1] == Page(current);
    } else if current >= total - 2 {
      assert s[current - total + 5] == Page(current);
    } else {
      assert s[3] == Page(current);
    }
  }

  /** The numbering half of `StripShape`: increasing numbers, gaps only under an ellipsis. */
  lemma StripOrdered(current: int, total: int)
    requires 1 <= current <= total
    ensures Ordered(Strip(current, total))
  {
    if total <= MaxVisiblePages {
      FirstPagesOrdered(current, total);
    } else if current <= 3 {
      HeadOrdered(current, total);
    } else if current >= total - 2 {
      TailOrdered(current, total);
    } else {
      MiddleOrdered(current, total);
    }
  }

  ghost predicate Ordered(s: seq<PageItem>) {
    Increasing(s) && EllipsesHidePages(s)
  }

  lemma FirstPagesOrdered(current: int, total: int)
    requires total <= MaxVisiblePages
    ensures Ordered(Strip(current, total))
  {
    assert Strip(current, total) == Pages(1, total);
  }

  lemma HeadOrdered(current: int, total: int)
    requires total > MaxVisiblePages && current <= 3
    ensures Ordered(Strip(current, total))
  {
    assert Strip(current, total) == [Page(1), Page(2), Page(3), Page(4), Ellipsis, Page(total)];
  }

  lemma TailOrdered(current: int, total: int)
    requires total > MaxVisiblePages && 3 < current && current >= total - 2
    ensures Ordered(Strip(current, total))
  {
    assert Strip(current, total) == [Page(1), Ellipsis, Page(total - 3), Page(total - 2), Page(total - 1), Page(total)];
  }

  lemma MiddleOrdered(current: int, total: int)
    requires total > MaxVisiblePages && 3 < current < total - 2
    ensures Ordered(Strip(current, total))
  {
    MiddleStrip(current, total);
    WindowOrdered(current, total);
  }

  lemma MiddleStrip(current: int, total: int)
    requires total > MaxVisiblePages && 3 < current < total - 2
    ensures Strip(current, total) == [Page(1), Ellipsis, Page(current - 1), Page(current), Page(current + 1), Ellipsis, Page(total)]
  {
    assert Pages(current - 1, current + 1) == [Page(current - 1), Page(current), Page(current + 1)];
  }

  /** The first page, the window around `m` and the last page `t`, with an ellipsis on either side. */
  lemma WindowOrdered(m: int, t: int)
    requires 3 < m < t - 2
    ensures Ordered([Page(1), Ellipsis, Page(m - 1), Page(m), Page(m + 1), Ellipsis, Page(t)])
  {
  }

  /** Between consecutive numbered buttons with no ellipsis, no page is skipped. */
  lemma NoSilentGaps(current: int, total: int, k: int)
    requires 1 <= current <= total
    requires 0 <= k < |Strip(current, total)| - 1
    requires Strip(current, total)[k].Page? && Strip(current, total)[k + 1].Page?
    ensures Strip(current, total)[k + 1].n == Strip(current, total)[k].n + 1
  {
  }

  /** The strips for page 3 of 5, 1 of 10, 10 of 10 and 5 of 10. */
  lemma StripExamples()
    ensures Strip(3, 5) == [Page(1), Page(2), Page(3), Page(4), Page(5)]
    ensures Strip(1, 10) == [Page(1), Page(2), Page(3), Page(4), Ellipsis, Page(10)]
    ensures Strip(10, 10) == [Page(1), Ellipsis, Page(7), Page(8), Page(9), Page(10)]
    ensures Strip(5, 10) == [Page(1), Ellipsis, Page(4), Page(5), Page(6), Ellipsis, Page(10)]
  {
  }

  /** The pager renders nothing for at most one page: exactly when its strip would be a single button or none. */
  function Rendered(totalPages: int): (shown: bool)
    ensures shown <==> |Strip(1, totalPages)| > 1
  {
    totalPages > 1
  }

  /** `startItem`: the 1-based number of the first item of the current page, which opens that page. */
  function StartItem(currentPage: int, itemsPerPage: int): (n: int)
    ensures itemsPerPage > 0 ==> (n - 1) % itemsPerPage == 0 && (n - 1) / itemsPerPage == currentPage - 1
  {
    if itemsPerPage > 0 then MulDiv(currentPage - 1, itemsPerPage); (currentPage - 1) * itemsPerPage + 1
    else (currentPage - 1) * itemsPerPage + 1
  }

  /** A multiple of `p` divides by `p` exactly. */
  lemma MulDiv(k: int, p: int)
    requires p > 0
    ensures (k * p) % p == 0 && (k * p) / p == k
  {
    var q, r := (k * p) / p, (k * p) % p;
    assert (k - q) * p == r;
    OnlyZeroBelow(k - q, p);
  }

  /** The only multiple of `p` in `0..p - 1` is zero. */
  lemma OnlyZeroBelow(d: int, p: int)
    requires p > 0 && 0 <= d * p < p
    ensures d == 0
  {
  }

  /** `endItem`: the number of the last item of the current page, the smaller of the page's end and the total. */
  function EndItem(currentPage: int, itemsPerPage: int, totalItems: int): (n: int)
    ensures n <= totalItems && n <= currentPage * itemsPerPage
    ensures n == totalItems || n == currentPage * itemsPerPage
  {
    if currentPage * itemsPerPage < totalItems then currentPage * itemsPerPage else totalItems
  }

  /** `Math.ceil(totalItems / itemsPerPage)` for a positive page size: the fewest pages that hold every item. */
  function PageCount(totalItems: nat, itemsPerPage: nat): (n: nat)
    requires itemsPerPage > 0
    ensures n * itemsPerPage >= totalItems
    ensures n > 0 ==> (n - 1) * itemsPerPage < totalItems
    ensures n == 0 <==> totalItems == 0
  {
    var n := (totalItems + itemsPerPage - 1) / itemsPerPage;
    var r := (totalItems + itemsPerPage - 1) % itemsPerPage;
    assert n * itemsPerPage + r == totalItems + itemsPerPage - 1;
    assert (n - 1) * itemsPerPage == n * itemsPerPage - itemsPerPage;
    n
  }

  /** On a page within range the shown range is non-empty, at most a page long, and within the items. */
  lemma ItemRange(currentPage: int, itemsPerPage: nat, totalItems: nat)
    requires itemsPerPage > 0 && 1 <= currentPage <= PageCount(totalItems, itemsPerPage)
    ensures var s, e := StartItem(currentPage, itemsPerPage), EndItem(currentPage, itemsPerPage, totalItems);
      1 <= s <= e <= totalItems && e - s < itemsPerPage
  {
    var q := PageCount(totalItems, itemsPerPage);
    assert (currentPage - 1) * itemsPerPage < totalItems by {
      assert q * itemsPerPage <= totalItems + itemsPerPage - 1;
      assert (currentPage - 1) * itemsPerPage <= (q - 1) * itemsPerPage;
    }
    assert currentPage * itemsPerPage == (currentPage - 1) * itemsPerPage + itemsPerPage;
  }

  /** `disabled` of the Previous button. */
  predicate PrevDisabled(currentPage: int) { currentPage == 1 }

  /** `disabled` of the Next button. */
  predicate NextDisabled(currentPage: int, totalPages: int) { currentPage == totalPages }

  /** `disabled` of a strip button: only the ellipsis. */
  predicate ItemDisabled(item: PageItem) { item == Ellipsis }

  /** `active` of a strip button: the current page's number. */
  predicate ItemActive(item: PageItem, currentPage: int) { item == Page(currentPage) }

  /** What clicking a strip button passes to `onPageChange`; an ellipsis calls nothing. */
  function ItemClick(item: PageItem): (r: Option<int>)
    ensures r.None? <==> ItemDisabled(item)
    ensures r.Some? ==> item == Page(r.value)
  {
    match item
    case Page(n) => Some(n)
    case Ellipsis => None
  }

  /** What the Previous and Next buttons ask for when enabled. */
  function PrevClick(currentPage: int): (r: Option<int>)
    ensures r.None? <==> PrevDisabled(currentPage)
    ensures r.Some? ==> r.value == currentPage - 1
  {
    if PrevDisabled(currentPage) then None else Some(currentPage - 1)
  }

  function NextClick(currentPage: int, totalPages: int): (r: Option<int>)
    ensures r.None? <==> NextDisabled(currentPage, totalPages)
    ensures r.Some? ==> r.value == currentPage + 1
  {
    if NextDisabled(currentPage, totalPages) then None else Some(currentPage + 1)
  }

  /** From a page within range, every enabled button asks for a page within range. */
  lemma ClicksStayInRange(current: int, total: int, item: PageItem)
    requires 1 <= current <= total
    requires item in Strip(current, total)
    ensures ItemClick(item).Some? ==> 1 <= ItemClick(item).value <= total
    ensures PrevClick(current).Some? ==> 1 <= PrevClick(current).value <= total
    ensures NextClick(current, total).Some? ==> 1 <= NextClick(current, total).value <= total
  {
  }
}
