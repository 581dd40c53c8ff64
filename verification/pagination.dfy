/**
 * The page links of the catalogue's pagination bar: the first page, a window
 * of up to three pages around the current one, the last page, and ellipses
 * where pages are skipped; plus when the previous and next links show.
 */
module Pagination {
  import opened Wrappers

  /** One entry of the bar: a page number or the "..." marker. */
  datatype PageItem = Page(n: int) | Ellipsis

  function Max(a: int, b: int): int { if a >= b then a else b }
  function Min(a: int, b: int): int { if a <= b then a else b }

  /** The first page of the window around `currentPage`. */
  function RangeStart(currentPage: int): int {
    Max(2, currentPage - 1)
  }

  /** The last page of the window around `currentPage`. */
  function RangeEnd(currentPage: int, totalPages: int): int {
    Min(totalPages - 1, currentPage + 1)
  }

  /** The pages `a` to `b`, in order; empty when `a > b`. */
  function Range(a: int, b: int): (r: seq<PageItem>)
    decreases b - a
    ensures |r| == if a <= b then b - a + 1 else 0
    ensures forall k | 0 <= k < |r| :: r[k] == Page(a + k)
  {
    if a > b then [] else [Page(a)] + Range(a + 1, b)
  }

  lemma {:induction false} RangeSnoc(a: int, b: int)
    requires a <= b + 1
    ensures Range(a, b + 1) == Range(a, b) + [Page(b + 1)]
  {
  }

  /** The entries `getPageNumbers` pushes, in order. */
  function PageNumbers(currentPage: int, totalPages: int): seq<PageItem> {
    var rangeStart := RangeStart(currentPage);
    var rangeEnd := RangeEnd(currentPage, totalPages);
    [Page(1)]
    + (if rangeStart > 2 then [Ellipsis] else [])
    + Range(rangeStart, rangeEnd)
    + (if rangeEnd < totalPages - 1 then [Ellipsis] else [])
    + (if totalPages > 1 then [Page(totalPages)] else [])
  }

  /** `Pagination`: nothing at all for a single page, otherwise the bar's entries. */
  function Bar(currentPage: int, totalPages: int): (r: Option<seq<PageItem>>)
    ensures r.None? <==> totalPages <= 1
  {
    if totalPages <= 1 then None else Some(PageNumbers(currentPage, totalPages))
  }

  /** `getPageNumbers`, pushing entries one at a time as the component does. */
  method GetPageNumbers(currentPage: int, totalPages: int) returns (pages: seq<PageItem>)
    requires totalPages > 1
    ensures pages == PageNumbers(currentPage, totalPages)
  {
    pages := [Page(1)];
    var rangeStart := Max(2, currentPage - 1);
    var rangeEnd := Min(totalPages - 1, currentPage + 1);
    if rangeStart > 2 {
      pages := pages + [Ellipsis];
    }
    pages := PushRange(pages, rangeStart, rangeEnd);
    if rangeEnd < totalPages - 1 {
      pages := pages + [Ellipsis];
    }
    if totalPages > 1 {
      pages := pages + [Page(totalPages)];
    }
  }

  /** The loop of `getPageNumbers`: pushes the pages `a` to `b` in turn. */
  method PushRange(pages: seq<PageItem>, a: int, b: int) returns (r: seq<PageItem>)
    ensures r == pages + Range(a, b)
  {
    r := pages;
    var i := a;
    while i <= b
      invariant a <= i && (i <= b + 1 || i == a)
      invariant r == pages + Range(a, i - 1)
    {
      RangeSnoc(a, i - 1);
      r := r + [Page(i)];
      i := i + 1;
    }
    assert Range(a, i - 1) == Range(a, b);
  }

  /** The page numbers in `items` strictly increase from left to right. */
  predicate Increasing(items: seq<PageItem>) {
    forall i, j | 0 <= i < j < |items| && items[i].Page? && items[j].Page? :: items[i].n < items[j].n
  }

  lemma IncreasingConcat(a: seq<PageItem>, b: seq<PageItem>, mid: int)
    requires Increasing(a) && Increasing(b)
    requires forall i | 0 <= i < |a| && a[i].Page? :: a[i].n < mid
    requires forall i | 0 <= i < |b| && b[i].Page? :: mid <= b[i].n
    ensures Increasing(a + b)
  {
    forall i, j | 0 <= i < j < |a + b| && (a + b)[i].Page? && (a + b)[j].Page?
      ensures (a + b)[i].n < (a + b)[j].n
    {
      if j < |a| {
        assert (a + b)[i] == a[i] && (a + b)[j] == a[j];
      } else if i >= |a| {
        assert (a + b)[i] == b[i - |a|] && (a + b)[j] == b[j - |a|];
      } else {
        assert (a + b)[i] == a[i] && (a + b)[j] == b[j - |a|];
      }
    }
  }

  /**
   * The bar starts at page 1 and ends at the last page, its page numbers
   * strictly increase (so none repeats) and all lie in 1..`totalPages`,
   * whatever `currentPage` is.
   */
  lemma PageNumbersOrdered(currentPage: int, totalPages: int)
    requires totalPages > 1
    ensures PageNumbers(currentPage, totalPages)[0] == Page(1)
    ensures PageNumbers(currentPage, totalPages)[|PageNumbers(currentPage, totalPages)| - 1] == Page(totalPages)
    ensures Increasing(PageNumbers(currentPage, totalPages))
    ensures forall i | 0 <= i < |PageNumbers(currentPage, totalPages)| && PageNumbers(currentPage, totalPages)[i].Page? ::
      1 <= PageNumbers(currentPage, totalPages)[i].n <= totalPages
  {
    var rs := RangeStart(currentPage);
    var re := RangeEnd(currentPage, totalPages);
    var first := [Page(1)] + (if rs > 2 then [Ellipsis] else []);
    var middle := Range(rs, re);
    var last := (if re < totalPages - 1 then [Ellipsis] else []) + [Page(totalPages)];
    var items := PageNumbers(currentPage, totalPages);
    assert items == first + middle + last;
    IncreasingConcat(first, middle, 2);
    IncreasingConcat(first + middle, last, totalPages);
    forall i | 0 <= i < |items| && items[i].Page? ensures 1 <= items[i].n <= totalPages {
      if i < |first| {
        assert items[i] == first[i];
      } else if i < |first| + |middle| {
        assert items[i] == middle[i - |first|];
      } else {
        assert items[i] == last[i - |first| - |middle|];
      }
    }
  }

  /**
   * For a current page within 1..`totalPages`, an ellipsis follows page 1
   * exactly when the window starts after page 2, and precedes the last page
   * exactly when the window ends before the page before it; for any current
   * page, two ellipses are never next to each other.
   */
  lemma EllipsisPlacement(currentPage: int, totalPages: int)
    requires totalPages > 1
    ensures 1 <= currentPage <= totalPages ==>
      (PageNumbers(currentPage, totalPages)[1] == Ellipsis <==> RangeStart(currentPage) > 2)
    ensures 1 <= currentPage <= totalPages ==>
      (PageNumbers(currentPage, totalPages)[|PageNumbers(currentPage, totalPages)| - 2] == Ellipsis
       <==> RangeEnd(currentPage, totalPages) < totalPages - 1)
    ensures forall i | 0 <= i < |PageNumbers(currentPage, totalPages)| - 1 ::
      !(PageNumbers(currentPage, totalPages)[i] == Ellipsis && PageNumbers(currentPage, totalPages)[i + 1] == Ellipsis)
  {
    var rs := RangeStart(currentPage);
    var re := RangeEnd(currentPage, totalPages);
    var first := [Page(1)] + (if rs > 2 then [Ellipsis] else []);
    var middle := Range(rs, re);
    var last := (if re < totalPages - 1 then [Ellipsis] else []) + [Page(totalPages)];
    var items := PageNumbers(currentPage, totalPages);
    assert items == first + middle + last;
    assert rs > 2 && re < totalPages - 1 ==> |middle| > 0;
    var n := |items|;
    if rs > 2 {
      assert items[1] == first[1];
    } else if |middle| > 0 {
      assert items[1] == middle[0];
    } else {
      assert items[1] == last[0];
    }
    if re < totalPages - 1 {
      assert items[n - 2] == last[0];
    } else if |middle| > 0 {
      assert items[n - 2] == middle[|middle| - 1];
    } else {
      assert items[n - 2] == first[|first| - 1];
    }
    forall i | 0 <= i < |items| - 1 ensures !(items[i] == Ellipsis && items[i + 1] == Ellipsis) {
      if i < |first| {
        assert items[i] == first[i];
      } else if i < |first| + |middle| {
        assert items[i] == middle[i - |first|];
      } else {
        assert items[i] == last[i - |first| - |middle|];
      }
    }
  }

  /**
   * The pages on either side of an ellipsis differ by at least 2, so every
   * ellipsis hides a page; this needs at least three pages, or a current page
   * within 1..`totalPages`.
   */
  lemma EllipsisHidesAPage(currentPage: int, totalPages: int, i: int)
    requires totalPages >= 3 || 1 <= currentPage <= totalPages
    requires totalPages > 1
    requires 0 <= i < |PageNumbers(currentPage, totalPages)| && PageNumbers(currentPage, totalPages)[i] == Ellipsis
    ensures 0 < i < |PageNumbers(currentPage, totalPages)| - 1
    ensures PageNumbers(currentPage, totalPages)[i - 1].Page? && PageNumbers(currentPage, totalPages)[i + 1].Page?
    ensures PageNumbers(currentPage, totalPages)[i + 1].n - PageNumbers(currentPage, totalPages)[i - 1].n >= 2
  {
    var rs := RangeStart(currentPage);
    var re := RangeEnd(currentPage, totalPages);
    var first := [Page(1)] + (if rs > 2 then [Ellipsis] else []);
    var middle := Range(rs, re);
    var last := (if re < totalPages - 1 then [Ellipsis] else []) + [Page(totalPages)];
    var items := PageNumbers(currentPage, totalPages);
    assert items == first + middle + last;
    if i < |first| {
      assert i == 1 && rs > 2;
      assert items[0] == Page(1);
      if |middle| > 0 {
        assert items[2] == middle[0];
      } else {
        assert items[2] == last[0];
      }
    } else {
      assert i == |first| + |middle| && re < totalPages - 1;
      assert items[i + 1] == Page(totalPages);
      if |middle| > 0 {
        assert items[i - 1] == middle[|middle| - 1];
      } else {
        assert items[i - 1] == first[|first| - 1];
      }
    }
  }

  /** With two pages and a current page past the end, an ellipsis sits between pages 1 and 2. */
  lemma EllipsisHidesNothingOutOfRange()
    ensures PageNumbers(4, 2) == [Page(1), Ellipsis, Page(2)]
  {
    assert Range(3, 1) == [];
  }

  /** A current page within 1..`totalPages` appears in the bar, and the bar never has more than seven entries. */
  lemma CurrentPageShown(currentPage: int, totalPages: int)
    requires totalPages > 1
    ensures 1 <= currentPage <= totalPages ==> Page(currentPage) in PageNumbers(currentPage, totalPages)
    ensures |PageNumbers(currentPage, totalPages)| <= 7
  {
    var rs := RangeStart(currentPage);
    var re := RangeEnd(currentPage, totalPages);
    var first := [Page(1)] + (if rs > 2 then [Ellipsis] else []);
    var middle := Range(rs, re);
    var last := (if re < totalPages - 1 then [Ellipsis] else []) + [Page(totalPages)];
    var items := PageNumbers(currentPage, totalPages);
    assert items == first + middle + last;
    if 1 < currentPage < totalPages {
      assert middle[currentPage - rs] == Page(currentPage);
      assert items[|first| + currentPage - rs] == Page(currentPage);
    } else if currentPage == totalPages {
      assert items[|items| - 1] == Page(currentPage);
    } else if currentPage == 1 {
      assert items[0] == Page(currentPage);
    }
  }

  /** The previous link shows when `currentPage > 1`, the next link when `currentPage < totalPages`. */
  predicate ShowsPrevious(currentPage: int) {
    currentPage > 1
  }

  predicate ShowsNext(currentPage: int, totalPages: int) {
    currentPage < totalPages
  }

  /** Within range, only the first page lacks a previous link and only the last page lacks a next link. */
  lemma NavigationLinks(currentPage: int, totalPages: int)
    requires 1 <= currentPage <= totalPages
    ensures !ShowsPrevious(currentPage) <==> currentPage == 1
    ensures !ShowsNext(currentPage, totalPages) <==> currentPage == totalPages
    ensures ShowsPrevious(currentPage) || ShowsNext(currentPage, totalPages) <==> totalPages > 1
  {
  }
}
