/** Page arithmetic shared by the listing pages: the number of pages of a
    listing and the five-button sliding window of page numbers. */
module Pagination {
  import opened Types

  function Min(a: int, b: int): int { if a <= b then a else b }
  function Max(a: int, b: int): int { if a >= b then a else b }

  /** `Math.ceil(n / d)` for a row count and a positive page size (both far
      below 2^53, so the floating-point quotient is exact enough). */
  function CeilDiv(n: nat, d: nat): nat
    requires d > 0
  {
    (n + d - 1) / d
  }

  lemma MulMonotone(a: int, b: int, d: nat)
    requires a <= b
    ensures a * d <= b * d
  {
  }

  /** The number of pages is the least page count that covers every row. */
  lemma CeilDivIsLeast(n: nat, d: nat, k: nat)
    requires d > 0
    ensures CeilDiv(n, d) * d >= n
    ensures CeilDiv(n, d) == 0 || (CeilDiv(n, d) - 1) * d < n
    ensures k * d >= n ==> k >= CeilDiv(n, d)
  {
    var q, r := (n + d - 1) / d, (n + d - 1) % d;
    assert n + d - 1 == q * d + r;
    assert (q - 1) * d == q * d - d;
    if k < q {
      MulMonotone(k, q - 1, d);
    }
  }

  /** `data ? Math.ceil(data.totalCount / pageSize) : 0`. */
  function TotalPages<T>(data: Option<PagedResult<T>>, pageSize: nat): (n: nat)
    requires pageSize > 0
    ensures data.None? ==> n == 0
    ensures data.Some? ==> n * pageSize >= data.value.totalCount
    ensures data.Some? ==> n == 0 || (n - 1) * pageSize < data.value.totalCount
    ensures n == 0 <==> data.None? || data.value.totalCount == 0
  {
    match data
    case None => 0
    case Some(page) =>
      CeilDivIsLeast(page.totalCount, pageSize, 0);
      CeilDiv(page.totalCount, pageSize)
  }

  /** No smaller page count covers all rows. */
  lemma TotalPagesIsLeast<T>(page: PagedResult<T>, pageSize: nat, k: nat)
    requires pageSize > 0
    requires k * pageSize >= page.totalCount
    ensures TotalPages(Some(page), pageSize) <= k
  {
    CeilDivIsLeast(page.totalCount, pageSize, k);
  }

  /** The page number shown on button `i` of the window, branch for branch
      as the button list computes it. */
  function WindowEntry(pageNumber: int, totalPages: nat, i: nat): (e: int)
    ensures 1 <= pageNumber <= totalPages && i < Min(5, totalPages) ==> 1 <= e <= totalPages
  {
    if totalPages <= 5 then i + 1
    else if pageNumber <= 3 then i + 1
    else if pageNumber >= totalPages - 2 then totalPages - 4 + i
    else pageNumber - 2 + i
  }

  /** The numbered buttons: `Math.min(5, totalPages)` of them. */
  function PageWindow(pageNumber: int, totalPages: nat): (w: seq<int>)
    ensures |w| == Min(5, totalPages)
    ensures forall i :: 0 < i < |w| ==> w[i] == w[i - 1] + 1
    ensures forall i :: 0 <= i < |w| ==> w[i] >= 1
  {
    seq(Min(5, totalPages), (i: int) requires 0 <= i => WindowEntry(pageNumber, totalPages, i))
  }

  /** With the current page in range, every button names an existing page
      and one of them is the current page. */
  lemma WindowWithinPages(pageNumber: int, totalPages: nat)
    requires 1 <= pageNumber <= totalPages
    ensures forall x :: x in PageWindow(pageNumber, totalPages) ==> 1 <= x <= totalPages
    ensures pageNumber in PageWindow(pageNumber, totalPages)
  {
    var w := PageWindow(pageNumber, totalPages);
    var k := if totalPages <= 5 || pageNumber <= 3 then pageNumber - 1
             else if pageNumber >= totalPages - 2 then pageNumber - totalPages + 4
             else 2;
    assert w[k] == pageNumber;
    forall x | x in w
      ensures 1 <= x <= totalPages
    {
      var i :| 0 <= i < |w| && w[i] == x;
      assert x == WindowEntry(pageNumber, totalPages, i);
    }
  }

  /** Up to five pages: every page gets a button, in order. */
  lemma WindowOfFewPages(pageNumber: int, totalPages: nat)
    requires totalPages <= 5
    ensures PageWindow(pageNumber, totalPages) == seq(totalPages, (i: int) => i + 1)
  {
  }

  /** Near the start: pages 1 to 5. */
  lemma WindowAtStart(pageNumber: int, totalPages: nat)
    requires totalPages > 5 && pageNumber <= 3
    ensures PageWindow(pageNumber, totalPages) == [1, 2, 3, 4, 5]
  {
  }

  /** Near the end: the last five pages. */
  lemma WindowAtEnd(pageNumber: int, totalPages: nat)
    requires totalPages > 5 && pageNumber >= totalPages - 2
    ensures PageWindow(pageNumber, totalPages) == seq(5, (i: int) => totalPages - 4 + i)
  {
  }

  /** In the middle: the current page is the centre button of five. */
  lemma WindowCentred(pageNumber: int, totalPages: nat)
    requires totalPages > 5 && 3 < pageNumber < totalPages - 2
    ensures |PageWindow(pageNumber, totalPages)| == 5
    ensures PageWindow(pageNumber, totalPages)[2] == pageNumber
    ensures PageWindow(pageNumber, totalPages)[0] == pageNumber - 2
  {
  }

  /** The indices of the buttons styled as the current page. */
  function ActiveButtons(window: seq<int>, pageNumber: int): set<nat>
  {
    set i: nat | i < |window| && window[i] == pageNumber
  }

  /** With the current page in range, exactly one button is highlighted. */
  lemma ExactlyOneActive(pageNumber: int, totalPages: nat)
    requires 1 <= pageNumber <= totalPages
    ensures |ActiveButtons(PageWindow(pageNumber, totalPages), pageNumber)| == 1
  {
    var w := PageWindow(pageNumber, totalPages);
    WindowWithinPages(pageNumber, totalPages);
    var k :| 0 <= k < |w| && w[k] == pageNumber;
    forall i: nat | i < |w|
      ensures w[i] == w[0] + i
    {
      assert w[i] == WindowEntry(pageNumber, totalPages, i);
      assert w[0] == WindowEntry(pageNumber, totalPages, 0);
    }
    assert ActiveButtons(w, pageNumber) == {k};
  }
}
