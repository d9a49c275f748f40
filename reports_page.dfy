/** The field-reports dashboard: the loaded page of reports, the current page
    number and page size, and the handlers of its pagination bar. */
module ReportsPage {
  import opened Types
  import opened Pagination

  /** The rows-per-page choices of the size selector. */
  const PageSizeOptions: set<nat> := {10, 20, 50, 100}

  class ReportsPager {
    var data: Option<PagedResult<ReportItem>>
    var loading: bool
    var pageNumber: int
    var pageSize: nat

    ghost predicate Valid()
      reads this
    {
      pageSize > 0 && pageNumber >= 1
    }

    constructor ()
      ensures Valid()
      ensures data == None && loading && pageNumber == 1 && pageSize == 10
    {
      data := None;
      loading := true;
      pageNumber := 1;
      pageSize := 10;
    }

    function TotalPages(): nat
      reads this
      requires Valid()
    {
      Pagination.TotalPages(data, pageSize)
    }

    /** The pagination bar is rendered only for a non-empty listing, that
        is, exactly when there is at least one page. */
    predicate ControlsShown()
      reads this
      requires Valid()
      ensures ControlsShown() <==> TotalPages() >= 1
    {
      data.Some? && data.value.totalCount > 0
    }

    /** Prev is disabled exactly where it would not move. */
    predicate PrevDisabled()
      reads this
      requires Valid()
      ensures PrevDisabled() <==> Max(1, pageNumber - 1) == pageNumber
    {
      pageNumber == 1
    }

    /** From an in-range page, Next is disabled exactly where it would not
        move. */
    predicate NextDisabled()
      reads this
      requires Valid()
      ensures pageNumber <= TotalPages() ==> (NextDisabled() <==> Min(TotalPages(), pageNumber + 1) == pageNumber)
    {
      pageNumber == TotalPages()
    }

    /** The numbered buttons of the bar. */
    function Window(): seq<int>
      reads this
      requires Valid()
    {
      PageWindow(pageNumber, TotalPages())
    }

    /** A load begins: the spinner shows until it settles. */
    method LoadStarted()
      requires Valid()
      modifies this`loading
      ensures Valid() && loading
    {
      loading := true;
    }

    /** Outcome of `getReports(pageNumber, pageSize)`: a resolved request
        stores its `data` as it is, null included; one that threw keeps the
        previous data. Loading ends either way. */
    method LoadFinished(result: Load<PagedResult<ReportItem>>)
      requires Valid()
      modifies this`data, this`loading
      ensures Valid()
      ensures data == (if result.Settled? then result.data else old(data))
      ensures !loading
    {
      if result.Settled? {
        data := result.data;
      }
      loading := false;
    }

    /** The Prev button: one page back, never below page 1. */
    method Prev()
      requires Valid()
      modifies this`pageNumber
      ensures Valid()
      ensures pageNumber == Max(1, old(pageNumber) - 1)
      ensures old(pageNumber) <= TotalPages() ==> pageNumber <= TotalPages()
    {
      pageNumber := Max(1, pageNumber - 1);
    }

    /** The Next button, present only while the bar is shown: one page on,
        never past the last page. */
    method Next()
      requires Valid() && ControlsShown()
      modifies this`pageNumber
      ensures Valid()
      ensures pageNumber == Min(TotalPages(), old(pageNumber) + 1)
      ensures pageNumber <= TotalPages()
      ensures old(pageNumber) <= TotalPages() ==> pageNumber >= old(pageNumber)
    {
      pageNumber := Min(TotalPages(), pageNumber + 1);
    }

    /** A numbered button: jump to the page it shows. */
    method SelectPage(pageNum: int)
      requires Valid() && pageNum in Window()
      modifies this`pageNumber
      ensures Valid()
      ensures pageNumber == pageNum
    {
      pageNumber := pageNum;
    }

    /** The size selector: store the new size and go back to page 1. */
    method ChangePageSize(newSize: nat)
      requires Valid() && newSize in PageSizeOptions
      modifies this`pageSize, this`pageNumber
      ensures Valid()
      ensures pageSize == newSize && pageNumber == 1
    {
      pageSize := newSize;
      pageNumber := 1;
    }
  }

  /** The reading of the bar the page relies on: while the current page is in
      range, every button names a real page, exactly one is highlighted, Prev
      is disabled only on page 1 and Next only on the last page. */
  lemma BarConsistent(pageNumber: int, pageSize: nat, page: PagedResult<ReportItem>)
    requires pageSize > 0 && page.totalCount > 0
    requires 1 <= pageNumber <= Pagination.TotalPages(Some(page), pageSize)
    ensures var tp := Pagination.TotalPages(Some(page), pageSize);
      && (forall x :: x in PageWindow(pageNumber, tp) ==> 1 <= x <= tp)
      && |ActiveButtons(PageWindow(pageNumber, tp), pageNumber)| == 1
      && (Max(1, pageNumber - 1) == pageNumber <==> pageNumber == 1)
      && (Min(tp, pageNumber + 1) == pageNumber <==> pageNumber == tp)
  {
    var tp := Pagination.TotalPages(Some(page), pageSize);
    WindowWithinPages(pageNumber, tp);
    ExactlyOneActive(pageNumber, tp);
  }
}
