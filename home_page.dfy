/** The wanted-persons listing of the home page: paging and search state, the
    guarded Prev/Next handlers and the query string of the listing request.
    The saved-persons page carries identical state and handlers and reuses
    this class. */
module HomePage {
  import opened Types
  import opened Text
  import Pagination
  import ApiClient

  /** The page sizes of the size selector. */
  const PageSizeOptions: set<nat> := {12, 24, 48, 100}

  /** One `key=value` entry of a `URLSearchParams`. */
  datatype Param = Param(key: string, value: string)

  predicate HasKey(params: seq<Param>, key: string)
  {
    exists i :: 0 <= i < |params| && params[i].key == key
  }

  /** The listing query: page number and size always, the search term only
      when it is non-empty (spreading `""` adds nothing). */
  function ListQuery(pageNumber: int, pageSize: nat, debouncedSearch: string): (params: seq<Param>)
    ensures |params| >= 2
    ensures params[0] == Param("PageNumber", IntToDecimal(pageNumber))
    ensures params[1] == Param("PageSize", IntToDecimal(pageSize))
    ensures HasKey(params, "Search") <==> debouncedSearch != ""
    ensures forall i :: 0 <= i < |params| && params[i].key == "Search" ==> params[i].value == debouncedSearch
  {
    var fixed := [Param("PageNumber", IntToDecimal(pageNumber)), Param("PageSize", IntToDecimal(pageSize))];
    assert |fixed[0].key| != |"Search"| && |fixed[1].key| != |"Search"|;
    var params := fixed + (if debouncedSearch != "" then [Param("Search", debouncedSearch)] else []);
    assert debouncedSearch != "" ==> params[2].key == "Search";
    params
  }

  function ParamText(p: Param): (r: string)
    ensures |r| == |p.key| + 1 + |p.value| && r[|p.key|] == '='
  {
    p.key + "=" + p.value
  }

  function ParamTexts(params: seq<Param>): (r: seq<string>)
    ensures |r| == |params|
    ensures forall i :: 0 <= i < |params| ==> r[i] == ParamText(params[i])
  {
    if params == [] then [] else [ParamText(params[0])] + ParamTexts(params[1..])
  }

  /** `params.toString()`: the entries joined with `&`. It is empty only
      without parameters, and begins with the first entry. */
  function QueryString(params: seq<Param>): (q: string)
    ensures q == "" <==> params == []
    ensures params != [] ==> StartsWith(q, ParamText(params[0]))
  {
    var texts := ParamTexts(params);
    JoinEmptyIff(texts, "&");
    if texts == [] then Join(texts, "&")
    else
      JoinContainsFirst(texts, "&");
      Join(texts, "&")
  }

  /** The query string always begins with the page number. */
  lemma QueryStartsWithPage(pageNumber: int, pageSize: nat, debouncedSearch: string)
    ensures StartsWith(QueryString(ListQuery(pageNumber, pageSize, debouncedSearch)),
                       "PageNumber=" + IntToDecimal(pageNumber))
  {
    var texts := ParamTexts(ListQuery(pageNumber, pageSize, debouncedSearch));
    JoinContainsFirst(texts, "&");
    assert texts[0] == "PageNumber" + "=" + IntToDecimal(pageNumber);
  }

  /* The home, saved and reports pages each repeat the same bar condition and
     Prev/Next/load handlers in their own source, so ListPager and
     ReportsPage.ReportsPager state them twice, as the code does. */
  class ListPager {
    var data: Option<PagedResult<WantedPersonSummary>>
    var loading: bool
    var pageNumber: int
    var pageSize: nat
    var searchTerm: string
    var debouncedSearch: string

    ghost predicate Valid()
      reads this
    {
      pageSize > 0 && pageNumber >= 1
    }

    constructor ()
      ensures Valid()
      ensures data == None && loading && pageNumber == 1 && pageSize == 12
      ensures searchTerm == "" && debouncedSearch == ""
    {
      data := None;
      loading := true;
      pageNumber := 1;
      pageSize := 12;
      searchTerm := "";
      debouncedSearch := "";
    }

    function TotalPages(): nat
      reads this
      requires Valid()
    {
      Pagination.TotalPages(data, pageSize)
    }

    /** The current page lies between 1 and the last page (page 1 when the
        listing is empty). */
    predicate InRange()
      reads this
      requires Valid()
    {
      1 <= pageNumber <= Pagination.Max(1, TotalPages())
    }

    /** The controls are rendered only for a non-empty listing, that is,
        exactly when there is at least one page. */
    predicate ControlsShown()
      reads this
      requires Valid()
      ensures ControlsShown() <==> TotalPages() >= 1
    {
      data.Some? && data.value.totalCount > 0
    }

    /** Prev is disabled exactly when its handler's guard fails. */
    predicate PrevDisabled()
      reads this
      requires Valid()
      ensures PrevDisabled() <==> !(pageNumber > 1)
    {
      pageNumber == 1
    }

    /** Next is disabled without rows, and otherwise, from an in-range page,
        exactly on the last page. */
    predicate NextDisabled()
      reads this
      requires Valid()
      ensures !ControlsShown() ==> NextDisabled()
      ensures InRange() ==> (NextDisabled() <==> pageNumber == Pagination.Max(1, TotalPages()))
    {
      pageNumber >= TotalPages()
    }

    /** The query of the next listing request. */
    function Query(): seq<Param>
      reads this
    {
      ListQuery(pageNumber, pageSize, debouncedSearch)
    }

    /** The search box: only the typed text changes. */
    method SetSearchTerm(term: string)
      requires Valid()
      modifies this`searchTerm
      ensures Valid() && searchTerm == term
    {
      searchTerm := term;
    }

    /** The debounce timer fires: the typed text becomes the search and the
        listing goes back to page 1. */
    method CommitSearch()
      requires Valid()
      modifies this`debouncedSearch, this`pageNumber
      ensures Valid()
      ensures debouncedSearch == searchTerm && pageNumber == 1
      ensures InRange()
    {
      debouncedSearch := searchTerm;
      pageNumber := 1;
    }

    /** A load begins: the spinner shows until it settles. */
    method LoadStarted()
      requires Valid()
      modifies this`loading
      ensures Valid() && loading
    {
      loading := true;
    }

    /** Outcome of the listing request: a resolved request stores its
        `data` as it is, null included; one that threw keeps the previous
        data. Loading ends either way. */
    method LoadFinished(result: Load<PagedResult<WantedPersonSummary>>)
      requires Valid()
      modifies this`data, this`loading
      ensures Valid()
      ensures data == (if result.Settled? then result.data else old(data))
      ensures !loading
    {
      if result.Settled? {
        data := result.data;
      }
      loading := false;
    }

    /** `handlePrevPage`: back one page only when not on page 1. */
    method HandlePrevPage()
      requires Valid()
      modifies this`pageNumber
      ensures Valid()
      ensures pageNumber == if old(pageNumber) > 1 then old(pageNumber) - 1 else old(pageNumber)
      ensures pageNumber != old(pageNumber) <==> !old(PrevDisabled())
      ensures old(InRange()) ==> InRange()
    {
      if pageNumber > 1 {
        pageNumber := pageNumber - 1;
      }
    }

    /** `handleNextPage`: on one page only when before the last page. */
    method HandleNextPage()
      requires Valid()
      modifies this`pageNumber
      ensures Valid()
      ensures pageNumber == if old(pageNumber) < TotalPages() then old(pageNumber) + 1 else old(pageNumber)
      ensures pageNumber != old(pageNumber) <==> !old(NextDisabled())
      ensures old(InRange()) ==> InRange()
    {
      if pageNumber < TotalPages() {
        pageNumber := pageNumber + 1;
      }
    }

    /** `handlePageSizeChange`: store the chosen size, back to page 1. */
    method HandlePageSizeChange(newSize: nat)
      requires Valid() && newSize in PageSizeOptions
      modifies this`pageSize, this`pageNumber
      ensures Valid()
      ensures pageSize == newSize && pageNumber == 1
      ensures InRange()
    {
      pageSize := newSize;
      pageNumber := 1;
    }
  }

  /** The request path of the home listing; relative, so the client inserts
      the slash after the base address. */
  function HomeListPath(params: seq<Param>): (p: string)
    ensures !ApiClient.IsAbsolute(p)
    ensures !StartsWith(p, "/")
  {
    var p := "FbiWanted?" + QueryString(params);
    assert p[0] == 'F';
    DiffersAt(p, "/", 0);
    DiffersAt(p, "http://", 0);
    DiffersAt(p, "https://", 0);
    p
  }

  /** The relative home path gets exactly one slash after the base address. */
  lemma HomeListUrl(baseUrl: Option<string>, params: seq<Param>)
    ensures ApiClient.NormalizeUrl(baseUrl, HomeListPath(params)) == ApiClient.BaseText(baseUrl) + "/" + HomeListPath(params)
  {
    var path := HomeListPath(params);
    assert path[0] == 'F';
    DiffersAt(path, "/", 0);
    DiffersAt(path, "http://", 0);
    DiffersAt(path, "https://", 0);
  }
}
