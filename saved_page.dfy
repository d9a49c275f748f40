/** The saved-persons page: the optimistic favourites list, its
    initialisation from a loaded page, and the location report sent from the
    map modal. Paging and search are the home page's. */
module SavedPage {
  import opened Types
  import opened Text
  import HomePage
  import ApiClient

  /** `list.filter(v => v !== x)`. */
  function Without(s: seq<int>, x: int): (r: seq<int>)
    ensures x !in r
    ensures |r| <= |s|
    ensures forall y :: y != x ==> multiset(r)[y] == multiset(s)[y]
  {
    if s == [] then []
    else
      var rest := Without(s[1..], x);
      assert s == [s[0]] + s[1..];
      if s[0] == x then rest else [s[0]] + rest
  }

  lemma {:induction false} WithoutAbsent(s: seq<int>, x: int)
    requires x !in s
    ensures Without(s, x) == s
  {
    if s != [] {
      WithoutAbsent(s[1..], x);
    }
  }

  lemma {:induction false} WithoutConcat(a: seq<int>, b: seq<int>, x: int)
    ensures Without(a + b, x) == Without(a, x) + Without(b, x)
  {
    if a != [] {
      assert (a + b)[1..] == a[1..] + b;
      WithoutConcat(a[1..], b, x);
    } else {
      assert a + b == b;
    }
  }

  /** The optimistic update of `toggleFavorite`: a present id is filtered
      out, an absent one appended. */
  function Toggled(favorites: seq<int>, id: int): (r: seq<int>)
    ensures id in r <==> id !in favorites
    ensures id !in favorites ==> |r| == |favorites| + 1 && r[|favorites|] == id && r[..|favorites|] == favorites
    ensures forall y :: y != id ==> multiset(r)[y] == multiset(favorites)[y]
  {
    if id in favorites then Without(favorites, id) else favorites + [id]
  }

  /** A toggle leaves every other id where it was: with the toggled id taken
      out, the list before and after are the same sequence. */
  lemma ToggleKeepsOthers(favorites: seq<int>, id: int)
    ensures Without(Toggled(favorites, id), id) == Without(favorites, id)
  {
    if id in favorites {
      WithoutAbsent(Without(favorites, id), id);
    } else {
      WithoutConcat(favorites, [id], id);
      assert Without([id], id) == [] by {
        assert [id][1..] == [];
      }
    }
  }

  /** Toggling an absent id twice restores the list exactly. */
  lemma ToggleTwiceRestores(favorites: seq<int>, id: int)
    requires id !in favorites
    ensures Toggled(Toggled(favorites, id), id) == favorites
  {
    ToggleKeepsOthers(favorites, id);
    WithoutAbsent(favorites, id);
  }

  /** Adding then untoggling is not symmetric: a present id comes back at the
      end, with every duplicate gone. */
  lemma ToggleTwicePresent(favorites: seq<int>, id: int)
    requires id in favorites
    ensures Toggled(Toggled(favorites, id), id) == Without(favorites, id) + [id]
  {
  }

  /** `items.map(it => it.id)`. */
  function FavouriteIds(items: seq<WantedPersonSummary>): (ids: seq<int>)
    ensures |ids| == |items|
    ensures forall i :: 0 <= i < |items| ==> ids[i] == items[i].id
  {
    if items == [] then [] else [items[0].id] + FavouriteIds(items[1..])
  }

  /** A person chosen for the location modal. */
  datatype PersonRef = PersonRef(id: int, title: string)

  /** A picked image, opaque to the page. */
  datatype FileRef = FileRef(name: string)

  /** The arguments of `saveFavourite(id, shouldSave)`. */
  datatype FavouriteCall = FavouriteCall(id: int, save: bool)

  /** The arguments of `reportLocation`. */
  datatype LocationReport = LocationReport(personId: int, lat: real, lng: real, details: string, fileUrl: string)

  const NoImage := "no image"

  /** The saved listing path; it begins with a slash, so the client puts it
      straight after the base address. */
  function SavedListPath(params: seq<HomePage.Param>): (p: string)
    ensures |p| > 0 && p[0] == '/'
    ensures !ApiClient.IsAbsolute(p)
  {
    var p := "/FbiWanted/saved?" + HomePage.QueryString(params);
    assert p[0] == '/';
    DiffersAt(p, "http://", 0);
    DiffersAt(p, "https://", 0);
    p
  }

  lemma SavedListUrl(baseUrl: Option<string>, params: seq<HomePage.Param>)
    ensures ApiClient.NormalizeUrl(baseUrl, SavedListPath(params)) == ApiClient.BaseText(baseUrl) + SavedListPath(params)
  {
    ApiClient.RootPathUrl(baseUrl, SavedListPath(params));
  }

  class SavedView {
    const pager: HomePage.ListPager
    var favorites: seq<int>
    var isMapOpen: bool
    var selected: Option<PersonRef>

    ghost predicate Valid()
      reads this, pager
    {
      pager.Valid()
    }

    constructor ()
      ensures Valid() && fresh(pager)
      ensures pager.data == None && pager.pageNumber == 1 && pager.pageSize == 12
      ensures pager.loading && pager.searchTerm == "" && pager.debouncedSearch == ""
      ensures favorites == [] && !isMapOpen && selected == None
    {
      pager := new HomePage.ListPager();
      favorites := [];
      isMapOpen := false;
      selected := None;
    }

    /** The heart shown on a card. */
    predicate IsFavourite(id: int)
      reads this
      ensures IsFavourite(id) <==> exists i :: 0 <= i < |favorites| && favorites[i] == id
    {
      id in favorites
    }

    /** Outcome of the saved-listing request: a resolved request stores its
        `data` and then sets the favourites to its ids in order; when that
        `data` is null, reading its items throws, so the null is stored but
        the favourites stay. A request that threw changes neither. */
    method LoadFinished(result: Load<PagedResult<WantedPersonSummary>>)
      requires Valid()
      modifies pager, this`favorites
      ensures Valid()
      ensures pager.data == (if result.Settled? then result.data else old(pager.data)) && !pager.loading
      ensures pager.pageNumber == old(pager.pageNumber) && pager.pageSize == old(pager.pageSize)
      ensures pager.searchTerm == old(pager.searchTerm) && pager.debouncedSearch == old(pager.debouncedSearch)
      ensures favorites ==
        (if result.Settled? && result.data.Some? then FavouriteIds(result.data.value.items) else old(favorites))
    {
      pager.LoadFinished(result);
      if result.Settled? && result.data.Some? {
        favorites := FavouriteIds(result.data.value.items);
      }
    }

    /** `toggleFavorite`: the list is updated first; the server is then told
        the new membership and its failure is only logged, so nothing is
        rolled back. `saveSucceeds` is the fate of that call. Returns the
        arguments of the server call. */
    method ToggleFavorite(id: int, saveSucceeds: bool) returns (call: FavouriteCall)
      modifies this`favorites
      ensures favorites == Toggled(old(favorites), id)
      ensures call == FavouriteCall(id, id !in old(favorites))
      ensures call.save <==> IsFavourite(id)
      ensures IsFavourite(id) <==> !old(IsFavourite(id))
    {
      var isCurrentlyFav := id in favorites;
      if isCurrentlyFav {
        favorites := Without(favorites, id);
      } else {
        favorites := favorites + [id];
      }
      call := FavouriteCall(id, !isCurrentlyFav);
    }

    /** `handleOpenMap`. */
    method HandleOpenMap(person: PersonRef)
      modifies this`selected, this`isMapOpen
      ensures selected == Some(person) && isMapOpen
    {
      selected := Some(person);
      isMapOpen := true;
    }

    /** The modal's close button: the selection is kept. */
    method CloseMap()
      modifies this`isMapOpen
      ensures !isMapOpen
    {
      isMapOpen := false;
    }

    /** `handleSubmitLocation`. `uploaded` is the outcome of `uploadFile`
        (`None` if it threw) and `reportOk` that of `reportLocation`.
        Returns the report sent, if one was. */
    method HandleSubmitLocation(lat: real, lng: real, details: string, file: Option<FileRef>,
                                uploaded: Option<string>, reportOk: bool)
      returns (report: Option<LocationReport>)
      modifies this`isMapOpen, this`selected
      ensures report.Some? <==> old(selected).Some? && (file.None? || uploaded.Some?)
      ensures report.Some? ==> report.value == LocationReport(old(selected).value.id, lat, lng, details,
                                                             if file.None? then NoImage else uploaded.value)
      ensures report.Some? && reportOk ==> !isMapOpen && selected == None
      ensures !(report.Some? && reportOk) ==> isMapOpen == old(isMapOpen) && selected == old(selected)
    {
      report := None;
      if selected.None? {
        return;
      }
      var fileUrl: string;
      if file.Some? {
        if uploaded.None? {
          return;
        }
        fileUrl := uploaded.value;
      } else {
        fileUrl := NoImage;
      }
      report := Some(LocationReport(selected.value.id, lat, lng, details, fileUrl));
      if reportOk {
        isMapOpen := false;
        selected := None;
      }
    }
  }
}
