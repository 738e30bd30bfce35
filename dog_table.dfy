/** `DogTable`: the table's query state (page, sort field and order), the loaded page of
    dogs with its loading and error flags, and the favorite toggle. */
module DogTable {
  import opened Wrappers
  import Lists
  import DogService
  import Decimal
  import Favorites

  const PageSize := 10
  const LoadFailedMessage := "Failed to load dogs"

  /** `Math.max(page - 1, 1)`: one page back, never below the first. */
  function PreviousPage(page: int): (r: int)
    ensures r >= 1
    ensures page >= 2 ==> r == page - 1
    ensures page <= 2 ==> r == 1
  {
    if page - 1 > 1 then page - 1 else 1
  }

  /** The order after the toggle on the current field: "asc" becomes "desc", anything else "asc". */
  function FlippedOrder(order: string): (r: string)
    ensures r == "asc" || r == "desc"
    ensures r == "desc" <==> order == "asc"
  {
    if order == "asc" then "desc" else "asc"
  }

  /** Toggling the order twice restores an "asc" or "desc" order. */
  lemma FlipTwice(order: string)
    requires order == "asc" || order == "desc"
    ensures FlippedOrder(FlippedOrder(order)) == order
  {
  }

  /** The `sort` parameter sent for a field and an order. */
  function SortParam(field: string, order: string): (s: string)
    ensures |s| == |field| + 1 + |order| && s[|field|] == ':'
    ensures s[..|field|] == field && s[|field| + 1..] == order
  {
    field + ":" + order
  }

  /** The offset of the first dog on a page. */
  function Offset(pageNumber: int, size: int): (from: int)
    ensures pageNumber >= 1 && size >= 0 ==> from >= 0
    ensures from + size == (pageNumber) * size
  {
    (pageNumber - 1) * size
  }

  /** The parameters `loadDogs` passes to `fetchDogs`. */
  function LoadParams(pageNumber: int, breeds: seq<string>, sort: string): (p: DogService.FetchDogsParams)
    ensures p.page == Some(pageNumber) && p.size == Some(PageSize)
    ensures p.from.Some? && p.from.value + PageSize == pageNumber * PageSize
    ensures p.breeds == Some(breeds) && p.sort == Some(sort)
    ensures p.zipCodes.None? && p.ageMin.None? && p.ageMax.None?
  {
    DogService.FetchDogsParams(
      breeds := Some(breeds), zipCodes := None, ageMin := None, ageMax := None,
      page := Some(pageNumber), from := Some(Offset(pageNumber, PageSize)),
      size := Some(PageSize), sort := Some(sort))
  }

  /** A load asks for the page, the fixed size and the offset `(page - 1) * size`, with the
      selected breeds and the sort string, and for no zip code or age bound. */
  lemma LoadQuery(pageNumber: int, breeds: seq<string>, sort: string)
    ensures var q := DogService.QueryParams(LoadParams(pageNumber, breeds, sort));
      && DogService.ValuesOf(q, "page") == [Decimal.FromInt(pageNumber)]
      && DogService.ValuesOf(q, "size") == [Decimal.FromInt(PageSize)]
      && DogService.ValuesOf(q, "from") == [Decimal.FromInt((pageNumber - 1) * 10)]
      && DogService.ValuesOf(q, "breeds") == breeds
      && DogService.ValuesOf(q, "sort") == (if sort != "" then [sort] else [])
      && DogService.ValuesOf(q, "zipCodes") == []
      && DogService.ValuesOf(q, "ageMin") == [] && DogService.ValuesOf(q, "ageMax") == []
  {
    var p := LoadParams(pageNumber, breeds, sort);
    DogService.QueryValues(p);
  }

  /** One rendered table. `dogs`, `loading`, `error`, `page`, `sortField` and `sortOrder`
      are its state; the page size never changes. */
  class Table {
    var dogs: seq<DogService.Dog>
    var loading: bool
    var error: Option<string>
    var page: int
    var sortField: string
    var sortOrder: string

    /** Every handler keeps the page at one or more and the order "asc" or "desc". */
    ghost predicate Valid()
      reads this
    {
      page >= 1 && (sortOrder == "asc" || sortOrder == "desc")
    }

    /** The initial state: nothing loaded yet, loading, first page, sorted by breed ascending. */
    constructor ()
      ensures Valid()
      ensures dogs == [] && loading && error == None
      ensures page == 1 && sortField == "breed" && sortOrder == "asc"
    {
      dogs := [];
      loading := true;
      error := None;
      page := 1;
      sortField := "breed";
      sortOrder := "asc";
    }

    /** The sort string the effects pass to `loadDogs`. */
    function CurrentSort(): (s: string)
      reads this
      ensures |s| == |sortField| + 1 + |sortOrder|
      ensures s[..|sortField|] == sortField && s[|sortField|] == ':' && s[|sortField| + 1..] == sortOrder
    {
      SortParam(sortField, sortOrder)
    }

    /** The first half of `loadDogs`: mark the table loading, clear the error and issue the
        request, whose parameters are returned. */
    method BeginLoad(pageNumber: int, breeds: seq<string>, sort: string) returns (request: DogService.FetchDogsParams)
      modifies this`loading, this`error
      ensures loading && error == None
      ensures request == LoadParams(pageNumber, breeds, sort)
    {
      loading := true;
      error := None;
      var from := (pageNumber - 1) * PageSize;
      request := DogService.FetchDogsParams(
        breeds := Some(breeds), zipCodes := None, ageMin := None, ageMax := None,
        page := Some(pageNumber), from := Some(from), size := Some(PageSize), sort := Some(sort));
    }

    /** The second half of `loadDogs`, when the response arrives: a result replaces the dogs,
        a thrown error sets the message and keeps the dogs; loading ends either way. Nothing
        checks that this is the response to the latest request. */
    method CompleteLoad(outcome: Result<DogService.FetchDogsResults, DogService.Error>)
      modifies this`dogs, this`error, this`loading
      ensures !loading
      ensures outcome.Success? ==> dogs == outcome.value.dogs && error == old(error)
      ensures outcome.Failure? ==> dogs == old(dogs) && error == Some(LoadFailedMessage)
    {
      if outcome.Success? {
        dogs := outcome.value.dogs;
      } else {
        error := Some(LoadFailedMessage);
      }
      loading := false;
    }

    /** The effect on a change of breeds, sort field or sort order: back to page 1, and load it. */
    method QueryChanged(breeds: seq<string>) returns (request: DogService.FetchDogsParams)
      requires Valid()
      modifies this`page, this`loading, this`error
      ensures Valid()
      ensures page == 1 && loading && error == None
      ensures request == LoadParams(1, breeds, SortParam(sortField, sortOrder))
    {
      page := 1;
      request := BeginLoad(1, breeds, CurrentSort());
    }

    /** The effect on a change of page: load the current page. */
    method PageChanged(breeds: seq<string>) returns (request: DogService.FetchDogsParams)
      requires Valid()
      modifies this`loading, this`error
      ensures Valid() && loading && error == None
      ensures request == LoadParams(page, breeds, SortParam(sortField, sortOrder))
    {
      request := BeginLoad(page, breeds, CurrentSort());
    }

    /** Next page, with no upper bound. */
    method HandlePaginationNext()
      requires Valid()
      modifies this`page
      ensures Valid() && page == old(page) + 1
    {
      page := page + 1;
    }

    /** Previous page, clamped at the first. */
    method HandlePaginationPrevious()
      requires Valid()
      modifies this`page
      ensures Valid() && page == PreviousPage(old(page))
    {
      page := if page - 1 > 1 then page - 1 else 1;
    }

    /** The sort toggle: the same field flips the order, another field is selected ascending. */
    method HandleSortChange(field: string)
      requires Valid()
      modifies this`sortField, this`sortOrder
      ensures Valid() && sortField == field
      ensures old(sortField) == field ==> sortOrder == FlippedOrder(old(sortOrder))
      ensures old(sortField) != field ==> sortOrder == "asc"
    {
      if sortField == field {
        sortOrder := if sortOrder == "asc" then "desc" else "asc";
      } else {
        sortField := field;
        sortOrder := "asc";
      }
    }

    /** Whether a dog is among the favorites passed to the table. */
    function IsFavorite(favorites: seq<string>, dogId: string): (b: bool)
      ensures b <==> exists i :: 0 <= i < |favorites| && favorites[i] == dogId
    {
      dogId in favorites
    }

    /** The star button: removes the dog from the favorites when it is one, adds it otherwise. */
    method ToggleFavorite(favorites: Favorites.FavoritesHook, dogId: string)
      modifies favorites
      ensures favorites.userEmail == old(favorites.userEmail)
      ensures dogId in old(favorites.dogFavorites) ==>
        favorites.dogFavorites == Lists.Without(old(favorites.dogFavorites), dogId)
      ensures dogId !in old(favorites.dogFavorites) ==>
        favorites.dogFavorites == old(favorites.dogFavorites) + [dogId]
      ensures favorites.storage == Favorites.Persisted(old(favorites.storage), favorites.userEmail, favorites.dogFavorites)
    {
      if IsFavorite(favorites.dogFavorites, dogId) {
        favorites.RemoveDogFavorite(dogId);
      } else {
        favorites.AddDogFavorite(dogId);
      }
    }
  }

  /** "Next" on a fresh table, then the page effect: page 2 is requested from offset `size`,
      with the same breeds and sort string. */
  method NextFromFirstPage(breeds: seq<string>) returns (request: DogService.FetchDogsParams)
    ensures var q := DogService.QueryParams(request);
      && DogService.ValuesOf(q, "page") == [Decimal.FromInt(2)]
      && DogService.ValuesOf(q, "from") == [Decimal.FromInt(PageSize)]
      && DogService.ValuesOf(q, "breeds") == breeds
  {
    var t := new Table();
    t.HandlePaginationNext();
    request := t.PageChanged(breeds);
    assert request.page == Some(2) && request.from == Some(PageSize) && request.breeds == Some(breeds);
    DogService.PageValues(request);
    DogService.FromValues(request);
    DogService.BreedsValues(request);
  }

  /** Two loads in flight, the newer answered first: the older response, arriving last,
      is what the table shows. */
  method StaleResponseWins(older: DogService.FetchDogsResults, newer: DogService.FetchDogsResults)
    returns (t: Table)
    ensures fresh(t) && t.page == 2
    ensures t.dogs == older.dogs && !t.loading
  {
    t := new Table();
    var first := t.PageChanged([]);
    t.HandlePaginationNext();
    var second := t.PageChanged([]);
    assert first.page == Some(1) && second.page == Some(2);
    t.CompleteLoad(Success(newer));
    t.CompleteLoad(Success(older));
  }

  /** Two loads in flight, the older one failing first: the table stops loading while the
      newer request is still open, and a later success leaves the error message in place. */
  method EarlyFailureEndsLoading(newer: DogService.FetchDogsResults, failure: DogService.Error)
    returns (t: Table)
    ensures fresh(t)
    ensures t.dogs == newer.dogs && t.error == Some(LoadFailedMessage) && !t.loading
  {
    t := new Table();
    var first := t.PageChanged([]);
    t.HandlePaginationNext();
    var second := t.PageChanged([]);
    t.CompleteLoad(Failure(failure));
    assert !t.loading;
    t.CompleteLoad(Success(newer));
  }
}
