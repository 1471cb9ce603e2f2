/** The view-state controller (src/App.tsx): the state the page keeps, one
    method per event handler, the pager guards and what the page renders.
    Each handler that awaits the API takes the raw outcome of its HTTP
    exchange as an argument and runs the corresponding client function
    of TmdbApi on it; the clock reading of the list call is `today`. */
module App {
  import opened Wrappers
  import opened Types
  import opened Calendar
  import opened TmdbApi
  import opened MediaDetails

  // ---------------------------------------------------------------------
  // Pager guards

  /** The `disabled` test of the Previous button. */
  predicate PreviousDisabled(currentPage: int)
  {
    currentPage == 1
  }

  /** The `disabled` test of the Next button as the source writes it. */
  predicate NextDisabledAsWritten(currentPage: int, totalPages: int)
  {
    currentPage == totalPages
  }

  /** The `disabled` test of the Next button as evidently intended: there
      is no page after the last one. */
  predicate NextDisabled(currentPage: int, totalPages: int)
  {
    currentPage >= totalPages
  }

  // ---------------------------------------------------------------------
  // What the page renders

  datatype Pager = Pager(currentPage: int, totalPages: int, previousDisabled: bool, nextDisabled: bool)

  /** The main area of the page. `RenderThrows` is a render that throws a
      TypeError in the detail view, after which React unmounts the page. */
  datatype Body =
    | LoadingBody
    | ErrorBody(message: string)
    | DetailBody(detail: DetailScreen)
    | RenderThrows
    | ListBody(items: seq<MediaSummary>, pager: Pager)

  /** The page below the kind, category and search controls: whether the
      Go Back button is shown, and the main area. */
  datatype Rendered = Rendered(goBackShown: bool, body: Body)

  /** The detail area as App.tsx renders it: the component is given the
      app's current media type. */
  function DetailArea(d: MediaDetail, mediaType: MediaType): (b: Body)
  {
    match DetailViewAsWritten(d, mediaType)
    case None => RenderThrows
    case Some(screen) => DetailBody(screen)
  }

  /** The conditional chain of the render as App.tsx writes it: loading,
      then the error, then the detail, then the list and a pager whose
      Next guard is `===`. */
  function View(mediaType: MediaType, isLoading: bool, error: Option<string>, selectedItem: Option<MediaDetail>,
                items: seq<MediaSummary>, currentPage: int, totalPages: int): (r: Rendered)
  {
    var body :=
      if isLoading then LoadingBody
      else if error.Some? then ErrorBody(error.value)
      else if selectedItem.Some? then DetailArea(selectedItem.value, mediaType)
      else ListBody(items, Pager(currentPage, totalPages, PreviousDisabled(currentPage),
                                 NextDisabledAsWritten(currentPage, totalPages)));
    Rendered(selectedItem.Some?, body)
  }

  /** The same chain as evidently intended: the detail follows the record's
      own kind, and Next is disabled from the last page on. */
  function IntendedView(isLoading: bool, error: Option<string>, selectedItem: Option<MediaDetail>,
                        items: seq<MediaSummary>, currentPage: int, totalPages: int): (r: Rendered)
  {
    var body :=
      if isLoading then LoadingBody
      else if error.Some? then ErrorBody(error.value)
      else if selectedItem.Some? then DetailBody(DetailView(selectedItem.value))
      else ListBody(items, Pager(currentPage, totalPages, PreviousDisabled(currentPage),
                                 NextDisabled(currentPage, totalPages)));
    Rendered(selectedItem.Some?, body)
  }

  /** Loading wins over everything, an error over a selection, a selection
      over the list; the list and pager show exactly when nothing is
      loading, no error is set and nothing is selected, with Previous
      disabled exactly on page 1 and Next exactly on page `totalPages`; a
      selected record whose kind is not the app's media type (or a show
      without a status) makes the render throw; Go Back shows exactly when
      an item is selected. */
  lemma RenderPrecedence(mediaType: MediaType, isLoading: bool, error: Option<string>, selectedItem: Option<MediaDetail>,
                         items: seq<MediaSummary>, currentPage: int, totalPages: int)
    ensures var r := View(mediaType, isLoading, error, selectedItem, items, currentPage, totalPages);
            && (r.body.LoadingBody? <==> isLoading)
            && (r.body.ErrorBody? <==> !isLoading && error.Some?)
            && (r.body.ErrorBody? ==> r.body.message == error.value)
            && (r.body.DetailBody? || r.body.RenderThrows? <==> !isLoading && error.None? && selectedItem.Some?)
            && (r.body.RenderThrows? <==> !isLoading && error.None? && selectedItem.Some?
                                          && (DetailKind(selectedItem.value) != mediaType
                                              || (selectedItem.value.ShowDetail? && selectedItem.value.status.None?)))
            && (r.body.ListBody? <==> !isLoading && error.None? && selectedItem.None?)
            && (r.body.ListBody? ==> && r.body.items == items && r.body.pager.currentPage == currentPage
                                     && r.body.pager.totalPages == totalPages
                                     && (r.body.pager.previousDisabled <==> currentPage == 1)
                                     && (r.body.pager.nextDisabled <==> currentPage == totalPages))
            && (r.goBackShown <==> selectedItem.Some?)
  {
    if selectedItem.Some? {
      AsWrittenNeedsMatchingKind(selectedItem.value, mediaType);
    }
  }

  /** The corrected render never throws and its Next never leads past the
      last page; wherever the source's render works (the selected record
      has the app's kind, a show has a status, the page is not past the
      last one) the two renders are the same. */
  lemma IntendedViewAgrees(mediaType: MediaType, isLoading: bool, error: Option<string>, selectedItem: Option<MediaDetail>,
                           items: seq<MediaSummary>, currentPage: int, totalPages: int)
    ensures var r := IntendedView(isLoading, error, selectedItem, items, currentPage, totalPages);
            && !r.body.RenderThrows?
            && (r.body.ListBody? && !r.body.pager.nextDisabled ==> currentPage + 1 <= totalPages)
    ensures (selectedItem.Some? ==> DetailKind(selectedItem.value) == mediaType
                                    && (selectedItem.value.ShowDetail? ==> selectedItem.value.status.Some?))
            && currentPage <= totalPages
            ==> View(mediaType, isLoading, error, selectedItem, items, currentPage, totalPages)
                == IntendedView(isLoading, error, selectedItem, items, currentPage, totalPages)
  {
    if selectedItem.Some? {
      AsWrittenNeedsMatchingKind(selectedItem.value, mediaType);
    }
  }

  // ---------------------------------------------------------------------
  // The controller

  class ViewState {
    var mediaType: MediaType
    var category: Category
    var mediaItems: seq<MediaSummary>
    var selectedItem: Option<MediaDetail>
    var isLoading: bool
    var error: Option<string>
    var selectedCountry: string
    var countries: seq<Country>
    var currentPage: int
    var totalPages: int

    /** The page number never drops below 1. */
    ghost predicate Valid()
      reads this
    {
      1 <= currentPage
    }

    /** The initial state of the hooks. */
    constructor ()
      ensures Valid()
      ensures mediaType == Movie && category == Popular && mediaItems == [] && selectedItem == None
      ensures !isLoading && error == None && selectedCountry == "IN" && countries == []
      ensures currentPage == 1 && totalPages == 1
    {
      mediaType, category, mediaItems, selectedItem := Movie, Popular, [], None;
      isLoading, error, selectedCountry, countries := false, None, "IN", [];
      currentPage, totalPages := 1, 1;
    }

    /** What the page shows in this state. */
    function Render(): (r: Rendered)
      reads this
    {
      View(mediaType, isLoading, error, selectedItem, mediaItems, currentPage, totalPages)
    }

    /** What the corrected page shows in this state. */
    function IntendedRender(): (r: Rendered)
      reads this
    {
      IntendedView(isLoading, error, selectedItem, mediaItems, currentPage, totalPages)
    }

    /** The list and its pager are on screen. */
    predicate ListShown()
      reads this
    {
      !isLoading && error.None? && selectedItem.None?
    }

    /** `loadMediaItems`: loading is switched on and the error cleared, the
        current kind, category and page are fetched; on success the items
        and the page count are replaced, on failure they are kept and the
        error names the media type; loading ends either way. Nothing else
        changes. `whileLoading` is what the page shows during the request. */
    method LoadMediaItems(today: Date, response: Result<RawPage, string>) returns (req: Request, whileLoading: Rendered)
      requires ValidDate(today)
      modifies this`isLoading, this`error, this`mediaItems, this`totalPages
      ensures whileLoading == Rendered(selectedItem.Some?, LoadingBody)
      ensures var f := FetchMediaItems(mediaType, category, currentPage, today, response);
              && req == f.request
              && (f.outcome.Ok? ==> mediaItems == f.outcome.value.results && totalPages == f.outcome.value.totalPages
                                    && error == None)
              && (f.outcome.Err? ==> mediaItems == old(mediaItems) && totalPages == old(totalPages)
                                     && error == Some(ItemsFailedMessage(mediaType)))
      ensures !isLoading
    {
      isLoading := true;
      error := None;
      whileLoading := Render();
      var f := FetchMediaItems(mediaType, category, currentPage, today, response);
      req := f.request;
      match f.outcome {
        case Ok(page) =>
          mediaItems := page.results;
          totalPages := page.totalPages;
        case Err(_) =>
          error := Some(ItemsFailedMessage(mediaType));
      }
      isLoading := false;
    }

    /** `loadCountries`: the list is replaced on success; a failure is only
        logged and touches no other state, the error included. */
    method LoadCountries(response: Result<seq<RawCountry>, string>) returns (req: Request)
      modifies this`countries
      ensures var f := FetchCountries(response);
              && req == f.request
              && (f.outcome.Ok? ==> countries == f.outcome.value)
              && (f.outcome.Err? ==> countries == old(countries))
    {
      var f := FetchCountries(response);
      req := f.request;
      if f.outcome.Ok? {
        countries := f.outcome.value;
      }
    }

    /** The effect that runs on mount and whenever the media type, the
        category or the page changes: load the items, then the countries. */
    method RefreshCatalog(today: Date, itemsResponse: Result<RawPage, string>,
                          countriesResponse: Result<seq<RawCountry>, string>)
      returns (itemsRequest: Request, countriesRequest: Request)
      requires ValidDate(today)
      modifies this`isLoading, this`error, this`mediaItems, this`totalPages, this`countries
      ensures itemsRequest == ListRequest(mediaType, category, currentPage, today)
      ensures countriesRequest == CountriesRequest
      ensures var f := FetchMediaItems(mediaType, category, currentPage, today, itemsResponse);
              && (f.outcome.Ok? ==> mediaItems == f.outcome.value.results && totalPages == f.outcome.value.totalPages
                                    && error == None)
              && (f.outcome.Err? ==> mediaItems == old(mediaItems) && totalPages == old(totalPages)
                                     && error == Some(ItemsFailedMessage(mediaType)))
      ensures var g := FetchCountries(countriesResponse);
              countries == if g.outcome.Ok? then g.outcome.value else old(countries)
      ensures !isLoading
    {
      var shown;
      itemsRequest, shown := LoadMediaItems(today, itemsResponse);
      countriesRequest := LoadCountries(countriesResponse);
    }

    /** `handleSearch`: like a list load, but a search for `query` on the
        current page, which is neither reset nor changed. */
    method HandleSearch(query: string, response: Result<RawPage, string>) returns (req: Request, whileLoading: Rendered)
      modifies this`isLoading, this`error, this`mediaItems, this`totalPages
      ensures whileLoading == Rendered(selectedItem.Some?, LoadingBody)
      ensures var f := SearchMedia(mediaType, query, currentPage, response);
              && req == f.request
              && (f.outcome.Ok? ==> mediaItems == f.outcome.value.results && totalPages == f.outcome.value.totalPages
                                    && error == None)
              && (f.outcome.Err? ==> mediaItems == old(mediaItems) && totalPages == old(totalPages)
                                     && error == Some(SearchFailedMessage(mediaType)))
      ensures !isLoading
    {
      isLoading := true;
      error := None;
      whileLoading := Render();
      var f := SearchMedia(mediaType, query, currentPage, response);
      req := f.request;
      match f.outcome {
        case Ok(page) =>
          mediaItems := page.results;
          totalPages := page.totalPages;
        case Err(_) =>
          error := Some(SearchFailedMessage(mediaType));
      }
      isLoading := false;
    }

    /** `handleItemSelect`: fetches the details of `item` as the current
        media type; on success they become the selection, on failure the
        selection is kept and the error names the media type. The items
        and the page are untouched. */
    method HandleItemSelect(item: MediaSummary, response: Result<RawDetail, string>) returns (req: Request, whileLoading: Rendered)
      modifies this`isLoading, this`error, this`selectedItem
      ensures whileLoading == Rendered(old(selectedItem).Some?, LoadingBody)
      ensures var f := FetchMediaDetails(mediaType, item.id, response);
              && req == f.request
              && (f.outcome.Ok? ==> selectedItem == Some(f.outcome.value) && error == None)
              && (f.outcome.Err? ==> selectedItem == old(selectedItem) && error == Some(DetailsFailedMessage(mediaType)))
      ensures !isLoading
    {
      isLoading := true;
      error := None;
      whileLoading := Render();
      var f := FetchMediaDetails(mediaType, item.id, response);
      req := f.request;
      match f.outcome {
        case Ok(details) =>
          selectedItem := Some(details);
        case Err(_) =>
          error := Some(DetailsFailedMessage(mediaType));
      }
      isLoading := false;
    }

    /** `handleGoBack`: clears the selection and nothing else; no request is made. */
    method HandleGoBack()
      modifies this`selectedItem
      ensures selectedItem == None
    {
      selectedItem := None;
    }

    /** `handlePageChange`; `refetch` tells whether the catalog effect runs again. */
    method HandlePageChange(newPage: int) returns (refetch: bool)
      modifies this`currentPage
      ensures currentPage == newPage
      ensures refetch <==> newPage != old(currentPage)
    {
      refetch := newPage != currentPage;
      currentPage := newPage;
    }

    /** The Movies and TV Shows buttons: set the media type and go back to
        page 1; the effect runs again unless both were already so. The
        selection is kept. */
    method ChooseMediaType(t: MediaType) returns (refetch: bool)
      modifies this`mediaType, this`currentPage
      ensures mediaType == t && currentPage == 1 && Valid()
      ensures refetch <==> old(mediaType) != t || old(currentPage) != 1
    {
      refetch := mediaType != t || currentPage != 1;
      mediaType := t;
      currentPage := 1;
    }

    /** The category buttons: set the category and go back to page 1. */
    method ChooseCategory(c: Category) returns (refetch: bool)
      modifies this`category, this`currentPage
      ensures category == c && currentPage == 1 && Valid()
      ensures refetch <==> old(category) != c || old(currentPage) != 1
    {
      refetch := category != c || currentPage != 1;
      category := c;
      currentPage := 1;
    }

    /** The Previous button: it exists only while the list is shown and is
        disabled on page 1, so the page stays at least 1. */
    method ClickPrevious() returns (refetch: bool)
      requires Valid()
      modifies this`currentPage
      ensures Valid()
      ensures old(ListShown()) && !PreviousDisabled(old(currentPage)) ==> currentPage == old(currentPage) - 1 && refetch
      ensures !(old(ListShown()) && !PreviousDisabled(old(currentPage))) ==> currentPage == old(currentPage) && !refetch
    {
      if ListShown() && !PreviousDisabled(currentPage) {
        refetch := HandlePageChange(currentPage - 1);
      } else {
        refetch := false;
      }
    }

    /** The Next button as written: it exists only while the list is shown
        and is disabled exactly on page `totalPages`, so from a page past
        the last one it still moves on. */
    method ClickNext() returns (refetch: bool)
      requires Valid()
      modifies this`currentPage
      ensures Valid()
      ensures old(ListShown()) && !NextDisabledAsWritten(old(currentPage), totalPages)
              ==> currentPage == old(currentPage) + 1 && refetch
      ensures !(old(ListShown()) && !NextDisabledAsWritten(old(currentPage), totalPages))
              ==> currentPage == old(currentPage) && !refetch
    {
      if ListShown() && !NextDisabledAsWritten(currentPage, totalPages) {
        refetch := HandlePageChange(currentPage + 1);
      } else {
        refetch := false;
      }
    }

    /** The Next button as evidently intended: disabled from the last page
        on, so it never leads past the last page. */
    method ClickNextIntended() returns (refetch: bool)
      requires Valid()
      modifies this`currentPage
      ensures Valid()
      ensures old(ListShown()) && !NextDisabled(old(currentPage), totalPages)
              ==> currentPage == old(currentPage) + 1 && refetch
      ensures !(old(ListShown()) && !NextDisabled(old(currentPage), totalPages))
              ==> currentPage == old(currentPage) && !refetch
      ensures currentPage != old(currentPage) ==> currentPage <= totalPages
    {
      if ListShown() && !NextDisabled(currentPage, totalPages) {
        refetch := HandlePageChange(currentPage + 1);
      } else {
        refetch := false;
      }
    }

    /** The country filter: it records the choice and nothing else; the
        choice reaches no request and does not trigger the effect. */
    method SelectCountry(code: string)
      modifies this`selectedCountry
      ensures selectedCountry == code
    {
      selectedCountry := code;
    }
  }
}
