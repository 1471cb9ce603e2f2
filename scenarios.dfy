/** Sequences of user actions on the controller and what its contracts
    let a caller conclude about them. */
module Scenarios {
  import opened Wrappers
  import opened Types
  import opened Calendar
  import opened TmdbApi
  import opened MediaDetails
  import opened App

  function Entry(id: int, name: string): RawItem
  {
    RawItem(id, None, Some(name), Some(""), None, 7.5, 12.0, None, Some("2024-01-01"), None)
  }

  /** Show kind, popular category, page 1, an answer of two entries out of
      five pages: two items, five pages, page 1, the list on screen. */
  method ShowPopularFirstPage()
  {
    var s := new ViewState();
    var refetch := s.ChooseMediaType(Tv);
    assert refetch;
    var again := s.ChooseCategory(Popular);
    assert !again;
    var body := RawPage(Some([Entry(1, "A"), Entry(2, "B")]), 5);
    var req, shown := s.LoadMediaItems(Date(2024, 5, 10), Ok(body));
    assert shown.body == LoadingBody;
    assert |s.mediaItems| == 2 && s.mediaItems[0].ShowSummary? && s.mediaItems[0].title == Some("A");
    assert s.totalPages == 5 && s.currentPage == 1 && s.error == None && !s.isLoading;
    assert s.Render().body.ListBody?;
    assert req.endpoint == "/tv/popular";
  }

  /** A failed list load leaves the two earlier items and shows the error. */
  method FailedLoadKeepsItems()
  {
    var s := new ViewState();
    var req, shown := s.LoadMediaItems(Date(2024, 5, 10), Ok(RawPage(Some([Entry(1, "A"), Entry(2, "B")]), 3)));
    var before := s.mediaItems;
    assert |before| == 2;
    req, shown := s.LoadMediaItems(Date(2024, 5, 10), Err("network"));
    assert s.mediaItems == before && s.totalPages == 3;
    assert s.mediaType == Movie;
    assert s.error == Some(ItemsFailedMessage(Movie));
    assert s.Render().body == ErrorBody(ItemsFailedMessage(Movie));
  }

  /** Selecting an item and going back restores the list with the same
      items and page, and issues no request. */
  method SelectThenGoBack(d: RawDetail)
    requires d.videos.Some? && d.images.Some? && d.genres.Some?
  {
    var s := new ViewState();
    var req, shown := s.LoadMediaItems(Date(2024, 5, 10), Ok(RawPage(Some([Entry(1, "A")]), 1)));
    var items, page := s.mediaItems, s.currentPage;
    req, shown := s.HandleItemSelect(items[0], Ok(d));
    assert req.endpoint == "/movie/1";
    assert s.selectedItem.Some? && s.Render().body.DetailBody? && s.Render().goBackShown;
    s.HandleGoBack();
    assert s.mediaItems == items && s.currentPage == page;
    assert s.Render().body.ListBody? && !s.Render().goBackShown;
  }

  /** From page 3 of a five-page list, a search answered with one page
      keeps page 3, so the list shows page 3 of 1 with Next enabled. */
  method SearchPastLastPage() returns (s: ViewState)
    ensures fresh(s) && s.Valid() && s.ListShown()
    ensures s.currentPage == 3 && s.totalPages == 1
  {
    s := new ViewState();
    var req, shown := s.LoadMediaItems(Date(2024, 5, 10), Ok(RawPage(Some([]), 5)));
    var moved := s.ClickNext();
    moved := s.ClickNext();
    req, shown := s.HandleSearch("dangal", Ok(RawPage(Some([Entry(9, "Dangal")]), 1)));
    assert s.Render().body.pager.nextDisabled == false;
  }

  /** The source's Next guard: from page 3 of 1, Next is enabled and a
      click leads to page 4 of 1, past the last page. */
  method SearchThenNextPassesLastPage() returns (page: int, total: int, refetch: bool)
    ensures page == 4 && total == 1 && refetch
  {
    var s := SearchPastLastPage();
    assert !s.Render().body.pager.nextDisabled;
    refetch := s.ClickNext();
    page, total := s.currentPage, s.totalPages;
  }

  /** The intended Next guard: from page 3 of 1 the button is disabled and
      a click leaves page 3. */
  method SearchThenIntendedNextStays() returns (page: int, total: int, refetch: bool)
    ensures page == 3 && total == 1 && !refetch
  {
    var s := SearchPastLastPage();
    assert s.IntendedRender().body.pager.nextDisabled;
    refetch := s.ClickNextIntended();
    page, total := s.currentPage, s.totalPages;
  }

  /** A movie is selected, then TV Shows is chosen, which keeps the
      selection; nothing is loading and no error is set, so the detail is
      rendered with media type `tv`. */
  method MovieSelectedThenTvShows() returns (s: ViewState)
    ensures fresh(s) && s.mediaType == Tv && !s.isLoading && s.error == None
    ensures s.selectedItem.Some? && s.selectedItem.value.MovieDetail? && s.selectedItem.value.genres == ["Drama"]
  {
    s := new ViewState();
    var raw := RawDetail(7, Some("Film"), None, None, None, 6.0, 3.0, Some([]), Some(Images([], [])),
                         Some("2024-02-02"), Some(150), Some([RawGenre(18, "Drama")]), None, None, None);
    var req, shown := s.HandleItemSelect(NormaliseItem(Movie, Entry(7, "Film")), Ok(raw));
    var refetch := s.ChooseMediaType(Tv);
  }

  /** As written, that render throws. */
  method KindSwitchThrows() returns (r: Rendered)
    ensures r.body == RenderThrows && r.goBackShown
  {
    var s := MovieSelectedThenTvShows();
    r := s.Render();
  }

  /** The intended render shows the movie's own lines. */
  method KindSwitchIntendedShowsMovie() returns (r: Rendered)
    ensures r.body.DetailBody? && r.body.detail.section.MovieSection?
    ensures r.body.detail.section.genres == ["Drama"]
  {
    var s := MovieSelectedThenTvShows();
    r := s.IntendedRender();
    DetailViewLines(s.selectedItem.value);
  }
}
