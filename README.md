# Indian Media Tracker: a Dafny model of its catalog client and view state

The Indian Media Tracker is a browser front end over the TMDB REST API. It
lists Hindi-language movies and TV shows for the Indian region, searches
them, pages through results, and shows one item's details with its
trailer and backdrops. This project models the three pieces that hold
logic and proves properties about them:

- **Catalog client** (`TmdbApi`, with `Calendar` and `Decimal`). It builds
  the request of each of the four calls: endpoint and query parameters,
  the fixed Hindi/IN/popularity filters, and the release window for
  upcoming movies. It reshapes the raw JSON records into view models:
  `title || name`, fields that depend on the kind, genre names, and
  countries. It also gives each call's error message. The HTTP exchange is
  an argument: either the parsed body or a failure. A JSON field that the
  code dereferences and that may be absent (`results`, `videos`, `images`,
  `genres`) is an `Option`. When it is absent, the call ends in the same
  `catch` as a transport failure. The release window uses JavaScript
  `Date` overflow: `new Date(y, m + 1, d)` is proved equal to counting
  `d - 1` days forward from the first of the next month. The model also
  follows the constructor in reading a year argument from 0 to 99 as
  1900 to 1999. The window's ISO
  text is proved to read back as the dates.
- **View-state controller** (`App.ViewState`). This is a class with the
  page's state fields and one method per handler. Each method's
  `modifies` frame names the fields it may change, and its
  `ensures` says what they become. The module also holds the pager guards
  and the render precedence: loading, then error, then detail, then list.
  The class renders and pages exactly as `App.tsx` writes them, and two
  of those behaviours look wrong (see "## Findings"). The corrected Next
  guard and detail view sit beside the as-written ones, under their own
  names.
- **Detail-view helpers** (`MediaDetails`). They cover the trailer choice
  (the first video typed `Trailer`), the case-insensitive status colour,
  the first five backdrops, and the image and embed addresses.

`Scenarios` contains client methods. Each one runs a sequence of user
actions on the controller and draws conclusions from the contracts alone.

Where the description of the system and the code disagree, the model
follows the code:
- Error messages name only the operation and the media type, not the
  category or id.
- The state keeps loading and error as separate flags; there is no single
  status value.
- The country list is fetched again each time the catalog effect runs, not
  once per session.
- No request is ever superseded or discarded.

## Model

| member | source | states |
|---|---|---|
| `Decimal.ParseDecimalString` | src/services/tmdbApi.ts:19-24 | a page (or id) written as its query text reads back as the same integer |
| `Decimal.ZeroPadValue` | src/services/tmdbApi.ts:138-139 | zero-padding a date part keeps its value |
| `Decimal.ZeroPadLength` | src/services/tmdbApi.ts:138-139 | a number below 10^w, padded, fills exactly w characters |
| `Calendar.NextMonthSameDay` | src/services/tmdbApi.ts:136 | the upper bound of the window is a valid date strictly after today |
| `Calendar.NextMonthBounds` | src/services/tmdbApi.ts:136 | if today's day fits the next month, the bound is that day of the next month; otherwise it is at most 3 days into the month after |
| `Calendar.NormaliseIsAddDays` | src/services/tmdbApi.ts:136 | Date's day overflow for `(y, m, day)` equals counting `day - 1` days forward from the first of month m |
| `Calendar.NextMonthIsDayCount` | src/services/tmdbApi.ts:136 | the upper bound is today's day-of-month counted forward from the first of next month |
| `Calendar.DecemberRollsOver` | src/services/tmdbApi.ts:136 | a December date rolls to the same day of January of the next year (of the constructor's year) |
| `Calendar.LeapJanuaryEnd` | src/services/tmdbApi.ts:136 | 2024-01-31 gives 2024-03-02 |
| `Calendar.CommonJanuaryEnd` | src/services/tmdbApi.ts:136 | 2023-01-31 gives 2023-03-03 |
| `Calendar.TwoDigitYearJumpsCentury` | src/services/tmdbApi.ts:136 | the constructor reads a two-digit year as 19yy: 10 March of year 50 gives 10 April 1950 |
| `Calendar.IsoDateRoundTrip` | src/services/tmdbApi.ts:138-139 | the date text of a four-digit year is ten characters and reads back as the date |
| `TmdbApi.TitleOrName` | src/services/tmdbApi.ts:34 | the JavaScript logical or of the two: the result is the title when the title is present and non-empty, else the name as it is; it is truthy iff either input is |
| `TmdbApi.NormaliseItem` | src/services/tmdbApi.ts:32-42 | a reshaped entry has the requested media kind |
| `TmdbApi.NormaliseItems` | src/services/tmdbApi.ts:32-42 | `.map` keeps length and order: entry i is the reshaping of raw entry i |
| `TmdbApi.GenreNames` | src/services/tmdbApi.ts:106 | genre names keep length and order |
| `TmdbApi.NormaliseCountries` | src/services/tmdbApi.ts:123-126 | countries keep length and order, with `iso_3166_1` as code and `english_name` as name |
| `TmdbApi.NormaliseItemFields` | src/services/tmdbApi.ts:32-42 | title falls back to name unless present and non-empty; shared fields are copied; movies carry `releaseDate` only; shows carry `firstAirDate` and `status`, and are not movie summaries |
| `TmdbApi.ListRequestShape` | src/services/tmdbApi.ts:18-28 | endpoint `/kind/category`; the fixed filters and the page are present; both window keys are present iff the category is upcoming and the kind is movie; no other keys |
| `TmdbApi.UpcomingWindow` | src/services/tmdbApi.ts:134-140 | the window of an upcoming-movies request reads back as today and as the next-month date, which is later |
| `TmdbApi.SearchRequestShape` | src/services/tmdbApi.ts:53-60 | endpoint `/search/kind`; the query is passed as given; the fixed filters and the page are present; there is never a window |
| `TmdbApi.DetailRequestShape` | src/services/tmdbApi.ts:84-88 | endpoint `/kind/id`, whose last segment reads back as the id, with `append_to_response=videos,images` only |
| `TmdbApi.PageOutcome` | src/services/tmdbApi.ts:30-48 | success iff the exchange succeeded with a `results` array; then entries are reshaped in order and `total_pages` is unchanged; otherwise the call's message |
| `TmdbApi.ItemsMessageNamesCall` | src/services/tmdbApi.ts:47 | the list failure message mentions the media type, "fetch" and "items" |
| `TmdbApi.SearchMessageNamesCall` | src/services/tmdbApi.ts:78 | the search failure message mentions the media type and "search" |
| `TmdbApi.DetailsMessageNamesCall` | src/services/tmdbApi.ts:116 | the detail failure message mentions the media type and "details" |
| `TmdbApi.CountriesMessageNamesCall` | src/services/tmdbApi.ts:129 | the countries failure message mentions "countries" |
| `TmdbApi.FetchMediaItemsOutcome` | src/services/tmdbApi.ts:16-49 | a list call issues the list request; it fails with its own message iff the body is missing; on success it gives the same number of items and `total_pages` unchanged |
| `TmdbApi.SearchMediaOutcome` | src/services/tmdbApi.ts:51-80 | the same for search, with the search request and message |
| `TmdbApi.FetchMediaDetailsOutcome` | src/services/tmdbApi.ts:82-118 | success iff videos and images are present, plus genres for a movie; the record has the requested kind and the title fallback; a movie's genres are its genre names, and a show's next episode is passed through (absent included) |
| `TmdbApi.FetchCountriesOutcome` | src/services/tmdbApi.ts:120-131 | a countries call maps every entry in order, or fails with its message |
| `MediaDetails.ImageUrl` | src/components/MediaDetails.tsx:34 | an image address is the w300 image host followed by exactly the path |
| `MediaDetails.EmbedUrl` | src/components/MediaDetails.tsx:72 | a trailer address is the embed prefix followed by exactly the key |
| `MediaDetails.TrailerIndex` | src/components/MediaDetails.tsx:10 | the index found is the first video typed exactly `Trailer`; none is found iff no video is a trailer |
| `MediaDetails.FindTrailer` | src/components/MediaDetails.tsx:10 | the trailer is the video at the first trailer position; it is absent iff no video is a trailer |
| `MediaDetails.ToLower` | src/components/MediaDetails.tsx:13 | lower-casing keeps the length and folds character by character |
| `MediaDetails.StatusColorCases` | src/components/MediaDetails.tsx:12-27 | each of the five lower-case names gets its own colour, and any other lower-cased status gets `text-black` |
| `MediaDetails.StatusColorIgnoresCase` | src/components/MediaDetails.tsx:13 | a status and its lower-case form get the same colour |
| `MediaDetails.ReturningSeriesIsGreen` | src/components/MediaDetails.tsx:14-15 | "Returning Series" is green |
| `MediaDetails.InProductionIsYellow` | src/components/MediaDetails.tsx:16-17 | "In Production" is yellow |
| `MediaDetails.EndedIsGray` | src/components/MediaDetails.tsx:22-23 | "Ended" is gray |
| `MediaDetails.UnknownStatusIsBlack` | src/components/MediaDetails.tsx:24-25 | an unknown status is black |
| `MediaDetails.GalleryBackdrops` | src/components/MediaDetails.tsx:84 | `slice(0, 5)` has min(5, n) elements and is a prefix, so the first ones in order |
| `MediaDetails.BackdropUrls` | src/components/MediaDetails.tsx:84-90 | every shown backdrop's address is the image address of its path, in order |
| `MediaDetails.DetailViewSections` | src/components/MediaDetails.tsx:66-94 | the poster address is the host plus the poster path; the trailer section shows iff some video is a trailer, and embeds the first; the gallery shows iff there are backdrops, at most 5, in order |
| `MediaDetails.DetailViewLines` | src/components/MediaDetails.tsx:39-60 | movie lines for a movie; for a show, the status colour when there is a status, and the next-episode line iff the next episode is present |
| `MediaDetails.AsWrittenNeedsMatchingKind` | src/components/MediaDetails.tsx:39-60 | as written, the render throws when the record's kind differs from the app's media type; otherwise it agrees with the kind-dispatched view |
| `MediaDetails.MovieShownAsShowThrows` | src/components/MediaDetails.tsx:39-50 | a concrete movie record rendered with media type tv throws |
| `App.RenderPrecedence` | src/App.tsx:122-164 | loading, then error, then detail, then list. The list and pager show iff not loading, no error and no selection. Previous is disabled iff page = 1 and Next iff page = total. The render throws iff the selected record's kind differs from the app's media type, or the record is a show without a status. Go Back shows iff an item is selected |
| `App.IntendedViewAgrees` | src/App.tsx:139-157 | the corrected render never throws, and its enabled Next leads at most to the last page. Wherever the source's render works it is the same: the record has the app's kind, a show has a status, and the page is not past the last one |
| `App.ViewState.constructor` | src/App.tsx:11-20 | the initial hook values |
| `App.ViewState.LoadMediaItems` | src/App.tsx:27-38 | loading is shown while the current kind/category/page is fetched; on success the items and total pages are replaced and the error is null; on failure they are kept and the error names the media type; loading ends |
| `App.ViewState.LoadCountries` | src/App.tsx:40-47 | countries are replaced on success; on failure nothing changes, the error included |
| `App.ViewState.RefreshCatalog` | src/App.tsx:22-25 | the effect issues the list request for the current state and then the countries request, with both outcomes applied |
| `App.ViewState.HandleSearch` | src/App.tsx:49-60 | searches on the current page without resetting it; success replaces items and total pages; failure keeps them with the search message |
| `App.ViewState.HandleItemSelect` | src/App.tsx:62-72 | success selects the fetched details; failure keeps the selection and sets the detail message; items and page are untouched |
| `App.ViewState.HandleGoBack` | src/App.tsx:74-76 | clears the selection and changes nothing else; no request |
| `App.ViewState.HandlePageChange` | src/App.tsx:78-80 | sets the page; the effect runs again iff the page changed |
| `App.ViewState.ChooseMediaType` | src/App.tsx:89-100 | sets the kind and page 1, and keeps the selection; the effect runs again iff either changed |
| `App.ViewState.ChooseCategory` | src/App.tsx:103-111 | sets the category and page 1; the effect runs again iff either changed |
| `App.ViewState.ClickPrevious` | src/App.tsx:145-151 | shown with the list only; the page goes down by one unless it is 1, and stays at least 1 |
| `App.ViewState.ClickNext` | src/App.tsx:155-161 | shown with the list only; the page goes up by one unless it equals the page count (the `===` guard as written) |
| `App.ViewState.ClickNextIntended` | src/App.tsx:155-161 | with the corrected `>=` guard, the page goes up by one unless it is at or past the page count, and a move never passes the last page |
| `App.ViewState.SelectCountry` | src/App.tsx:117-121 | records the chosen country only; no request and no effect |
| `Scenarios.SearchPastLastPage` | src/App.tsx:49-60 | from page 3 of a five-page list, a search that answers with one page keeps page 3, so the list shows page 3 of 1 |
| `Scenarios.SearchThenNextPassesLastPage` | src/App.tsx:155-157 | from page 3 of 1 the written guard leaves Next enabled, and a click leads to page 4 of 1 and refetches |
| `Scenarios.SearchThenIntendedNextStays` | src/App.tsx:155-157 | from page 3 of 1 the corrected guard keeps the page at 3, with no refetch |
| `Scenarios.MovieSelectedThenTvShows` | src/App.tsx:89-100 | pressing TV Shows after selecting a movie keeps the movie record selected, with nothing loading and no error |
| `Scenarios.KindSwitchThrows` | src/App.tsx:139-140 | the render of that state throws |
| `Scenarios.KindSwitchIntendedShowsMovie` | src/components/MediaDetails.tsx:39-44 | the corrected render of that state shows the movie's own lines, with its genre names |

## Left out

- The HTTP transport, the API key read from the environment and the client's default parameters (`api_key`, `language`, `region`): each call's outcome is an argument.
- Async interleaving: each handler applies its outcome before the next event, so overlapping requests and out-of-order completion are not modelled; the source has no logic that discards late answers.
- Reading the clock and the UTC conversion of `toISOString`: `today` is a calendar-date argument, and the window is printed as if local time were UTC. East of UTC (India is UTC+5:30), the source's upper bound is local midnight, so its ISO text is the previous calendar day, and today's text can also differ from the local date. The model does not capture that shift.
- Number formatting (`toFixed`, `toLocaleDateString`), the `', '` join of genre names, JSX, CSS classes other than the status colours, and `console.error` logging.
- `src/components/ShowDetails.tsx` and `src/components/ShowList.tsx`: dead code that imports types `src/types.ts` does not export; App never imports them.
- `src/components/MediaList.tsx`, `SearchBar.tsx` and `FilterMenu.tsx`: display and input glue. Their events are handler arguments (the clicked item, the query, the chosen country).
- JSON values of the wrong type (a number where a string is expected) are not modelled; only absent fields that the code dereferences are. `null` and `undefined` are both `None`.
- MediaDetails.PathText: an absent poster path prints as `null`, which is how TMDB's `"poster_path": null` prints. A poster path missing from the body altogether is `undefined` in the source and prints as `undefined`; the model does not tell it apart.
- TmdbApi.NormaliseDetail: `videos` stands for `videos.results`, and `images` for an object that carries both lists. A `videos` object without `results`, or an `images` object without `backdrops`, makes the model's detail call fail. The source does not throw there (tmdbApi.ts:97-100); it throws later, in the render (MediaDetails.tsx:10, 80). The model does not represent such a record.
- TmdbApi.FetchCountries: a body that is not an array throws inside `.map` and takes the same `catch`, so it is folded into the failed exchange.
- MediaDetails.ToLower: folds only the ASCII letters; `toLowerCase` folds all of Unicode.
- MediaDetails.DetailView: a show without a status gets no status colour, whereas the source throws in `status.toLowerCase()`. `DetailViewAsWritten` models the throw.
- Calendar.IsoDateRoundTrip: stated for years 0 to 9999 only; `toISOString` writes other years with a sign and six digits, which `YearText` produces but nothing parses back.
- Vote average and popularity are opaque `real` values.

## Findings

| source | as written | input that shows it | evidently intended | confidence | as-written member | corrected member |
|---|---|---|---|---|---|---|
| src/App.tsx:157 | Next is disabled only when the page equals the page count. A search keeps the current page, so the page can already be past the last page, and then Next stays enabled | the list is on page 3 of 5; a search answers with `total_pages` 1, giving page 3 of 1; Next is enabled and leads to page 4 | Next disabled from the last page on (`currentPage >= totalPages`) | not executed | `Scenarios.SearchThenNextPassesLastPage` | `App.ViewState.ClickNextIntended` |
| src/components/MediaDetails.tsx:39 | the detail lines pick the kind from the app's current media type, not from the selected record. Choosing TV Shows keeps the selection, so a movie record is rendered as a show, and `status.toLowerCase()` on its absent status throws | select a movie, then press TV Shows: the page renders the detail with media type `tv` | the lines follow the record's own kind | not executed | `Scenarios.KindSwitchThrows` | `App.IntendedViewAgrees` |
