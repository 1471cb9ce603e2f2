/** The client of the remote catalog (src/services/tmdbApi.ts): the request
    each call issues and how its JSON answer is reshaped into view models.
    The HTTP exchange itself is a parameter: `response` is either the parsed
    body or the transport failure, and the clock reading is `today`. */
module TmdbApi {
  import opened Wrappers
  import opened Types
  import opened Decimal
  import opened Calendar

  // ---------------------------------------------------------------------
  // Raw JSON records, as far as the client reads them

  /** One entry of `results`: movies carry `title` and `release_date`,
      shows carry `name`, `first_air_date` and sometimes `status`. */
  datatype RawItem = RawItem(
    id: int, title: Option<string>, name: Option<string>, overview: Option<string>,
    posterPath: Option<string>, voteAverage: real, popularity: real,
    releaseDate: Option<string>, firstAirDate: Option<string>, status: Option<string>)

  /** A list or search answer; `results` is absent when the body is malformed. */
  datatype RawPage = RawPage(results: Option<seq<RawItem>>, totalPages: int)

  datatype RawGenre = RawGenre(id: int, name: string)

  /** A detail answer with `append_to_response=videos,images`; `videos`
      stands for `videos.results`. */
  datatype RawDetail = RawDetail(
    id: int, title: Option<string>, name: Option<string>, overview: Option<string>,
    posterPath: Option<string>, voteAverage: real, popularity: real,
    videos: Option<seq<Video>>, images: Option<Images>,
    releaseDate: Option<string>, runtime: Option<int>, genres: Option<seq<RawGenre>>,
    firstAirDate: Option<string>, status: Option<string>, nextEpisodeToAir: Option<NextEpisode>)

  /** One entry of the country configuration list. */
  datatype RawCountry = RawCountry(iso31661: string, englishName: string)

  // ---------------------------------------------------------------------
  // Requests and results

  /** A GET request: the path below the API base and its per-call query parameters. */
  datatype Request = Request(endpoint: string, params: map<string, string>)

  /** What `fetchMediaItems` and `searchMedia` resolve to. */
  datatype PageResult = PageResult(results: seq<MediaSummary>, totalPages: int)

  /** The request a call issues and what the call resolves to or throws. */
  datatype Fetched<T> = Fetched(request: Request, outcome: Result<T, string>)

  /** The filters shared by list and search calls: Hindi originals, the
      Indian region, most popular first. */
  const FixedFilters: map<string, string> :=
    map["with_original_language" := "hi", "region" := "IN", "sort_by" := "popularity.desc"]

  const GteKey := "primary_release_date.gte"
  const LteKey := "primary_release_date.lte"

  /** `getUpcomingMovieParams`: the release window from today to the same day next month. */
  function UpcomingMovieParams(today: Date): (p: map<string, string>)
    requires ValidDate(today)
  {
    map[GteKey := IsoDate(today), LteKey := IsoDate(NextMonthSameDay(today))]
  }

  /** The request of `fetchMediaItems`: the shared filters and the page,
      into which the release window is merged for upcoming movies. */
  function ListRequest(t: MediaType, c: Category, page: int, today: Date): (r: Request)
    requires ValidDate(today)
  {
    Request("/" + MediaTypeName(t) + "/" + CategoryName(c), ListParams(t, c, page, today))
  }

  /** The `params` object of `fetchMediaItems`, after `Object.assign`. */
  function ListParams(t: MediaType, c: Category, page: int, today: Date): (p: map<string, string>)
    requires ValidDate(today)
  {
    var params := FixedFilters["page" := DecimalString(page)];
    if c == Upcoming && t == Movie then params + UpcomingMovieParams(today) else params
  }

  /** The request of `searchMedia`. */
  function SearchRequest(t: MediaType, query: string, page: int): (r: Request)
  {
    Request("/search/" + MediaTypeName(t), FixedFilters["query" := query]["page" := DecimalString(page)])
  }

  /** The request of `fetchMediaDetails`. */
  function DetailRequest(t: MediaType, id: int): (r: Request)
  {
    Request("/" + MediaTypeName(t) + "/" + DecimalString(id), map["append_to_response" := "videos,images"])
  }

  /** The request of `fetchCountries`. */
  const CountriesRequest := Request("/configuration/countries", map[])

  // ---------------------------------------------------------------------
  // Error messages of the four calls

  function ItemsFailedMessage(t: MediaType): (s: string)
  {
    "Failed to fetch " + MediaTypeName(t) + " items. Please try again."
  }

  function SearchFailedMessage(t: MediaType): (s: string)
  {
    "Failed to search " + MediaTypeName(t) + " items. Please try again."
  }

  function DetailsFailedMessage(t: MediaType): (s: string)
  {
    "Failed to fetch " + MediaTypeName(t) + " details. Please try again."
  }

  const CountriesFailedMessage := "Failed to fetch countries. Please try again."

  /** `w` occurs in `s` starting at index `k`. */
  predicate OccursAt(s: string, w: string, k: int)
  {
    0 <= k && k + |w| <= |s| && s[k..k + |w|] == w
  }

  /** `w` occurs at `k` when it matches there character by character. */
  lemma OccursByChars(s: string, w: string, k: int)
    requires 0 <= k && k + |w| <= |s| && forall i :: 0 <= i < |w| ==> s[k + i] == w[i]
    ensures OccursAt(s, w, k)
  {
    assert s[k..k + |w|] == w;
  }

  /** An occurrence in `b` is one in `a + b`, shifted by `|a|`. */
  lemma OccursAfter(a: string, b: string, w: string, k: int)
    requires OccursAt(b, w, k)
    ensures OccursAt(a + b, w, |a| + k)
  {
    assert (a + b)[|a| + k..|a| + k + |w|] == b[k..k + |w|];
  }

  /** `w` occurs in `s` as a contiguous piece. */
  ghost predicate Mentions(s: string, w: string)
  {
    exists k :: OccursAt(s, w, k)
  }

  // ---------------------------------------------------------------------
  // Normalisation

  /** JavaScript's `title || name` on two optional strings: the title when
      it is present and non-empty, the name as it is otherwise. */
  function TitleOrName(title: Option<string>, name: Option<string>): (r: Option<string>)
    ensures (title.Some? && title.value != "") ==> r == title
    ensures !(title.Some? && title.value != "") ==> r == name
    ensures (r.Some? && r.value != "") <==> (title.Some? && title.value != "") || (name.Some? && name.value != "")
  {
    if title.Some? && title.value != "" then title else name
  }

  /** The reshaping of one list entry, with the fields of its kind. */
  function NormaliseItem(t: MediaType, item: RawItem): (s: MediaSummary)
    ensures SummaryKind(s) == t
  {
    match t
    case Movie =>
      MovieSummary(item.id, TitleOrName(item.title, item.name), item.overview, item.posterPath,
                   item.voteAverage, item.popularity, item.releaseDate)
    case Tv =>
      ShowSummary(item.id, TitleOrName(item.title, item.name), item.overview, item.posterPath,
                  item.voteAverage, item.popularity, item.firstAirDate, item.status)
  }

  /** `results.map(...)`: each entry reshaped, in order. */
  function NormaliseItems(t: MediaType, items: seq<RawItem>): (r: seq<MediaSummary>)
    ensures |r| == |items|
    ensures forall i :: 0 <= i < |r| ==> r[i] == NormaliseItem(t, items[i])
  {
    if items == [] then [] else [NormaliseItem(t, items[0])] + NormaliseItems(t, items[1..])
  }

  /** The shared body handling of list and search: a failed exchange or an
      absent `results` array ends in the call's error message. */
  function NormalisePage(t: MediaType, response: Result<RawPage, string>, failure: string): (r: Result<PageResult, string>)
  {
    match response
    case Err(_) => Err(failure)
    case Ok(body) =>
      if body.results.None? then Err(failure)
      else Ok(PageResult(NormaliseItems(t, body.results.value), body.totalPages))
  }

  /** `genres.map(genre => genre.name)`. */
  function GenreNames(genres: seq<RawGenre>): (r: seq<string>)
    ensures |r| == |genres|
    ensures forall i :: 0 <= i < |r| ==> r[i] == genres[i].name
  {
    if genres == [] then [] else [genres[0].name] + GenreNames(genres[1..])
  }

  /** The reshaping of a detail body; `None` where reading `videos.results`,
      `images.backdrops` or (for a movie) `genres.map` would throw. */
  function NormaliseDetail(t: MediaType, raw: RawDetail): (r: Option<MediaDetail>)
  {
    if raw.videos.None? || raw.images.None? then None
    else
      var images := Images(raw.images.value.backdrops, raw.images.value.posters);
      match t
      case Movie =>
        if raw.genres.None? then None
        else Some(MovieDetail(raw.id, TitleOrName(raw.title, raw.name), raw.overview, raw.posterPath,
                              raw.voteAverage, raw.popularity, raw.videos.value, images,
                              raw.releaseDate, raw.runtime, GenreNames(raw.genres.value)))
      case Tv =>
        Some(ShowDetail(raw.id, TitleOrName(raw.title, raw.name), raw.overview, raw.posterPath,
                        raw.voteAverage, raw.popularity, raw.videos.value, images,
                        raw.firstAirDate, raw.status, raw.nextEpisodeToAir))
  }

  /** `countries.map(...)`: ISO code and English name, in order. */
  function NormaliseCountries(raw: seq<RawCountry>): (r: seq<Country>)
    ensures |r| == |raw|
    ensures forall i :: 0 <= i < |r| ==> r[i] == Country(raw[i].iso31661, raw[i].englishName)
  {
    if raw == [] then [] else [Country(raw[0].iso31661, raw[0].englishName)] + NormaliseCountries(raw[1..])
  }

  // ---------------------------------------------------------------------
  // The four calls

  function FetchMediaItems(t: MediaType, c: Category, page: int, today: Date,
                           response: Result<RawPage, string>): (f: Fetched<PageResult>)
    requires ValidDate(today)
  {
    Fetched(ListRequest(t, c, page, today), NormalisePage(t, response, ItemsFailedMessage(t)))
  }

  function SearchMedia(t: MediaType, query: string, page: int,
                       response: Result<RawPage, string>): (f: Fetched<PageResult>)
  {
    Fetched(SearchRequest(t, query, page), NormalisePage(t, response, SearchFailedMessage(t)))
  }

  function FetchMediaDetails(t: MediaType, id: int, response: Result<RawDetail, string>): (f: Fetched<MediaDetail>)
  {
    var outcome := match response
      case Err(_) => Err(DetailsFailedMessage(t))
      case Ok(raw) =>
        match NormaliseDetail(t, raw)
        case None => Err(DetailsFailedMessage(t))
        case Some(d) => Ok(d);
    Fetched(DetailRequest(t, id), outcome)
  }

  /** A body that is not an array is a failed exchange here: `.map` on it
      throws into the same `catch`. */
  function FetchCountries(response: Result<seq<RawCountry>, string>): (f: Fetched<seq<Country>>)
  {
    var outcome := match response
      case Err(_) => Err(CountriesFailedMessage)
      case Ok(raw) => Ok(NormaliseCountries(raw));
    Fetched(CountriesRequest, outcome)
  }

  // ---------------------------------------------------------------------
  // Properties of the requests

  /** A list request goes to `/{kind}/{category}` with the fixed filters and
      the page, and carries a release window exactly for upcoming movies;
      it has no other parameters. */
  lemma ListRequestShape(t: MediaType, c: Category, page: int, today: Date)
    requires ValidDate(today)
    ensures var r := ListRequest(t, c, page, today);
            && r.endpoint == "/" + MediaTypeName(t) + "/" + CategoryName(c)
            && "with_original_language" in r.params && r.params["with_original_language"] == "hi"
            && "region" in r.params && r.params["region"] == "IN"
            && "sort_by" in r.params && r.params["sort_by"] == "popularity.desc"
            && "page" in r.params && ParseDecimal(r.params["page"]) == Some(page)
            && (GteKey in r.params <==> c == Upcoming && t == Movie)
            && (LteKey in r.params <==> c == Upcoming && t == Movie)
            && r.params.Keys <= {"with_original_language", "region", "sort_by", "page", GteKey, LteKey}
  {
    ParseDecimalString(page);
    var base := FixedFilters["page" := DecimalString(page)];
    assert GteKey !in base && LteKey !in base by {
      assert base.Keys == {"with_original_language", "region", "sort_by", "page"};
      assert GteKey[0] == 'p' && GteKey[1] == 'r';
      assert LteKey[0] == 'p' && LteKey[1] == 'r';
    }
  }

  /** The release window of an upcoming-movies request reads back as
      `today` and a later date, the one `Date` gives for next month's same day. */
  lemma UpcomingWindow(page: int, today: Date)
    requires ValidDate(today) && 0 <= today.year <= 9998
    ensures var r := ListRequest(Movie, Upcoming, page, today);
            && GteKey in r.params && LteKey in r.params
            && ParseIsoDate(r.params[GteKey]) == Some(today)
            && ParseIsoDate(r.params[LteKey]) == Some(NextMonthSameDay(today))
            && Before(today, NextMonthSameDay(today))
  {
    var next := NextMonthSameDay(today);
    var window := UpcomingMovieParams(today);
    assert window[GteKey] == IsoDate(today) && window[LteKey] == IsoDate(next);
    var p := ListParams(Movie, Upcoming, page, today);
    assert p[GteKey] == window[GteKey] && p[LteKey] == window[LteKey];
    IsoDateRoundTrip(today);
    NextMonthBounds(today);
    IsoDateRoundTrip(next);
  }

  /** A search request goes to `/search/{kind}` with the query as given, the
      fixed filters and the page, and never a release window. */
  lemma SearchRequestShape(t: MediaType, query: string, page: int)
    ensures var r := SearchRequest(t, query, page);
            && r.endpoint == "/search/" + MediaTypeName(t)
            && "query" in r.params && r.params["query"] == query
            && "with_original_language" in r.params && r.params["with_original_language"] == "hi"
            && "region" in r.params && r.params["region"] == "IN"
            && "sort_by" in r.params && r.params["sort_by"] == "popularity.desc"
            && "page" in r.params && ParseDecimal(r.params["page"]) == Some(page)
            && GteKey !in r.params && LteKey !in r.params
  {
    ParseDecimalString(page);
  }

  /** A detail request names the item by kind and id and asks for its videos and images. */
  lemma DetailRequestShape(t: MediaType, id: int)
    ensures var r := DetailRequest(t, id);
            && r.endpoint == "/" + MediaTypeName(t) + "/" + DecimalString(id)
            && r.params == map["append_to_response" := "videos,images"]
            && ParseDecimal(r.endpoint[|MediaTypeName(t)| + 2..]) == Some(id)
  {
    var r := DetailRequest(t, id);
    assert r.endpoint[|MediaTypeName(t)| + 2..] == DecimalString(id);
    ParseDecimalString(id);
  }

  // ---------------------------------------------------------------------
  // Properties of the results

  /** The normalised title is the raw title when it is present and
      non-empty, and the raw name otherwise; the other shared fields are
      copied; a movie carries its release date only, a show its first-air
      date and status and no release date. */
  lemma NormaliseItemFields(t: MediaType, item: RawItem)
    ensures var s := NormaliseItem(t, item);
            && s.id == item.id && s.overview == item.overview && s.posterPath == item.posterPath
            && s.voteAverage == item.voteAverage && s.popularity == item.popularity
            && (item.title.Some? && item.title.value != "" ==> s.title == item.title)
            && (!(item.title.Some? && item.title.value != "") ==> s.title == item.name)
            && (t == Movie <==> s.MovieSummary?)
            && (s.MovieSummary? ==> s.releaseDate == item.releaseDate)
            && (s.ShowSummary? ==> s.firstAirDate == item.firstAirDate && s.status == item.status)
  {
  }

  /** A list or search outcome succeeds exactly when the exchange succeeded
      with a `results` array; then every entry is reshaped in order and
      `total_pages` is passed on unchanged, and otherwise the message is
      the call's own. */
  lemma PageOutcome(t: MediaType, response: Result<RawPage, string>, failure: string)
    ensures var r := NormalisePage(t, response, failure);
            && (r.Ok? <==> response.Ok? && response.value.results.Some?)
            && (r.Ok? ==> && |r.value.results| == |response.value.results.value|
                          && r.value.totalPages == response.value.totalPages
                          && forall i :: 0 <= i < |r.value.results| ==>
                               r.value.results[i] == NormaliseItem(t, response.value.results.value[i]))
            && (r.Err? ==> r.error == failure)
  {
  }

  /** Every failing media call throws a message naming its operation and the media type. */
  lemma ItemsMessageNamesCall(t: MediaType)
    ensures Mentions(ItemsFailedMessage(t), MediaTypeName(t))
    ensures Mentions(ItemsFailedMessage(t), "fetch") && Mentions(ItemsFailedMessage(t), "items")
  {
    var n, s := MediaTypeName(t), ItemsFailedMessage(t);
    assert OccursAt(s, "fetch", 10);
    assert OccursAt(s, n, 16);
    OccursByChars(" items. Please try again.", "items", 1);
    OccursAfter("Failed to fetch " + n, " items. Please try again.", "items", 1);
  }

  lemma SearchMessageNamesCall(t: MediaType)
    ensures Mentions(SearchFailedMessage(t), MediaTypeName(t)) && Mentions(SearchFailedMessage(t), "search")
  {
    var n, s := MediaTypeName(t), SearchFailedMessage(t);
    assert OccursAt(s, "search", 10);
    assert OccursAt(s, n, 17);
  }

  lemma DetailsMessageNamesCall(t: MediaType)
    ensures Mentions(DetailsFailedMessage(t), MediaTypeName(t)) && Mentions(DetailsFailedMessage(t), "details")
  {
    var n, s := MediaTypeName(t), DetailsFailedMessage(t);
    assert OccursAt(s, n, 16);
    OccursByChars(" details. Please try again.", "details", 1);
    OccursAfter("Failed to fetch " + n, " details. Please try again.", "details", 1);
  }

  lemma CountriesMessageNamesCall()
    ensures Mentions(CountriesFailedMessage, "countries")
  {
    OccursByChars(CountriesFailedMessage, "countries", 16);
  }

  /** A list call fails with the media-type message exactly when the list
      body is missing; its request is the list request. */
  lemma FetchMediaItemsOutcome(t: MediaType, c: Category, page: int, today: Date, response: Result<RawPage, string>)
    requires ValidDate(today)
    ensures var f := FetchMediaItems(t, c, page, today, response);
            && f.request == ListRequest(t, c, page, today)
            && (f.outcome.Ok? <==> response.Ok? && response.value.results.Some?)
            && (f.outcome.Err? ==> f.outcome.error == ItemsFailedMessage(t))
            && (f.outcome.Ok? ==> f.outcome.value.totalPages == response.value.totalPages
                                  && |f.outcome.value.results| == |response.value.results.value|)
  {
    PageOutcome(t, response, ItemsFailedMessage(t));
  }

  /** A search call: same normalisation, its own message. */
  lemma SearchMediaOutcome(t: MediaType, query: string, page: int, response: Result<RawPage, string>)
    ensures var f := SearchMedia(t, query, page, response);
            && f.request == SearchRequest(t, query, page)
            && (f.outcome.Ok? <==> response.Ok? && response.value.results.Some?)
            && (f.outcome.Err? ==> f.outcome.error == SearchFailedMessage(t))
            && (f.outcome.Ok? ==> f.outcome.value.totalPages == response.value.totalPages
                                  && |f.outcome.value.results| == |response.value.results.value|)
  {
    PageOutcome(t, response, SearchFailedMessage(t));
  }

  /** A detail call succeeds exactly when the body has videos and images
      (and genres, for a movie). A movie then lists its genre names in
      order; a show passes its next episode through as given, absent
      included; the title follows the same fallback as the lists. */
  lemma FetchMediaDetailsOutcome(t: MediaType, id: int, response: Result<RawDetail, string>)
    ensures var f := FetchMediaDetails(t, id, response);
            && f.request == DetailRequest(t, id)
            && (f.outcome.Ok? <==> response.Ok? && response.value.videos.Some? && response.value.images.Some?
                                   && (t == Movie ==> response.value.genres.Some?))
            && (f.outcome.Err? ==> f.outcome.error == DetailsFailedMessage(t))
            && (f.outcome.Ok? ==>
                  var raw, d := response.value, f.outcome.value;
                  && DetailKind(d) == t && d.id == raw.id
                  && d.title == TitleOrName(raw.title, raw.name)
                  && d.videos == raw.videos.value
                  && d.images.backdrops == raw.images.value.backdrops
                  && d.images.posters == raw.images.value.posters
                  && (d.MovieDetail? ==> d.genres == GenreNames(raw.genres.value) && d.runtime == raw.runtime
                                         && d.releaseDate == raw.releaseDate)
                  && (d.ShowDetail? ==> d.nextEpisodeToAir == raw.nextEpisodeToAir && d.status == raw.status
                                        && d.firstAirDate == raw.firstAirDate))
  {
  }

  /** A countries call maps every entry in order or fails with its message. */
  lemma FetchCountriesOutcome(response: Result<seq<RawCountry>, string>)
    ensures var f := FetchCountries(response);
            && f.request == CountriesRequest
            && (f.outcome.Ok? <==> response.Ok?)
            && (f.outcome.Err? ==> f.outcome.error == CountriesFailedMessage)
            && (f.outcome.Ok? ==>
                  && |f.outcome.value| == |response.value|
                  && (forall i :: 0 <= i < |response.value| ==>
                        f.outcome.value[i].code == response.value[i].iso31661
                        && f.outcome.value[i].name == response.value[i].englishName))
  {
  }
}
