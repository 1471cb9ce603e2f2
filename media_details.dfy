/** The selection helpers of the detail view (src/components/MediaDetails.tsx):
    which trailer is embedded, which colour a show's status gets, which
    backdrops are shown, and the image and embed addresses. */
module MediaDetails {
  import opened Wrappers
  import opened Types

  const ImageBase := "https://image.tmdb.org/t/p/w300"
  const EmbedBase := "https://www.youtube.com/embed/"

  /** How a template literal prints an optional path: an absent (null) path prints as `null`. */
  function PathText(p: Option<string>): (s: string)
  {
    match p
    case Some(path) => path
    case None => "null"
  }

  /** The address of a poster or backdrop: the image host and size, then the path. */
  function ImageUrl(path: string): (u: string)
    ensures |u| == |ImageBase| + |path| && u[..|ImageBase|] == ImageBase && u[|ImageBase|..] == path
  {
    ImageBase + path
  }

  /** The embeddable address of a trailer. */
  function EmbedUrl(key: string): (u: string)
    ensures |u| == |EmbedBase| + |key| && u[..|EmbedBase|] == EmbedBase && u[|EmbedBase|..] == key
  {
    EmbedBase + key
  }

  // ---------------------------------------------------------------------
  // Trailer

  predicate IsTrailer(v: Video)
  {
    v.videoType == "Trailer"
  }

  /** `i` is the position of the first trailer among `videos`. */
  predicate FirstTrailerAt(videos: seq<Video>, i: int)
  {
    0 <= i < |videos| && IsTrailer(videos[i]) && forall j :: 0 <= j < i ==> !IsTrailer(videos[j])
  }

  /** The position `videos.find(video => video.type === 'Trailer')` stops at. */
  function TrailerIndex(videos: seq<Video>): (r: Option<nat>)
    ensures r.Some? ==> FirstTrailerAt(videos, r.value)
    ensures r.None? <==> forall i :: 0 <= i < |videos| ==> !IsTrailer(videos[i])
  {
    if videos == [] then None
    else if IsTrailer(videos[0]) then Some(0)
    else match TrailerIndex(videos[1..])
      case None => None
      case Some(k) => Some(k + 1)
  }

  /** The trailer the view embeds: the first video typed exactly `Trailer`, if any. */
  function FindTrailer(videos: seq<Video>): (r: Option<Video>)
    ensures r.None? <==> forall i :: 0 <= i < |videos| ==> !IsTrailer(videos[i])
    ensures r.Some? ==> exists i :: FirstTrailerAt(videos, i) && videos[i] == r.value
  {
    match TrailerIndex(videos)
    case None => None
    case Some(k) => Some(videos[k])
  }

  // ---------------------------------------------------------------------
  // Status colour

  /** `toLowerCase` on one character; only the ASCII letters are folded. */
  function LowerChar(c: char): (d: char)
  {
    if 'A' <= c <= 'Z' then ((c as int) + 32) as char else c
  }

  function ToLower(s: string): (r: string)
    ensures |r| == |s| && forall i :: 0 <= i < |s| ==> r[i] == LowerChar(s[i])
  {
    if s == [] then [] else [LowerChar(s[0])] + ToLower(s[1..])
  }

  /** The cases of the `switch` in `getStatusColor`: the known statuses,
      in lower case, and their colour classes. */
  const StatusColors: map<string, string> := map[
    "returning series" := "text-green-600",
    "in production" := "text-yellow-600",
    "planned" := "text-blue-600",
    "canceled" := "text-red-600",
    "ended" := "text-gray-600"]

  /** `getStatusColor`: the case of the lower-cased status, `text-black` by default. */
  function StatusColor(status: string): (colour: string)
  {
    var s := ToLower(status);
    if s in StatusColors then StatusColors[s] else "text-black"
  }

  /** The five cases: a status whose lower-case form is one of the five
      names gets that name's colour, and every other status `text-black`. */
  lemma StatusColorCases(status: string)
    ensures var s := ToLower(status);
            && (s == "returning series" ==> StatusColor(status) == "text-green-600")
            && (s == "in production" ==> StatusColor(status) == "text-yellow-600")
            && (s == "planned" ==> StatusColor(status) == "text-blue-600")
            && (s == "canceled" ==> StatusColor(status) == "text-red-600")
            && (s == "ended" ==> StatusColor(status) == "text-gray-600")
            && (s !in StatusColors ==> StatusColor(status) == "text-black")
  {
  }

  lemma {:induction false} ToLowerIdempotent(s: string)
    ensures ToLower(ToLower(s)) == ToLower(s)
  {
    var t := ToLower(s);
    assert forall i :: 0 <= i < |t| ==> LowerChar(t[i]) == t[i];
    assert ToLower(t) == t;
  }

  /** The colour ignores letter case: a status and its lower-case form get the same colour. */
  lemma StatusColorIgnoresCase(status: string)
    ensures StatusColor(ToLower(status)) == StatusColor(status)
  {
    ToLowerIdempotent(status);
  }

  /** Lower-casing gives `lower` exactly when `lower` agrees with it character by character. */
  lemma LowersTo(s: string, lower: string)
    requires |s| == |lower| && forall i :: 0 <= i < |s| ==> LowerChar(s[i]) == lower[i]
    ensures ToLower(s) == lower
  {
  }

  /** The statuses the API writes in title case get their colours. */
  lemma ReturningSeriesIsGreen()
    ensures StatusColor("Returning Series") == "text-green-600"
  {
    LowersTo("Returning Series", "returning series");
    StatusColorCases("Returning Series");
  }

  lemma InProductionIsYellow()
    ensures StatusColor("In Production") == "text-yellow-600"
  {
    LowersTo("In Production", "in production");
    StatusColorCases("In Production");
  }

  lemma EndedIsGray()
    ensures StatusColor("Ended") == "text-gray-600"
  {
    LowersTo("Ended", "ended");
    StatusColorCases("Ended");
  }

  lemma UnknownStatusIsBlack()
    ensures StatusColor("Pilot") == "text-black"
  {
    LowersTo("Pilot", "pilot");
    StatusColorCases("Pilot");
  }

  // ---------------------------------------------------------------------
  // Gallery

  /** `backdrops.slice(0, 5)`. */
  function GalleryBackdrops(backdrops: seq<Image>): (r: seq<Image>)
    ensures |r| == if |backdrops| < 5 then |backdrops| else 5
    ensures r == backdrops[..|r|]
  {
    if |backdrops| <= 5 then backdrops else backdrops[..5]
  }

  /** The address of each shown backdrop, in order. */
  function BackdropUrls(images: seq<Image>): (r: seq<string>)
    ensures |r| == |images|
    ensures forall i :: 0 <= i < |images| ==> r[i] == ImageUrl(images[i].filePath)
  {
    if images == [] then [] else [ImageUrl(images[0].filePath)] + BackdropUrls(images[1..])
  }

  // ---------------------------------------------------------------------
  // The rendered detail

  /** The kind-specific lines; the next-episode line shows its air date. */
  datatype KindSection =
    | MovieSection(releaseDate: Option<string>, runtime: Option<int>, genres: seq<string>)
    | ShowSection(firstAirDate: Option<string>, status: Option<string>, statusColor: Option<string>,
                  nextEpisodeAirDate: Option<string>)

  datatype TrailerEmbed = TrailerEmbed(src: string, title: string)

  /** What the detail view shows: a `None` trailer or gallery is a section not rendered. */
  datatype DetailScreen = DetailScreen(
    heading: Option<string>, posterSrc: string, section: KindSection, overview: Option<string>,
    trailer: Option<TrailerEmbed>, gallery: Option<seq<string>>)

  function TrailerSection(videos: seq<Video>): (t: Option<TrailerEmbed>)
  {
    match FindTrailer(videos)
    case None => None
    case Some(v) => Some(TrailerEmbed(EmbedUrl(v.key), v.name))
  }

  function GallerySection(backdrops: seq<Image>): (g: Option<seq<string>>)
  {
    if |backdrops| > 0 then Some(BackdropUrls(GalleryBackdrops(backdrops))) else None
  }

  function MovieLines(d: MediaDetail): (s: KindSection)
    requires d.MovieDetail?
  {
    MovieSection(d.releaseDate, d.runtime, d.genres)
  }

  function ShowLines(d: MediaDetail): (s: KindSection)
    requires d.ShowDetail?
  {
    ShowSection(d.firstAirDate, d.status,
                match d.status case Some(st) => Some(StatusColor(st)) case None => None,
                match d.nextEpisodeToAir case Some(e) => Some(e.airDate) case None => None)
  }

  function Screen(d: MediaDetail, section: KindSection): (v: DetailScreen)
  {
    DetailScreen(d.title, ImageUrl(PathText(d.posterPath)), section, d.overview,
                 TrailerSection(d.videos), GallerySection(d.images.backdrops))
  }

  /** The detail view of a record, its lines chosen by the record's own kind. */
  function DetailView(d: MediaDetail): (v: DetailScreen)
  {
    Screen(d, if d.MovieDetail? then MovieLines(d) else ShowLines(d))
  }

  /** The view as the component computes it: the lines are chosen by the
      app's current media type and the record is cast to that kind.
      `None` stands for the TypeError the render then throws: `genres.join`
      on a show, `status.toLowerCase()` on a record without a status. */
  function DetailViewAsWritten(d: MediaDetail, mediaType: MediaType): (v: Option<DetailScreen>)
  {
    match mediaType
    case Movie => if d.MovieDetail? then Some(Screen(d, MovieLines(d))) else None
    case Tv => if d.ShowDetail? && d.status.Some? then Some(Screen(d, ShowLines(d))) else None
  }

  /** The trailer section appears exactly when some video is a trailer, and
      embeds the first one; the gallery appears exactly when there are
      backdrops and shows the first five at most, in order; the poster is
      the image host followed by the poster path. */
  lemma DetailViewSections(d: MediaDetail)
    ensures var v := DetailView(d);
            && v.posterSrc == ImageBase + PathText(d.posterPath)
            && (v.trailer.Some? <==> exists i :: 0 <= i < |d.videos| && IsTrailer(d.videos[i]))
            && (v.trailer.Some? ==> exists i :: FirstTrailerAt(d.videos, i)
                                                && v.trailer.value.src == EmbedBase + d.videos[i].key)
            && (v.gallery.Some? <==> |d.images.backdrops| > 0)
            && (v.gallery.Some? ==>
                  && |v.gallery.value| == (if |d.images.backdrops| < 5 then |d.images.backdrops| else 5)
                  && (forall i :: 0 <= i < |v.gallery.value| ==>
                        v.gallery.value[i] == ImageBase + d.images.backdrops[i].filePath))
  {
    var v := DetailView(d);
    if v.gallery.Some? {
      var shown := GalleryBackdrops(d.images.backdrops);
      forall i | 0 <= i < |v.gallery.value|
        ensures v.gallery.value[i] == ImageBase + d.images.backdrops[i].filePath
      {
        assert shown[i] == d.images.backdrops[i];
      }
    }
  }

  /** The kind-specific lines follow the record: movie lines for a movie;
      for a show the status colour when there is a status and the
      next-episode line exactly when the next episode is present. */
  lemma DetailViewLines(d: MediaDetail)
    ensures var s := DetailView(d).section;
            && (s.MovieSection? <==> d.MovieDetail?)
            && (s.MovieSection? ==> s.genres == d.genres && s.runtime == d.runtime && s.releaseDate == d.releaseDate)
            && (s.ShowSection? ==> && (s.nextEpisodeAirDate.Some? <==> d.nextEpisodeToAir.Some?)
                                   && (d.status.Some? ==> s.statusColor == Some(StatusColor(d.status.value))))
  {
  }

  /** As written, the view throws whenever the record's kind differs from
      the app's media type, and otherwise (given a show's status) agrees
      with the view chosen by the record's kind. */
  lemma AsWrittenNeedsMatchingKind(d: MediaDetail, mediaType: MediaType)
    ensures DetailKind(d) != mediaType ==> DetailViewAsWritten(d, mediaType).None?
    ensures DetailKind(d) == mediaType && (d.ShowDetail? ==> d.status.Some?)
            ==> DetailViewAsWritten(d, mediaType) == Some(DetailView(d))
  {
  }

  /** A concrete movie record rendered while the media type is `tv` throws. */
  lemma MovieShownAsShowThrows()
    ensures DetailViewAsWritten(
              MovieDetail(1, Some("Film"), None, None, 7.0, 10.0, [], Images([], []), Some("2024-01-01"), Some(120), ["Drama"]),
              Tv) == None
  {
  }
}
