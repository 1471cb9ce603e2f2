/** The shared view-model types of the catalog viewer (src/types.ts). */
module Types {
  import opened Wrappers

  /** The two catalog kinds, `'movie' | 'tv'`. */
  datatype MediaType = Movie | Tv

  /** The four canned list views. */
  datatype Category = NowPlaying | Popular | TopRated | Upcoming

  /** The path segment and message word the source uses for a media type. */
  function MediaTypeName(t: MediaType): (s: string)
  {
    match t
    case Movie => "movie"
    case Tv => "tv"
  }

  /** The path segment the source uses for a category. */
  function CategoryName(c: Category): (s: string)
  {
    match c
    case NowPlaying => "now_playing"
    case Popular => "popular"
    case TopRated => "top_rated"
    case Upcoming => "upcoming"
  }

  /** A video attached to a detail record; `videoType` is the JSON field `type`. */
  datatype Video = Video(id: string, key: string, name: string, site: string, videoType: string)

  /** An image attached to a detail record. */
  datatype Image = Image(filePath: string, width: int, height: int)

  /** The two ordered image collections of a detail record. */
  datatype Images = Images(backdrops: seq<Image>, posters: seq<Image>)

  /** The descriptor of a show's next episode. */
  datatype NextEpisode = NextEpisode(airDate: string, episodeNumber: int, seasonNumber: int)

  /** A list entry (`Movie | TVShow`). The fields shared by both kinds come
      from `MediaItem`; fields copied from a JSON field that may be absent are
      options. Vote average and popularity are opaque numbers. */
  datatype MediaSummary =
    | MovieSummary(id: int, title: Option<string>, overview: Option<string>, posterPath: Option<string>,
                   voteAverage: real, popularity: real,
                   releaseDate: Option<string>)
    | ShowSummary(id: int, title: Option<string>, overview: Option<string>, posterPath: Option<string>,
                  voteAverage: real, popularity: real,
                  firstAirDate: Option<string>, status: Option<string>)

  /** A detail record (`MovieDetails | TVShowDetails`). */
  datatype MediaDetail =
    | MovieDetail(id: int, title: Option<string>, overview: Option<string>, posterPath: Option<string>,
                  voteAverage: real, popularity: real, videos: seq<Video>, images: Images,
                  releaseDate: Option<string>, runtime: Option<int>, genres: seq<string>)
    | ShowDetail(id: int, title: Option<string>, overview: Option<string>, posterPath: Option<string>,
                 voteAverage: real, popularity: real, videos: seq<Video>, images: Images,
                 firstAirDate: Option<string>, status: Option<string>, nextEpisodeToAir: Option<NextEpisode>)

  /** A country of the reference list. */
  datatype Country = Country(code: string, name: string)

  /** The kind a summary was normalised as. */
  function SummaryKind(s: MediaSummary): (t: MediaType)
  {
    if s.MovieSummary? then Movie else Tv
  }

  /** The kind a detail record was normalised as. */
  function DetailKind(d: MediaDetail): (t: MediaType)
  {
    if d.MovieDetail? then Movie else Tv
  }
}
