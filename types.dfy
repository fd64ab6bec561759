/**
 * The entities of types/index.ts: the three enumerations with their names as
 * stored, a media item as the storage layer holds it, and the filter, sort
 * and result shapes the search client and server exchange.
 */
module Types {
  import opened Wrappers

  datatype MediaType = BOOK | MOVIE | TV_SHOW | DOCUMENTARY | PODCAST | AUDIOBOOK | VIDEO_GAME | ANIME | MANGA

  /** The nine media types in declaration order. */
  const AllMediaTypes: seq<MediaType> :=
    [BOOK, MOVIE, TV_SHOW, DOCUMENTARY, PODCAST, AUDIOBOOK, VIDEO_GAME, ANIME, MANGA]

  function MediaTypeName(t: MediaType): string {
    match t
    case BOOK => "BOOK"
    case MOVIE => "MOVIE"
    case TV_SHOW => "TV_SHOW"
    case DOCUMENTARY => "DOCUMENTARY"
    case PODCAST => "PODCAST"
    case AUDIOBOOK => "AUDIOBOOK"
    case VIDEO_GAME => "VIDEO_GAME"
    case ANIME => "ANIME"
    case MANGA => "MANGA"
  }

  /** The enumeration member a stored name denotes, if any. */
  function ParseMediaType(s: string): (r: Option<MediaType>)
    ensures r.Some? ==> MediaTypeName(r.value) == s
    ensures forall t :: MediaTypeName(t) == s ==> r == Some(t)
  {
    if s == "BOOK" then Some(BOOK)
    else if s == "MOVIE" then Some(MOVIE)
    else if s == "TV_SHOW" then Some(TV_SHOW)
    else if s == "DOCUMENTARY" then Some(DOCUMENTARY)
    else if s == "PODCAST" then Some(PODCAST)
    else if s == "AUDIOBOOK" then Some(AUDIOBOOK)
    else if s == "VIDEO_GAME" then Some(VIDEO_GAME)
    else if s == "ANIME" then Some(ANIME)
    else if s == "MANGA" then Some(MANGA)
    else None
  }

  datatype MediaStatus = RELEASED | UPCOMING | IN_PROGRESS | CANCELLED

  function MediaStatusName(s: MediaStatus): string {
    match s
    case RELEASED => "RELEASED"
    case UPCOMING => "UPCOMING"
    case IN_PROGRESS => "IN_PROGRESS"
    case CANCELLED => "CANCELLED"
  }

  function ParseMediaStatus(s: string): (r: Option<MediaStatus>)
    ensures r.Some? ==> MediaStatusName(r.value) == s
    ensures forall t :: MediaStatusName(t) == s ==> r == Some(t)
  {
    if s == "RELEASED" then Some(RELEASED)
    else if s == "UPCOMING" then Some(UPCOMING)
    else if s == "IN_PROGRESS" then Some(IN_PROGRESS)
    else if s == "CANCELLED" then Some(CANCELLED)
    else None
  }

  datatype Priority = LOW | MEDIUM | HIGH | URGENT

  function PriorityName(p: Priority): string {
    match p
    case LOW => "LOW"
    case MEDIUM => "MEDIUM"
    case HIGH => "HIGH"
    case URGENT => "URGENT"
  }

  function ParsePriority(s: string): (r: Option<Priority>)
    ensures r.Some? ==> PriorityName(r.value) == s
    ensures forall p :: PriorityName(p) == s ==> r == Some(p)
  {
    if s == "LOW" then Some(LOW)
    else if s == "MEDIUM" then Some(MEDIUM)
    else if s == "HIGH" then Some(HIGH)
    else if s == "URGENT" then Some(URGENT)
    else None
  }

  /**
   * The genre of an item as the handlers receive it: missing, a string (what
   * the media handler stores: a comma-joined list), or an array of names.
   */
  datatype Genre = NoGenre | GenreText(text: string) | GenreList(names: seq<string>)

  /** A media item as the storage layer holds it; instants are integers. */
  datatype MediaItem = MediaItem(
    id: int,
    title: string,
    mediaType: MediaType,
    genre: Genre,
    year: Option<int>,
    rating: Option<real>,
    status: MediaStatus,
    description: Option<string>,
    director: Option<string>,
    author: Option<string>,
    duration: Option<int>,
    pages: Option<int>,
    seasons: Option<int>,
    episodes: Option<int>,
    imdbId: Option<string>,
    tmdbId: Option<string>,
    isbn: Option<string>,
    poster: Option<string>,
    createdAt: int,
    updatedAt: int)

  /**
   * A property of a `{ min?, max? }` object: missing, present with the value
   * `undefined` (what clearing a range input leaves), or set.
   */
  datatype Slot = Absent | Undef | Set(n: int)

  datatype Range = Range(min: Slot, max: Slot)

  /** `MediaFilter`: each field may itself be missing. Type names are kept as the client has them. */
  datatype MediaFilter = MediaFilter(
    types: Option<seq<string>>,
    genres: Option<seq<string>>,
    year: Option<Range>,
    rating: Option<Range>,
    status: Option<seq<string>>,
    tags: Option<seq<string>>)

  /** `MediaSort`: a field name and "asc" or "desc". */
  datatype MediaSort = MediaSort(field: string, direction: string)

  /** `SearchResults`; `totalPages` is `None` where `Math.ceil` gives a non-finite value (JSON null). */
  datatype SearchResults = SearchResults(
    items: seq<MediaItem>,
    total: nat,
    page: int,
    limit: int,
    totalPages: Option<int>)
}
