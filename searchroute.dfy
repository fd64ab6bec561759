/**
 * The search handler of app/api/search/route.ts: the query parameters and
 * their defaults, the filter the storage layer evaluates, the single-key
 * ordering, the skip/take window and the page count.
 *
 * The store is a sequence of items; the storage layer's evaluation of the
 * `where` object is the predicate `Matches`, its `orderBy` a stable sort by
 * one key (ties keep store order), and its refusal of a query it cannot run
 * (an unknown type name, a NaN number, an unknown sort field or direction, a
 * negative skip) the 500 reply.
 */
module SearchRoute {
  import opened Wrappers
  import opened JsText
  import opened Sorting
  import opened Types

  /** Decoded query parameters, in order. */
  type Params = seq<(string, string)>

  /** `searchParams.get(name)`: the value of the first parameter called `name`. */
  function Get(params: Params, name: string): Option<string> {
    if params == [] then None
    else if params[0].0 == name then Some(params[0].1)
    else Get(params[1..], name)
  }

  /** `get` finds the first parameter with the name, and nothing when there is none. */
  lemma {:induction false} GetFindsFirst(params: Params, name: string)
    ensures var r := Get(params, name);
      && (r.Some? ==> exists i :: (0 <= i < |params| && params[i] == (name, r.value)
            && forall j :: 0 <= j < i ==> params[j].0 != name))
      && (r.None? <==> forall i :: 0 <= i < |params| ==> params[i].0 != name)
  {
    if params != [] {
      if params[0].0 == name {
        assert params[0] == (name, params[0].1);
      } else {
        GetFindsFirst(params[1..], name);
        var r := Get(params[1..], name);
        if r.Some? {
          var i :| 0 <= i < |params[1..]| && params[1..][i] == (name, r.value)
            && forall j :: 0 <= j < i ==> params[1..][j].0 != name;
          assert params[i + 1] == (name, r.value);
          assert forall j :: 0 < j < i + 1 ==> params[j].0 == params[1..][j - 1].0;
        } else {
          assert forall i :: 0 < i < |params| ==> params[i].0 == params[1..][i - 1].0;
        }
      }
    }
  }

  lemma {:induction false} GetAbsent(params: Params, name: string)
    requires forall i :: 0 <= i < |params| ==> params[i].0 != name
    ensures Get(params, name) == None
  {
    if params != [] { GetAbsent(params[1..], name); }
  }

  /** `searchParams.get(name) || fallback`. */
  function GetOr(params: Params, name: string, fallback: string): string {
    match Get(params, name)
    case Some(v) => if v != "" then v else fallback
    case None => fallback
  }

  /** A year bound: not given (missing or empty), or `parseInt` of its text, `None` standing for NaN. */
  datatype Bound = Unbounded | Bound(value: Option<int>)

  function BoundOf(params: Params, name: string): Bound {
    match Get(params, name)
    case Some(v) => if v != "" then Bound(ParseInt(v)) else Unbounded
    case None => Unbounded
  }

  /** `searchParams.get(name)?.split(",")`. */
  function ListOf(params: Params, name: string): Option<seq<string>> {
    match Get(params, name)
    case Some(v) => Some(Split(v, ","))
    case None => None
  }

  /** What the handler reads from the parameters, after its defaults. */
  datatype Query = Query(
    text: string,
    page: Option<int>,
    limit: Option<int>,
    types: Option<seq<string>>,
    genres: Option<seq<string>>,
    yearMin: Bound,
    yearMax: Bound,
    sortBy: string,
    sortDir: string)

  function ReadQuery(params: Params): Query {
    Query(
      GetOr(params, "q", ""),
      ParseInt(GetOr(params, "page", "1")),
      ParseInt(GetOr(params, "limit", "20")),
      ListOf(params, "type"),
      ListOf(params, "genre"),
      BoundOf(params, "yearMin"),
      BoundOf(params, "yearMax"),
      GetOr(params, "sortBy", "title"),
      GetOr(params, "sortDir", "desc"))
  }

  /** The parameter names the handler reads; every other parameter is ignored. */
  const ReadNames: set<string> := {"q", "page", "limit", "type", "genre", "yearMin", "yearMax", "sortBy", "sortDir"}

  /** With none of its parameters given, the handler searches everything: page 1 of 20, by title, descending. */
  lemma QueryDefaults(params: Params)
    requires forall i :: 0 <= i < |params| ==> params[i].0 !in ReadNames
    ensures ReadQuery(params)
         == Query("", Some(1), Some(20), None, None, Unbounded, Unbounded, "title", "desc")
  {
    forall n | n in ReadNames ensures Get(params, n) == None { GetAbsent(params, n); }
    assert "q" in ReadNames && "page" in ReadNames && "limit" in ReadNames && "type" in ReadNames;
    assert "genre" in ReadNames && "yearMin" in ReadNames && "yearMax" in ReadNames;
    assert "sortBy" in ReadNames && "sortDir" in ReadNames;
    assert IntToString(1) == "1";
    ParseIntOfIntToString(1);
    assert IntToString(20) == "20";
    ParseIntOfIntToString(20);
  }

  /** The `where` object as the storage layer runs it. */
  datatype Where = Where(
    title: Option<string>,
    types: Option<seq<MediaType>>,
    genres: Option<seq<string>>,
    yearMin: Option<int>,
    yearMax: Option<int>)

  /** The enumeration members a list of names denotes; `None` if one of them is no member. */
  function ParseTypes(names: seq<string>): (r: Option<seq<MediaType>>)
    ensures r.Some? ==> |r.value| == |names| && forall i :: 0 <= i < |names| ==> MediaTypeName(r.value[i]) == names[i]
    ensures r.None? ==> exists i :: 0 <= i < |names| && ParseMediaType(names[i]).None?
  {
    if names == [] then Some([])
    else
      match (ParseMediaType(names[0]), ParseTypes(names[1..]))
      case (Some(t), Some(ts)) => Some([t] + ts)
      case (None, _) => None
      case (_, None) =>
        var i :| 0 <= i < |names[1..]| && ParseMediaType(names[1..][i]).None?;
        assert names[i + 1] == names[1..][i];
        None
  }

  /** A bound as a filter value: `None` when absent; a NaN bound the storage layer refuses. */
  function BoundValue(b: Bound): Option<Option<int>> {
    match b
    case Unbounded => Some(None)
    case Bound(v) => if v.Some? then Some(Some(v.value)) else None
  }

  /**
   * Lines 30-52: the `where` object, field by field, or `None` where the
   * storage layer refuses it.
   */
  function BuildWhere(q: Query): Option<Where> {
    var types: Option<Option<seq<MediaType>>> :=
      if q.types.Some? && |q.types.value| > 0 then
        (match ParseTypes(q.types.value) case Some(ts) => Some(Some(ts)) case None => None)
      else Some(None);
    var genres := if q.genres.Some? && |q.genres.value| > 0 then q.genres else None;
    match (types, BoundValue(q.yearMin), BoundValue(q.yearMax))
    case (Some(ts), Some(lo), Some(hi)) =>
      Some(Where(if q.text != "" then Some(q.text) else None, ts, genres, lo, hi))
    case _ => None
  }

  /** `contains` with `mode: "insensitive"`, on ASCII letters. */
  predicate ContainsIgnoringCase(s: string, sub: string) {
    Contains(Lower(s), Lower(sub))
  }

  /** How the storage layer evaluates the `where` object on one item. */
  predicate Matches(w: Where, item: MediaItem) {
    (w.title.Some? ==> ContainsIgnoringCase(item.title, w.title.value))
    && (w.types.Some? ==> item.mediaType in w.types.value)
    && (w.genres.Some? ==> item.genre.GenreText? && item.genre.text in w.genres.value)
    && (w.yearMin.Some? ==> item.year.Some? && item.year.value >= w.yearMin.value)
    && (w.yearMax.Some? ==> item.year.Some? && item.year.value <= w.yearMax.value)
  }

  /** The matching items, in store order. */
  function Filter(store: seq<MediaItem>, w: Where): (r: seq<MediaItem>)
    ensures |r| <= |store|
    ensures forall x :: x in r <==> x in store && Matches(w, x)
  {
    if store == [] then []
    else
      var rest := Filter(store[1..], w);
      assert forall x :: x in store <==> x == store[0] || x in store[1..];
      if Matches(w, store[0]) then [store[0]] + rest else rest
  }

  /** Position of an enumeration member in its declaration, the storage layer's order for enum columns. */
  function TypeRank(t: MediaType): nat {
    match t
    case BOOK => 0
    case MOVIE => 1
    case TV_SHOW => 2
    case DOCUMENTARY => 3
    case PODCAST => 4
    case AUDIOBOOK => 5
    case VIDEO_GAME => 6
    case ANIME => 7
    case MANGA => 8
  }

  function StatusRank(s: MediaStatus): nat {
    match s
    case RELEASED => 0
    case UPCOMING => 1
    case IN_PROGRESS => 2
    case CANCELLED => 3
  }

  function IntAtom(v: Option<int>): Atom { if v.Some? then Num(v.value as real) else Null }
  function RealAtom(v: Option<real>): Atom { if v.Some? then Num(v.value) else Null }
  function TextAtom(v: Option<string>): Atom { if v.Some? then Text(v.value) else Null }

  function GenreAtom(g: Genre): Atom {
    match g
    case NoGenre => Null
    case GenreText(s) => Text(s)
    case GenreList(ns) => Text(Join(ns, ","))
  }

  /** The scalar columns of a media item, the fields `orderBy` accepts. */
  datatype Column =
    | IdCol | TitleCol | TypeCol | GenreCol | YearCol | RatingCol | StatusCol | DescriptionCol
    | DirectorCol | AuthorCol | DurationCol | PagesCol | SeasonsCol | EpisodesCol | ImdbIdCol
    | TmdbIdCol | IsbnCol | PosterCol | CreatedAtCol | UpdatedAtCol

  /** The column a `sortBy` value names; `None` for anything else. */
  function ColumnNamed(field: string): Option<Column> {
    if field == "id" then Some(IdCol)
    else if field == "title" then Some(TitleCol)
    else if field == "type" then Some(TypeCol)
    else if field == "genre" then Some(GenreCol)
    else if field == "year" then Some(YearCol)
    else if field == "rating" then Some(RatingCol)
    else if field == "status" then Some(StatusCol)
    else if field == "description" then Some(DescriptionCol)
    else if field == "director" then Some(DirectorCol)
    else if field == "author" then Some(AuthorCol)
    else if field == "duration" then Some(DurationCol)
    else if field == "pages" then Some(PagesCol)
    else if field == "seasons" then Some(SeasonsCol)
    else if field == "episodes" then Some(EpisodesCol)
    else if field == "imdbId" then Some(ImdbIdCol)
    else if field == "tmdbId" then Some(TmdbIdCol)
    else if field == "isbn" then Some(IsbnCol)
    else if field == "poster" then Some(PosterCol)
    else if field == "createdAt" then Some(CreatedAtCol)
    else if field == "updatedAt" then Some(UpdatedAtCol)
    else None
  }

  /** The sort value of a column of an item; a missing value is null. */
  function ColumnValue(c: Column, m: MediaItem): Atom {
    match c
    case IdCol => Num(m.id as real)
    case TitleCol => Text(m.title)
    case TypeCol => Num(TypeRank(m.mediaType) as real)
    case GenreCol => GenreAtom(m.genre)
    case YearCol => IntAtom(m.year)
    case RatingCol => RealAtom(m.rating)
    case StatusCol => Num(StatusRank(m.status) as real)
    case DescriptionCol => TextAtom(m.description)
    case DirectorCol => TextAtom(m.director)
    case AuthorCol => TextAtom(m.author)
    case DurationCol => IntAtom(m.duration)
    case PagesCol => IntAtom(m.pages)
    case SeasonsCol => IntAtom(m.seasons)
    case EpisodesCol => IntAtom(m.episodes)
    case ImdbIdCol => TextAtom(m.imdbId)
    case TmdbIdCol => TextAtom(m.tmdbId)
    case IsbnCol => TextAtom(m.isbn)
    case PosterCol => TextAtom(m.poster)
    case CreatedAtCol => Num(m.createdAt as real)
    case UpdatedAtCol => Num(m.updatedAt as real)
  }

  /** `orderBy: { [sortBy]: sortDir }` as a sort key. */
  function Ordering(c: Column): MediaItem -> Key {
    (m: MediaItem) => [ColumnValue(c, m)]
  }

  function DirectionOf(s: string): Option<Direction> {
    if s == "asc" then Some(Asc) else if s == "desc" then Some(Desc) else None
  }

  /**
   * `skip`/`take` on the ordered matches. A negative `take` counts from the
   * end: the list is read backwards, `skip` and then `|take|` items are taken,
   * and the result is put back in order.
   */
  function Window<T>(s: seq<T>, skip: nat, take: int): (r: seq<T>)
    ensures take >= 0 ==> |r| <= take
    ensures take < 0 ==> |r| <= -take
    ensures |r| <= |s|
    ensures take >= 0 && skip <= |s| ==> r == s[skip..if skip + take <= |s| then skip + take else |s|]
    ensures take >= 0 && skip > |s| ==> r == []
  {
    if take >= 0 then
      var lo := if skip <= |s| then skip else |s|;
      var hi := if skip + take <= |s| then skip + take else |s|;
      s[lo..hi]
    else
      var hi := if skip <= |s| then |s| - skip else 0;
      var lo := if hi + take >= 0 then hi + take else 0;
      s[lo..hi]
  }

  /** A negative `take` gives the last `-take` items before the `skip` last ones. */
  lemma WindowFromEnd<T>(s: seq<T>, skip: nat, take: int)
    requires take < 0
    ensures skip <= |s| ==>
      Window(s, skip, take) == s[if |s| - skip + take >= 0 then |s| - skip + take else 0..|s| - skip]
    ensures skip > |s| ==> Window(s, skip, take) == []
  {
  }

  /** The list back to front. */
  function Reversed<T>(s: seq<T>): (r: seq<T>)
    ensures |r| == |s| && forall i :: 0 <= i < |s| ==> r[i] == s[|s| - 1 - i]
  {
    seq(|s|, i requires 0 <= i < |s| => s[|s| - 1 - i])
  }

  /**
   * A negative `take` is the positive window of the reversed list, put back
   * in order: the last `-take` items that come before the `skip` last ones.
   */
  lemma WindowBackwards<T>(s: seq<T>, skip: nat, take: int)
    requires take < 0
    ensures Window(s, skip, take) == Reversed(Window(Reversed(s), skip, -take))
  {
    if skip <= |s| {
      var hi := if skip - take <= |s| then skip - take else |s|;
      assert Window(Reversed(s), skip, -take) == Reversed(s)[skip..hi];
      ReversedSlice(s, skip, hi);
      ReversedTwice(s[|s| - hi..|s| - skip]);
    }
  }

  lemma ReversedSlice<T>(s: seq<T>, a: nat, b: nat)
    requires a <= b <= |s|
    ensures Reversed(s)[a..b] == Reversed(s[|s| - b..|s| - a])
  {
    var x, y := Reversed(s)[a..b], Reversed(s[|s| - b..|s| - a]);
    assert |x| == |y|;
    forall i | 0 <= i < |x| ensures x[i] == y[i] {
      assert x[i] == s[|s| - 1 - (a + i)];
      assert y[i] == s[|s| - b..|s| - a][b - a - 1 - i];
    }
  }

  lemma ReversedTwice<T>(s: seq<T>)
    ensures Reversed(Reversed(s)) == s
  {
    var r := Reversed(Reversed(s));
    forall i | 0 <= i < |s| ensures r[i] == s[i] {
      assert r[i] == Reversed(s)[|s| - 1 - i];
    }
  }

  /** The window is a contiguous part of the list. */
  lemma WindowIsSlice<T>(s: seq<T>, skip: nat, take: int) returns (lo: nat)
    ensures lo + |Window(s, skip, take)| <= |s|
    ensures Window(s, skip, take) == s[lo..lo + |Window(s, skip, take)|]
  {
    if take >= 0 {
      lo := if skip <= |s| then skip else |s|;
    } else {
      var hi := if skip <= |s| then |s| - skip else 0;
      lo := if hi + take >= 0 then hi + take else 0;
    }
  }

  /** `Math.ceil(total / limit)`; `None` where it is not finite (JSON `null`). */
  function TotalPages(total: nat, limit: int): (r: Option<int>)
    ensures r.None? <==> limit == 0
  {
    if limit == 0 then None
    else if limit > 0 then Some((total + limit - 1) / limit)
    else Some(-(total / -limit))
  }

  /** With a positive limit, the page count is the least number of pages that hold `total` items. */
  lemma TotalPagesCeil(total: nat, limit: int)
    requires limit > 0
    ensures var r := TotalPages(total, limit);
      && r.Some? && total <= r.value * limit < total + limit
      && r.value >= 0 && (total > 0 ==> r.value >= 1)
  {
  }

  datatype SearchReply = Found(results: SearchResults) | Failed  // 500 "Failed to search media"

  /** The results of a query the storage layer accepts. */
  function Results(store: seq<MediaItem>, w: Where, c: Column, d: Direction, offset: nat, page: int, limit: int): SearchResults {
    var matches := Filter(store, w);
    SearchResults(Window(Sort(matches, Ordering(c), d), offset, limit), |matches|, page, limit, TotalPages(|matches|, limit))
  }

  /** `skip: (page - 1) * limit`. */
  function Skip(page: int, limit: int): int {
    (page - 1) * limit
  }

  /** The storage layer runs the query: every part is readable and the offset is not negative. */
  predicate Accepts(q: Query) {
    && q.page.Some? && q.limit.Some? && BuildWhere(q).Some? && ColumnNamed(q.sortBy).Some? && DirectionOf(q.sortDir).Some?
    && Skip(q.page.value, q.limit.value) >= 0
  }

  /** The handler after reading its parameters. */
  function Run(store: seq<MediaItem>, q: Query): SearchReply {
    if Accepts(q) then
      Found(Results(store, BuildWhere(q).value, ColumnNamed(q.sortBy).value, DirectionOf(q.sortDir).value,
                    Skip(q.page.value, q.limit.value), q.page.value, q.limit.value))
    else Failed
  }

  /** The handler: the matching items, ordered and windowed, with their count and the page count. */
  function Search(store: seq<MediaItem>, params: Params): SearchReply {
    Run(store, ReadQuery(params))
  }

  /**
   * An item passes every filter of the query, stated on the query as read:
   * a title containing the text, the type's name among the listed names, a
   * genre that is one of the listed genres, a year within each given bound.
   * An empty list is no filter.
   */
  predicate Satisfies(q: Query, item: MediaItem) {
    (q.text != "" ==> ContainsIgnoringCase(item.title, q.text))
    && (q.types.Some? && q.types.value != [] ==> MediaTypeName(item.mediaType) in q.types.value)
    && (q.genres.Some? && q.genres.value != [] ==> exists g :: g in q.genres.value && item.genre == GenreText(g))
    && (q.yearMin.Bound? ==> item.year.Some? && q.yearMin.value.Some? && q.yearMin.value.value <= item.year.value)
    && (q.yearMax.Bound? ==> item.year.Some? && q.yearMax.value.Some? && item.year.value <= q.yearMax.value.value)
  }

  /** The number of items of `store` that pass every filter. */
  function CountSatisfying(store: seq<MediaItem>, q: Query): nat {
    if store == [] then 0
    else (if Satisfies(q, store[0]) then 1 else 0) + CountSatisfying(store[1..], q)
  }

  lemma TypeMatch(q: Query, ts: seq<MediaType>, t: MediaType)
    requires q.types.Some? && ParseTypes(q.types.value) == Some(ts)
    ensures t in ts <==> MediaTypeName(t) in q.types.value
  {
    if t in ts {
      var i :| 0 <= i < |ts| && ts[i] == t;
      assert q.types.value[i] == MediaTypeName(t);
    }
    if MediaTypeName(t) in q.types.value {
      var i :| 0 <= i < |q.types.value| && q.types.value[i] == MediaTypeName(t);
      assert MediaTypeName(ts[i]) == MediaTypeName(t);
      assert ParseMediaType(MediaTypeName(t)) == Some(ts[i]);
    }
  }

  /** A query the storage layer accepts matches an item exactly when the item passes every filter. */
  lemma WhereMeansSatisfies(q: Query, w: Where, item: MediaItem)
    requires BuildWhere(q) == Some(w)
    ensures Matches(w, item) <==> Satisfies(q, item)
  {
    if q.types.Some? && q.types.value != [] {
      TypeMatch(q, w.types.value, item.mediaType);
    }
    if q.genres.Some? && q.genres.value != [] && item.genre.GenreText? && item.genre.text in q.genres.value {
      assert exists g :: g in q.genres.value && item.genre == GenreText(g);
    }
  }

  lemma {:induction false} FilterCounts(store: seq<MediaItem>, q: Query, w: Where)
    requires BuildWhere(q) == Some(w)
    ensures |Filter(store, w)| == CountSatisfying(store, q)
  {
    if store != [] {
      FilterCounts(store[1..], q, w);
      WhereMeansSatisfies(q, w, store[0]);
    }
  }

  /** A window of an ordered list is ordered and holds only elements of the list. */
  lemma OrderedWindow<T>(s: seq<T>, skip: nat, take: int, key: T -> Key, d: Direction)
    requires Ordered(s, key, d)
    ensures Ordered(Window(s, skip, take), key, d)
    ensures forall x :: x in Window(s, skip, take) ==> x in s
  {
    var r := Window(s, skip, take);
    var lo := WindowIsSlice(s, skip, take);
    forall i, j | 0 <= i < j < |r| ensures !Before(d, key(r[j]), key(r[i])) {
      assert r[i] == s[lo + i] && r[j] == s[lo + j];
    }
    forall x | x in r ensures x in s {
      var i :| 0 <= i < |r| && r[i] == x;
      assert s[lo + i] == x;
    }
  }

  /** The results of an accepted query: matching items in order, a window no longer than the limit. */
  lemma ResultsSound(store: seq<MediaItem>, w: Where, c: Column, d: Direction, offset: nat, page: int, limit: int)
    ensures var r := Results(store, w, c, d, offset, page, limit);
      && (forall x :: x in r.items ==> x in store && Matches(w, x))
      && Ordered(r.items, Ordering(c), d)
      && r.total == |Filter(store, w)|
      && |r.items| <= r.total
      && (limit >= 0 ==> |r.items| <= limit)
  {
    var matches := Filter(store, w);
    var ordered := Sort(matches, Ordering(c), d);
    SortPermutes(matches, Ordering(c), d);
    SortOrders(matches, Ordering(c), d);
    OrderedWindow(ordered, offset, limit, Ordering(c), d);
    forall x | x in Window(ordered, offset, limit) ensures x in store && Matches(w, x) {
      assert x in multiset(ordered);
      assert x in matches;
    }
  }

  /** When the handler answers, the storage layer accepted every part of the query. */
  lemma RunAccepted(store: seq<MediaItem>, q: Query)
    requires Run(store, q).Found?
    ensures q.page.Some? && q.limit.Some? && BuildWhere(q).Some?
    ensures ColumnNamed(q.sortBy).Some? && DirectionOf(q.sortDir).Some?
    ensures Skip(q.page.value, q.limit.value) >= 0
    ensures Run(store, q).results
         == Results(store, BuildWhere(q).value, ColumnNamed(q.sortBy).value, DirectionOf(q.sortDir).value,
                    Skip(q.page.value, q.limit.value), q.page.value, q.limit.value)
  {
  }

  /**
   * What an answered query returns: items that pass every filter, ordered
   * by the `sortBy` column in the `sortDir` direction, at most `limit` of them
   * and no more than `total`, which counts every passing item of the store
   * whatever the page and the limit.
   */
  lemma RunSound(store: seq<MediaItem>, q: Query)
    requires Run(store, q).Found?
    ensures var r := Run(store, q).results;
      && ColumnNamed(q.sortBy).Some? && DirectionOf(q.sortDir).Some?
      && (forall x :: x in r.items ==> x in store && Satisfies(q, x))
      && Ordered(r.items, Ordering(ColumnNamed(q.sortBy).value), DirectionOf(q.sortDir).value)
      && r.total == CountSatisfying(store, q)
      && |r.items| <= r.total
      && (r.limit >= 0 ==> |r.items| <= r.limit)
      && q.page == Some(r.page) && q.limit == Some(r.limit)
      && r.totalPages == TotalPages(r.total, r.limit)
  {
    RunAccepted(store, q);
    var w := BuildWhere(q).value;
    var offset := Skip(q.page.value, q.limit.value);
    ResultsSound(store, w, ColumnNamed(q.sortBy).value, DirectionOf(q.sortDir).value, offset, q.page.value, q.limit.value);
    forall x | x in Run(store, q).results.items ensures Satisfies(q, x) {
      WhereMeansSatisfies(q, w, x);
    }
    FilterCounts(store, q, w);
  }

  /**
   * `items` is what `skip: offset, take: limit` leaves of `ordered`, which
   * holds `total` items: for a non-negative limit the `limit` items from
   * position `offset` on; for a negative one the last `-limit` items before
   * the `offset` last ones; nothing once `offset` passes the end.
   */
  predicate IsWindow(items: seq<MediaItem>, total: nat, ordered: seq<MediaItem>, offset: nat, limit: int) {
    && |ordered| == total
    && (limit >= 0 && offset <= total ==>
          items == ordered[offset..if offset + limit <= total then offset + limit else total])
    && (limit < 0 && offset <= total ==>
          items == ordered[if total - offset + limit >= 0 then total - offset + limit else 0..total - offset])
    && (offset > total ==> items == [])
  }

  /** The items are the window at `offset` of the ordered matches, whose number is the total. */
  lemma ResultsWindow(store: seq<MediaItem>, w: Where, c: Column, d: Direction, offset: nat, page: int, limit: int)
    ensures var r := Results(store, w, c, d, offset, page, limit);
      IsWindow(r.items, r.total, Sort(Filter(store, w), Ordering(c), d), offset, limit)
  {
    var ordered := Sort(Filter(store, w), Ordering(c), d);
    SortPermutes(Filter(store, w), Ordering(c), d);
    if limit < 0 {
      WindowFromEnd(ordered, offset, limit);
    }
  }

  /**
   * An accepted query's items are the window at `(page - 1) * limit` of the
   * ordered matches. A negative limit is accepted only for a page of 1 or
   * less, and then takes the matches from the end.
   */
  lemma RunWindow(store: seq<MediaItem>, q: Query, w: Where, c: Column, d: Direction, page: int, limit: int)
    requires Run(store, q).Found?
    requires BuildWhere(q) == Some(w) && ColumnNamed(q.sortBy) == Some(c) && DirectionOf(q.sortDir) == Some(d)
    requires q.page == Some(page) && q.limit == Some(limit)
    ensures Skip(page, limit) >= 0 && (limit < 0 ==> page <= 1)
    ensures var r := Run(store, q).results;
      IsWindow(r.items, r.total, Sort(Filter(store, w), Ordering(c), d), Skip(page, limit), limit)
  {
    RunAccepted(store, q);
    SkipNegative(page, limit);
    ResultsWindow(store, w, c, d, Skip(page, limit), page, limit);
  }

  /** The handler is refused exactly when a part of the query cannot be run. */
  lemma RunFails(store: seq<MediaItem>, q: Query)
    ensures Run(store, q) == Failed <==>
      (q.page.None? || q.limit.None? || BuildWhere(q).None? || ColumnNamed(q.sortBy).None?
       || DirectionOf(q.sortDir).None? || Skip(q.page.value, q.limit.value) < 0)
  {
  }

  /** The handler's reply, read through its parameters: sound, windowed and failing as `Run` does. */
  lemma SearchIsRun(store: seq<MediaItem>, params: Params)
    ensures Search(store, params).Found? ==>
      var q := ReadQuery(params); var r := Search(store, params).results;
      && (forall x :: x in r.items ==> x in store && Satisfies(q, x))
      && r.total == CountSatisfying(store, q)
      && (r.limit >= 0 ==> |r.items| <= r.limit)
  {
    if Search(store, params).Found? {
      RunSound(store, ReadQuery(params));
    }
  }

  /** A type list is refused exactly when one of its names is no media type name. */
  lemma ParseTypesRefuses(names: seq<string>)
    ensures ParseTypes(names).None? <==> exists i :: 0 <= i < |names| && ParseMediaType(names[i]).None?
  {
    if ParseTypes(names).Some? {
      var ts := ParseTypes(names).value;
      forall i | 0 <= i < |names| ensures ParseMediaType(names[i]).Some? {
        assert MediaTypeName(ts[i]) == names[i];
      }
    }
  }

  /** The `where` object is refused exactly for an unknown type name or a NaN year bound. */
  lemma BuildWhereRefuses(q: Query)
    ensures BuildWhere(q).None? <==>
      || (q.types.Some? && exists i :: 0 <= i < |q.types.value| && ParseMediaType(q.types.value[i]).None?)
      || q.yearMin == Bound(None) || q.yearMax == Bound(None)
  {
    if q.types.Some? {
      ParseTypesRefuses(q.types.value);
    }
  }

  /**
   * The 500 reply, on the parameters as sent: a page or limit that reads as
   * NaN, an unknown name in a non-empty type list, a year bound that reads as
   * NaN, an unknown sort column or direction, or a negative offset
   * `(page - 1) * limit`.
   */
  lemma SearchFails(store: seq<MediaItem>, params: Params)
    ensures var page := ParseInt(GetOr(params, "page", "1"));
      var limit := ParseInt(GetOr(params, "limit", "20"));
      var types := ListOf(params, "type");
      var sortDir := GetOr(params, "sortDir", "desc");
      Search(store, params) == Failed <==>
        || page.None? || limit.None?
        || (types.Some? && exists i :: 0 <= i < |types.value| && ParseMediaType(types.value[i]).None?)
        || BoundOf(params, "yearMin") == Bound(None) || BoundOf(params, "yearMax") == Bound(None)
        || ColumnNamed(GetOr(params, "sortBy", "title")).None?
        || (sortDir != "asc" && sortDir != "desc")
        || (page.value < 1 && limit.value > 0) || (page.value > 1 && limit.value < 0)
  {
    var q := ReadQuery(params);
    BuildWhereRefuses(q);
    RunFails(store, q);
    if q.page.Some? && q.limit.Some? {
      SkipNegative(q.page.value, q.limit.value);
    }
  }

  /** `(page - 1) * limit` is negative exactly when page and limit lie on opposite sides of 1 and 0. */
  lemma SkipNegative(page: int, limit: int)
    ensures Skip(page, limit) < 0 <==> (page < 1 && limit > 0) || (page > 1 && limit < 0)
  {
    var a := page - 1;
    if a == 0 || limit == 0 {
      assert a * limit == 0;
    } else if a > 0 && limit > 0 {
      assert a * limit > 0;
    } else if a < 0 && limit < 0 {
      assert a * limit == (-a) * (-limit);
    } else if a > 0 {
      assert a * limit == -(a * (-limit));
    } else {
      assert a * limit == -((-a) * limit);
    }
  }

  lemma {:induction false} GetAppend(params: Params, p: (string, string), n: string)
    requires p.0 != n
    ensures Get(params + [p], n) == Get(params, n)
  {
    if params == [] {
      assert [] + [p] == [p];
      assert [p][1..] == [];
    } else {
      assert (params + [p])[0] == params[0];
      assert (params + [p])[1..] == params[1..] + [p];
      GetAppend(params[1..], p, n);
    }
  }

  /** `get` on two lists one after the other: the first list's value when it has one. */
  lemma {:induction false} GetConcat(a: Params, b: Params, n: string)
    ensures Get(a + b, n) == if Get(a, n).Some? then Get(a, n) else Get(b, n)
  {
    if a == [] {
      assert a + b == b;
    } else {
      assert (a + b)[0] == a[0];
      assert (a + b)[1..] == a[1..] + b;
      GetConcat(a[1..], b, n);
    }
  }

  /** Two parameter lists that agree on every name the handler reads are read as the same query. */
  lemma SameReadsSameQuery(p1: Params, p2: Params)
    requires forall n :: n in ReadNames ==> Get(p1, n) == Get(p2, n)
    ensures ReadQuery(p1) == ReadQuery(p2)
  {
    assert "q" in ReadNames && "page" in ReadNames && "limit" in ReadNames && "type" in ReadNames;
    assert "genre" in ReadNames && "yearMin" in ReadNames && "yearMax" in ReadNames;
    assert "sortBy" in ReadNames && "sortDir" in ReadNames;
  }

  /** A parameter the handler does not read never changes the reply, wherever it is put. */
  lemma UnreadParamsIgnored(store: seq<MediaItem>, params: Params, name: string, value: string)
    requires name !in ReadNames
    ensures Search(store, params + [(name, value)]) == Search(store, params)
    ensures Search(store, [(name, value)] + params) == Search(store, params)
  {
    forall n | n in ReadNames
      ensures Get(params + [(name, value)], n) == Get(params, n)
      ensures Get([(name, value)] + params, n) == Get(params, n)
    {
      GetAppend(params, (name, value), n);
      assert ([(name, value)] + params)[1..] == params;
    }
    SameReadsSameQuery(params + [(name, value)], params);
    SameReadsSameQuery([(name, value)] + params, params);
  }

  /** The rating, status and tags parameters the client sends are among those ignored. */
  lemma ClientOnlyParamsIgnored(store: seq<MediaItem>, params: Params, value: string)
    ensures Search(store, params + [("ratingMin", value)]) == Search(store, params)
    ensures Search(store, params + [("ratingMax", value)]) == Search(store, params)
    ensures Search(store, params + [("status", value)]) == Search(store, params)
    ensures Search(store, params + [("tags", value)]) == Search(store, params)
  {
    assert "ratingMin" !in ReadNames && "ratingMax" !in ReadNames;
    assert "status" !in ReadNames && "tags" !in ReadNames;
    UnreadParamsIgnored(store, params, "ratingMin", value);
    UnreadParamsIgnored(store, params, "ratingMax", value);
    UnreadParamsIgnored(store, params, "status", value);
    UnreadParamsIgnored(store, params, "tags", value);
  }

  lemma {:induction false} AllSatisfy(store: seq<MediaItem>, q: Query)
    requires forall m :: Satisfies(q, m)
    ensures CountSatisfying(store, q) == |store|
  {
    if store != [] { AllSatisfy(store[1..], q); }
  }

  /** Without filter parameters every item of the store is counted: an absent filter restricts nothing. */
  lemma NoFilterCountsAll(store: seq<MediaItem>, params: Params)
    requires Search(store, params).Found?
    requires forall i :: 0 <= i < |params| ==> params[i].0 !in {"q", "type", "genre", "yearMin", "yearMax"}
    ensures Search(store, params).results.total == |store|
  {
    var q := ReadQuery(params);
    RunSound(store, q);
    GetAbsent(params, "q");
    GetAbsent(params, "type");
    GetAbsent(params, "genre");
    GetAbsent(params, "yearMin");
    GetAbsent(params, "yearMax");
    AllSatisfy(store, q);
  }

  /** A genre text passes a genre filter only when some filter element is the whole text. */
  lemma GenreMatchIsWhole(q: Query, item: MediaItem)
    requires q.genres.Some? && q.genres.value != [] && item.genre.GenreText?
    ensures Satisfies(q, item) <==>
      (q.text != "" ==> ContainsIgnoringCase(item.title, q.text))
      && (q.types.Some? && q.types.value != [] ==> MediaTypeName(item.mediaType) in q.types.value)
      && item.genre.text in q.genres.value
      && (q.yearMin.Bound? ==> item.year.Some? && q.yearMin.value.Some? && q.yearMin.value.value <= item.year.value)
      && (q.yearMax.Bound? ==> item.year.Some? && q.yearMax.value.Some? && item.year.value <= q.yearMax.value.value)
  {
    if item.genre.text in q.genres.value {
      assert exists g :: g in q.genres.value && item.genre == GenreText(g);
    }
  }
}
