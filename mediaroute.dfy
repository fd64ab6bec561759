/**
 * The media handlers of app/api/media/route.ts: POST's guard and field
 * normalisation followed by one insert, and GET's listing. The storage layer
 * refuses a field of the wrong JSON type, a type or status that is not an
 * enumeration name, and a NaN number; what it throws is a parameter, from
 * which the 500 reply takes its details. `now` is the instant it stamps.
 */
module MediaRoute {
  import opened Wrappers
  import opened JsText
  import opened JsValue
  import opened Sorting
  import opened Types
  import SearchRoute

  /** The members of the POST body the handler destructures. */
  datatype MediaBody = MediaBody(
    title: Value,
    mediaType: Value,
    genre: Value,
    year: Value,
    rating: Value,
    status: Value,
    description: Value,
    director: Value,
    author: Value,
    duration: Value,
    pages: Value,
    seasons: Value,
    episodes: Value,
    imdbId: Value,
    tmdbId: Value,
    isbn: Value,
    poster: Value)

  datatype Reply = Created(item: MediaItem) | BadRequest(error: string) | ServerError(error: string, details: string) | Listed(items: seq<MediaItem>)

  function Status(r: Reply): nat {
    match r
    case Created(_) => 201
    case BadRequest(_) => 400
    case ServerError(_, _) => 500
    case Listed(_) => 200
  }

  /** `genreString`: an array joined with ", ", otherwise `genre || ""`; the column takes text only. */
  function GenreValue(v: Value): (r: Option<string>)
    ensures v.StrArray? ==> r == Some(Join(v.items, ", "))
    ensures v.Str? ==> r == Some(v.s)
    ensures !Truthy(v) ==> r == Some("")
  {
    if v.StrArray? then Some(Join(v.items, ", "))
    else if Truthy(v) then StringOf(v)
    else Some("")
  }

  /** `x ? parseInt(x) : null`; a NaN is refused. */
  function IntField(v: Value): (r: Option<Option<int>>)
    ensures !Truthy(v) ==> r == Some(None)
    ensures Truthy(v) ==> (r.Some? <==> ParseIntOf(v).Some?) && (r.Some? ==> r.value == ParseIntOf(v))
  {
    if !Truthy(v) then Some(None)
    else match ParseIntOf(v)
      case Some(n) => Some(Some(n))
      case None => None
  }

  /** `rating ? parseFloat(rating) : null`; a NaN is refused. */
  function RealField(v: Value): (r: Option<Option<real>>)
    ensures !Truthy(v) ==> r == Some(None)
  {
    if !Truthy(v) then Some(None)
    else match ParseFloatOf(v)
      case Some(n) => Some(Some(n))
      case None => None
  }

  /** `x || null`; a truthy value must be text. */
  function TextField(v: Value): (r: Option<Option<string>>)
    ensures !Truthy(v) ==> r == Some(None)
    ensures v.Str? && v.s != "" ==> r == Some(Some(v.s))
  {
    if !Truthy(v) then Some(None) else if v.Str? then Some(Some(v.s)) else None
  }

  /** `status || "RELEASED"`, as an enumeration member. */
  function StatusValue(v: Value): (r: Option<MediaStatus>)
    ensures !Truthy(v) ==> r == Some(RELEASED)
  {
    if !Truthy(v) then Some(RELEASED) else if v.Str? then ParseMediaStatus(v.s) else None
  }

  function TypeValue(v: Value): Option<MediaType> {
    if v.Str? then ParseMediaType(v.s) else None
  }

  /** The text fields of the body, normalised; `None` when one is refused. */
  function TextFields(b: MediaBody): Option<seq<Option<string>>> {
    var fs := [TextField(b.description), TextField(b.director), TextField(b.author), TextField(b.imdbId),
               TextField(b.tmdbId), TextField(b.isbn), TextField(b.poster)];
    if forall i :: 0 <= i < |fs| ==> fs[i].Some? then Some(seq(7, i requires 0 <= i < 7 => fs[i].value)) else None
  }

  /** The numeric fields year, duration, pages, seasons, episodes, normalised; `None` when one is refused. */
  function IntFields(b: MediaBody): Option<seq<Option<int>>> {
    var fs := [IntField(b.year), IntField(b.duration), IntField(b.pages), IntField(b.seasons), IntField(b.episodes)];
    if forall i :: 0 <= i < |fs| ==> fs[i].Some? then Some(seq(5, i requires 0 <= i < 5 => fs[i].value)) else None
  }

  /** The record `create` receives, or `None` when the storage layer refuses it. */
  function Normalised(b: MediaBody, id: int, now: int): Option<MediaItem> {
    var title := StringOf(b.title);
    var t := TypeValue(b.mediaType);
    var genre := GenreValue(b.genre);
    var rating := RealField(b.rating);
    var status := StatusValue(b.status);
    var texts := TextFields(b);
    var ints := IntFields(b);
    if title.Some? && t.Some? && genre.Some? && rating.Some? && status.Some? && texts.Some? && ints.Some? then
      var tx, n := texts.value, ints.value;
      Some(MediaItem(id, title.value, t.value, GenreText(genre.value), n[0], rating.value, status.value,
                     tx[0], tx[1], tx[2], n[1], n[2], n[3], n[4], tx[3], tx[4], tx[5], tx[6], now, now))
    else None
  }

  /** The reply of POST. */
  function PostReply(nextId: int, b: MediaBody, now: int, thrown: Thrown): (r: Reply)
    ensures !Truthy(b.title) || !Truthy(b.mediaType) ==> r == BadRequest("Title and type are required")
    ensures r.Created? || r.BadRequest? || r == ServerError("Failed to create media item", Details(thrown))
    ensures r.Created? ==> Some(r.item) == Normalised(b, nextId, now)
    ensures Truthy(b.title) && Truthy(b.mediaType) ==> (r.Created? <==> Normalised(b, nextId, now).Some?)
  {
    if !Truthy(b.title) || !Truthy(b.mediaType) then BadRequest("Title and type are required")
    else
      match Normalised(b, nextId, now)
      case Some(m) => Created(m)
      case None => ServerError("Failed to create media item", Details(thrown))
  }

  /**
   * What was thrown only shows in the 500 reply's details: two POSTs of the
   * same body agree, or both fail with the same error and the details of
   * what each caught.
   */
  lemma ThrownOnlyInDetails(nextId: int, b: MediaBody, now: int, t1: Thrown, t2: Thrown)
    ensures var r1, r2 := PostReply(nextId, b, now, t1), PostReply(nextId, b, now, t2);
      || r1 == r2
      || (r1 == ServerError("Failed to create media item", Details(t1))
          && r2 == ServerError("Failed to create media item", Details(t2)))
    ensures (t1.ErrorObject? && t2.OtherThrown? && t1.message != "Unknown error occurred"
             && PostReply(nextId, b, now, t1).ServerError?)
        ==> PostReply(nextId, b, now, t1) != PostReply(nextId, b, now, t2)
  {
  }

  function IdKey(m: MediaItem): Key { [Sorting.Num(m.id as real)] }

  class MediaTable {
    var items: seq<MediaItem>
    var nextId: int

    constructor()
      ensures items == [] && nextId == 1
    {
      items := [];
      nextId := 1;
    }

    /** POST: guard, normalise, one insert. */
    method Post(b: MediaBody, now: int, thrown: Thrown) returns (reply: Reply)
      modifies this
      ensures reply == PostReply(old(nextId), b, now, thrown)
      ensures items == if reply.Created? then old(items) + [reply.item] else old(items)
      ensures nextId == if reply.Created? then old(nextId) + 1 else old(nextId)
    {
      if !Truthy(b.title) || !Truthy(b.mediaType) {
        return BadRequest("Title and type are required");
      }
      var record := Normalised(b, nextId, now);
      if record.None? {
        return ServerError("Failed to create media item", Details(thrown));
      }
      items := items + [record.value];
      nextId := nextId + 1;
      reply := Created(record.value);
    }

    /** GET: every item, highest id first. */
    method Get() returns (reply: Reply)
      ensures reply == Listed(Sort(items, IdKey, Desc))
    {
      reply := Listed(Sort(items, IdKey, Desc));
    }
  }

  /** GET lists every item once, ids non-increasing. */
  lemma ListingOrder(items: seq<MediaItem>)
    ensures multiset(Sort(items, IdKey, Desc)) == multiset(items)
    ensures var l := Sort(items, IdKey, Desc); forall i, j :: 0 <= i < j < |l| ==> l[i].id >= l[j].id
  {
    var l := Sort(items, IdKey, Desc);
    SortPermutes(items, IdKey, Desc);
    SortOrders(items, IdKey, Desc);
    assert Ordered(l, IdKey, Desc);
    forall i, j | 0 <= i < j < |l| ensures l[i].id >= l[j].id {
      assert !Before(Desc, IdKey(l[j]), IdKey(l[i]));
      IdOrder(l[i], l[j]);
    }
  }

  lemma IdOrder(a: MediaItem, b: MediaItem)
    ensures !Before(Desc, IdKey(b), IdKey(a)) <==> a.id >= b.id
  {
    var ka, kb := IdKey(a), IdKey(b);
    assert ka[1..] == [] && kb[1..] == [];
    assert KeyLess(ka, kb) <==> AtomLess(ka[0], kb[0]);
  }

  /** A created item carries the defaults for every falsy optional member. */
  lemma CreatedDefaults(nextId: int, b: MediaBody, now: int, thrown: Thrown)
    requires PostReply(nextId, b, now, thrown).Created?
    ensures var m := PostReply(nextId, b, now, thrown).item;
      && m.id == nextId && m.createdAt == now && m.updatedAt == now
      && Some(m.title) == StringOf(b.title)
      && Some(m.mediaType) == TypeValue(b.mediaType)
      && m.genre == GenreText(GenreValue(b.genre).value)
      && (!Truthy(b.status) ==> m.status == RELEASED)
      && (!Truthy(b.rating) ==> m.rating == None)
      && (!Truthy(b.description) ==> m.description == None)
      && (!Truthy(b.director) ==> m.director == None)
      && (!Truthy(b.author) ==> m.author == None)
      && (!Truthy(b.imdbId) ==> m.imdbId == None)
      && (!Truthy(b.tmdbId) ==> m.tmdbId == None)
      && (!Truthy(b.isbn) ==> m.isbn == None)
      && (!Truthy(b.poster) ==> m.poster == None)
      && (!Truthy(b.year) ==> m.year == None)
      && (Truthy(b.year) ==> m.year == ParseIntOf(b.year))
      && (!Truthy(b.duration) ==> m.duration == None)
      && (Truthy(b.duration) ==> m.duration == ParseIntOf(b.duration))
      && (!Truthy(b.pages) ==> m.pages == None)
      && (Truthy(b.pages) ==> m.pages == ParseIntOf(b.pages))
      && (!Truthy(b.seasons) ==> m.seasons == None)
      && (Truthy(b.seasons) ==> m.seasons == ParseIntOf(b.seasons))
      && (!Truthy(b.episodes) ==> m.episodes == None)
      && (Truthy(b.episodes) ==> m.episodes == ParseIntOf(b.episodes))
  {
    var texts := TextFields(b);
    var ints := IntFields(b);
    assert texts.Some? && ints.Some?;
  }

  /** The card's `genre.split(", ")` recovers a joined list when no name contains ", ". */
  lemma GenreRoundTrip(nextId: int, b: MediaBody, now: int, thrown: Thrown)
    requires PostReply(nextId, b, now, thrown).Created?
    requires b.genre.StrArray? && |b.genre.items| > 0
    requires forall k :: 0 <= k < |b.genre.items| ==> !Contains(b.genre.items[k], ", ")
    ensures Split(PostReply(nextId, b, now, thrown).item.genre.text, ", ") == b.genre.items
  {
    CreatedDefaults(nextId, b, now, thrown);
    SplitJoin(b.genre.items, ", ");
  }

  lemma {:induction false} JoinLonger(xs: seq<string>, sep: string, k: nat)
    requires |xs| >= 2 && k < |xs|
    ensures |Join(xs, sep)| >= |xs[k]| + |sep|
  {
    if |xs| > 2 {
      if k > 0 {
        JoinLonger(xs[1..], sep, k - 1);
      }
    } else {
      assert Join(xs[1..], sep) == xs[1];
    }
  }

  /**
   * An item stored with two or more genres is not found by a search whose
   * genre filter lists only names of that item: the search compares the
   * filter with the whole stored text.
   */
  lemma JoinedGenresNotFoundByName(nextId: int, b: MediaBody, now: int, thrown: Thrown, q: SearchRoute.Query)
    requires PostReply(nextId, b, now, thrown).Created?
    requires b.genre.StrArray? && |b.genre.items| >= 2
    requires q.genres.Some? && q.genres.value != [] && forall g :: g in q.genres.value ==> g in b.genre.items
    ensures !SearchRoute.Satisfies(q, PostReply(nextId, b, now, thrown).item)
  {
    var m := PostReply(nextId, b, now, thrown).item;
    CreatedDefaults(nextId, b, now, thrown);
    SearchRoute.GenreMatchIsWhole(q, m);
    if m.genre.text in q.genres.value {
      var k :| 0 <= k < |b.genre.items| && b.genre.items[k] == m.genre.text;
      JoinLonger(b.genre.items, ", ", k);
      assert false;
    }
  }
}
