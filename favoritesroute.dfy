/**
 * The favourites handlers of app/api/favorites/route.ts over the favourites
 * table. Every request acts for user 1. The storage layer refuses a NaN id
 * and a media id with no media item; the handler reports either refusal as
 * its 500 reply. User 1 is taken to exist: a missing user row would be a
 * refusal just as a missing media item is.
 */
module FavoritesRoute {
  import opened Wrappers
  import opened JsValue
  import opened Sorting

  /** `DEFAULT_USER_ID`. */
  const DefaultUser := 1

  /** A row of the favourites table. */
  datatype FavoriteRow = FavoriteRow(id: int, userId: int, mediaId: int)

  /** What a handler answers: the created row (201), `{ success: true }`, the rows listed, or an error. */
  datatype Reply = Created(row: FavoriteRow) | Removed | Listed(rows: seq<FavoriteRow>) | Failure(status: nat, error: string)

  function Status(r: Reply): nat {
    match r
    case Created(_) => 201
    case Removed => 200
    case Listed(_) => 200
    case Failure(s, _) => s
  }

  /** `findFirst({ where: { userId: 1, mediaId } })` finds a row. */
  predicate Favorited(rows: seq<FavoriteRow>, mediaId: int) {
    exists i :: 0 <= i < |rows| && rows[i].userId == DefaultUser && rows[i].mediaId == mediaId
  }

  /** The reply of POST for body member `mediaId`; `media` holds the ids of the media items. */
  function PostReply(rows: seq<FavoriteRow>, nextId: int, media: set<int>, mediaId: Value): (r: Reply)
    ensures !Truthy(mediaId) ==> r == Failure(400, "Media ID is required")
    ensures r.Created? <==> (Truthy(mediaId) && ParseIntOf(mediaId).Some?
      && !Favorited(rows, ParseIntOf(mediaId).value) && ParseIntOf(mediaId).value in media)
    ensures r.Created? ==> r.row == FavoriteRow(nextId, DefaultUser, ParseIntOf(mediaId).value)
    ensures Truthy(mediaId) && ParseIntOf(mediaId).Some? && Favorited(rows, ParseIntOf(mediaId).value)
      ==> r == Failure(400, "Already in favorites")
    ensures !r.Created? ==> r.Failure?
    ensures Truthy(mediaId) && !r.Created? && r != Failure(400, "Already in favorites")
      ==> r == Failure(500, "Failed to add to favorites")
  {
    if !Truthy(mediaId) then Failure(400, "Media ID is required")
    else
      match ParseIntOf(mediaId)
      case None => Failure(500, "Failed to add to favorites")
      case Some(id) =>
        if Favorited(rows, id) then Failure(400, "Already in favorites")
        else if id !in media then Failure(500, "Failed to add to favorites")
        else Created(FavoriteRow(nextId, DefaultUser, id))
  }

  /** The rows after a POST that answered `r`. */
  function AfterPost(rows: seq<FavoriteRow>, r: Reply): seq<FavoriteRow> {
    if r.Created? then rows + [r.row] else rows
  }

  /** `deleteMany({ where: { userId: 1, mediaId } })`: every matching row goes, the rest stay in order. */
  function RemoveFavorite(rows: seq<FavoriteRow>, mediaId: int): (r: seq<FavoriteRow>)
    ensures |r| <= |rows|
    ensures forall x :: x in r <==> x in rows && !(x.userId == DefaultUser && x.mediaId == mediaId)
  {
    if rows == [] then []
    else
      var rest := RemoveFavorite(rows[1..], mediaId);
      assert forall x :: x in rows <==> x == rows[0] || x in rows[1..];
      if rows[0].userId == DefaultUser && rows[0].mediaId == mediaId then rest else [rows[0]] + rest
  }

  /** The reply of DELETE: success whenever the id is truthy and a number, matched or not. */
  function DeleteReply(mediaId: Value): (r: Reply)
    ensures !Truthy(mediaId) ==> r == Failure(400, "Media ID is required")
    ensures r == Removed <==> Truthy(mediaId) && ParseIntOf(mediaId).Some?
  {
    if !Truthy(mediaId) then Failure(400, "Media ID is required")
    else if ParseIntOf(mediaId).None? then Failure(500, "Failed to remove from favorites")
    else Removed
  }

  function AfterDelete(rows: seq<FavoriteRow>, mediaId: Value): seq<FavoriteRow> {
    if DeleteReply(mediaId) == Removed then RemoveFavorite(rows, ParseIntOf(mediaId).value) else rows
  }

  function RowsOf(rows: seq<FavoriteRow>, user: int): (r: seq<FavoriteRow>)
    ensures forall x :: x in r <==> x in rows && x.userId == user
  {
    if rows == [] then []
    else
      var rest := RowsOf(rows[1..], user);
      assert forall x :: x in rows <==> x == rows[0] || x in rows[1..];
      if rows[0].userId == user then [rows[0]] + rest else rest
  }

  function IdKey(r: FavoriteRow): Key { [Sorting.Num(r.id as real)] }

  /** The rows GET lists: user 1's, by id descending. */
  function Listing(rows: seq<FavoriteRow>): seq<FavoriteRow> {
    Sort(RowsOf(rows, DefaultUser), IdKey, Desc)
  }

  /** Two rows may stand side by side: different ids, and not both user 1's favourite of one item. */
  predicate Compatible(a: FavoriteRow, b: FavoriteRow) {
    a.id != b.id && (a.userId == DefaultUser && b.userId == DefaultUser ==> a.mediaId != b.mediaId)
  }

  predicate Pairwise(rows: seq<FavoriteRow>) {
    forall i, j :: 0 <= i < j < |rows| ==> Compatible(rows[i], rows[j])
  }

  /** No two rows share an id, every id is below the next one, and user 1 favourites each media item at most once. */
  predicate WellFormed(rows: seq<FavoriteRow>, nextId: int) {
    && (forall i :: 0 <= i < |rows| ==> rows[i].id < nextId)
    && Pairwise(rows)
  }

  class FavoritesTable {
    var rows: seq<FavoriteRow>
    /** The id the next created row receives. */
    var nextId: int
    /** The ids of the media items, which a row must reference. */
    const media: set<int>

    predicate Valid()
      reads this
    {
      WellFormed(rows, nextId)
    }

    constructor(media: set<int>)
      ensures Valid() && rows == [] && nextId == 1 && this.media == media
    {
      rows := [];
      nextId := 1;
      this.media := media;
    }

    /** POST: guard, duplicate check, then one insert. */
    method Post(mediaId: Value) returns (reply: Reply)
      requires Valid()
      modifies this
      ensures Valid()
      ensures reply == PostReply(old(rows), old(nextId), media, mediaId)
      ensures rows == AfterPost(old(rows), reply)
      ensures nextId == if reply.Created? then old(nextId) + 1 else old(nextId)
    {
      if !Truthy(mediaId) {
        return Failure(400, "Media ID is required");
      }
      var parsed := ParseIntOf(mediaId);
      if parsed.None? {
        return Failure(500, "Failed to add to favorites");
      }
      var id := parsed.value;
      if Favorited(rows, id) {
        return Failure(400, "Already in favorites");
      }
      PostKeepsWellFormed(rows, nextId, media, mediaId);
      if id !in media {
        return Failure(500, "Failed to add to favorites");
      }
      var row := FavoriteRow(nextId, DefaultUser, id);
      rows := rows + [row];
      nextId := nextId + 1;
      reply := Created(row);
    }

    /** DELETE: guard, then remove every matching row. */
    method Delete(mediaId: Value) returns (reply: Reply)
      requires Valid()
      modifies this
      ensures Valid()
      ensures reply == DeleteReply(mediaId)
      ensures rows == AfterDelete(old(rows), mediaId)
      ensures nextId == old(nextId)
    {
      if !Truthy(mediaId) {
        return Failure(400, "Media ID is required");
      }
      var parsed := ParseIntOf(mediaId);
      if parsed.None? {
        return Failure(500, "Failed to remove from favorites");
      }
      RemoveKeepsWellFormed(rows, nextId, parsed.value);
      rows := RemoveFavorite(rows, parsed.value);
      reply := Removed;
    }

    /** GET: user 1's rows, newest id first. */
    method Get() returns (reply: Reply)
      ensures reply == Listed(Listing(rows))
    {
      reply := Listed(Sort(RowsOf(rows, DefaultUser), IdKey, Desc));
    }
  }

  lemma {:induction false} RemoveKeepsWellFormed(rows: seq<FavoriteRow>, nextId: int, mediaId: int)
    requires WellFormed(rows, nextId)
    ensures WellFormed(RemoveFavorite(rows, mediaId), nextId)
  {
    var r := RemoveFavorite(rows, mediaId);
    if rows != [] {
      var tail := rows[1..];
      assert Pairwise(tail) by {
        forall i, j | 0 <= i < j < |tail| ensures Compatible(tail[i], tail[j]) {
          assert tail[i] == rows[i + 1] && tail[j] == rows[j + 1];
        }
      }
      RemoveKeepsWellFormed(tail, nextId, mediaId);
      var rest := RemoveFavorite(tail, mediaId);
      if r != rest {
        forall x | x in rest ensures Compatible(rows[0], x) {
          var j :| 0 <= j < |tail| && tail[j] == x;
          assert rows[j + 1] == x;
        }
        ConsPairwise(rows[0], rest);
      }
    }
    forall i | 0 <= i < |r| ensures r[i].id < nextId {
      assert r[i] in rows;
    }
  }

  lemma ConsPairwise(x: FavoriteRow, rest: seq<FavoriteRow>)
    requires Pairwise(rest) && forall y :: y in rest ==> Compatible(x, y)
    ensures Pairwise([x] + rest)
  {
    var s := [x] + rest;
    forall i, j | 0 <= i < j < |s| ensures Compatible(s[i], s[j]) {
      assert s[j] == rest[j - 1];
      if i > 0 { assert s[i] == rest[i - 1]; }
    }
  }

  /** Creating a row keeps the ids fresh and user 1's favourites unique, because of the duplicate check. */
  lemma PostKeepsWellFormed(rows: seq<FavoriteRow>, nextId: int, media: set<int>, mediaId: Value)
    requires WellFormed(rows, nextId)
    ensures var r := PostReply(rows, nextId, media, mediaId);
      WellFormed(AfterPost(rows, r), if r.Created? then nextId + 1 else nextId)
  {
    var r := PostReply(rows, nextId, media, mediaId);
    if r.Created? {
      var after := AfterPost(rows, r);
      forall i, j | 0 <= i < j < |after| && after[i].userId == DefaultUser && after[j].userId == DefaultUser
        ensures after[i].mediaId != after[j].mediaId
      {
        if j == |rows| {
          assert !(rows[i].userId == DefaultUser && rows[i].mediaId == r.row.mediaId);
        }
      }
    }
  }

  /** Two POSTs of the same id: the first creates the row, the second is refused as a duplicate. */
  lemma PostTwice(rows: seq<FavoriteRow>, nextId: int, media: set<int>, mediaId: Value)
    requires PostReply(rows, nextId, media, mediaId).Created?
    ensures PostReply(AfterPost(rows, PostReply(rows, nextId, media, mediaId)), nextId + 1, media, mediaId)
         == Failure(400, "Already in favorites")
  {
    var after := AfterPost(rows, PostReply(rows, nextId, media, mediaId));
    assert after[|rows|].mediaId == ParseIntOf(mediaId).value;
  }

  lemma {:induction false} RemoveAbsent(rows: seq<FavoriteRow>, mediaId: int)
    requires !Favorited(rows, mediaId)
    ensures RemoveFavorite(rows, mediaId) == rows
  {
    if rows != [] {
      assert !Favorited(rows[1..], mediaId) by {
        forall i | 0 <= i < |rows[1..]| ensures !(rows[1..][i].userId == DefaultUser && rows[1..][i].mediaId == mediaId) {
          assert rows[1..][i] == rows[i + 1];
        }
      }
      RemoveAbsent(rows[1..], mediaId);
      assert rows == [rows[0]] + rows[1..];
    }
  }

  lemma RemoveLeavesNone(rows: seq<FavoriteRow>, mediaId: int)
    ensures !Favorited(RemoveFavorite(rows, mediaId), mediaId)
  {
    var r := RemoveFavorite(rows, mediaId);
    forall i | 0 <= i < |r| ensures !(r[i].userId == DefaultUser && r[i].mediaId == mediaId) {
      assert r[i] in r;
    }
  }

  /** DELETE is idempotent: a second one with the same body answers the same and changes nothing. */
  lemma DeleteIdempotent(rows: seq<FavoriteRow>, mediaId: Value)
    ensures AfterDelete(AfterDelete(rows, mediaId), mediaId) == AfterDelete(rows, mediaId)
  {
    if DeleteReply(mediaId) == Removed {
      var id := ParseIntOf(mediaId).value;
      RemoveLeavesNone(rows, id);
      RemoveAbsent(RemoveFavorite(rows, id), id);
    }
  }

  lemma {:induction false} RemoveAppend(rows: seq<FavoriteRow>, row: FavoriteRow, mediaId: int)
    ensures RemoveFavorite(rows + [row], mediaId)
         == RemoveFavorite(rows, mediaId) + (if row.userId == DefaultUser && row.mediaId == mediaId then [] else [row])
  {
    if rows == [] {
      assert rows + [row] == [row];
    } else {
      assert (rows + [row])[1..] == rows[1..] + [row];
      RemoveAppend(rows[1..], row, mediaId);
    }
  }

  /** A POST that creates a row followed by a DELETE of the same id gives back the rows before. */
  lemma PostThenDelete(rows: seq<FavoriteRow>, nextId: int, media: set<int>, mediaId: Value)
    requires PostReply(rows, nextId, media, mediaId).Created?
    ensures DeleteReply(mediaId) == Removed
    ensures AfterDelete(AfterPost(rows, PostReply(rows, nextId, media, mediaId)), mediaId) == rows
  {
    var r := PostReply(rows, nextId, media, mediaId);
    var id := ParseIntOf(mediaId).value;
    RemoveAppend(rows, r.row, id);
    RemoveAbsent(rows, id);
  }

  /** GET lists exactly user 1's rows, each once, with strictly decreasing ids. */
  lemma ListingOrder(rows: seq<FavoriteRow>, nextId: int)
    requires WellFormed(rows, nextId)
    ensures multiset(Listing(rows)) == multiset(RowsOf(rows, DefaultUser))
    ensures forall x :: x in Listing(rows) <==> x in rows && x.userId == DefaultUser
    ensures forall i, j :: 0 <= i < j < |Listing(rows)| ==> Listing(rows)[i].id > Listing(rows)[j].id
  {
    var mine := RowsOf(rows, DefaultUser);
    var l := Listing(rows);
    SortPermutes(mine, IdKey, Desc);
    SortOrders(mine, IdKey, Desc);
    forall x ensures x in l <==> x in mine {
      assert x in l <==> x in multiset(l);
      assert x in mine <==> x in multiset(mine);
    }
    forall i, j | 0 <= i < j < |l| ensures l[i].id > l[j].id {
      var a, b := IdKey(l[i]), IdKey(l[j]);
      assert a[1..] == [] && b[1..] == [];
      assert !KeyLess(a, b);
      assert l[i].id >= l[j].id;
      DistinctInRows(rows, nextId, mine, l, i, j);
    }
  }

  /** Two positions of a permutation of user 1's rows hold different ids. */
  lemma DistinctInRows(rows: seq<FavoriteRow>, nextId: int, mine: seq<FavoriteRow>, l: seq<FavoriteRow>, i: nat, j: nat)
    requires WellFormed(rows, nextId)
    requires mine == RowsOf(rows, DefaultUser) && multiset(l) == multiset(mine)
    requires i < j < |l|
    ensures l[i].id != l[j].id
  {
    RowsOfWellFormed(rows, nextId, DefaultUser);
    PermutationKeepsIds(mine, l, i, j);
  }

  lemma PermutationKeepsIds(m: seq<FavoriteRow>, l: seq<FavoriteRow>, i: nat, j: nat)
    requires forall x, y :: 0 <= x < y < |m| ==> m[x].id != m[y].id
    requires multiset(l) == multiset(m)
    requires i < j < |l|
    ensures l[i].id != l[j].id
  {
    assert l[i] in multiset(m) && l[j] in multiset(m);
    var a :| 0 <= a < |m| && m[a] == l[i];
    var b :| 0 <= b < |m| && m[b] == l[j];
    if l[i] == l[j] {
      TwiceInSeq(l, i, j);
      MultiplicityOne(m, a);
    } else {
      assert a != b;
    }
  }

  lemma TwiceInSeq(l: seq<FavoriteRow>, i: nat, j: nat)
    requires i < j < |l| && l[i] == l[j]
    ensures multiset(l)[l[i]] >= 2
  {
    assert l == l[..j] + l[j..];
    assert l[..j][i] == l[i];
    assert l[j..][0] == l[j];
    assert multiset(l) == multiset(l[..j]) + multiset(l[j..]);
  }

  lemma RowsOfWellFormed(rows: seq<FavoriteRow>, nextId: int, user: int)
    requires WellFormed(rows, nextId)
    ensures forall a, b :: 0 <= a < b < |RowsOf(rows, user)| ==> RowsOf(rows, user)[a].id != RowsOf(rows, user)[b].id
  {
    var r := RowsOf(rows, user);
    if rows != [] {
      assert WellFormed(rows[1..], nextId);
      RowsOfWellFormed(rows[1..], nextId, user);
      var rest := RowsOf(rows[1..], user);
      if rows[0].userId == user {
        forall a, b | 0 <= a < b < |r| ensures r[a].id != r[b].id {
          if a == 0 {
            assert r[b] == rest[b - 1] && rest[b - 1] in rest;
            assert r[b] in rows[1..];
          } else {
            assert r[a] == rest[a - 1] && r[b] == rest[b - 1];
          }
        }
      }
    }
  }

  /** In a sequence with distinct ids, every element occurs once. */
  lemma {:induction false} MultiplicityOne(s: seq<FavoriteRow>, a: nat)
    requires a < |s|
    requires forall x, y :: 0 <= x < y < |s| ==> s[x].id != s[y].id
    ensures multiset(s)[s[a]] == 1
  {
    assert s == s[..a] + [s[a]] + s[a + 1..];
    forall k | 0 <= k < |s| && k != a ensures s[k] != s[a] {
      if k < a { assert s[k].id != s[a].id; } else { assert s[a].id != s[k].id; }
    }
    assert s[a] !in s[..a] by {
      forall k | 0 <= k < a ensures s[..a][k] != s[a] { assert s[..a][k] == s[k]; }
    }
    assert s[a] !in s[a + 1..] by {
      var t := s[a + 1..];
      forall k | 0 <= k < |t| ensures t[k] != s[a] { assert t[k] == s[a + 1 + k]; }
    }
  }
}
