/**
 * The review handler of app/api/add-review/route.ts: the guard chain on the
 * JSON body, the review record it builds, and the one insert. Every review is
 * public and belongs to user 1. The storage layer refuses a NaN id or rating,
 * a missing media item and a comment that is not text; what it throws is a
 * parameter, from which the 500 reply takes its details. User 1 is taken
 * to exist: a missing user row would be a refusal just as a missing media
 * item is.
 */
module AddReviewRoute {
  import opened Wrappers
  import opened JsText
  import opened JsValue

  const DefaultUser := 1

  /** A review row. */
  datatype Review = Review(id: int, mediaId: int, rating: int, comment: Option<string>, isPublic: bool, userId: int)

  datatype Reply = Created(review: Review) | BadRequest(error: string) | ServerError(error: string, details: string)

  function Status(r: Reply): nat {
    match r
    case Created(_) => 201
    case BadRequest(_) => 400
    case ServerError(_, _) => 500
  }

  /** `rating < 1 || rating > 10`: both comparisons convert with `Number`, and NaN makes both false. */
  predicate OutOfRange(rating: Value) {
    match ToNumber(rating)
    case Some(n) => n < 1.0 || n > 10.0
    case None => false
  }

  /** `comment || null`, as the storage layer takes it: a truthy comment must be text. */
  function CommentValue(v: Value): (r: Option<Option<string>>)
    ensures !Truthy(v) ==> r == Some(None)
    ensures r == Some(None) || (r.Some? && v == Str(r.value.value) && r.value.value != "") || r.None?
    ensures v.Str? && v.s != "" ==> r == Some(Some(v.s))
    ensures Truthy(v) && !v.Str? ==> r.None?
  {
    if !Truthy(v) then Some(None) else if v.Str? then Some(Some(v.s)) else None
  }

  /** The insert the handler issues once the guards pass. */
  function Insert(nextId: int, media: set<int>, mediaId: Value, rating: Value, comment: Value, thrown: Thrown): (r: Reply)
    ensures r.Created? || r == ServerError("Failed to create review", Details(thrown))
    ensures r.Created? <==> (ParseIntOf(mediaId).Some? && ParseIntOf(rating).Some? && CommentValue(comment).Some?
      && ParseIntOf(mediaId).value in media)
    ensures r.Created? ==> r.review == Review(nextId, ParseIntOf(mediaId).value, ParseIntOf(rating).value,
      CommentValue(comment).value, true, DefaultUser)
  {
    match (ParseIntOf(mediaId), ParseIntOf(rating), CommentValue(comment))
    case (Some(m), Some(n), Some(c)) =>
      if m in media then Created(Review(nextId, m, n, c, true, DefaultUser))
      else ServerError("Failed to create review", Details(thrown))
    case _ => ServerError("Failed to create review", Details(thrown))
  }

  /**
   * POST as written: the range check reads `Number(rating)` but the stored
   * rating is `parseInt(rating)`.
   */
  function PostReplyAsWritten(nextId: int, media: set<int>, mediaId: Value, rating: Value, comment: Value, thrown: Thrown): (r: Reply)
    ensures !Truthy(mediaId) || !Truthy(rating) ==> r == BadRequest("Media ID and rating are required")
    ensures Truthy(mediaId) && Truthy(rating) && OutOfRange(rating) ==> r == BadRequest("Rating must be between 1 and 10")
    ensures Truthy(mediaId) && Truthy(rating) && !OutOfRange(rating) ==> r == Insert(nextId, media, mediaId, rating, comment, thrown)
  {
    if !Truthy(mediaId) || !Truthy(rating) then BadRequest("Media ID and rating are required")
    else if OutOfRange(rating) then BadRequest("Rating must be between 1 and 10")
    else Insert(nextId, media, mediaId, rating, comment, thrown)
  }

  /** The rating as stored, and its range check on that same value. */
  predicate StoredOutOfRange(rating: Value) {
    match ParseIntOf(rating)
    case Some(n) => n < 1 || n > 10
    case None => false
  }

  /** POST with the range check applied to the value it stores as well. */
  function PostReply(nextId: int, media: set<int>, mediaId: Value, rating: Value, comment: Value, thrown: Thrown): (r: Reply)
    ensures !Truthy(mediaId) || !Truthy(rating) ==> r == BadRequest("Media ID and rating are required")
    ensures r.Created? ==> 1 <= r.review.rating <= 10 && r.review.isPublic && r.review.userId == DefaultUser
  {
    if !Truthy(mediaId) || !Truthy(rating) then BadRequest("Media ID and rating are required")
    else if OutOfRange(rating) || StoredOutOfRange(rating) then BadRequest("Rating must be between 1 and 10")
    else Insert(nextId, media, mediaId, rating, comment, thrown)
  }

  /**
   * The correction differs from the handler as written only on a rating
   * whose integer part is out of range, which it refuses; where the handler
   * as written accepts such a rating it stores it.
   */
  lemma CorrectionOnlyRefuses(nextId: int, media: set<int>, mediaId: Value, rating: Value, comment: Value, thrown: Thrown)
    ensures var fixed := PostReply(nextId, media, mediaId, rating, comment, thrown);
      var asWritten := PostReplyAsWritten(nextId, media, mediaId, rating, comment, thrown);
      fixed != asWritten ==>
        && StoredOutOfRange(rating)
        && fixed == BadRequest("Rating must be between 1 and 10")
        && (asWritten.Created? ==> asWritten.review.rating < 1 || asWritten.review.rating > 10)
  {
  }

  /** A rating of 0 is falsy: it fails the presence check, not the range check. */
  lemma ZeroRatingIsMissing(nextId: int, media: set<int>, mediaId: Value, comment: Value, thrown: Thrown)
    ensures PostReply(nextId, media, mediaId, Num(0.0), comment, thrown) == BadRequest("Media ID and rating are required")
    ensures PostReplyAsWritten(nextId, media, mediaId, Num(0.0), comment, thrown) == BadRequest("Media ID and rating are required")
  {
  }

  /** A numeric rating in 1..10 with a present media item is stored as its integer part. */
  lemma NumericRatingStored(nextId: int, media: set<int>, id: int, n: real, comment: string, thrown: Thrown)
    requires 1.0 <= n <= 10.0 && id != 0 && id in media
    ensures PostReplyAsWritten(nextId, media, Num(id as real), Num(n), Str(comment), thrown)
         == Created(Review(nextId, id, Trunc(n), if comment == "" then None else Some(comment), true, DefaultUser))
    ensures 1 <= Trunc(n) <= 10
  {
    assert Trunc(id as real) == id;
  }

  /** "15abc" is NaN to `Number`, so both comparisons are false, yet `parseInt` reads 15 from it. */
  lemma RatingGuardBypassed(nextId: int, media: set<int>, thrown: Thrown)
    requires 1 in media
    ensures PostReplyAsWritten(nextId, media, Num(1.0), Str("15abc"), Undefined, thrown)
         == Created(Review(nextId, 1, 15, None, true, DefaultUser))
    ensures PostReply(nextId, media, Num(1.0), Str("15abc"), Undefined, thrown)
         == BadRequest("Rating must be between 1 and 10")
  {
    var rating := Str("15abc");
    FifteenAbcParses();
    FifteenAbcIsNaN();
    assert ParseIntOf(rating) == Some(15);
    assert !OutOfRange(rating) && StoredOutOfRange(rating);
    assert ParseIntOf(Num(1.0)) == Some(1) by { assert Trunc(1.0) == 1; }
    assert CommentValue(Undefined) == Some(None);
    assert Insert(nextId, media, Num(1.0), rating, Undefined, thrown) == Created(Review(nextId, 1, 15, None, true, DefaultUser));
  }

  /** "15abc" has no white space to trim and starts with two digits. */
  lemma FifteenAbcShape()
    ensures Trim("15abc") == "15abc" && TrimStart("15abc") == "15abc"
    ensures DigitRun("15abc") == 2 && "15abc"[..2] == "15"
  {
    var s := "15abc";
    assert SpacePrefix(s) == 0 && SpaceSuffix(s) == 0;
    assert s[1..] == "5abc" && s[1..][1..] == "abc";
  }

  lemma FifteenAbcParses()
    ensures ParseInt("15abc") == Some(15)
  {
    FifteenAbcShape();
    assert DigitsValue("15") == 15 by { assert "15"[..1] == "1"; }
  }

  lemma FifteenAbcIsNaN()
    ensures StringToNumber("15abc") == None
  {
    FifteenAbcShape();
    var s := "15abc";
    assert s[2..] == "abc";
    assert ScanExponent(s[2..]) == None;
    assert ScanUnsigned(s).value.length == 2;
  }

  /** The reviews table. */
  class ReviewsTable {
    var reviews: seq<Review>
    var nextId: int
    /** The ids of the media items, which a review must reference. */
    const media: set<int>

    constructor(media: set<int>)
      ensures reviews == [] && nextId == 1 && this.media == media
    {
      reviews := [];
      nextId := 1;
      this.media := media;
    }

    /**
     * POST: the guards, then one insert. Every accepted request adds exactly
     * one review, duplicates included; a refused one adds none.
     */
    method Post(mediaId: Value, rating: Value, comment: Value, thrown: Thrown) returns (reply: Reply)
      modifies this
      ensures reply == PostReply(old(nextId), media, mediaId, rating, comment, thrown)
      ensures reviews == if reply.Created? then old(reviews) + [reply.review] else old(reviews)
      ensures nextId == if reply.Created? then old(nextId) + 1 else old(nextId)
    {
      if !Truthy(mediaId) || !Truthy(rating) {
        return BadRequest("Media ID and rating are required");
      }
      if OutOfRange(rating) || StoredOutOfRange(rating) {
        return BadRequest("Rating must be between 1 and 10");
      }
      reply := Insert(nextId, media, mediaId, rating, comment, thrown);
      if reply.Created? {
        reviews := reviews + [reply.review];
        nextId := nextId + 1;
      }
    }
  }

  /** Two identical accepted requests store two reviews: there is no duplicate check. */
  lemma NoDuplicateCheck(nextId: int, media: set<int>, mediaId: Value, rating: Value, comment: Value, thrown: Thrown)
    requires PostReply(nextId, media, mediaId, rating, comment, thrown).Created?
    ensures PostReply(nextId + 1, media, mediaId, rating, comment, thrown).Created?
    ensures PostReply(nextId + 1, media, mediaId, rating, comment, thrown).review
         == PostReply(nextId, media, mediaId, rating, comment, thrown).review.(id := nextId + 1)
  {
  }
}
