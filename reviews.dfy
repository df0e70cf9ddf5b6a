/** The reputation routes of src/routes/reviews.ts: one review per reviewer and
    delivered request, directed at the counterpart, after which the reviewee's
    average rating is recomputed as the plain mean of every rating they ever
    received; and the newest-first listing of a user's received reviews. */
module ReviewRoutes {
  import opened Types
  import opened Tables
  import opened Store

  /** Who a caller reviews on a request, and in which direction: the sender reviews
      the matched traveler, the matched traveler reviews the sender (the sender
      check comes first), and nobody else reviews at all. */
  function Direction(r: DeliveryRequest, callerId: Id): (d: Option<(ReviewType, Option<Id>)>)
    ensures d.Some? <==> callerId == r.senderId || r.matchedTravelerId == Some(callerId)
    ensures callerId == r.senderId ==> d == Some((SenderToTraveler, r.matchedTravelerId))
    ensures callerId != r.senderId && r.matchedTravelerId == Some(callerId) ==>
              d == Some((TravelerToSender, Some(r.senderId)))
  {
    if callerId == r.senderId then Some((SenderToTraveler, r.matchedTravelerId))
    else if r.matchedTravelerId == Some(callerId) then Some((TravelerToSender, Some(r.senderId)))
    else None
  }

  /** The caller's earlier review of the request, if any. */
  function PriorReview(vs: seq<Review>, requestId: Id, reviewerId: Id): (r: Option<Review>)
    ensures r.None? <==> forall i :: 0 <= i < |vs| ==>
                           !(vs[i].deliveryRequestId == requestId && vs[i].reviewerId == reviewerId)
  {
    First(vs, (v: Review) => v.deliveryRequestId == requestId && v.reviewerId == reviewerId)
  }

  /** A rating the body may carry: present, not zero, and within 1 to 5. */
  predicate RatingAccepted(rating: Option<real>) {
    rating.Some? && 1.0 <= rating.value <= 5.0
  }

  /** Submission's answer: 400 for a missing request id or rating or a rating out of
      range, 404 for an unknown request, 400 unless it is delivered, 403 for a
      caller who is neither its sender nor its matched traveler, 400 for a second
      review by the same caller; otherwise 201. */
  function SubmitVerdict(rs: seq<DeliveryRequest>, vs: seq<Review>, callerId: Id, requestId: Id, rating: Option<real>)
    : (reply: Reply)
    ensures reply == Created <==>
              && Given(requestId) && RatingAccepted(rating)
              && Lookup(rs, RequestKey, requestId).Some?
              && Lookup(rs, RequestKey, requestId).value.status.Delivered?
              && Direction(Lookup(rs, RequestKey, requestId).value, callerId).Some?
              && PriorReview(vs, requestId, callerId).None?
    ensures reply == NotFound <==>
              Given(requestId) && RatingAccepted(rating) && Lookup(rs, RequestKey, requestId).None?
    ensures reply == Forbidden <==>
              && Given(requestId) && RatingAccepted(rating)
              && Lookup(rs, RequestKey, requestId).Some?
              && Lookup(rs, RequestKey, requestId).value.status.Delivered?
              && Direction(Lookup(rs, RequestKey, requestId).value, callerId).None?
    ensures reply in {Created, NotFound, Forbidden, BadRequest}
  {
    if !Given(requestId) || rating.None? || rating.value == 0.0 then BadRequest
    else if rating.value < 1.0 || rating.value > 5.0 then BadRequest
    else
      match Lookup(rs, RequestKey, requestId)
      case None => NotFound
      case Some(r) =>
        if !r.status.Delivered? then BadRequest
        else if Direction(r, callerId).None? then Forbidden
        else if PriorReview(vs, requestId, callerId).Some? then BadRequest
        else Created
  }

  function Sum(xs: seq<real>): real {
    if xs == [] then 0.0 else xs[0] + Sum(xs[1..])
  }

  /** `AVG(rating)`, with the `|| 0` fallback when there is nothing to average. */
  function Mean(xs: seq<real>): real {
    if xs == [] then 0.0 else Sum(xs) / (|xs| as real)
  }

  /** The ratings a user has received, in the order the reviews were written. */
  function Ratings(vs: seq<Review>, userId: Id): (xs: seq<real>)
    ensures |xs| <= |vs|
  {
    if vs == [] then []
    else (if vs[0].revieweeId == Some(userId) then [vs[0].rating] else []) + Ratings(vs[1..], userId)
  }

  /** The filter that picks the reviews a user has received. */
  function ReviewsOf(userId: Id): Review -> bool {
    (v: Review) => v.revieweeId == Some(userId)
  }

  /** The ratings of a list of reviews, one per review, in order. */
  function RatingsOf(ws: seq<Review>): (xs: seq<real>)
    ensures |xs| == |ws|
  {
    if ws == [] then [] else [ws[0].rating] + RatingsOf(ws[1..])
  }

  /** The ratings averaged for a user are those of the reviews the user received,
      one for one and in order: each received review contributes its rating once. */
  lemma {:induction false} RatingsAre(vs: seq<Review>, userId: Id)
    ensures Ratings(vs, userId) == RatingsOf(Where(vs, ReviewsOf(userId)))
  {
    if vs != [] {
      RatingsAre(vs[1..], userId);
      var ws := Where(vs[1..], ReviewsOf(userId));
      if vs[0].revieweeId == Some(userId) {
        assert Where(vs, ReviewsOf(userId)) == [vs[0]] + ws;
        assert ([vs[0]] + ws)[1..] == ws;
      } else {
        assert Where(vs, ReviewsOf(userId)) == ws;
      }
    }
  }

  predicate InRange(xs: seq<real>) {
    forall i :: 0 <= i < |xs| ==> 1.0 <= xs[i] <= 5.0
  }

  lemma {:induction false} SumBounds(xs: seq<real>)
    requires InRange(xs)
    ensures |xs| as real <= Sum(xs) <= 5.0 * |xs| as real
  {
    if xs != [] {
      SumBounds(xs[1..]);
    }
  }

  /** The mean of ratings between 1 and 5 is itself between 1 and 5. */
  lemma MeanBounds(xs: seq<real>)
    requires InRange(xs) && xs != []
    ensures 1.0 <= Mean(xs) <= 5.0
  {
    SumBounds(xs);
    QuotientBounds(Sum(xs), |xs| as real);
  }

  lemma QuotientBounds(total: real, n: real)
    requires n > 0.0 && n <= total <= 5.0 * n
    ensures 1.0 <= total / n <= 5.0
  {
  }

  lemma {:induction false} SumAppend(xs: seq<real>, x: real)
    ensures Sum(xs + [x]) == Sum(xs) + x
  {
    if xs != [] {
      assert (xs + [x])[1..] == xs[1..] + [x];
      SumAppend(xs[1..], x);
    }
  }

  lemma {:induction false} RatingsAppend(vs: seq<Review>, v: Review, userId: Id)
    ensures Ratings(vs + [v], userId) == Ratings(vs, userId) + (if v.revieweeId == Some(userId) then [v.rating] else [])
  {
    if vs == [] {
      assert [v][1..] == [];
    } else {
      var head := if vs[0].revieweeId == Some(userId) then [vs[0].rating] else [];
      var tail := if v.revieweeId == Some(userId) then [v.rating] else [];
      assert (vs + [v])[0] == vs[0];
      assert (vs + [v])[1..] == vs[1..] + [v];
      RatingsAppend(vs[1..], v, userId);
      assert Ratings(vs + [v], userId) == head + (Ratings(vs[1..], userId) + tail);
      assert head + (Ratings(vs[1..], userId) + tail) == (head + Ratings(vs[1..], userId)) + tail;
    }
  }

  /** A new review of a user moves their average to the mean of the old ratings
      and the new one: the old total plus the new rating, over one more review. */
  lemma NewAverage(vs: seq<Review>, v: Review, userId: Id)
    requires v.revieweeId == Some(userId)
    ensures Mean(Ratings(vs + [v], userId)) ==
              (Sum(Ratings(vs, userId)) + v.rating) / ((|Ratings(vs, userId)| + 1) as real)
  {
    RatingsAppend(vs, v, userId);
    SumAppend(Ratings(vs, userId), v.rating);
  }

  /** Every stored rating is between 1 and 5. */
  ghost predicate RatingsInRange(vs: seq<Review>) {
    forall i :: 0 <= i < |vs| ==> 1.0 <= vs[i].rating <= 5.0
  }

  /** No reviewer has reviewed the same request twice. */
  ghost predicate OneReviewEach(vs: seq<Review>) {
    forall i, j :: 0 <= i < j < |vs| ==>
      !(vs[i].deliveryRequestId == vs[j].deliveryRequestId && vs[i].reviewerId == vs[j].reviewerId)
  }

  lemma {:induction false} RatingsInRangeOf(vs: seq<Review>, userId: Id)
    requires RatingsInRange(vs)
    ensures InRange(Ratings(vs, userId))
  {
    if vs != [] {
      RatingsInRangeOf(vs[1..], userId);
    }
  }

  /** The users table with the average rating of every row with the user's id overwritten. */
  function SetAverage(us: seq<User>, userId: Id, average: real): (r: seq<User>)
    ensures |r| == |us|
    ensures forall i :: 0 <= i < |us| ==> r[i] == if us[i].id == userId then us[i].(averageRating := average) else us[i]
  {
    seq(|us|, i requires 0 <= i < |us| => if us[i].id == userId then us[i].(averageRating := average) else us[i])
  }

  lemma SetAverageKeepsKeys(us: seq<User>, userId: Id, average: real)
    requires UniqueKeys(us, UserKey)
    ensures UniqueKeys(SetAverage(us, userId, average), UserKey)
  {
    var r := SetAverage(us, userId, average);
    assert forall i :: 0 <= i < |us| ==> UserKey(r[i]) == UserKey(us[i]);
  }

  /** The review a successful submission inserts. */
  function NewReview(id: Id, r: DeliveryRequest, callerId: Id, rating: real, reviewText: string, now: nat): Review
    requires Direction(r, callerId).Some?
  {
    var d := Direction(r, callerId).value;
    Review(id, r.id, callerId, d.1, rating, OrNull(reviewText), d.0, now)
  }

  /** Writes a user's new average rating into the users table. */
  method SetUserAverage(db: Database, userId: Id, average: real)
    requires db.Valid()
    modifies db`users
    ensures db.Valid()
    ensures db.users == SetAverage(old(db.users), userId, average)
  {
    SetAverageKeepsKeys(db.users, userId, average);
    db.users := SetAverage(db.users, userId, average);
  }

  /** Stores a review that passed every guard: appends it and, when it has a
      reviewee, sets their average to the mean of all ratings they have received.
      Ratings stay between 1 and 5, so does that mean, and no caller reviews a
      request twice. */
  method Record(db: Database, v: Review)
    requires db.Valid()
    requires Lookup(db.reviews, ReviewKey, v.id).None?
    requires PriorReview(db.reviews, v.deliveryRequestId, v.reviewerId).None?
    requires 1.0 <= v.rating <= 5.0
    modifies db`reviews, db`users
    ensures db.Valid()
    ensures db.reviews == old(db.reviews) + [v]
    ensures db.users == (if v.revieweeId.None? then old(db.users)
                         else SetAverage(old(db.users), v.revieweeId.value, Mean(Ratings(db.reviews, v.revieweeId.value))))
    ensures RatingsInRange(old(db.reviews)) ==> RatingsInRange(db.reviews)
    ensures RatingsInRange(old(db.reviews)) && v.revieweeId.Some? ==>
              1.0 <= Mean(Ratings(db.reviews, v.revieweeId.value)) <= 5.0
    ensures OneReviewEach(old(db.reviews)) ==> OneReviewEach(db.reviews)
    ensures v.revieweeId.Some? ==>
              Mean(Ratings(db.reviews, v.revieweeId.value)) ==
                (Sum(Ratings(old(db.reviews), v.revieweeId.value)) + v.rating)
                  / ((|Ratings(old(db.reviews), v.revieweeId.value)| + 1) as real)
  {
    var before := db.reviews;
    var after := before + [v];
    InsertFresh(before, ReviewKey, v);
    AppendKeepsOneReviewEach(before, v);
    AppendKeepsRatingsInRange(before, v);
    db.reviews := after;
    if v.revieweeId.Some? {
      var uid := v.revieweeId.value;
      var average := Mean(Ratings(after, uid));
      assert average == (Sum(Ratings(before, uid)) + v.rating) / ((|Ratings(before, uid)| + 1) as real) by {
        NewAverage(before, v, uid);
      }
      if RatingsInRange(before) {
        AverageStaysInRange(before, v, uid);
      }
      SetUserAverage(db, uid, average);
    }
  }

  /** POST /reviews: when every guard passes, the review of the counterpart is
      recorded (201); otherwise nothing changes. */
  method Submit(db: Database, caller: User, requestId: Id, rating: Option<real>, reviewText: string,
                reviewId: Id, now: nat)
    returns (reply: Reply)
    requires db.Valid()
    requires Lookup(db.reviews, ReviewKey, reviewId).None?
    modifies db`reviews, db`users
    ensures db.Valid()
    ensures reply == SubmitVerdict(old(db.requests), old(db.reviews), caller.id, requestId, rating)
    ensures reply != Created ==> db.reviews == old(db.reviews) && db.users == old(db.users)
    ensures reply == Created ==>
              var v := NewReview(reviewId, Lookup(old(db.requests), RequestKey, requestId).value, caller.id,
                                 rating.value, reviewText, now);
              && db.reviews == old(db.reviews) + [v]
              && db.users == (if v.revieweeId.None? then old(db.users)
                              else SetAverage(old(db.users), v.revieweeId.value,
                                              Mean(Ratings(db.reviews, v.revieweeId.value))))
              && (v.revieweeId.Some? && RatingsInRange(old(db.reviews)) ==>
                    1.0 <= Mean(Ratings(db.reviews, v.revieweeId.value)) <= 5.0)
    ensures RatingsInRange(old(db.reviews)) ==> RatingsInRange(db.reviews)
    ensures OneReviewEach(old(db.reviews)) ==> OneReviewEach(db.reviews)
  {
    reply := SubmitVerdict(db.requests, db.reviews, caller.id, requestId, rating);
    if reply != Created {
      return;
    }
    var r := Lookup(db.requests, RequestKey, requestId).value;
    var v := NewReview(reviewId, r, caller.id, rating.value, reviewText, now);
    Record(db, v);
  }

  /** Appending a rating between 1 and 5 keeps every stored rating between 1 and 5. */
  lemma AppendKeepsRatingsInRange(vs: seq<Review>, v: Review)
    requires 1.0 <= v.rating <= 5.0
    ensures RatingsInRange(vs) ==> RatingsInRange(vs + [v])
  {
    var ws := vs + [v];
    if RatingsInRange(vs) {
      forall i | 0 <= i < |ws| ensures 1.0 <= ws[i].rating <= 5.0 {
        if i < |vs| {
          assert ws[i] == vs[i];
        }
      }
    }
  }

  /** Appending a review by a reviewer who has not reviewed that request keeps one
      review per reviewer and request. */
  lemma AppendKeepsOneReviewEach(vs: seq<Review>, v: Review)
    requires PriorReview(vs, v.deliveryRequestId, v.reviewerId).None?
    ensures OneReviewEach(vs) ==> OneReviewEach(vs + [v])
  {
    var ws := vs + [v];
    if OneReviewEach(vs) {
      forall i, j | 0 <= i < j < |ws|
        ensures !(ws[i].deliveryRequestId == ws[j].deliveryRequestId && ws[i].reviewerId == ws[j].reviewerId)
      {
        assert ws[i] == vs[i];
      }
    }
  }

  /** With every stored rating and the new one between 1 and 5, the reviewee's new
      average is between 1 and 5. */
  lemma AverageStaysInRange(vs: seq<Review>, v: Review, userId: Id)
    requires RatingsInRange(vs) && 1.0 <= v.rating <= 5.0
    requires v.revieweeId == Some(userId)
    ensures RatingsInRange(vs + [v])
    ensures 1.0 <= Mean(Ratings(vs + [v], userId)) <= 5.0
  {
    RatingsInRangeOf(vs + [v], userId);
    RatingsAppend(vs, v, userId);
    MeanBounds(Ratings(vs + [v], userId));
  }

  /** Newest first. */
  function ReviewRank(v: Review): Rank { Rank(v.createdAt as real, 0.0) }

  /** A review of `userId` whose reviewer is a known user. */
  predicate ReceivedBy(us: seq<User>, userId: Id, v: Review) {
    v.revieweeId == Some(userId) && Lookup(us, UserKey, v.reviewerId).Some?
  }

  /** GET /reviews/user/:id: exactly the reviews the user received from known
      reviewers, newest first. */
  function ReviewsFor(us: seq<User>, vs: seq<Review>, userId: Id): (r: seq<Review>)
    ensures forall v :: multiset(r)[v] == if ReceivedBy(us, userId, v) then multiset(vs)[v] else 0
    ensures forall i, j :: 0 <= i < j < |r| ==> r[i].createdAt >= r[j].createdAt
  {
    var r := Query(vs, (v: Review) => ReceivedBy(us, userId, v), ReviewRank);
    r
  }
}
