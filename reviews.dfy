/** Review creation: only a customer who bought a service may review it,
    once.  The checks run in a fixed order and only the last step writes. */
module ReviewsRoute {
  import opened Common
  import opened Store
  import opened Schema
  import opened Http

  /** The JSON body; `isCuid` (the id-format check of the schema library)
      is a parameter of the route. */
  datatype ReviewBody = ReviewBody(serviceId: Option<string>, rating: Option<int>,
                                   comment: Option<string>)

  const InvalidCuid := "Invalid cuid"
  const RatingTooLow := "Number must be greater than or equal to 1"
  const RatingTooHigh := "Number must be less than or equal to 5"
  const ShortComment := "Komentář musí mít alespoň 10 znaků"
  const OnlyCustomers := "Only customers can write reviews"
  const ServiceNotFound := "Service not found"
  const NotPurchased := "You must purchase this service before reviewing it"
  const AlreadyReviewed := "You have already reviewed this service"
  const CreateFailed := "Failed to create review"

  predicate Accepted(b: ReviewBody, isCuid: string -> bool)
  {
    && b.serviceId.Some? && isCuid(b.serviceId.value)
    && b.rating.Some? && 1 <= b.rating.value <= 5
    && (b.comment.Some? ==> |b.comment.value| >= 10)
  }

  /** `z.number().min(1).max(5)` on the rating. */
  function CheckRating(v: Option<int>): (r: seq<Issue>)
    ensures |r| <= 1
    ensures r == [] <==> v.Some? && 1 <= v.value <= 5
    ensures v.Some? && v.value < 1 ==> r == [Issue("rating", RatingTooLow)]
    ensures v.Some? && v.value > 5 ==> r == [Issue("rating", RatingTooHigh)]
  {
    match v
    case None => [Issue("rating", Required)]
    case Some(n) =>
      if n < 1 then [Issue("rating", RatingTooLow)]
      else if n > 5 then [Issue("rating", RatingTooHigh)]
      else []
  }

  /** `.min(10).optional()` on the comment. */
  function CheckComment(v: Option<string>): (r: seq<Issue>)
    ensures r == [] <==> (v.Some? ==> |v.value| >= 10)
    ensures r != [] ==> r == [Issue("comment", ShortComment)]
  {
    if v.Some? && |v.value| < 10 then [Issue("comment", ShortComment)] else []
  }

  /** The issues of the review schema, in field order. */
  function ReviewIssues(b: ReviewBody, isCuid: string -> bool): (r: seq<Issue>)
    ensures r == [] <==> Accepted(b, isCuid)
    ensures b.serviceId.Some? && !isCuid(b.serviceId.value) ==> r[0] == Issue("serviceId", InvalidCuid)
    ensures b.rating.Some? && b.rating.value < 1 ==> Issue("rating", RatingTooLow) in r
    ensures b.rating.Some? && b.rating.value > 5 ==> Issue("rating", RatingTooHigh) in r
    ensures b.comment.Some? && |b.comment.value| < 10 ==> Issue("comment", ShortComment) in r
    ensures b.comment.None? ==> forall i :: 0 <= i < |r| ==> r[i].path != "comment"
  {
    CheckString("serviceId", b.serviceId, isCuid, InvalidCuid)
    + CheckRating(b.rating)
    + CheckComment(b.comment)
  }

  predicate IsCustomer(session: Option<SessionUser>)
  {
    session.Some? && session.value.role == CUSTOMER
  }

  /** POST /api/reviews.  The new row's id is a parameter. */
  method Post(db: Db, session: Option<SessionUser>, body: Body<ReviewBody>,
              isCuid: string -> bool, newId: ReviewId) returns (resp: Response)
    requires db.Valid()
    modifies db`reviews
    ensures db.Valid()
    ensures resp.status != 201 ==> db.reviews == old(db.reviews)
    ensures !IsCustomer(session) ==> resp == Response(401, Error(OnlyCustomers))
    ensures IsCustomer(session) && body.Unparseable? ==> resp == Response(500, Error(CreateFailed))
    ensures IsCustomer(session) && body.Json? && !Accepted(body.value, isCuid) ==>
              resp == Response(400, ErrorIssues(ReviewIssues(body.value, isCuid)))
    ensures IsCustomer(session) && body.Json? && Accepted(body.value, isCuid) ==>
              var user, service := session.value.id, body.value.serviceId.value;
              && (FindService(db.services, service).None? ==>
                    resp == Response(404, Error(ServiceNotFound)))
              && (FindService(db.services, service).Some? &&
                  !HasPurchased(db.transactions, user, service) ==>
                    resp == Response(403, Error(NotPurchased)))
              && (FindService(db.services, service).Some? &&
                  HasPurchased(db.transactions, user, service) &&
                  HasReviewed(old(db.reviews), user, service) ==>
                    resp == Response(400, Error(AlreadyReviewed)))
              && (FindService(db.services, service).Some? &&
                  HasPurchased(db.transactions, user, service) &&
                  !HasReviewed(old(db.reviews), user, service) ==>
                    var review := Review(newId, service, user, body.value.rating.value,
                                         body.value.comment, PUBLISHED_REVIEW);
                    && db.reviews == old(db.reviews) + [review]
                    && resp == Response(201, CreatedReview(review)))
  {
    if !IsCustomer(session) {
      return Response(401, Error(OnlyCustomers));
    }
    if body.Unparseable? {
      return Response(500, Error(CreateFailed));
    }
    var b := body.value;
    var issues := ReviewIssues(b, isCuid);
    if issues != [] {
      return Response(400, ErrorIssues(issues));
    }
    var user, serviceId := session.value.id, b.serviceId.value;
    var service := FindService(db.services, serviceId);
    if service.None? {
      return Response(404, Error(ServiceNotFound));
    }
    if !HasPurchased(db.transactions, user, serviceId) {
      return Response(403, Error(NotPurchased));
    }
    if HasReviewed(db.reviews, user, serviceId) {
      return Response(400, Error(AlreadyReviewed));
    }
    var review := Review(newId, serviceId, user, b.rating.value, b.comment, PUBLISHED_REVIEW);
    db.CreateReview(review);
    resp := Response(201, CreatedReview(review));
  }

  /** Once a review is stored, the same customer's next review of the same
      service meets the duplicate check. */
  lemma ReviewedAfterCreate(reviews: seq<Review>, r: Review)
    ensures HasReviewed(reviews + [r], r.userId, r.serviceId)
  {
    assert (reviews + [r])[|reviews|] == r;
  }
}
