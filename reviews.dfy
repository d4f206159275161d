/**
 * Product reviews: one review per user and product, a rating from 1 to 5, a
 * "verified buyer" mark for users with a paid order of the product, edits by
 * the author only and deletion by the author or an administrator.
 */
module Reviews {
  import opened Common
  import opened Store

  /** The reviews table's unique (product, user) key. */
  ghost predicate OneReviewPerUserAndProduct(reviews: map<Id, Review>)
  {
    forall i, j ::
      (i in reviews && j in reviews && reviews[i].productId == reviews[j].productId
       && reviews[i].userId == reviews[j].userId) ==> i == j
  }

  predicate HasReviewed(reviews: map<Id, Review>, productId: Id, userId: Id)
  {
    exists id :: id in reviews && reviews[id].productId == productId && reviews[id].userId == userId
  }

  /** The user has an item of the product in one of their PAID orders. */
  predicate Purchased(orders: map<Id, Order>, userId: Id, productId: Id)
  {
    exists o :: o in orders && orders[o].userId == userId && orders[o].paymentStatus == PaymentStatus.PAID
      && exists k :: 0 <= k < |orders[o].items| && orders[o].items[k].productId == productId
  }

  /** `!rating || rating < 1 || rating > 5` on a create, where an absent or zero rating is rejected too. */
  predicate ValidRating(rating: Option<int>)
  {
    rating.Some? && 1 <= rating.value <= 5
  }

  /** `comment || null`. */
  function StoredComment(comment: Option<string>): (c: Option<string>)
    ensures c.None? <==> comment.None? || comment.value == ""
    ensures c.Some? ==> c == comment
  {
    if comment.Some? then OrNull(comment.value) else None
  }

  /** The row createReview adds. */
  function NewReview(orders: map<Id, Order>, productId: Id, userId: Id, rating: int, comment: Option<string>): (r: Review)
    ensures r.verified <==> Purchased(orders, userId, productId)
    ensures r.comment == StoredComment(comment)
    ensures r.productId == productId && r.userId == userId && r.rating == rating
  {
    Review(productId, userId, rating, StoredComment(comment), Purchased(orders, userId, productId))
  }

  /** Adding the review of a user who has not reviewed the product keeps one review per (product, user). */
  lemma NewReviewKeepsUnique(reviews: map<Id, Review>, newId: Id, review: Review)
    requires OneReviewPerUserAndProduct(reviews) && newId !in reviews
    requires !HasReviewed(reviews, review.productId, review.userId)
    ensures OneReviewPerUserAndProduct(reviews[newId := review])
  {
    var r := reviews[newId := review];
    forall i, j | i in r && j in r && r[i].productId == r[j].productId && r[i].userId == r[j].userId
      ensures i == j
    {
      if i != newId { NotTheReviewer(reviews, review, i); }
      if j != newId { NotTheReviewer(reviews, review, j); }
    }
  }

  lemma NotTheReviewer(reviews: map<Id, Review>, review: Review, id: Id)
    requires id in reviews && !HasReviewed(reviews, review.productId, review.userId)
    ensures reviews[id].productId != review.productId || reviews[id].userId != review.userId
  {
  }

  /** createReview: the rating check comes before any lookup; `newId` is the id the database assigns. */
  method CreateReview(db: Db, userId: Id, productId: Id, rating: Option<int>, comment: Option<string>, newId: Id)
    returns (r: Response<Id>)
    requires newId !in db.reviews
    modifies db`reviews
    ensures !ValidRating(rating) ==> r == Fail(400, "INVALID_RATING") && db.reviews == old(db.reviews)
    ensures ValidRating(rating) && productId !in db.products ==>
      r == Fail(404, "PRODUCT_NOT_FOUND") && db.reviews == old(db.reviews)
    ensures ValidRating(rating) && productId in db.products && HasReviewed(old(db.reviews), productId, userId) ==>
      r == Fail(400, "REVIEW_EXISTS") && db.reviews == old(db.reviews)
    ensures ValidRating(rating) && productId in db.products && !HasReviewed(old(db.reviews), productId, userId) ==>
      && r == Ok(newId)
      && db.reviews == old(db.reviews)[newId := NewReview(db.orders, productId, userId, rating.value, comment)]
    ensures OneReviewPerUserAndProduct(old(db.reviews)) ==> OneReviewPerUserAndProduct(db.reviews)
  {
    if !(rating.Some? && 1 <= rating.value <= 5) {
      return Fail(400, "INVALID_RATING");
    }
    if productId !in db.products {
      return Fail(404, "PRODUCT_NOT_FOUND");
    }
    if HasReviewed(db.reviews, productId, userId) {
      return Fail(400, "REVIEW_EXISTS");
    }
    var review := NewReview(db.orders, productId, userId, rating.value, comment);
    if OneReviewPerUserAndProduct(db.reviews) {
      NewReviewKeepsUnique(db.reviews, newId, review);
    }
    db.reviews := db.reviews[newId := review];
    r := Ok(newId);
  }

  /** A second review of the same product by the same user is refused. */
  lemma SecondReviewRefused(reviews: map<Id, Review>, newId: Id, review: Review)
    requires newId !in reviews
    ensures HasReviewed(reviews[newId := review], review.productId, review.userId)
  {
    assert reviews[newId := review][newId] == review;
  }

  /** `rating && (rating < 1 || rating > 5)`: an absent or zero rating is not checked on an update. */
  predicate BadUpdateRating(rating: Option<int>)
  {
    rating.Some? && rating.value != 0 && (rating.value < 1 || rating.value > 5)
  }

  /** The review after an update: a truthy rating and a supplied comment replace the old ones. */
  function Revised(rv: Review, rating: Option<int>, comment: Option<string>): Review
  {
    var rv1 := if rating.Some? && rating.value != 0 then rv.(rating := rating.value) else rv;
    if comment.Some? then rv1.(comment := OrNull(comment.value)) else rv1
  }

  /**
   * An update keeps the product, author and verified mark; a rating in range
   * stays in range; an update with nothing supplied changes nothing.
   */
  lemma RevisedKeepsIdentity(rv: Review, rating: Option<int>, comment: Option<string>)
    ensures var r := Revised(rv, rating, comment);
      && r.productId == rv.productId && r.userId == rv.userId && r.verified == rv.verified
      && (1 <= rv.rating <= 5 && !BadUpdateRating(rating) ==> 1 <= r.rating <= 5)
      && (rating.None? && comment.None? ==> r == rv)
      && (comment.Some? ==> r.comment == StoredComment(comment))
  {
  }

  /** updateReview checks authorship only; the requester's role plays no part. */
  predicate MayEdit(rv: Review, userId: Id)
  {
    rv.userId == userId
  }

  /** updateReview: the rating check, then existence, then authorship (administrators included). */
  method UpdateReview(db: Db, userId: Id, reviewId: Id, rating: Option<int>, comment: Option<string>)
    returns (r: Response<Review>)
    modifies db`reviews
    ensures BadUpdateRating(rating) ==> r == Fail(400, "INVALID_RATING") && db.reviews == old(db.reviews)
    ensures !BadUpdateRating(rating) && reviewId !in old(db.reviews) ==>
      r == Fail(404, "REVIEW_NOT_FOUND") && db.reviews == old(db.reviews)
    ensures !BadUpdateRating(rating) && reviewId in old(db.reviews) && !MayEdit(old(db.reviews)[reviewId], userId) ==>
      r == Fail(403, "FORBIDDEN") && db.reviews == old(db.reviews)
    ensures !BadUpdateRating(rating) && reviewId in old(db.reviews) && MayEdit(old(db.reviews)[reviewId], userId) ==>
      var rv := Revised(old(db.reviews)[reviewId], rating, comment);
      r == Ok(rv) && db.reviews == old(db.reviews)[reviewId := rv]
    ensures OneReviewPerUserAndProduct(old(db.reviews)) ==> OneReviewPerUserAndProduct(db.reviews)
  {
    if rating.Some? && rating.value != 0 && (rating.value < 1 || rating.value > 5) {
      return Fail(400, "INVALID_RATING");
    }
    if reviewId !in db.reviews {
      return Fail(404, "REVIEW_NOT_FOUND");
    }
    var rv := db.reviews[reviewId];
    if rv.userId != userId {
      return Fail(403, "FORBIDDEN");
    }
    if rating.Some? && rating.value != 0 {
      rv := rv.(rating := rating.value);
    }
    if comment.Some? {
      rv := rv.(comment := OrNull(comment.value));
    }
    db.reviews := db.reviews[reviewId := rv];
    r := Ok(rv);
  }

  /** deleteReview's rule: the author or an administrator. */
  predicate MayDelete(rv: Review, userId: Id, role: Role)
  {
    rv.userId == userId || role == Role.ADMIN
  }

  /** Editing is narrower than deleting: an administrator may delete another user's review but not edit it. */
  lemma AdminDeletesButCannotEdit(rv: Review, adminId: Id)
    requires rv.userId != adminId
    ensures MayDelete(rv, adminId, Role.ADMIN)
    ensures !MayDelete(rv, adminId, Role.USER)
    ensures !MayEdit(rv, adminId)
  {
  }

  method DeleteReview(db: Db, userId: Id, role: Role, reviewId: Id) returns (r: Response<()>)
    modifies db`reviews
    ensures reviewId !in old(db.reviews) ==> r == Fail(404, "REVIEW_NOT_FOUND") && db.reviews == old(db.reviews)
    ensures reviewId in old(db.reviews) && !MayDelete(old(db.reviews)[reviewId], userId, role) ==>
      r == Fail(403, "FORBIDDEN") && db.reviews == old(db.reviews)
    ensures reviewId in old(db.reviews) && MayDelete(old(db.reviews)[reviewId], userId, role) ==>
      r == Ok(()) && db.reviews == old(db.reviews) - {reviewId}
  {
    if reviewId !in db.reviews {
      return Fail(404, "REVIEW_NOT_FOUND");
    }
    if db.reviews[reviewId].userId != userId && role != Role.ADMIN {
      return Fail(403, "FORBIDDEN");
    }
    db.reviews := db.reviews - {reviewId};
    r := Ok(());
  }

  /** The reviewer's display name: the profile's full name, else the part of the email before the first '@'. */
  function ReviewerName(profile: Option<Profile>, email: string): string
  {
    if profile.Some? then profile.value.firstName + " " + profile.value.lastName else Split(email, '@')[0]
  }

  /** Without a profile, the name of `local@domain` is `local`, and an email without '@' is its own name. */
  lemma ReviewerNameFromEmail(local: string, domain: string)
    requires '@' !in local
    ensures ReviewerName(None, local + "@" + domain) == local
    ensures ReviewerName(None, local) == local
  {
    SplitAtFirst(local, '@', domain);
    SplitWithoutSeparator(local, '@');
  }
}
