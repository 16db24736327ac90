/**
 * The films example's review generator: each Review becomes one REVIEW Entity
 * on the film, carrying the user, the rating and a count of 1.
 */
module ReviewGenerator {
  import opened Outcomes
  import opened Elements

  /** A user's rating of a film. */
  datatype Review = Review(filmId: string, userId: string, rating: int32)

  /** Schema names; their values stand in for the schema's own constants. */
  const REVIEW: string := "review"
  const USER_ID: string := "userId"
  const RATING: string := "rating"
  const COUNT: string := "count"

  /**
   * `_apply(review)`: one Entity in group REVIEW whose vertex is the film, with
   * exactly three properties: the user, the rating widened to a long with its
   * value kept, and a count of 1.
   */
  function Apply(review: Review): (e: Element)
    ensures e.Entity? && e.group == REVIEW
    ensures e.vertex == StringValue(review.filmId)
    ensures e.properties.Keys == {USER_ID, RATING, COUNT}
    ensures e.properties[USER_ID] == StringValue(review.userId)
    ensures e.properties[RATING].LongValue? && e.properties[RATING].l as int == review.rating as int
    ensures e.properties[COUNT] == IntValue(1)
  {
    var created := Entity(REVIEW, StringValue(review.filmId), map[]);
    var withUser := PutProperty(created, USER_ID, StringValue(review.userId));
    var withRating := PutProperty(withUser, RATING, LongValue(review.rating as int64));
    PutProperty(withRating, COUNT, IntValue(1))
  }

  /** Reads a review back from an entity that has exactly the shape Apply produces. */
  function ToReview(e: Element): (r: Option<Review>) {
    if && e.Entity? && e.group == REVIEW && e.vertex.StringValue?
       && e.properties.Keys == {USER_ID, RATING, COUNT}
       && e.properties[USER_ID].StringValue?
       && e.properties[RATING].LongValue?
       && -0x8000_0000 <= e.properties[RATING].l as int < 0x8000_0000
       && e.properties[COUNT] == IntValue(1)
    then Some(Review(e.vertex.s, e.properties[USER_ID].s, e.properties[RATING].l as int as int32))
    else None
  }

  /** Nothing of the review is lost: it can be read back from its entity. */
  lemma ToReviewApply(review: Review)
    ensures ToReview(Apply(review)) == Some(review)
  {
  }

  /** Conversely, an entity that reads back as a review is exactly that review's entity. */
  lemma ApplyToReview(e: Element)
    requires ToReview(e).Some?
    ensures Apply(ToReview(e).value) == e
  {
  }

  /** Distinct reviews give distinct entities. */
  lemma ApplyInjective(r1: Review, r2: Review)
    requires Apply(r1) == Apply(r2)
    ensures r1 == r2
  {
  }
}
