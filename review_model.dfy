/**
 * The Review schema (models/Review.js): the per-field rules, the unique
 * index on (bootcamp, user), and the projection the average-rating
 * recompute groups on.
 */
module ReviewModel {
  import opened Common

  const MaxTitleLength := 100
  const MaxTextLength := 500
  const MinRating := 1.0
  const MaxRating := 10.0

  const TitleRequired := "Please add a title"
  const TitleTooLong := "Name can not be longer than 100 characters"
  const TextRequired := "Please add a text"
  const TextTooLong := "Text can not be longer than 500 characters"
  const RatingRequired := "Please add a rating"
  const RatingTooLow := "Rating must be at least 1"
  const RatingTooHigh := "Rating can not be longer than 10"
  const BootcampRequired := "Path `bootcamp` is required."
  const UserRequired := "Path `user` is required."

  /** A review as a request body supplies it: every field may be absent. */
  datatype ReviewInput = ReviewInput(
    title: Option<string>,
    text: Option<string>,
    rating: Option<real>,
    bootcamp: Option<Id>,
    user: Option<Id>)

  /** A stored review document (its creation timestamp aside). */
  datatype Review = Review(title: string, text: string, rating: real, bootcamp: Id, user: Id)

  function TitleCheck(v: Option<string>): Option<string> {
    if v.None? || Trim(v.value) == "" then Some(TitleRequired)
    else if JsLength(Trim(v.value)) > MaxTitleLength then Some(TitleTooLong)
    else None
  }

  function TextCheck(v: Option<string>): Option<string> {
    if v.None? || v.value == "" then Some(TextRequired)
    else if JsLength(v.value) > MaxTextLength then Some(TextTooLong)
    else None
  }

  /** `required`, then `min`, then `max`: the first that fails gives the message. */
  function RatingCheck(v: Option<real>): Option<string> {
    if v.None? then Some(RatingRequired)
    else if v.value < MinRating then Some(RatingTooLow)
    else if v.value > MaxRating then Some(RatingTooHigh)
    else None
  }

  function ReviewChecks(i: ReviewInput): seq<Option<string>> {
    [ TitleCheck(i.title),
      TextCheck(i.text),
      RatingCheck(i.rating),
      PresenceCheck(i.bootcamp, BootcampRequired),
      PresenceCheck(i.user, UserRequired) ]
  }

  /**
   * The schema's rules field by field: title present and at most 100 UTF-16
   * units once trimmed, text present and at most 500, rating present with
   * 1 <= rating <= 10, both references present.
   */
  ghost predicate MeetsSchema(i: ReviewInput) {
    && i.title.Some? && Trim(i.title.value) != "" && JsLength(Trim(i.title.value)) <= MaxTitleLength
    && i.text.Some? && i.text.value != "" && JsLength(i.text.value) <= MaxTextLength
    && i.rating.Some? && MinRating <= i.rating.value <= MaxRating
    && i.bootcamp.Some?
    && i.user.Some?
  }

  /** What every stored review satisfies. */
  predicate ReviewOk(r: Review) {
    && r.title != "" && Trim(r.title) == r.title && JsLength(r.title) <= MaxTitleLength
    && r.text != "" && JsLength(r.text) <= MaxTextLength
    && MinRating <= r.rating <= MaxRating
  }

  lemma ChecksPassIffSchema(i: ReviewInput)
    ensures (forall j :: 0 <= j < |ReviewChecks(i)| ==> ReviewChecks(i)[j].None?) <==> MeetsSchema(i)
  {
    FieldChecksIffSchema(i);
    var checks := ReviewChecks(i);
    assert (forall j :: 0 <= j < |checks| ==> checks[j].None?) <==>
      checks[0].None? && checks[1].None? && checks[2].None? && checks[3].None? && checks[4].None?;
  }

  lemma FieldChecksIffSchema(i: ReviewInput)
    ensures (&& TitleCheck(i.title).None? && TextCheck(i.text).None? && RatingCheck(i.rating).None?
             && i.bootcamp.Some? && i.user.Some?) <==> MeetsSchema(i)
  {
  }

  /**
   * Document validation: the stored review when every rule holds, otherwise
   * the message of each failed field.
   */
  function ValidateReview(i: ReviewInput): (r: Result<Review, seq<string>>)
    ensures r.Ok? <==> MeetsSchema(i)
    ensures r.Ok? ==> ReviewOk(r.value)
    ensures r.Ok? ==> r.value == Review(Trim(i.title.value), i.text.value, i.rating.value,
                                        i.bootcamp.value, i.user.value)
    ensures r.Err? ==> 1 <= |r.error| <= 5
  {
    var messages := Failures(ReviewChecks(i));
    ChecksPassIffSchema(i);
    if messages == [] then
      TrimIdempotent(i.title.value);
      Ok(Review(Trim(i.title.value), i.text.value, i.rating.value, i.bootcamp.value, i.user.value))
    else
      Err(messages)
  }

  /** A rating outside [1, 10] never validates. */
  lemma RatingOutOfRangeRejected(i: ReviewInput)
    requires i.rating.Some? && (i.rating.value < MinRating || i.rating.value > MaxRating)
    ensures ValidateReview(i).Err?
    ensures i.rating.value < MinRating ==> RatingTooLow in ValidateReview(i).error
    ensures i.rating.value > MaxRating ==> RatingTooHigh in ValidateReview(i).error
  {
    var checks := ReviewChecks(i);
    assert checks[2].Some?;
    FailureListed(checks, 2);
  }

  /**
   * The unique index on (bootcamp, user): no two stored reviews share both
   * the bootcamp and the user.
   */
  ghost predicate UniqueIndex(reviews: map<Id, Review>) {
    forall j, k :: j in reviews && k in reviews && j != k ==>
      reviews[j].bootcamp != reviews[k].bootcamp || reviews[j].user != reviews[k].user
  }

  /** Whether some stored review is already keyed by (bootcamp, user). */
  predicate IndexHas(reviews: map<Id, Review>, bootcamp: Id, user: Id) {
    exists k :: k in reviews && reviews[k].bootcamp == bootcamp && reviews[k].user == user
  }

  /** An insert keeps the index unique exactly when its key is not taken yet. */
  lemma InsertKeepsIndex(reviews: map<Id, Review>, id: Id, r: Review)
    requires UniqueIndex(reviews) && id !in reviews
    ensures UniqueIndex(reviews[id := r]) <==> !IndexHas(reviews, r.bootcamp, r.user)
  {
    var after := reviews[id := r];
    if IndexHas(reviews, r.bootcamp, r.user) {
      var k :| k in reviews && reviews[k].bootcamp == r.bootcamp && reviews[k].user == r.user;
      assert after[k] == reviews[k] && after[id] == r && k != id;
    }
  }

  /** Removing a review keeps the index unique. */
  lemma RemoveKeepsIndex(reviews: map<Id, Review>, id: Id)
    requires UniqueIndex(reviews)
    ensures UniqueIndex(reviews - {id})
  {
  }

  /** The rating of every review of bootcamp `b`, keyed by review id: the `$match` stage. */
  function Ratings(reviews: map<Id, Review>, b: Id): (m: map<Id, real>)
    ensures forall k :: k in m <==> k in reviews && reviews[k].bootcamp == b
    ensures forall k :: k in m ==> m[k] == reviews[k].rating
  {
    map k | k in reviews && reviews[k].bootcamp == b :: reviews[k].rating
  }
}
