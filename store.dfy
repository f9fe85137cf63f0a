/**
 * The document store as the course, review and user code sees it: four
 * collections keyed by id, the save/remove hooks that recompute a
 * bootcamp's averages (models/Course.js, models/Review.js), and the
 * request handlers of controllers/courses.js and controllers/users.js.
 */
module Store {
  import opened Common
  import opened Errors
  import opened CourseModel
  import opened ReviewModel
  import opened Aggregate

  /** A bootcamp as far as this core reads or writes it. */
  datatype Bootcamp = Bootcamp(owner: Id, averageCost: Option<int>, averageRating: Option<real>)

  /** A user document, field name to value (the User schema is not part of this model). */
  type Document = map<string, string>

  /** A document together with the id it was stored under. */
  datatype Entry<T> = Entry(id: Id, doc: T)

  /** The body `{success: true, count, data}` of a course listing. */
  datatype Listing = Listing(count: nat, data: map<Id, Course>)

  /**
   * What a handler ends with: a success status with the `data` of the body,
   * or the error handed on to the error middleware.
   */
  datatype Response<T> = Success(status: int, data: T) | Failure(error: Error)

  const NotAuthorizedToAdd := "Not authorized to add a course to this bootcamp"
  const NotAuthorizedToUpdate := "Not authorized to update this course"
  const NotAuthorizedToDelete := "Not authorized to delete this course"

  /** The ownership check: the acting user is the owner or an admin. */
  predicate MayAct(actor: Actor, owner: Id): (ok: bool)
    ensures actor.role == "admin" ==> ok
    ensures actor.id == owner ==> ok
    ensures ok && actor.role != "admin" ==> actor.id == owner
  {
    owner == actor.id || actor.role == "admin"
  }

  /** createCourse sets the body's bootcamp to the route id and its user to the acting user. */
  function Stamped(body: CourseInput, bootcampId: Id, actor: Actor): (r: CourseInput)
    ensures r.bootcamp == Some(bootcampId) && r.user == Some(actor.id)
    ensures r.(bootcamp := body.bootcamp, user := body.user) == body
  {
    body.(bootcamp := Some(bootcampId), user := Some(actor.id))
  }

  /** updateCourse deletes any `user` key from the body. */
  function WithoutUser(body: CourseInput): (r: CourseInput)
    ensures r.user.None?
    ensures r.(user := body.user) == body
  {
    body.(user := None)
  }

  /**
   * The bootcamps after getAverageCost(b): averageCost becomes the ceiling
   * of the mean tuition of b's courses. With no course of b the aggregation
   * is empty, reading its first group throws, the error is caught, and
   * nothing is written; a missing bootcamp is not written either.
   */
  ghost function CostRecomputed(bootcamps: map<Id, Bootcamp>, courses: map<Id, Course>, b: Id): (r: map<Id, Bootcamp>)
    ensures r.Keys == bootcamps.Keys
    ensures Tuitions(courses, b) == map[] ==> r == bootcamps
    ensures b in bootcamps ==> r[b].(averageCost := bootcamps[b].averageCost) == bootcamps[b]
  {
    var avg := Mean(Tuitions(courses, b));
    if avg.None? || b !in bootcamps then bootcamps
    else bootcamps[b := bootcamps[b].(averageCost := Some(Ceil(avg.value)))]
  }

  /** The bootcamps after getAverageRating(b): averageRating becomes the exact mean rating. */
  ghost function RatingRecomputed(bootcamps: map<Id, Bootcamp>, reviews: map<Id, Review>, b: Id): (r: map<Id, Bootcamp>)
    ensures r.Keys == bootcamps.Keys
    ensures Ratings(reviews, b) == map[] ==> r == bootcamps
    ensures b in bootcamps ==> r[b].(averageRating := bootcamps[b].averageRating) == bootcamps[b]
  {
    var avg := Mean(Ratings(reviews, b));
    if avg.None? || b !in bootcamps then bootcamps
    else bootcamps[b := bootcamps[b].(averageRating := Some(avg.value))]
  }

  /**
   * The cost recompute writes averageCost of bootcamp b and nothing else;
   * what it writes lies within one of the mean tuition, from above; with no
   * course of b it writes nothing.
   */
  lemma CostRecomputeEffect(bootcamps: map<Id, Bootcamp>, courses: map<Id, Course>, b: Id)
    ensures var after := CostRecomputed(bootcamps, courses, b);
      && after.Keys == bootcamps.Keys
      && (forall k :: k in bootcamps && k != b ==> after[k] == bootcamps[k])
      && (b in bootcamps ==>
            after[b].owner == bootcamps[b].owner && after[b].averageRating == bootcamps[b].averageRating)
      && (Tuitions(courses, b) == map[] ==> after == bootcamps)
      && (b in bootcamps && Tuitions(courses, b) != map[] ==>
            after[b].averageCost.Some?
            && Mean(Tuitions(courses, b)).value <= after[b].averageCost.value as real
            && (after[b].averageCost.value as real) < Mean(Tuitions(courses, b)).value + 1.0)
  {
  }

  /**
   * Two courses of b with tuitions 100 and 150 give b an averageCost of 125:
   * the ceiling of the mean itself, not the mean rounded up to a multiple of 10.
   */
  lemma AverageCostOfTwo(bootcamps: map<Id, Bootcamp>, courses: map<Id, Course>, b: Id, j: Id, k: Id)
    requires b in bootcamps && j != k
    requires Tuitions(courses, b) == map[j := 100.0, k := 150.0]
    ensures CostRecomputed(bootcamps, courses, b)[b].averageCost == Some(125)
  {
    MeanOfTwo(Tuitions(courses, b), j, k, 100.0, 150.0);
  }

  /**
   * The rating recompute writes averageRating of bootcamp b and nothing else;
   * since every stored rating lies in [1, 10], so does what it writes; with
   * no review of b it writes nothing.
   */
  lemma RatingRecomputeEffect(bootcamps: map<Id, Bootcamp>, reviews: map<Id, Review>, b: Id)
    requires forall k :: k in reviews ==> MinRating <= reviews[k].rating <= MaxRating
    ensures var after := RatingRecomputed(bootcamps, reviews, b);
      && after.Keys == bootcamps.Keys
      && (forall k :: k in bootcamps && k != b ==> after[k] == bootcamps[k])
      && (b in bootcamps ==>
            after[b].owner == bootcamps[b].owner && after[b].averageCost == bootcamps[b].averageCost)
      && (Ratings(reviews, b) == map[] ==> after == bootcamps)
      && (b in bootcamps && Ratings(reviews, b) != map[] ==>
            after[b].averageRating.Some?
            && MinRating <= after[b].averageRating.value <= MaxRating)
  {
    MeanBounds(Ratings(reviews, b), MinRating, MaxRating);
  }

  /** Two reviews of b rated 7 and 8 give b an averageRating of 7.5: the mean is not rounded. */
  lemma AverageRatingOfTwo(bootcamps: map<Id, Bootcamp>, reviews: map<Id, Review>, b: Id, j: Id, k: Id)
    requires b in bootcamps && j != k
    requires Ratings(reviews, b) == map[j := 7.0, k := 8.0]
    ensures RatingRecomputed(bootcamps, reviews, b)[b].averageRating == Some(7.5)
  {
    MeanOfTwo(Ratings(reviews, b), j, k, 7.0, 8.0);
  }

  /**
   * getAverageCost(b): the `$match` and `$group` stages over the courses, then
   * the write of the rounded average into bootcamp b.
   */
  method GetAverageCost(bootcamps: map<Id, Bootcamp>, courses: map<Id, Course>, b: Id)
    returns (after: map<Id, Bootcamp>)
    ensures after == CostRecomputed(bootcamps, courses, b)
  {
    var avg := Average(Tuitions(courses, b));
    after := bootcamps;
    if avg.Some? && b in bootcamps {
      after := bootcamps[b := bootcamps[b].(averageCost := Some(Ceil(avg.value)))];
    }
  }

  /**
   * getAverageRating(b): the `$match` and `$group` stages over the reviews,
   * then the write of the average into bootcamp b.
   */
  method GetAverageRating(bootcamps: map<Id, Bootcamp>, reviews: map<Id, Review>, b: Id)
    returns (after: map<Id, Bootcamp>)
    ensures after == RatingRecomputed(bootcamps, reviews, b)
  {
    var avg := Average(Ratings(reviews, b));
    after := bootcamps;
    if avg.Some? && b in bootcamps {
      after := bootcamps[b := bootcamps[b].(averageRating := Some(avg.value))];
    }
  }

  /** Every id in `ids` was handed out before `next`. */
  ghost predicate IdsBelow(ids: set<Id>, next: Id) {
    forall k :: k in ids ==> k < next
  }

  /** Every stored course passed its schema. */
  ghost predicate CoursesOk(courses: map<Id, Course>) {
    forall k {:trigger CourseOk(courses[k])} :: k in courses ==> CourseOk(courses[k])
  }

  /** Every stored review passed its schema, and the unique index holds. */
  ghost predicate ReviewsOk(reviews: map<Id, Review>) {
    (forall k {:trigger ReviewOk(reviews[k])} :: k in reviews ==> ReviewOk(reviews[k])) && UniqueIndex(reviews)
  }

  /** Every stored user passed the User schema. */
  ghost predicate UsersOk(users: map<Id, Document>, userErrors: Document -> seq<string>) {
    forall k :: k in users ==> userErrors(users[k]) == []
  }

  lemma CoursesOkStore(courses: map<Id, Course>, id: Id, c: Course)
    requires CoursesOk(courses) && CourseOk(c)
    ensures CoursesOk(courses[id := c])
  {
  }

  lemma CoursesOkRemove(courses: map<Id, Course>, id: Id)
    requires CoursesOk(courses)
    ensures CoursesOk(courses - {id})
  {
  }

  /** Inserting a valid review whose (bootcamp, user) is free keeps the review table valid. */
  lemma ReviewsOkInsert(reviews: map<Id, Review>, id: Id, r: Review)
    requires ReviewsOk(reviews) && ReviewOk(r) && id !in reviews
    requires !IndexHas(reviews, r.bootcamp, r.user)
    ensures ReviewsOk(reviews[id := r])
  {
    InsertKeepsIndex(reviews, id, r);
  }

  lemma ReviewsOkRemove(reviews: map<Id, Review>, id: Id)
    requires ReviewsOk(reviews)
    ensures ReviewsOk(reviews - {id})
  {
    RemoveKeepsIndex(reviews, id);
  }

  class DocumentStore {
    var courses: map<Id, Course>
    var reviews: map<Id, Review>
    var bootcamps: map<Id, Bootcamp>
    var users: map<Id, Document>
    /** Every id handed out so far is below this one. */
    var nextId: Id
    /** The User schema's validation: the message of each failed field of a document. */
    const userErrors: Document -> seq<string>

    /**
     * Every stored course and review passed its schema, every stored user
     * the User schema, no two reviews share (bootcamp, user), and ids are
     * below nextId.
     */
    ghost predicate Valid()
      reads this`courses, this`reviews, this`users, this`nextId
    {
      && IdsBelow(courses.Keys, nextId) && IdsBelow(reviews.Keys, nextId) && IdsBelow(users.Keys, nextId)
      && CoursesOk(courses) && ReviewsOk(reviews) && UsersOk(users, userErrors)
    }

    constructor (bootcamps: map<Id, Bootcamp>, userErrors: Document -> seq<string>)
      ensures Valid()
      ensures this.bootcamps == bootcamps && this.userErrors == userErrors
      ensures courses == map[] && reviews == map[] && users == map[]
    {
      this.bootcamps := bootcamps;
      this.userErrors := userErrors;
      courses, reviews, users := map[], map[], map[];
      nextId := 0;
    }

    // ---- models/Course.js: the save/remove hooks ----

    /** Course.create of a validated course, then the post-save hook. */
    method SaveCourse(c: Course) returns (id: Id)
      requires Valid() && CourseOk(c)
      modifies this
      ensures Valid()
      ensures id !in old(courses) && courses == old(courses)[id := c]
      ensures bootcamps == CostRecomputed(old(bootcamps), courses, c.bootcamp)
      ensures reviews == old(reviews) && users == old(users)
    {
      id := nextId;
      CoursesOkStore(courses, id, c);
      courses, nextId := courses[id := c], nextId + 1;
      bootcamps := GetAverageCost(bootcamps, courses, c.bootcamp);
    }

    /** course.remove(), then the post-remove hook. */
    method RemoveCourse(id: Id)
      requires Valid() && id in courses
      modifies this
      ensures Valid()
      ensures courses == old(courses) - {id}
      ensures bootcamps == CostRecomputed(old(bootcamps), courses, old(courses)[id].bootcamp)
      ensures reviews == old(reviews) && users == old(users) && nextId == old(nextId)
    {
      var b := courses[id].bootcamp;
      CoursesOkRemove(courses, id);
      courses := courses - {id};
      bootcamps := GetAverageCost(bootcamps, courses, b);
    }

    // ---- models/Review.js: the unique index and the hooks ----

    /**
     * review.save() of a validated review: the insert the unique index refuses
     * when (bootcamp, user) is taken, then the post-save hook.
     */
    method InsertReview(review: Review) returns (r: Result<Id, Error>)
      requires Valid() && ReviewOk(review)
      modifies this
      ensures Valid()
      ensures r.Err? <==> IndexHas(old(reviews), review.bootcamp, review.user)
      ensures r.Err? ==> r.error == DuplicateKeyError() && unchanged(this)
      ensures r.Ok? ==>
        && r.value !in old(reviews) && reviews == old(reviews)[r.value := review]
        && bootcamps == RatingRecomputed(old(bootcamps), reviews, review.bootcamp)
        && courses == old(courses) && users == old(users)
    {
      if IndexHas(reviews, review.bootcamp, review.user) {
        return Err(DuplicateKeyError());
      }
      var id := nextId;
      ReviewsOkInsert(reviews, id, review);
      reviews, nextId := reviews[id := review], nextId + 1;
      bootcamps := GetAverageRating(bootcamps, reviews, review.bootcamp);
      r := Ok(id);
    }

    /** Review.create: schema validation, then the save. */
    method CreateReview(body: ReviewInput) returns (r: Result<Entry<Review>, Error>)
      requires Valid()
      modifies this
      ensures Valid()
      ensures ValidateReview(body).Err? ==>
        r == Err(ValidationError("Review", ValidateReview(body).error))
      ensures ValidateReview(body).Ok? ==>
        var review := ValidateReview(body).value;
        && (IndexHas(old(reviews), review.bootcamp, review.user) ==> r == Err(DuplicateKeyError()))
        && (!IndexHas(old(reviews), review.bootcamp, review.user) ==> r.Ok? && r.value.doc == review)
      ensures r.Err? ==> unchanged(this)
      ensures r.Ok? ==>
        && r.value.id !in old(reviews) && reviews == old(reviews)[r.value.id := r.value.doc]
        && bootcamps == RatingRecomputed(old(bootcamps), reviews, r.value.doc.bootcamp)
        && courses == old(courses) && users == old(users)
    {
      var v := ValidateReview(body);
      if v.Err? {
        return Err(ValidationError("Review", v.error));
      }
      var saved := InsertReview(v.value);
      if saved.Err? {
        return Err(saved.error);
      }
      r := Ok(Entry(saved.value, v.value));
    }

    /** review.remove(), then the post-remove hook. */
    method RemoveReview(id: Id)
      requires Valid() && id in reviews
      modifies this
      ensures Valid()
      ensures reviews == old(reviews) - {id}
      ensures bootcamps == RatingRecomputed(old(bootcamps), reviews, old(reviews)[id].bootcamp)
      ensures courses == old(courses) && users == old(users) && nextId == old(nextId)
    {
      var b := reviews[id].bootcamp;
      ReviewsOkRemove(reviews, id);
      reviews := reviews - {id};
      bootcamps := GetAverageRating(bootcamps, reviews, b);
    }

    // ---- controllers/courses.js ----

    /** getCourses with a bootcampId: the courses of that bootcamp and their number. */
    method GetCourses(bootcampId: Id) returns (r: Response<Listing>)
      ensures r.Success? && r.status == 200
      ensures forall k :: k in r.data.data <==> k in courses && courses[k].bootcamp == bootcampId
      ensures forall k :: k in r.data.data ==> r.data.data[k] == courses[k]
      ensures r.data.count == |r.data.data|
    {
      var found := map k | k in courses && courses[k].bootcamp == bootcampId :: courses[k];
      r := Success(200, Listing(|found|, found));
    }

    /** getCourse: the course with that id, or not-found. */
    method GetCourse(id: Id) returns (r: Response<Course>)
      ensures id in courses ==> r == Success(200, courses[id])
      ensures id !in courses ==> r == Failure(CastError()) && ErrorHandler(r.error) == NotFoundReply
    {
      if id !in courses {
        return Failure(CastError());
      }
      r := Success(200, courses[id]);
    }

    /**
     * createCourse: not-found for an unknown bootcamp, 401 unless the acting
     * user owns the bootcamp or is an admin, a validation failure for a bad
     * body; otherwise the course is stored with the route's bootcamp and the
     * acting user, and the bootcamp's average cost is recomputed.
     */
    method CreateCourse(bootcampId: Id, actor: Actor, body: CourseInput) returns (r: Response<Entry<Course>>)
      requires Valid()
      modifies this
      ensures Valid()
      ensures r.Failure? ==> unchanged(this)
      ensures bootcampId !in old(bootcamps) ==> r == Failure(CastError())
      ensures bootcampId in old(bootcamps) && !MayAct(actor, old(bootcamps)[bootcampId].owner) ==>
        r == Failure(ErrorResponse(NotAuthorizedToAdd, 401))
      ensures bootcampId in old(bootcamps) && MayAct(actor, old(bootcamps)[bootcampId].owner)
              && ValidateCourse(Stamped(body, bootcampId, actor)).Err? ==>
        r == Failure(ValidationError("Course", ValidateCourse(Stamped(body, bootcampId, actor)).error))
      ensures r.Success? <==>
        bootcampId in old(bootcamps) && MayAct(actor, old(bootcamps)[bootcampId].owner)
        && CourseModel.MeetsSchema(Stamped(body, bootcampId, actor))
      ensures r.Success? ==>
        && r.status == 201
        && r.data.doc == ValidateCourse(Stamped(body, bootcampId, actor)).value
        && r.data.doc.bootcamp == bootcampId && r.data.doc.user == actor.id
        && r.data.id !in old(courses) && courses == old(courses)[r.data.id := r.data.doc]
        && bootcamps == CostRecomputed(old(bootcamps), courses, bootcampId)
        && reviews == old(reviews) && users == old(users)
    {
      var stamped := Stamped(body, bootcampId, actor);
      if bootcampId !in bootcamps {
        return Failure(CastError());
      }
      if !MayAct(actor, bootcamps[bootcampId].owner) {
        return Failure(ErrorResponse(NotAuthorizedToAdd, 401));
      }
      var v := ValidateCourse(stamped);
      if v.Err? {
        return Failure(ValidationError("Course", v.error));
      }
      var id := SaveCourse(v.value);
      r := Success(201, Entry(id, v.value));
    }

    /**
     * updateCourse: not-found for an unknown id, 401 unless the acting user
     * created the course or is an admin; otherwise the body, without any
     * `user` key, is laid over the stored course and validated. No hook runs
     * on this kind of update, so no average is recomputed.
     */
    method UpdateCourse(id: Id, actor: Actor, body: CourseInput) returns (r: Response<Course>)
      requires Valid()
      modifies this
      ensures Valid()
      ensures r.Failure? ==> unchanged(this)
      ensures id !in old(courses) ==> r == Failure(CastError())
      ensures id in old(courses) && !MayAct(actor, old(courses)[id].user) ==>
        r == Failure(ErrorResponse(NotAuthorizedToUpdate, 401))
      ensures id in old(courses) && MayAct(actor, old(courses)[id].user) ==>
        var v := ValidateCourse(Overlay(old(courses)[id], WithoutUser(body)));
        && (v.Err? ==> r == Failure(ValidationError("Course", v.error)))
        && (v.Ok? ==> r == Success(200, v.value))
      ensures r.Success? ==>
        && id in old(courses) && courses == old(courses)[id := r.data]
        && r.data.user == old(courses)[id].user
        && bootcamps == old(bootcamps) && reviews == old(reviews) && users == old(users)
    {
      if id !in courses {
        return Failure(CastError());
      }
      var course := courses[id];
      if !MayAct(actor, course.user) {
        return Failure(ErrorResponse(NotAuthorizedToUpdate, 401));
      }
      var v := ValidateCourse(Overlay(course, WithoutUser(body)));
      if v.Err? {
        return Failure(ValidationError("Course", v.error));
      }
      courses := courses[id := v.value];
      r := Success(200, v.value);
    }

    /**
     * deleteCourse: not-found for an unknown id, 401 unless the acting user
     * created the course or is an admin; otherwise that course alone is
     * removed and its bootcamp's average cost recomputed.
     */
    method DeleteCourse(id: Id, actor: Actor) returns (r: Response<()>)
      requires Valid()
      modifies this
      ensures Valid()
      ensures r.Failure? ==> unchanged(this)
      ensures id !in old(courses) ==> r == Failure(CastError())
      ensures id in old(courses) && !MayAct(actor, old(courses)[id].user) ==>
        r == Failure(ErrorResponse(NotAuthorizedToDelete, 401))
      ensures r.Success? <==> id in old(courses) && MayAct(actor, old(courses)[id].user)
      ensures r.Success? ==>
        && r.status == 200
        && courses == old(courses) - {id}
        && bootcamps == CostRecomputed(old(bootcamps), courses, old(courses)[id].bootcamp)
        && reviews == old(reviews) && users == old(users)
    {
      if id !in courses {
        return Failure(CastError());
      }
      if !MayAct(actor, courses[id].user) {
        return Failure(ErrorResponse(NotAuthorizedToDelete, 401));
      }
      RemoveCourse(id);
      r := Success(200, ());
    }

    // ---- controllers/users.js ----

    /** getUser: the user with that id, or not-found. */
    method GetUser(id: Id) returns (r: Response<Document>)
      ensures id in users ==> r == Success(200, users[id])
      ensures id !in users ==> r == Failure(CastError()) && ErrorHandler(r.error) == NotFoundReply
    {
      if id !in users {
        return Failure(CastError());
      }
      r := Success(200, users[id]);
    }

    /** createUser: the body, validated by the User schema, stored under a new id. */
    method CreateUser(body: Document) returns (r: Response<Entry<Document>>)
      requires Valid()
      modifies this
      ensures Valid()
      ensures userErrors(body) != [] ==> r == Failure(ValidationError("User", userErrors(body))) && unchanged(this)
      ensures userErrors(body) == [] ==>
        && r.Success? && r.status == 201 && r.data.doc == body
        && r.data.id !in old(users) && users == old(users)[r.data.id := body]
        && courses == old(courses) && reviews == old(reviews) && bootcamps == old(bootcamps)
    {
      var errors := userErrors(body);
      if errors != [] {
        return Failure(ValidationError("User", errors));
      }
      var id := nextId;
      users, nextId := users[id := body], nextId + 1;
      r := Success(201, Entry(id, body));
    }

    /**
     * updateUser: not-found for an unknown id; otherwise every field of the
     * body overwrites the stored one (none is stripped), the result is
     * validated, stored and returned.
     */
    method UpdateUser(id: Id, body: Document) returns (r: Response<Document>)
      requires Valid()
      modifies this
      ensures Valid()
      ensures r.Failure? ==> unchanged(this)
      ensures id !in old(users) ==> r == Failure(CastError())
      ensures id in old(users) ==>
        var updated := old(users)[id] + body;
        && (userErrors(updated) != [] ==> r == Failure(ValidationError("User", userErrors(updated))))
        && (userErrors(updated) == [] ==> r == Success(200, updated) && users == old(users)[id := updated])
      ensures r.Success? ==>
        && (forall f :: f in body ==> f in r.data && r.data[f] == body[f])
        && (forall f :: f in old(users)[id] && f !in body ==> f in r.data && r.data[f] == old(users)[id][f])
        && courses == old(courses) && reviews == old(reviews) && bootcamps == old(bootcamps)
    {
      if id !in users {
        return Failure(CastError());
      }
      var updated := users[id] + body;
      var errors := userErrors(updated);
      if errors != [] {
        return Failure(ValidationError("User", errors));
      }
      users := users[id := updated];
      r := Success(200, updated);
    }

    /** deleteUser: not-found for an unknown id; otherwise that user alone is removed. */
    method DeleteUser(id: Id) returns (r: Response<()>)
      requires Valid()
      modifies this
      ensures Valid()
      ensures id !in old(users) ==> r == Failure(CastError()) && unchanged(this)
      ensures id in old(users) ==>
        && r == Success(200, ())
        && users == old(users) - {id}
        && courses == old(courses) && reviews == old(reviews) && bootcamps == old(bootcamps)
    {
      if id !in users {
        return Failure(CastError());
      }
      users := users - {id};
      r := Success(200, ());
    }
  }
}
