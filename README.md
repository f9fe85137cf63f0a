# devcamper store: a verified model of its data rules and handlers

This project models the core of the devcamper REST backend in Dafny:

- the Course and Review document schemas: required fields, trim-then-maxlength,
  the skill enum, the rating range, and the messages each rule reports;
- the unique (bootcamp, user) index on reviews;
- the post-save and post-remove hooks that recompute a bootcamp's
  `averageCost` and `averageRating` through a `$match` / `$group: {$avg}`
  aggregation;
- the course handlers (`getCourses` for one bootcamp, `getCourse`,
  `createCourse`, `updateCourse`, `deleteCourse`);
- the user handlers (`getUser`, `createUser`, `updateUser`, `deleteUser`);
- the error middleware, which turns any error record into a status and a
  `{success: false, err}` body.

The document store is the class `Store.DocumentStore`. It holds four maps keyed by
abstract ids: courses, reviews, bootcamps and users. Its methods change those
maps the way the handlers and hooks change the collections. `Store.DocumentStore.Valid`
is the invariant every method keeps:

- every stored course and review passed its schema;
- every stored user passed the User schema;
- no two reviews share (bootcamp, user);
- ids are fresh.

Files:

- `common.dfy`: ids, `Option`/`Result`, the acting user, the JavaScript
  `String.prototype.trim` and `length` (UTF-16 units) the validators rely on,
  and the list of failed-field messages.
- `errors.dfy`: error records, `ErrorResponse`, and `errorHandler`.
- `aggregate.dfy`: the sum and mean over a group, the one-pass grouping loop,
  and `Math.ceil`.
- `course_model.dfy`, `review_model.dfy`: the two schemas, the unique index,
  and the `$match` projections.
- `store.dfy`: the store class, the recompute hooks, and the handlers.

The model follows the code as written. Behaviour of the code that is easy to
misread:

- `averageCost` is `Math.ceil((avg / 10) * 10)`, which is the ceiling of the
  mean, not the mean rounded up to a multiple of 10. Tuitions 100 and 150 give
  125, not 130 (`Store.AverageCostOfTwo`).
- Tuition has no lower bound. A negative tuition validates
  (`CourseModel.TuitionUnbounded`).
- The rating only has `min: 1` and `max: 10`. A non-integer rating inside
  that range validates.
- The duplicate-key reply is the generic "Duplicate field value entered". No
  message is specific to a second review of the same bootcamp.
- Ownership failures are status 401, not a separate forbidden status.
- Messages are passed on as written. No trailing period is stripped.

## Model

| member | source | states |
|---|---|---|
| `Common.TrimStartSpec` | models/Course.js:7 | trimming the start drops only leading white space and stops at the first other character |
| `Common.TrimEndSpec` | models/Course.js:7 | trimming the end drops only trailing white space and stops at the last other character |
| `Common.TrimSpec` | models/Course.js:7 | a trimmed title is an infix of the input, only white space surrounds it, and it has no white space at either end |
| `Common.TrimIdempotent` | models/Review.js:7 | trimming an already trimmed title changes nothing |
| `Common.TrimOfTrimmed` | models/Course.js:7 | a value with no white space at either end is its own trim |
| `Common.JsLength` | models/Course.js:8 | maxlength counts UTF-16 units: between one and two per character |
| `Common.JsLengthOfBmp` | models/Review.js:8 | text inside the Basic Multilingual Plane has exactly one unit per character |
| `Common.Failures` | models/Course.js:3-41 | the error list is empty exactly when every path's check passed, with at most one message per path |
| `Common.FailureListed` | models/Course.js:3-41 | the message of every failed path appears in the error list |
| `Errors.JoinWithCommas` | middleware/error.js:11-14 | an empty message list becomes empty text, and a single message is kept as it is |
| `Errors.SplitJoin` | middleware/error.js:11-14 | when no message contains a comma, the joined text splits back into exactly the list of messages |
| `Errors.ErrorHandler` | middleware/error.js:3-20 | priority order: CastError gives 404 "Resource not found"; otherwise code 11000 gives 400 "Duplicate field value entered"; otherwise a ValidationError gives 400 with its field messages; otherwise the error's own status or 500 with its message or "Server error"; the reply is never a success and never has empty text |
| `Errors.ValidationReply` | middleware/error.js:10-19 | a validation failure reaches the client as 400 whose text splits back into one message per failed field |
| `Errors.UnclassifiedIsServerError` | middleware/error.js:16-19 | an error with no status of its own is a 500, and with no message it reads "Server error" |
| `Errors.ErrorResponsePassesThrough` | middleware/error.js:16-19 | an ErrorResponse such as the 401 of the course handlers keeps its status and message |
| `Aggregate.SumRemove` | models/Course.js:55-59 | the `$avg` sum does not depend on the order the documents are taken in |
| `Aggregate.SumBounds` | models/Review.js:55 | values between lo and hi sum to between lo and hi times their number |
| `Aggregate.MeanBounds` | models/Review.js:45-62 | the mean exists exactly for a non-empty group and lies between the least and greatest bound of its values |
| `Aggregate.MeanOfTwo` | models/Course.js:55-59 | the mean of two documents is half their sum |
| `Aggregate.Average` | models/Course.js:48-61 | the one-pass grouping loop computes exactly the mean of the matched values, or nothing for an empty group |
| `Aggregate.Ceil` | models/Course.js:64 | `Math.ceil`: the least integer not below its argument |
| `CourseModel.ParseSkill` | models/Course.js:23-27 | the enum accepts exactly "beginner", "intermediate" and "advanced", and maps each back to its name |
| `CourseModel.ParseSkillName` | models/Course.js:23-27 | every skill's name is accepted by the enum as that skill |
| `CourseModel.SkillCheckPasses` | models/Course.js:23-27 | the minimumSkill check passes exactly when the value is present and in the enum |
| `CourseModel.ChecksPassIffSchema` | models/Course.js:3-41 | every path check passes exactly when the input meets each field's rule |
| `CourseModel.ValidateCourse` | models/Course.js:3-46 | a course is stored exactly when the input meets the schema; the stored title is trimmed, scholarshipAvailable defaults to false, and the other fields are copied; otherwise 1 to 7 messages are reported |
| `CourseModel.TuitionUnbounded` | models/Course.js:19-22 | any tuition, negative included, is accepted and stored as given |
| `CourseModel.SkillOutsideEnumRejected` | models/Course.js:23-27 | a non-empty minimumSkill outside the enum fails with the enum message |
| `CourseModel.ValidateAsInput` | models/Course.js:3-46 | a stored course, written back as a body, validates to itself |
| `CourseModel.Overlay` | controllers/courses.js:80-83 | `findByIdAndUpdate` with a body: each field the body supplies replaces the stored one, and every other field keeps the stored course's value |
| `CourseModel.OverlayNothing` | controllers/courses.js:80-83 | an empty update body leaves a stored course as it was |
| `CourseModel.Tuitions` | models/Course.js:50-58 | the `$match` stage keeps exactly the courses of the bootcamp, with their tuition |
| `ReviewModel.ChecksPassIffSchema` | models/Review.js:3-35 | every path check passes exactly when the input meets each field's rule |
| `ReviewModel.ValidateReview` | models/Review.js:3-35 | a review is stored exactly when the input meets the schema, with the title trimmed; otherwise 1 to 5 messages are reported |
| `ReviewModel.RatingOutOfRangeRejected` | models/Review.js:15-20 | a rating below 1 or above 10 never validates, and the matching min or max message is reported |
| `ReviewModel.UniqueIndex` | models/Review.js:37-43 | the unique index on (bootcamp, user): no two stored reviews share both the bootcamp and the user |
| `ReviewModel.InsertKeepsIndex` | models/Review.js:37-43 | an insert keeps (bootcamp, user) unique exactly when that pair is not taken yet |
| `ReviewModel.RemoveKeepsIndex` | models/Review.js:37-43 | a removal keeps the index unique |
| `ReviewModel.Ratings` | models/Review.js:46-58 | the `$match` stage keeps exactly the reviews of the bootcamp, with their rating |
| `Store.MayAct` | controllers/courses.js:55-58 | the ownership check of createCourse, repeated at lines 74 and 97 of updateCourse and deleteCourse: an admin or the owner may act, and anyone else who may act is the owner |
| `Store.Stamped` | controllers/courses.js:49-50 | createCourse overwrites the body's bootcamp with the route's id and its user with the acting user, and leaves every other field as sent |
| `Store.WithoutUser` | controllers/courses.js:77-79 | updateCourse removes `user` from the body and leaves every other field as sent |
| `Store.CostRecomputed` | models/Course.js:62-68 | the write of getAverageCost: the same bootcamps; only averageCost of that bootcamp can change; with no course of it, nothing is written because reading the empty result throws and is caught |
| `Store.RatingRecomputed` | models/Review.js:59-65 | the write of getAverageRating: the same bootcamps; only averageRating of that bootcamp can change; with no review of it, nothing is written because reading the empty result throws and is caught |
| `Store.CostRecomputeEffect` | models/Course.js:48-69 | the cost recompute writes only averageCost of that one bootcamp; the value is within one above the mean tuition; with no course left, nothing is written |
| `Store.AverageCostOfTwo` | models/Course.js:64 | tuitions 100 and 150 give averageCost 125 |
| `Store.RatingRecomputeEffect` | models/Review.js:45-66 | the rating recompute writes only averageRating of that one bootcamp; the value lies in [1, 10]; with no review left, nothing is written |
| `Store.AverageRatingOfTwo` | models/Review.js:55-62 | ratings 7 and 8 give averageRating 7.5, with no rounding |
| `Store.GetAverageCost` | models/Course.js:48-69 | the grouping loop and the write leave the bootcamps exactly as the cost recompute specifies |
| `Store.GetAverageRating` | models/Review.js:45-66 | the grouping loop and the write leave the bootcamps exactly as the rating recompute specifies |
| `Store.ReviewsOkInsert` | models/Review.js:37-43 | inserting a valid review whose (bootcamp, user) pair is free keeps every stored review valid and the index unique |
| `Store.DocumentStore.SaveCourse` | models/Course.js:71-73 | a saved course gets a fresh id, and then its bootcamp's average cost is recomputed |
| `Store.DocumentStore.RemoveCourse` | models/Course.js:75-77 | a removed course leaves the store, and then its bootcamp's average cost is recomputed |
| `Store.DocumentStore.InsertReview` | models/Review.js:37-70 | the save fails with the duplicate-key error, leaving the store unchanged, exactly when (bootcamp, user) is taken; otherwise the review is stored under a fresh id and the bootcamp's average rating is recomputed |
| `Store.DocumentStore.CreateReview` | models/Review.js:3-43 | a body that fails the schema gives the validation error; a duplicate (bootcamp, user) gives the duplicate-key error; both leave the store unchanged; otherwise the validated review is stored and the average rating is recomputed |
| `Store.DocumentStore.RemoveReview` | models/Review.js:72-74 | a removed review leaves the store, and then its bootcamp's average rating is recomputed |
| `Store.DocumentStore.GetCourses` | controllers/courses.js:12-23 | exactly the courses of the bootcamp, and `count` is their number |
| `Store.DocumentStore.GetCourse` | controllers/courses.js:32-41 | the stored course, or CastError, which the middleware turns into 404 |
| `Store.DocumentStore.CreateCourse` | controllers/courses.js:48-62 | unknown bootcamp gives CastError; a user who is not the owner or an admin gives 401; a bad body gives the validation error; all of these leave the store unchanged; otherwise the course is stored with the route's bootcamp and the acting user, and the average cost is recomputed |
| `Store.DocumentStore.UpdateCourse` | controllers/courses.js:69-85 | unknown id gives CastError; a user who is not the creator or an admin gives 401; otherwise the body without `user` is laid over the course and validated; the stored user never changes and no average is recomputed |
| `Store.DocumentStore.DeleteCourse` | controllers/courses.js:92-102 | unknown id gives CastError; a user who is not the creator or an admin gives 401; otherwise exactly that course is removed and the average cost is recomputed |
| `Store.DocumentStore.GetUser` | controllers/users.js:19-25 | the stored user, or CastError, which the middleware turns into 404 |
| `Store.DocumentStore.CreateUser` | controllers/users.js:32-35 | a body the User schema accepts is stored under a fresh id with status 201; otherwise the validation error, with the store unchanged |
| `Store.DocumentStore.UpdateUser` | controllers/users.js:42-52 | unknown id gives CastError; otherwise every field of the body overwrites the stored one and none is stripped, and the result is validated, stored and returned |
| `Store.DocumentStore.DeleteUser` | controllers/users.js:59-70 | unknown id gives CastError; otherwise exactly that user is removed and the others are untouched |

## Left out

- The `advancedResults` branches of `getCourses` and `getUsers`: their middleware (filtering, sorting, paging) is not part of this model.
- `populate` of the bootcamp's name and description: a lookup returns the stored record.
- Async execution, and the post-save hook of courses not being awaited: each recompute runs at once after its write, with no interleaving.
- Floating point: tuition, rating and the averages are exact reals, so the IEEE effects of `$avg` and of `(avg / 10) * 10` are not modelled.
- Logging in the recompute's catch block: a failed recompute is modelled only as "nothing is written".
- ObjectId casting of malformed ids, and number casting of string bodies: ids are abstract and numbers arrive as numbers, so not-found is the only lookup failure and a non-numeric weeks or tuition is not modelled.
- `createdAt` defaults to the clock and is not part of the stored records.
- Fields a body sends that no schema declares (dropped by strict mode), and a `null` value in a body: a body field is either present with a value of its type or absent.
- The User and Bootcamp models and `utils/errorResponse.js` are not part of this model. The User schema's validation enters as the function `userErrors` given to the store. Password hashing, the unique email and the roles are not modelled. A bootcamp is reduced to its owner and the two averages.
- Errors.ErrorHandler: `ErrorResponse` is taken to pass its message to the `Error` constructor, so a list of validation messages reaches the body joined by commas, as JavaScript converts an array to a string.
- Store.DocumentStore.GetCourses: returns a map keyed by id, so the array order in which `Course.find` lists the courses is not modelled.
- Store.DocumentStore.UpdateCourse: update validators are modelled as validation of the whole course with the body laid over it. Mongoose runs them only on the updated paths, and the paths not in the body were already valid when stored, so the verdict is the same. The message list can differ, though: the model checks the paths in schema order.
- Store.DocumentStore.UpdateUser: validators are modelled as the User schema applied to the merged document, with the same caveat as for courses.
- Store.DocumentStore.DeleteUser: the handler looks the user up twice before removing it. The second lookup always finds the user, so it is modelled once.
- Store.DocumentStore.CreateReview: the review handlers are not part of this model. Review creation and removal are modelled at the storage level: validation, the unique index, and the hooks.
- The order of the `errors` of a ValidationError is taken to be the schema's path order.
