/**
 * The Course schema (models/Course.js): what a request body may hold, the
 * validated document that is stored, the per-field rules with their
 * messages, and the projection the average-cost recompute groups on.
 */
module CourseModel {
  import opened Common

  const MaxTitleLength := 50
  const MaxDescriptionLength := 500

  const TitleRequired := "Please add a title"
  const TitleTooLong := "Name can not be longer than 50 characters"
  const DescriptionRequired := "Please add a description"
  const DescriptionTooLong := "Description can not be longer than 500 characters"
  const WeeksRequired := "Please add a number of weeks"
  const TuitionRequired := "Please add a tuition"
  const SkillRequired := "Please add a minimum skill"
  const BootcampRequired := "Path `bootcamp` is required."
  const UserRequired := "Path `user` is required."

  /** The `enum` of minimumSkill. */
  datatype Skill = Beginner | Intermediate | Advanced

  function SkillName(s: Skill): string {
    match s
    case Beginner => "beginner"
    case Intermediate => "intermediate"
    case Advanced => "advanced"
  }

  /** The enum check: exactly the three listed names are accepted. */
  function ParseSkill(v: string): (r: Option<Skill>)
    ensures r.Some? <==> v == "beginner" || v == "intermediate" || v == "advanced"
    ensures r.Some? ==> SkillName(r.value) == v
  {
    if v == "beginner" then Some(Beginner)
    else if v == "intermediate" then Some(Intermediate)
    else if v == "advanced" then Some(Advanced)
    else None
  }

  lemma ParseSkillName(s: Skill)
    ensures ParseSkill(SkillName(s)) == Some(s)
  {
  }

  function SkillEnumMessage(v: string): string {
    "`" + v + "` is not a valid enum value for path `minimumSkill`."
  }

  /**
   * A course as a request body supplies it: every field may be absent.
   * Numbers arrive already as numbers.
   */
  datatype CourseInput = CourseInput(
    title: Option<string>,
    description: Option<string>,
    weeks: Option<real>,
    tuition: Option<real>,
    minimumSkill: Option<string>,
    scholarshipAvailable: Option<bool>,
    bootcamp: Option<Id>,
    user: Option<Id>)

  /** A stored course document (its creation timestamp aside). */
  datatype Course = Course(
    title: string,
    description: string,
    weeks: real,
    tuition: real,
    minimumSkill: Skill,
    scholarshipAvailable: bool,
    bootcamp: Id,
    user: Id)

  /** The title is trimmed when set; `required` rejects an empty string. */
  function TitleCheck(v: Option<string>): Option<string> {
    if v.None? || Trim(v.value) == "" then Some(TitleRequired)
    else if JsLength(Trim(v.value)) > MaxTitleLength then Some(TitleTooLong)
    else None
  }

  /** The description is not trimmed. */
  function DescriptionCheck(v: Option<string>): Option<string> {
    if v.None? || v.value == "" then Some(DescriptionRequired)
    else if JsLength(v.value) > MaxDescriptionLength then Some(DescriptionTooLong)
    else None
  }

  function SkillCheck(v: Option<string>): Option<string> {
    if v.None? || v.value == "" then Some(SkillRequired)
    else if ParseSkill(v.value).None? then Some(SkillEnumMessage(v.value))
    else None
  }

  /** One check per schema path, in the order the schema declares them. */
  function CourseChecks(i: CourseInput): seq<Option<string>> {
    [ TitleCheck(i.title),
      DescriptionCheck(i.description),
      PresenceCheck(i.weeks, WeeksRequired),
      PresenceCheck(i.tuition, TuitionRequired),
      SkillCheck(i.minimumSkill),
      PresenceCheck(i.bootcamp, BootcampRequired),
      PresenceCheck(i.user, UserRequired) ]
  }

  /**
   * The schema's rules stated field by field: title present and at most 50
   * UTF-16 units once trimmed, description present and at most 500, weeks and
   * tuition present with no range, minimumSkill one of the three names, both
   * references present. scholarshipAvailable may be left out.
   */
  ghost predicate MeetsSchema(i: CourseInput) {
    && i.title.Some? && Trim(i.title.value) != "" && JsLength(Trim(i.title.value)) <= MaxTitleLength
    && i.description.Some? && i.description.value != "" && JsLength(i.description.value) <= MaxDescriptionLength
    && i.weeks.Some?
    && i.tuition.Some?
    && i.minimumSkill.Some? && ParseSkill(i.minimumSkill.value).Some?
    && i.bootcamp.Some?
    && i.user.Some?
  }

  /** What every stored course satisfies. */
  predicate CourseOk(c: Course) {
    && c.title != "" && Trim(c.title) == c.title && JsLength(c.title) <= MaxTitleLength
    && c.description != "" && JsLength(c.description) <= MaxDescriptionLength
  }

  /**
   * Document validation: the stored course when every rule holds, otherwise
   * the message of each failed field.
   */
  function ValidateCourse(i: CourseInput): (r: Result<Course, seq<string>>)
    ensures r.Ok? <==> MeetsSchema(i)
    ensures r.Ok? ==> CourseOk(r.value)
    ensures r.Ok? ==> && r.value.title == Trim(i.title.value)
                      && r.value.description == i.description.value
                      && r.value.weeks == i.weeks.value
                      && r.value.tuition == i.tuition.value
                      && SkillName(r.value.minimumSkill) == i.minimumSkill.value
                      && r.value.scholarshipAvailable == i.scholarshipAvailable.GetOr(false)
                      && r.value.bootcamp == i.bootcamp.value
                      && r.value.user == i.user.value
    ensures r.Err? ==> 1 <= |r.error| <= 7
  {
    var messages := Failures(CourseChecks(i));
    if messages == [] then
      ChecksPassIffSchema(i);
      TrimIdempotent(i.title.value);
      Ok(Course(
        Trim(i.title.value),
        i.description.value,
        i.weeks.value,
        i.tuition.value,
        ParseSkill(i.minimumSkill.value).value,
        i.scholarshipAvailable.GetOr(false),
        i.bootcamp.value,
        i.user.value))
    else
      ChecksPassIffSchema(i);
      Err(messages)
  }

  /** Every check passes exactly when the input meets the schema. */
  lemma ChecksPassIffSchema(i: CourseInput)
    ensures (forall j :: 0 <= j < |CourseChecks(i)| ==> CourseChecks(i)[j].None?) <==> MeetsSchema(i)
  {
    SkillCheckPasses(i.minimumSkill);
    var checks := CourseChecks(i);
    assert (forall j :: 0 <= j < |checks| ==> checks[j].None?) <==>
      checks[0].None? && checks[1].None? && checks[2].None? && checks[3].None?
      && checks[4].None? && checks[5].None? && checks[6].None?;
  }

  lemma SkillCheckPasses(v: Option<string>)
    ensures SkillCheck(v).None? <==> v.Some? && ParseSkill(v.value).Some?
  {
    if v.Some? && v.value == "" {
      assert ParseSkill(v.value).None?;
    }
  }

  /**
   * No range is enforced on tuition: once the other rules hold, any tuition,
   * a negative one included, is accepted and stored as given.
   */
  lemma TuitionUnbounded(i: CourseInput, x: real)
    requires MeetsSchema(i)
    ensures ValidateCourse(i.(tuition := Some(x))).Ok?
    ensures ValidateCourse(i.(tuition := Some(x))).value.tuition == x
  {
  }

  /** A non-empty minimumSkill outside the enum fails, with the enum message among the errors. */
  lemma SkillOutsideEnumRejected(i: CourseInput)
    requires i.minimumSkill.Some? && i.minimumSkill.value != ""
    requires ParseSkill(i.minimumSkill.value).None?
    ensures ValidateCourse(i).Err?
    ensures SkillEnumMessage(i.minimumSkill.value) in ValidateCourse(i).error
  {
    var checks := CourseChecks(i);
    assert checks[4] == Some(SkillEnumMessage(i.minimumSkill.value));
    FailureListed(checks, 4);
  }

  /** A stored course written back as a body, every field present. */
  function AsInput(c: Course): CourseInput {
    CourseInput(Some(c.title), Some(c.description), Some(c.weeks), Some(c.tuition),
                Some(SkillName(c.minimumSkill)), Some(c.scholarshipAvailable),
                Some(c.bootcamp), Some(c.user))
  }

  /** A stored course validates to itself. */
  lemma ValidateAsInput(c: Course)
    requires CourseOk(c)
    ensures ValidateCourse(AsInput(c)) == Ok(c)
  {
    ParseSkillName(c.minimumSkill);
  }

  /**
   * An update body laid over a stored course: each field the body supplies
   * replaces the stored one, the others are kept.
   */
  function Overlay(c: Course, p: CourseInput): (r: CourseInput)
    ensures r.title == (if p.title.Some? then p.title else AsInput(c).title)
    ensures r.description == (if p.description.Some? then p.description else AsInput(c).description)
    ensures r.weeks == (if p.weeks.Some? then p.weeks else AsInput(c).weeks)
    ensures r.tuition == (if p.tuition.Some? then p.tuition else AsInput(c).tuition)
    ensures r.minimumSkill == (if p.minimumSkill.Some? then p.minimumSkill else AsInput(c).minimumSkill)
    ensures r.scholarshipAvailable
      == (if p.scholarshipAvailable.Some? then p.scholarshipAvailable else AsInput(c).scholarshipAvailable)
    ensures r.bootcamp == (if p.bootcamp.Some? then p.bootcamp else AsInput(c).bootcamp)
    ensures r.user == (if p.user.Some? then p.user else AsInput(c).user)
  {
    CourseInput(
      Some(p.title.GetOr(c.title)),
      Some(p.description.GetOr(c.description)),
      Some(p.weeks.GetOr(c.weeks)),
      Some(p.tuition.GetOr(c.tuition)),
      Some(if p.minimumSkill.Some? then p.minimumSkill.value else SkillName(c.minimumSkill)),
      Some(p.scholarshipAvailable.GetOr(c.scholarshipAvailable)),
      Some(p.bootcamp.GetOr(c.bootcamp)),
      Some(p.user.GetOr(c.user)))
  }

  /** An empty update body changes nothing. */
  lemma OverlayNothing(c: Course)
    requires CourseOk(c)
    ensures ValidateCourse(Overlay(c, CourseInput(None, None, None, None, None, None, None, None))) == Ok(c)
  {
    ValidateAsInput(c);
  }

  /** The tuition of every course of bootcamp `b`, keyed by course id: the `$match` stage. */
  function Tuitions(courses: map<Id, Course>, b: Id): (m: map<Id, real>)
    ensures forall k :: k in m <==> k in courses && courses[k].bootcamp == b
    ensures forall k :: k in m ==> m[k] == courses[k].tuition
  {
    map k | k in courses && courses[k].bootcamp == b :: courses[k].tuition
  }
}
