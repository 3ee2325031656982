/** The records kept by the server: students, courses, the body of a course update
    and the course summary listed for a student, together with the object spread
    `{ ...course, ...body }` that an update performs. */
module Records {
  import opened Wrappers

  /** A course record, keyed by `courseId`. */
  datatype Course = Course(courseId: int, courseTitle: string, instructors: seq<string>)

  /** A student record; `courses` is optional, as the handler guards it with `?.`. */
  datatype Student = Student(studentId: string, courses: Option<seq<int>>)

  /** The body of an update: the key, and each other field only when the client sent it. */
  datatype CoursePatch = CoursePatch(courseId: int, courseTitle: Option<string>, instructors: Option<seq<string>>)

  /** One entry of a student's course list; both fields are undefined when the id matches no course. */
  datatype CourseSummary = CourseSummary(courseId: Option<int>, courseTitle: Option<string>)

  /** A field value of a plain JavaScript object. */
  datatype Value = Num(n: int) | Text(t: string) | Texts(ts: seq<string>)

  /** A course seen as a JavaScript object: a map from field names to values. */
  function CourseObject(c: Course): map<string, Value> {
    map["courseId" := Num(c.courseId), "courseTitle" := Text(c.courseTitle), "instructors" := Texts(c.instructors)]
  }

  /** An update body seen as a JavaScript object: absent fields are absent keys. */
  function PatchObject(p: CoursePatch): map<string, Value> {
    var withId := map["courseId" := Num(p.courseId)];
    var withTitle := if p.courseTitle.Some? then withId["courseTitle" := Text(p.courseTitle.value)] else withId;
    if p.instructors.Some? then withTitle["instructors" := Texts(p.instructors.value)] else withTitle
  }

  /** `{ ...c, ...p }`: the fields `p` carries replace those of `c`; the others are kept.
      As objects, the merged course is the right-biased union of the old course and the
      body, which is what the spread builds. */
  function Merge(c: Course, p: CoursePatch): (r: Course)
    ensures CourseObject(r) == CourseObject(c) + PatchObject(p)
  {
    Course(p.courseId, p.courseTitle.GetOr(c.courseTitle), p.instructors.GetOr(c.instructors))
  }

  /** The merged record keeps the key of the body, takes every field the body carries
      and keeps every field it omits. */
  lemma MergeFields(c: Course, p: CoursePatch)
    ensures Merge(c, p).courseId == p.courseId
    ensures p.courseTitle.Some? ==> Merge(c, p).courseTitle == p.courseTitle.value
    ensures p.courseTitle.None? ==> Merge(c, p).courseTitle == c.courseTitle
    ensures p.instructors.Some? ==> Merge(c, p).instructors == p.instructors.value
    ensures p.instructors.None? ==> Merge(c, p).instructors == c.instructors
  {
  }

  /** Applying the same body twice gives the same record as applying it once. */
  lemma MergeIdempotent(c: Course, p: CoursePatch)
    ensures Merge(Merge(c, p), p) == Merge(c, p)
  {
  }

  /** A body holding only the course's own key leaves the course as it was. */
  lemma MergeKeyOnly(c: Course)
    ensures Merge(c, CoursePatch(c.courseId, None, None)) == c
  {
  }
}
