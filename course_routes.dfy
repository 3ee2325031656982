/** The route handlers of the course API over the server's in-memory `students` and
    `courses` arrays. Each handler returns the HTTP status it answers with and the
    record it sends back; the schema checks are given to each handler as a predicate. */
module CourseRoutes {
  import opened Wrappers
  import opened Search
  import opened Records
  import opened Table

  /** The statuses the handlers answer with. */
  datatype Status = Ok | BadRequest | NotFound | Conflict {
    function Code(): (n: int)
      ensures n in {200, 400, 404, 409}
      ensures Ok? <==> n == 200
      ensures BadRequest? <==> n == 400
      ensures NotFound? <==> n == 404
      ensures Conflict? <==> n == 409
    {
      match this
      case Ok => 200
      case BadRequest => 400
      case NotFound => 404
      case Conflict => 409
    }
  }

  /** The server's two tables; handlers change `courses` in place and only read `students`. */
  class Db {
    var students: seq<Student>
    var courses: seq<Course>

    constructor (students: seq<Student>, courses: seq<Course>)
      ensures this.students == students && this.courses == courses
    {
      this.students := students;
      this.courses := courses;
    }

    /** GET /students: the whole student table, as it is. */
    method ListStudents() returns (status: Status, data: seq<Student>)
      ensures status == Ok && data == students
    {
      status, data := Ok, students;
    }

    /** GET /courses: the whole course table, as it is. */
    method ListCourses() returns (status: Status, data: seq<Course>)
      ensures status == Ok && data == courses
    {
      status, data := Ok, courses;
    }

    /** GET /students/:studentId/courses: 400 when the id fails its schema, 404 when no
        student has it, otherwise one entry per course id the first such student lists,
        in that order. */
    method GetStudentCourses(studentId: string, zStudentId: string -> bool)
      returns (status: Status, data: seq<CourseSummary>)
      ensures var i := FirstIndex(students, StudentKey, studentId);
        if !zStudentId(studentId) then status == BadRequest && data == []
        else if i < 0 then status == NotFound && data == []
        else
          var ids := CourseIdsOf(students[i]);
          status == Ok && |data| == |ids|
          && forall k :: 0 <= k < |ids| ==> data[k] == Summary(courses, ids[k])
    {
      if !zStudentId(studentId) {
        return BadRequest, [];
      }
      var i := FindIndex(students, StudentKey, studentId);
      if i < 0 {
        return NotFound, [];
      }
      var ids := CourseIdsOf(students[i]);
      data := [];
      var n := 0;
      while n < |ids|
        invariant 0 <= n <= |ids|
        invariant |data| == n
        invariant forall k :: 0 <= k < n ==> data[k] == Summary(courses, ids[k])
      {
        var j := FindIndex(courses, CourseKey, ids[n]);
        var entry := if j < 0 then CourseSummary(None, None)
                     else CourseSummary(Some(courses[j].courseId), Some(courses[j].courseTitle));
        data := data + [entry];
        n := n + 1;
      }
      status := Ok;
    }

    /** GET /courses/:courseId. The path parameter arrives parsed as a number; `None`
        stands for NaN, which equals no id. 400 when the schema rejects it, 404 when no
        course has it, otherwise the first course with that id. */
    method GetCourse(courseId: Option<int>, zCourseId: Option<int> -> bool)
      returns (status: Status, data: Option<Course>)
      ensures !zCourseId(courseId) ==> status == BadRequest && data == None
      ensures zCourseId(courseId) && courseId.None? ==> status == NotFound && data == None
      ensures zCourseId(courseId) && courseId.Some? ==>
        var i := FirstIndex(courses, CourseKey, courseId.value);
        if i < 0 then status == NotFound && data == None
        else status == Ok && data == Some(courses[i])
    {
      if !zCourseId(courseId) {
        return BadRequest, None;
      }
      if courseId.None? {
        return NotFound, None;
      }
      var i := FindIndex(courses, CourseKey, courseId.value);
      if i < 0 {
        return NotFound, None;
      }
      var c := courses[i];
      status, data := Ok, Some(Course(courseId.value, c.courseTitle, c.instructors));
    }

    /** POST /courses: 400 when the body fails its schema, 409 when its id is taken,
        otherwise the body is appended and sent back. */
    method PostCourse(body: Course, zCoursePostBody: Course -> bool)
      returns (status: Status, data: Option<Course>)
      modifies this`courses
      ensures !zCoursePostBody(body) ==> status == BadRequest && data == None && courses == old(courses)
      ensures zCoursePostBody(body) && 0 <= FirstIndex(old(courses), CourseKey, body.courseId) ==>
        status == Conflict && data == None && courses == old(courses)
      ensures zCoursePostBody(body) && FirstIndex(old(courses), CourseKey, body.courseId) < 0 ==>
        status == Ok && data == Some(body) && courses == old(courses) + [body]
      ensures UniqueIds(old(courses)) ==> UniqueIds(courses)
    {
      if !zCoursePostBody(body) {
        return BadRequest, None;
      }
      var i := FindIndex(courses, CourseKey, body.courseId);
      if 0 <= i {
        return Conflict, None;
      }
      if UniqueIds(courses) {
        AppendFreshKeepsUnique(courses, body);
      }
      courses := courses + [body];
      status, data := Ok, Some(body);
    }

    /** PUT /courses: 400 when the body fails its schema, 404 when no course has its id,
        otherwise the first such course is replaced by its merge with the body, which is
        sent back. */
    method PutCourse(body: CoursePatch, zCoursePutBody: CoursePatch -> bool)
      returns (status: Status, data: Option<Course>)
      modifies this`courses
      ensures !zCoursePutBody(body) ==> status == BadRequest && data == None && courses == old(courses)
      ensures zCoursePutBody(body) ==>
        var i := FirstIndex(old(courses), CourseKey, body.courseId);
        if i < 0 then status == NotFound && data == None && courses == old(courses)
        else
          var merged := Merge(old(courses)[i], body);
          status == Ok && data == Some(merged) && courses == old(courses)[i := merged]
      ensures UniqueIds(old(courses)) ==> UniqueIds(courses)
    {
      if !zCoursePutBody(body) {
        return BadRequest, None;
      }
      var i := FindIndex(courses, CourseKey, body.courseId);
      if i < 0 {
        return NotFound, None;
      }
      var merged := Merge(courses[i], body);
      if UniqueIds(courses) {
        ReplaceSameKeyKeepsUnique(courses, i, merged);
      }
      courses := courses[i := merged];
      status, data := Ok, Some(courses[i]);
    }

    /** DELETE /courses: 400 when the body fails its schema, 404 when no course has its
        id, otherwise the first such course is spliced out and sent back. */
    method DeleteCourse(courseId: int, zCourseDeleteBody: int -> bool)
      returns (status: Status, data: Option<Course>)
      modifies this`courses
      ensures !zCourseDeleteBody(courseId) ==> status == BadRequest && data == None && courses == old(courses)
      ensures zCourseDeleteBody(courseId) ==>
        var i := FirstIndex(old(courses), CourseKey, courseId);
        if i < 0 then status == NotFound && data == None && courses == old(courses)
        else status == Ok && data == Some(old(courses)[i]) && courses == RemoveAt(old(courses), i)
      ensures UniqueIds(old(courses)) ==> UniqueIds(courses)
    {
      if !zCourseDeleteBody(courseId) {
        return BadRequest, None;
      }
      var i := FindIndex(courses, CourseKey, courseId);
      if i < 0 {
        return NotFound, None;
      }
      var deleted := courses[i];
      if UniqueIds(courses) {
        RemoveKeepsUnique(courses, i);
      }
      courses := RemoveAt(courses, i);
      status, data := Ok, Some(deleted);
    }
  }
}
