# Course table of the student/course HTTP API

The server keeps two in-memory arrays, `students` and `courses`, and its course
routes read them and change `courses` in place. This project models those route
handlers as the methods of a class `Db` whose fields are the two tables. Each
handler returns the HTTP status it answers with and the record it sends back.
Lookups are the linear scans `find` / `findIndex`, modelled as one loop
(`Search.FindIndex`) proved against a recursive specification
(`Search.FirstIndex`).

Each handler's contract states its whole outcome:
- a body or parameter that fails its schema answers 400 and leaves `courses` as it was;
- an unknown id answers 404 and changes nothing;
- POST with a taken id answers 409 and changes nothing;
- otherwise POST appends the body, PUT replaces the first matching row by its
  merge with the body, and DELETE splices that row out and returns it.

Every mutating handler keeps `courseId` unique when it was unique before. The
update's `{ ...old, ...body }` appears as `Records.Merge`. Its contract states
that the result is the right-biased union of the two records seen as field maps.

Modules:
- `Wrappers` (wrappers.dfy): `Option`.
- `Search` (search.dfy): first-match search by key, as a function and as a loop.
- `Records` (records.dfy): the records, the update body and object spread.
- `Table` (table.dfy): uniqueness of ids, removal by position, the per-student
  course summary, and lemmas that relate the operations.
- `CourseRoutes` (course_routes.dfy): the status codes and the class `Db` with its handlers.

Inputs from outside the model:
- The schema checks (`zStudentId`, `zCourseId`, `zCoursePostBody`,
  `zCoursePutBody`, `zCourseDeleteBody`) are defined in files that are not part
  of this model. Each handler takes its check as a predicate parameter.
- Nothing is assumed about what a schema accepts.

## Model

| member | source | states |
|---|---|---|
| `Search.FirstIndex` | src/routes/courseRoutes.ts:111 | the result is -1 or an index whose key matches, and no earlier element (no element at all, for -1) has the key |
| `Search.FindIndex` | src/routes/courseRoutes.ts:185-186 | the scan from the front returns exactly the first matching index, or -1 when none matches |
| `Search.FirstIndexFound` | src/routes/courseRoutes.ts:61-67 | the search reports an index exactly when some element has the key (so 404 exactly when no record has the id) |
| `Search.FirstIndexAppend` | src/routes/courseRoutes.ts:157 | after a push, a match in the old prefix stays where it was, and a pushed element with a fresh key is found at the end |
| `Records.Merge` | src/routes/courseRoutes.ts:193 | the merged course, as a field map, is the old record's fields overridden by the fields present in the body (the right-biased union that `{ ...old, ...body }` builds) |
| `Records.MergeFields` | src/routes/courseRoutes.ts:193 | fields present in the body override, absent fields keep their old values, and the key is the body's |
| `Records.MergeIdempotent` | src/routes/courseRoutes.ts:193 | merging the same body a second time changes nothing |
| `Records.MergeKeyOnly` | src/routes/courseRoutes.ts:193 | a body that carries only the course's own id leaves the course unchanged |
| `Table.RemoveAt` | src/routes/courseRoutes.ts:230 | splicing out row i leaves one row fewer, the rows before i in place and the rows after i shifted down by one, in order |
| `Table.RemoveAtMultiset` | src/routes/courseRoutes.ts:230 | exactly one row is removed: the remaining rows plus the removed row are the original rows |
| `Table.CourseIdsOf` | src/routes/courseRoutes.ts:69-75 | a student's listed course ids when the list is present, and no ids when it is missing |
| `Table.Summary` | src/routes/courseRoutes.ts:69-74 | the entry for an id carries that id and the first matching course's title when some course has the id, and is undefined in both fields otherwise |
| `Table.UniqueLookup` | src/routes/courseRoutes.ts:111 | when ids are unique, looking up a row's id finds that row |
| `Table.AppendFreshKeepsUnique` | src/routes/courseRoutes.ts:149-157 | appending a course whose id is absent keeps ids unique |
| `Table.ReplaceSameKeyKeepsUnique` | src/routes/courseRoutes.ts:185-193 | replacing a row by a record with the same id keeps ids unique |
| `Table.RemoveKeepsUnique` | src/routes/courseRoutes.ts:222-230 | removing a row keeps ids unique |
| `Table.AppendThenRemove` | src/routes/courseRoutes.ts:149-230 | a course posted under a fresh id is found at the end, and deleting it restores the previous table |
| `Table.ReplaceSameKeyKeepsLookup` | src/routes/courseRoutes.ts:185-193 | after an update the lookup by the same id still finds the updated row |
| `Table.UpdateTwiceIsUpdateOnce` | src/routes/courseRoutes.ts:185-199 | sending the same PUT twice leaves the table as sending it once does |
| `CourseRoutes.Status.Code` | src/routes/courseRoutes.ts:142-155 | success answers 200, a rejected input 400, a missing record 404 and a taken id 409, and no other code is used |
| `CourseRoutes.Db.constructor` | src/routes/courseRoutes.ts:5 | the handlers start from the given student and course tables |
| `CourseRoutes.Db.ListStudents` | src/routes/courseRoutes.ts:21-31 | answers 200 with the whole student table, unchanged |
| `CourseRoutes.Db.ListCourses` | src/routes/courseRoutes.ts:34-44 | answers 200 with the whole course table, unchanged |
| `CourseRoutes.Db.GetStudentCourses` | src/routes/courseRoutes.ts:48-90 | 400 on a rejected id; 404 when no student has the id; otherwise 200 with one summary per course id of the first matching student, in order, and none when the student has no list |
| `CourseRoutes.Db.GetCourse` | src/routes/courseRoutes.ts:94-133 | 400 on a rejected id; 404 for NaN or an id no course has; otherwise 200 with the first course having the id; the tables are not changed |
| `CourseRoutes.Db.PostCourse` | src/routes/courseRoutes.ts:137-168 | 400 and no change on a rejected body; 409 and no change on a taken id; otherwise the body is appended at the end, earlier rows unchanged, and sent back; unique ids stay unique |
| `CourseRoutes.Db.PutCourse` | src/routes/courseRoutes.ts:172-204 | 400 and no change on a rejected body; 404 and no change on an unknown id; otherwise only the first matching row is replaced, by its merge with the body, which is sent back; unique ids stay unique |
| `CourseRoutes.Db.DeleteCourse` | src/routes/courseRoutes.ts:208-240 | 400 and no change on a rejected body; 404 and no change on an unknown id; otherwise the first matching row is spliced out and sent back; unique ids stay unique |

## Left out

- HTTP plumbing is not modelled: routing, `req`/`res`, the JSON envelopes,
  message texts and `Link` headers.
- The try/catch wrapper `handleError`, which answers 500, is not modelled. The
  model's handlers never fail this way.
- The `Link` header write can throw, and the model does not capture this. The header
  holds the raw path parameter (courseRoutes.ts:77 and 119), so a control character
  there, such as a decoded `%0A`, makes the write throw. The write comes after the
  lookup and changes no table. The source then answers 500 where the model's
  GetCourse or GetStudentCourses answers 200.
- The schema definitions are not part of this model. Each handler receives its
  check as a predicate, and no property relies on what that predicate accepts.
- `Number(courseId)` is modelled as an already parsed `Option<int>`, where `None`
  stands for NaN. Non-integral numbers and the special NaN error message are not
  modelled.
- JavaScript's dynamic typing is not modelled. A body is assumed to have the
  record's field types.
- Course ids are JavaScript numbers. They are modelled as `int` everywhere: in the
  path parameter and in request bodies, including a student's course list. A
  non-integral id such as 1.5 is outside the model, even if a schema accepts it.
- GetStudentCourses: the `studentId` that the response echoes back next to the
  course list is not returned by the model.
- Extra fields in a POST or PUT body are not modelled. The server would store them,
  through `push(body)` and the spread; the model keeps only `courseId`,
  `courseTitle` and `instructors`.
- PutCourse: the body's `courseId` is a required field of `CoursePatch`, since the
  handler looks the row up by it. A body without it never matches a row in the
  source either.
- DeleteCourse: the DELETE body is represented by its `courseId` alone, and the
  schema check is applied to that id.
- Uniqueness of ids is not a class invariant. The initial tables are defined in a
  file that is not part of this model. Each mutating handler instead proves that it
  keeps ids unique when they were unique before.
- src/routes/studentRoutes.ts returns a fixed object and has no logic, so it is
  not modelled.
