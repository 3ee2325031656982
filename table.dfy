/** The course table as a sequence: keys, uniqueness of `courseId`, removal by
    position, the summary a student's course list shows, and how these interact. */
module Table {
  import opened Wrappers
  import opened Search
  import opened Records

  function CourseKey(c: Course): int { c.courseId }

  function StudentKey(s: Student): string { s.studentId }

  /** No two rows of the table share a `courseId`. */
  predicate UniqueIds(s: seq<Course>) {
    forall i, j :: 0 <= i < j < |s| ==> s[i].courseId != s[j].courseId
  }

  /** `s.splice(i, 1)`: the table without its row `i`, the other rows in their order. */
  function RemoveAt<T>(s: seq<T>, i: nat): (r: seq<T>)
    requires i < |s|
    ensures |r| == |s| - 1
    ensures forall k :: 0 <= k < i ==> r[k] == s[k]
    ensures forall k :: i <= k < |r| ==> r[k] == s[k + 1]
  {
    s[..i] + s[i + 1..]
  }

  /** The course ids a student lists; a missing list reads as none. */
  function CourseIdsOf(st: Student): (r: seq<int>)
    ensures st.courses.Some? ==> r == st.courses.value
    ensures st.courses.None? ==> r == []
  {
    st.courses.GetOr([])
  }

  /** The entry shown for one course id of a student: the first course with that id,
      or an entry with both fields undefined. */
  function Summary(s: seq<Course>, id: int): (r: CourseSummary)
    ensures r.courseId.Some? <==> exists j :: 0 <= j < |s| && s[j].courseId == id
    ensures r.courseId.Some? ==> r.courseId == Some(id)
    ensures r.courseId.Some? ==> r.courseTitle == Some(s[FirstIndex(s, CourseKey, id)].courseTitle)
    ensures r.courseId.None? ==> r.courseTitle.None?
  {
    FirstIndexFound(s, CourseKey, id);
    var i := FirstIndex(s, CourseKey, id);
    if i < 0 then CourseSummary(None, None)
    else CourseSummary(Some(s[i].courseId), Some(s[i].courseTitle))
  }

  /** In a table with unique ids, the lookup finds the one row holding the id. */
  lemma UniqueLookup(s: seq<Course>, j: nat)
    requires UniqueIds(s)
    requires j < |s|
    ensures FirstIndex(s, CourseKey, s[j].courseId) == j
  {
  }

  /** Appending a course whose id is not in the table keeps the ids unique. */
  lemma AppendFreshKeepsUnique(s: seq<Course>, c: Course)
    requires UniqueIds(s)
    requires FirstIndex(s, CourseKey, c.courseId) < 0
    ensures UniqueIds(s + [c])
  {
    var t := s + [c];
    forall i, j | 0 <= i < j < |t| ensures t[i].courseId != t[j].courseId {
      if j == |s| {
        assert CourseKey(s[i]) != c.courseId;
      } else {
        assert t[i] == s[i] && t[j] == s[j];
      }
    }
  }

  /** Replacing a row by a record with the same id keeps the ids unique. */
  lemma ReplaceSameKeyKeepsUnique(s: seq<Course>, i: nat, c: Course)
    requires UniqueIds(s)
    requires i < |s| && c.courseId == s[i].courseId
    ensures UniqueIds(s[i := c])
  {
  }

  /** Removing a row keeps the ids unique. */
  lemma RemoveKeepsUnique(s: seq<Course>, i: nat)
    requires UniqueIds(s)
    requires i < |s|
    ensures UniqueIds(RemoveAt(s, i))
  {
    var r := RemoveAt(s, i);
    forall a, b | 0 <= a < b < |r| ensures r[a].courseId != r[b].courseId {
      var a' := if a < i then a else a + 1;
      var b' := if b < i then b else b + 1;
      assert r[a] == s[a'] && r[b] == s[b'];
    }
  }

  /** Removal takes out exactly the one row: the rows left and the row removed
      together are the rows there were. */
  lemma RemoveAtMultiset<T>(s: seq<T>, i: nat)
    requires i < |s|
    ensures multiset(RemoveAt(s, i)) + multiset{s[i]} == multiset(s)
  {
    assert s == s[..i] + [s[i]] + s[i + 1..];
  }

  /** A course added under a fresh id is found at the end of the table, and deleting
      it gives back the table that was there before. */
  lemma AppendThenRemove(s: seq<Course>, c: Course)
    requires FirstIndex(s, CourseKey, c.courseId) < 0
    ensures FirstIndex(s + [c], CourseKey, c.courseId) == |s|
    ensures RemoveAt(s + [c], |s|) == s
  {
    FirstIndexAppend(s, c, CourseKey, c.courseId);
    assert (s + [c])[..|s|] == s;
  }

  /** Replacing row `i` by a record with the same id leaves every lookup by that id
      where it was. */
  lemma ReplaceSameKeyKeepsLookup(s: seq<Course>, i: nat, c: Course)
    requires i < |s| && c.courseId == s[i].courseId
    requires FirstIndex(s, CourseKey, c.courseId) == i
    ensures FirstIndex(s[i := c], CourseKey, c.courseId) == i
  {
    var t := s[i := c];
    assert CourseKey(t[i]) == c.courseId;
    assert forall j :: 0 <= j < i ==> CourseKey(t[j]) == CourseKey(s[j]);
  }

  /** Sending the same update twice leaves the table as sending it once does. */
  lemma UpdateTwiceIsUpdateOnce(s: seq<Course>, p: CoursePatch)
    requires 0 <= FirstIndex(s, CourseKey, p.courseId)
    ensures var i := FirstIndex(s, CourseKey, p.courseId);
      var once := s[i := Merge(s[i], p)];
      FirstIndex(once, CourseKey, p.courseId) == i
      && once[i := Merge(once[i], p)] == once
  {
    var i := FirstIndex(s, CourseKey, p.courseId);
    ReplaceSameKeyKeepsLookup(s, i, Merge(s[i], p));
    MergeIdempotent(s[i], p);
  }
}
