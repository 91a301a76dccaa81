/** `fetchCourseData` of hooks/api/use-course-data.ts: a category, its
    subjects and each subject's lessons, fetched and stitched together. The
    responses are inputs: the category and subjects envelopes, and the
    lessons envelope the API gives for a subject id. Requests are taken one
    after another. */
module CourseData {
  import opened Wrappers
  import opened ApiClient

  datatype Category = Category(id: string, name: string, order: real)

  datatype Subject = Subject(id: string, name: string, order: real, categoryId: string)

  datatype Lesson = Lesson(id: string, name: string, videoUrl: string, subjectId: string)

  /** A subject with its `lessons` filled in. */
  datatype Section = Section(subject: Subject, lessons: seq<Lesson>)

  /** The category's fields with `subjects` set. */
  datatype Course = Course(category: Category, subjects: seq<Section>)

  /** The thrown `Error`, with the `status` attached for the query provider. */
  datatype CourseError = CourseError(message: string, status: Option<int>)

  datatype Outcome = Failed(error: CourseError) | Loaded(course: Course)

  /** The result, and the subject ids whose lessons were requested, in order. */
  datatype Fetch = Fetch(outcome: Outcome, lessonRequests: seq<string>)

  const CATEGORY_FALLBACK := "Failed to fetch course details."
  const SUBJECTS_FALLBACK := "Failed to fetch course subjects."

  /** `response.error?.message || fallback`: an absent or empty message gives the fallback. */
  function MessageOr<T>(response: Envelope<T>, fallback: string): (m: string)
    ensures response.error.Some? && response.error.value.message != "" ==> m == response.error.value.message
    ensures response.error.None? || response.error.value.message == "" ==> m == fallback
  {
    if response.error.Some? && response.error.value.message != "" then response.error.value.message else fallback
  }

  /** The status attached to a category failure (lines 27-32). */
  function StatusOf<T>(response: Envelope<T>): (status: Option<int>)
    ensures status == Some(403) <==> response.error.Some? && response.error.value.code == "FORBIDDEN"
    ensures status == Some(404) <==> response.error.Some? && response.error.value.code == "NOT_FOUND"
    ensures status.None? <==> response.error.None? || response.error.value.code !in {"FORBIDDEN", "NOT_FOUND"}
  {
    if response.error.None? then None
    else if response.error.value.code == "FORBIDDEN" then Some(403)
    else if response.error.value.code == "NOT_FOUND" then Some(404)
    else None
  }

  /** A subject's lessons (line 54): the data of a successful response, and
      none otherwise. */
  function LessonsOf(response: Envelope<seq<Lesson>>): seq<Lesson> {
    if response.success && response.data.Some? then response.data.value else []
  }

  /** The `subjects.map` stitching (lines 50-56). */
  function Stitch(subjects: seq<Subject>, lessons: string -> Envelope<seq<Lesson>>): (sections: seq<Section>)
    ensures |sections| == |subjects|
    ensures forall i | 0 <= i < |subjects| ::
              sections[i].subject == subjects[i] && sections[i].lessons == LessonsOf(lessons(subjects[i].id))
  {
    if subjects == [] then []
    else Stitch(subjects[..|subjects| - 1], lessons)
         + [Section(subjects[|subjects| - 1], LessonsOf(lessons(subjects[|subjects| - 1].id)))]
  }

  /** The ids of the subjects, in order: one lessons request per subject (lines 43-45). */
  function SubjectIds(subjects: seq<Subject>): (ids: seq<string>)
    ensures |ids| == |subjects|
    ensures forall i | 0 <= i < |subjects| :: ids[i] == subjects[i].id
  {
    if subjects == [] then [] else SubjectIds(subjects[..|subjects| - 1]) + [subjects[|subjects| - 1].id]
  }

  /** A response that fails the `!r.success || !r.data` test. */
  predicate Fails<T>(response: Envelope<T>) {
    !response.success || response.data.None?
  }

  /** `fetchCourseData(categoryId)` (lines 12-62). */
  function FetchCourseData(category: Envelope<Category>, subjects: Envelope<seq<Subject>>,
                           lessons: string -> Envelope<seq<Lesson>>): (f: Fetch)
    ensures f.outcome.Failed? <==> Fails(category) || Fails(subjects)
    ensures f.outcome.Failed? ==> f.lessonRequests == []
  {
    if Fails(category) then
      Fetch(Failed(CourseError(MessageOr(category, CATEGORY_FALLBACK), StatusOf(category))), [])
    else if Fails(subjects) then
      Fetch(Failed(CourseError(MessageOr(subjects, SUBJECTS_FALLBACK), None)), [])
    else
      var list := subjects.data.value;
      Fetch(Loaded(Course(category.data.value, Stitch(list, lessons))), SubjectIds(list))
  }

  /** A category failure is reported whatever the subjects response was: its
      message or the course-details fallback, with 403 for `FORBIDDEN`, 404
      for `NOT_FOUND` and no status otherwise. */
  lemma CategoryFailureFirst(category: Envelope<Category>, subjects: Envelope<seq<Subject>>,
                             lessons: string -> Envelope<seq<Lesson>>)
    requires Fails(category)
    ensures var f := FetchCourseData(category, subjects, lessons);
            && f.outcome == Failed(CourseError(MessageOr(category, CATEGORY_FALLBACK), StatusOf(category)))
            && (category.error.Some? && category.error.value.code == "FORBIDDEN" ==> f.outcome.error.status == Some(403))
            && (category.error.Some? && category.error.value.code == "NOT_FOUND" ==> f.outcome.error.status == Some(404))
  {
  }

  /** With the category in hand, a subjects failure or missing subjects data
      is reported with no status. */
  lemma SubjectsFailure(category: Envelope<Category>, subjects: Envelope<seq<Subject>>,
                        lessons: string -> Envelope<seq<Lesson>>)
    requires !Fails(category) && Fails(subjects)
    ensures FetchCourseData(category, subjects, lessons).outcome
              == Failed(CourseError(MessageOr(subjects, SUBJECTS_FALLBACK), None))
  {
  }

  /** Lesson failures never fail the course: with the category and subjects
      in hand the course loads with the category's fields, one section per
      subject in the response's order, and each section holds the lessons of
      its own subject's response or none. Exactly one lessons request is made
      per subject. */
  lemma LessonFailuresTolerated(category: Envelope<Category>, subjects: Envelope<seq<Subject>>,
                                lessons: string -> Envelope<seq<Lesson>>)
    requires !Fails(category) && !Fails(subjects)
    ensures var f := FetchCourseData(category, subjects, lessons);
            var list := subjects.data.value;
            && f.outcome.Loaded?
            && f.outcome.course.category == category.data.value
            && |f.outcome.course.subjects| == |list| == |f.lessonRequests|
            && forall i | 0 <= i < |list| ::
                 && f.outcome.course.subjects[i].subject == list[i]
                 && f.lessonRequests[i] == list[i].id
                 && var r := lessons(list[i].id);
                    && (r.success && r.data.Some? ==> f.outcome.course.subjects[i].lessons == r.data.value)
                    && (!r.success || r.data.None? ==> f.outcome.course.subjects[i].lessons == [])
  {
  }

  /** Only the lessons responses of the listed subjects matter: two lesson
      sources that agree on those ids give the same result. */
  lemma OnlyListedLessonsMatter(category: Envelope<Category>, subjects: Envelope<seq<Subject>>,
                                l1: string -> Envelope<seq<Lesson>>, l2: string -> Envelope<seq<Lesson>>)
    requires !Fails(subjects)
    requires forall i | 0 <= i < |subjects.data.value| :: l1(subjects.data.value[i].id) == l2(subjects.data.value[i].id)
    ensures FetchCourseData(category, subjects, l1) == FetchCourseData(category, subjects, l2)
  {
    if !Fails(category) {
      var list := subjects.data.value;
      var s1, s2 := Stitch(list, l1), Stitch(list, l2);
      assert forall i | 0 <= i < |list| :: s1[i] == s2[i];
    }
  }

  /** `enabled: !!categoryId` (line 68): the query runs only for a non-empty id. */
  function Enabled(categoryId: string): bool {
    categoryId != ""
  }
}
