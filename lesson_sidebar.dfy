/** The computed values of components/course/LessonSidebar.tsx: which
    accordion item opens by default, which lesson is the current one, and
    where each lesson links to. */
module LessonSidebar {
  import opened Strings
  import opened CourseData

  /** `lesson.id === currentLessonId` (line 103). */
  predicate IsCurrent(lesson: Lesson, currentLessonId: string) {
    lesson.id == currentLessonId
  }

  /** `subject.lessons.some(...)` (line 31). */
  predicate HoldsCurrent(section: Section, currentLessonId: string) {
    exists j | 0 <= j < |section.lessons| :: IsCurrent(section.lessons[j], currentLessonId)
  }

  /** `course.subjects.findIndex(...)` (lines 30-32): the first section holding
      the current lesson, or -1. */
  function FindSection(sections: seq<Section>, currentLessonId: string): (k: int)
    ensures -1 <= k < |sections|
    ensures k == -1 <==> forall i | 0 <= i < |sections| :: !HoldsCurrent(sections[i], currentLessonId)
    ensures k >= 0 ==> HoldsCurrent(sections[k], currentLessonId)
    ensures k >= 0 ==> forall i | 0 <= i < k :: !HoldsCurrent(sections[i], currentLessonId)
  {
    if sections == [] then -1
    else if HoldsCurrent(sections[0], currentLessonId) then 0
    else
      var k := FindSection(sections[1..], currentLessonId);
      if k == -1 then -1 else k + 1
  }

  /** The search stops at the first section holding the lesson. */
  lemma {:induction false} FindsFirstHolder(sections: seq<Section>, currentLessonId: string, i: nat)
    requires i < |sections| && HoldsCurrent(sections[i], currentLessonId)
    requires forall j | 0 <= j < i :: !HoldsCurrent(sections[j], currentLessonId)
    ensures FindSection(sections, currentLessonId) == i
  {
    if i > 0 {
      assert !HoldsCurrent(sections[0], currentLessonId);
      var rest := sections[1..];
      assert rest[i - 1] == sections[i];
      assert forall j | 0 <= j < i - 1 :: rest[j] == sections[j + 1];
      FindsFirstHolder(rest, currentLessonId, i - 1);
    }
  }

  /** The value of the item at `index` (line 86). */
  function ItemValue(index: nat): string {
    "item-" + NatToString(index)
  }

  /** `defaultAccordionValue` (lines 30-32). */
  function DefaultAccordionValue(course: Course, currentLessonId: string): string {
    "item-" + IntToString(FindSection(course.subjects, currentLessonId))
  }

  /** The item opened by default is the first one whose section holds the
      current lesson, and no item opens when no section holds it (the value
      is then `item--1`). */
  lemma {:induction false} DefaultOpensFirstHolder(course: Course, currentLessonId: string, i: nat)
    ensures DefaultAccordionValue(course, currentLessonId) == ItemValue(i) <==>
              && i < |course.subjects|
              && HoldsCurrent(course.subjects[i], currentLessonId)
              && forall j | 0 <= j < i :: !HoldsCurrent(course.subjects[j], currentLessonId)
  {
    var k := FindSection(course.subjects, currentLessonId);
    var value := DefaultAccordionValue(course, currentLessonId);
    if k == -1 {
      assert value == "item--1";
      assert value[5] != ItemValue(i)[5];
    } else {
      if value == ItemValue(i) {
        assert value[5..] == NatToString(k);
        assert ItemValue(i)[5..] == NatToString(i);
        NatToStringInjective(k, i);
      }
      if && i < |course.subjects| && HoldsCurrent(course.subjects[i], currentLessonId)
         && forall j | 0 <= j < i :: !HoldsCurrent(course.subjects[j], currentLessonId) {
        FindsFirstHolder(course.subjects, currentLessonId, i);
      }
    }
  }

  /** No item has the value used when the current lesson is in no section. */
  lemma NoItemForMissingLesson(course: Course, currentLessonId: string)
    requires forall i | 0 <= i < |course.subjects| :: !HoldsCurrent(course.subjects[i], currentLessonId)
    ensures DefaultAccordionValue(course, currentLessonId) == "item--1"
    ensures forall i: nat :: DefaultAccordionValue(course, currentLessonId) != ItemValue(i)
  {
    forall i: nat ensures DefaultAccordionValue(course, currentLessonId) != ItemValue(i) {
      DefaultOpensFirstHolder(course, currentLessonId, i);
    }
  }

  /** The lesson link (line 107). */
  function LessonHref(courseId: string, lessonId: string): (href: string)
    ensures StartsWith(href, "/courses/")
  {
    "/courses/" + courseId + "/lessons/" + lessonId
  }

  /** A link can be read back: its segments are the two fixed words and the
      two ids, when the ids hold no `/`. */
  lemma {:induction false} LessonHrefSegments(courseId: string, lessonId: string)
    requires '/' !in courseId && '/' !in lessonId
    ensures Split(LessonHref(courseId, lessonId), '/') == ["", "courses", courseId, "lessons", lessonId]
  {
    var href := LessonHref(courseId, lessonId);
    assert href == [] + ['/'] + ("courses" + ['/'] + (courseId + ['/'] + ("lessons" + ['/'] + lessonId)));
    SplitCons([], "courses" + ['/'] + (courseId + ['/'] + ("lessons" + ['/'] + lessonId)), '/');
    SplitCons("courses", courseId + ['/'] + ("lessons" + ['/'] + lessonId), '/');
    SplitCons(courseId, "lessons" + ['/'] + lessonId, '/');
    SplitCons("lessons", lessonId, '/');
    SplitNoSep(lessonId, '/');
  }

  /** Different lessons of one course get different links. */
  lemma LessonHrefInjective(courseId: string, a: string, b: string)
    requires LessonHref(courseId, a) == LessonHref(courseId, b)
    ensures a == b
  {
    var n := |"/courses/" + courseId + "/lessons/"|;
    assert a == LessonHref(courseId, a)[n..];
    assert b == LessonHref(courseId, b)[n..];
  }
}
