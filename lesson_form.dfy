/** The lesson form of components/forms/LessonForm.tsx. Its initial data is a
    partial set of values; a missing field fails its check. */
module LessonForm {
  import opened Wrappers
  import opened Validations
  import opened FormState

  datatype LessonValues = LessonValues(name: Option<string>, videoUrl: Option<string>, subjectId: Option<string>)

  const NEW_LESSON := LessonValues(Some(""), Some(""), Some(""))

  /** `formSchema` (lines 18-22). */
  function LessonIssues(f: Formats, v: LessonValues): (issues: set<Field>)
    ensures issues <= {Name, VideoUrl, SubjectId}
  {
    (if v.name.None? || |v.name.value| < 3 then {Name} else {})
    + (if v.videoUrl.None? || !f.url(v.videoUrl.value) then {VideoUrl} else {})
    + (if v.subjectId.None? || !f.uuid(v.subjectId.value) then {SubjectId} else {})
  }

  /** A lesson is accepted exactly with a name of at least three characters,
      a URL and a UUID subject. */
  lemma LessonAccepts(f: Formats, v: LessonValues)
    ensures LessonIssues(f, v) == {} <==>
              && v.name.Some? && |v.name.value| >= 3
              && v.videoUrl.Some? && f.url(v.videoUrl.value)
              && v.subjectId.Some? && f.uuid(v.subjectId.value)
  {
    var issues := LessonIssues(f, v);
    if v.name.None? || |v.name.value| < 3 { assert Name in issues; }
    if v.videoUrl.None? || !f.url(v.videoUrl.value) { assert VideoUrl in issues; }
  }

  /** `defaultValues` (line 40): the initial data when given, else three
      empty strings. */
  function LessonDefaults(initial: Option<LessonValues>): (v: LessonValues)
    ensures initial.Some? ==> v == initial.value
    ensures initial.None? ==> v.name == Some("") && v.videoUrl == Some("") && v.subjectId == Some("")
  {
    initial.GetOr(NEW_LESSON)
  }

  /** An untouched new form fails on every field. */
  lemma NewLessonIssues(f: Formats)
    requires Sound(f)
    ensures LessonIssues(f, LessonDefaults(None)) == {Name, VideoUrl, SubjectId}
  {
  }

  /** `useForm({ defaultValues })`. */
  method NewLessonForm(initial: Option<LessonValues>) returns (form: Form<LessonValues>)
    ensures fresh(form)
    ensures form.values == LessonDefaults(initial)
  {
    form := new Form(LessonDefaults(initial));
  }

  /** The reset effect (lines 43-47): new initial data replaces the values. */
  method ResetLessonForm(form: Form<LessonValues>, initial: Option<LessonValues>)
    modifies form
    ensures initial.Some? ==> form.values == initial.value
    ensures initial.None? ==> form.values == old(form.values)
  {
    ResetOnInitialData(form, initial, (v: LessonValues) => v);
  }
}
