/** The material form of components/forms/MaterialForm.tsx. Its initial data is a
    partial set of values; a missing field fails its check. */
module MaterialForm {
  import opened Wrappers
  import opened Validations
  import opened FormState

  datatype MaterialValues = MaterialValues(name: Option<string>, url: Option<string>, lessonId: Option<string>)

  const NEW_MATERIAL := MaterialValues(Some(""), Some(""), Some(""))

  /** `formSchema` (lines 17-21). */
  function MaterialIssues(f: Formats, v: MaterialValues): (issues: set<Field>)
    ensures issues <= {Name, Url, LessonId}
  {
    (if v.name.None? || |v.name.value| < 3 then {Name} else {})
    + (if v.url.None? || !f.url(v.url.value) then {Url} else {})
    + (if v.lessonId.None? || !f.uuid(v.lessonId.value) then {LessonId} else {})
  }

  /** A material is accepted exactly with a name of at least three characters,
      a URL and a UUID lesson. */
  lemma MaterialAccepts(f: Formats, v: MaterialValues)
    ensures MaterialIssues(f, v) == {} <==>
              && v.name.Some? && |v.name.value| >= 3
              && v.url.Some? && f.url(v.url.value)
              && v.lessonId.Some? && f.uuid(v.lessonId.value)
  {
    var issues := MaterialIssues(f, v);
    if v.name.None? || |v.name.value| < 3 { assert Name in issues; }
    if v.url.None? || !f.url(v.url.value) { assert Url in issues; }
  }

  /** `defaultValues` (line 37): the initial data when given, else three
      empty strings. */
  function MaterialDefaults(initial: Option<MaterialValues>): (v: MaterialValues)
    ensures initial.Some? ==> v == initial.value
    ensures initial.None? ==> v.name == Some("") && v.url == Some("") && v.lessonId == Some("")
  {
    initial.GetOr(NEW_MATERIAL)
  }

  /** An untouched new form fails on every field. */
  lemma NewMaterialIssues(f: Formats)
    requires Sound(f)
    ensures MaterialIssues(f, MaterialDefaults(None)) == {Name, Url, LessonId}
  {
  }

  /** `useForm({ defaultValues })`. */
  method NewMaterialForm(initial: Option<MaterialValues>) returns (form: Form<MaterialValues>)
    ensures fresh(form)
    ensures form.values == MaterialDefaults(initial)
  {
    form := new Form(MaterialDefaults(initial));
  }

  /** The reset effect (lines 40-44): new initial data replaces the values. */
  method ResetMaterialForm(form: Form<MaterialValues>, initial: Option<MaterialValues>)
    modifies form
    ensures initial.Some? ==> form.values == initial.value
    ensures initial.None? ==> form.values == old(form.values)
  {
    ResetOnInitialData(form, initial, (v: MaterialValues) => v);
  }
}
