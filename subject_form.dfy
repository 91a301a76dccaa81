/** The subject form of components/forms/SubjectForm.tsx. Its initial data is
    a partial set of values, so every field may be missing; a missing field
    fails its check. */
module SubjectForm {
  import opened Wrappers
  import opened Validations
  import opened FormState

  datatype SubjectValues = SubjectValues(name: Option<string>, order: Option<real>, categoryId: Option<string>)

  /** What `handleSubmit` passes on: every field present. */
  datatype SubjectPayload = SubjectPayload(name: string, order: real, categoryId: string)

  const NEW_SUBJECT := SubjectValues(Some(""), Some(1.0), Some(""))

  /** `formSchema` (lines 18-22). */
  function SubjectIssues(v: SubjectValues): (issues: set<Field>)
    ensures issues <= {Name, Order, CategoryId}
  {
    (if v.name.None? || |v.name.value| < 3 then {Name} else {})
    + (if v.order.None? || !IsInteger(v.order.value) || v.order.value <= 0.0 then {Order} else {})
    + (if v.categoryId.None? || v.categoryId.value == "" then {CategoryId} else {})
  }

  /** A subject is accepted exactly with a name of at least three characters,
      a positive whole order and a category. */
  lemma SubjectAccepts(v: SubjectValues)
    ensures SubjectIssues(v) == {} <==>
              && v.name.Some? && |v.name.value| >= 3
              && v.order.Some? && IsInteger(v.order.value) && v.order.value > 0.0
              && v.categoryId.Some? && v.categoryId.value != ""
  {
    var issues := SubjectIssues(v);
    if v.name.None? || |v.name.value| < 3 { assert Name in issues; }
    if v.categoryId.None? || v.categoryId.value == "" { assert CategoryId in issues; }
  }

  /** `defaultValues` (line 40): the initial data when given (an object, so
      truthy even when empty), else an empty name, order 1 and no category. */
  function SubjectDefaults(initial: Option<SubjectValues>): (v: SubjectValues)
    ensures initial.Some? ==> v == initial.value
    ensures initial.None? ==> v.name == Some("") && v.order == Some(1.0) && v.categoryId == Some("")
  {
    initial.GetOr(NEW_SUBJECT)
  }

  /** An untouched new form is refused on its name and its category only. */
  lemma NewSubjectIssues()
    ensures SubjectIssues(SubjectDefaults(None)) == {Name, CategoryId}
  {
    assert IsInteger(1.0);
  }

  /** `handleSubmit` (lines 49-56): the validated values with the order passed
      through `Number`, which leaves a number unchanged. */
  function SubjectSubmit(v: SubjectValues): (p: SubjectPayload)
    requires SubjectIssues(v) == {}
    ensures Some(p.name) == v.name && Some(p.order) == v.order && Some(p.categoryId) == v.categoryId
    ensures |p.name| >= 3 && IsInteger(p.order) && p.order >= 1.0 && p.categoryId != ""
  {
    SubjectAccepts(v);
    SubjectPayload(v.name.value, v.order.value, v.categoryId.value)
  }

  /** `useForm({ defaultValues })`. */
  method NewSubjectForm(initial: Option<SubjectValues>) returns (form: Form<SubjectValues>)
    ensures fresh(form)
    ensures form.values == SubjectDefaults(initial)
  {
    form := new Form(SubjectDefaults(initial));
  }

  /** The reset effect (lines 43-47): new initial data replaces the values. */
  method ResetSubjectForm(form: Form<SubjectValues>, initial: Option<SubjectValues>)
    modifies form
    ensures initial.Some? ==> form.values == initial.value
    ensures initial.None? ==> form.values == old(form.values)
  {
    ResetOnInitialData(form, initial, (v: SubjectValues) => v);
  }
}
