/** The category form of components/forms/CategoryForm.tsx: its schema, the
    default values built from a category, the values the reset effect
    applies, and the allowed-students checkbox list. */
module CategoryForm {
  import opened Wrappers
  import opened Validations
  import opened Seqs
  import opened FormState

  /** The category being edited, as the form reads it: the flags and the
      allowed users may be missing; `allowedUsers` is given by the users' ids. */
  datatype Category = Category(name: string, order: real, isPublished: Option<bool>,
                               isPublic: Option<bool>, allowedUsers: Option<seq<string>>)

  datatype CategoryValues = CategoryValues(name: string, order: real, isPublished: Option<bool>,
                                           isPublic: Option<bool>, allowedUserIds: Option<seq<string>>)

  /** `formSchema` (lines 19-25): a name of at least three characters and a
      positive whole order; the flags and the id list are free. */
  function CategoryIssues(v: CategoryValues): (issues: set<Field>)
    ensures issues <= {Name, Order}
  {
    (if |v.name| < 3 then {Name} else {})
    + (if !IsInteger(v.order) || v.order <= 0.0 then {Order} else {})
  }

  lemma CategoryAccepts(v: CategoryValues)
    ensures CategoryIssues(v) == {} <==> |v.name| >= 3 && IsInteger(v.order) && v.order > 0.0
    ensures CategoryIssues(v) == CategoryIssues(v.(isPublished := None, isPublic := None, allowedUserIds := None))
  {
    if |v.name| < 3 { assert Name in CategoryIssues(v); }
  }

  /** `defaultValues` (lines 43-49): an order of 0 (falsy) becomes 1, a
      missing flag becomes false, and missing allowed users an empty list. */
  function CategoryDefaults(initial: Option<Category>): (v: CategoryValues)
    ensures v.isPublished.Some? && v.isPublic.Some? && v.allowedUserIds.Some?
    ensures v.order != 0.0
    ensures initial.None? ==> v == CategoryValues("", 1.0, Some(false), Some(false), Some([]))
    ensures initial.Some? ==>
              var c := initial.value;
              && v.name == c.name
              && v.order == (if c.order == 0.0 then 1.0 else c.order)
              && v.isPublished == Some(c.isPublished.GetOr(false))
              && v.isPublic == Some(c.isPublic.GetOr(false))
              && v.allowedUserIds == Some(c.allowedUsers.GetOr([]))
  {
    match initial
    case None => CategoryValues("", 1.0, Some(false), Some(false), Some([]))
    case Some(c) =>
      CategoryValues(c.name, if c.order == 0.0 then 1.0 else c.order,
                     Some(c.isPublished.GetOr(false)), Some(c.isPublic.GetOr(false)),
                     Some(c.allowedUsers.GetOr([])))
  }

  /** The values of the reset effect (lines 57-67): the category's fields
      without the fallbacks, except the id list. */
  function ResetValues(c: Category): (v: CategoryValues)
    ensures v.name == c.name && v.order == c.order
    ensures v.isPublished == c.isPublished && v.isPublic == c.isPublic
    ensures v.allowedUserIds == Some(c.allowedUsers.GetOr([]))
  {
    CategoryValues(c.name, c.order, c.isPublished, c.isPublic, Some(c.allowedUsers.GetOr([])))
  }

  /** The defaults and the reset values agree exactly when no fallback
      applies: a non-zero order and both flags present. */
  lemma DefaultsMatchReset(c: Category)
    ensures CategoryDefaults(Some(c)) == ResetValues(c) <==>
              c.order != 0.0 && c.isPublished.Some? && c.isPublic.Some?
  {
    if CategoryDefaults(Some(c)) == ResetValues(c) {
      assert CategoryDefaults(Some(c)).order == ResetValues(c).order;
    }
  }

  /** The fallbacks never hide an issue the category's own order has, except
      an order of 0, which the default turns into 1; a new form fails on the
      name only. */
  lemma DefaultsIssues(c: Category)
    ensures CategoryIssues(CategoryDefaults(None)) == {Name}
    ensures c.order != 0.0 ==> CategoryIssues(CategoryDefaults(Some(c))) == CategoryIssues(ResetValues(c))
    ensures c.order == 0.0 ==> Order in CategoryIssues(ResetValues(c)) && Order !in CategoryIssues(CategoryDefaults(Some(c)))
  {
    assert IsInteger(1.0);
    assert IsInteger(0.0);
  }

  /** `field.value?.includes(id)`: whether a student's box is checked. */
  predicate Checked(value: Option<seq<string>>, id: string) {
    value.Some? && id in value.value
  }

  /** The checkbox's `onChange` (lines 199-208): checking appends the id to
      the list (an empty one when missing); unchecking keeps every other id
      in order, and a missing list stays missing. */
  function CheckboxChange(value: Option<seq<string>>, id: string, checked: bool): (next: Option<seq<string>>)
    ensures checked ==> next == Some(value.GetOr([]) + [id]) && Checked(next, id)
    ensures !checked ==> !Checked(next, id)
    ensures !checked && value.Some? ==>
              next.Some? && IsSubsequence(next.value, value.value)
              && (forall other | other != id :: multiset(next.value)[other] == multiset(value.value)[other])
    ensures !checked && value.None? ==> next.None?
  {
    if checked then Some(value.GetOr([]) + [id])
    else match value
      case None => None
      case Some(ids) =>
        RemoveAllSubsequence(ids, id);
        RemoveAllCounts(ids, id);
        Some(RemoveAll(ids, id))
  }

  /** Checking a box that was not checked and unchecking it again gives the
      list back. */
  lemma {:induction false} CheckUncheck(ids: seq<string>, id: string)
    requires id !in ids
    ensures CheckboxChange(CheckboxChange(Some(ids), id, true), id, false) == Some(ids)
  {
    assert CheckboxChange(Some(ids), id, true) == Some(ids + [id]);
    RemoveAllConcat(ids, [id], id);
    RemoveAbsent(ids, id);
    assert [id][1..] == [];
    assert RemoveAll([id], id) == [];
    assert RemoveAll(ids + [id], id) == ids + [];
    assert ids + [] == ids;
    assert CheckboxChange(Some(ids + [id]), id, false) == Some(RemoveAll(ids + [id], id));
  }

  /** Unchecking twice is unchecking once. */
  lemma UncheckIdempotent(value: Option<seq<string>>, id: string)
    ensures CheckboxChange(CheckboxChange(value, id, false), id, false) == CheckboxChange(value, id, false)
  {
    if value.Some? {
      RemoveAbsent(RemoveAll(value.value, id), id);
    }
  }

  /** `useForm({ defaultValues })`. */
  method NewCategoryForm(initial: Option<Category>) returns (form: Form<CategoryValues>)
    ensures fresh(form)
    ensures form.values == CategoryDefaults(initial)
  {
    form := new Form(CategoryDefaults(initial));
  }

  /** The reset effect (lines 57-67). */
  method ResetCategoryForm(form: Form<CategoryValues>, initial: Option<Category>)
    modifies form
    ensures initial.Some? ==> form.values == ResetValues(initial.value)
    ensures initial.None? ==> form.values == old(form.values)
  {
    ResetOnInitialData(form, initial, ResetValues);
  }

  /** A student's checkbox changes the `allowedUserIds` field only. */
  method ToggleStudent(form: Form<CategoryValues>, id: string, checked: bool)
    modifies form
    ensures form.values == old(form.values).(allowedUserIds := CheckboxChange(old(form.values.allowedUserIds), id, checked))
  {
    form.Reset(form.values.(allowedUserIds := CheckboxChange(form.values.allowedUserIds, id, checked)));
  }
}
