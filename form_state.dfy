/** The part of react-hook-form the forms rely on: a form holds its current
    values, starts from its default values and can be reset to new ones. */
module FormState {
  import opened Wrappers

  /** A form's state: the values its fields currently hold. */
  class Form<T> {
    var values: T

    /** `useForm({ defaultValues })`: the fields start at the defaults. */
    constructor(defaults: T)
      ensures values == defaults
    {
      values := defaults;
    }

    /** `form.reset(next)`: every field takes its value from `next`. */
    method Reset(next: T)
      modifies this
      ensures values == next
    {
      values := next;
    }
  }

  /** The forms' `useEffect(() => { if (initialData) form.reset(...) })`: new
      initial data, mapped to form values by `toValues`, replaces the form's
      values; without initial data the form keeps what it holds. */
  method ResetOnInitialData<I, T>(form: Form<T>, initial: Option<I>, toValues: I -> T)
    modifies form
    ensures initial.Some? ==> form.values == toValues(initial.value)
    ensures initial.None? ==> form.values == old(form.values)
  {
    if initial.Some? {
      form.Reset(toValues(initial.value));
    }
  }
}
