/** The user form of components/forms/UserForm.tsx: its schema, its default
    values and the submit step that drops an empty password when editing. */
module UserForm {
  import opened Wrappers
  import opened Validations
  import ApiClient

  const ROLES: set<string> := {"ADMIN", "TEACHER", "STUDENT"}
  const DEFAULT_ROLE := "STUDENT"

  /** The form's values; `password` is optional and may be absent. */
  datatype UserValues = UserValues(name: string, email: string, role: string, password: Option<string>)

  /** The password refinement: a password that is given and non-empty needs
      at least six characters. */
  predicate ShortPassword(password: Option<string>) {
    password.Some? && 0 < |password.value| < 6
  }

  /** `userFormSchema` (lines 29-49). The refinement, reported on `password`,
      runs only when the role is one of the three, since a role outside the
      enum aborts the object. */
  function UserIssues(f: Formats, v: UserValues): (issues: set<Field>)
    ensures issues <= {Name, Email, Role, Password}
    ensures Role in issues <==> v.role !in ROLES
    ensures Password in issues <==> v.role in ROLES && ShortPassword(v.password)
  {
    (if |v.name| < 2 then {Name} else {})
    + (if v.email == "" || !f.email(v.email) then {Email} else {})
    + (if v.role !in ROLES then {Role} else {})
    + (if v.role in ROLES && ShortPassword(v.password) then {Password} else {})
  }

  /** The form is accepted exactly with a name of at least two characters, a
      well-formed e-mail address, one of the three roles and a password that
      is absent, empty or at least six characters long. */
  lemma UserAccepts(f: Formats, v: UserValues)
    requires Sound(f)
    ensures UserIssues(f, v) == {} <==>
              && |v.name| >= 2
              && f.email(v.email)
              && v.role in ROLES
              && (v.password == None || v.password == Some("") || |v.password.value| >= 6)
  {
    var issues := UserIssues(f, v);
    if |v.name| < 2 { assert Name in issues; }
    if !f.email(v.email) { assert Email in issues; }
  }

  /** `defaultValues` (lines 70-75): the user's name, e-mail and role, each
      replaced by its fallback when missing or empty, and an empty password. */
  function UserDefaults(initial: Option<ApiClient.User>): (v: UserValues)
    ensures v.password == Some("")
    ensures initial.None? ==> v == UserValues("", "", DEFAULT_ROLE, Some(""))
    ensures initial.Some? ==>
              && v.name == initial.value.name
              && v.email == initial.value.email
              && (v.role == initial.value.role || (initial.value.role == "" && v.role == DEFAULT_ROLE))
    ensures v.role != ""
  {
    match initial
    case None => UserValues("", "", DEFAULT_ROLE, Some(""))
    case Some(u) => UserValues(u.name, u.email, if u.role != "" then u.role else DEFAULT_ROLE, Some(""))
  }

  /** The untouched defaults never fail on the password, and a new form fails
      exactly on the name and the e-mail address. */
  lemma DefaultsPassword(f: Formats, initial: Option<ApiClient.User>)
    requires Sound(f)
    ensures Password !in UserIssues(f, UserDefaults(initial))
    ensures initial.None? ==> UserIssues(f, UserDefaults(initial)) == {Name, Email}
  {
  }

  datatype Mode = Create | Edit

  /** `handleSubmit` (lines 78-84): in edit mode a missing or empty password
      is deleted from the values before they are passed on. */
  function PrepareSubmit(mode: Mode, v: UserValues): (out: UserValues)
    ensures out.name == v.name && out.email == v.email && out.role == v.role
    ensures mode == Create ==> out == v
    ensures mode == Edit ==> (out.password == None <==> v.password == None || v.password == Some(""))
    ensures out.password.Some? ==> out.password == v.password
  {
    if mode == Edit && (v.password.None? || v.password.value == "") then v.(password := None)
    else v
  }

  /** What is submitted is as valid as what was entered: dropping an empty
      password never adds or removes an issue. */
  lemma SubmitKeepsValidity(f: Formats, mode: Mode, v: UserValues)
    ensures UserIssues(f, PrepareSubmit(mode, v)) == UserIssues(f, v)
  {
  }

  /** Preparing twice is preparing once. */
  lemma PrepareIdempotent(mode: Mode, v: UserValues)
    ensures PrepareSubmit(mode, PrepareSubmit(mode, v)) == PrepareSubmit(mode, v)
  {
  }
}
