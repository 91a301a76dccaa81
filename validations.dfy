/** The zod schemas of lib/validations.ts as functions from a form's values to
    the set of fields that fail, and the shared format checks.

    zod's `email()`, `url()` and `uuid()` regular expressions are outside the
    model: they are the oracle predicates of a `Formats` value, of which the
    model assumes only that the empty string is none of them. JavaScript
    numbers are `real`s.

    An object refinement runs only when every field at least has the right
    kind of value; a value outside a `z.enum` is not one, so such a value hides
    the refinement's issue. String length checks fail without hiding it. */
module Validations {
  import opened Wrappers

  /** The form fields a schema can report an issue on. */
  datatype Field =
    | Name | Email | Password | ConfirmPassword | Role
    | ImageUrl | LearningObjectiveId | Difficulty | OptionA | OptionB | OptionC | OptionD | OptionE | CorrectAnswer
    | QuestionIds | SubjectId | Order | CategoryId | VideoUrl | Url | LessonId

  /** zod's `email()`, `url()` and `uuid()` checks. */
  datatype Formats = Formats(email: string -> bool, url: string -> bool, uuid: string -> bool)

  /** What the model knows of the format checks: the empty string is not an
      e-mail address, a URL or a UUID. */
  predicate Sound(f: Formats) {
    !f.email("") && !f.url("") && !f.uuid("")
  }

  /** `z.number().int()` */
  predicate IsInteger(x: real) {
    x.Floor as real == x
  }

  datatype LoginValues = LoginValues(email: string, password: string)

  /** `loginSchema` (lines 4-13). */
  function LoginIssues(f: Formats, v: LoginValues): (issues: set<Field>)
    ensures issues <= {Email, Password}
  {
    (if v.email == "" || !f.email(v.email) then {Email} else {})
    + (if |v.password| < 6 then {Password} else {})
  }

  /** A login form is accepted exactly with a well-formed e-mail address and a
      password of at least six characters. */
  lemma LoginAccepts(f: Formats, v: LoginValues)
    requires Sound(f)
    ensures LoginIssues(f, v) == {} <==> f.email(v.email) && |v.password| >= 6
  {
    if !f.email(v.email) { assert Email in LoginIssues(f, v); }
    if |v.password| < 6 { assert Password in LoginIssues(f, v); }
  }

  const REGISTER_ROLES: set<string> := {"ADMIN", "TEACHER", "STUDENT", "PARENT"}

  datatype RegisterValues = RegisterValues(name: string, email: string, password: string,
                                           confirmPassword: string, role: string)

  /** `registerSchema` (lines 15-40): the field checks, then the refinement
      that puts "Passwords don't match" on `confirmPassword`. */
  function RegisterIssues(f: Formats, v: RegisterValues): (issues: set<Field>)
    ensures issues <= {Name, Email, Password, ConfirmPassword, Role}
  {
    var fields :=
      (if |v.name| < 2 || |v.name| > 50 then {Name} else {})
      + (if v.email == "" || !f.email(v.email) then {Email} else {})
      + (if |v.password| < 6 || |v.password| > 100 then {Password} else {})
      + (if v.confirmPassword == "" then {ConfirmPassword} else {})
      + (if v.role !in REGISTER_ROLES then {Role} else {});
    var refined := v.role in REGISTER_ROLES && v.password != v.confirmPassword;
    fields + (if refined then {ConfirmPassword} else {})
  }

  /** A registration is accepted exactly when the name has 2 to 50
      characters, the e-mail is well formed, the password has 6 to 100
      characters and is repeated, and the role is one of the four. */
  lemma RegisterAccepts(f: Formats, v: RegisterValues)
    requires Sound(f)
    ensures RegisterIssues(f, v) == {} <==>
              && 2 <= |v.name| <= 50
              && f.email(v.email)
              && 6 <= |v.password| <= 100
              && v.confirmPassword == v.password
              && v.role in REGISTER_ROLES
  {
    var issues := RegisterIssues(f, v);
    if !(2 <= |v.name| <= 50) { assert Name in issues; }
    if !f.email(v.email) { assert Email in issues; }
    if !(6 <= |v.password| <= 100) { assert Password in issues; }
    if v.role !in REGISTER_ROLES { assert Role in issues; }
    if v.confirmPassword != v.password { assert ConfirmPassword in issues || Role in issues; }
  }

  /** Mismatched passwords are reported on `confirmPassword`, even when every
      field passes its own checks. */
  lemma MismatchOnConfirm(f: Formats, v: RegisterValues)
    requires v.role in REGISTER_ROLES
    requires v.password != v.confirmPassword
    ensures ConfirmPassword in RegisterIssues(f, v)
  {
  }

  const ANSWERS: set<string> := {"a", "b", "c", "d", "e"}

  datatype QuestionValues = QuestionValues(imageUrl: string, learningObjectiveId: string, difficulty: real,
                                           optionA: string, optionB: string, optionC: string,
                                           optionD: string, optionE: string, correctAnswer: string)

  /** `questionFormSchema` (lines 42-55). */
  function QuestionIssues(f: Formats, v: QuestionValues): (issues: set<Field>)
    ensures issues <= {ImageUrl, LearningObjectiveId, Difficulty, OptionA, OptionB,
                       OptionC, OptionD, OptionE, CorrectAnswer}
  {
    (if !f.url(v.imageUrl) then {ImageUrl} else {})
    + (if v.learningObjectiveId == "" then {LearningObjectiveId} else {})
    + (if v.difficulty < 1.0 || v.difficulty > 10.0 then {Difficulty} else {})
    + (if v.optionA == "" then {OptionA} else {})
    + (if v.optionB == "" then {OptionB} else {})
    + (if v.optionC == "" then {OptionC} else {})
    + (if v.optionD == "" then {OptionD} else {})
    + (if v.optionE == "" then {OptionE} else {})
    + (if v.correctAnswer !in ANSWERS then {CorrectAnswer} else {})
  }

  /** A question is accepted exactly with a URL image, an objective, a
      difficulty in [1, 10], five non-empty options and an answer from a to e. */
  lemma QuestionAccepts(f: Formats, v: QuestionValues)
    ensures QuestionIssues(f, v) == {} <==>
              && f.url(v.imageUrl)
              && v.learningObjectiveId != ""
              && 1.0 <= v.difficulty <= 10.0
              && v.optionA != "" && v.optionB != "" && v.optionC != "" && v.optionD != "" && v.optionE != ""
              && v.correctAnswer in ANSWERS
  {
    var issues := QuestionIssues(f, v);
    if !f.url(v.imageUrl) { assert ImageUrl in issues; }
    if v.learningObjectiveId == "" { assert LearningObjectiveId in issues; }
    if !(1.0 <= v.difficulty <= 10.0) { assert Difficulty in issues; }
    if v.optionA == "" { assert OptionA in issues; }
    if v.optionB == "" { assert OptionB in issues; }
    if v.optionC == "" { assert OptionC in issues; }
    if v.optionD == "" { assert OptionD in issues; }
    if v.optionE == "" { assert OptionE in issues; }
    if v.correctAnswer !in ANSWERS { assert CorrectAnswer in issues; }
  }

  datatype TestQuestion = TestQuestion(questionId: string, order: real)

  datatype TestValues = TestValues(name: string, description: Option<string>, questionIds: seq<TestQuestion>)

  /** Every entry of the question list is valid: an id and an order of at least 0. */
  predicate EntriesValid(entries: seq<TestQuestion>) {
    forall i | 0 <= i < |entries| :: entries[i].questionId != "" && entries[i].order >= 0.0
  }

  /** `testFormSchema` (lines 57-68); an invalid entry is reported on the list. */
  function TestIssues(v: TestValues): (issues: set<Field>)
    ensures issues <= {Name, QuestionIds}
    ensures QuestionIds in issues <==> v.questionIds == [] || !EntriesValid(v.questionIds)
  {
    (if v.name == "" then {Name} else {})
    + (if v.questionIds == [] || !EntriesValid(v.questionIds) then {QuestionIds} else {})
  }

  /** A test is accepted exactly with a name and at least one question, each
      with an id and a non-negative order; the description is free. */
  lemma TestAccepts(v: TestValues)
    ensures TestIssues(v) == {} <==> v.name != "" && |v.questionIds| >= 1 && EntriesValid(v.questionIds)
    ensures TestIssues(v) == TestIssues(v.(description := None))
  {
    if v.name == "" { assert Name in TestIssues(v); }
  }

  datatype LearningObjectiveValues = LearningObjectiveValues(name: string, subjectId: string, order: real)

  /** `learningObjectiveFormSchema` (lines 70-74). */
  function LearningObjectiveIssues(f: Formats, v: LearningObjectiveValues): (issues: set<Field>)
    ensures issues <= {Name, SubjectId, Order}
  {
    (if |v.name| < 3 then {Name} else {})
    + (if !f.uuid(v.subjectId) then {SubjectId} else {})
    + (if !IsInteger(v.order) || v.order < 1.0 then {Order} else {})
  }

  /** A learning objective is accepted exactly with a name of at least three
      characters, a UUID subject and a whole order of at least 1; so an
      unselected subject (the empty string) is refused. */
  lemma LearningObjectiveAccepts(f: Formats, v: LearningObjectiveValues)
    ensures LearningObjectiveIssues(f, v) == {} <==>
              |v.name| >= 3 && f.uuid(v.subjectId) && IsInteger(v.order) && v.order >= 1.0
    ensures Sound(f) && v.subjectId == "" ==> SubjectId in LearningObjectiveIssues(f, v)
  {
    var issues := LearningObjectiveIssues(f, v);
    if |v.name| < 3 { assert Name in issues; }
    if !f.uuid(v.subjectId) { assert SubjectId in issues; }
    if !IsInteger(v.order) || v.order < 1.0 { assert Order in issues; }
  }
}
