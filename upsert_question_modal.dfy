/** The submit step of components/modal/UpsertQuestionModal.tsx: the payload
    built from the question form's values, and the choice between creating
    and updating. */
module UpsertQuestionModal {
  import opened Wrappers
  import opened Validations
  import QuestionForm

  datatype PayloadOptions = PayloadOptions(a: string, b: string, c: string, d: string, e: string)

  /** The `apiData` object: exactly these five fields. */
  datatype QuestionPayload = QuestionPayload(imageUrl: string, learningObjectiveId: string, difficulty: real,
                                             correctAnswer: string, options: PayloadOptions)

  datatype QuestionMutation = CreateQuestion(data: QuestionPayload) | UpdateQuestion(id: string, data: QuestionPayload)

  /** `handleSubmit`'s payload (lines 33-49): options `a` to `e` from
      `optionA` to `optionE`, the other fields copied. */
  function QuestionPayloadOf(v: QuestionValues): (p: QuestionPayload)
    ensures p.imageUrl == v.imageUrl && p.learningObjectiveId == v.learningObjectiveId
    ensures p.difficulty == v.difficulty && p.correctAnswer == v.correctAnswer
    ensures p.options == PayloadOptions(v.optionA, v.optionB, v.optionC, v.optionD, v.optionE)
  {
    QuestionPayload(v.imageUrl, v.learningObjectiveId, v.difficulty, v.correctAnswer,
                    PayloadOptions(v.optionA, v.optionB, v.optionC, v.optionD, v.optionE))
  }

  /** The payload loses nothing: the form values can be read back from it. */
  lemma PayloadInjective(v: QuestionValues, w: QuestionValues)
    requires QuestionPayloadOf(v) == QuestionPayloadOf(w)
    ensures v == w
  {
  }

  /** A payload built from accepted values has five non-empty options and an
      answer naming one of them. */
  lemma AcceptedPayload(f: Formats, v: QuestionValues)
    requires QuestionIssues(f, v) == {}
    ensures var p := QuestionPayloadOf(v);
            && p.options.a != "" && p.options.b != "" && p.options.c != "" && p.options.d != "" && p.options.e != ""
            && p.correctAnswer in ANSWERS
            && 1.0 <= p.difficulty <= 10.0
  {
    QuestionAccepts(f, v);
  }

  /** Opening a question whose five options are all present and submitting
      the form untouched sends the question's own fields back. */
  lemma UntouchedEditRoundTrip(q: QuestionForm.QuestionData, a: string, b: string, c: string, d: string, e: string)
    requires q.options == Some(QuestionForm.Options(Some(a), Some(b), Some(c), Some(d), Some(e)))
    ensures QuestionPayloadOf(QuestionForm.QuestionDefaults(Some(q)))
              == QuestionPayload(q.imageUrl, q.learningObjectiveId, q.difficulty, q.correctAnswer,
                                 PayloadOptions(a, b, c, d, e))
  {
  }

  /** The dispatch (lines 52-77): a question given to the modal is updated
      under its id, and without one a question is created. */
  function Dispatch(questionId: Option<string>, v: QuestionValues): (m: QuestionMutation)
    ensures m.data == QuestionPayloadOf(v)
    ensures m.UpdateQuestion? <==> questionId.Some?
    ensures m.UpdateQuestion? ==> m.id == questionId.value
  {
    if questionId.Some? then UpdateQuestion(questionId.value, QuestionPayloadOf(v)) else CreateQuestion(QuestionPayloadOf(v))
  }
}
