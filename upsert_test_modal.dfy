/** The submit step of components/modal/UpsertTestModal.tsx: the payload sent
    for a test, with the questions renumbered by position, and the choice
    between creating and updating. */
module UpsertTestModal {
  import opened Wrappers
  import opened Validations
  import TestForm

  datatype PayloadQuestion = PayloadQuestion(questionId: string, order: nat)

  datatype TestPayload = TestPayload(name: string, description: Option<string>, questions: seq<PayloadQuestion>)

  /** The mutation the modal starts. */
  datatype TestMutation = CreateTest(data: TestPayload) | UpdateTest(id: string, data: TestPayload)

  /** The `apiData` of `handleSubmit` (lines 33-42): the name and the
      description as entered, and each question's id with its position,
      counted from 1, as its order. */
  function TestPayloadOf(v: TestValues): (p: TestPayload)
    ensures p.name == v.name && p.description == v.description
    ensures |p.questions| == |v.questionIds|
    ensures forall i | 0 <= i < |p.questions| :: p.questions[i].questionId == v.questionIds[i].questionId
    ensures forall i | 0 <= i < |p.questions| :: p.questions[i].order == i + 1
  {
    TestPayload(v.name, v.description,
                seq(|v.questionIds|, i requires 0 <= i < |v.questionIds| =>
                      PayloadQuestion(v.questionIds[i].questionId, i + 1)))
  }

  /** The orders the form held do not matter: two lists with the same ids in
      the same order give the same payload. */
  lemma OrdersIgnored(v: TestValues, w: TestValues)
    requires v.name == w.name && v.description == w.description
    requires |v.questionIds| == |w.questionIds|
    requires forall i | 0 <= i < |v.questionIds| :: v.questionIds[i].questionId == w.questionIds[i].questionId
    ensures TestPayloadOf(v) == TestPayloadOf(w)
  {
  }

  /** The payload's orders are 1 to n without gaps, so a removal in the form
      leaves no hole in the numbering, and every order the schema checks is
      non-negative. */
  lemma OrdersAreConsecutive(v: TestValues)
    ensures var qs := TestPayloadOf(v).questions;
            && (qs != [] ==> qs[0].order == 1 && qs[|qs| - 1].order == |qs|)
            && (forall i | 0 <= i < |qs| - 1 :: qs[i + 1].order == qs[i].order + 1)
  {
  }

  /** After removing entry `index` from the form, the entries behind it move
      up one place and take the order of the place they move into. */
  lemma RemovalRenumbers(v: TestValues, index: int)
    requires 0 <= index < |v.questionIds|
    ensures var before := TestPayloadOf(v).questions;
            var after := TestPayloadOf(v.(questionIds := TestForm.RemovedAt(v.questionIds, index))).questions;
            && |after| == |before| - 1
            && (forall i | 0 <= i < index :: after[i] == before[i])
            && (forall i | index <= i < |after| :: after[i] == PayloadQuestion(before[i + 1].questionId, i + 1))
  {
  }

  /** `handleSubmit`'s dispatch (lines 44-69): a test given to the modal is
      updated under its id, and without one a test is created. */
  function Dispatch(test: Option<TestForm.Test>, v: TestValues): (m: TestMutation)
    ensures m.data == TestPayloadOf(v)
    ensures m.UpdateTest? <==> test.Some?
    ensures m.UpdateTest? ==> m.id == test.value.id
  {
    if test.Some? then UpdateTest(test.value.id, TestPayloadOf(v)) else CreateTest(TestPayloadOf(v))
  }
}
