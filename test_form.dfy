/** The question handling of components/forms/TestForm.tsx: the list of
    available questions merged by id from the fetched questions and the test
    being edited, the selected-question field array with its add, remove and
    toggle operations, the lookup by id, the grouping by learning objective
    and the search filter over the groups. */
module TestForm {
  import opened Wrappers
  import opened Strings
  import opened Seqs
  import opened Validations

  /** A question, as far as the form looks at it. */
  datatype Question = Question(id: string, learningObjectiveId: string, imageUrl: string, difficulty: real)

  /** An entry of a test's question list; the question itself may be missing. */
  datatype TestLink = TestLink(questionId: string, order: real, question: Option<Question>)

  /** The test being edited. */
  datatype Test = Test(id: string, name: string, description: Option<string>, questions: Option<seq<TestLink>>)

  function Ids(qs: seq<Question>): (ids: seq<string>)
    ensures |ids| == |qs|
    ensures forall i | 0 <= i < |qs| :: ids[i] == qs[i].id
  {
    seq(|qs|, i requires 0 <= i < |qs| => qs[i].id)
  }

  predicate DistinctIds(qs: seq<Question>) {
    forall i, j | 0 <= i < j < |qs| :: qs[i].id != qs[j].id
  }

  // ----- Merging the available questions -----

  /** `Map.set(q.id, q)` on a map read in insertion order: a question whose
      id is present takes that entry's place, any other is appended. */
  function Put(entries: seq<Question>, q: Question): (r: seq<Question>)
    ensures q in r
  {
    if entries == [] then [q]
    else if entries[0].id == q.id then [q] + entries[1..]
    else [entries[0]] + Put(entries[1..], q)
  }

  /** With distinct ids, putting a present id replaces that one entry. */
  lemma {:induction false} PutPresent(entries: seq<Question>, q: Question, i: int)
    requires DistinctIds(entries)
    requires 0 <= i < |entries| && entries[i].id == q.id
    ensures Put(entries, q) == entries[i := q]
    decreases |entries|
  {
    if i > 0 {
      PutPresent(entries[1..], q, i - 1);
      assert entries[i := q] == [entries[0]] + entries[1..][i - 1 := q];
    }
  }

  /** Putting an absent id appends. */
  lemma {:induction false} PutAbsent(entries: seq<Question>, q: Question)
    requires q.id !in Ids(entries)
    ensures Put(entries, q) == entries + [q]
    decreases |entries|
  {
    if entries != [] {
      assert Ids(entries)[0] == entries[0].id;
      assert forall k | k in Ids(entries[1..]) :: k in Ids(entries) by {
        assert Ids(entries[1..]) == Ids(entries)[1..];
      }
      PutAbsent(entries[1..], q);
      assert entries == [entries[0]] + entries[1..];
    }
  }

  /** One `set` on the ids: a present id leaves them as they are, an absent
      one is appended. */
  lemma PutIds(entries: seq<Question>, q: Question)
    requires DistinctIds(entries)
    ensures Ids(Put(entries, q)) == if q.id in Ids(entries) then Ids(entries) else Ids(entries) + [q.id]
  {
    if q.id in Ids(entries) {
      var i :| 0 <= i < |entries| && Ids(entries)[i] == q.id;
      PutPresent(entries, q, i);
      IdsUpdate(entries, i, q);
    } else {
      PutAbsent(entries, q);
      IdsSnoc(entries, q);
    }
  }

  /** Replacing an entry by one with its id leaves the ids as they are. */
  lemma IdsUpdate(entries: seq<Question>, i: int, q: Question)
    requires 0 <= i < |entries| && entries[i].id == q.id
    ensures Ids(entries[i := q]) == Ids(entries)
  {
    var a, b := Ids(entries[i := q]), Ids(entries);
    assert |a| == |b|;
    forall j | 0 <= j < |a| ensures a[j] == b[j] {}
  }

  /** Appending an entry appends its id. */
  lemma IdsSnoc(entries: seq<Question>, q: Question)
    ensures Ids(entries + [q]) == Ids(entries) + [q.id]
  {
    var a, b := Ids(entries + [q]), Ids(entries) + [q.id];
    assert |a| == |b|;
    forall j | 0 <= j < |a| ensures a[j] == b[j] {}
  }

  /** An id no entry carries is not among the ids. */
  lemma NotInIds(entries: seq<Question>, id: string)
    requires forall j | 0 <= j < |entries| :: entries[j].id != id
    ensures id !in Ids(entries)
  {
  }

  /** One `set` keeps every entry with another id. */
  lemma {:induction false} PutKeeps(entries: seq<Question>, q: Question, x: Question)
    requires x in entries && x.id != q.id
    ensures x in Put(entries, q)
    decreases |entries|
  {
    if entries[0] != x {
      assert x in entries[1..];
      if entries[0].id != q.id {
        PutKeeps(entries[1..], q, x);
      }
    }
  }

  /** Distinct ids of the entries are distinct ids of their `Ids`. */
  lemma DistinctByIds(a: seq<Question>, b: seq<Question>)
    requires Ids(a) == Ids(b) || (exists k :: k !in Ids(b) && Ids(a) == Ids(b) + [k])
    requires DistinctIds(b)
    ensures DistinctIds(a)
  {
    if Ids(a) != Ids(b) {
      var k :| k !in Ids(b) && Ids(a) == Ids(b) + [k];
      forall i, j | 0 <= i < j < |a| ensures a[i].id != a[j].id {
        if j == |b| {
          assert Ids(a)[i] == Ids(b)[i];
        } else {
          assert Ids(a)[i] == Ids(b)[i] && Ids(a)[j] == Ids(b)[j];
        }
      }
    } else {
      forall i, j | 0 <= i < j < |a| ensures a[i].id != a[j].id {
        assert Ids(a)[i] == Ids(b)[i] && Ids(a)[j] == Ids(b)[j];
      }
    }
  }

  /** A run of `set`s, in list order. */
  function PutAll(entries: seq<Question>, qs: seq<Question>): (r: seq<Question>)
    decreases |qs|
  {
    if qs == [] then entries
    else Put(PutAll(entries, qs[..|qs| - 1]), qs[|qs| - 1])
  }

  /** No later question in `qs` has the id of `qs[i]`. */
  predicate LastWithId(qs: seq<Question>, i: int)
    requires 0 <= i < |qs|
  {
    forall j | i < j < |qs| :: qs[j].id != qs[i].id
  }

  /** One `set` adds exactly its id to the ids present. */
  lemma {:induction false} PutMembers(entries: seq<Question>, q: Question)
    ensures forall k :: k in Ids(Put(entries, q)) <==> k in Ids(entries) || k == q.id
    decreases |entries|
  {
    var r := Put(entries, q);
    if entries == [] {
      assert Ids(r) == [q.id];
    } else if entries[0].id == q.id {
      assert Ids(r) == [q.id] + Ids(entries[1..]);
      assert Ids(entries) == [q.id] + Ids(entries[1..]);
    } else {
      PutMembers(entries[1..], q);
      assert Ids(r) == [entries[0].id] + Ids(Put(entries[1..], q));
      assert Ids(entries) == [entries[0].id] + Ids(entries[1..]);
    }
  }

  /** A run of `set`s adds exactly the ids it sets. */
  lemma {:induction false} PutAllMembers(entries: seq<Question>, qs: seq<Question>)
    ensures forall k :: k in Ids(PutAll(entries, qs)) <==> k in Ids(entries) || k in Ids(qs)
    decreases |qs|
  {
    if qs != [] {
      var n := |qs| - 1;
      PutAllMembers(entries, qs[..n]);
      PutMembers(PutAll(entries, qs[..n]), qs[n]);
      assert Ids(qs) == Ids(qs[..n]) + [qs[n].id];
    }
  }

  /** A run of `set`s keeps ids distinct and the earlier entries' ids in place. */
  lemma {:induction false} PutAllDistinct(entries: seq<Question>, qs: seq<Question>)
    requires DistinctIds(entries)
    ensures var r := PutAll(entries, qs);
            && DistinctIds(r)
            && |r| >= |entries|
            && Ids(r)[..|entries|] == Ids(entries)
    decreases |qs|
  {
    if qs != [] {
      var n := |qs| - 1;
      var q := qs[n];
      var mid := PutAll(entries, qs[..n]);
      PutAllDistinct(entries, qs[..n]);
      PutDistinct(mid, q);
      var r := Put(mid, q);
      assert Ids(r)[..|entries|] == Ids(r)[..|mid|][..|entries|];
    }
  }

  /** One `set` keeps ids distinct and the earlier entries' ids in place. */
  lemma PutDistinct(entries: seq<Question>, q: Question)
    requires DistinctIds(entries)
    ensures var r := Put(entries, q);
            && DistinctIds(r)
            && |r| >= |entries|
            && Ids(r)[..|entries|] == Ids(entries)
  {
    PutIds(entries, q);
    DistinctByIds(Put(entries, q), entries);
  }

  /** A run of `set`s keeps the last question given for each id. */
  lemma {:induction false} PutAllLast(entries: seq<Question>, qs: seq<Question>, i: int)
    requires 0 <= i < |qs| && LastWithId(qs, i)
    ensures qs[i] in PutAll(entries, qs)
    decreases |qs|
  {
    var n := |qs| - 1;
    if i < n {
      assert LastWithId(qs[..n], i);
      PutAllLast(entries, qs[..n], i);
      PutKeeps(PutAll(entries, qs[..n]), qs[n], qs[i]);
    }
  }

  /** A run of `set`s keeps an earlier entry whose id is never set again. */
  lemma {:induction false} PutAllKeeps(entries: seq<Question>, qs: seq<Question>, x: Question)
    requires x in entries && x.id !in Ids(qs)
    ensures x in PutAll(entries, qs)
    decreases |qs|
  {
    if qs != [] {
      var n := |qs| - 1;
      assert Ids(qs) == Ids(qs[..n]) + [qs[n].id];
      PutAllKeeps(entries, qs[..n], x);
      PutKeeps(PutAll(entries, qs[..n]), qs[n], x);
    }
  }

  /** The questions carried by a test's entries, in order, skipping entries
      without one. */
  function Linked(links: seq<TestLink>): (qs: seq<Question>)
    ensures |qs| <= |links|
    decreases |links|
  {
    if links == [] then []
    else
      var last := links[|links| - 1];
      Linked(links[..|links| - 1]) + (if last.question.Some? then [last.question.value] else [])
  }

  /** `allAvailableQuestions` (lines 87-103): the fetched questions, then the
      test's own questions, set by id into one insertion-ordered map. */
  function AllAvailable(fetched: Option<seq<Question>>, initial: Option<Test>): seq<Question> {
    var own := if initial.Some? && initial.value.questions.Some? then initial.value.questions.value else [];
    PutAll(PutAll([], fetched.GetOr([])), Linked(own))
  }

  /** The merged list has one question per id; the fetched ids come first in
      their order; a question of the test wins over a fetched question with
      its id, and a fetched question whose id the test does not use stays. */
  lemma AllAvailableFacts(fetched: seq<Question>, initial: Option<Test>)
    ensures var own := if initial.Some? && initial.value.questions.Some? then Linked(initial.value.questions.value) else [];
            var r := AllAvailable(Some(fetched), initial);
            && DistinctIds(r)
            && (forall k :: k in Ids(r) <==> k in Ids(fetched) || k in Ids(own))
            && (forall i | 0 <= i < |own| && LastWithId(own, i) :: own[i] in r)
            && (forall i | 0 <= i < |fetched| && LastWithId(fetched, i) && fetched[i].id !in Ids(own) :: fetched[i] in r)
            && (DistinctIds(fetched) ==> |r| >= |fetched| && Ids(r)[..|fetched|] == Ids(fetched))
  {
    var own := if initial.Some? && initial.value.questions.Some? then Linked(initial.value.questions.value) else [];
    var first := PutAll([], fetched);
    var r := PutAll(first, own);
    PutAllDistinct([], fetched);
    PutAllDistinct(first, own);
    PutAllMembers([], fetched);
    PutAllMembers(first, own);
    forall i | 0 <= i < |own| && LastWithId(own, i) ensures own[i] in r {
      PutAllLast(first, own, i);
    }
    forall i | 0 <= i < |fetched| && LastWithId(fetched, i) && fetched[i].id !in Ids(own) ensures fetched[i] in r {
      PutAllLast([], fetched, i);
      PutAllKeeps(first, own, fetched[i]);
    }
    if DistinctIds(fetched) {
      DistinctPutAll(fetched);
    }
  }

  /** Putting distinct questions into an empty map gives them back as they are. */
  lemma {:induction false} DistinctPutAll(qs: seq<Question>)
    requires DistinctIds(qs)
    ensures PutAll([], qs) == qs
    decreases |qs|
  {
    if qs != [] {
      var n := |qs| - 1;
      DistinctPutAll(qs[..n]);
      NotInIds(qs[..n], qs[n].id);
      PutAbsent(qs[..n], qs[n]);
      assert qs[..n] + [qs[n]] == qs;
    }
  }

  /** The entries of an insertion-ordered map: the values under its keys. */
  function Entries(keys: seq<string>, byId: map<string, Question>): (qs: seq<Question>)
    requires forall j | 0 <= j < |keys| :: keys[j] in byId
    ensures |qs| == |keys|
    ensures forall j | 0 <= j < |keys| :: qs[j] == byId[keys[j]]
  {
    seq(|keys|, j requires 0 <= j < |keys| => byId[keys[j]])
  }

  /** The state of the map while it is being filled: the keys in insertion
      order, each once, each the id of its question. */
  predicate MapState(keys: seq<string>, byId: map<string, Question>) {
    && (forall j | 0 <= j < |keys| :: keys[j] in byId && byId[keys[j]].id == keys[j])
    && (forall k | k in byId :: k in keys)
    && (forall a, b | 0 <= a < b < |keys| :: keys[a] != keys[b])
  }

  lemma EntriesIds(keys: seq<string>, byId: map<string, Question>)
    requires MapState(keys, byId)
    ensures Ids(Entries(keys, byId)) == keys
    ensures DistinctIds(Entries(keys, byId))
  {
    assert Ids(Entries(keys, byId)) == keys;
  }

  /** `combined.set(q.id, q)` for an id already in the map. */
  lemma SetPresent(keys: seq<string>, byId: map<string, Question>, q: Question)
    requires MapState(keys, byId) && q.id in byId
    ensures MapState(keys, byId[q.id := q])
    ensures Entries(keys, byId[q.id := q]) == Put(Entries(keys, byId), q)
  {
    var e := Entries(keys, byId);
    EntriesIds(keys, byId);
    var i :| 0 <= i < |keys| && keys[i] == q.id;
    PutPresent(e, q, i);
    ReplaceEntry(keys, byId, q, i);
  }

  lemma ReplaceEntry(keys: seq<string>, byId: map<string, Question>, q: Question, i: int)
    requires MapState(keys, byId) && 0 <= i < |keys| && keys[i] == q.id
    ensures MapState(keys, byId[q.id := q])
    ensures Entries(keys, byId[q.id := q]) == Entries(keys, byId)[i := q]
  {
    var byId' := byId[q.id := q];
    forall j | 0 <= j < |keys| ensures byId'[keys[j]] == Entries(keys, byId)[i := q][j] {
      if j != i { assert keys[j] != q.id; }
    }
  }

  /** `combined.set(q.id, q)` for a new id. */
  lemma SetAbsent(keys: seq<string>, byId: map<string, Question>, q: Question)
    requires MapState(keys, byId) && q.id !in byId
    ensures MapState(keys + [q.id], byId[q.id := q])
    ensures Entries(keys + [q.id], byId[q.id := q]) == Put(Entries(keys, byId), q)
  {
    var e := Entries(keys, byId);
    EntriesIds(keys, byId);
    PutAbsent(e, q);
    assert Entries(keys + [q.id], byId[q.id := q]) == e + [q];
  }

  /** `combined.set(q.id, q)` on the insertion-ordered map: the entries
      change as `Put` says. */
  method SetById(keys: seq<string>, byId: map<string, Question>, q: Question)
    returns (keys': seq<string>, byId': map<string, Question>)
    requires MapState(keys, byId)
    ensures MapState(keys', byId')
    ensures Entries(keys', byId') == Put(Entries(keys, byId), q)
    ensures byId' == byId[q.id := q]
  {
    if q.id in byId {
      SetPresent(keys, byId, q);
      keys' := keys;
    } else {
      SetAbsent(keys, byId, q);
      keys' := keys + [q.id];
    }
    byId' := byId[q.id := q];
  }

  /** Setting one more question extends `PutAll` by one step. */
  lemma PutAllSnoc(entries: seq<Question>, qs: seq<Question>, q: Question)
    ensures PutAll(entries, qs + [q]) == Put(PutAll(entries, qs), q)
  {
    var qs' := qs + [q];
    assert qs' != [] && qs'[|qs'| - 1] == q && qs'[..|qs'| - 1] == qs;
  }

  /** One more question of a list is set after the ones before it. */
  lemma PutAllStep(base: seq<Question>, list: seq<Question>, k: int, before: seq<Question>, after: seq<Question>)
    requires 0 <= k < |list|
    requires before == PutAll(base, list[..k])
    requires after == Put(before, list[k])
    ensures after == PutAll(base, list[..k + 1])
  {
    PutAllSnoc(base, list[..k], list[k]);
    assert list[..k + 1] == list[..k] + [list[k]];
  }

  /** One more link sets its question, if it has one, after the ones before it. */
  lemma LinkedStep(base: seq<Question>, links: seq<TestLink>, k: int, before: seq<Question>, after: seq<Question>)
    requires 0 <= k < |links|
    requires before == PutAll(base, Linked(links[..k]))
    requires after == if links[k].question.Some? then Put(before, links[k].question.value) else before
    ensures after == PutAll(base, Linked(links[..k + 1]))
  {
    var s := links[..k + 1];
    assert s != [] && s[|s| - 1] == links[k] && s[..|s| - 1] == links[..k];
    if links[k].question.Some? {
      assert Linked(s) == Linked(links[..k]) + [links[k].question.value];
      PutAllSnoc(base, Linked(links[..k]), links[k].question.value);
    } else {
      assert Linked(s) == Linked(links[..k]) + [];
      assert Linked(links[..k]) + [] == Linked(links[..k]);
    }
  }

  /** The first `forEach` of `allAvailableQuestions`: every fetched question
      set by id, in list order. */
  method SetEach(keys: seq<string>, byId: map<string, Question>, list: seq<Question>)
    returns (keys': seq<string>, byId': map<string, Question>)
    requires MapState(keys, byId)
    ensures MapState(keys', byId')
    ensures Entries(keys', byId') == PutAll(Entries(keys, byId), list)
  {
    ghost var base := Entries(keys, byId);
    keys', byId' := keys, byId;
    var k := 0;
    while k < |list|
      invariant 0 <= k <= |list|
      invariant MapState(keys', byId')
      invariant Entries(keys', byId') == PutAll(base, list[..k])
    {
      ghost var before := Entries(keys', byId');
      keys', byId' := SetById(keys', byId', list[k]);
      PutAllStep(base, list, k, before, Entries(keys', byId'));
      k := k + 1;
    }
    assert list[..k] == list;
  }

  /** One step of the second `forEach`: `if (tq.question) combined.set(...)`. */
  method SetLink(keys: seq<string>, byId: map<string, Question>, tq: TestLink)
    returns (keys': seq<string>, byId': map<string, Question>)
    requires MapState(keys, byId)
    ensures MapState(keys', byId')
    ensures Entries(keys', byId') ==
            if tq.question.Some? then Put(Entries(keys, byId), tq.question.value) else Entries(keys, byId)
  {
    keys', byId' := keys, byId;
    if tq.question.Some? {
      keys', byId' := SetById(keys, byId, tq.question.value);
    }
  }

  /** The second `forEach`: the question of every test entry that has one,
      set by id, in entry order. */
  method SetEachLinked(keys: seq<string>, byId: map<string, Question>, links: seq<TestLink>)
    returns (keys': seq<string>, byId': map<string, Question>)
    requires MapState(keys, byId)
    ensures MapState(keys', byId')
    ensures Entries(keys', byId') == PutAll(Entries(keys, byId), Linked(links))
  {
    ghost var base := Entries(keys, byId);
    keys', byId' := keys, byId;
    var k := 0;
    while k < |links|
      invariant 0 <= k <= |links|
      invariant MapState(keys', byId')
      invariant Entries(keys', byId') == PutAll(base, Linked(links[..k]))
    {
      ghost var before := Entries(keys', byId');
      keys', byId' := SetLink(keys', byId', links[k]);
      LinkedStep(base, links, k, before, Entries(keys', byId'));
      k := k + 1;
    }
    assert links[..k] == links;
  }

  /** `allAvailableQuestions`, as the source computes it: two `forEach` loops
      filling a map, then the map's values. */
  method AllAvailableQuestions(fetched: Option<seq<Question>>, initial: Option<Test>) returns (questions: seq<Question>)
    ensures questions == AllAvailable(fetched, initial)
  {
    var keys: seq<string> := [];
    var byId: map<string, Question> := map[];
    assert Entries(keys, byId) == [];
    keys, byId := SetEach(keys, byId, fetched.GetOr([]));
    var links := if initial.Some? && initial.value.questions.Some? then initial.value.questions.value else [];
    keys, byId := SetEachLinked(keys, byId, links);
    questions := Entries(keys, byId);
  }

  // ----- Looking a question up -----

  /** `find(q => q.id === id)`: the first index with the id, or -1. */
  function FirstWithId(available: seq<Question>, id: string): (i: int)
    ensures -1 <= i < |available|
    ensures i >= 0 ==> available[i].id == id && forall j | 0 <= j < i :: available[j].id != id
    ensures i == -1 <==> id !in Ids(available)
    decreases |available|
  {
    if available == [] then -1
    else if available[0].id == id then
      assert Ids(available)[0] == id;
      0
    else
      assert Ids(available) == [available[0].id] + Ids(available[1..]);
      var i := FirstWithId(available[1..], id);
      if i == -1 then -1 else i + 1
  }

  /** `getQuestionDetails(id)` (lines 141-143): the first available question
      with the id, if any. */
  function QuestionDetails(available: seq<Question>, id: string): (found: Option<Question>)
    ensures found.None? <==> id !in Ids(available)
    ensures found.Some? ==> found.value.id == id && found.value in available
  {
    var i := FirstWithId(available, id);
    if i == -1 then None else Some(available[i])
  }

  /** On a merged list, with one question per id, the lookup finds the one
      question with the id. */
  lemma DetailsOnDistinct(available: seq<Question>, i: int)
    requires DistinctIds(available) && 0 <= i < |available|
    ensures QuestionDetails(available, available[i].id) == Some(available[i])
  {
    var k := FirstWithId(available, available[i].id);
    assert k != -1 by { assert Ids(available)[i] == available[i].id; }
  }

  // ----- Grouping and search -----

  /** `allAvailableQuestions.filter(q => q.learningObjectiveId === lo)`. */
  function WithObjective(qs: seq<Question>, lo: string): (r: seq<Question>)
    ensures forall x | x in r :: x in qs && x.learningObjectiveId == lo
    ensures forall x | x in qs && x.learningObjectiveId == lo :: x in r
    ensures IsSubsequence(r, qs)
    decreases |qs|
  {
    if qs == [] then []
    else
      var rest := WithObjective(qs[1..], lo);
      if qs[0].learningObjectiveId == lo then
        assert ([qs[0]] + rest)[1..] == rest;
        [qs[0]] + rest
      else
        SubsequenceSkip(rest, qs);
        rest
  }

  /** `groupedQuestionsByLO` (lines 145-155): a reduce over the learning
      objectives' ids that records each objective's questions when there are
      any; missing objectives give no grouping at all. */
  function GroupByObjective(objectives: Option<seq<string>>, available: seq<Question>): (groups: Option<map<string, seq<Question>>>)
    ensures groups.None? <==> objectives.None?
    ensures groups.Some? ==>
              && (forall lo :: lo in groups.value <==> lo in objectives.value && WithObjective(available, lo) != [])
              && (forall lo | lo in groups.value :: groups.value[lo] == WithObjective(available, lo))
  {
    match objectives
    case None => None
    case Some(los) => Some(Reduce(los, available))
  }

  /** The reduce itself: each objective's step reads the accumulator built
      from the objectives before it. */
  function Reduce(los: seq<string>, available: seq<Question>): (acc: map<string, seq<Question>>)
    ensures forall lo :: lo in acc <==> lo in los && WithObjective(available, lo) != []
    ensures forall lo | lo in acc :: acc[lo] == WithObjective(available, lo)
    decreases |los|
  {
    if los == [] then map[]
    else
      var acc := Reduce(los[..|los| - 1], available);
      var lo := los[|los| - 1];
      var questions := WithObjective(available, lo);
      assert forall x :: x in los <==> x in los[..|los| - 1] || x == lo by {
        assert los == los[..|los| - 1] + [lo];
      }
      if |questions| > 0 then acc[lo := questions] else acc
  }

  /** Every available question whose objective is loaded lies in exactly its
      objective's group, and the groups hold nothing else. */
  lemma GroupingPartitions(los: seq<string>, available: seq<Question>, q: Question)
    requires q in available && q.learningObjectiveId in los
    ensures var groups := GroupByObjective(Some(los), available).value;
            && q.learningObjectiveId in groups
            && q in groups[q.learningObjectiveId]
            && (forall lo | lo in groups && q in groups[lo] :: lo == q.learningObjectiveId)
  {
  }

  /** A question is kept by the search exactly when its lowercased id
      contains the lowercased query. */
  predicate Matches(q: Question, query: string, lower: string -> string) {
    Contains(lower(q.id), lower(query))
  }

  /** `questions.filter(q => q.id.toLowerCase().includes(query.toLowerCase()))`. */
  function Matching(qs: seq<Question>, query: string, lower: string -> string): (r: seq<Question>)
    ensures forall x | x in r :: x in qs && Matches(x, query, lower)
    ensures forall x | x in qs && Matches(x, query, lower) :: x in r
    ensures IsSubsequence(r, qs)
    decreases |qs|
  {
    if qs == [] then []
    else
      var rest := Matching(qs[1..], query, lower);
      if Matches(qs[0], query, lower) then
        assert ([qs[0]] + rest)[1..] == rest;
        [qs[0]] + rest
      else
        SubsequenceSkip(rest, qs);
        rest
  }

  /** `filteredGroupedQuestions` (lines 158-171): an empty query, or no
      grouping, gives the grouping back; otherwise each group keeps its
      matching questions and groups left empty are dropped. `lower` is
      `toLowerCase`. */
  function FilterGroups(groups: Option<map<string, seq<Question>>>, query: string, lower: string -> string)
    : (filtered: Option<map<string, seq<Question>>>)
    ensures query == "" || groups.None? ==> filtered == groups
    ensures query != "" && groups.Some? ==>
              && filtered.Some?
              && (forall lo :: lo in filtered.value <==> lo in groups.value && Matching(groups.value[lo], query, lower) != [])
              && (forall lo | lo in filtered.value :: filtered.value[lo] == Matching(groups.value[lo], query, lower))
  {
    if query == "" || groups.None? then groups
    else
      var g := groups.value;
      Some(map lo | lo in g && Matching(g[lo], query, lower) != [] :: Matching(g[lo], query, lower))
  }

  /** Every filtered group is a non-empty sub-list of its unfiltered group,
      and a question survives exactly when it matches. */
  lemma FilteredAreSublists(groups: map<string, seq<Question>>, query: string, lower: string -> string, lo: string)
    requires query != ""
    requires lo in FilterGroups(Some(groups), query, lower).value
    ensures lo in groups
    ensures var kept := FilterGroups(Some(groups), query, lower).value[lo];
            && kept != []
            && IsSubsequence(kept, groups[lo])
            && (forall q | q in groups[lo] :: q in kept <==> Matches(q, query, lower))
  {
  }

  // ----- The selected-question field array -----

  /** `fields.findIndex(f => f.questionId === id)`: the first index with the
      id, or -1. */
  function FindIndex(fields: seq<TestQuestion>, id: string): (i: int)
    ensures -1 <= i < |fields|
    ensures i >= 0 ==> fields[i].questionId == id && forall j | 0 <= j < i :: fields[j].questionId != id
    ensures i == -1 <==> forall j | 0 <= j < |fields| :: fields[j].questionId != id
    decreases |fields|
  {
    if fields == [] then -1
    else if fields[0].questionId == id then 0
    else
      var i := FindIndex(fields[1..], id);
      if i == -1 then -1 else i + 1
  }

  predicate Selected(fields: seq<TestQuestion>, id: string) {
    exists j | 0 <= j < |fields| :: fields[j].questionId == id
  }

  /** No question is selected twice. */
  predicate DistinctSelection(fields: seq<TestQuestion>) {
    forall i, j | 0 <= i < j < |fields| :: fields[i].questionId != fields[j].questionId
  }

  /** `addQuestionToTest` (lines 121-125). */
  function Added(fields: seq<TestQuestion>, id: string): (r: seq<TestQuestion>)
    ensures Selected(r, id)
    ensures Selected(fields, id) ==> r == fields
    ensures !Selected(fields, id) ==> |r| == |fields| + 1 && r[..|fields|] == fields
                                      && r[|fields|] == TestQuestion(id, (|fields| + 1) as real)
  {
    if Selected(fields, id) then fields
    else
      var r := fields + [TestQuestion(id, (|fields| + 1) as real)];
      assert r[|fields|].questionId == id;
      r
  }

  /** `remove(index)` (lines 127-130): entry `index` goes, the others keep
      their order and their stored `order` values. */
  function RemovedAt(fields: seq<TestQuestion>, index: int): (r: seq<TestQuestion>)
    requires 0 <= index < |fields|
    ensures |r| == |fields| - 1
    ensures forall j | 0 <= j < index :: r[j] == fields[j]
    ensures forall j | index <= j < |r| :: r[j] == fields[j + 1]
  {
    fields[..index] + fields[index + 1..]
  }

  /** `toggleQuestionSelection` (lines 132-139): remove the first entry with
      the id, or append a new one. */
  function Toggled(fields: seq<TestQuestion>, id: string): (r: seq<TestQuestion>)
    ensures Selected(fields, id) ==> r == RemovedAt(fields, FindIndex(fields, id))
    ensures !Selected(fields, id) ==> r == Added(fields, id)
  {
    var i := FindIndex(fields, id);
    if i > -1 then RemovedAt(fields, i) else fields + [TestQuestion(id, (|fields| + 1) as real)]
  }

  /** Adding never creates a duplicate. */
  lemma AddedDistinct(fields: seq<TestQuestion>, id: string)
    requires DistinctSelection(fields)
    ensures DistinctSelection(Added(fields, id))
  {
  }

  /** On a list without duplicates, toggling flips whether the question is
      selected and keeps the list without duplicates. */
  lemma ToggledFlips(fields: seq<TestQuestion>, id: string)
    requires DistinctSelection(fields)
    ensures Selected(Toggled(fields, id), id) <==> !Selected(fields, id)
    ensures DistinctSelection(Toggled(fields, id))
  {
    if Selected(fields, id) {
      var i := FindIndex(fields, id);
      var r := Toggled(fields, id);
      forall j | 0 <= j < |r| ensures r[j].questionId != id {
        if j < i { assert r[j] == fields[j]; } else { assert r[j] == fields[j + 1]; }
      }
    }
  }

  /** Toggling a question that is not selected, then toggling it again,
      gives the list back. */
  lemma ToggleTwice(fields: seq<TestQuestion>, id: string)
    requires !Selected(fields, id)
    ensures Toggled(Toggled(fields, id), id) == fields
  {
    var once := Toggled(fields, id);
    assert FindIndex(once, id) == |fields|;
    assert once[..|fields|] == fields;
  }

  /** The form's state: the test's name and description and the
      `questionIds` field array. */
  class TestFormState {
    var name: string
    var description: string
    var questionIds: seq<TestQuestion>

    /** `useForm({ defaultValues })` (lines 63-70). */
    constructor()
      ensures name == "" && description == "" && questionIds == []
    {
      name := "";
      description := "";
      questionIds := [];
    }

    function Values(): TestValues
      reads this
    {
      TestValues(name, Some(description), questionIds)
    }

    /** `addQuestionToTest` (lines 121-125). */
    method Add(q: Question)
      modifies this
      ensures questionIds == Added(old(questionIds), q.id)
      ensures name == old(name) && description == old(description)
    {
      if FindIndex(questionIds, q.id) == -1 {
        questionIds := questionIds + [TestQuestion(q.id, (|questionIds| + 1) as real)];
      }
    }

    /** `removeQuestionFromTest(index)` (lines 127-130), for the index of a
        listed entry. */
    method Remove(index: int)
      requires 0 <= index < |questionIds|
      modifies this
      ensures questionIds == RemovedAt(old(questionIds), index)
      ensures name == old(name) && description == old(description)
    {
      questionIds := questionIds[..index] + questionIds[index + 1..];
    }

    /** `toggleQuestionSelection` (lines 132-139). */
    method Toggle(q: Question)
      modifies this
      ensures questionIds == Toggled(old(questionIds), q.id)
      ensures name == old(name) && description == old(description)
    {
      var index := FindIndex(questionIds, q.id);
      if index > -1 {
        Remove(index);
      } else {
        questionIds := questionIds + [TestQuestion(q.id, (|questionIds| + 1) as real)];
      }
    }

    /** The effect of lines 105-119: once the test, some available question
        and the objectives are there, the test's name, description (empty
        when missing) and question entries replace the form's values. */
    method ApplyInitialData(initial: Option<Test>, availableCount: nat, objectivesLoaded: bool)
      modifies this
      ensures initial.Some? && availableCount > 0 && objectivesLoaded ==>
                var t := initial.value;
                && name == t.name
                && description == t.description.GetOr("")
                && questionIds == EntriesOf(t.questions.GetOr([]))
      ensures !(initial.Some? && availableCount > 0 && objectivesLoaded) ==>
                name == old(name) && description == old(description) && questionIds == old(questionIds)
    {
      if initial.Some? && availableCount > 0 && objectivesLoaded {
        var t := initial.value;
        name := t.name;
        description := t.description.GetOr("");
        questionIds := EntriesOf(t.questions.GetOr([]));
      }
    }
  }

  /** `initialData.questions.map(tq => ({ questionId, order }))`. */
  function EntriesOf(links: seq<TestLink>): (entries: seq<TestQuestion>)
    ensures |entries| == |links|
    ensures forall i | 0 <= i < |links| :: entries[i] == TestQuestion(links[i].questionId, links[i].order)
  {
    seq(|links|, i requires 0 <= i < |links| => TestQuestion(links[i].questionId, links[i].order))
  }
}
