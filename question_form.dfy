/** The logic of components/forms/QuestionForm.tsx: the learning objectives
    grouped by subject name and ordered within each group, the sorted list of
    subject names, the highlighted answer option, the default values and the
    image preview. */
module QuestionForm {
  import opened Wrappers
  import opened Strings
  import opened Validations

  /** A learning objective with the name of its subject, when it has one. */
  datatype Objective = Objective(id: string, name: string, order: int, subjectName: Option<string>)

  /** The group of objectives without a subject name. */
  const OTHER := "Diğer"

  /** `objective.subject?.name || "Diğer"` (line 109). */
  function GroupKey(o: Objective): (key: string)
    ensures key != ""
    ensures o.subjectName.Some? && o.subjectName.value != "" ==> key == o.subjectName.value
    ensures o.subjectName.None? || o.subjectName == Some("") ==> key == OTHER
  {
    if o.subjectName.Some? && o.subjectName.value != "" then o.subjectName.value else OTHER
  }

  /** The group names the objectives give. */
  function KeysOf(objs: seq<Objective>): set<string> {
    set i | 0 <= i < |objs| :: GroupKey(objs[i])
  }

  /** The objectives of group `key`, in list order. */
  function GroupOf(objs: seq<Objective>, key: string): (g: seq<Objective>)
    ensures forall x | x in g :: GroupKey(x) == key
    decreases |objs|
  {
    if objs == [] then []
    else
      var n := |objs| - 1;
      GroupOf(objs[..n], key) + (if GroupKey(objs[n]) == key then [objs[n]] else [])
  }

  /** A group holds each objective of its name as often as the list does,
      and nothing else. */
  lemma {:induction false} GroupOfCount(objs: seq<Objective>, key: string)
    ensures forall x :: multiset(GroupOf(objs, key))[x] == if GroupKey(x) == key then multiset(objs)[x] else 0
    decreases |objs|
  {
    if objs != [] {
      var n := |objs| - 1;
      GroupOfCount(objs[..n], key);
      assert objs == objs[..n] + [objs[n]];
    }
  }

  /** Every objective's group name is one of the names. */
  lemma InKeys(objs: seq<Objective>)
    ensures forall x | x in objs :: GroupKey(x) in KeysOf(objs)
  {
    forall x | x in objs ensures GroupKey(x) in KeysOf(objs) {
      var i :| 0 <= i < |objs| && objs[i] == x;
    }
  }

  /** A group name no objective gives has no objectives. */
  lemma GroupOfAbsent(objs: seq<Objective>, key: string)
    requires key !in KeysOf(objs)
    ensures GroupOf(objs, key) == []
  {
    InKeys(objs);
    GroupOfCount(objs, key);
    assert multiset(GroupOf(objs, key)) == multiset{};
  }

  /** One more objective adds its group name. */
  lemma KeysOfSnoc(s: seq<Objective>, o: Objective)
    ensures KeysOf(s + [o]) == KeysOf(s) + {GroupKey(o)}
  {
    var t := s + [o];
    forall k ensures k in KeysOf(t) <==> k in KeysOf(s) + {GroupKey(o)} {
      if k in KeysOf(t) {
        var p :| 0 <= p < |t| && GroupKey(t[p]) == k;
        if p < |s| { assert s[p] == t[p]; }
      }
      if k in KeysOf(s) {
        var p :| 0 <= p < |s| && GroupKey(s[p]) == k;
        assert t[p] == s[p];
      }
      if k == GroupKey(o) { assert t[|s|] == o; }
    }
  }

  /** One more objective is appended to its own group only. */
  lemma GroupOfSnoc(s: seq<Objective>, o: Objective, key: string)
    ensures GroupOf(s + [o], key) == GroupOf(s, key) + (if GroupKey(o) == key then [o] else [])
  {
    assert (s + [o])[..|s|] == s;
  }

  /** Groups listed in ascending `order`. */
  predicate SortedByOrder(g: seq<Objective>) {
    forall i, j | 0 <= i < j < |g| :: g[i].order <= g[j].order
  }

  /** `groups[key].sort((a, b) => a.order - b.order)` (line 118), in place:
      an insertion sort. */
  method SortByOrder(a: array<Objective>)
    modifies a
    ensures SortedByOrder(a[..])
    ensures multiset(a[..]) == multiset(old(a[..]))
  {
    var i := 0;
    while i < a.Length
      invariant 0 <= i <= a.Length
      invariant forall m, n | 0 <= m < n < i :: a[m].order <= a[n].order
      invariant multiset(a[..]) == multiset(old(a[..]))
    {
      Sink(a, i);
      i := i + 1;
    }
  }

  /** Moves `a[i]` left past every larger order, so that `a[..i + 1]` is sorted. */
  method Sink(a: array<Objective>, i: int)
    requires 0 <= i < a.Length
    requires forall m, n | 0 <= m < n < i :: a[m].order <= a[n].order
    modifies a
    ensures forall m, n | 0 <= m < n <= i :: a[m].order <= a[n].order
    ensures multiset(a[..]) == multiset(old(a[..]))
  {
    var j := i;
    while j > 0 && a[j - 1].order > a[j].order
      invariant 0 <= j <= i
      invariant forall m, n | 0 <= m < n <= i && m != j && n != j :: a[m].order <= a[n].order
      invariant forall m | j < m <= i :: a[j].order < a[m].order
      invariant 0 < j < i ==> a[j - 1].order <= a[j + 1].order
      invariant multiset(a[..]) == multiset(old(a[..]))
    {
      Swap(a, j - 1, j);
      j := j - 1;
    }
  }

  method Swap(a: array<Objective>, p: int, q: int)
    requires 0 <= p < q < a.Length
    modifies a
    ensures a[..] == old(a[..])[p := old(a[q])][q := old(a[p])]
    ensures multiset(a[..]) == multiset(old(a[..]))
  {
    a[p], a[q] := a[q], a[p];
  }

  /** `groupedObjectives` (lines 103-122): the objectives collected into one
      list per group name, then each list sorted by `order`; without loaded
      objectives there are no groups. */
  method GroupObjectives(objectives: Option<seq<Objective>>) returns (groups: map<string, seq<Objective>>)
    ensures objectives.None? ==> groups == map[]
    ensures objectives.Some? ==> groups.Keys == KeysOf(objectives.value)
    ensures objectives.Some? ==> forall key | key in groups ::
              && SortedByOrder(groups[key])
              && multiset(groups[key]) == multiset(GroupOf(objectives.value, key))
  {
    if objectives.None? {
      return map[];
    }
    var collected := Collect(objectives.value);
    groups := SortGroups(collected);
  }

  /** The `forEach` of lines 108-114: each objective pushed onto its group's
      list. The source collects into a plain object, where a group name
      inherited from `Object.prototype` (such as `constructor`) makes the
      push throw; the map here has no inherited keys, so such names are
      assumed not to occur. */
  method Collect(objs: seq<Objective>) returns (collected: map<string, seq<Objective>>)
    ensures collected.Keys == KeysOf(objs)
    ensures forall key | key in collected :: collected[key] == GroupOf(objs, key)
  {
    collected := map[];
    var i := 0;
    while i < |objs|
      invariant 0 <= i <= |objs|
      invariant collected.Keys == KeysOf(objs[..i])
      invariant forall key | key in collected :: collected[key] == GroupOf(objs[..i], key)
    {
      var o := objs[i];
      var key := GroupKey(o);
      assert objs[..i + 1] == objs[..i] + [o];
      CollectStep(objs[..i], o, collected);
      if key !in collected {
        collected := collected[key := []];
      }
      collected := collected[key := collected[key] + [o]];
      i := i + 1;
    }
    assert objs[..i] == objs;
  }

  /** Pushing one more objective onto its group's list (an empty one when the
      group is new) keeps the map equal to the groups of the objectives seen. */
  lemma CollectStep(s: seq<Objective>, o: Objective, m: map<string, seq<Objective>>)
    requires m.Keys == KeysOf(s)
    requires forall key | key in m :: m[key] == GroupOf(s, key)
    ensures var key := GroupKey(o);
            var m' := m[key := (if key in m then m[key] else []) + [o]];
            && m'.Keys == KeysOf(s + [o])
            && forall k | k in m' :: m'[k] == GroupOf(s + [o], k)
  {
    var key := GroupKey(o);
    var m' := m[key := (if key in m then m[key] else []) + [o]];
    KeysOfSnoc(s, o);
    if key !in m {
      GroupOfAbsent(s, key);
    }
    forall k | k in m' ensures m'[k] == GroupOf(s + [o], k) {
      GroupOfSnoc(s, o, k);
    }
  }

  /** The `forEach` of lines 117-119: every group sorted by `order`. */
  method SortGroups(collected: map<string, seq<Objective>>) returns (groups: map<string, seq<Objective>>)
    ensures groups.Keys == collected.Keys
    ensures forall key | key in groups ::
              SortedByOrder(groups[key]) && multiset(groups[key]) == multiset(collected[key])
  {
    var pending := collected.Keys;
    groups := collected;
    while pending != {}
      invariant pending <= collected.Keys
      invariant groups.Keys == collected.Keys
      invariant forall key | key in pending :: groups[key] == collected[key]
      invariant forall key | key in groups && key !in pending ::
                  SortedByOrder(groups[key]) && multiset(groups[key]) == multiset(collected[key])
      decreases pending
    {
      var key :| key in pending;
      var list := groups[key];
      var a := new Objective[|list|](p requires 0 <= p < |list| => list[p]);
      assert a[..] == list;
      SortByOrder(a);
      groups := groups[key := a[..]];
      pending := pending - {key};
    }
  }

  /** Every objective lands in the group of its own subject name, and in no
      other, as often as it is listed. */
  lemma EveryObjectiveGrouped(objs: seq<Objective>, o: Objective, key: string)
    requires o in objs
    ensures GroupKey(o) in KeysOf(objs)
    ensures multiset(GroupOf(objs, GroupKey(o)))[o] == multiset(objs)[o]
    ensures key != GroupKey(o) ==> o !in GroupOf(objs, key)
  {
    var i :| 0 <= i < |objs| && objs[i] == o;
    GroupOfCount(objs, GroupKey(o));
    GroupOfCount(objs, key);
    assert o in GroupOf(objs, key) ==> multiset(GroupOf(objs, key))[o] > 0;
  }

  // ----- Subject names in sorted order -----

  /** `Object.keys(groups)`: the group names in the order they first appear. */
  function NamesInOrder(objs: seq<Objective>): (names: seq<string>)
    ensures forall k :: k in names <==> k in KeysOf(objs)
    ensures forall i, j | 0 <= i < j < |names| :: names[i] != names[j]
    decreases |objs|
  {
    if objs == [] then []
    else
      var n := |objs| - 1;
      var front := NamesInOrder(objs[..n]);
      var key := GroupKey(objs[n]);
      assert KeysOf(objs) == KeysOf(objs[..n]) + {key} by {
        forall k ensures k in KeysOf(objs) <==> k in KeysOf(objs[..n]) + {key} {
          if k in KeysOf(objs) {
            var p :| 0 <= p < |objs| && GroupKey(objs[p]) == k;
            if p < n { assert objs[..n][p] == objs[p]; }
          }
          if k in KeysOf(objs[..n]) {
            var p :| 0 <= p < n && GroupKey(objs[..n][p]) == k;
            assert objs[p] == objs[..n][p];
          }
        }
      }
      if key in front then front else front + [key]
  }

  predicate StringsSorted(s: seq<string>) {
    forall i, j | 0 <= i < j < |s| :: LexLessEq(s[i], s[j])
  }

  /** Inserting into a sorted list of strings. */
  function InsertSorted(x: string, s: seq<string>): (r: seq<string>)
    requires StringsSorted(s)
    ensures StringsSorted(r)
    ensures multiset(r) == multiset(s) + multiset{x}
    decreases |s|
  {
    if s == [] then [x]
    else if LexLessEq(x, s[0]) then
      assert forall j | 0 <= j < |s| :: LexLessEq(x, s[j]) by {
        forall j | 0 <= j < |s| ensures LexLessEq(x, s[j]) {
          if j > 0 { LexTransitive(x, s[0], s[j]); }
        }
      }
      [x] + s
    else
      var rest := InsertSorted(x, s[1..]);
      assert s == [s[0]] + s[1..];
      LexTotal(x, s[0]);
      assert forall j | 0 <= j < |rest| :: LexLessEq(s[0], rest[j]) by {
        forall j | 0 <= j < |rest| ensures LexLessEq(s[0], rest[j]) {
          assert rest[j] in multiset(rest);
          if rest[j] != x {
            assert rest[j] in multiset(s[1..]);
            var p :| 0 <= p < |s[1..]| && s[1..][p] == rest[j];
            assert s[p + 1] == rest[j];
          }
        }
      }
      [s[0]] + rest
  }

  /** `.sort()` on strings: an insertion sort by character order. */
  function SortStrings(s: seq<string>): (r: seq<string>)
    ensures StringsSorted(r)
    ensures multiset(r) == multiset(s)
    decreases |s|
  {
    if s == [] then []
    else
      assert s == [s[0]] + s[1..];
      InsertSorted(s[0], SortStrings(s[1..]))
  }

  /** `Object.keys(groupedObjectives).sort()` (lines 146-147): every group
      name once, in ascending order. */
  function SortedSubjectNames(objs: seq<Objective>): (names: seq<string>)
    ensures StringsSorted(names)
    ensures forall k :: k in names <==> k in KeysOf(objs)
    ensures forall i, j | 0 <= i < j < |names| :: names[i] != names[j]
  {
    var keys := NamesInOrder(objs);
    var r := SortStrings(keys);
    assert forall k :: k in r <==> k in keys by {
      forall k ensures k in r <==> k in keys {
        assert k in r <==> k in multiset(r);
        assert k in keys <==> k in multiset(keys);
      }
    }
    forall i, j | 0 <= i < j < |r| ensures r[i] != r[j] {
      DistinctCount(keys, r[i]);
      TwoPositions(r, i, j);
    }
    r
  }

  /** A value at two positions appears at least twice. */
  lemma TwoPositions(r: seq<string>, i: int, j: int)
    requires 0 <= i < j < |r|
    ensures r[i] == r[j] ==> multiset(r)[r[i]] >= 2
  {
    if r[i] == r[j] {
      assert r == r[..i] + [r[i]] + r[i + 1..j] + [r[j]] + r[j + 1..];
    }
  }

  /** A value appears at most once in a list without repetitions. */
  lemma {:induction false} DistinctCount(s: seq<string>, x: string)
    requires forall i, j | 0 <= i < j < |s| :: s[i] != s[j]
    ensures multiset(s)[x] <= 1
    decreases |s|
  {
    if s != [] {
      DistinctCount(s[1..], x);
      assert s == [s[0]] + s[1..];
      if s[0] == x {
        assert x !in s[1..];
      }
    }
  }

  // ----- Options, defaults and preview -----

  /** How an option badge is shown. */
  datatype BadgeStyle = Highlighted | Plain

  /** `getOptionBadgeStyle(option)` (lines 95-100). */
  function OptionBadgeStyle(correctAnswer: string, option: string): (style: BadgeStyle)
    ensures style == Highlighted <==> option == correctAnswer
  {
    if correctAnswer == option then Highlighted else Plain
  }

  const OPTIONS: seq<string> := ["a", "b", "c", "d", "e"]

  /** With an answer from a to e exactly one of the five badges is
      highlighted; with any other value none is. */
  lemma OneBadgeHighlighted(correctAnswer: string)
    ensures correctAnswer in ANSWERS ==>
              exists i | 0 <= i < 5 :: OptionBadgeStyle(correctAnswer, OPTIONS[i]) == Highlighted
                && forall j | 0 <= j < 5 && j != i :: OptionBadgeStyle(correctAnswer, OPTIONS[j]) == Plain
    ensures correctAnswer !in ANSWERS ==> forall j | 0 <= j < 5 :: OptionBadgeStyle(correctAnswer, OPTIONS[j]) == Plain
  {
    assert forall j | 0 <= j < 5 :: OPTIONS[j] in ANSWERS;
    if correctAnswer in ANSWERS {
      var i := if correctAnswer == "a" then 0 else if correctAnswer == "b" then 1
               else if correctAnswer == "c" then 2 else if correctAnswer == "d" then 3 else 4;
      assert OPTIONS[i] == correctAnswer;
      assert forall j | 0 <= j < 5 && j != i :: OPTIONS[j] != OPTIONS[i];
    }
  }

  /** A question's answer options; each may be missing. */
  datatype Options = Options(a: Option<string>, b: Option<string>, c: Option<string>, d: Option<string>, e: Option<string>)

  /** The question being edited. */
  datatype QuestionData = QuestionData(imageUrl: string, learningObjectiveId: string, difficulty: real,
                                       options: Option<Options>, correctAnswer: string)

  /** `opts?.x || ""` */
  function OptionText(options: Option<Options>, pick: Options -> Option<string>): (text: string)
    ensures options.None? || pick(options.value).None? ==> text == ""
    ensures options.Some? && pick(options.value).Some? ==> text == pick(options.value).value
  {
    if options.Some? && pick(options.value).Some? then pick(options.value).value else ""
  }

  /** `defaultValues` (lines 53-78): the question's fields, with an empty
      string for each missing option; a new form has empty text, difficulty 1
      and answer `a`. */
  function QuestionDefaults(initial: Option<QuestionData>): (v: QuestionValues)
    ensures initial.None? ==> v == QuestionValues("", "", 1.0, "", "", "", "", "", "a")
    ensures initial.Some? ==>
              var q := initial.value;
              && v.imageUrl == q.imageUrl && v.learningObjectiveId == q.learningObjectiveId
              && v.difficulty == q.difficulty && v.correctAnswer == q.correctAnswer
              && v.optionA == OptionText(q.options, (o: Options) => o.a)
              && v.optionB == OptionText(q.options, (o: Options) => o.b)
              && v.optionC == OptionText(q.options, (o: Options) => o.c)
              && v.optionD == OptionText(q.options, (o: Options) => o.d)
              && v.optionE == OptionText(q.options, (o: Options) => o.e)
  {
    match initial
    case None => QuestionValues("", "", 1.0, "", "", "", "", "", "a")
    case Some(q) =>
      QuestionValues(q.imageUrl, q.learningObjectiveId, q.difficulty,
                     OptionText(q.options, (o: Options) => o.a), OptionText(q.options, (o: Options) => o.b),
                     OptionText(q.options, (o: Options) => o.c), OptionText(q.options, (o: Options) => o.d),
                     OptionText(q.options, (o: Options) => o.e), q.correctAnswer)
  }

  /** An untouched new form passes on difficulty and answer and fails on the
      image, the objective and the five options. */
  lemma NewQuestionIssues(f: Formats)
    requires Sound(f)
    ensures QuestionIssues(f, QuestionDefaults(None)) ==
              {ImageUrl, LearningObjectiveId, OptionA, OptionB, OptionC, OptionD, OptionE}
  {
    assert "a" in ANSWERS;
  }

  /** The preview after the image field changes to `imageUrl` (lines 89-93):
      only a URL starting with `http` replaces it. */
  function PreviewAfter(preview: string, imageUrl: string): (next: string)
    ensures StartsWith(imageUrl, "http") ==> next == imageUrl
    ensures !StartsWith(imageUrl, "http") ==> next == preview
  {
    if imageUrl != "" && StartsWith(imageUrl, "http") then imageUrl else preview
  }

  /** Whatever is typed, a preview that started empty or with `http` is
      empty or starts with `http`. */
  lemma {:induction false} PreviewOnlyHttp(preview: string, typed: seq<string>)
    requires preview == "" || StartsWith(preview, "http")
    ensures var last := PreviewAfterAll(preview, typed);
            last == "" || StartsWith(last, "http")
    decreases |typed|
  {
    if typed != [] {
      PreviewOnlyHttp(PreviewAfter(preview, typed[0]), typed[1..]);
    }
  }

  /** The preview after a run of edits of the image field. */
  function PreviewAfterAll(preview: string, typed: seq<string>): string
    decreases |typed|
  {
    if typed == [] then preview else PreviewAfterAll(PreviewAfter(preview, typed[0]), typed[1..])
  }

  /** No value typed after position `j` starts with `http`. */
  predicate NoHttpAfter(typed: seq<string>, j: int) {
    forall k | j < k < |typed| && 0 <= k :: !StartsWith(typed[k], "http")
  }

  /** After a run of edits the preview is the last value typed that starts
      with `http` (position `j`), or the starting preview when none does
      (`j == -1`). */
  lemma {:induction false} PreviewIsLastHttp(preview: string, typed: seq<string>)
    ensures forall j | -1 <= j < |typed| && (0 <= j ==> StartsWith(typed[j], "http")) && NoHttpAfter(typed, j) ::
              PreviewAfterAll(preview, typed) == if j == -1 then preview else typed[j]
    decreases |typed|
  {
    if typed != [] {
      var rest := typed[1..];
      var next := PreviewAfter(preview, typed[0]);
      PreviewIsLastHttp(next, rest);
      forall j | -1 <= j < |typed| && (0 <= j ==> StartsWith(typed[j], "http")) && NoHttpAfter(typed, j)
        ensures PreviewAfterAll(preview, typed) == if j == -1 then preview else typed[j]
      {
        assert NoHttpAfter(rest, if j == -1 then -1 else j - 1) by {
          forall k | (if j == -1 then -1 else j - 1) < k < |rest| && 0 <= k ensures !StartsWith(rest[k], "http") {
            assert rest[k] == typed[k + 1];
          }
        }
        if j == -1 {
          assert !StartsWith(typed[0], "http");
        } else if 0 < j {
          assert rest[j - 1] == typed[j];
        }
      }
    }
  }

  /** The image preview state of the form. */
  class ImagePreview {
    var preview: string

    constructor()
      ensures preview == ""
    {
      preview := "";
    }

    /** The effect of lines 83-86: a question with an image shows it. */
    method OnInitialData(initial: Option<QuestionData>)
      modifies this
      ensures initial.Some? && initial.value.imageUrl != "" ==> preview == initial.value.imageUrl
      ensures !(initial.Some? && initial.value.imageUrl != "") ==> preview == old(preview)
    {
      if initial.Some? && initial.value.imageUrl != "" {
        preview := initial.value.imageUrl;
      }
    }

    /** The effect of lines 89-93. */
    method OnImageUrl(imageUrl: string)
      modifies this
      ensures preview == PreviewAfter(old(preview), imageUrl)
    {
      if imageUrl != "" && StartsWith(imageUrl, "http") {
        preview := imageUrl;
      }
    }
  }
}
