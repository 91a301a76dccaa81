/** Sequence helpers shared by the model: sub-lists (what `filter` keeps) and
    removing every occurrence of a value. */
module Seqs {

  /** `a` is `b` with some elements dropped, the rest in their order. */
  predicate IsSubsequence<T(==)>(a: seq<T>, b: seq<T>)
    decreases |b|
  {
    if a == [] then true
    else if b == [] then false
    else if a[0] == b[0] then IsSubsequence(a[1..], b[1..])
    else IsSubsequence(a, b[1..])
  }

  lemma {:induction false} SubsequenceRefl<T>(a: seq<T>)
    ensures IsSubsequence(a, a)
    decreases |a|
  {
    if a != [] {
      SubsequenceRefl(a[1..]);
    }
  }

  /** Every element of a sub-list is an element of the list. */
  lemma {:induction false} SubsequenceElements<T>(a: seq<T>, b: seq<T>)
    requires IsSubsequence(a, b)
    ensures forall x | x in a :: x in b
    decreases |b|
  {
    if a != [] && b != [] {
      if a[0] == b[0] {
        SubsequenceElements(a[1..], b[1..]);
        assert a == [a[0]] + a[1..];
      } else {
        SubsequenceElements(a, b[1..]);
      }
    }
  }

  /** `s.filter(v => v !== x)` */
  function RemoveAll<T(==)>(s: seq<T>, x: T): (r: seq<T>)
    ensures x !in r
    ensures |r| <= |s|
    decreases |s|
  {
    if s == [] then []
    else
      var rest := RemoveAll(s[1..], x);
      if s[0] == x then rest else [s[0]] + rest
  }

  /** Removing `x` drops every copy of `x` and keeps every other value as
      often as it was there. */
  lemma {:induction false} RemoveAllCounts<T>(s: seq<T>, x: T)
    ensures multiset(RemoveAll(s, x)) == multiset(s)[x := 0]
    decreases |s|
  {
    if s != [] {
      RemoveAllCounts(s[1..], x);
      assert s == [s[0]] + s[1..];
    }
  }

  /** What is left keeps its order: it is a sub-list of the original. */
  lemma {:induction false} RemoveAllSubsequence<T>(s: seq<T>, x: T)
    ensures IsSubsequence(RemoveAll(s, x), s)
    decreases |s|
  {
    if s != [] {
      RemoveAllSubsequence(s[1..], x);
      var rest := RemoveAll(s[1..], x);
      if s[0] != x {
        assert ([s[0]] + rest)[1..] == rest;
      } else {
        SubsequenceSkip(rest, s);
      }
    }
  }

  /** A sub-list of the tail is a sub-list of the whole list. */
  lemma {:induction false} SubsequenceSkip<T>(a: seq<T>, b: seq<T>)
    requires b != [] && IsSubsequence(a, b[1..])
    ensures IsSubsequence(a, b)
    decreases |b|, 0
  {
    if a != [] && a[0] == b[0] {
      SubsequenceTail(a, b[1..]);
    }
  }

  /** Dropping the head of a non-empty sub-list keeps it a sub-list. */
  lemma {:induction false} SubsequenceTail<T>(a: seq<T>, c: seq<T>)
    requires a != [] && IsSubsequence(a, c)
    ensures IsSubsequence(a[1..], c)
    decreases |c|, 1
  {
    if a[0] != c[0] {
      SubsequenceTail(a, c[1..]);
    }
    SubsequenceSkip(a[1..], c);
  }

  /** Removing a value that is not there changes nothing. */
  lemma {:induction false} RemoveAbsent<T>(s: seq<T>, x: T)
    requires x !in s
    ensures RemoveAll(s, x) == s
    decreases |s|
  {
    if s != [] {
      RemoveAbsent(s[1..], x);
      assert s == [s[0]] + s[1..];
    }
  }

  /** Removing from a concatenation removes from each part. */
  lemma {:induction false} RemoveAllConcat<T>(a: seq<T>, b: seq<T>, x: T)
    ensures RemoveAll(a + b, x) == RemoveAll(a, x) + RemoveAll(b, x)
    decreases |a|
  {
    if a != [] {
      var ab := a + b;
      assert ab != [] && ab[0] == a[0] && ab[1..] == a[1..] + b;
      RemoveAllConcat(a[1..], b, x);
      var head := if a[0] == x then [] else [a[0]];
      assert RemoveAll(ab, x) == head + RemoveAll(a[1..] + b, x);
      assert RemoveAll(a, x) == head + RemoveAll(a[1..], x);
      assert head + (RemoveAll(a[1..], x) + RemoveAll(b, x))
          == (head + RemoveAll(a[1..], x)) + RemoveAll(b, x);
    } else {
      assert a + b == b;
    }
  }
}
