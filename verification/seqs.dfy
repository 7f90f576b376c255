/** The array operations the application uses on lists: `filter`, `find`, and
    `sort` by a numeric key. */
module Seqs {
  import opened Optional

  /** JavaScript `s.filter(keep)`: the elements that pass, in their original order. */
  function Filter<T>(keep: T -> bool, s: seq<T>): (r: seq<T>)
    ensures |r| <= |s|
    ensures forall i :: 0 <= i < |r| ==> keep(r[i])
    ensures forall i :: 0 <= i < |s| && keep(s[i]) ==> s[i] in r
    ensures forall x :: x in r ==> x in s
    decreases |s|
  {
    if |s| == 0 then []
    else if keep(s[0]) then [s[0]] + Filter(keep, s[1..])
    else Filter(keep, s[1..])
  }

  /** `r` is `s` with some elements removed and the rest left in order. */
  predicate IsSubsequence<T(==)>(r: seq<T>, s: seq<T>)
    decreases |s|
  {
    |r| == 0 || (|s| > 0 && (if r[0] == s[0] then IsSubsequence(r[1..], s[1..]) else IsSubsequence(r, s[1..])))
  }

  /** A sequence is a subsequence of itself. */
  lemma {:induction false} SubsequenceReflexive<T>(s: seq<T>)
    ensures IsSubsequence(s, s)
    decreases |s|
  {
    if |s| > 0 {
      SubsequenceReflexive(s[1..]);
    }
  }

  /** Whatever `Filter` keeps, it keeps in the original order. */
  lemma {:induction false} FilterIsSubsequence<T>(keep: T -> bool, s: seq<T>)
    ensures IsSubsequence(Filter(keep, s), s)
    decreases |s|
  {
    if |s| > 0 {
      FilterIsSubsequence(keep, s[1..]);
      var r := Filter(keep, s[1..]);
      if keep(s[0]) {
        assert ([s[0]] + r)[1..] == r;
      } else {
        SubsequenceWeaken(r, s[1..], s[0]);
        assert [s[0]] + s[1..] == s;
      }
    }
  }

  /** Dropping the head of a subsequence keeps it a subsequence of the same sequence. */
  lemma {:induction false} SubsequenceTail<T>(r: seq<T>, s: seq<T>)
    requires |r| > 0 && IsSubsequence(r, s)
    ensures IsSubsequence(r[1..], s)
    decreases |s|, 0
  {
    if r[0] != s[0] {
      SubsequenceTail(r, s[1..]);
    }
    SubsequenceWeaken(r[1..], s[1..], s[0]);
    assert [s[0]] + s[1..] == s;
  }

  /** A subsequence of `s` stays one when an element is put in front of `s`. */
  lemma {:induction false} SubsequenceWeaken<T>(r: seq<T>, s: seq<T>, x: T)
    requires IsSubsequence(r, s)
    ensures IsSubsequence(r, [x] + s)
    decreases |s|, 1
  {
    assert ([x] + s)[1..] == s;
    if |r| > 0 && r[0] == x {
      SubsequenceTail(r, s);
    }
  }

  /** Filtering twice with the same test is filtering once. */
  lemma {:induction false} FilterIdempotent<T>(keep: T -> bool, s: seq<T>)
    ensures Filter(keep, Filter(keep, s)) == Filter(keep, s)
    decreases |s|
  {
    if |s| > 0 {
      FilterIdempotent(keep, s[1..]);
      if keep(s[0]) {
        var r := Filter(keep, s[1..]);
        assert ([s[0]] + r)[0] == s[0];
        assert ([s[0]] + r)[1..] == r;
      }
    }
  }

  /** A test every element passes keeps the whole sequence. */
  lemma {:induction false} FilterKeepsAll<T>(keep: T -> bool, s: seq<T>)
    requires forall i :: 0 <= i < |s| ==> keep(s[i])
    ensures Filter(keep, s) == s
    decreases |s|
  {
    if |s| > 0 {
      FilterKeepsAll(keep, s[1..]);
      assert [s[0]] + s[1..] == s;
    }
  }

  /** A test no element passes gives the empty sequence. */
  lemma {:induction false} FilterKeepsNone<T>(keep: T -> bool, s: seq<T>)
    requires forall i :: 0 <= i < |s| ==> !keep(s[i])
    ensures Filter(keep, s) == []
    decreases |s|
  {
    if |s| > 0 {
      FilterKeepsNone(keep, s[1..]);
    }
  }

  /** An element is in the filtered sequence exactly when it is in the input
      and passes the test. */
  lemma FilterMembership<T>(keep: T -> bool, s: seq<T>, x: T)
    ensures x in Filter(keep, s) <==> x in s && keep(x)
  {
    var r := Filter(keep, s);
    if x in s && keep(x) {
      var i :| 0 <= i < |s| && s[i] == x;
    }
  }

  /** Filtering by a test after filtering by a weaker one is filtering by the
      stronger test alone. */
  lemma {:induction false} FilterAbsorbs<T>(outer: T -> bool, inner: T -> bool, s: seq<T>)
    requires forall x :: outer(x) ==> inner(x)
    ensures Filter(outer, Filter(inner, s)) == Filter(outer, s)
    decreases |s|
  {
    if |s| > 0 {
      FilterAbsorbs(outer, inner, s[1..]);
      if inner(s[0]) {
        var r := Filter(inner, s[1..]);
        assert ([s[0]] + r)[0] == s[0];
        assert ([s[0]] + r)[1..] == r;
      }
    }
  }

  /** Two tests that agree on every element filter alike. */
  lemma {:induction false} FilterCongruent<T>(p: T -> bool, q: T -> bool, s: seq<T>)
    requires forall i :: 0 <= i < |s| ==> p(s[i]) == q(s[i])
    ensures Filter(p, s) == Filter(q, s)
    decreases |s|
  {
    if |s| > 0 {
      FilterCongruent(p, q, s[1..]);
    }
  }

  /** How many elements of `s` pass the test. */
  function Count<T>(keep: T -> bool, s: seq<T>): nat
    decreases |s|
  {
    if |s| == 0 then 0 else (if keep(s[0]) then 1 else 0) + Count(keep, s[1..])
  }

  /** `Filter` keeps one element for every element that passes. */
  lemma {:induction false} FilterLength<T>(keep: T -> bool, s: seq<T>)
    ensures |Filter(keep, s)| == Count(keep, s)
    decreases |s|
  {
    if |s| > 0 {
      FilterLength(keep, s[1..]);
    }
  }

  /** Mapping both sides keeps a subsequence a subsequence. */
  lemma {:induction false} MapSubsequence<T, U>(f: T -> U, r: seq<T>, s: seq<T>)
    requires IsSubsequence(r, s)
    ensures IsSubsequence(Map(f, r), Map(f, s))
    decreases |s|
  {
    if |r| > 0 {
      assert Map(f, s)[1..] == Map(f, s[1..]);
      if r[0] == s[0] {
        MapSubsequence(f, r[1..], s[1..]);
        assert Map(f, r)[1..] == Map(f, r[1..]);
      } else {
        MapSubsequence(f, r, s[1..]);
        if Map(f, r)[0] == Map(f, s)[0] {
          SubsequenceTail(Map(f, r), Map(f, s[1..]));
        }
      }
    }
  }

  /** JavaScript `s.find(p)`: the first element that passes, if any. */
  function Find<T>(p: T -> bool, s: seq<T>): (r: Option<T>)
    ensures r.Some? ==> p(r.value)
    ensures r.Some? <==> exists i :: 0 <= i < |s| && p(s[i])
    ensures r.Some? ==> exists i :: 0 <= i < |s| && s[i] == r.value && forall j :: 0 <= j < i ==> !p(s[j])
    decreases |s|
  {
    if |s| == 0 then None
    else if p(s[0]) then Some(s[0])
    else
      var r := Find(p, s[1..]);
      assert forall i :: 1 <= i < |s| ==> s[i] == s[1..][i - 1];
      r
  }

  /** `s` is in ascending order of `key`. */
  ghost predicate SortedBy<T>(key: T -> real, s: seq<T>) {
    forall i, j :: 0 <= i < j < |s| ==> key(s[i]) <= key(s[j])
  }

  /** Puts `x` in front of the first element of `s` whose key is not smaller,
      so that earlier elements stay ahead of equal later ones. */
  function InsertBy<T>(key: T -> real, x: T, s: seq<T>): seq<T>
    decreases |s|
  {
    if |s| == 0 then [x]
    else if key(x) <= key(s[0]) then [x] + s
    else [s[0]] + InsertBy(key, x, s[1..])
  }

  /** Inserting adds exactly `x`, and the first element is `x` or the old
      first element. */
  lemma {:induction false} InsertByElements<T>(key: T -> real, x: T, s: seq<T>)
    ensures multiset(InsertBy(key, x, s)) == multiset(s) + multiset{x}
    ensures InsertBy(key, x, s)[0] == x || (|s| > 0 && InsertBy(key, x, s)[0] == s[0])
    decreases |s|
  {
    if |s| > 0 && key(x) > key(s[0]) {
      InsertByElements(key, x, s[1..]);
      assert s == [s[0]] + s[1..];
    }
  }

  /** Inserting into a sorted sequence keeps it sorted and adds exactly `x`. */
  lemma {:induction false} InsertBySorted<T>(key: T -> real, x: T, s: seq<T>)
    requires SortedBy(key, s)
    ensures SortedBy(key, InsertBy(key, x, s))
    ensures multiset(InsertBy(key, x, s)) == multiset(s) + multiset{x}
    decreases |s|
  {
    InsertByElements(key, x, s);
    if |s| > 0 && key(x) > key(s[0]) {
      InsertBySorted(key, x, s[1..]);
      InsertByElements(key, x, s[1..]);
      var t := InsertBy(key, x, s[1..]);
      assert key(s[0]) <= key(t[0]);
      var r := [s[0]] + t;
      forall i, j | 0 <= i < j < |r|
        ensures key(r[i]) <= key(r[j])
      {
        assert r[j] == t[j - 1];
        if i > 0 {
          assert r[i] == t[i - 1];
        }
      }
    }
  }

  /** JavaScript `s.sort((a, b) => key(a) - key(b))`, a stable sort. */
  function SortBy<T>(key: T -> real, s: seq<T>): seq<T>
    decreases |s|
  {
    if |s| == 0 then [] else InsertBy(key, s[0], SortBy(key, s[1..]))
  }

  /** Sorting yields the same elements in ascending order of `key`. */
  lemma {:induction false} SortBySorted<T>(key: T -> real, s: seq<T>)
    ensures SortedBy(key, SortBy(key, s))
    ensures multiset(SortBy(key, s)) == multiset(s)
    decreases |s|
  {
    if |s| > 0 {
      SortBySorted(key, s[1..]);
      InsertBySorted(key, s[0], SortBy(key, s[1..]));
      assert s == [s[0]] + s[1..];
    }
  }

  /** JavaScript `s.map(f)`. */
  function Map<T, U>(f: T -> U, s: seq<T>): (r: seq<U>)
    ensures |r| == |s|
    ensures forall i :: 0 <= i < |s| ==> r[i] == f(s[i])
  {
    seq(|s|, i requires 0 <= i < |s| => f(s[i]))
  }
}
