/** Sequence vocabulary shared by the descriptor-list modules. */
module Seqs {

  /** The elements of `s` that satisfy `keep`, in order. */
  function Filter<T(!new)>(s: seq<T>, keep: T -> bool): (r: seq<T>)
    ensures forall x :: x in r <==> x in s && keep(x)
    ensures |r| <= |s|
  {
    if s == [] then []
    else (if keep(s[0]) then [s[0]] else []) + Filter(s[1..], keep)
  }

  lemma {:induction false} FilterAppend<T(!new)>(a: seq<T>, b: seq<T>, keep: T -> bool)
    ensures Filter(a + b, keep) == Filter(a, keep) + Filter(b, keep)
  {
    if a == [] {
      assert a + b == b;
    } else {
      assert (a + b)[1..] == a[1..] + b;
      FilterAppend(a[1..], b, keep);
    }
  }

  /** Filtering looks at the predicate's values on the sequence only. */
  lemma {:induction false} FilterCongruent<T(!new)>(s: seq<T>, f: T -> bool, g: T -> bool)
    requires forall x :: x in s ==> f(x) == g(x)
    ensures Filter(s, f) == Filter(s, g)
  {
    if s != [] {
      FilterCongruent(s[1..], f, g);
    }
  }

  lemma {:induction false} FilterAll<T(!new)>(s: seq<T>, keep: T -> bool)
    requires forall x :: x in s ==> keep(x)
    ensures Filter(s, keep) == s
  {
    if s != [] {
      FilterAll(s[1..], keep);
    }
  }

  /** Filtering twice keeps what passes both tests. */
  lemma {:induction false} FilterFilter<T(!new)>(s: seq<T>, f: T -> bool, g: T -> bool, both: T -> bool)
    requires forall x :: both(x) == (f(x) && g(x))
    ensures Filter(Filter(s, f), g) == Filter(s, both)
  {
    if s != [] {
      FilterFilter(s[1..], f, g, both);
      FilterAppend(if f(s[0]) then [s[0]] else [], Filter(s[1..], f), g);
      assert Filter([s[0]], g) == if g(s[0]) then [s[0]] else [];
    }
  }

  /** Every earlier element is related to every later one. */
  ghost predicate Pairwise<T(!new)>(s: seq<T>, rel: (T, T) -> bool) {
    forall i, j :: 0 <= i < j < |s| ==> rel(s[i], s[j])
  }

  lemma PairwiseNone<T(!new)>(rel: (T, T) -> bool)
    ensures Pairwise([], rel)
  {
  }

  lemma PairwiseCons<T(!new)>(x: T, rest: seq<T>, rel: (T, T) -> bool)
    ensures Pairwise([x] + rest, rel) <==> Pairwise(rest, rel) && forall y :: y in rest ==> rel(x, y)
  {
    var s := [x] + rest;
    if Pairwise(s, rel) {
      forall y | y in rest
        ensures rel(x, y)
      {
        var k :| 0 <= k < |rest| && rest[k] == y;
        assert s[0] == x && s[k + 1] == y;
      }
      forall i, j | 0 <= i < j < |rest|
        ensures rel(rest[i], rest[j])
      {
        assert rest[i] == s[i + 1] && rest[j] == s[j + 1];
      }
    }
  }

  lemma {:induction false} FilterPairwise<T(!new)>(s: seq<T>, keep: T -> bool, rel: (T, T) -> bool)
    requires Pairwise(s, rel)
    ensures Pairwise(Filter(s, keep), rel)
  {
    if s != [] {
      assert Pairwise(s[1..], rel);
      FilterPairwise(s[1..], keep, rel);
      forall x | x in Filter(s[1..], keep)
        ensures rel(s[0], x)
      {
        var k :| 0 <= k < |s[1..]| && s[1..][k] == x;
        assert s[k + 1] == x;
      }
    }
  }
}
