/** Sorting by a string key, and why the result does not depend on the order of the input. */
module Sorting {
  import opened Text

  function InsertBy<T>(x: T, s: seq<T>, key: T -> string): seq<T> {
    if s == [] then [x]
    else if Less(key(s[0]), key(x)) then [s[0]] + InsertBy(x, s[1..], key)
    else [x] + s
  }

  function SortBy<T>(s: seq<T>, key: T -> string): seq<T> {
    if s == [] then [] else InsertBy(s[0], SortBy(s[1..], key), key)
  }

  /** Keys strictly increase. */
  ghost predicate Ascending<T>(s: seq<T>, key: T -> string) {
    forall i, j :: 0 <= i < j < |s| ==> Less(key(s[i]), key(s[j]))
  }

  ghost predicate DistinctKeys<T>(s: seq<T>, key: T -> string) {
    forall i, j :: 0 <= i < j < |s| ==> key(s[i]) != key(s[j])
  }

  lemma {:induction false} InsertMembers<T(!new)>(x: T, s: seq<T>, key: T -> string)
    ensures forall y :: y in InsertBy(x, s, key) <==> y == x || y in s
  {
    if s != [] && Less(key(s[0]), key(x)) {
      InsertMembers(x, s[1..], key);
      assert s == [s[0]] + s[1..];
    }
  }

  lemma {:induction false} InsertAscending<T(!new)>(x: T, s: seq<T>, key: T -> string)
    requires Ascending(s, key) && forall y :: y in s ==> key(y) != key(x)
    ensures Ascending(InsertBy(x, s, key), key)
  {
    hide Less;
    if s != [] {
      var rest := s[1..];
      assert Ascending(rest, key);
      forall y | y in rest
        ensures Less(key(s[0]), key(y))
      {
        var k :| 0 <= k < |rest| && rest[k] == y;
        assert s[k + 1] == y;
      }
      LessTotal(key(s[0]), key(x));
      if Less(key(s[0]), key(x)) {
        InsertAscending(x, rest, key);
        InsertMembers(x, rest, key);
      } else {
        forall y | y in s
          ensures Less(key(x), key(y))
        {
          if y != s[0] {
            assert y in rest;
            LessTransitive(key(x), key(s[0]), key(y));
          }
        }
      }
    }
  }

  lemma {:induction false} SortMembers<T(!new)>(s: seq<T>, key: T -> string)
    ensures forall y :: y in SortBy(s, key) <==> y in s
  {
    if s != [] {
      SortMembers(s[1..], key);
      InsertMembers(s[0], SortBy(s[1..], key), key);
      assert s == [s[0]] + s[1..];
    }
  }

  lemma {:induction false} SortAscending<T(!new)>(s: seq<T>, key: T -> string)
    requires DistinctKeys(s, key)
    ensures Ascending(SortBy(s, key), key)
  {
    if s != [] {
      assert DistinctKeys(s[1..], key);
      SortAscending(s[1..], key);
      SortMembers(s[1..], key);
      InsertAscending(s[0], SortBy(s[1..], key), key);
    }
  }

  /** In an ascending sequence order of keys is order of places. */
  lemma AscendingPlaces<T>(s: seq<T>, key: T -> string, i: nat, j: nat)
    requires Ascending(s, key) && i < |s| && j < |s| && Less(key(s[i]), key(s[j]))
    ensures i < j
  {
    if i == j {
      LessIrreflexive(key(s[i]));
    } else if j < i {
      LessTransitive(key(s[i]), key(s[j]), key(s[i]));
      LessIrreflexive(key(s[i]));
    }
  }

  lemma HeadIsLeast<T(!new)>(s: seq<T>, key: T -> string, y: T)
    requires Ascending(s, key) && y in s && s != []
    ensures y == s[0] || Less(key(s[0]), key(y))
  {
  }

  /** Two ascending sequences with the same members are the same: what was sorted does not matter. */
  lemma {:induction false} AscendingUnique<T(!new)>(a: seq<T>, b: seq<T>, key: T -> string)
    requires Ascending(a, key) && Ascending(b, key)
    requires forall y :: y in a <==> y in b
    ensures a == b
  {
    hide Less;
    if a == [] {
      EmptyOrMember(b);
    } else {
      assert a[0] in b;
      assert b[0] in a;
      HeadIsLeast(b, key, a[0]);
      HeadIsLeast(a, key, b[0]);
      SameHead(key(a[0]), key(b[0]));
      assert a[0] == b[0];
      TailMembers(a, key);
      TailMembers(b, key);
      AscendingUnique(a[1..], b[1..], key);
    }
  }

  lemma EmptyOrMember<T(!new)>(s: seq<T>)
    ensures s == [] || exists y :: y in s
  {
    if s != [] {
      assert s[0] in s;
    }
  }

  lemma SameHead(x: string, y: string)
    ensures !(Less(x, y) && Less(y, x))
  {
    if Less(x, y) && Less(y, x) {
      LessTransitive(x, y, x);
      LessIrreflexive(x);
    }
  }

  lemma TailMembers<T(!new)>(s: seq<T>, key: T -> string)
    requires Ascending(s, key) && s != []
    ensures Ascending(s[1..], key)
    ensures forall y :: y in s[1..] <==> y in s && y != s[0]
  {
    forall i | 1 <= i < |s|
      ensures s[i] != s[0]
    {
      LessIrreflexive(key(s[0]));
    }
    assert s == [s[0]] + s[1..];
  }
}
