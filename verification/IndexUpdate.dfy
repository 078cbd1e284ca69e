/**
  Updating the index that a name already has in the cache (`IndexWrite`): given
  descriptors replace old entries for the same platform, and attestations about
  something no longer listed are dropped.
 */
module IndexUpdate {
  import opened Results
  import opened Seqs
  import opened Oci
  import opened Text

  /** OS, architecture and OS version as one text; the variant is not part of it. */
  function UpdateKey(m: Descriptor): string
    requires m.platform.Some?
  {
    m.platform.value.os + "/" + m.platform.value.architecture + "/" + m.platform.value.osVersion
  }

  /** An entry that replaces by key: it has a platform other than unknown/unknown. */
  predicate Replaces(m: Descriptor) {
    m.platform.Some? && !IsUnknown(m)
  }

  predicate HasReference(m: Descriptor) {
    ANNOTATION_REFERENCE_DIGEST in m.annotations
  }

  // ----- the loops, one element at a time -----

  /** The last given descriptor for each key. */
  function LastGiven(given: seq<Descriptor>): (r: map<string, Descriptor>) {
    if given == [] then map[]
    else
      var m := given[|given| - 1];
      var earlier := LastGiven(given[..|given| - 1]);
      if Replaces(m) then earlier[UpdateKey(m) := m] else earlier
  }

  function Others(given: seq<Descriptor>): seq<Descriptor> {
    Filter(given, (m: Descriptor) => !Replaces(m))
  }

  /** The old entries, the first one for each key of `repl` replaced by it. */
  function Swapped(before: seq<Descriptor>, repl: map<string, Descriptor>): seq<Descriptor> {
    if before == [] then []
    else
      var m := before[0];
      if m.platform.Some? && UpdateKey(m) in repl then
        [repl[UpdateKey(m)]] + Swapped(before[1..], repl - {UpdateKey(m)})
      else
        [m] + Swapped(before[1..], repl)
  }

  function Keys(s: seq<Descriptor>): set<string> {
    set m | m in s && m.platform.Some? :: UpdateKey(m)
  }

  /** The descriptors that no old entry made room for, in the order a map iteration happened to give. */
  function InOrder(order: seq<string>, repl: map<string, Descriptor>): seq<Descriptor>
    requires forall k :: k in order ==> k in repl
  {
    if order == [] then [] else [repl[order[0]]] + InOrder(order[1..], repl)
  }

  /** A map iteration order: every key once. */
  predicate Enumerates(order: seq<string>, keys: set<string>) {
    (forall k :: k in order ==> k in keys)
    && (forall k :: k in keys ==> k in order)
    && forall i, j :: 0 <= i < j < |order| ==> order[i] != order[j]
  }

  /** The list before the clean-up. */
  function Combined(before: seq<Descriptor>, given: seq<Descriptor>, order: seq<string>): seq<Descriptor>
    requires Enumerates(order, LastGiven(given).Keys - Keys(before))
  {
    Swapped(before, LastGiven(given)) + InOrder(order, LastGiven(given)) + Others(given)
  }

  /** Texts of the digests in the list. */
  function Texts(s: seq<Descriptor>): set<string> {
    set m | m in s :: m.digest.ToString()
  }

  /** An entry stays unless it refers to something that is not listed. */
  predicate Stays(m: Descriptor, texts: set<string>) {
    HasReference(m) ==> Reference(m) in texts
  }

  /** The clean-up: of the entries that stay, the first with each digest. */
  function Tidy(s: seq<Descriptor>, texts: set<string>, applied: set<Hash>): seq<Descriptor> {
    if s == [] then []
    else if s[0].digest in applied || !Stays(s[0], texts) then Tidy(s[1..], texts, applied)
    else [s[0]] + Tidy(s[1..], texts, applied + {s[0].digest})
  }

  function Update(before: seq<Descriptor>, given: seq<Descriptor>, order: seq<string>): seq<Descriptor>
    requires Enumerates(order, LastGiven(given).Keys - Keys(before))
  {
    var all := Combined(before, given, order);
    Tidy(all, Texts(all), {})
  }

  // ----- what each part holds -----

  lemma {:induction false} LastGivenKeys(given: seq<Descriptor>)
    ensures var repl := LastGiven(given);
      && (forall k :: k in repl ==> repl[k] in given && Replaces(repl[k]) && UpdateKey(repl[k]) == k)
      && (forall m :: m in given && Replaces(m) ==> UpdateKey(m) in repl)
  {
    hide IsUnknown, UpdateKey;
    if given != [] {
      var m := given[|given| - 1];
      LastGivenKeys(given[..|given| - 1]);
      assert given == given[..|given| - 1] + [m];
      var repl := LastGiven(given);
      forall k | k in repl
        ensures repl[k] in given && Replaces(repl[k]) && UpdateKey(repl[k]) == k
      {
        if !Replaces(m) || k != UpdateKey(m) {
          assert repl[k] == LastGiven(given[..|given| - 1])[k];
        }
      }
    }
  }

  /** A descriptor that no later one shares its key with is the one that counts. */
  lemma {:induction false} LastGivenIsLast(given: seq<Descriptor>, i: nat)
    requires i < |given| && Replaces(given[i])
    requires forall j :: i < j < |given| && Replaces(given[j]) ==> UpdateKey(given[j]) != UpdateKey(given[i])
    ensures UpdateKey(given[i]) in LastGiven(given) && LastGiven(given)[UpdateKey(given[i])] == given[i]
  {
    hide IsUnknown, UpdateKey;
    var n := |given| - 1;
    if i < n {
      LastGivenIsLast(given[..n], i);
      assert Replaces(given[n]) ==> UpdateKey(given[n]) != UpdateKey(given[i]);
    }
  }

  lemma {:induction false} SwappedFrom(before: seq<Descriptor>, repl: map<string, Descriptor>)
    ensures forall x :: x in Swapped(before, repl) ==>
      x in before || exists k :: k in repl && k in Keys(before) && x == repl[k]
  {
    hide UpdateKey;
    if before != [] {
      var m := before[0];
      KeysCons(before);
      if m.platform.Some? && UpdateKey(m) in repl {
        SwappedFrom(before[1..], repl - {UpdateKey(m)});
      } else {
        SwappedFrom(before[1..], repl);
      }
    }
  }

  lemma {:induction false} SwappedHolds(before: seq<Descriptor>, repl: map<string, Descriptor>)
    ensures forall k :: k in repl && k in Keys(before) ==> repl[k] in Swapped(before, repl)
    ensures forall m :: m in before && (m.platform.None? || UpdateKey(m) !in repl) ==> m in Swapped(before, repl)
  {
    hide UpdateKey;
    if before != [] {
      var m := before[0];
      KeysCons(before);
      if m.platform.Some? && UpdateKey(m) in repl {
        SwappedHolds(before[1..], repl - {UpdateKey(m)});
      } else {
        SwappedHolds(before[1..], repl);
      }
    }
  }

  lemma KeysCons(s: seq<Descriptor>)
    requires s != []
    ensures Keys(s) == Keys(s[1..]) + if s[0].platform.Some? then {UpdateKey(s[0])} else {}
  {
    assert s == [s[0]] + s[1..];
  }

  lemma {:induction false} InOrderMembers(order: seq<string>, repl: map<string, Descriptor>)
    requires forall k :: k in order ==> k in repl
    ensures forall x :: x in InOrder(order, repl) <==> exists k :: k in order && x == repl[k]
  {
    if order != [] {
      InOrderMembers(order[1..], repl);
      assert order == [order[0]] + order[1..];
    }
  }

  /** The list before the clean-up: the last given descriptor for every key, the old entries with
      untouched keys, and the given entries without one; whatever the map order. */
  lemma CombinedMembers(before: seq<Descriptor>, given: seq<Descriptor>, order: seq<string>)
    requires Enumerates(order, LastGiven(given).Keys - Keys(before))
    ensures var all := Combined(before, given, order);
      var repl := LastGiven(given);
      && (forall k :: k in repl ==> repl[k] in all)
      && (forall m :: m in before && (m.platform.None? || UpdateKey(m) !in repl) ==> m in all)
      && (forall m :: m in given && !Replaces(m) ==> m in all)
      && (forall m :: m in all ==> m in before || m in given)
  {
    hide UpdateKey, Replaces, Keys;
    var repl := LastGiven(given);
    SwappedFrom(before, repl);
    SwappedHolds(before, repl);
    InOrderMembers(order, repl);
    LastGivenKeys(given);
  }

  /** The map order does not matter for what is in the list. */
  lemma CombinedSameMembers(before: seq<Descriptor>, given: seq<Descriptor>, order: seq<string>, order': seq<string>)
    requires Enumerates(order, LastGiven(given).Keys - Keys(before))
    requires Enumerates(order', LastGiven(given).Keys - Keys(before))
    ensures forall m :: m in Combined(before, given, order) <==> m in Combined(before, given, order')
  {
    hide UpdateKey, Replaces, Keys, Swapped, LastGiven;
    InOrderMembers(order, LastGiven(given));
    InOrderMembers(order', LastGiven(given));
  }

  // ----- the clean-up -----

  lemma {:induction false} TidySound(s: seq<Descriptor>, texts: set<string>, applied: set<Hash>)
    ensures forall m :: m in Tidy(s, texts, applied) ==> m in s && Stays(m, texts) && m.digest !in applied
    ensures DistinctDigests(Tidy(s, texts, applied))
  {
    hide Stays;
    if s != [] {
      TidySound(s[1..], texts, applied);
      TidySound(s[1..], texts, applied + {s[0].digest});
    }
  }

  lemma {:induction false} TidyComplete(s: seq<Descriptor>, texts: set<string>, applied: set<Hash>)
    ensures forall m :: m in s && Stays(m, texts) ==> m.digest in applied + Digests(Tidy(s, texts, applied))
  {
    hide Stays;
    if s != [] {
      TidyComplete(s[1..], texts, applied);
      TidyComplete(s[1..], texts, applied + {s[0].digest});
      var rest := Tidy(s[1..], texts, applied + {s[0].digest});
      assert Digests([s[0]] + rest) == {s[0].digest} + Digests(rest) by {
        assert forall x :: x in [s[0]] + rest <==> x == s[0] || x in rest;
      }
    }
  }

  // ----- what an update guarantees -----

  /** The digests afterwards: those of the listed entries that do not refer to something unlisted. */
  lemma UpdateDigests(before: seq<Descriptor>, given: seq<Descriptor>, order: seq<string>)
    requires Enumerates(order, LastGiven(given).Keys - Keys(before))
    ensures var all := Combined(before, given, order);
      var out := Update(before, given, order);
      && DistinctDigests(out)
      && (forall m :: m in out ==> m in all && Stays(m, Texts(all)))
      && (forall m :: m in all && Stays(m, Texts(all)) ==> m.digest in Digests(out))
  {
    hide Stays, Combined;
    var all := Combined(before, given, order);
    TidySound(all, Texts(all), {});
    TidyComplete(all, Texts(all), {});
  }

  /** Digests are pairwise distinct, no given descriptor and no untouched old image is lost, nothing is invented. */
  lemma UpdateKeepsImages(before: seq<Descriptor>, given: seq<Descriptor>, order: seq<string>)
    requires Enumerates(order, LastGiven(given).Keys - Keys(before))
    ensures var out := Update(before, given, order);
      var repl := LastGiven(given);
      && DistinctDigests(out)
      && (forall k :: k in repl && !HasReference(repl[k]) ==> repl[k].digest in Digests(out))
      && (forall m :: m in before && Replaces(m) && UpdateKey(m) !in repl && !HasReference(m) ==> m.digest in Digests(out))
      && (forall m :: m in out ==> m in before || m in given)
  {
    hide Combined, Replaces, UpdateKey, Keys, LastGiven, Digests, HasReference, Tidy;
    CombinedMembers(before, given, order);
    UpdateDigests(before, given, order);
    var all := Combined(before, given, order);
    forall m | m in all && !HasReference(m)
      ensures Stays(m, Texts(all))
    {
    }
  }

  /** References are never chained: what is referred to does not itself refer on. */
  predicate NoChains(s: seq<Descriptor>) {
    forall a, b :: a in s && b in s && HasReference(a) && Reference(a) == b.digest.ToString() ==> !HasReference(b)
  }

  /** Nothing in the updated index refers to something that is not in it. */
  lemma UpdateLeavesNothingDangling(before: seq<Descriptor>, given: seq<Descriptor>, order: seq<string>)
    requires Enumerates(order, LastGiven(given).Keys - Keys(before))
    requires NoChains(before + given)
    ensures forall m :: m in Update(before, given, order) && HasReference(m) ==>
      Reference(m) in Texts(Update(before, given, order))
  {
    hide Combined, Replaces, UpdateKey, Keys, LastGiven, HasReference, Reference, Tidy;
    var all := Combined(before, given, order);
    var out := Update(before, given, order);
    CombinedMembers(before, given, order);
    UpdateDigests(before, given, order);
    forall m | m in out && HasReference(m)
      ensures Reference(m) in Texts(out)
    {
      assert m in all && Stays(m, Texts(all));
      var b :| b in all && b.digest.ToString() == Reference(m);
      assert m in before + given && b in before + given;
      assert Stays(b, Texts(all));
      var c :| c in out && c.digest == b.digest;
    }
  }

  /** The digests of the result are the same for every map iteration order. */
  lemma UpdateOrderIrrelevant(before: seq<Descriptor>, given: seq<Descriptor>, order: seq<string>, order': seq<string>)
    requires Enumerates(order, LastGiven(given).Keys - Keys(before))
    requires Enumerates(order', LastGiven(given).Keys - Keys(before))
    ensures Digests(Update(before, given, order)) == Digests(Update(before, given, order'))
  {
    hide Combined, Keys, LastGiven, Stays, Tidy, Enumerates;
    CombinedSameMembers(before, given, order, order');
    assert Texts(Combined(before, given, order)) == Texts(Combined(before, given, order'));
    UpdateDigests(before, given, order);
    UpdateDigests(before, given, order');
  }

  // ----- one image per key -----

  predicate KeysDiffer(a: Descriptor, b: Descriptor) {
    Replaces(a) && Replaces(b) ==> UpdateKey(a) != UpdateKey(b)
  }

  ghost predicate OneImagePerKey(s: seq<Descriptor>) {
    Pairwise(s, KeysDiffer)
  }

  /** Entry `i` is the first with its key, which is being replaced. */
  predicate SwappedAt(before: seq<Descriptor>, repl: map<string, Descriptor>, i: int)
    requires 0 <= i < |before|
  {
    before[i].platform.Some? && UpdateKey(before[i]) in repl
    && forall h :: 0 <= h < i && before[h].platform.Some? ==> UpdateKey(before[h]) != UpdateKey(before[i])
  }

  /** What stands at place `i` afterwards. */
  function Placed(before: seq<Descriptor>, repl: map<string, Descriptor>, i: int): Descriptor
    requires 0 <= i < |before|
  {
    if SwappedAt(before, repl, i) then repl[UpdateKey(before[i])] else before[i]
  }

  /**
    An unknown/unknown entry stands before an image with the same text as key; as the first
    with that key it is what gets replaced.
   */
  predicate Clash(before: seq<Descriptor>, repl: map<string, Descriptor>, i: int, j: int)
    requires 0 <= i < j < |before|
  {
    SwappedAt(before, repl, i) && IsUnknown(before[i]) && Replaces(before[j]) && UpdateKey(before[i]) == UpdateKey(before[j])
  }

  predicate Clashes(before: seq<Descriptor>, repl: map<string, Descriptor>) {
    exists i, j :: 0 <= i < j < |before| && Clash(before, repl, i, j)
  }

  lemma {:induction false} SwappedPlaces(before: seq<Descriptor>, repl: map<string, Descriptor>)
    ensures |Swapped(before, repl)| == |before|
    ensures forall i :: 0 <= i < |before| ==> Swapped(before, repl)[i] == Placed(before, repl, i)
  {
    hide UpdateKey;
    if before != [] {
      var m, rest := before[0], before[1..];
      var less := if m.platform.Some? && UpdateKey(m) in repl then repl - {UpdateKey(m)} else repl;
      SwappedPlaces(rest, less);
      assert SwappedAt(before, repl, 0) <==> m.platform.Some? && UpdateKey(m) in repl;
      forall i | 0 < i < |before|
        ensures Swapped(before, repl)[i] == Placed(before, repl, i)
      {
        SwappedAtTail(before, repl, less, i - 1);
        assert Swapped(before, repl)[i] == Swapped(rest, less)[i - 1];
      }
    }
  }

  lemma SwappedAtTail(before: seq<Descriptor>, repl: map<string, Descriptor>, less: map<string, Descriptor>, i: nat)
    requires i + 1 < |before|
    requires less == if before[0].platform.Some? && UpdateKey(before[0]) in repl then repl - {UpdateKey(before[0])} else repl
    ensures Placed(before[1..], less, i) == Placed(before, repl, i + 1)
  {
    hide UpdateKey;
    var rest := before[1..];
    assert forall h :: 0 <= h <= i ==> rest[h] == before[h + 1];
    assert forall h :: 0 < h <= i + 1 ==> before[h] == rest[h - 1];
    assert SwappedAt(rest, less, i) <==> SwappedAt(before, repl, i + 1);
  }

  /** Two places hold images for one key afterwards exactly when there is a clash. */
  lemma SameKeyIffClash(before: seq<Descriptor>, repl: map<string, Descriptor>, i: int, j: int)
    requires forall k :: k in repl ==> Replaces(repl[k]) && UpdateKey(repl[k]) == k
    requires OneImagePerKey(before) && 0 <= i < j < |before|
    ensures !KeysDiffer(Placed(before, repl, i), Placed(before, repl, j)) <==> Clash(before, repl, i, j)
  {
    hide UpdateKey;
    assert KeysDiffer(before[i], before[j]);
  }

  lemma {:induction false} InOrderOnePerKey(order: seq<string>, repl: map<string, Descriptor>)
    requires forall k :: k in order ==> k in repl
    requires forall i, j :: 0 <= i < j < |order| ==> order[i] != order[j]
    requires forall k :: k in repl ==> Replaces(repl[k]) && UpdateKey(repl[k]) == k
    ensures OneImagePerKey(InOrder(order, repl))
    ensures forall x :: x in InOrder(order, repl) ==> Replaces(x) && UpdateKey(x) in order
  {
    hide Replaces, UpdateKey;
    if order != [] {
      InOrderOnePerKey(order[1..], repl);
    }
  }

  /** The list before the clean-up has two images for a key exactly where the old entries clash. */
  lemma CombinedPairs(before: seq<Descriptor>, given: seq<Descriptor>, order: seq<string>, i: int, j: int)
    requires Enumerates(order, LastGiven(given).Keys - Keys(before))
    requires OneImagePerKey(before) && 0 <= i < j < |Combined(before, given, order)|
    ensures !KeysDiffer(Combined(before, given, order)[i], Combined(before, given, order)[j]) <==>
      j < |before| && Clash(before, LastGiven(given), i, j)
    ensures forall h :: 0 <= h < |before| ==>
      h < |Combined(before, given, order)| && Combined(before, given, order)[h] == Placed(before, LastGiven(given), h)
  {
    hide UpdateKey, IsUnknown, Swapped, LastGiven, Placed, Clash, Pairwise;
    var repl := LastGiven(given);
    var swapped, added, others := Swapped(before, repl), InOrder(order, repl), Others(given);
    var all := Combined(before, given, order);
    LastGivenKeys(given);
    SwappedPlaces(before, repl);
    if j < |before| {
      SameKeyIffClash(before, repl, i, j);
    } else {
      InOrderOnePerKey(order, repl);
      if j >= |swapped + added| {
        assert all[j] in others;
      } else if i < |before| {
        assert all[j] in added && all[i] in swapped;
        SwappedKeys(before, repl);
      } else {
        var u, v := i - |before|, j - |before|;
        assert all[i] == added[u] && all[j] == added[v];
        PairwiseAt(added, u, v);
      }
    }
  }

  lemma PairwiseAt(s: seq<Descriptor>, i: int, j: int)
    requires OneImagePerKey(s) && 0 <= i < j < |s|
    ensures KeysDiffer(s[i], s[j])
  {
  }

  /** Entries of the swapped list have old keys. */
  lemma SwappedKeys(before: seq<Descriptor>, repl: map<string, Descriptor>)
    requires forall k :: k in repl ==> Replaces(repl[k]) && UpdateKey(repl[k]) == k
    ensures forall x :: x in Swapped(before, repl) && x.platform.Some? ==> UpdateKey(x) in Keys(before)
  {
    hide Replaces, UpdateKey;
    SwappedFrom(before, repl);
  }

  lemma SameKeySameEntry(s: seq<Descriptor>, a: Descriptor, b: Descriptor)
    requires OneImagePerKey(s) && a in s && b in s
    requires Replaces(a) && Replaces(b) && UpdateKey(a) == UpdateKey(b)
    ensures a == b
  {
    hide IsUnknown, UpdateKey;
    var i :| 0 <= i < |s| && s[i] == a;
    var j :| 0 <= j < |s| && s[j] == b;
    assert forall u, v :: 0 <= u < v < |s| ==> KeysDiffer(s[u], s[v]);
  }

  /** Exactly when the list before the clean-up is at one image per key, from an old index that was. */
  lemma CombinedOnePerKeyIff(before: seq<Descriptor>, given: seq<Descriptor>, order: seq<string>)
    requires Enumerates(order, LastGiven(given).Keys - Keys(before))
    requires OneImagePerKey(before)
    ensures OneImagePerKey(Combined(before, given, order)) <==> !Clashes(before, LastGiven(given))
  {
    hide Combined, LastGiven, KeysDiffer, Clash, Placed;
    var all := Combined(before, given, order);
    forall i, j | 0 <= i < j < |all|
      ensures !KeysDiffer(all[i], all[j]) <==> j < |before| && Clash(before, LastGiven(given), i, j)
    {
      CombinedPairs(before, given, order, i, j);
    }
    CombinedLength(before, given, order);
    assert forall i, j :: 0 <= i < j < |before| && Clash(before, LastGiven(given), i, j) ==> !KeysDiffer(all[i], all[j]);
  }

  lemma CombinedLength(before: seq<Descriptor>, given: seq<Descriptor>, order: seq<string>)
    requires Enumerates(order, LastGiven(given).Keys - Keys(before))
    ensures |Combined(before, given, order)| >= |before|
  {
    SwappedPlaces(before, LastGiven(given));
  }

  // ----- one image per key after the clean-up -----

  /** The clean-up keeps place `i`: the entry stays, and no earlier entry that stays has its digest. */
  predicate KeptAt(s: seq<Descriptor>, texts: set<string>, applied: set<Hash>, i: int)
    requires 0 <= i < |s|
  {
    Stays(s[i], texts) && s[i].digest !in applied
    && forall h :: 0 <= h < i && Stays(s[h], texts) ==> s[h].digest != s[i].digest
  }

  lemma KeptAtTail(s: seq<Descriptor>, texts: set<string>, applied: set<Hash>, i: nat)
    requires i + 1 < |s|
    ensures KeptAt(s, texts, applied, i + 1) <==>
      KeptAt(s[1..], texts, if Stays(s[0], texts) then applied + {s[0].digest} else applied, i)
  {
    hide Stays;
    var t := s[1..];
    assert forall h :: 0 <= h <= i ==> t[h] == s[h + 1];
    assert forall h :: 0 < h <= i + 1 ==> s[h] == t[h - 1];
  }

  lemma {:induction false} TidyExact(s: seq<Descriptor>, texts: set<string>, applied: set<Hash>)
    ensures forall x :: x in Tidy(s, texts, applied) <==> exists i :: 0 <= i < |s| && s[i] == x && KeptAt(s, texts, applied, i)
  {
    hide Stays, KeptAt;
    if s != [] {
      var t := s[1..];
      var applied' := if Stays(s[0], texts) then applied + {s[0].digest} else applied;
      TidyStep(s, texts, applied);
      TidyExact(t, texts, applied');
      forall i | 0 <= i < |t|
        ensures KeptAt(s, texts, applied, i + 1) <==> KeptAt(t, texts, applied', i)
      {
        KeptAtTail(s, texts, applied, i);
      }
      assert forall i :: 0 < i < |s| ==> s[i] == t[i - 1] && (KeptAt(s, texts, applied, i) <==> KeptAt(t, texts, applied', i - 1));
    }
  }

  /** One turn of the clean-up. */
  lemma TidyStep(s: seq<Descriptor>, texts: set<string>, applied: set<Hash>)
    requires s != []
    ensures var applied' := if Stays(s[0], texts) then applied + {s[0].digest} else applied;
      Tidy(s, texts, applied) == (if KeptAt(s, texts, applied, 0) then [s[0]] else []) + Tidy(s[1..], texts, applied')
  {
    hide Stays;
    if s[0].digest in applied {
      assert applied + {s[0].digest} == applied;
    }
  }

  /** The result is pairwise related exactly when the kept places are. */
  lemma {:induction false} TidyPairwiseIff(s: seq<Descriptor>, texts: set<string>, applied: set<Hash>, rel: (Descriptor, Descriptor) -> bool)
    ensures Pairwise(Tidy(s, texts, applied), rel) <==>
      forall i, j :: 0 <= i < j < |s| && KeptAt(s, texts, applied, i) && KeptAt(s, texts, applied, j) ==> rel(s[i], s[j])
  {
    hide Stays, KeptAt, Pairwise;
    if s == [] {
      PairwiseNone(rel);
    } else {
      var t := s[1..];
      var applied' := if Stays(s[0], texts) then applied + {s[0].digest} else applied;
      var rest := Tidy(t, texts, applied');
      TidyStep(s, texts, applied);
      TidyPairwiseIff(t, texts, applied', rel);
      TidyExact(t, texts, applied');
      PairwiseCons(s[0], rest, rel);
      assert [] + rest == rest;
      forall i | 0 <= i < |t|
        ensures KeptAt(s, texts, applied, i + 1) <==> KeptAt(t, texts, applied', i)
      {
        KeptAtTail(s, texts, applied, i);
      }
      assert forall i :: 0 < i < |s| ==> s[i] == t[i - 1] && (KeptAt(s, texts, applied, i) <==> KeptAt(t, texts, applied', i - 1));
      ShiftedPairs(s, texts, applied, applied', rel);
    }
  }

  lemma ShiftedPairs(s: seq<Descriptor>, texts: set<string>, applied: set<Hash>, applied': set<Hash>, rel: (Descriptor, Descriptor) -> bool)
    requires s != []
    requires forall i :: 0 < i < |s| ==> (KeptAt(s, texts, applied, i) <==> KeptAt(s[1..], texts, applied', i - 1))
    ensures var t := s[1..];
      (forall i, j :: 0 <= i < j < |s| && KeptAt(s, texts, applied, i) && KeptAt(s, texts, applied, j) ==> rel(s[i], s[j])) <==>
      && (forall i, j :: 0 <= i < j < |t| && KeptAt(t, texts, applied', i) && KeptAt(t, texts, applied', j) ==> rel(t[i], t[j]))
      && (KeptAt(s, texts, applied, 0) ==> forall j :: 0 <= j < |t| && KeptAt(t, texts, applied', j) ==> rel(s[0], t[j]))
  {
    hide KeptAt;
    var t := s[1..];
    assert forall i :: 0 <= i < |t| ==> t[i] == s[i + 1] && (KeptAt(t, texts, applied', i) <==> KeptAt(s, texts, applied, i + 1));
  }

  /** Texts of all the digests that are listed before the clean-up, told from the old list and what is given. */
  function ListedTexts(before: seq<Descriptor>, given: seq<Descriptor>): set<string> {
    var repl := LastGiven(given);
    (set i | 0 <= i < |before| :: Placed(before, repl, i).digest.ToString())
    + (set k | k in repl :: repl[k].digest.ToString())
    + Texts(Others(given))
  }

  lemma TextsAreListed(before: seq<Descriptor>, given: seq<Descriptor>, order: seq<string>)
    requires Enumerates(order, LastGiven(given).Keys - Keys(before))
    ensures Texts(Combined(before, given, order)) == ListedTexts(before, given)
  {
    hide UpdateKey, Replaces, Keys, Swapped, LastGiven, Placed;
    var repl := LastGiven(given);
    var all := Combined(before, given, order);
    SwappedPlaces(before, repl);
    SwappedHolds(before, repl);
    InOrderMembers(order, repl);
    forall x | x in all
      ensures x.digest.ToString() in ListedTexts(before, given)
    {
      if x in Swapped(before, repl) {
        var i :| 0 <= i < |before| && Swapped(before, repl)[i] == x;
        assert Placed(before, repl, i) == x;
      }
    }
    forall i | 0 <= i < |before|
      ensures Placed(before, repl, i) in all
    {
      assert Swapped(before, repl)[i] in Swapped(before, repl);
    }
    forall k | k in repl
      ensures repl[k] in all
    {
      assert k in Keys(before) || k in order;
    }
  }

  /** What stands at place `i` is stored: it refers to nothing unlisted, and nothing before it that is so has its digest. */
  predicate StoredAt(before: seq<Descriptor>, given: seq<Descriptor>, i: int)
    requires 0 <= i < |before|
  {
    var repl, texts := LastGiven(given), ListedTexts(before, given);
    Stays(Placed(before, repl, i), texts)
    && forall h :: 0 <= h < i && Stays(Placed(before, repl, h), texts) ==>
      Placed(before, repl, h).digest != Placed(before, repl, i).digest
  }

  lemma KeptIffStored(before: seq<Descriptor>, given: seq<Descriptor>, order: seq<string>, i: int)
    requires Enumerates(order, LastGiven(given).Keys - Keys(before)) && 0 <= i < |before|
    ensures i < |Combined(before, given, order)|
    ensures KeptAt(Combined(before, given, order), Texts(Combined(before, given, order)), {}, i) <==> StoredAt(before, given, i)
  {
    hide LastGiven, Placed, Stays, ListedTexts, Texts;
    SwappedPlaces(before, LastGiven(given));
    TextsAreListed(before, given, order);
    var all := Combined(before, given, order);
    assert forall h :: 0 <= h < |before| ==> all[h] == Placed(before, LastGiven(given), h);
  }

  /**
    Exactly when what is stored stays at one image per key, from an old index that had it:
    no clash puts the replacement and the old image at places that are both stored.
   */
  lemma UpdateOnePerKeyIff(before: seq<Descriptor>, given: seq<Descriptor>, order: seq<string>)
    requires Enumerates(order, LastGiven(given).Keys - Keys(before))
    requires OneImagePerKey(before)
    ensures OneImagePerKey(Update(before, given, order)) <==>
      !exists i, j :: 0 <= i < j < |before| && Clash(before, LastGiven(given), i, j)
                      && StoredAt(before, given, i) && StoredAt(before, given, j)
  {
    hide Combined, LastGiven, KeysDiffer, Clash, Placed, Tidy, KeptAt, StoredAt, Pairwise, Texts, Keys, Enumerates;
    var all := Combined(before, given, order);
    var texts := Texts(all);
    TidyPairwiseIff(all, texts, {}, KeysDiffer);
    CombinedLength(before, given, order);
    forall i | 0 <= i < |before|
      ensures KeptAt(all, texts, {}, i) <==> StoredAt(before, given, i)
    {
      KeptIffStored(before, given, order, i);
    }
    forall i, j | 0 <= i < j < |all|
      ensures !KeysDiffer(all[i], all[j]) <==> j < |before| && Clash(before, LastGiven(given), i, j)
    {
      CombinedPairs(before, given, order, i, j);
    }
    if i, j :| 0 <= i < j < |before| && Clash(before, LastGiven(given), i, j) && StoredAt(before, given, i) && StoredAt(before, given, j) {
      assert KeptAt(all, texts, {}, i) && KeptAt(all, texts, {}, j) && !KeysDiffer(all[i], all[j]);
    }
  }

  /** Place `i` is stored although everything listed under the digest it refers to is dropped. */
  predicate LeftDangling(all: seq<Descriptor>, i: int)
    requires 0 <= i < |all|
  {
    KeptAt(all, Texts(all), {}, i) && HasReference(all[i])
    && forall x :: x in all && x.digest.ToString() == Reference(all[i]) ==> !Stays(x, Texts(all))
  }

  /** Exactly when nothing in the updated index refers to something that is not in it. */
  lemma UpdateLeavesNothingDanglingIff(before: seq<Descriptor>, given: seq<Descriptor>, order: seq<string>)
    requires Enumerates(order, LastGiven(given).Keys - Keys(before))
    ensures var out, all := Update(before, given, order), Combined(before, given, order);
      (forall m :: m in out && HasReference(m) ==> Reference(m) in Texts(out)) <==>
      !exists i :: 0 <= i < |all| && LeftDangling(all, i)
  {
    hide Combined, Tidy, KeptAt, Keys, LastGiven, Enumerates, HasReference, Reference;
    var out, all := Update(before, given, order), Combined(before, given, order);
    var texts := Texts(all);
    TidyExact(all, texts, {});
    UpdateDigests(before, given, order);
    forall i | 0 <= i < |all| && KeptAt(all, texts, {}, i) && HasReference(all[i])
      ensures Reference(all[i]) in Texts(out) <==> !LeftDangling(all, i)
    {
      assert all[i] in out;
    }
  }

  /** Chained references can leave one: an image is replaced, its attestation goes, and what is about that one stays. */
  lemma ChainIsLeftDangling(x: Hash, y: Hash, a: Hash, b: Hash)
    requires WellFormed(x) && WellFormed(y) && WellFormed(a) && WellFormed(b)
    requires x != y && x != a && x != b && y != a && y != b && a != b
    ensures var image, about, onward := ImageOf(x), AttestationOf(a, x), AttestationOf(b, a);
      var newer := image.(digest := y);
      && Enumerates([], LastGiven([newer]).Keys - Keys([image, about, onward]))
      && Update([image, about, onward], [newer], []) == [newer, onward]
      && Reference(onward) !in Texts([newer, onward])
  {
    hide ImageOf, AttestationOf, WellFormed, UpdateKey, LastGiven, Keys, Combined, Tidy, Enumerates;
    var image, about, onward := ImageOf(x), AttestationOf(a, x), AttestationOf(b, a);
    var newer := image.(digest := y);
    DistinctTexts(x, y);
    DistinctTexts(x, a);
    DistinctTexts(x, b);
    DistinctTexts(a, y);
    DistinctTexts(a, b);
    ReplaceFirst(image, [about, onward], newer);
    assert [image] + [about, onward] == [image, about, onward] && [newer] + [about, onward] == [newer, about, onward];
    var all := [newer, about, onward];
    TextsOfThree(newer, about, onward);
    assert !HasReference(newer);
    TidyThree(newer, about, onward);
    assert Texts([newer, onward]) == {y.ToString(), b.ToString()};
  }

  lemma TextsOfThree(p: Descriptor, q: Descriptor, r: Descriptor)
    ensures Texts([p, q, r]) == {p.digest.ToString(), q.digest.ToString(), r.digest.ToString()}
  {
    assert p in [p, q, r] && q in [p, q, r] && r in [p, q, r];
  }

  /** One descriptor is given, for the key of the first entry. */
  lemma ReplaceFirst(first: Descriptor, rest: seq<Descriptor>, newer: Descriptor)
    requires Replaces(newer) && newer.platform == first.platform
    ensures Enumerates([], LastGiven([newer]).Keys - Keys([first] + rest))
    ensures Combined([first] + rest, [newer], []) == [newer] + rest
  {
    hide UpdateKey, LastGiven, Others, Swapped;
    var key, before := UpdateKey(newer), [first] + rest;
    GivenNone();
    GivenSnoc([], newer);
    assert [] + [newer] == [newer];
    assert LastGiven([newer]) == map[key := newer];
    SameKey(first, newer);
    assert first in before && key in Keys(before);
    SwapFirst(first, rest, newer);
    assert [newer] + rest + [] + [] == [newer] + rest;
  }

  lemma SameKey(a: Descriptor, b: Descriptor)
    requires a.platform.Some? && a.platform == b.platform
    ensures UpdateKey(a) == UpdateKey(b)
  {
  }

  lemma DistinctTexts(a: Hash, b: Hash)
    requires WellFormed(a) && WellFormed(b) && a != b
    ensures a.ToString() != b.ToString()
  {
    hide ParseHash, WellFormed;
    ParseInvertsToString(a);
    ParseInvertsToString(b);
  }

  /** The first entry has the only given key. */
  lemma SwapFirst(first: Descriptor, rest: seq<Descriptor>, newer: Descriptor)
    requires first.platform.Some? && newer.platform == first.platform
    ensures Swapped([first] + rest, map[UpdateKey(newer) := newer]) == [newer] + rest
  {
    hide UpdateKey, Swapped;
    var key := UpdateKey(newer);
    SameKey(first, newer);
    SwappedCons(first, rest, map[key := newer]);
    assert map[key := newer] - {key} == map[];
    SwapNothing(rest);
  }

  lemma {:induction false} SwapNothing(s: seq<Descriptor>)
    ensures Swapped(s, map[]) == s
  {
    if s != [] {
      SwapNothing(s[1..]);
    }
  }

  /** Of three entries the one in the middle refers to something unlisted. */
  lemma TidyThree(first: Descriptor, second: Descriptor, third: Descriptor)
    requires first.digest != third.digest
    requires var texts := Texts([first, second, third]); Stays(first, texts) && !Stays(second, texts) && Stays(third, texts)
    ensures var all := [first, second, third]; Tidy(all, Texts(all), {}) == [first, third]
  {
    hide Stays, Texts;
    var all := [first, second, third];
    var texts := Texts(all);
    assert all[1..] == [second, third] && [second, third][1..] == [third] && [third][1..] == [];
    assert {} + {first.digest} == {first.digest};
    assert Tidy([third], texts, {first.digest}) == [third];
    assert Tidy([second, third], texts, {first.digest}) == [third];
  }

  /** If the old index had at most one image per OS, architecture and OS version, and nothing clashes, so has the new one. */
  lemma UpdateKeepsOnePerKey(before: seq<Descriptor>, given: seq<Descriptor>, order: seq<string>)
    requires Enumerates(order, LastGiven(given).Keys - Keys(before))
    requires OneImagePerKey(before) && !Clashes(before, LastGiven(given))
    ensures OneImagePerKey(Update(before, given, order))
  {
    hide Combined, LastGiven, KeysDiffer, Clash, StoredAt, Pairwise, Keys, Enumerates, Update;
    UpdateOnePerKeyIff(before, given, order);
  }

  /** An image for a key that was given is the last one given for it. */
  lemma UpdateReplaces(before: seq<Descriptor>, given: seq<Descriptor>, order: seq<string>, m: Descriptor)
    requires Enumerates(order, LastGiven(given).Keys - Keys(before))
    requires OneImagePerKey(before) && !Clashes(before, LastGiven(given))
    requires m in Update(before, given, order) && Replaces(m) && UpdateKey(m) in LastGiven(given)
    ensures m == LastGiven(given)[UpdateKey(m)]
  {
    hide UpdateKey, IsUnknown, Tidy, Combined, LastGiven, Keys, Pairwise, Stays;
    CombinedOnePerKeyIff(before, given, order);
    CombinedMembers(before, given, order);
    UpdateDigests(before, given, order);
    LastGivenKeys(given);
    SameKeySameEntry(Combined(before, given, order), m, LastGiven(given)[UpdateKey(m)]);
  }

  /** With such a clash a key comes to be listed twice: the attestation is replaced, the old image stays. */
  lemma ClashRepeatsAKey(listed: Descriptor, image: Descriptor, newer: Descriptor)
    requires listed.platform.Some? && !Replaces(listed) && Replaces(image) && Replaces(newer)
    requires UpdateKey(listed) == UpdateKey(image) == UpdateKey(newer)
    requires newer.digest != image.digest && !HasReference(image) && !HasReference(newer)
    ensures OneImagePerKey([listed, image])
    ensures Enumerates([], LastGiven([newer]).Keys - Keys([listed, image]))
    ensures Update([listed, image], [newer], []) == [newer, image]
    ensures !OneImagePerKey([newer, image])
  {
    hide UpdateKey, IsUnknown, HasReference;
    var key := UpdateKey(newer);
    assert !KeysDiffer([newer, image][0], [newer, image][1]);
    var repl := LastGiven([newer]);
    GivenNone();
    GivenSnoc([], newer);
    assert [] + [newer] == [newer];
    assert repl == map[key := newer];
    assert listed in [listed, image];
    assert Swapped([image], repl - {key}) == [image];
    assert [listed, image][1..] == [image];
    assert Swapped([listed, image], repl) == [newer, image];
    var all := [newer, image];
    assert Combined([listed, image], [newer], []) == all;
    assert all[1..] == [image];
    assert {} + {newer.digest} == {newer.digest};
    assert Tidy(all, Texts(all), {}) == [newer] + Tidy([image], Texts(all), {newer.digest});
  }

  /** Such a clash exists, since a slash in the OS name makes the texts meet, and both images are stored. */
  lemma ClashExists(a: Hash, b: Hash, c: Hash)
    requires b != c
    ensures var listed := Descriptor(OCI_MANIFEST, 1, a, Some(Platform(UNKNOWN, UNKNOWN, "", "a/b")), map[]);
      var image := Descriptor(OCI_MANIFEST, 1, b, Some(Platform("a", "unknown/unknown", "", "b")), map[]);
      var newer := image.(digest := c);
      && OneImagePerKey([listed, image])
      && Enumerates([], LastGiven([newer]).Keys - Keys([listed, image]))
      && Update([listed, image], [newer], []) == [newer, image]
      && !OneImagePerKey([newer, image])
  {
    hide LastGiven, Update, Keys, OneImagePerKey, Enumerates;
    var listed := Descriptor(OCI_MANIFEST, 1, a, Some(Platform(UNKNOWN, UNKNOWN, "", "a/b")), map[]);
    var image := Descriptor(OCI_MANIFEST, 1, b, Some(Platform("a", "unknown/unknown", "", "b")), map[]);
    assert image.platform.value.os[7] == '/';
    assert UpdateKey(listed) == "unknown/unknown/a/b" && UpdateKey(image) == "unknown/unknown/a/b";
    ClashRepeatsAKey(listed, image, image.(digest := c));
  }

  predicate SlashFree(m: Descriptor) {
    m.platform.Some? ==> '/' !in m.platform.value.os && '/' !in m.platform.value.architecture
  }

  /** Keys clash only through slashes in an OS or architecture name. */
  lemma SlashFreeNoClash(before: seq<Descriptor>, repl: map<string, Descriptor>)
    requires forall m :: m in before ==> SlashFree(m)
    ensures !Clashes(before, repl)
  {
    hide Split, UpdateKey;
    forall i, j | 0 <= i < j < |before|
      ensures !Clash(before, repl, i, j)
    {
      if before[i].platform.Some? && before[j].platform.Some? {
        KeyParts(before[i]);
        KeyParts(before[j]);
      }
    }
  }

  lemma KeyParts(m: Descriptor)
    requires m.platform.Some? && SlashFree(m)
    ensures var parts := Split(UpdateKey(m), '/');
      |parts| >= 2 && parts[0] == m.platform.value.os && parts[1] == m.platform.value.architecture
  {
    var p := m.platform.value;
    SplitAtFirst(p.os, p.architecture + "/" + p.osVersion, '/');
    SplitAtFirst(p.architecture, p.osVersion, '/');
    assert UpdateKey(m) == p.os + ['/'] + (p.architecture + "/" + p.osVersion);
  }

  // ----- the same in the fields of the descriptors -----

  /** A platform other than unknown/unknown. */
  predicate HasPlatformFields(m: Descriptor) {
    m.platform.Some? && !(m.platform.value.architecture == "unknown" && m.platform.value.os == "unknown")
  }

  /** The same OS, architecture and OS version; variants do not matter. */
  predicate SamePlace(a: Platform, b: Platform) {
    a.os == b.os && a.architecture == b.architecture && a.osVersion == b.osVersion
  }

  predicate CarriesReference(m: Descriptor) {
    "vnd.docker.reference.digest" in m.annotations
  }

  /** Without slashes in the OS and the architecture a key tells the place. */
  lemma KeyIsPlace(a: Descriptor, b: Descriptor)
    requires a.platform.Some? && b.platform.Some? && SlashFree(a) && SlashFree(b)
    ensures UpdateKey(a) == UpdateKey(b) <==> SamePlace(a.platform.value, b.platform.value)
  {
    hide Split;
    var p, q := a.platform.value, b.platform.value;
    if UpdateKey(a) == UpdateKey(b) {
      KeyParts(a);
      KeyParts(b);
      var n := |p.os + "/" + p.architecture + "/"|;
      assert p.osVersion == UpdateKey(a)[n..] && q.osVersion == UpdateKey(b)[n..];
    }
  }

  /**
    The last image given for an OS, architecture and OS version is stored, and it is the only image stored for
    them, whatever the variants.
   */
  lemma GivenReplacesByPlace(before: seq<Descriptor>, given: seq<Descriptor>, order: seq<string>, i: nat, m: Descriptor)
    requires Enumerates(order, LastGiven(given).Keys - Keys(before)) && OneImagePerKey(before)
    requires forall x :: x in before + given ==> SlashFree(x)
    requires i < |given| && HasPlatformFields(given[i]) && !CarriesReference(given[i])
    requires forall j :: i < j < |given| && HasPlatformFields(given[j]) ==> !SamePlace(given[j].platform.value, given[i].platform.value)
    ensures given[i].digest in Digests(Update(before, given, order))
    ensures m in Update(before, given, order) && HasPlatformFields(m) && SamePlace(m.platform.value, given[i].platform.value) ==> m == given[i]
  {
    hide LastGiven, Keys, Enumerates, OneImagePerKey, Update, UpdateKey, SlashFree, Clashes;
    var g := given[i];
    forall j | i < j < |given| && Replaces(given[j])
      ensures UpdateKey(given[j]) != UpdateKey(g)
    {
      assert given[j] in before + given && g in before + given;
      KeyIsPlace(given[j], g);
    }
    LastGivenIsLast(given, i);
    UpdateKeepsImages(before, given, order);
    if m in Update(before, given, order) && HasPlatformFields(m) && SamePlace(m.platform.value, g.platform.value) {
      assert m in before + given && g in before + given;
      KeyIsPlace(m, g);
      forall x | x in before
        ensures SlashFree(x)
      {
        assert x in before + given;
      }
      SlashFreeNoClash(before, LastGiven(given));
      UpdateReplaces(before, given, order, m);
    }
  }

  /** An old image for an OS, architecture and OS version that nothing is given for is stored. */
  lemma OthersStayByPlace(before: seq<Descriptor>, given: seq<Descriptor>, order: seq<string>, m: Descriptor)
    requires Enumerates(order, LastGiven(given).Keys - Keys(before))
    requires forall x :: x in before + given ==> SlashFree(x)
    requires m in before && HasPlatformFields(m) && !CarriesReference(m)
    requires forall g :: g in given && HasPlatformFields(g) ==> !SamePlace(g.platform.value, m.platform.value)
    ensures m.digest in Digests(Update(before, given, order))
  {
    hide LastGiven, Keys, Enumerates, Update, UpdateKey, SlashFree;
    LastGivenKeys(given);
    UpdateKeepsImages(before, given, order);
    if UpdateKey(m) in LastGiven(given) {
      var g := LastGiven(given)[UpdateKey(m)];
      assert g in before + given && m in before + given;
      KeyIsPlace(g, m);
    }
  }

  /** What refers to a digest that is listed nowhere is not stored; what is given without a platform and refers to none is. */
  lemma ReferencesByText(before: seq<Descriptor>, given: seq<Descriptor>, order: seq<string>, m: Descriptor)
    requires Enumerates(order, LastGiven(given).Keys - Keys(before)) && m in before + given
    ensures CarriesReference(m) && (forall x :: x in before + given ==> x.digest.ToString() != m.annotations["vnd.docker.reference.digest"]) ==>
      m !in Update(before, given, order)
    ensures m in given && !HasPlatformFields(m) && !CarriesReference(m) ==> m.digest in Digests(Update(before, given, order))
  {
    hide LastGiven, Keys, Enumerates, Combined, Tidy, UpdateKey;
    CombinedMembers(before, given, order);
    UpdateDigests(before, given, order);
  }

  // ----- the code -----

  /** The first loop: descriptors that replace by key, and the rest. */
  method CollectGiven(given: seq<Descriptor>) returns (descReplace: map<string, Descriptor>, descNonReplace: seq<Descriptor>)
    ensures descReplace == LastGiven(given) && descNonReplace == Others(given)
  {
    hide UpdateKey, LastGiven, Others;
    descReplace, descNonReplace := map[], [];
    GivenNone();
    for i := 0 to |given|
      invariant descReplace == LastGiven(given[..i]) && descNonReplace == Others(given[..i])
    {
      var desc := given[i];
      assert given[..i + 1] == given[..i] + [desc];
      GivenSnoc(given[..i], desc);
      if desc.platform.None? || (desc.platform.value.architecture == UNKNOWN && desc.platform.value.os == UNKNOWN) {
        descNonReplace := descNonReplace + [desc];
        continue;
      }
      descReplace := descReplace[UpdateKey(desc) := desc];
    }
    assert given[..|given|] == given;
  }

  lemma GivenNone()
    ensures LastGiven([]) == map[] && Others([]) == []
  {
  }

  lemma GivenSnoc(s: seq<Descriptor>, m: Descriptor)
    ensures LastGiven(s + [m]) == if Replaces(m) then LastGiven(s)[UpdateKey(m) := m] else LastGiven(s)
    ensures Others(s + [m]) == if Replaces(m) then Others(s) else Others(s) + [m]
  {
    hide UpdateKey, Replaces;
    assert (s + [m])[..|s|] == s;
    FilterAppend(s, [m], (x: Descriptor) => !Replaces(x));
  }

  /** The second loop: old entries, replaced where a descriptor waits for their key. */
  method SwapIn(before: seq<Descriptor>, repl: map<string, Descriptor>)
      returns (manifests: seq<Descriptor>, descReplace: map<string, Descriptor>)
    ensures manifests == Swapped(before, repl)
    ensures descReplace == repl - Keys(before)
  {
    hide UpdateKey, Keys, Swapped;
    manifests, descReplace := [], repl;
    KeysNone();
    SwappedNone(repl);
    assert before[0..] == before && repl - {} == repl;
    for i := 0 to |before|
      invariant manifests + Swapped(before[i..], descReplace) == Swapped(before, repl)
      invariant descReplace == repl - Keys(before[..i])
    {
      var m := before[i];
      SwappedCons(m, before[i + 1..], descReplace);
      assert before[i..] == [m] + before[i + 1..];
      KeysSnoc(before[..i], m);
      assert before[..i + 1] == before[..i] + [m];
      if m.platform.Some? && UpdateKey(m) in descReplace {
        MinusMinus(repl, Keys(before[..i]), UpdateKey(m));
        ghost var rest := Swapped(before[i + 1..], descReplace - {UpdateKey(m)});
        assert manifests + ([descReplace[UpdateKey(m)]] + rest) == manifests + [descReplace[UpdateKey(m)]] + rest;
        manifests := manifests + [descReplace[UpdateKey(m)]];
        descReplace := descReplace - {UpdateKey(m)};
        continue;
      }
      MinusSame(repl, Keys(before[..i]), if m.platform.Some? then {UpdateKey(m)} else {});
      ghost var rest := Swapped(before[i + 1..], descReplace);
      assert manifests + ([m] + rest) == manifests + [m] + rest;
      manifests := manifests + [m];
    }
    SwappedNone(descReplace);
    assert before[..|before|] == before && before[|before|..] == [];
  }

  lemma SwappedNone(repl: map<string, Descriptor>)
    ensures Swapped([], repl) == []
  {
  }

  lemma SwappedCons(m: Descriptor, rest: seq<Descriptor>, repl: map<string, Descriptor>)
    ensures Swapped([m] + rest, repl) ==
      if m.platform.Some? && UpdateKey(m) in repl then [repl[UpdateKey(m)]] + Swapped(rest, repl - {UpdateKey(m)})
      else [m] + Swapped(rest, repl)
  {
    assert ([m] + rest)[1..] == rest;
  }

  lemma MinusSame(m: map<string, Descriptor>, keys: set<string>, more: set<string>)
    requires forall k :: k in more ==> k !in m - keys
    ensures m - keys == m - (keys + more)
  {
  }

  lemma MinusMinus(m: map<string, Descriptor>, keys: set<string>, k: string)
    ensures m - keys - {k} == m - (keys + {k})
  {
  }

  lemma KeysNone()
    ensures Keys([]) == {}
  {
  }

  lemma KeysSnoc(s: seq<Descriptor>, m: Descriptor)
    ensures Keys(s + [m]) == Keys(s) + if m.platform.Some? then {UpdateKey(m)} else {}
  {
    assert forall x :: x in s + [m] <==> x in s || x == m;
  }

  /** The third loop runs over a map, in whatever order it comes. */
  method AddLeftovers(leftovers: map<string, Descriptor>) returns (added: seq<Descriptor>, ghost order: seq<string>)
    ensures Enumerates(order, leftovers.Keys)
    ensures added == InOrder(order, leftovers)
    ensures forall x :: x in added <==> exists k :: k in leftovers && x == leftovers[k]
  {
    added, order := [], [];
    var remaining := leftovers.Keys;
    while remaining != {}
      invariant remaining <= leftovers.Keys
      invariant Enumerates(order, leftovers.Keys - remaining)
      invariant added == InOrder(order, leftovers)
      decreases remaining
    {
      var k :| k in remaining;
      InOrderSnoc(order, k, leftovers);
      added := added + [leftovers[k]];
      order := order + [k];
      remaining := remaining - {k};
    }
    InOrderMembers(order, leftovers);
  }

  lemma {:induction false} InOrderSnoc(order: seq<string>, k: string, repl: map<string, Descriptor>)
    requires forall i :: i in order ==> i in repl
    requires k in repl
    ensures InOrder(order + [k], repl) == InOrder(order, repl) + [repl[k]]
  {
    if order != [] {
      assert (order + [k])[1..] == order[1..] + [k];
      InOrderSnoc(order[1..], k, repl);
    }
  }

  lemma {:induction false} InOrderSubmap(order: seq<string>, part: map<string, Descriptor>, repl: map<string, Descriptor>)
    requires forall k :: k in order ==> k in part
    requires forall k :: k in part ==> k in repl && repl[k] == part[k]
    ensures InOrder(order, part) == InOrder(order, repl)
  {
    if order != [] {
      InOrderSubmap(order[1..], part, repl);
    }
  }

  /** The last loop: drop duplicates and entries that refer to something unlisted. */
  method DropDangling(manifests: seq<Descriptor>, referencedDigests: set<string>) returns (kept: seq<Descriptor>)
    ensures kept == Tidy(manifests, referencedDigests, {})
  {
    kept := [];
    var appliedManifests: set<Hash> := {};
    assert manifests[0..] == manifests;
    for i := 0 to |manifests|
      invariant kept + Tidy(manifests[i..], referencedDigests, appliedManifests) == Tidy(manifests, referencedDigests, {})
    {
      var m := manifests[i];
      assert manifests[i..][1..] == manifests[i + 1..];
      if m.digest in appliedManifests {
        continue;
      }
      if ANNOTATION_REFERENCE_DIGEST !in m.annotations
         || m.annotations[ANNOTATION_REFERENCE_DIGEST] in referencedDigests {
        kept := kept + [m];
        appliedManifests := appliedManifests + {m.digest};
      }
    }
  }

  datatype WriteError = NoManifests

  /** The manifest list that `IndexWrite` stores for a name, which has an index already or not. */
  method IndexManifests(existing: Option<seq<Descriptor>>, given: seq<Descriptor>)
      returns (r: Result<seq<Descriptor>, WriteError>, ghost order: seq<string>)
    ensures r.Failure? <==> given == []
    ensures r.Success? && existing.None? ==> r.value == given
    ensures r.Success? && existing.Some? ==>
      Enumerates(order, LastGiven(given).Keys - Keys(existing.value)) && r.value == Update(existing.value, given, order)
  {
    order := [];
    if |given| < 1 {
      return Failure(NoManifests), order;
    }
    if existing.None? {
      return Success(given), order;
    }
    var descReplace, descNonReplace := CollectGiven(given);
    var manifests, leftovers := SwapIn(existing.value, descReplace);
    var added;
    added, order := AddLeftovers(leftovers);
    InOrderSubmap(order, leftovers, descReplace);
    assert leftovers.Keys == LastGiven(given).Keys - Keys(existing.value);
    manifests := manifests + added + descNonReplace;
    var referencedDigests := set m | m in manifests :: m.digest.ToString();
    var kept := DropDangling(manifests, referencedDigests);
    return Success(kept), order;
  }
}
