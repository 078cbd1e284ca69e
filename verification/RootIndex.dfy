/**
  The cache's root index.json: a list of descriptors that behaves as a map from
  image names to descriptors, next to any number of unnamed entries.
 */
module RootIndex {
  import opened Results
  import opened Seqs
  import opened Oci

  predicate IsNamed(m: Descriptor) {
    ANNOTATION_REF_NAME in m.annotations
  }

  function Name(m: Descriptor): string
    requires IsNamed(m)
  {
    m.annotations[ANNOTATION_REF_NAME]
  }

  predicate HasName(m: Descriptor, name: string) {
    IsNamed(m) && Name(m) == name
  }

  function WithName(m: Descriptor, name: string): Descriptor {
    m.(annotations := m.annotations[ANNOTATION_REF_NAME := name])
  }

  lemma WithNameHasName(m: Descriptor, name: string)
    ensures HasName(WithName(m, name), name)
  {
  }

  // ----- the two writes -----

  /** `RemoveDescriptors(match.Name(name))`. */
  function RemoveName(s: seq<Descriptor>, name: string): seq<Descriptor> {
    Filter(s, (m: Descriptor) => !HasName(m, name))
  }

  /** What `DescriptorWrite` makes of the list. */
  function WriteName(s: seq<Descriptor>, name: string, desc: Descriptor): seq<Descriptor> {
    RemoveName(s, name) + [WithName(desc, name)]
  }

  // ----- the map it stands for -----

  predicate NamesDiffer(a: Descriptor, b: Descriptor) {
    IsNamed(a) && IsNamed(b) ==> Name(a) != Name(b)
  }

  ghost predicate DistinctNames(s: seq<Descriptor>) {
    Pairwise(s, NamesDiffer)
  }

  function Unnamed(s: seq<Descriptor>): seq<Descriptor> {
    Filter(s, (m: Descriptor) => !IsNamed(m))
  }

  /** The descriptor that a name stands for: the last one listed with it. */
  function View(s: seq<Descriptor>): map<string, Descriptor> {
    if s == [] then map[]
    else
      var m := s[|s| - 1];
      var rest := View(s[..|s| - 1]);
      if IsNamed(m) then rest[Name(m) := m] else rest
  }

  lemma ViewSnoc(s: seq<Descriptor>, m: Descriptor)
    ensures View(s + [m]) == if IsNamed(m) then View(s)[Name(m) := m] else View(s)
  {
    assert (s + [m])[..|s|] == s;
  }

  lemma {:induction false} ViewMembers(s: seq<Descriptor>)
    ensures forall n :: n in View(s) ==> View(s)[n] in s && HasName(View(s)[n], n)
    ensures forall m :: m in s && IsNamed(m) ==> Name(m) in View(s)
    ensures DistinctNames(s) ==> forall m :: m in s && IsNamed(m) ==> View(s)[Name(m)] == m
  {
    hide IsNamed, Name;
    if s != [] {
      var init, last := s[..|s| - 1], s[|s| - 1];
      assert s == init + [last];
      ViewMembers(init);
      if DistinctNames(s) {
        assert DistinctNames(init);
        assert forall i :: 0 <= i < |init| ==> NamesDiffer(init[i], last);
      }
    }
  }

  /** Two lists whose named entries are the same ones, all names distinct, stand for the same map. */
  lemma ViewDetermined(s: seq<Descriptor>, t: map<string, Descriptor>)
    requires DistinctNames(s)
    requires forall m :: m in s && IsNamed(m) ==> Name(m) in t && t[Name(m)] == m
    requires forall n :: n in t ==> t[n] in s && HasName(t[n], n)
    ensures View(s) == t
  {
    hide IsNamed, Name;
    ViewMembers(s);
    forall n | n in t
      ensures n in View(s) && View(s)[n] == t[n]
    {
    }
  }

  /** Removing a name removes it from the map and touches nothing else. */
  lemma RemoveNameRefines(s: seq<Descriptor>, name: string)
    requires DistinctNames(s)
    ensures DistinctNames(RemoveName(s, name))
    ensures View(RemoveName(s, name)) == View(s) - {name}
    ensures Unnamed(RemoveName(s, name)) == Unnamed(s)
  {
    hide IsNamed, Name;
    FilterPairwise(s, (m: Descriptor) => !HasName(m, name), NamesDiffer);
    ViewMembers(s);
    ViewDetermined(RemoveName(s, name), View(s) - {name});
    FilterFilter(s, (m: Descriptor) => !HasName(m, name), (m: Descriptor) => !IsNamed(m), (m: Descriptor) => !IsNamed(m));
  }

  /** Writing a descriptor updates the map at its name and touches nothing else. */
  lemma WriteNameRefines(s: seq<Descriptor>, name: string, desc: Descriptor)
    requires DistinctNames(s)
    ensures DistinctNames(WriteName(s, name, desc))
    ensures View(WriteName(s, name, desc)) == View(s)[name := WithName(desc, name)]
    ensures Unnamed(WriteName(s, name, desc)) == Unnamed(s)
  {
    hide IsNamed, Name, WithName;
    var rest, added := RemoveName(s, name), WithName(desc, name);
    RemoveNameRefines(s, name);
    WithNameHasName(desc, name);
    ViewSnoc(rest, added);
    FilterAppend(rest, [added], (m: Descriptor) => !IsNamed(m));
    forall i | 0 <= i < |rest|
      ensures NamesDiffer(rest[i], added)
    {
      assert rest[i] in rest;
    }
  }

  // ----- whole runs -----

  datatype Op = Write(name: string, desc: Descriptor) | Remove(name: string)

  function Apply(s: seq<Descriptor>, op: Op): seq<Descriptor> {
    match op
    case Write(name, desc) => if name == "" then s else WriteName(s, name, desc)
    case Remove(name) => RemoveName(s, name)
  }

  function ApplyToMap(m: map<string, Descriptor>, op: Op): map<string, Descriptor> {
    match op
    case Write(name, desc) => if name == "" then m else m[name := WithName(desc, name)]
    case Remove(name) => m - {name}
  }

  function Run(s: seq<Descriptor>, ops: seq<Op>): seq<Descriptor> {
    if ops == [] then s else Apply(Run(s, ops[..|ops| - 1]), ops[|ops| - 1])
  }

  function RunOnMap(m: map<string, Descriptor>, ops: seq<Op>): map<string, Descriptor> {
    if ops == [] then m else ApplyToMap(RunOnMap(m, ops[..|ops| - 1]), ops[|ops| - 1])
  }

  /** After every run of writes and removals the list still is a map, the one the run computes, and the unnamed entries are as before. */
  lemma {:induction false} RunRefinesMap(s: seq<Descriptor>, ops: seq<Op>)
    requires DistinctNames(s)
    ensures DistinctNames(Run(s, ops))
    ensures View(Run(s, ops)) == RunOnMap(View(s), ops)
    ensures Unnamed(Run(s, ops)) == Unnamed(s)
  {
    if ops != [] {
      var before := ops[..|ops| - 1];
      RunRefinesMap(s, before);
      match ops[|ops| - 1]
      case Write(name, desc) => WriteNameRefines(Run(s, before), name, desc);
      case Remove(name) => RemoveNameRefines(Run(s, before), name);
    }
  }

  // ----- lookup by name -----

  datatype Root = Image(desc: Descriptor) | Index(desc: Descriptor)

  /** `FindImages` and `FindIndexes`: the matching entries of a media type; one that cannot be opened fails the search. */
  function Find(s: seq<Descriptor>, name: string, ofType: string -> bool, open: Hash -> bool): Result<seq<Descriptor>, string> {
    var found := Filter(s, (m: Descriptor) => HasName(m, name) && ofType(m.mediaType));
    if forall m :: m in found ==> open(m.digest) then Success(found) else Failure(name)
  }

  /** `FindRoot`: the first image of that name, else the first index. */
  function FindRoot(s: seq<Descriptor>, name: string, open: Hash -> bool): Result<Root, string> {
    var images := Find(s, name, IsImageType, open);
    if images.Success? && |images.value| > 0 then Success(Image(images.value[0]))
    else
      var indexes := Find(s, name, IsIndexType, open);
      if indexes.Success? && |indexes.value| >= 1 then Success(Index(indexes.value[0])) else Failure(name)
  }

  /** At most one entry carries a name. */
  lemma OnlyEntry(s: seq<Descriptor>, name: string, ofType: string -> bool)
    requires DistinctNames(s)
    ensures var found := Filter(s, (m: Descriptor) => HasName(m, name) && ofType(m.mediaType));
      found == if name in View(s) && ofType(View(s)[name].mediaType) then [View(s)[name]] else []
  {
    hide IsNamed, Name, View, Pairwise;
    var keep := (m: Descriptor) => HasName(m, name) && ofType(m.mediaType);
    var found := Filter(s, keep);
    FilterPairwise(s, keep, NamesDiffer);
    ViewMembers(s);
    AtMostOne(found, name);
    assert forall m :: m in found ==> name in View(s) && m == View(s)[name] && ofType(m.mediaType);
    if found == [] {
      assert !(name in View(s) && keep(View(s)[name]));
    } else {
      assert found[0] in found;
    }
  }

  lemma AtMostOne(found: seq<Descriptor>, name: string)
    requires Pairwise(found, NamesDiffer)
    requires forall m :: m in found ==> HasName(m, name)
    ensures |found| <= 1
  {
    if |found| > 1 {
      NotBothNamed(found, 0, 1, name);
      assert false;
    }
  }

  lemma NotBothNamed(found: seq<Descriptor>, i: nat, j: nat, name: string)
    requires Pairwise(found, NamesDiffer)
    requires i < j < |found|
    ensures !(HasName(found[i], name) && HasName(found[j], name))
  {
    hide IsNamed, Name;
    assert NamesDiffer(found[i], found[j]);
  }

  /** Looking a name up finds exactly what the map holds for it, if it can be opened. */
  lemma FindRootAgrees(s: seq<Descriptor>, name: string, open: Hash -> bool)
    requires DistinctNames(s)
    ensures var r := FindRoot(s, name, open);
      && (r.Success? <==> name in View(s) && open(View(s)[name].digest)
                          && (IsImageType(View(s)[name].mediaType) || IsIndexType(View(s)[name].mediaType)))
      && (r.Success? ==> r.value == if IsImageType(View(s)[name].mediaType) then Image(View(s)[name]) else Index(View(s)[name]))
  {
    hide IsNamed, Name, IsImageType, IsIndexType, View;
    OnlyEntry(s, name, IsImageType);
    OnlyEntry(s, name, IsIndexType);
  }

  // ----- the provider -----

  // ----- what is written is found -----

  /** The same content, described the same but for its name. */
  ghost predicate Renamed(d: Descriptor, desc: Descriptor, name: string) {
    && d.digest == desc.digest && d.size == desc.size && d.mediaType == desc.mediaType && d.platform == desc.platform
    && "org.opencontainers.image.ref.name" in d.annotations && d.annotations["org.opencontainers.image.ref.name"] == name
    && forall k :: k != "org.opencontainers.image.ref.name" ==>
         (k in d.annotations <==> k in desc.annotations) && (k in desc.annotations ==> d.annotations[k] == desc.annotations[k])
  }

  /** Looking up a name that was just written finds what was written; other names are found as before. */
  lemma WriteThenFind(s: seq<Descriptor>, name: string, desc: Descriptor, open: Hash -> bool, other: string)
    requires DistinctNames(s) && open(desc.digest) && (IsImageType(desc.mediaType) || IsIndexType(desc.mediaType)) && other != name
    ensures FindRoot(WriteName(s, name, desc), name, open).Success?
    ensures Renamed(FindRoot(WriteName(s, name, desc), name, open).value.desc, desc, name)
    ensures FindRoot(WriteName(s, name, desc), other, open) == FindRoot(s, other, open)
  {
    hide WriteName, View, DistinctNames, IsImageType, IsIndexType, FindRoot;
    var written := WriteName(s, name, desc);
    WriteNameRefines(s, name, desc);
    FindRootAgrees(written, name, open);
    FindRootDetermined(s, written, other, open);
  }

  /** A removed name is not found; other names are found as before. */
  lemma RemoveThenFind(s: seq<Descriptor>, name: string, open: Hash -> bool, other: string)
    requires DistinctNames(s) && other != name
    ensures FindRoot(RemoveName(s, name), name, open).Failure?
    ensures FindRoot(RemoveName(s, name), other, open) == FindRoot(s, other, open)
  {
    hide RemoveName, View, DistinctNames, IsImageType, IsIndexType, FindRoot;
    var less := RemoveName(s, name);
    RemoveNameRefines(s, name);
    FindRootAgrees(less, name, open);
    FindRootDetermined(s, less, other, open);
  }

  /** A lookup depends on what the map has for the name. */
  lemma FindRootDetermined(s: seq<Descriptor>, s': seq<Descriptor>, name: string, open: Hash -> bool)
    requires DistinctNames(s) && DistinctNames(s')
    requires name in View(s) <==> name in View(s')
    requires name in View(s) ==> View(s)[name] == View(s')[name]
    ensures FindRoot(s, name, open) == FindRoot(s', name, open)
  {
    hide View, DistinctNames, IsImageType, IsIndexType, Find;
    FindByView(s, name, IsImageType, open);
    FindByView(s', name, IsImageType, open);
    FindByView(s, name, IsIndexType, open);
    FindByView(s', name, IsIndexType, open);
  }

  lemma FindByView(s: seq<Descriptor>, name: string, ofType: string -> bool, open: Hash -> bool)
    requires DistinctNames(s)
    ensures Find(s, name, ofType, open) ==
      if name !in View(s) || !ofType(View(s)[name].mediaType) then Success([])
      else if open(View(s)[name].digest) then Success([View(s)[name]])
      else Failure(name)
  {
    hide View, DistinctNames, HasName, Filter;
    OnlyEntry(s, name, ofType);
  }

  class Provider {
    var root: seq<Descriptor>

    ghost predicate Valid()
      reads this
    {
      DistinctNames(root)
    }

    /** A new cache starts from an empty index. */
    constructor ()
      ensures Valid() && root == []
    {
      root := [];
    }

    method RemoveDescriptors(name: string)
      requires Valid()
      modifies this
      ensures Valid()
      ensures root == RemoveName(old(root), name)
      ensures View(root) == View(old(root)) - {name} && Unnamed(root) == Unnamed(old(root))
    {
      RemoveNameRefines(root, name);
      root := RemoveName(root, name);
    }

    method DescriptorWrite(image: string, desc: Descriptor) returns (r: Result<(), string>)
      requires Valid()
      modifies this
      ensures Valid()
      ensures r.Failure? <==> image == ""
      ensures r.Failure? ==> root == old(root)
      ensures r.Success? ==> root == WriteName(old(root), image, desc)
      ensures r.Success? ==> View(root) == View(old(root))[image := WithName(desc, image)]
      ensures Unnamed(root) == Unnamed(old(root))
    {
      if image == "" {
        return Failure("cannot write descriptor without reference name");
      }
      var named := desc.(annotations := desc.annotations[ANNOTATION_REF_NAME := image]);
      WriteNameRefines(root, image, desc);
      root := RemoveName(root, image);
      root := root + [named];
      return Success(());
    }

    /** Names and the digests they stand for; of entries with the same name the last counts. */
    method List() returns (names: map<string, string>)
      ensures names.Keys == View(root).Keys
      ensures forall n :: n in names ==> names[n] == View(root)[n].digest.ToString()
    {
      names := map[];
      for i := 0 to |root|
        invariant names.Keys == View(root[..i]).Keys
        invariant forall n :: n in names ==> names[n] == View(root[..i])[n].digest.ToString()
      {
        ViewSnoc(root[..i], root[i]);
        assert root[..i + 1] == root[..i] + [root[i]];
        if ANNOTATION_REF_NAME in root[i].annotations {
          names := names[root[i].annotations[ANNOTATION_REF_NAME] := root[i].digest.ToString()];
        }
      }
      assert root[..|root|] == root;
    }
  }
}
