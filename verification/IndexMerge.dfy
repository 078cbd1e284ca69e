/**
  Merging two multi-architecture indexes (`AppendIndex`).

  `Merge` is the two-pass loop as the code runs it; `SimpleMerge` says in two
  filters what it is for. The method at the end is proved to compute `Merge`.
 */
module IndexMerge {
  import opened Results
  import opened Seqs
  import opened Oci
  import opened Text

  datatype MergeError = FetchFailed(digest: Hash) | BadReference(text: string)

  /** An entry that the merge treats as an image for some platform. */
  predicate IsImage(m: Descriptor) {
    HasArchitecture(m) && !IsUnknown(m)
  }

  function PlatformKey(m: Descriptor): string
    requires m.platform.Some?
  {
    m.platform.value.architecture + "/" + m.platform.value.os + "/" + m.platform.value.variant
  }

  /** An image for a platform that is not covered yet. */
  predicate NewImage(m: Descriptor, covered: set<string>) {
    IsImage(m) && PlatformKey(m) !in covered
  }

  /** Digests of the entries that carry an architecture. */
  function Mapped(s: seq<Descriptor>): set<Hash> {
    set m | m in s && HasArchitecture(m) :: m.digest
  }

  /** Platform keys that an index already covers. */
  function Covered(s: seq<Descriptor>): set<string> {
    set m | m in s && HasArchitecture(m) :: PlatformKey(m)
  }

  predicate Superset(inner: seq<Descriptor>, outer: seq<Descriptor>) {
    |inner| <= |outer| && Digests(inner) <= Digests(outer)
  }

  // ----- the loops, one element at a time -----

  function Prepend(adds: seq<Descriptor>, r: Result<seq<Descriptor>, MergeError>): Result<seq<Descriptor>, MergeError> {
    match r
    case Success(more) => Success(adds + more)
    case Failure(e) => Failure(e)
  }

  /** What the image pass adds from `s` when `seen` digests are present already. */
  function ImagePass(s: seq<Descriptor>, covered: set<string>, seen: set<Hash>, fetch: Hash -> bool)
    : Result<seq<Descriptor>, MergeError>
  {
    if s == [] then Success([])
    else
      var m := s[0];
      if !NewImage(m, covered) || m.digest in seen then
        ImagePass(s[1..], covered, seen, fetch)
      else if !fetch(m.digest) then
        Failure(FetchFailed(m.digest))
      else
        Prepend([m], ImagePass(s[1..], covered, seen + {m.digest}, fetch))
  }

  /** What the attestation pass adds from `s`. */
  function AttestationPass(s: seq<Descriptor>, seen: set<Hash>, fetch: Hash -> bool)
    : Result<seq<Descriptor>, MergeError>
  {
    if s == [] then Success([])
    else
      var m := s[0];
      if !IsAttestation(m) || m.digest in seen then
        AttestationPass(s[1..], seen, fetch)
      else
        match ParseHash(Reference(m))
        case Failure(_) => Failure(BadReference(Reference(m)))
        case Success(subject) =>
          if subject !in seen then
            AttestationPass(s[1..], seen, fetch)
          else if !fetch(m.digest) then
            Failure(FetchFailed(m.digest))
          else
            Prepend([m], AttestationPass(s[1..], seen + {m.digest}, fetch))
  }

  /** The merge: the secondary whole when it is a superset, else the primary and what it lacks. */
  function Merge(primary: seq<Descriptor>, secondary: seq<Descriptor>, fetch: Hash -> bool)
    : Result<seq<Descriptor>, MergeError>
  {
    if Superset(primary, secondary) then Success(secondary)
    else
      var images :- ImagePass(secondary, Covered(primary), Mapped(primary), fetch);
      var attestations :- AttestationPass(secondary, Mapped(primary) + Digests(images), fetch);
      Success(primary + images + attestations)
  }

  // ----- what one pass does -----

  lemma DigestsAppend(a: seq<Descriptor>, b: seq<Descriptor>)
    ensures Digests(a + b) == Digests(a) + Digests(b)
  {
    assert forall x :: x in a + b <==> x in a || x in b;
  }

  lemma DigestsCons(m: Descriptor, rest: seq<Descriptor>)
    ensures Digests([m] + rest) == {m.digest} + Digests(rest)
  {
    DigestsAppend([m], rest);
  }

  lemma MappedAppend(a: seq<Descriptor>, b: seq<Descriptor>)
    ensures Mapped(a + b) == Mapped(a) + Mapped(b)
    ensures Covered(a + b) == Covered(a) + Covered(b)
  {
    assert forall x :: x in a + b <==> x in a || x in b;
  }

  /** Everything the image pass adds is a new image from the list, once. */
  lemma {:induction false} ImagePassAdds(s: seq<Descriptor>, covered: set<string>, seen: set<Hash>, fetch: Hash -> bool)
    requires ImagePass(s, covered, seen, fetch).Success?
    ensures var adds := ImagePass(s, covered, seen, fetch).value;
      && (forall x :: x in adds ==> x in s && NewImage(x, covered) && x.digest !in seen)
      && DistinctDigests(adds)
  {
    if s != [] {
      var m := s[0];
      if !NewImage(m, covered) || m.digest in seen {
        ImagePassAdds(s[1..], covered, seen, fetch);
      } else {
        ImagePassAdds(s[1..], covered, seen + {m.digest}, fetch);
      }
    }
  }

  /** Every image on an uncovered platform is present after the pass. */
  lemma {:induction false} ImagePassKeeps(s: seq<Descriptor>, covered: set<string>, seen: set<Hash>, fetch: Hash -> bool)
    requires ImagePass(s, covered, seen, fetch).Success?
    ensures var adds := ImagePass(s, covered, seen, fetch).value;
      forall x :: x in s && NewImage(x, covered) ==> x.digest in seen + Digests(adds)
  {
    if s != [] {
      var m := s[0];
      if !NewImage(m, covered) || m.digest in seen {
        ImagePassKeeps(s[1..], covered, seen, fetch);
      } else {
        ImagePassKeeps(s[1..], covered, seen + {m.digest}, fetch);
        DigestsCons(m, ImagePass(s[1..], covered, seen + {m.digest}, fetch).value);
      }
    }
  }

  /** Everything the attestation pass adds is a new attestation from the list about something present. */
  lemma {:induction false} AttestationPassAdds(s: seq<Descriptor>, seen: set<Hash>, fetch: Hash -> bool)
    requires AttestationPass(s, seen, fetch).Success?
    ensures var adds := AttestationPass(s, seen, fetch).value;
      && (forall x :: x in adds ==> x in s && IsAttestation(x) && x.digest !in seen
                                    && RefersInto(x, seen + Digests(adds)))
      && DistinctDigests(adds)
  {
    hide ParseHash, IsAttestation, Reference, Digests;
    if s != [] {
      var m := s[0];
      if !IsAttestation(m) || m.digest in seen || !RefersInto(m, seen) {
        AttestationPassAdds(s[1..], seen, fetch);
      } else {
        AttestationPassAdds(s[1..], seen + {m.digest}, fetch);
        var rest := AttestationPass(s[1..], seen + {m.digest}, fetch).value;
        DigestsCons(m, rest);
        assert seen + {m.digest} + Digests(rest) == seen + Digests([m] + rest);
      }
    }
  }

  /** Every attestation about something present is present after the pass, and what was passed over parsed. */
  lemma {:induction false} AttestationPassKeeps(s: seq<Descriptor>, seen: set<Hash>, fetch: Hash -> bool)
    requires AttestationPass(s, seen, fetch).Success?
    ensures var adds := AttestationPass(s, seen, fetch).value;
      forall x :: x in s && IsAttestation(x) && x.digest !in seen + Digests(adds) ==>
        ParseHash(Reference(x)).Success? && !RefersInto(x, seen)
  {
    if s != [] {
      var m := s[0];
      if !IsAttestation(m) || m.digest in seen || !RefersInto(m, seen) {
        AttestationPassKeeps(s[1..], seen, fetch);
      } else {
        AttestationPassKeeps(s[1..], seen + {m.digest}, fetch);
        DigestsCons(m, AttestationPass(s[1..], seen + {m.digest}, fetch).value);
      }
    }
  }

  /** The reference of `x` parses and names one of `known`. */
  predicate RefersInto(x: Descriptor, known: set<Hash>) {
    var subject := ParseHash(Reference(x));
    subject.Success? && subject.value in known
  }

  // ----- the simple form -----

  /** The secondary's attestations are about images only, never about one another. */
  predicate AttestationsReferToImages(s: seq<Descriptor>) {
    forall a, b :: a in s && b in s && IsAttestation(a) && IsAttestation(b)
      ==> ParseHash(Reference(a)) != Success(b.digest)
  }

  function NewImages(s: seq<Descriptor>, covered: set<string>, seen: set<Hash>): seq<Descriptor> {
    Filter(s, (x: Descriptor) => NewImage(x, covered) && x.digest !in seen)
  }

  function NewAttestations(s: seq<Descriptor>, seen: set<Hash>): seq<Descriptor> {
    Filter(s, (x: Descriptor) => IsAttestation(x) && x.digest !in seen && RefersInto(x, seen))
  }

  /** The primary, the secondary's images on platforms it lacks, and the attestations about what is then there. */
  function SimpleMerge(primary: seq<Descriptor>, secondary: seq<Descriptor>): seq<Descriptor> {
    var images := NewImages(secondary, Covered(primary), Mapped(primary));
    primary + images + NewAttestations(secondary, Mapped(primary) + Digests(images))
  }

  lemma {:induction false} ImagePassIsFilter(s: seq<Descriptor>, covered: set<string>, seen: set<Hash>, fetch: Hash -> bool)
    requires DistinctDigests(s)
    requires ImagePass(s, covered, seen, fetch).Success?
    ensures ImagePass(s, covered, seen, fetch).value == NewImages(s, covered, seen)
  {
    if s != [] {
      var m := s[0];
      if !NewImage(m, covered) || m.digest in seen {
        ImagePassIsFilter(s[1..], covered, seen, fetch);
      } else {
        ImagePassIsFilter(s[1..], covered, seen + {m.digest}, fetch);
        FilterCongruent(s[1..],
          (x: Descriptor) => NewImage(x, covered) && x.digest !in seen + {m.digest},
          (x: Descriptor) => NewImage(x, covered) && x.digest !in seen);
      }
    }
  }

  lemma {:induction false} AttestationPassIsFilter(s: seq<Descriptor>, seen: set<Hash>, fetch: Hash -> bool)
    requires DistinctDigests(s) && AttestationsReferToImages(s)
    requires AttestationPass(s, seen, fetch).Success?
    ensures AttestationPass(s, seen, fetch).value == NewAttestations(s, seen)
  {
    hide ParseHash, IsAttestation, Reference;
    if s != [] {
      var m := s[0];
      if !IsAttestation(m) || m.digest in seen || !RefersInto(m, seen) {
        AttestationPassIsFilter(s[1..], seen, fetch);
      } else {
        AttestationPassIsFilter(s[1..], seen + {m.digest}, fetch);
        forall x | x in s[1..] && IsAttestation(x)
          ensures x.digest != m.digest && RefersInto(x, seen + {m.digest}) == RefersInto(x, seen)
        {
        }
        FilterCongruent(s[1..],
          (x: Descriptor) => IsAttestation(x) && x.digest !in seen + {m.digest} && RefersInto(x, seen + {m.digest}),
          (x: Descriptor) => IsAttestation(x) && x.digest !in seen && RefersInto(x, seen));
      }
    }
  }

  /** The two-pass merge with its growing digest map refines the two filters. */
  lemma MergeRefinesSimple(primary: seq<Descriptor>, secondary: seq<Descriptor>, fetch: Hash -> bool)
    requires !Superset(primary, secondary)
    requires DistinctDigests(secondary) && AttestationsReferToImages(secondary)
    requires Merge(primary, secondary, fetch).Success?
    ensures Merge(primary, secondary, fetch).value == SimpleMerge(primary, secondary)
  {
    ImagePassIsFilter(secondary, Covered(primary), Mapped(primary), fetch);
    var images := NewImages(secondary, Covered(primary), Mapped(primary));
    AttestationPassIsFilter(secondary, Mapped(primary) + Digests(images), fetch);
  }

  // ----- precedence -----

  /** The parts of a merge outside the superset shortcut. */
  lemma MergeParts(primary: seq<Descriptor>, secondary: seq<Descriptor>, fetch: Hash -> bool)
      returns (images: seq<Descriptor>, attestations: seq<Descriptor>)
    requires !Superset(primary, secondary)
    requires Merge(primary, secondary, fetch).Success?
    ensures ImagePass(secondary, Covered(primary), Mapped(primary), fetch) == Success(images)
    ensures AttestationPass(secondary, Mapped(primary) + Digests(images), fetch) == Success(attestations)
    ensures Merge(primary, secondary, fetch).value == primary + images + attestations
    ensures Mapped(primary + images + attestations) == Mapped(primary) + Digests(images) + Digests(attestations)
  {
    images := ImagePass(secondary, Covered(primary), Mapped(primary), fetch).value;
    var seen := Mapped(primary) + Digests(images);
    attestations := AttestationPass(secondary, seen, fetch).value;
    ImagePassAdds(secondary, Covered(primary), Mapped(primary), fetch);
    AttestationPassAdds(secondary, seen, fetch);
    MappedAppend(primary + images, attestations);
    MappedAppend(primary, images);
    assert Mapped(images) == Digests(images);
    assert Mapped(attestations) == Digests(attestations);
  }

  /**
    In case of conflict the primary wins: it comes first and whole; no added image
    is for a platform it covers; no image on an uncovered platform is lost; an
    attestation is present when its image was kept, and is not added when it was not.
   */
  lemma MergePrecedence(primary: seq<Descriptor>, secondary: seq<Descriptor>, fetch: Hash -> bool)
      returns (images: seq<Descriptor>, attestations: seq<Descriptor>)
    requires !Superset(primary, secondary)
    requires Merge(primary, secondary, fetch).Success?
    ensures Merge(primary, secondary, fetch).value == primary + images + attestations
    ensures forall m :: m in images ==>
      m in secondary && IsImage(m) && PlatformKey(m) !in Covered(primary) && m.digest !in Mapped(primary)
    ensures forall m :: m in secondary && IsImage(m) && PlatformKey(m) !in Covered(primary) ==>
      m.digest in Mapped(primary) + Digests(images)
    ensures forall a :: a in attestations ==>
      a in secondary && IsAttestation(a) && a.digest !in Mapped(primary) + Digests(images)
    ensures forall a :: a in secondary && IsAttestation(a) && RefersInto(a, Mapped(primary) + Digests(images)) ==>
      a.digest in Mapped(primary) + Digests(images) + Digests(attestations)
    ensures AttestationsReferToImages(secondary) ==>
      forall a :: a in attestations ==> RefersInto(a, Mapped(primary) + Digests(images))
    ensures DistinctDigests(images) && DistinctDigests(attestations)
    ensures forall m :: m in images ==> HasNewText(m, primary)
    ensures forall m :: m in secondary && HasNewText(m, primary) ==> m.digest in Mapped(primary) + Digests(images)
  {
    hide HasNewText;
    forall m
      ensures NewImage(m, Covered(primary)) <==> HasNewText(m, primary)
    {
      NewImageIsText(m, primary);
    }
    images, attestations := MergeParts(primary, secondary, fetch);
    ImagePassAdds(secondary, Covered(primary), Mapped(primary), fetch);
    ImagePassKeeps(secondary, Covered(primary), Mapped(primary), fetch);
    AttestationPassAdds(secondary, Mapped(primary) + Digests(images), fetch);
    AttestationPassKeeps(secondary, Mapped(primary) + Digests(images), fetch);
  }

  // ----- the same in the fields of the descriptors -----

  /** An image as the code tells one: a platform with an architecture that is not unknown/unknown. */
  predicate HasImageFields(m: Descriptor) {
    m.platform.Some? && m.platform.value.architecture != ""
    && !(m.platform.value.architecture == "unknown" && m.platform.value.os == "unknown")
  }

  /** The two entries have the same architecture, OS and variant once these are joined by slashes. */
  predicate SameText(a: Platform, b: Platform) {
    a.architecture + "/" + a.os + "/" + a.variant == b.architecture + "/" + b.os + "/" + b.variant
  }

  predicate SameFields(a: Platform, b: Platform) {
    a.architecture == b.architecture && a.os == b.os && a.variant == b.variant
  }

  predicate SlashFree(p: Platform) {
    '/' !in p.architecture && '/' !in p.os
  }

  /** Without slashes in the architecture and the OS the joined text tells the fields apart. */
  lemma SameTextSameFields(a: Platform, b: Platform)
    requires SlashFree(a) && SlashFree(b)
    ensures SameText(a, b) <==> SameFields(a, b)
  {
    hide Split;
    if SameText(a, b) {
      TextParts(a);
      TextParts(b);
      var n := |a.architecture + "/" + a.os + "/"|;
      assert a.variant == (a.architecture + "/" + a.os + "/" + a.variant)[n..];
      assert b.variant == (b.architecture + "/" + b.os + "/" + b.variant)[n..];
    }
  }

  lemma TextParts(p: Platform)
    requires SlashFree(p)
    ensures var parts := Split(p.architecture + "/" + p.os + "/" + p.variant, '/');
      |parts| >= 2 && parts[0] == p.architecture && parts[1] == p.os
  {
    hide Split;
    SplitAtFirst(p.architecture, p.os + "/" + p.variant, '/');
    SplitAtFirst(p.os, p.variant, '/');
    assert p.architecture + "/" + p.os + "/" + p.variant == p.architecture + ['/'] + (p.os + "/" + p.variant);
    assert p.os + "/" + p.variant == p.os + ['/'] + p.variant;
  }

  /** Some entry of the list has an architecture and this platform's text. */
  predicate TextListed(s: seq<Descriptor>, p: Platform) {
    exists x :: x in s && x.platform.Some? && x.platform.value.architecture != "" && SameText(x.platform.value, p)
  }

  /** An image for a platform text that the primary lacks. */
  predicate HasNewText(m: Descriptor, primary: seq<Descriptor>) {
    HasImageFields(m) && !TextListed(primary, m.platform.value)
  }

  lemma NewImageIsText(m: Descriptor, primary: seq<Descriptor>)
    ensures NewImage(m, Covered(primary)) <==> HasNewText(m, primary)
  {
    if HasImageFields(m) && TextListed(primary, m.platform.value) {
      var x :| x in primary && x.platform.Some? && x.platform.value.architecture != "" && SameText(x.platform.value, m.platform.value);
      assert HasArchitecture(x) && PlatformKey(x) == PlatformKey(m);
      assert PlatformKey(m) in Covered(primary);
    }
    if HasImageFields(m) && PlatformKey(m) in Covered(primary) {
      var x :| x in primary && HasArchitecture(x) && PlatformKey(x) == PlatformKey(m);
      assert SameText(x.platform.value, m.platform.value);
    }
  }

  /**
    Exactly when an image of the secondary is in the merge, by digest: the secondary is returned whole, the
    primary has the digest, or an image with the digest is listed for a platform text that the primary lacks.
   */
  lemma MergeHoldsImageIff(primary: seq<Descriptor>, secondary: seq<Descriptor>, fetch: Hash -> bool, m: Descriptor)
    requires Merge(primary, secondary, fetch).Success? && m in secondary && HasImageFields(m)
    requires forall a :: a in secondary && IsAttestation(a) ==> a.digest != m.digest
    ensures m.digest in Digests(Merge(primary, secondary, fetch).value) <==>
      || Superset(primary, secondary)
      || m.digest in Digests(primary)
      || exists x :: x in secondary && x.digest == m.digest && HasNewText(x, primary)
  {
    hide ImagePass, AttestationPass, IsAttestation, RefersInto, Covered, NewImage, HasNewText;
    if !Superset(primary, secondary) {
      var images, attestations := MergeParts(primary, secondary, fetch);
      ImagePassAdds(secondary, Covered(primary), Mapped(primary), fetch);
      ImagePassKeeps(secondary, Covered(primary), Mapped(primary), fetch);
      AttestationPassAdds(secondary, Mapped(primary) + Digests(images), fetch);
      DigestsAppend(primary + images, attestations);
      DigestsAppend(primary, images);
      assert Mapped(primary) <= Digests(primary);
      forall x | x in secondary
        ensures NewImage(x, Covered(primary)) <==> HasNewText(x, primary)
      {
        NewImageIsText(x, primary);
      }
      assert m.digest !in Digests(attestations);
    }
  }

  /** An image for an architecture, OS and variant that no entry of the primary has is in the merge. */
  lemma MergeHoldsNewPlatforms(primary: seq<Descriptor>, secondary: seq<Descriptor>, fetch: Hash -> bool, m: Descriptor)
    requires Merge(primary, secondary, fetch).Success? && m in secondary && HasImageFields(m) && SlashFree(m.platform.value)
    requires forall x :: x in primary && x.platform.Some? ==> SlashFree(x.platform.value) && !SameFields(x.platform.value, m.platform.value)
    ensures m.digest in Digests(Merge(primary, secondary, fetch).value)
  {
    hide Merge, Covered, SlashFree, SameText, SameFields, NewImage;
    forall x | x in primary && x.platform.Some?
      ensures !SameText(x.platform.value, m.platform.value)
    {
      SameTextSameFields(x.platform.value, m.platform.value);
    }
    NewImageIsText(m, primary);
    MergeHoldsNewImage(primary, secondary, fetch, m);
  }

  lemma MergeHoldsNewImage(primary: seq<Descriptor>, secondary: seq<Descriptor>, fetch: Hash -> bool, m: Descriptor)
    requires Merge(primary, secondary, fetch).Success? && m in secondary && NewImage(m, Covered(primary))
    ensures m.digest in Digests(Merge(primary, secondary, fetch).value)
  {
    hide ImagePass, AttestationPass, NewImage, Covered;
    if !Superset(primary, secondary) {
      var images, attestations := MergeParts(primary, secondary, fetch);
      ImagePassKeeps(secondary, Covered(primary), Mapped(primary), fetch);
      DigestsAppend(primary + images, attestations);
      DigestsAppend(primary, images);
      assert Mapped(primary) <= Digests(primary);
    }
  }

  /** The primary wins: an image for an architecture, OS and variant that it has is not added to it. */
  lemma MergeKeepsPrimaryPlatforms(primary: seq<Descriptor>, secondary: seq<Descriptor>, fetch: Hash -> bool, x: Descriptor, m: Descriptor)
    requires Merge(primary, secondary, fetch).Success? && !Superset(primary, secondary) && DistinctDigests(secondary)
    requires x in primary && x.platform.Some? && x.platform.value.architecture != ""
    requires m in secondary && HasImageFields(m) && SameFields(x.platform.value, m.platform.value) && m.digest !in Digests(primary)
    ensures m.digest !in Digests(Merge(primary, secondary, fetch).value)
    ensures primary <= Merge(primary, secondary, fetch).value
  {
    hide Merge, DistinctDigests;
    forall y | y in secondary && y.digest == m.digest
      ensures y == m
    {
      OneEntryPerDigest(secondary, y, m);
    }
    MergeHoldsImageIff(primary, secondary, fetch, m);
    var images, attestations := MergeParts(primary, secondary, fetch);
  }

  lemma OneEntryPerDigest(s: seq<Descriptor>, a: Descriptor, b: Descriptor)
    requires DistinctDigests(s) && a in s && b in s && a.digest == b.digest
    ensures a == b
  {
    var i :| 0 <= i < |s| && s[i] == a;
    var j :| 0 <= j < |s| && s[j] == b;
    assert i == j;
  }

  /** With slashes two platforms can have one text, and the merge takes them for the same. */
  lemma SlashesHideAnImage(a: Hash, b: Hash, fetch: Hash -> bool)
    requires a != b
    ensures var first := Descriptor(OCI_MANIFEST, 1, a, Some(Platform("x/y", "z", "", "")), map[]);
      var second := Descriptor(OCI_MANIFEST, 1, b, Some(Platform("x", "y/z", "", "")), map[]);
      !SameFields(first.platform.value, second.platform.value) && Merge([first], [second], fetch) == Success([first])
  {
    var first := Descriptor(OCI_MANIFEST, 1, a, Some(Platform("x/y", "z", "", "")), map[]);
    var second := Descriptor(OCI_MANIFEST, 1, b, Some(Platform("x", "y/z", "", "")), map[]);
    assert first.digest in Digests([first]) && a !in Digests([second]);
    assert "x/y" + "/" + "z" + "/" + "" == "x/y/z/" && "x" + "/" + "y/z" + "/" + "" == "x/y/z/";
    assert first in [first] && PlatformKey(second) in Covered([first]);
    assert "x"[0] == 'x' && UNKNOWN[0] == 'u' && "x/y"[1] == '/';
    ImagePassQuiet([second], Covered([first]), Mapped([first]), fetch);
    assert !IsAttestation(second);
    AttestationPassQuiet([second], Mapped([first]) + Digests([]), fetch);
    assert [first] + [] + [] == [first];
  }

  /** An attestation about an entry with an architecture that the primary has, or about an image that is added, is in the merge. */
  lemma MergeHoldsAttestations(primary: seq<Descriptor>, secondary: seq<Descriptor>, fetch: Hash -> bool, a: Descriptor, x: Descriptor)
    requires Merge(primary, secondary, fetch).Success? && a in secondary && WellFormed(x.digest)
    requires a.platform.Some? && a.platform.value.architecture == "unknown" && a.platform.value.os == "unknown"
    requires "vnd.docker.reference.digest" in a.annotations && a.annotations["vnd.docker.reference.digest"] == x.digest.ToString()
    requires (x in primary && x.platform.Some? && x.platform.value.architecture != "")
      || (x in secondary && HasNewText(x, primary))
    ensures a.digest in Digests(Merge(primary, secondary, fetch).value)
  {
    hide ImagePass, AttestationPass, Covered, NewImage, HasNewText, WellFormed, ParseHash;
    ParseInvertsToString(x.digest);
    NotEmpty(x.digest);
    assert IsAttestation(a);
    if Superset(primary, secondary) {
      assert a.digest in Digests(secondary);
    } else {
      NewImageIsText(x, primary);
      var images, attestations := MergeParts(primary, secondary, fetch);
      ImagePassKeeps(secondary, Covered(primary), Mapped(primary), fetch);
      AttestationPassKeeps(secondary, Mapped(primary) + Digests(images), fetch);
      DigestsAppend(primary + images, attestations);
      DigestsAppend(primary, images);
      assert Mapped(primary) <= Digests(primary);
      assert RefersInto(a, Mapped(primary) + Digests(images));
    }
  }

  /**
    Exactly then, for attestations about images under distinct digests: an attestation of the secondary whose digest
    the primary lacks is in the merge if and only if such an entry has the digest it is about.
   */
  lemma MergeHoldsAttestationIff(primary: seq<Descriptor>, secondary: seq<Descriptor>, fetch: Hash -> bool, a: Descriptor, h: Hash)
    requires Merge(primary, secondary, fetch).Success? && !Superset(primary, secondary) && a in secondary && WellFormed(h)
    requires a.platform.Some? && a.platform.value.architecture == "unknown" && a.platform.value.os == "unknown"
    requires "vnd.docker.reference.digest" in a.annotations && a.annotations["vnd.docker.reference.digest"] == h.ToString()
    requires AttestationsReferToImages(secondary) && DistinctDigests(secondary) && a.digest !in Digests(primary)
    ensures a.digest in Digests(Merge(primary, secondary, fetch).value) <==>
      || (exists x :: x in primary && x.platform.Some? && x.platform.value.architecture != "" && x.digest == h)
      || (exists x :: x in secondary && HasNewText(x, primary) && x.digest == h)
  {
    hide ImagePass, AttestationPass, Covered, HasNewText, WellFormed, ParseHash, AttestationsReferToImages, DistinctDigests, SimpleMerge, Merge;
    ParseInvertsToString(h);
    NotEmpty(h);
    assert IsAttestation(a);
    if x :| x in primary && x.platform.Some? && x.platform.value.architecture != "" && x.digest == h {
      MergeHoldsAttestations(primary, secondary, fetch, a, x);
    } else if x :| x in secondary && HasNewText(x, primary) && x.digest == h {
      MergeHoldsAttestations(primary, secondary, fetch, a, x);
    } else {
      AttestationNotAdded(primary, secondary, fetch, a, h);
    }
  }

  lemma AttestationNotAdded(primary: seq<Descriptor>, secondary: seq<Descriptor>, fetch: Hash -> bool, a: Descriptor, h: Hash)
    requires Merge(primary, secondary, fetch).Success? && !Superset(primary, secondary) && a in secondary
    requires IsAttestation(a) && ParseHash(Reference(a)) == Success(h)
    requires AttestationsReferToImages(secondary) && DistinctDigests(secondary) && a.digest !in Digests(primary)
    requires forall x :: x in primary && x.platform.Some? && x.platform.value.architecture != "" ==> x.digest != h
    requires forall x :: x in secondary && HasNewText(x, primary) ==> x.digest != h
    ensures a.digest !in Digests(Merge(primary, secondary, fetch).value)
  {
    hide Merge, ParseHash, Reference, Covered, HasNewText, DistinctDigests, AttestationsReferToImages, IsImage, NewImage;
    var images, attestations := MergePrecedence(primary, secondary, fetch);
    DigestsAppend(primary + images, attestations);
    DigestsAppend(primary, images);
    forall x: Descriptor | x in images + attestations && x.digest == a.digest
      ensures x == a
    {
      OneEntryPerDigest(secondary, x, a);
    }
    NotAnImage(a);
    assert h !in Mapped(primary);
    assert h !in Digests(images);
  }

  lemma NotAnImage(a: Descriptor)
    ensures IsAttestation(a) ==> !IsImage(a)
  {
  }

  lemma NotEmpty(h: Hash)
    ensures h.ToString() != ""
  {
  }

  // ----- idempotence -----

  /** A pass over images that are all covered or present adds nothing and cannot fail. */
  lemma {:induction false} ImagePassQuiet(s: seq<Descriptor>, covered: set<string>, seen: set<Hash>, fetch: Hash -> bool)
    requires forall x :: x in s && NewImage(x, covered) ==> x.digest in seen
    ensures ImagePass(s, covered, seen, fetch) == Success([])
  {
    if s != [] {
      assert s[0] in s;
      ImagePassQuiet(s[1..], covered, seen, fetch);
    }
  }

  lemma {:induction false} AttestationPassQuiet(s: seq<Descriptor>, seen: set<Hash>, fetch: Hash -> bool)
    requires forall x :: x in s && IsAttestation(x) ==>
      x.digest in seen || (ParseHash(Reference(x)).Success? && !RefersInto(x, seen))
    ensures AttestationPass(s, seen, fetch) == Success([])
  {
    if s != [] {
      assert s[0] in s;
      AttestationPassQuiet(s[1..], seen, fetch);
    }
  }

  /** An index that the secondary was already merged into cannot have become a subset of it. */
  lemma StillNotSuperset(primary: seq<Descriptor>, more: seq<Descriptor>, secondary: seq<Descriptor>)
    requires !Superset(primary, secondary)
    ensures !Superset(primary + more, secondary)
  {
    DigestsAppend(primary, more);
  }

  /** After a merge no image of the secondary is both on an uncovered platform and absent. */
  lemma NoImageLeft(primary: seq<Descriptor>, secondary: seq<Descriptor>, fetch: Hash -> bool)
    requires !Superset(primary, secondary)
    requires Merge(primary, secondary, fetch).Success?
    ensures var once := Merge(primary, secondary, fetch).value;
      forall x :: x in secondary && NewImage(x, Covered(once)) ==> x.digest in Mapped(once)
  {
    var images, attestations := MergeParts(primary, secondary, fetch);
    ImagePassKeeps(secondary, Covered(primary), Mapped(primary), fetch);
    MappedAppend(primary + images, attestations);
    MappedAppend(primary, images);
  }

  /** A second merge has only attestations to look at. */
  lemma SecondMerge(primary: seq<Descriptor>, secondary: seq<Descriptor>, fetch: Hash -> bool)
    requires !Superset(primary, secondary)
    requires Merge(primary, secondary, fetch).Success?
    ensures var once := Merge(primary, secondary, fetch).value;
      Merge(once, secondary, fetch) == Prepend(once, AttestationPass(secondary, Mapped(once), fetch))
  {
    hide ImagePass, AttestationPass, Superset, Mapped, Covered, NewImage;
    var once := Merge(primary, secondary, fetch).value;
    assert !Superset(once, secondary) by {
      var images, attestations := MergeParts(primary, secondary, fetch);
      assert once == primary + (images + attestations);
      StillNotSuperset(primary, images + attestations, secondary);
    }
    NoImageLeft(primary, secondary, fetch);
    ImagePassQuiet(secondary, Covered(once), Mapped(once), fetch);
    assert Mapped(once) + Digests([]) == Mapped(once);
    assert once + [] == once;
  }

  // what an attestation is about may come later in the list, when the pass is past it

  predicate About(a: Descriptor, b: Descriptor) {
    ParseHash(Reference(a)) == Success(b.digest)
  }

  /** Entry `i` is an attestation about something known, or about an earlier attestation of which this holds. */
  predicate Reaches(s: seq<Descriptor>, known: set<Hash>, i: nat)
    requires i < |s|
    decreases i
  {
    IsAttestation(s[i])
    && (RefersInto(s[i], known) || exists j :: 0 <= j < i && About(s[i], s[j]) && Reaches(s, known, j))
  }

  function Reached(s: seq<Descriptor>, known: set<Hash>): set<Hash> {
    set i | 0 <= i < |s| && Reaches(s, known, i) :: s[i].digest
  }

  /** The digests known once the first entry was looked at. */
  function KnownThen(s: seq<Descriptor>, known: set<Hash>): set<Hash>
    requires s != []
  {
    if Reaches(s, known, 0) then known + {s[0].digest} else known
  }

  lemma {:induction false} ReachesTail(s: seq<Descriptor>, known: set<Hash>, i: nat)
    requires i + 1 < |s|
    ensures Reaches(s, known, i + 1) <==> Reaches(s[1..], KnownThen(s, known), i)
    decreases i
  {
    hide IsAttestation, ParseHash, Reference;
    var t, later := s[1..], KnownThen(s, known);
    assert forall j :: 0 <= j < |t| ==> t[j] == s[j + 1];
    forall j | 0 <= j < i
      ensures Reaches(s, known, j + 1) <==> Reaches(t, later, j)
    {
      ReachesTail(s, known, j);
    }
    assert RefersInto(t[i], later) <==> RefersInto(t[i], known) || (Reaches(s, known, 0) && About(s[i + 1], s[0]));
    if j :| 0 <= j < i + 1 && About(s[i + 1], s[j]) && Reaches(s, known, j) {
      if j > 0 {
        assert About(t[i], t[j - 1]) && Reaches(t, later, j - 1);
      }
    }
  }

  /** The attestation pass leaves present what was known and every attestation that reaches it. */
  lemma {:induction false} AttestationPassReaches(s: seq<Descriptor>, seen: set<Hash>, fetch: Hash -> bool)
    requires AttestationPass(s, seen, fetch).Success?
    ensures seen + Digests(AttestationPass(s, seen, fetch).value) == seen + Reached(s, seen)
  {
    hide ParseHash, IsAttestation, Reference, Digests, Reached;
    if s == [] {
      NothingReached(seen);
    } else {
      var later := KnownThen(s, seen);
      ReachedCons(s, seen);
      AttestationPassStep(s, seen, fetch);
      AttestationPassReaches(s[1..], later, fetch);
      var rest := AttestationPass(s[1..], later, fetch).value;
      DigestsCons(s[0], rest);
      assert [] + rest == rest;
      assert seen + Digests(AttestationPass(s, seen, fetch).value) == later + Digests(rest);
    }
  }

  lemma NothingReached(seen: set<Hash>)
    ensures Reached([], seen) == {} && Digests([]) == {}
  {
  }

  lemma ReachedCons(s: seq<Descriptor>, known: set<Hash>)
    requires s != []
    ensures known + Reached(s, known) == KnownThen(s, known) + Reached(s[1..], KnownThen(s, known))
  {
    hide Reaches;
    var t, later := s[1..], KnownThen(s, known);
    forall i | 0 <= i < |t|
      ensures Reaches(s, known, i + 1) <==> Reaches(t, later, i)
    {
      ReachesTail(s, known, i);
    }
    forall h | h in Reached(s, known)
      ensures h in later + Reached(t, later)
    {
      var i :| 0 <= i < |s| && Reaches(s, known, i) && s[i].digest == h;
      if i > 0 {
        assert Reaches(t, later, i - 1) && t[i - 1].digest == h;
      }
    }
    forall h | h in Reached(t, later)
      ensures h in Reached(s, known)
    {
      var i :| 0 <= i < |t| && Reaches(t, later, i) && t[i].digest == h;
      assert Reaches(s, known, i + 1) && s[i + 1].digest == h;
    }
    if Reaches(s, known, 0) {
      assert s[0].digest in Reached(s, known);
    }
  }

  /** One turn of the attestation pass. */
  lemma AttestationPassStep(s: seq<Descriptor>, seen: set<Hash>, fetch: Hash -> bool)
    requires s != [] && AttestationPass(s, seen, fetch).Success?
    ensures var rest := AttestationPass(s[1..], KnownThen(s, seen), fetch);
      rest.Success? && AttestationPass(s, seen, fetch).value
        == (if Reaches(s, seen, 0) && s[0].digest !in seen then [s[0]] else []) + rest.value
  {
    hide ParseHash, IsAttestation, Reference;
    if s[0].digest in seen {
      assert KnownThen(s, seen) == seen;
    }
  }

  /** The attestation pass adds entry `i`: it reaches something known, and its digest is neither known nor that of an earlier one that does. */
  predicate TakenAt(s: seq<Descriptor>, known: set<Hash>, i: nat)
    requires i < |s|
  {
    Reaches(s, known, i) && s[i].digest !in known && forall j :: 0 <= j < i && Reaches(s, known, j) ==> s[j].digest != s[i].digest
  }

  lemma TakenAtTail(s: seq<Descriptor>, known: set<Hash>, i: nat)
    requires i + 1 < |s|
    ensures TakenAt(s, known, i + 1) <==> TakenAt(s[1..], KnownThen(s, known), i)
  {
    hide Reaches;
    var t, later := s[1..], KnownThen(s, known);
    forall j | 0 <= j <= i
      ensures Reaches(s, known, j + 1) <==> Reaches(t, later, j)
    {
      ReachesTail(s, known, j);
    }
    assert forall j :: 0 <= j <= i ==> t[j] == s[j + 1];
    assert forall j :: 0 < j <= i + 1 ==> s[j] == t[j - 1] && (Reaches(s, known, j) <==> Reaches(t, later, j - 1));
  }

  lemma {:induction false} AttestationPassExact(s: seq<Descriptor>, seen: set<Hash>, fetch: Hash -> bool)
    requires AttestationPass(s, seen, fetch).Success?
    ensures forall x :: x in AttestationPass(s, seen, fetch).value <==>
      exists i :: 0 <= i < |s| && s[i] == x && TakenAt(s, seen, i)
  {
    hide Reaches, TakenAt;
    if s != [] {
      var t, later := s[1..], KnownThen(s, seen);
      AttestationPassStep(s, seen, fetch);
      AttestationPassExact(t, later, fetch);
      TakenAtFirst(s, seen);
      forall i | 0 <= i < |t|
        ensures TakenAt(s, seen, i + 1) <==> TakenAt(t, later, i)
      {
        TakenAtTail(s, seen, i);
      }
      assert forall i :: 0 < i < |s| ==> s[i] == t[i - 1] && (TakenAt(s, seen, i) <==> TakenAt(t, later, i - 1));
    }
  }

  lemma TakenAtFirst(s: seq<Descriptor>, known: set<Hash>)
    requires s != []
    ensures TakenAt(s, known, 0) <==> Reaches(s, known, 0) && s[0].digest !in known
  {
  }

  /** What the primary and the secondary's new images leave known to the attestation pass. */
  function Known(primary: seq<Descriptor>, secondary: seq<Descriptor>): set<Hash> {
    Mapped(primary) + set x | x in secondary && NewImage(x, Covered(primary)) :: x.digest
  }

  lemma KnownAfterImages(primary: seq<Descriptor>, secondary: seq<Descriptor>, fetch: Hash -> bool)
    requires ImagePass(secondary, Covered(primary), Mapped(primary), fetch).Success?
    ensures Mapped(primary) + Digests(ImagePass(secondary, Covered(primary), Mapped(primary), fetch).value)
      == Known(primary, secondary)
  {
    hide ImagePass, NewImage, Covered, Mapped;
    ImagePassAdds(secondary, Covered(primary), Mapped(primary), fetch);
    ImagePassKeeps(secondary, Covered(primary), Mapped(primary), fetch);
  }

  /**
    Attestation `i` stands before `j`, which it is about and which a merge adds or has,
    and nothing with the digest of `i` is added or known.
   */
  predicate StrandedAt(s: seq<Descriptor>, known: set<Hash>, i: nat, j: nat)
    requires i < j < |s|
  {
    IsAttestation(s[i]) && About(s[i], s[j]) && Reaches(s, known, j) && s[i].digest !in known + Reached(s, known)
  }

  predicate Stranded(primary: seq<Descriptor>, secondary: seq<Descriptor>) {
    exists i, j :: 0 <= i < j < |secondary| && StrandedAt(secondary, Known(primary, secondary), i, j)
  }

  /** Whatever is about something present and is itself absent stands before what it is about. */
  lemma StrandedIff(s: seq<Descriptor>, known: set<Hash>)
    ensures var present := known + Reached(s, known);
      (exists a :: a in s && IsAttestation(a) && RefersInto(a, present) && a.digest !in present)
      <==> exists i, j :: 0 <= i < j < |s| && StrandedAt(s, known, i, j)
  {
    hide IsAttestation, ParseHash, Reference;
    var present := known + Reached(s, known);
    if a :| a in s && IsAttestation(a) && RefersInto(a, present) && a.digest !in present {
      var i :| 0 <= i < |s| && s[i] == a;
      assert !Reaches(s, known, i);
      var j :| 0 <= j < |s| && Reaches(s, known, j) && About(a, s[j]);
      assert i < j && StrandedAt(s, known, i, j);
    }
    if i, j :| 0 <= i < j < |s| && StrandedAt(s, known, i, j) {
      assert s[j].digest in Reached(s, known);
      assert s[i] in s && RefersInto(s[i], present);
    }
  }

  /** Exactly when a second merge of the same secondary changes nothing, told from the two lists. */
  lemma MergeIdempotentIff(primary: seq<Descriptor>, secondary: seq<Descriptor>, fetch: Hash -> bool)
    requires Merge(primary, secondary, fetch).Success?
    ensures var once := Merge(primary, secondary, fetch);
      Merge(once.value, secondary, fetch) == once <==> Superset(primary, secondary) || !Stranded(primary, secondary)
  {
    hide ImagePass, AttestationPass, IsAttestation, RefersInto, Reached, Reaches, StrandedAt, Known;
    if !Superset(primary, secondary) {
      var images, attestations := MergeParts(primary, secondary, fetch);
      KnownAfterImages(primary, secondary, fetch);
      AttestationPassReaches(secondary, Known(primary, secondary), fetch);
      StrandedIff(secondary, Known(primary, secondary));
      SecondMergeIff(primary, secondary, fetch);
    }
  }

  /** A second merge changes nothing when every attestation about something present is present. */
  lemma SecondMergeIff(primary: seq<Descriptor>, secondary: seq<Descriptor>, fetch: Hash -> bool)
    requires !Superset(primary, secondary)
    requires Merge(primary, secondary, fetch).Success?
    ensures var once := Merge(primary, secondary, fetch);
      var present := Mapped(once.value);
      Merge(once.value, secondary, fetch) == once <==>
        !exists a :: a in secondary && IsAttestation(a) && RefersInto(a, present) && a.digest !in present
  {
    var once := Merge(primary, secondary, fetch).value;
    var seen := Mapped(once);
    SecondMerge(primary, secondary, fetch);
    var again := AttestationPass(secondary, seen, fetch);
    if a :| a in secondary && IsAttestation(a) && RefersInto(a, seen) && a.digest !in seen {
      if again.Success? {
        AttestationPassKeeps(secondary, seen, fetch);
        assert |again.value| > 0;
        assert |once + again.value| > |once|;
      }
    } else {
      SkippedParse(primary, secondary, fetch);
      AttestationPassQuiet(secondary, seen, fetch);
      assert once + [] == once;
    }
  }

  /** Every attestation that a successful merge left out had a well-formed reference. */
  lemma SkippedParse(primary: seq<Descriptor>, secondary: seq<Descriptor>, fetch: Hash -> bool)
    requires !Superset(primary, secondary)
    requires Merge(primary, secondary, fetch).Success?
    ensures var seen := Mapped(Merge(primary, secondary, fetch).value);
      forall a :: a in secondary && IsAttestation(a) ==> a.digest in seen || ParseHash(Reference(a)).Success?
  {
    var images, attestations := MergeParts(primary, secondary, fetch);
    AttestationPassKeeps(secondary, Mapped(primary) + Digests(images), fetch);
  }

  /** Merging is idempotent, the superset shortcut included. */
  lemma MergeIdempotent(primary: seq<Descriptor>, secondary: seq<Descriptor>, fetch: Hash -> bool)
    requires AttestationsReferToImages(secondary)
    requires Merge(primary, secondary, fetch).Success?
    ensures var once := Merge(primary, secondary, fetch);
      Merge(once.value, secondary, fetch) == once
  {
    hide Merge, IsAttestation, ParseHash, Reference, Known, Reached;
    MergeIdempotentIff(primary, secondary, fetch);
    forall i, j | 0 <= i < j < |secondary|
      ensures !StrandedAt(secondary, Known(primary, secondary), i, j)
    {
      assert secondary[i] in secondary && secondary[j] in secondary;
    }
  }

  /** Otherwise it is not: an attestation listed before the one it is about is added by the second merge only. */
  lemma SecondMergeCanAdd(x: Hash, a: Hash, b: Hash, fetch: Hash -> bool)
    requires WellFormed(x) && WellFormed(b) && x != a && x != b && a != b && fetch(a) && fetch(b)
    ensures var image := ImageOf(x);
      var early := AttestationOf(a, b);
      var late := AttestationOf(b, x);
      && Merge([image], [early, late], fetch) == Success([image, late])
      && Merge([image, late], [early, late], fetch) == Success([image, late, early])
  {
    hide ImageOf, AttestationOf, Merge, WellFormed;
    var image, early, late := ImageOf(x), AttestationOf(a, b), AttestationOf(b, x);
    AttestationOfIs(a, b);
    AttestationOfIs(b, x);
    TwoAttestations(early, late, {x}, fetch);
    TwoAttestations(early, late, {x, b}, fetch);
    MergeOfAttestations([image], x, [early, late], {x}, fetch);
    MergeOfAttestations([image, late], x, [early, late], {x, b}, fetch);
    assert [image] + [late] == [image, late];
    assert [image, late] + [early] == [image, late, early];
  }

  /** Attestations merged into a list that holds something else. */
  lemma MergeOfAttestations(primary: seq<Descriptor>, x: Hash, secondary: seq<Descriptor>, known: set<Hash>, fetch: Hash -> bool)
    requires forall m :: m in secondary ==> !IsImage(m) && m.digest != x
    requires x in Digests(primary) && (forall m :: m in primary ==> HasArchitecture(m)) && Digests(primary) == known
    ensures Merge(primary, secondary, fetch) == Prepend(primary, AttestationPass(secondary, known, fetch))
  {
    hide AttestationPass, HasArchitecture;
    assert x !in Digests(secondary);
    assert Mapped(primary) == known;
    ImagePassQuiet(secondary, Covered(primary), known, fetch);
    assert known + Digests([]) == known;
    assert primary + [] == primary;
  }

  lemma AttestationOfIs(digest: Hash, subject: Hash)
    requires WellFormed(subject)
    ensures IsAttestation(AttestationOf(digest, subject)) && !IsImage(AttestationOf(digest, subject))
    ensures ParseHash(Reference(AttestationOf(digest, subject))) == Success(subject)
  {
    ParseInvertsToString(subject);
  }

  /** The attestation pass over two attestations. */
  lemma TwoAttestations(early: Descriptor, late: Descriptor, seen: set<Hash>, fetch: Hash -> bool)
    requires IsAttestation(early) && IsAttestation(late) && early.digest !in seen && early.digest != late.digest
    requires ParseHash(Reference(early)) == Success(late.digest)
    requires ParseHash(Reference(late)).Success? && ParseHash(Reference(late)).value in seen
    requires fetch(early.digest) && fetch(late.digest)
    ensures AttestationPass([early, late], seen, fetch) == Success(if late.digest in seen then [early] else [late])
  {
    hide IsAttestation, ParseHash, Reference;
    var both := [early, late];
    assert both[1..] == [late] && [late][1..] == [];
    if late.digest in seen {
      assert AttestationPass([late], seen + {early.digest}, fetch) == Success([]);
      assert [early] + [] == [early];
    } else {
      assert AttestationPass([], seen + {late.digest}, fetch) == Success([]);
      assert [late] + [] == [late];
      assert AttestationPass([late], seen, fetch) == Success([late]);
    }
  }

  // ----- when it fails -----

  /** The image pass stops at entry `i`: it is to be added and cannot be fetched. */
  predicate ImageBlocks(s: seq<Descriptor>, covered: set<string>, seen: set<Hash>, fetch: Hash -> bool, i: nat)
    requires i < |s|
  {
    NewImage(s[i], covered) && s[i].digest !in seen && !fetch(s[i].digest)
  }

  lemma {:induction false} ImagePassFailsIff(s: seq<Descriptor>, covered: set<string>, seen: set<Hash>, fetch: Hash -> bool)
    ensures ImagePass(s, covered, seen, fetch).Failure? <==> exists i :: 0 <= i < |s| && ImageBlocks(s, covered, seen, fetch, i)
  {
    hide NewImage;
    if s != [] {
      var t := s[1..];
      var taken := NewImage(s[0], covered) && s[0].digest !in seen;
      assert ImageBlocks(s, covered, seen, fetch, 0) <==> taken && !fetch(s[0].digest);
      if !taken || fetch(s[0].digest) {
        var seen' := if taken then seen + {s[0].digest} else seen;
        ImagePassFailsIff(t, covered, seen', fetch);
        assert forall i :: 0 <= i < |t| ==> t[i] == s[i + 1];
        forall i | 0 <= i < |t|
          ensures ImageBlocks(t, covered, seen', fetch, i) <==> ImageBlocks(s, covered, seen, fetch, i + 1)
        {
        }
        assert forall i :: 0 < i < |s| ==> (ImageBlocks(s, covered, seen, fetch, i) <==> ImageBlocks(t, covered, seen', fetch, i - 1));
      }
    }
  }

  /** The attestation pass stops at entry `i`: its digest is new, and its reference does not parse or it is to be added and cannot be fetched. */
  predicate AttestationBlocks(s: seq<Descriptor>, known: set<Hash>, fetch: Hash -> bool, i: nat)
    requires i < |s|
  {
    && IsAttestation(s[i]) && s[i].digest !in known && (forall j :: 0 <= j < i && Reaches(s, known, j) ==> s[j].digest != s[i].digest)
    && (ParseHash(Reference(s[i])).Failure? || (Reaches(s, known, i) && !fetch(s[i].digest)))
  }

  lemma AttestationBlocksTail(s: seq<Descriptor>, known: set<Hash>, fetch: Hash -> bool, i: nat)
    requires i + 1 < |s|
    ensures AttestationBlocks(s, known, fetch, i + 1) <==> AttestationBlocks(s[1..], KnownThen(s, known), fetch, i)
  {
    hide Reaches, IsAttestation, ParseHash, Reference;
    var t, later := s[1..], KnownThen(s, known);
    forall j | 0 <= j <= i
      ensures Reaches(s, known, j + 1) <==> Reaches(t, later, j)
    {
      ReachesTail(s, known, j);
    }
    assert forall j :: 0 <= j <= i ==> t[j] == s[j + 1];
    assert forall j :: 0 < j <= i + 1 ==> s[j] == t[j - 1] && (Reaches(s, known, j) <==> Reaches(t, later, j - 1));
  }

  lemma {:induction false} AttestationPassFailsIff(s: seq<Descriptor>, known: set<Hash>, fetch: Hash -> bool)
    ensures AttestationPass(s, known, fetch).Failure? <==> exists i :: 0 <= i < |s| && AttestationBlocks(s, known, fetch, i)
  {
    hide AttestationBlocks, IsAttestation, ParseHash, Reference;
    if s != [] {
      var t, later := s[1..], KnownThen(s, known);
      AttestationBlocksFirst(s, known, fetch);
      if !AttestationBlocks(s, known, fetch, 0) {
        AttestationPassFailsIff(t, later, fetch);
        forall i | 0 <= i < |t|
          ensures AttestationBlocks(s, known, fetch, i + 1) <==> AttestationBlocks(t, later, fetch, i)
        {
          AttestationBlocksTail(s, known, fetch, i);
        }
        assert forall i :: 0 < i < |s| ==> (AttestationBlocks(s, known, fetch, i) <==> AttestationBlocks(t, later, fetch, i - 1));
      }
    }
  }

  /** One turn, failing or not. */
  lemma AttestationBlocksFirst(s: seq<Descriptor>, known: set<Hash>, fetch: Hash -> bool)
    requires s != []
    ensures AttestationBlocks(s, known, fetch, 0) ==> AttestationPass(s, known, fetch).Failure?
    ensures !AttestationBlocks(s, known, fetch, 0) ==>
      (AttestationPass(s, known, fetch).Failure? <==> AttestationPass(s[1..], KnownThen(s, known), fetch).Failure?)
  {
    hide IsAttestation, ParseHash, Reference;
    if s[0].digest in known {
      assert KnownThen(s, known) == known;
    }
  }

  /** Exactly when a merge fails, told from the two lists and from what can be fetched. */
  lemma MergeFailsIff(primary: seq<Descriptor>, secondary: seq<Descriptor>, fetch: Hash -> bool)
    ensures Merge(primary, secondary, fetch).Failure? <==>
      && !Superset(primary, secondary)
      && (|| (exists i :: 0 <= i < |secondary| && ImageBlocks(secondary, Covered(primary), Mapped(primary), fetch, i))
          || (exists i :: 0 <= i < |secondary| && AttestationBlocks(secondary, Known(primary, secondary), fetch, i)))
  {
    hide ImagePass, AttestationPass, ImageBlocks, AttestationBlocks, Covered, Mapped, Known;
    ImagePassFailsIff(secondary, Covered(primary), Mapped(primary), fetch);
    AttestationPassFailsIff(secondary, Known(primary, secondary), fetch);
    if ImagePass(secondary, Covered(primary), Mapped(primary), fetch).Success? {
      KnownAfterImages(primary, secondary, fetch);
    }
  }

  // ----- when it succeeds -----

  lemma {:induction false} ImagePassSucceeds(s: seq<Descriptor>, covered: set<string>, seen: set<Hash>, fetch: Hash -> bool)
    requires forall x :: x in s ==> fetch(x.digest)
    ensures ImagePass(s, covered, seen, fetch).Success?
  {
    if s != [] {
      assert fetch(s[0].digest);
      ImagePassSucceeds(s[1..], covered, seen, fetch);
      ImagePassSucceeds(s[1..], covered, seen + {s[0].digest}, fetch);
    }
  }

  lemma {:induction false} AttestationPassSucceeds(s: seq<Descriptor>, seen: set<Hash>, fetch: Hash -> bool)
    requires forall x :: x in s ==> fetch(x.digest)
    requires forall x :: x in s && IsAttestation(x) ==> ParseHash(Reference(x)).Success?
    ensures AttestationPass(s, seen, fetch).Success?
  {
    if s != [] {
      assert fetch(s[0].digest);
      assert IsAttestation(s[0]) ==> ParseHash(Reference(s[0])).Success?;
      AttestationPassSucceeds(s[1..], seen, fetch);
      AttestationPassSucceeds(s[1..], seen + {s[0].digest}, fetch);
    }
  }

  /** The merge fails only over a manifest that cannot be fetched or a malformed reference. */
  lemma MergeSucceeds(primary: seq<Descriptor>, secondary: seq<Descriptor>, fetch: Hash -> bool)
    requires forall x :: x in secondary ==> fetch(x.digest)
    requires forall x :: x in secondary && IsAttestation(x) ==> ParseHash(Reference(x)).Success?
    ensures Merge(primary, secondary, fetch).Success?
  {
    ImagePassSucceeds(secondary, Covered(primary), Mapped(primary), fetch);
    if !Superset(primary, secondary) {
      var images := ImagePass(secondary, Covered(primary), Mapped(primary), fetch).value;
      AttestationPassSucceeds(secondary, Mapped(primary) + Digests(images), fetch);
    }
  }

  // ----- the code -----

  method IndexSuperset(inner: seq<Descriptor>, outer: seq<Descriptor>) returns (r: bool)
    ensures r <==> |inner| <= |outer| && forall m :: m in inner ==> m.digest in Digests(outer)
  {
    if |inner| > |outer| {
      return false;
    }
    var manifestMap: set<Hash> := {};
    for i := 0 to |outer|
      invariant manifestMap == Digests(outer[..i])
    {
      DigestsAppend(outer[..i], [outer[i]]);
      assert outer[..i + 1] == outer[..i] + [outer[i]];
      manifestMap := manifestMap + {outer[i].digest};
    }
    assert outer[..|outer|] == outer;
    for i := 0 to |inner|
      invariant forall k :: 0 <= k < i ==> inner[k].digest in manifestMap
    {
      if inner[i].digest !in manifestMap {
        return false;
      }
    }
    return true;
  }

  /** The first loop: which digests and platforms the primary has. */
  method CollectPrimary(primary: seq<Descriptor>) returns (manifestMap: set<Hash>, platformMap: set<string>)
    ensures manifestMap == Mapped(primary) && platformMap == Covered(primary)
  {
    manifestMap, platformMap := {}, {};
    for i := 0 to |primary|
      invariant manifestMap == Mapped(primary[..i]) && platformMap == Covered(primary[..i])
    {
      var m := primary[i];
      MappedAppend(primary[..i], [m]);
      assert primary[..i + 1] == primary[..i] + [m];
      if m.platform.None? || m.platform.value.architecture == "" {
        continue;
      }
      manifestMap := manifestMap + {m.digest};
      platformMap := platformMap + {PlatformKey(m)};
    }
    assert primary[..|primary|] == primary;
  }

  /** The second loop: images on platforms that the primary lacks. */
  method AddImages(secondary: seq<Descriptor>, platformMap: set<string>, seen: set<Hash>, fetch: Hash -> bool)
      returns (r: Result<seq<Descriptor>, MergeError>, manifestMap: set<Hash>)
    ensures r == ImagePass(secondary, platformMap, seen, fetch)
    ensures r.Success? ==> manifestMap == seen + Digests(r.value)
  {
    manifestMap := seen;
    var adds: seq<Descriptor> := [];
    PrependNothing(ImagePass(secondary, platformMap, seen, fetch));
    assert secondary[0..] == secondary;
    for i := 0 to |secondary|
      invariant manifestMap == seen + Digests(adds)
      invariant Prepend(adds, ImagePass(secondary[i..], platformMap, manifestMap, fetch))
             == ImagePass(secondary, platformMap, seen, fetch)
    {
      var m := secondary[i];
      assert secondary[i..][1..] == secondary[i + 1..];
      if m.platform.None? || m.platform.value.architecture == ""
         || (m.platform.value.architecture == UNKNOWN && m.platform.value.os == UNKNOWN) {
        continue;
      }
      if PlatformKey(m) in platformMap || m.digest in manifestMap {
        continue;
      }
      if !fetch(m.digest) {
        return Failure(FetchFailed(m.digest)), manifestMap;
      }
      PrependTwice(adds, [m], ImagePass(secondary[i + 1..], platformMap, manifestMap + {m.digest}, fetch));
      DigestsAppend(adds, [m]);
      adds := adds + [m];
      manifestMap := manifestMap + {m.digest};
    }
    assert adds + [] == adds;
    return Success(adds), manifestMap;
  }

  /** The third loop: attestations about something that is now present. */
  method AddAttestations(secondary: seq<Descriptor>, seen: set<Hash>, fetch: Hash -> bool)
      returns (r: Result<seq<Descriptor>, MergeError>)
    ensures r == AttestationPass(secondary, seen, fetch)
  {
    var manifestMap := seen;
    var adds: seq<Descriptor> := [];
    PrependNothing(AttestationPass(secondary, seen, fetch));
    assert secondary[0..] == secondary;
    for i := 0 to |secondary|
      invariant Prepend(adds, AttestationPass(secondary[i..], manifestMap, fetch))
             == AttestationPass(secondary, seen, fetch)
    {
      var m := secondary[i];
      assert secondary[i..][1..] == secondary[i + 1..];
      if m.platform.None? || m.platform.value.architecture != UNKNOWN || m.platform.value.os != UNKNOWN
         || ANNOTATION_REFERENCE_DIGEST !in m.annotations || m.annotations[ANNOTATION_REFERENCE_DIGEST] == "" {
        continue;
      }
      if m.digest in manifestMap {
        continue;
      }
      var hash := m.annotations[ANNOTATION_REFERENCE_DIGEST];
      var dig := ParseHash(hash);
      if dig.Failure? {
        return Failure(BadReference(hash));
      }
      if dig.value !in manifestMap {
        continue;
      }
      if !fetch(m.digest) {
        return Failure(FetchFailed(m.digest));
      }
      PrependTwice(adds, [m], AttestationPass(secondary[i + 1..], manifestMap + {m.digest}, fetch));
      adds := adds + [m];
      manifestMap := manifestMap + {m.digest};
    }
    assert adds + [] == adds;
    return Success(adds);
  }

  method AppendIndex(primary: seq<Descriptor>, secondary: seq<Descriptor>, fetch: Hash -> bool)
      returns (r: Result<seq<Descriptor>, MergeError>)
    ensures r == Merge(primary, secondary, fetch)
  {
    var whole := IndexSuperset(primary, secondary);
    if whole {
      return Success(secondary);
    }
    var manifestMap, platformMap := CollectPrimary(primary);
    var images, present := AddImages(secondary, platformMap, manifestMap, fetch);
    if images.Failure? {
      return images;
    }
    var attestations := AddAttestations(secondary, present, fetch);
    if attestations.Failure? {
      return attestations;
    }
    return Success(primary + images.value + attestations.value);
  }

  lemma PrependNothing(r: Result<seq<Descriptor>, MergeError>)
    ensures Prepend([], r) == r
  {
    if r.Success? {
      assert [] + r.value == r.value;
    }
  }

  lemma PrependTwice(a: seq<Descriptor>, b: seq<Descriptor>, r: Result<seq<Descriptor>, MergeError>)
    ensures Prepend(a, Prepend(b, r)) == Prepend(a + b, r)
  {
    if r.Success? {
      assert a + (b + r.value) == a + b + r.value;
    }
  }
}
