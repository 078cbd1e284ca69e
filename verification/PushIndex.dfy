/**
  What `Push` sends to a registry when it already holds an index of that name:
  the local index merged with the remote one, then rid of attestations about
  manifests that are no longer listed.
 */
module PushIndex {
  import opened Results
  import opened Seqs
  import opened Oci
  import opened IndexMerge

  /** An entry whose digest the clean-up accepts as a subject. */
  predicate IsSubject(m: Descriptor) {
    HasArchitecture(m) && m.platform.value.architecture != UNKNOWN
  }

  function Subjects(s: seq<Descriptor>): set<Hash> {
    set m | m in s && IsSubject(m) :: m.digest
  }

  predicate Dangling(m: Descriptor, subjects: set<Hash>) {
    IsAttestation(m) && !RefersInto(m, subjects)
  }

  /** Digests of the attestations whose subject is not listed. */
  function Gone(s: seq<Descriptor>): set<Hash> {
    set m | m in s && Dangling(m, Subjects(s)) :: m.digest
  }

  predicate Malformed(m: Descriptor) {
    IsAttestation(m) && ParseHash(Reference(m)).Failure?
  }

  /** The first reference that does not parse, in list order. */
  function FirstMalformed(s: seq<Descriptor>): (r: Option<string>)
    ensures r.None? <==> forall m :: m in s ==> !Malformed(m)
  {
    if s == [] then None
    else if Malformed(s[0]) then Some(Reference(s[0]))
    else FirstMalformed(s[1..])
  }

  function RemoveDigests(s: seq<Descriptor>, gone: set<Hash>): seq<Descriptor> {
    Filter(s, (m: Descriptor) => m.digest !in gone)
  }

  /** The clean-up removes every entry that carries the digest of a dangling attestation. */
  function Clean(s: seq<Descriptor>): Result<seq<Descriptor>, MergeError> {
    var bad := FirstMalformed(s);
    if bad.Some? then Failure(BadReference(bad.value)) else Success(RemoveDigests(s, Gone(s)))
  }

  /** No attestation of the list is about something the list does not hold. */
  predicate NoDangling(s: seq<Descriptor>) {
    forall a :: a in s && IsAttestation(a) ==> RefersInto(a, Subjects(s))
  }

  /** No digest is listed both for an image and for an attestation. */
  predicate KindsSeparate(s: seq<Descriptor>) {
    forall x, a :: x in s && a in s && IsImage(x) && IsAttestation(a) ==> x.digest != a.digest
  }

  predicate PlatformsDiffer(a: Descriptor, b: Descriptor) {
    IsImage(a) && IsImage(b) ==> PlatformKey(a) != PlatformKey(b)
  }

  ghost predicate OneImagePerPlatform(s: seq<Descriptor>) {
    Pairwise(s, PlatformsDiffer)
  }

  /** That is: no two images of the list have architecture, OS and variant with the same joined text. */
  lemma OnePerPlatformIsText(s: seq<Descriptor>)
    ensures OneImagePerPlatform(s) <==>
      forall i, j :: 0 <= i < j < |s| && HasImageFields(s[i]) && HasImageFields(s[j]) ==> !SameText(s[i].platform.value, s[j].platform.value)
  {
    forall i, j | 0 <= i < j < |s|
      ensures PlatformsDiffer(s[i], s[j]) <==>
        (HasImageFields(s[i]) && HasImageFields(s[j]) ==> !SameText(s[i].platform.value, s[j].platform.value))
    {
    }
  }

  // ----- the clean-up -----

  /** Exactly the digests of dangling attestations disappear. */
  lemma CleanDigests(s: seq<Descriptor>)
    requires Clean(s).Success?
    ensures Digests(Clean(s).value) == Digests(s) - Gone(s)
    ensures forall m :: m in Clean(s).value <==> m in s && m.digest !in Gone(s)
  {
    hide Gone;
    var out := Clean(s).value;
    forall h | h in Digests(s) - Gone(s)
      ensures h in Digests(out)
    {
      var m :| m in s && m.digest == h;
      assert m in out;
    }
  }

  /** With the kinds separate no image is removed, and nothing dangles in what remains. */
  lemma {:induction false} CleanKeepsImages(s: seq<Descriptor>)
    requires KindsSeparate(s)
    requires Clean(s).Success?
    ensures forall m :: m in s && IsImage(m) ==> m in Clean(s).value
    ensures NoDangling(Clean(s).value)
  {
    hide IsImage, IsAttestation, ParseHash, Reference;
    CleanDigests(s);
    var out := Clean(s).value;
    assert Subjects(out) == Subjects(s) by {
      assert forall m :: m in s && IsSubject(m) ==> m in out by {
        forall m | m in s && IsSubject(m)
          ensures m in out
        {
          SubjectIsImage(m);
        }
      }
    }
  }

  lemma SubjectIsImage(m: Descriptor)
    ensures IsSubject(m) ==> IsImage(m)
  {
  }

  /** Exactly when nothing dangles afterwards: no attestation that stays is about a subject that goes. */
  lemma CleanLeavesNothingDanglingIff(s: seq<Descriptor>)
    requires Clean(s).Success?
    ensures NoDangling(Clean(s).value) <==>
      !exists a :: a in s && IsAttestation(a) && a.digest !in Gone(s) && RefersInto(a, Subjects(s)) && RefersInto(a, Gone(s))
  {
    hide IsAttestation, IsSubject, ParseHash, Reference, Clean;
    CleanDigests(s);
    var out := Clean(s).value;
    assert Subjects(out) == Subjects(s) - Gone(s);
    forall a | a in s && IsAttestation(a) && a.digest !in Gone(s)
      ensures RefersInto(a, Subjects(s))
    {
      assert !Dangling(a, Subjects(s));
    }
  }

  /** When digests are distinct the clean-up drops exactly the dangling attestations. */
  lemma CleanIsExact(s: seq<Descriptor>)
    requires DistinctDigests(s)
    requires Clean(s).Success?
    ensures Clean(s).value == Filter(s, (m: Descriptor) => !Dangling(m, Subjects(s)))
  {
    hide Dangling, Subjects;
    forall m | m in s
      ensures m.digest in Gone(s) <==> Dangling(m, Subjects(s))
    {
      if m.digest in Gone(s) {
        var a :| a in s && Dangling(a, Subjects(s)) && a.digest == m.digest;
        SameDigestSameEntry(s, a, m);
      }
    }
    FilterCongruent(s, (m: Descriptor) => m.digest !in Gone(s), (m: Descriptor) => !Dangling(m, Subjects(s)));
  }

  lemma SameDigestSameEntry(s: seq<Descriptor>, a: Descriptor, b: Descriptor)
    requires DistinctDigests(s) && a in s && b in s && a.digest == b.digest
    ensures a == b
  {
    var i :| 0 <= i < |s| && s[i] == a;
    var j :| 0 <= j < |s| && s[j] == b;
    assert i == j;
  }

  /** Cleaning a clean index changes nothing. */
  lemma CleanIdempotent(s: seq<Descriptor>)
    requires KindsSeparate(s)
    requires Clean(s).Success?
    ensures Clean(Clean(s).value) == Clean(s)
  {
    hide IsImage, IsAttestation, Malformed;
    var out := Clean(s).value;
    CleanDigests(s);
    CleanKeepsImages(s);
    assert Gone(out) == {};
    FilterAll(out, (m: Descriptor) => m.digest !in Gone(out));
  }

  /** Exactly when cleaning again changes nothing: no attestation that stays is about a subject that goes. */
  lemma CleanIdempotentIff(s: seq<Descriptor>)
    requires Clean(s).Success?
    ensures Clean(Clean(s).value) == Clean(s) <==>
      !exists a :: a in s && IsAttestation(a) && a.digest !in Gone(s) && RefersInto(a, Subjects(s)) && RefersInto(a, Gone(s))
  {
    hide IsAttestation, IsSubject, ParseHash, Reference;
    var out := Clean(s).value;
    CleanDigests(s);
    CleanLeavesNothingDanglingIff(s);
    if NoDangling(out) {
      assert Gone(out) == {};
      FilterAll(out, (m: Descriptor) => m.digest !in Gone(out));
    } else {
      var a :| a in out && IsAttestation(a) && !RefersInto(a, Subjects(out));
      assert a.digest in Gone(out);
      assert a !in RemoveDigests(out, Gone(out));
    }
  }

  // ----- the merged index -----

  /** Neither a local image nor a remote image on a platform the local index lacks is lost by the merge. */
  lemma MergeHoldsImages(local: seq<Descriptor>, remote: seq<Descriptor>, fetch: Hash -> bool)
    requires Merge(local, remote, fetch).Success?
    ensures var merged := Merge(local, remote, fetch).value;
      && (forall m :: m in local && IsImage(m) ==> m.digest in Digests(merged))
      && (forall m :: m in remote && NewImage(m, Covered(local)) ==> m.digest in Digests(merged))
      && (forall m :: m in merged ==> m in local + remote)
  {
    hide ImagePass, AttestationPass, IsImage, NewImage, IsAttestation, RefersInto, Covered;
    if !Superset(local, remote) {
      var images, attestations := MergeParts(local, remote, fetch);
      ImagePassAdds(remote, Covered(local), Mapped(local), fetch);
      ImagePassKeeps(remote, Covered(local), Mapped(local), fetch);
      AttestationPassAdds(remote, Mapped(local) + Digests(images), fetch);
      DigestsAppend(local + images, attestations);
      DigestsAppend(local, images);
      assert Mapped(local) <= Digests(local);
    }
  }

  lemma MergeKeepsOnePerPlatform(local: seq<Descriptor>, remote: seq<Descriptor>, fetch: Hash -> bool)
    requires OneImagePerPlatform(local) && OneImagePerPlatform(remote)
    requires Merge(local, remote, fetch).Success?
    ensures OneImagePerPlatform(Merge(local, remote, fetch).value)
  {
    if !Superset(local, remote) {
      var images, attestations := MergePrecedence(local, remote, fetch);
      NewImagesOnePerPlatform(local, remote, images);
      AttestationsAreNotImages(local + images, attestations);
    }
  }

  lemma NewImagesOnePerPlatform(local: seq<Descriptor>, remote: seq<Descriptor>, images: seq<Descriptor>)
    requires OneImagePerPlatform(local) && OneImagePerPlatform(remote) && DistinctDigests(images)
    requires forall m :: m in images ==> m in remote && NewImage(m, Covered(local))
    ensures OneImagePerPlatform(local + images)
  {
    var s := local + images;
    forall i, j | 0 <= i < j < |s| && j >= |local|
      ensures PlatformsDiffer(s[i], s[j])
    {
      var later := images[j - |local|];
      if i < |local| {
        NotCoveredDiffers(local, local[i], later);
      } else {
        var earlier := images[i - |local|];
        assert earlier in images && later in images;
        var a :| 0 <= a < |remote| && remote[a] == earlier;
        var b :| 0 <= b < |remote| && remote[b] == later;
        assert if a < b then PlatformsDiffer(remote[a], remote[b]) else PlatformsDiffer(remote[b], remote[a]);
      }
    }
  }

  lemma NotCoveredDiffers(local: seq<Descriptor>, m: Descriptor, x: Descriptor)
    requires m in local && NewImage(x, Covered(local))
    ensures PlatformsDiffer(m, x)
  {
    if IsImage(m) {
      assert PlatformKey(m) in Covered(local);
    }
  }

  lemma AttestationsAreNotImages(s: seq<Descriptor>, attestations: seq<Descriptor>)
    requires OneImagePerPlatform(s)
    requires forall a :: a in attestations ==> IsAttestation(a)
    ensures OneImagePerPlatform(s + attestations)
  {
    forall k | 0 <= k < |attestations|
      ensures !IsImage(attestations[k])
    {
      assert IsAttestation(attestations[k]);
    }
  }

  // ----- the push -----

  /** What the registry holds under the pushed name: nothing, or something that may be an index. */
  datatype Remote = Absent | Present(digest: Hash, index: Option<seq<Descriptor>>)

  datatype Pushed = Skipped | Wrote(index: seq<Descriptor>)

  /** The index written for `local`, as a function of what the registry held. */
  function PushResult(local: seq<Descriptor>, digest: Hash, remote: Remote, fetch: Hash -> bool): Result<Pushed, MergeError> {
    match remote
    case Absent => Success(Wrote(local))
    case Present(there, index) =>
      if there == digest then Success(Skipped)
      else
        var merged :- if index.Some? then Merge(local, index.value, fetch) else Success(local);
        var cleaned :- Clean(merged);
        Success(Wrote(cleaned))
  }

  /** An image that the merge must hold: local, or remote on a platform that is not local. */
  predicate Wanted(m: Descriptor, local: seq<Descriptor>, remote: seq<Descriptor>) {
    (m in local && IsImage(m)) || (m in remote && NewImage(m, Covered(local)))
  }

  /** The image pass adds entry `i`: its platform is not covered and its digest is neither known nor that of an earlier new image. */
  predicate FirstAt(s: seq<Descriptor>, covered: set<string>, seen: set<Hash>, i: nat)
    requires i < |s|
  {
    NewImage(s[i], covered) && s[i].digest !in seen
    && forall j :: 0 <= j < i && NewImage(s[j], covered) ==> s[j].digest != s[i].digest
  }

  lemma {:induction false} ImagePassExact(s: seq<Descriptor>, covered: set<string>, seen: set<Hash>, fetch: Hash -> bool)
    requires ImagePass(s, covered, seen, fetch).Success?
    ensures forall x :: x in ImagePass(s, covered, seen, fetch).value <==>
      exists i :: 0 <= i < |s| && s[i] == x && FirstAt(s, covered, seen, i)
  {
    hide NewImage;
    if s != [] {
      var adds := ImagePass(s, covered, seen, fetch).value;
      var taken := NewImage(s[0], covered) && s[0].digest !in seen;
      var seen' := if taken then seen + {s[0].digest} else seen;
      var rest := s[1..];
      ImagePassExact(rest, covered, seen', fetch);
      assert FirstAt(s, covered, seen, 0) <==> taken;
      forall i | 0 <= i < |rest|
        ensures FirstAt(s, covered, seen, i + 1) <==> FirstAt(rest, covered, seen', i)
      {
        FirstAtTail(s, covered, seen, i);
      }
      var more := ImagePass(rest, covered, seen', fetch).value;
      assert adds == if taken then [s[0]] + more else more;
      assert forall i :: 0 < i < |s| ==> s[i] == rest[i - 1] && (FirstAt(s, covered, seen, i) <==> FirstAt(rest, covered, seen', i - 1));
    }
  }

  lemma FirstAtTail(s: seq<Descriptor>, covered: set<string>, seen: set<Hash>, i: nat)
    requires i + 1 < |s|
    ensures var seen' := if NewImage(s[0], covered) && s[0].digest !in seen then seen + {s[0].digest} else seen;
      FirstAt(s, covered, seen, i + 1) <==> FirstAt(s[1..], covered, seen', i)
  {
    hide NewImage;
    assert forall j :: 0 <= j < i ==> s[1..][j] == s[j + 1];
    assert forall j :: 0 < j <= i ==> s[j] == s[1..][j - 1];
  }

  /** The digests that attestations of the merge may be about, told from the two lists. */
  function SubjectsAfter(local: seq<Descriptor>, remote: seq<Descriptor>): set<Hash> {
    if Superset(local, remote) then Subjects(remote)
    else Subjects(local)
         + set i | 0 <= i < |remote| && FirstAt(remote, Covered(local), Mapped(local), i) && IsSubject(remote[i]) :: remote[i].digest
  }

  lemma MergedSubjects(local: seq<Descriptor>, remote: seq<Descriptor>, fetch: Hash -> bool)
    requires Merge(local, remote, fetch).Success?
    ensures Subjects(Merge(local, remote, fetch).value) == SubjectsAfter(local, remote)
  {
    hide ImagePass, AttestationPass, FirstAt, Covered, Mapped, IsSubject, IsAttestation;
    if !Superset(local, remote) {
      var images, attestations := MergeParts(local, remote, fetch);
      ImagePassExact(remote, Covered(local), Mapped(local), fetch);
      AttestationPassAdds(remote, Mapped(local) + Digests(images), fetch);
      forall a | a in attestations
        ensures !IsSubject(a)
      {
        NotASubject(a);
      }
      assert forall x :: x in local + images + attestations <==> x in local || x in images || x in attestations;
    }
  }

  lemma NotASubject(a: Descriptor)
    ensures IsAttestation(a) ==> !IsSubject(a)
  {
  }

  /**
    The digest of an attestation that will be found dangling. Only the side that the merge
    starts from can hold one that harms an image: the remote list when it has all digests
    of the local one, and else the local list.
   */
  predicate Doomed(local: seq<Descriptor>, remote: seq<Descriptor>, digest: Hash) {
    exists a :: a in (if Superset(local, remote) then remote else local)
                && a.digest == digest && Dangling(a, SubjectsAfter(local, remote))
  }

  /** What dangles after the merge under the digest of a wanted image was on the side the merge started from. */
  lemma DanglingFromBase(local: seq<Descriptor>, remote: seq<Descriptor>, fetch: Hash -> bool, m: Descriptor, a: Descriptor)
    requires Merge(local, remote, fetch).Success? && Wanted(m, local, remote)
    requires a in Merge(local, remote, fetch).value && a.digest == m.digest && IsAttestation(a)
    ensures a in if Superset(local, remote) then remote else local
  {
    hide ImagePass, AttestationPass, Covered, RefersInto, ParseHash;
    if !Superset(local, remote) {
      var images, attestations := MergeParts(local, remote, fetch);
      ImagePassAdds(remote, Covered(local), Mapped(local), fetch);
      ImagePassKeeps(remote, Covered(local), Mapped(local), fetch);
      AttestationPassAdds(remote, Mapped(local) + Digests(images), fetch);
      assert m.digest in Mapped(local) + Digests(images);
      assert a !in attestations && a !in images;
    }
  }

  /** What the registry's index lists, nothing when it holds no index. */
  function Theirs(remote: Remote): seq<Descriptor> {
    if remote.Present? && remote.index.Some? then remote.index.value else []
  }

  lemma MergeWithNothing(local: seq<Descriptor>, fetch: Hash -> bool)
    ensures Merge(local, [], fetch) == Success(local)
  {
    if local == [] {
      assert Superset(local, []);
    } else {
      assert local + [] + [] == local;
    }
  }

  /** What is pushed over something else is the clean-up of the merge. */
  lemma PushIsCleanMerge(local: seq<Descriptor>, digest: Hash, remote: Remote, fetch: Hash -> bool)
    requires remote.Present? && PushResult(local, digest, remote, fetch).Success?
    requires PushResult(local, digest, remote, fetch).value.Wrote?
    ensures var merged := Merge(local, Theirs(remote), fetch);
      merged.Success? && Clean(merged.value) == Success(PushResult(local, digest, remote, fetch).value.index)
  {
    hide Merge, Clean;
    MergeWithNothing(local, fetch);
  }

  /** Exactly when a wanted image is pushed. */
  lemma PushHoldsImageIff(local: seq<Descriptor>, digest: Hash, remote: Remote, fetch: Hash -> bool, m: Descriptor)
    requires Wanted(m, local, Theirs(remote))
    requires PushResult(local, digest, remote, fetch).Success?
    requires PushResult(local, digest, remote, fetch).value.Wrote?
    ensures m.digest in Digests(PushResult(local, digest, remote, fetch).value.index) <==>
      remote.Absent? || !Doomed(local, Theirs(remote), m.digest)
  {
    hide Merge, Clean, IsImage, NewImage, Covered, Dangling, Subjects, SubjectsAfter, Superset;
    if remote.Present? {
      hide Wanted, PushResult;
      var there := Theirs(remote);
      PushIsCleanMerge(local, digest, remote, fetch);
      var merged := Merge(local, there, fetch).value;
      WantedIsMerged(local, there, fetch, m);
      MergedSubjects(local, there, fetch);
      CleanDigests(merged);
      BaseIsMerged(local, there, fetch);
      forall a | a in merged && a.digest == m.digest && Dangling(a, Subjects(merged))
        ensures a in if Superset(local, there) then there else local
      {
        DanglingIsAttestation(a, Subjects(merged));
        DanglingFromBase(local, there, fetch, m, a);
      }
    }
  }

  lemma DanglingIsAttestation(a: Descriptor, subjects: set<Hash>)
    requires Dangling(a, subjects)
    ensures IsAttestation(a)
  {
  }

  lemma WantedIsMerged(local: seq<Descriptor>, remote: seq<Descriptor>, fetch: Hash -> bool, m: Descriptor)
    requires Merge(local, remote, fetch).Success? && Wanted(m, local, remote)
    ensures m.digest in Digests(Merge(local, remote, fetch).value)
  {
    hide Merge, IsImage, NewImage, Covered;
    MergeHoldsImages(local, remote, fetch);
  }

  lemma BaseIsMerged(local: seq<Descriptor>, remote: seq<Descriptor>, fetch: Hash -> bool)
    requires Merge(local, remote, fetch).Success?
    ensures forall x :: x in (if Superset(local, remote) then remote else local) ==> x in Merge(local, remote, fetch).value
  {
    hide ImagePass, AttestationPass, Covered, Mapped;
    if !Superset(local, remote) {
      var images, attestations := MergeParts(local, remote, fetch);
    }
  }

  // ----- when it writes -----

  /** Nothing is written if and only if the registry has the very index already. */
  lemma PushSkipsIff(local: seq<Descriptor>, digest: Hash, remote: Remote, fetch: Hash -> bool)
    ensures PushResult(local, digest, remote, fetch) == Success(Skipped) <==> remote.Present? && remote.digest == digest
  {
    hide Merge, Clean;
  }

  /** The first push under a name writes the local index as it is. */
  lemma FirstPush(local: seq<Descriptor>, digest: Hash, fetch: Hash -> bool)
    ensures PushResult(local, digest, Absent, fetch) == Success(Wrote(local))
  {
  }

  /** A push over something else writes an index when every remote manifest can be fetched and all references parse. */
  lemma PushSucceeds(local: seq<Descriptor>, digest: Hash, remote: Remote, fetch: Hash -> bool)
    requires remote.Present? && remote.digest != digest
    requires forall x :: x in Theirs(remote) ==> fetch(x.digest)
    requires forall x :: x in local + Theirs(remote) && IsAttestation(x) ==> ParseHash(Reference(x)).Success?
    ensures PushResult(local, digest, remote, fetch).Success? && PushResult(local, digest, remote, fetch).value.Wrote?
  {
    hide Merge, IsAttestation, ParseHash, Reference, RemoveDigests, Gone;
    var there := Theirs(remote);
    MergeSucceeds(local, there, fetch);
    MergeWithNothing(local, fetch);
    MergeHoldsImages(local, there, fetch);
    var merged := Merge(local, there, fetch).value;
    forall m | m in merged
      ensures !Malformed(m)
    {
      assert m in local + there;
    }
  }

  // ----- the clean-up in the fields of the descriptors -----

  /** An unknown/unknown entry whose annotation is the text of `h`. */
  predicate IsAbout(a: Descriptor, h: Hash) {
    a.platform.Some? && a.platform.value.architecture == "unknown" && a.platform.value.os == "unknown"
    && "vnd.docker.reference.digest" in a.annotations && a.annotations["vnd.docker.reference.digest"] == h.ToString()
  }

  /** An entry with an architecture that is not unknown. */
  predicate HasKnownArchitecture(m: Descriptor) {
    m.platform.Some? && m.platform.value.architecture != "" && m.platform.value.architecture != "unknown"
  }

  lemma AboutRefers(a: Descriptor, h: Hash)
    requires IsAbout(a, h) && WellFormed(h)
    ensures IsAttestation(a) && ParseHash(Reference(a)) == Success(h)
  {
    ParseInvertsToString(h);
    NotEmpty(h);
  }

  /** With distinct digests an attestation stays exactly when an entry with a known architecture has the digest it is about. */
  lemma CleanKeepsAttestationIff(s: seq<Descriptor>, a: Descriptor, h: Hash)
    requires Clean(s).Success? && DistinctDigests(s) && a in s && IsAbout(a, h) && WellFormed(h)
    ensures a in Clean(s).value <==> exists x :: x in s && HasKnownArchitecture(x) && x.digest == h
  {
    hide Clean, IsAbout, WellFormed, ParseHash, IsAttestation;
    CleanIsExact(s);
    AboutRefers(a, h);
    assert forall x :: IsSubject(x) <==> HasKnownArchitecture(x);
    assert h in Subjects(s) <==> exists x :: x in s && HasKnownArchitecture(x) && x.digest == h;
  }

  /** Everything that is not an attestation stays then. */
  lemma CleanKeepsOthers(s: seq<Descriptor>, m: Descriptor)
    requires Clean(s).Success? && DistinctDigests(s) && m in s
    requires m.platform.None? || m.platform.value.architecture != "unknown" || m.platform.value.os != "unknown"
      || "vnd.docker.reference.digest" !in m.annotations || m.annotations["vnd.docker.reference.digest"] == ""
    ensures m in Clean(s).value
  {
    hide Clean;
    CleanIsExact(s);
    assert !IsAttestation(m);
  }

  /** An unknown/unknown entry with an annotation that is not the text of a sha256 hash. */
  predicate HasBadReference(m: Descriptor) {
    m.platform.Some? && m.platform.value.architecture == "unknown" && m.platform.value.os == "unknown"
    && "vnd.docker.reference.digest" in m.annotations && m.annotations["vnd.docker.reference.digest"] != ""
    && !IsHashText(m.annotations["vnd.docker.reference.digest"])
  }

  predicate IsHashText(s: string) {
    |s| == 71 && s[..7] == "sha256:" && forall c :: c in s[7..] ==> '0' <= c <= '9' || 'a' <= c <= 'f'
  }

  lemma HashTextParses(s: string)
    ensures ParseHash(s).Success? <==> IsHashText(s)
  {
  }

  /** The clean-up fails exactly when a reference of the list is not the text of a hash. */
  lemma CleanFailsIff(s: seq<Descriptor>)
    ensures Clean(s).Failure? <==> exists m :: m in s && HasBadReference(m)
  {
    hide FirstMalformed, ParseHash, IsHashText;
    forall m | m in s
      ensures Malformed(m) <==> HasBadReference(m)
    {
      HashTextParses(Reference(m));
    }
    MalformedIsFound(s);
  }

  lemma MalformedIsFound(s: seq<Descriptor>)
    ensures FirstMalformed(s).None? <==> forall m :: m in s ==> !Malformed(m)
  {
  }

  // ----- what dangles after a push -----

  /** An attestation that the merge holds, told from the two lists. */
  predicate HeldAttestation(a: Descriptor, local: seq<Descriptor>, remote: seq<Descriptor>) {
    IsAttestation(a)
    && if Superset(local, remote) then a in remote
       else a in local || exists i :: 0 <= i < |remote| && remote[i] == a && TakenAt(remote, Known(local, remote), i)
  }

  /** An attestation that stays although the image it is about goes. */
  predicate Orphaned(a: Descriptor, local: seq<Descriptor>, remote: seq<Descriptor>) {
    HeldAttestation(a, local, remote) && !Doomed(local, remote, a.digest)
    && RefersInto(a, SubjectsAfter(local, remote))
    && Doomed(local, remote, ParseHash(Reference(a)).value)
  }

  lemma HeldIsMerged(local: seq<Descriptor>, remote: seq<Descriptor>, fetch: Hash -> bool, a: Descriptor)
    requires Merge(local, remote, fetch).Success?
    ensures HeldAttestation(a, local, remote) <==> a in Merge(local, remote, fetch).value && IsAttestation(a)
  {
    hide ImagePass, AttestationPass, Covered, RefersInto, ParseHash, TakenAt, Known;
    if !Superset(local, remote) {
      var images, attestations := MergeParts(local, remote, fetch);
      ImagePassAdds(remote, Covered(local), Mapped(local), fetch);
      KnownAfterImages(local, remote, fetch);
      AttestationPassExact(remote, Known(local, remote), fetch);
      AttestationPassAdds(remote, Known(local, remote), fetch);
      assert a in images ==> !IsAttestation(a);
    }
  }

  /** A subject of the merge goes exactly when its digest is doomed. */
  lemma SubjectGoneIff(local: seq<Descriptor>, remote: seq<Descriptor>, fetch: Hash -> bool, h: Hash)
    requires Merge(local, remote, fetch).Success? && h in SubjectsAfter(local, remote)
    ensures h in Gone(Merge(local, remote, fetch).value) <==> Doomed(local, remote, h)
  {
    hide Merge, Subjects, SubjectsAfter, Superset, Dangling, Wanted;
    var merged := Merge(local, remote, fetch).value;
    MergedSubjects(local, remote, fetch);
    BaseIsMerged(local, remote, fetch);
    SubjectIsWanted(local, remote, fetch, h);
    if h in Gone(merged) && !Superset(local, remote) {
      var a :| a in merged && Dangling(a, Subjects(merged)) && a.digest == h;
      var m :| Wanted(m, local, remote) && m.digest == h;
      DanglingIsAttestation(a, Subjects(merged));
      DanglingFromBase(local, remote, fetch, m, a);
    }
    if Superset(local, remote) {
      SupersetMerge(local, remote, fetch);
    }
  }

  lemma SupersetMerge(local: seq<Descriptor>, remote: seq<Descriptor>, fetch: Hash -> bool)
    requires Superset(local, remote)
    ensures Merge(local, remote, fetch) == Success(remote)
  {
  }

  lemma SubjectIsWanted(local: seq<Descriptor>, remote: seq<Descriptor>, fetch: Hash -> bool, h: Hash)
    requires Merge(local, remote, fetch).Success? && h in SubjectsAfter(local, remote)
    ensures Superset(local, remote) || exists m :: Wanted(m, local, remote) && m.digest == h
  {
    hide Superset, Covered, Mapped, NewImage;
    if !Superset(local, remote) {
      if m :| m in local && IsSubject(m) && m.digest == h {
        SubjectIsImage(m);
        assert Wanted(m, local, remote);
      } else {
        var i :| 0 <= i < |remote| && FirstAt(remote, Covered(local), Mapped(local), i) && remote[i].digest == h;
        assert Wanted(remote[i], local, remote);
      }
    }
  }

  /** An attestation of the merge about one of its subjects goes exactly when its digest is doomed. */
  lemma AttestationGoneIff(local: seq<Descriptor>, remote: seq<Descriptor>, fetch: Hash -> bool, a: Descriptor)
    requires Merge(local, remote, fetch).Success? && a in Merge(local, remote, fetch).value
    requires IsAttestation(a) && RefersInto(a, SubjectsAfter(local, remote))
    ensures a.digest in Gone(Merge(local, remote, fetch).value) <==> Doomed(local, remote, a.digest)
  {
    hide Merge, Subjects, SubjectsAfter, Superset, RefersInto, ParseHash;
    var merged := Merge(local, remote, fetch).value;
    MergedSubjects(local, remote, fetch);
    BaseIsMerged(local, remote, fetch);
    if d :| d in merged && Dangling(d, Subjects(merged)) && d.digest == a.digest {
      SameDigestFromBase(local, remote, fetch, a, d);
    }
  }

  /** Two attestations of the merge under one digest were both on the side the merge started from. */
  lemma SameDigestFromBase(local: seq<Descriptor>, remote: seq<Descriptor>, fetch: Hash -> bool, a: Descriptor, d: Descriptor)
    requires Merge(local, remote, fetch).Success? && a in Merge(local, remote, fetch).value && d in Merge(local, remote, fetch).value
    requires IsAttestation(a) && IsAttestation(d) && a.digest == d.digest && a != d
    ensures d in if Superset(local, remote) then remote else local
  {
    hide ImagePass, AttestationPass, Covered, RefersInto, ParseHash;
    if !Superset(local, remote) {
      var images, attestations := MergeParts(local, remote, fetch);
      ImagePassAdds(remote, Covered(local), Mapped(local), fetch);
      AttestationPassAdds(remote, Mapped(local) + Digests(images), fetch);
      assert a !in images && d !in images;
      if d in attestations {
        assert a !in local;
        assert a in attestations;
        SameDigestSameEntry(attestations, a, d);
      }
    }
  }

  /** Exactly when nothing dangles in the pushed index. */
  lemma PushLeavesNothingDanglingIff(local: seq<Descriptor>, digest: Hash, remote: Remote, fetch: Hash -> bool)
    requires PushResult(local, digest, remote, fetch).Success?
    requires PushResult(local, digest, remote, fetch).value.Wrote?
    ensures NoDangling(PushResult(local, digest, remote, fetch).value.index) <==>
      if remote.Absent? then NoDangling(local) else !exists a :: Orphaned(a, local, Theirs(remote))
  {
    if remote.Present? {
      hide Merge, Clean, NoDangling, PushResult, HeldAttestation, Subjects, SubjectsAfter, Gone, Doomed, IsAttestation, ParseHash, Reference;
      var there := Theirs(remote);
      PushIsCleanMerge(local, digest, remote, fetch);
      var merged := Merge(local, there, fetch).value;
      CleanLeavesNothingDanglingIff(merged);
      MergedSubjects(local, there, fetch);
      forall a
        ensures Orphaned(a, local, there) <==>
          a in merged && IsAttestation(a) && a.digest !in Gone(merged) && RefersInto(a, Subjects(merged)) && RefersInto(a, Gone(merged))
      {
        HeldIsMerged(local, there, fetch, a);
        if a in merged && IsAttestation(a) && RefersInto(a, Subjects(merged)) {
          AttestationGoneIff(local, there, fetch, a);
          SubjectGoneIff(local, there, fetch, ParseHash(Reference(a)).value);
        }
      }
    }
  }

  /** With distinct digests on both sides and an architecture on every local entry nothing dangles. */
  lemma PushLeavesNothingDangling(local: seq<Descriptor>, digest: Hash, remote: Remote, fetch: Hash -> bool)
    requires remote.Present? && DistinctDigests(local) && DistinctDigests(Theirs(remote))
    requires forall m :: m in local ==> HasArchitecture(m)
    requires PushResult(local, digest, remote, fetch).Success?
    requires PushResult(local, digest, remote, fetch).value.Wrote?
    ensures NoDangling(PushResult(local, digest, remote, fetch).value.index)
  {
    hide Merge, Clean, PushResult, NoDangling, HasArchitecture, DistinctDigests;
    PushIsCleanMerge(local, digest, remote, fetch);
    MergeKeepsDigestsDistinct(local, Theirs(remote), fetch);
    var merged := Merge(local, Theirs(remote), fetch).value;
    DistinctSeparates(merged);
    CleanKeepsImages(merged);
  }

  lemma MergeKeepsDigestsDistinct(local: seq<Descriptor>, remote: seq<Descriptor>, fetch: Hash -> bool)
    requires DistinctDigests(local) && DistinctDigests(remote) && (forall m :: m in local ==> HasArchitecture(m))
    requires Merge(local, remote, fetch).Success?
    ensures DistinctDigests(Merge(local, remote, fetch).value)
  {
    hide ImagePass, AttestationPass, Covered, HasArchitecture, NewImage, IsAttestation, RefersInto;
    if !Superset(local, remote) {
      var images, attestations := MergeParts(local, remote, fetch);
      ImagePassAdds(remote, Covered(local), Mapped(local), fetch);
      AttestationPassAdds(remote, Mapped(local) + Digests(images), fetch);
      assert Mapped(local) == Digests(local);
      DistinctAppend(local, images);
      DigestsAppend(local, images);
      DistinctAppend(local + images, attestations);
    }
  }

  lemma DistinctAppend(a: seq<Descriptor>, b: seq<Descriptor>)
    requires DistinctDigests(a) && DistinctDigests(b)
    requires forall x :: x in b ==> x.digest !in Digests(a)
    ensures DistinctDigests(a + b)
  {
    forall i, j | 0 <= i < |a| && 0 <= j < |b|
      ensures a[i].digest != b[j].digest
    {
      assert b[j] in b && a[i] in a;
    }
  }

  lemma DistinctSeparates(s: seq<Descriptor>)
    requires DistinctDigests(s)
    ensures KindsSeparate(s)
  {
    forall x, a | x in s && a in s && IsImage(x) && IsAttestation(a)
      ensures x.digest != a.digest
    {
      if x.digest == a.digest {
        SameDigestSameEntry(s, x, a);
      }
    }
  }

  /** Without such conditions it can: an image and a dangling attestation share a digest, and what is about the image stays. */
  lemma PushCanLeaveDangling(d: Hash, e: Hash, f: Hash, fetch: Hash -> bool)
    requires WellFormed(d) && WellFormed(e) && d != e && d != f && e != f
    ensures var local := [ImageOf(d), AttestationOf(d, e), AttestationOf(f, d)];
      && PushResult(local, e, Present(d, Some([])), fetch) == Success(Wrote([AttestationOf(f, d)]))
      && !NoDangling([AttestationOf(f, d)])
  {
    hide ImageOf, AttestationOf, WellFormed, Merge;
    var x, a, b := ImageOf(d), AttestationOf(d, e), AttestationOf(f, d);
    var local := [x, a, b];
    AttestationOfIs(d, e);
    AttestationOfIs(f, d);
    MergeWithNothing(local, fetch);
    assert Subjects(local) == {d};
    assert Gone(local) == {d};
    RemoveTwo(x, a, b, d);
    assert FirstMalformed(local).None?;
    assert Subjects([b]) == {};
    assert b in [b];
  }

  lemma RemoveTwo(x: Descriptor, a: Descriptor, b: Descriptor, d: Hash)
    requires x.digest == d && a.digest == d && b.digest != d
    ensures RemoveDigests([x, a, b], {d}) == [b]
  {
    RemoveDigestsCons(x, [a, b], {d});
    RemoveDigestsCons(a, [b], {d});
    RemoveDigestsCons(b, [], {d});
    assert [x] + [a, b] == [x, a, b] && [a] + [b] == [a, b] && [b] + [] == [b];
  }

  lemma RemoveDigestsCons(m: Descriptor, rest: seq<Descriptor>, gone: set<Hash>)
    ensures RemoveDigests([m] + rest, gone) == (if m.digest in gone then [] else [m]) + RemoveDigests(rest, gone)
    ensures RemoveDigests([], gone) == []
  {
    assert ([m] + rest)[1..] == rest;
  }

  /**
    The whole pipeline loses no architecture: when no digest is listed both for an image
    and for an attestation, every local image and every remote image whose platform is
    not local is in the pushed index, and every attestation there is about an entry of it.
   */
  lemma PushLosesNothing(local: seq<Descriptor>, digest: Hash, remote: Remote, fetch: Hash -> bool)
    requires remote.Present? && KindsSeparate(local + Theirs(remote))
    requires PushResult(local, digest, remote, fetch).Success?
    requires PushResult(local, digest, remote, fetch).value.Wrote?
    ensures var out := PushResult(local, digest, remote, fetch).value.index;
      && (forall m :: Wanted(m, local, Theirs(remote)) ==> m.digest in Digests(out))
      && NoDangling(out)
  {
    hide Merge, Clean, IsAttestation, IsImage, Covered, NoDangling, RefersInto, PushResult, Doomed, Wanted;
    var there := Theirs(remote);
    PushIsCleanMerge(local, digest, remote, fetch);
    var merged := Merge(local, there, fetch).value;
    MergeHoldsImages(local, there, fetch);
    CleanKeepsImages(merged);
    forall m | Wanted(m, local, there)
      ensures m.digest in Digests(PushResult(local, digest, remote, fetch).value.index)
    {
      PushHoldsImageIff(local, digest, remote, fetch, m);
      WantedNotDoomed(local, there, m);
    }
  }

  lemma WantedNotDoomed(local: seq<Descriptor>, remote: seq<Descriptor>, m: Descriptor)
    requires KindsSeparate(local + remote) && Wanted(m, local, remote)
    ensures !Doomed(local, remote, m.digest)
  {
    hide IsImage, IsAttestation, Covered, SubjectsAfter, RefersInto;
    assert m in local + remote && IsImage(m);
  }

  /** Without that condition an image can be lost: here the local image's digest names a dangling remote attestation. */
  lemma PushCanLoseAnImage(fetch: Hash -> bool)
    ensures var zeros := Hash("sha256", seq(SHA256_DIGITS, _ => '0'));
      var ones := Hash("sha256", seq(SHA256_DIGITS, _ => '1'));
      var image := Descriptor(OCI_MANIFEST, 1, zeros, Some(Platform("amd64", "linux", "", "")), map[]);
      var other := Descriptor(OCI_MANIFEST, 1, zeros, Some(Platform(UNKNOWN, UNKNOWN, "", "")),
                              map[ANNOTATION_REFERENCE_DIGEST := ones.ToString()]);
      Wanted(image, [image], [other])
      && PushResult([image], ones, Present(zeros, Some([other])), fetch) == Success(Wrote([]))
  {
    var zeros := Hash("sha256", seq(SHA256_DIGITS, _ => '0'));
    var ones := Hash("sha256", seq(SHA256_DIGITS, _ => '1'));
    assert zeros.hex[0] != ones.hex[0];
    var image := Descriptor(OCI_MANIFEST, 1, zeros, Some(Platform("amd64", "linux", "", "")), map[]);
    var other := Descriptor(OCI_MANIFEST, 1, zeros, Some(Platform(UNKNOWN, UNKNOWN, "", "")),
                            map[ANNOTATION_REFERENCE_DIGEST := ones.ToString()]);
    assert other.digest in Digests([other]);
    ParseInvertsToString(ones);
    assert Subjects([other]) == {};
    assert Dangling(other, Subjects([other]));
    assert other.digest in Gone([other]);
    assert RemoveDigests([other], Gone([other])) == [];
  }

  /** Pushing keeps at most one image per platform. */
  lemma PushKeepsOnePerPlatform(local: seq<Descriptor>, digest: Hash, remote: Remote, fetch: Hash -> bool)
    requires OneImagePerPlatform(local)
    requires remote.Present? && remote.index.Some? ==> OneImagePerPlatform(remote.index.value)
    requires PushResult(local, digest, remote, fetch).Success?
    requires PushResult(local, digest, remote, fetch).value.Wrote?
    ensures OneImagePerPlatform(PushResult(local, digest, remote, fetch).value.index)
  {
    hide Merge, PlatformsDiffer;
    if remote.Present? {
      if remote.index.Some? {
        MergeKeepsOnePerPlatform(local, remote.index.value, fetch);
      }
      var merged := if remote.index.Some? then Merge(local, remote.index.value, fetch).value else local;
      FilterPairwise(merged, (m: Descriptor) => m.digest !in Gone(merged), PlatformsDiffer);
    }
  }

  // ----- the code -----

  /** The first loop of the clean-up. */
  method RecordSubjects(s: seq<Descriptor>) returns (digests: set<Hash>)
    ensures digests == Subjects(s)
  {
    digests := {};
    for i := 0 to |s|
      invariant digests == Subjects(s[..i])
    {
      var m := s[i];
      SubjectsAppend(s[..i], m);
      assert s[..i + 1] == s[..i] + [m];
      if m.platform.None? || m.platform.value.architecture == "" || m.platform.value.architecture == UNKNOWN {
        continue;
      }
      digests := digests + {m.digest};
    }
    assert s[..|s|] == s;
  }

  /** The second loop of the clean-up. */
  method FindDangling(s: seq<Descriptor>, digests: set<Hash>) returns (r: Result<seq<Hash>, MergeError>)
    ensures r.Failure? ==> FirstMalformed(s).Some? && r.error == BadReference(FirstMalformed(s).value)
    ensures r.Success? ==> FirstMalformed(s).None?
    ensures r.Success? ==> forall h :: h in r.value <==> exists m :: m in s && m.digest == h && Dangling(m, digests)
  {
    var toRemove: seq<Hash> := [];
    for i := 0 to |s|
      invariant FirstMalformed(s) == FirstMalformed(s[i..])
      invariant forall k :: 0 <= k < i && Dangling(s[k], digests) ==> s[k].digest in toRemove
      invariant forall h :: h in toRemove ==> exists m :: m in s && m.digest == h && Dangling(m, digests)
    {
      var m := s[i];
      assert s[i..][1..] == s[i + 1..];
      if m.platform.None? || m.platform.value.architecture != UNKNOWN || m.platform.value.os != UNKNOWN {
        continue;
      }
      if ANNOTATION_REFERENCE_DIGEST !in m.annotations || m.annotations[ANNOTATION_REFERENCE_DIGEST] == "" {
        continue;
      }
      var referenced := m.annotations[ANNOTATION_REFERENCE_DIGEST];
      var digest := ParseHash(referenced);
      if digest.Failure? {
        return Failure(BadReference(referenced));
      }
      if digest.value !in digests {
        toRemove := toRemove + [m.digest];
      }
    }
    return Success(toRemove);
  }

  method CleanDanglingReferences(s: seq<Descriptor>) returns (r: Result<seq<Descriptor>, MergeError>)
    ensures r == Clean(s)
  {
    var digests := RecordSubjects(s);
    var toRemove := FindDangling(s, digests);
    if toRemove.Failure? {
      return Failure(toRemove.error);
    }
    assert forall h :: h in toRemove.value <==> h in Gone(s);
    FilterCongruent(s, (m: Descriptor) => m.digest !in toRemove.value, (m: Descriptor) => m.digest !in Gone(s));
    return Success(Filter(s, (m: Descriptor) => m.digest !in toRemove.value));
  }

  lemma SubjectsAppend(s: seq<Descriptor>, m: Descriptor)
    ensures Subjects(s + [m]) == Subjects(s) + (if IsSubject(m) then {m.digest} else {})
  {
    assert forall x :: x in s + [m] <==> x in s || x == m;
  }

  /** The part of `Push` that decides what to write for an index. */
  method Push(local: seq<Descriptor>, digest: Hash, remote: Remote, fetch: Hash -> bool)
      returns (r: Result<Pushed, MergeError>)
    ensures r == PushResult(local, digest, remote, fetch)
  {
    var ii := local;
    if remote.Present? {
      if digest == remote.digest {
        return Success(Skipped);
      }
      if remote.index.Some? {
        var merged := AppendIndex(ii, remote.index.value, fetch);
        if merged.Failure? {
          return Failure(merged.error);
        }
        ii := merged.value;
      }
      var cleaned := CleanDanglingReferences(ii);
      if cleaned.Failure? {
        return Failure(cleaned.error);
      }
      ii := cleaned.value;
    }
    return Success(Wrote(ii));
  }
}
