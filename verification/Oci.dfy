/**
  Descriptors of the OCI Image Format Specification as the cache and the merge
  code read them: a content hash, an optional platform and annotations, one of
  which may name the manifest an attestation is about.
 */
module Oci {
  import opened Results

  /** A content hash: algorithm and hexadecimal body. */
  datatype Hash = Hash(algorithm: string, hex: string) {
    /** The form in which a hash is written into annotations. */
    function ToString(): string {
      algorithm + ":" + hex
    }
  }

  const SHA256_PREFIX := "sha256:"
  const SHA256_DIGITS := 64

  predicate LowerHex(s: string) {
    forall c :: c in s ==> '0' <= c <= '9' || 'a' <= c <= 'f'
  }

  /** A hash that the parser can produce: sha256 is the only registered algorithm. */
  predicate WellFormed(h: Hash) {
    h.algorithm == "sha256" && |h.hex| == SHA256_DIGITS && LowerHex(h.hex)
  }

  /** `v1.NewHash`: accepts "sha256:" followed by 64 lower-case hexadecimal digits. */
  function ParseHash(s: string): (r: Result<Hash, string>)
    ensures r.Success? ==> WellFormed(r.value) && r.value.ToString() == s
  {
    if |s| == |SHA256_PREFIX| + SHA256_DIGITS && SHA256_PREFIX <= s && LowerHex(s[|SHA256_PREFIX|..]) then
      assert s == SHA256_PREFIX + s[|SHA256_PREFIX|..];
      Success(Hash("sha256", s[|SHA256_PREFIX|..]))
    else
      Failure(s)
  }

  /** Writing a hash out and parsing it back is the identity. */
  lemma ParseInvertsToString(h: Hash)
    requires WellFormed(h)
    ensures ParseHash(h.ToString()) == Success(h)
  {
    var s := h.ToString();
    assert s == SHA256_PREFIX + h.hex;
    assert s[|SHA256_PREFIX|..] == h.hex;
  }

  datatype Platform = Platform(architecture: string, os: string, variant: string, osVersion: string)

  /** A descriptor; a nil annotation map and an empty one behave alike throughout. */
  datatype Descriptor = Descriptor(
    mediaType: string,
    size: int,
    digest: Hash,
    platform: Option<Platform>,
    annotations: map<string, string>)

  const UNKNOWN := "unknown"
  const ANNOTATION_REFERENCE_DIGEST := "vnd.docker.reference.digest"
  const ANNOTATION_REF_NAME := "org.opencontainers.image.ref.name"
  const ANNOTATION_IMAGE_NAME := "io.containerd.image.name"

  const OCI_IMAGE_INDEX := "application/vnd.oci.image.index.v1+json"
  const DOCKER_MANIFEST_LIST := "application/vnd.docker.distribution.manifest.list.v2+json"
  const OCI_MANIFEST := "application/vnd.oci.image.manifest.v1+json"
  const DOCKER_MANIFEST := "application/vnd.docker.distribution.manifest.v2+json"

  predicate IsImageType(mediaType: string) {
    mediaType == OCI_MANIFEST || mediaType == DOCKER_MANIFEST
  }

  predicate IsIndexType(mediaType: string) {
    mediaType == OCI_IMAGE_INDEX || mediaType == DOCKER_MANIFEST_LIST
  }

  predicate HasArchitecture(m: Descriptor) {
    m.platform.Some? && m.platform.value.architecture != ""
  }

  /** Platform unknown/unknown: how attestations are listed. */
  predicate IsUnknown(m: Descriptor) {
    m.platform.Some? && m.platform.value.architecture == UNKNOWN && m.platform.value.os == UNKNOWN
  }

  /** The text naming the manifest this one is about, empty when there is none. */
  function Reference(m: Descriptor): string {
    if ANNOTATION_REFERENCE_DIGEST in m.annotations then m.annotations[ANNOTATION_REFERENCE_DIGEST] else ""
  }

  /** An unknown/unknown entry that refers to another manifest. */
  predicate IsAttestation(m: Descriptor) {
    IsUnknown(m) && Reference(m) != ""
  }

  function Digests(s: seq<Descriptor>): set<Hash> {
    set m | m in s :: m.digest
  }

  /** No two entries of the list carry the same digest. */
  predicate DistinctDigests(s: seq<Descriptor>) {
    forall i, j :: 0 <= i < j < |s| ==> s[i].digest != s[j].digest
  }

  // ----- two kinds of entry, for examples -----

  function ImageOf(digest: Hash): (m: Descriptor)
    ensures m.digest == digest && HasArchitecture(m) && !IsUnknown(m) && m.platform.value.architecture != UNKNOWN
    ensures m.annotations == map[]
  {
    Descriptor(OCI_MANIFEST, 1, digest, Some(Platform("amd64", "linux", "", "")), map[])
  }

  /** An attestation with digest `digest` about `subject`. */
  function AttestationOf(digest: Hash, subject: Hash): (m: Descriptor)
    ensures m.digest == digest && HasArchitecture(m) && IsUnknown(m)
    ensures m.annotations == map[ANNOTATION_REFERENCE_DIGEST := subject.ToString()]
  {
    Descriptor(OCI_MANIFEST, 1, digest, Some(Platform(UNKNOWN, UNKNOWN, "", "")),
               map[ANNOTATION_REFERENCE_DIGEST := subject.ToString()])
  }
}
