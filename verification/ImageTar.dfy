/**
  Moving an image between caches as an OCI tar stream: `OCITarReader` writes an
  index and the images it lists, `ImageLoad` reads such a stream into the cache.
  Printing and parsing the JSON of an index are parameters.
 */
module ImageTar {
  import opened Results
  import opened Text
  import opened Oci
  import opened RootIndex

  type Bytes = seq<bv8>

  /** Content with the digest and the size that something else states for it. */
  datatype Blob = Blob(digest: Hash, size: int, bytes: Bytes)

  datatype ImageContent = ImageContent(config: Blob, layers: seq<Blob>, manifest: Blob)

  /** An index: its own bytes, what it lists, and the images that can be opened. */
  datatype IndexContent = IndexContent(raw: Blob, manifests: seq<Descriptor>, images: map<Hash, ImageContent>)

  datatype Entry = Entry(name: string, isDir: bool, bytes: Bytes)

  datatype TarError = NoSuchImage(digest: Hash) | WrongSize(digest: Hash) | BadName(name: string) | BadIndex | NoRefName

  type Parser = Bytes -> Option<seq<Descriptor>>

  type Printer = seq<Descriptor> -> Bytes

  /** What was printed is read back, and is never empty. */
  ghost predicate Inverse(parse: Parser, json: Printer) {
    forall descs :: json(descs) != [] && parse(json(descs)) == Some(descs)
  }

  const BLOB_PREFIX := "blobs/sha256/"

  // ----- writing -----

  const LAYOUT_FILE: Bytes := []  // its text plays no part

  const HEADER: seq<Entry> :=
    [Entry("oci-layout", false, LAYOUT_FILE), Entry("blobs/", true, []), Entry(BLOB_PREFIX, true, [])]

  function BlobEntry(b: Blob): Entry {
    Entry(BLOB_PREFIX + b.digest.hex, false, b.bytes)
  }

  function BlobEntries(blobs: seq<Blob>): seq<Entry> {
    if blobs == [] then [] else [BlobEntry(blobs[0])] + BlobEntries(blobs[1..])
  }

  /** What an image consists of, in the order written. */
  function ImageBlobs(image: ImageContent): seq<Blob> {
    [image.config] + image.layers + [image.manifest]
  }

  /** The blobs of every listed image; entries that are not image manifests are passed over. */
  function ListedBlobs(manifests: seq<Descriptor>, images: map<Hash, ImageContent>): Result<seq<Blob>, TarError> {
    if manifests == [] then Success([])
    else if !IsImageType(manifests[0].mediaType) then ListedBlobs(manifests[1..], images)
    else if manifests[0].digest !in images then Failure(NoSuchImage(manifests[0].digest))
    else
      var rest :- ListedBlobs(manifests[1..], images);
      Success(ImageBlobs(images[manifests[0].digest]) + rest)
  }

  /** Everything reachable from the index through image manifests, itself last. */
  function Reachable(index: IndexContent): Result<seq<Blob>, TarError> {
    var listed :- ListedBlobs(index.manifests, index.images);
    Success(listed + [index.raw])
  }

  function RootDescriptor(index: IndexContent, refName: string): Descriptor {
    Descriptor(OCI_IMAGE_INDEX, index.raw.size, index.raw.digest, None, map[ANNOTATION_REF_NAME := refName])
  }

  /** The tar writer refuses a body that is not as long as its header said. */
  predicate SizesRight(blobs: seq<Blob>) {
    forall b :: b in blobs ==> b.size == |b.bytes|
  }

  function Stream(index: IndexContent, blobs: seq<Blob>, refName: string, json: Printer): seq<Entry> {
    HEADER + BlobEntries(blobs) + [Entry("index.json", false, json([RootDescriptor(index, refName)]))]
  }

  // ----- reading -----

  type Store = map<Hash, Bytes>

  /** `WriteBlob`: what is there already stays. */
  function WriteBlob(store: Store, h: Hash, bytes: Bytes): Store {
    if h in store then store else store[h := bytes]
  }

  /** The store so far, and the bytes of index.json. */
  datatype Loading = Loading(store: Store, index: Bytes)

  /** What one tar entry does. */
  function LoadEntry(st: Loading, e: Entry): Result<Loading, TarError> {
    if e.name == "manifest.json" || e.name == "oci-layout" || e.isDir then Success(st)
    else if e.name == "index.json" then Success(st.(index := st.index + e.bytes))
    else if BLOB_PREFIX <= e.name then
      var parts := Split(e.name, '/');
      if |parts| != 3 then Success(st)
      else
        match ParseHash(parts[1] + ":" + parts[2])
        case Failure(_) => Failure(BadName(e.name))
        case Success(h) => Success(st.(store := WriteBlob(st.store, h, e.bytes)))
    else Success(st)
  }

  /** What a stream does: how far it gets, and the error that stopped it. */
  function LoadEntries(st: Loading, entries: seq<Entry>): (Loading, Option<TarError>)
    decreases |entries|
  {
    if entries == [] then (st, None)
    else
      match LoadEntry(st, entries[0])
      case Failure(e) => (st, Some(e))
      case Success(next) => LoadEntries(next, entries[1..])
  }

  /**
    The descriptors of index.json enter the root index under the image name they
    carry, if any, and gain its annotation; an empty name stops it there.
   */
  function Register(root: seq<Descriptor>, descs: seq<Descriptor>): (seq<Descriptor>, Result<seq<Descriptor>, TarError>)
    decreases |descs|
  {
    if descs == [] then (root, Success([]))
    else
      var d := descs[0];
      if ANNOTATION_IMAGE_NAME !in d.annotations then
        var (root', out) := Register(root, descs[1..]);
        (root', After([d], out))
      else
        var name := d.annotations[ANNOTATION_IMAGE_NAME];
        if name == "" then (root, Failure(NoRefName))
        else
          var (root', out) := Register(WriteName(root, name, d), descs[1..]);
          (root', After([WithName(d, name)], out))
  }

  /** Descriptors already returned, followed by those of a later result. */
  function After(descs: seq<Descriptor>, r: Result<seq<Descriptor>, TarError>): Result<seq<Descriptor>, TarError> {
    if r.Success? then Success(descs + r.value) else r
  }

  /** The cache afterwards, and what is returned. */
  datatype Loaded = Loaded(store: Store, root: seq<Descriptor>, result: Result<seq<Descriptor>, TarError>)

  function Load(store: Store, root: seq<Descriptor>, entries: seq<Entry>, parse: Parser): Loaded {
    var (st, error) := LoadEntries(Loading(store, []), entries);
    if error.Some? then Loaded(st.store, root, Failure(error.value))
    else if st.index == [] then Loaded(st.store, root, Success([]))
    else
      match parse(st.index)
      case None => Loaded(st.store, root, Failure(BadIndex))
      case Some(listed) =>
        var (root', result) := Register(root, listed);
        Loaded(st.store, root', result)
  }

  // ----- the round trip -----

  /** Writing blobs one after another. */
  function WriteAll(store: Store, blobs: seq<Blob>): Store
    decreases |blobs|
  {
    if blobs == [] then store else WriteAll(WriteBlob(store, blobs[0].digest, blobs[0].bytes), blobs[1..])
  }

  /** A digest stands for one content. */
  predicate Consistent(blobs: seq<Blob>) {
    forall a, b :: a in blobs && b in blobs && a.digest == b.digest ==> a.bytes == b.bytes
  }

  function DigestsOf(blobs: seq<Blob>): set<Hash> {
    set b | b in blobs :: b.digest
  }

  lemma DigestsOfCons(b: Blob, rest: seq<Blob>)
    ensures DigestsOf([b] + rest) == {b.digest} + DigestsOf(rest)
  {
    assert forall x :: x in [b] + rest <==> x == b || x in rest;
  }

  lemma {:induction false} WriteAllKeys(store: Store, blobs: seq<Blob>)
    ensures WriteAll(store, blobs).Keys == store.Keys + DigestsOf(blobs)
    ensures forall h :: h in store ==> WriteAll(store, blobs)[h] == store[h]
    decreases |blobs|
  {
    hide DigestsOf;
    if blobs == [] {
      NoDigests();
    } else {
      var b, rest := blobs[0], blobs[1..];
      DigestsOfCons(b, rest);
      assert blobs == [b] + rest;
      WriteAllKeys(WriteBlob(store, b.digest, b.bytes), rest);
    }
  }

  lemma NoDigests()
    ensures DigestsOf([]) == {}
  {
  }

  lemma {:induction false} WriteAllHolds(store: Store, blobs: seq<Blob>, x: Blob)
    requires Consistent(blobs) && x in blobs && x.digest !in store
    ensures x.digest in WriteAll(store, blobs) && WriteAll(store, blobs)[x.digest] == x.bytes
    decreases |blobs|
  {
    hide DigestsOf;
    var b, rest := blobs[0], blobs[1..];
    var next := WriteBlob(store, b.digest, b.bytes);
    if x.digest == b.digest {
      assert next[b.digest] == x.bytes;
      WriteAllKeys(next, rest);
    } else {
      WriteAllHolds(next, rest, x);
    }
  }

  lemma HexHasNoSlash(h: Hash)
    requires WellFormed(h)
    ensures '/' !in h.hex
  {
  }

  /** A blob's entry is read back under its own digest. */
  lemma BlobEntryLoads(st: Loading, b: Blob)
    requires WellFormed(b.digest)
    ensures LoadEntry(st, BlobEntry(b)) == Success(st.(store := WriteBlob(st.store, b.digest, b.bytes)))
  {
    hide Split, ParseHash, WellFormed;
    var h, name := b.digest, BLOB_PREFIX + b.digest.hex;
    HexHasNoSlash(h);
    SplitAtFirst("blobs", "sha256/" + h.hex, '/');
    SplitAtFirst("sha256", h.hex, '/');
    SplitWhole(h.hex, '/');
    assert name == "blobs" + ['/'] + ("sha256/" + h.hex);
    assert "sha256/" + h.hex == "sha256" + ['/'] + h.hex;
    assert Split(name, '/') == ["blobs", "sha256", h.hex];
    assert name[0] == 'b';
    assert "sha256" + ":" + h.hex == h.ToString() by {
      OnlySha256(h);
    }
    ParseInvertsToString(h);
  }

  lemma OnlySha256(h: Hash)
    requires WellFormed(h)
    ensures h.algorithm == "sha256"
  {
  }

  lemma {:induction false} BlobEntriesLoad(st: Loading, blobs: seq<Blob>, more: seq<Entry>)
    requires forall b :: b in blobs ==> WellFormed(b.digest)
    ensures LoadEntries(st, BlobEntries(blobs) + more) == LoadEntries(st.(store := WriteAll(st.store, blobs)), more)
    decreases |blobs|
  {
    hide LoadEntry, WellFormed, LoadEntries, BlobEntry, WriteBlob;
    if blobs == [] {
      assert [] + more == more;
    } else {
      assert BlobEntries(blobs) + more == [BlobEntry(blobs[0])] + (BlobEntries(blobs[1..]) + more);
      BlobEntryLoads(st, blobs[0]);
      LoadCons(st, BlobEntry(blobs[0]), BlobEntries(blobs[1..]) + more);
      BlobEntriesLoad(st.(store := WriteBlob(st.store, blobs[0].digest, blobs[0].bytes)), blobs[1..], more);
    }
  }

  lemma LoadCons(st: Loading, e: Entry, more: seq<Entry>)
    requires LoadEntry(st, e).Success?
    ensures LoadEntries(st, [e] + more) == LoadEntries(LoadEntry(st, e).value, more)
  {
    assert ([e] + more)[1..] == more;
  }

  lemma HeaderLoads(st: Loading, more: seq<Entry>)
    ensures LoadEntries(st, HEADER + more) == LoadEntries(st, more)
  {
    hide Split, ParseHash;
    var a, b, c := HEADER[0], HEADER[1], HEADER[2];
    assert HEADER + more == [a] + ([b] + ([c] + more));
    LoadCons(st, a, [b] + ([c] + more));
    LoadCons(st, b, [c] + more);
    LoadCons(st, c, more);
  }

  lemma JsonLoads(st: Loading, bytes: Bytes)
    requires st.index == []
    ensures LoadEntries(st, [Entry("index.json", false, bytes)]) == (st.(index := bytes), None)
  {
    hide Split, ParseHash;
    var e := Entry("index.json", false, bytes);
    assert e.name[0] == 'i' && "manifest.json"[0] == 'm' && "oci-layout"[0] == 'o';
    assert [] + bytes == bytes;
    assert LoadEntry(st, e) == Success(st.(index := bytes));
    assert [e][1..] == [];
  }

  lemma RefNameIsNotImageName()
    ensures ANNOTATION_REF_NAME != ANNOTATION_IMAGE_NAME
  {
    assert ANNOTATION_REF_NAME[0] != ANNOTATION_IMAGE_NAME[0];
  }

  /**
    Loading an exported stream adds exactly the blobs reachable from the index,
    leaves those that were there alone, and returns the one descriptor that was
    written; the root index is not touched, since that descriptor carries a
    reference name but no image name. Layers that images share are no obstacle.
   */
  lemma ExportThenLoad(index: IndexContent, refName: string, store: Store, root: seq<Descriptor>, parse: Parser, json: Printer)
    requires Reachable(index).Success?
    requires Consistent(Reachable(index).value)
    requires forall b :: b in Reachable(index).value ==> WellFormed(b.digest)
    requires Inverse(parse, json)
    ensures var blobs := Reachable(index).value;
      var after := Load(store, root, Stream(index, blobs, refName, json), parse);
      && after.result == Success([Descriptor("application/vnd.oci.image.index.v1+json", index.raw.size, index.raw.digest, None,
                                             map["org.opencontainers.image.ref.name" := refName])])
      && after.root == root
      && after.store.Keys == store.Keys + DigestsOf(blobs)
      && (forall h :: h in store ==> after.store[h] == store[h])
      && (forall b :: b in blobs && b.digest !in store ==> after.store[b.digest] == b.bytes)
  {
    hide WellFormed, Reachable, LoadEntry, BlobEntries, WriteAll, LoadEntries;
    var blobs := Reachable(index).value;
    var desc := RootDescriptor(index, refName);
    var last := [Entry("index.json", false, json([desc]))];
    var st := Loading(store, []);
    assert Stream(index, blobs, refName, json) == HEADER + (BlobEntries(blobs) + last);
    HeaderLoads(st, BlobEntries(blobs) + last);
    BlobEntriesLoad(st, blobs, last);
    var full := WriteAll(store, blobs);
    JsonLoads(Loading(full, []), json([desc]));
    WriteAllKeys(store, blobs);
    forall b | b in blobs && b.digest !in store
      ensures full[b.digest] == b.bytes
    {
      WriteAllHolds(store, blobs, b);
    }
    RegisterUnnamed(root, desc);
    RefNameIsNotImageName();
  }

  lemma RegisterUnnamed(root: seq<Descriptor>, d: Descriptor)
    requires ANNOTATION_IMAGE_NAME !in d.annotations
    ensures Register(root, [d]) == (root, Success([d]))
  {
    assert [d][1..] == [];
    assert [d] + [] == [d];
  }

  // ----- what is exported, image by image -----

  /** A blob of this image: its configuration, its manifest or one of its layers. */
  predicate IsPartOf(x: Blob, image: ImageContent) {
    x == image.config || x == image.manifest || x in image.layers
  }

  /** Listed as an image manifest, in the OCI or the Docker format. */
  predicate ListedAsImage(m: Descriptor) {
    m.mediaType == "application/vnd.oci.image.manifest.v1+json" || m.mediaType == "application/vnd.docker.distribution.manifest.v2+json"
  }

  lemma {:induction false} ListedBlobsMembers(manifests: seq<Descriptor>, images: map<Hash, ImageContent>, x: Blob)
    requires ListedBlobs(manifests, images).Success?
    ensures x in ListedBlobs(manifests, images).value <==>
      exists m :: m in manifests && ListedAsImage(m) && m.digest in images && IsPartOf(x, images[m.digest])
    ensures forall m :: m in manifests && ListedAsImage(m) ==> m.digest in images
  {
    hide IsPartOf;
    if manifests != [] {
      var m, rest := manifests[0], manifests[1..];
      assert IsImageType(m.mediaType) <==> ListedAsImage(m);
      ListedBlobsMembers(rest, images, x);
      assert manifests == [m] + rest;
      if ListedAsImage(m) {
        PartsAreBlobs(x, images[m.digest]);
      }
    }
  }

  lemma PartsAreBlobs(x: Blob, image: ImageContent)
    ensures x in ImageBlobs(image) <==> IsPartOf(x, image)
  {
  }

  /** What an export holds: the index itself, and exactly the parts of every image that it lists. */
  lemma ReachableMembers(index: IndexContent, x: Blob)
    requires Reachable(index).Success?
    ensures x in Reachable(index).value <==>
      x == index.raw || exists m :: m in index.manifests && ListedAsImage(m) && m.digest in index.images && IsPartOf(x, index.images[m.digest])
  {
    hide ListedBlobs, IsPartOf, ListedAsImage;
    ListedBlobsMembers(index.manifests, index.images, x);
  }

  /** After loading an export, every part of every listed image is in the store under its digest. */
  lemma ExportedImagesAreLoaded(index: IndexContent, refName: string, store: Store, root: seq<Descriptor>, parse: Parser, json: Printer,
                                m: Descriptor, x: Blob)
    requires Reachable(index).Success? && Consistent(Reachable(index).value)
    requires forall b :: b in Reachable(index).value ==> WellFormed(b.digest)
    requires Inverse(parse, json)
    requires m in index.manifests && ListedAsImage(m) && m.digest in index.images && IsPartOf(x, index.images[m.digest])
    ensures var after := Load(store, root, Stream(index, Reachable(index).value, refName, json), parse);
      x.digest in after.store && after.store[x.digest] == if x.digest in store then store[x.digest] else x.bytes
  {
    hide Load, Reachable, Consistent, WellFormed, Inverse, IsPartOf, ListedAsImage, DigestsOf, Stream;
    ReachableMembers(index, x);
    ExportThenLoad(index, refName, store, root, parse, json);
    InDigests(Reachable(index).value, x);
  }

  lemma InDigests(blobs: seq<Blob>, x: Blob)
    requires x in blobs
    ensures x.digest in DigestsOf(blobs)
  {
  }

  // ----- what each entry of a stream does -----

  predicate IsHexDigest(x: string) {
    |x| == 64 && forall c :: c in x ==> '0' <= c <= '9' || 'a' <= c <= 'f'
  }

  /** A file blobs/sha256/x is stored as a blob, if x is a digest, unless there is one; if x is no digest the load fails. */
  lemma BlobFileMeans(st: Loading, e: Entry, x: string)
    requires !e.isDir && e.name == "blobs/sha256/" + x && '/' !in x
    ensures LoadEntry(st, e) ==
      if !IsHexDigest(x) then Failure(BadName(e.name))
      else if Hash("sha256", x) in st.store then Success(st)
      else Success(st.(store := st.store[Hash("sha256", x) := e.bytes]))
  {
    hide Split, ParseHash;
    BlobNameSplits(x);
    SplitWhole(x, '/');
    assert e.name[0] == 'b' && "manifest.json"[0] == 'm' && "oci-layout"[0] == 'o' && "index.json"[0] == 'i';
    assert Split(e.name, '/') == ["blobs", "sha256", x];
    HexParses(x);
    assert "sha256" + ":" + x == "sha256:" + x;
  }

  lemma HexParses(x: string)
    ensures ParseHash("sha256:" + x) == if IsHexDigest(x) then Success(Hash("sha256", x)) else Failure("sha256:" + x)
  {
    assert ("sha256:" + x)[7..] == x;
  }

  lemma BlobNameSplits(x: string)
    ensures Split("blobs/sha256/" + x, '/') == ["blobs", "sha256"] + Split(x, '/')
  {
    hide Split;
    SplitAtFirst("blobs", "sha256/" + x, '/');
    SplitAtFirst("sha256", x, '/');
    assert "blobs/sha256/" + x == "blobs" + ['/'] + ("sha256/" + x);
    assert "sha256/" + x == "sha256" + ['/'] + x;
  }

  /** index.json is collected; directories and every other file are passed over. */
  lemma OtherEntriesMean(st: Loading, e: Entry)
    requires e.isDir || forall x :: e.name == "blobs/sha256/" + x ==> '/' in x
    ensures LoadEntry(st, e) == Success(if !e.isDir && e.name == "index.json" then st.(index := st.index + e.bytes) else st)
  {
    hide Split, ParseHash;
    assert "index.json"[0] == 'i' && "manifest.json"[0] == 'm' && "oci-layout"[0] == 'o';
    if BLOB_PREFIX <= e.name {
      var x := e.name[|BLOB_PREFIX|..];
      assert e.name == "blobs/sha256/" + x;
      BlobNameSplits(x);
      SplitOne(x, '/');
    }
  }

  // ----- what is registered -----

  /** The writes that index.json asks of the root index, up to the first empty name. */
  function NameWrites(descs: seq<Descriptor>): seq<Op> {
    if descs == [] then []
    else if ANNOTATION_IMAGE_NAME !in descs[0].annotations then NameWrites(descs[1..])
    else
      var name := descs[0].annotations[ANNOTATION_IMAGE_NAME];
      if name == "" then [] else [Write(name, descs[0])] + NameWrites(descs[1..])
  }

  lemma {:induction false} RunCons(s: seq<Descriptor>, op: Op, ops: seq<Op>)
    ensures Run(s, [op] + ops) == Run(Apply(s, op), ops)
  {
    hide Apply;
    var all := [op] + ops;
    if ops == [] {
      assert all == [op] && all[..0] == [];
    } else {
      assert all[..|all| - 1] == [op] + ops[..|ops| - 1];
      RunCons(s, op, ops[..|ops| - 1]);
    }
  }

  lemma {:induction false} RegisterRuns(root: seq<Descriptor>, descs: seq<Descriptor>)
    ensures Register(root, descs).0 == Run(root, NameWrites(descs))
    ensures Register(root, descs).1.Success? <==>
      forall d :: d in descs && ANNOTATION_IMAGE_NAME in d.annotations ==> d.annotations[ANNOTATION_IMAGE_NAME] != ""
    decreases |descs|
  {
    hide WriteName, WithName, Run;
    if descs == [] {
      NoWrites(root);
    } else if ANNOTATION_IMAGE_NAME !in descs[0].annotations {
      RegisterRuns(root, descs[1..]);
    } else {
      var name := descs[0].annotations[ANNOTATION_IMAGE_NAME];
      if name == "" {
        NoWrites(root);
      } else {
        RunCons(root, Write(name, descs[0]), NameWrites(descs[1..]));
        RegisterRuns(WriteName(root, name, descs[0]), descs[1..]);
      }
    }
  }

  lemma NoWrites(root: seq<Descriptor>)
    ensures Run(root, []) == root
  {
  }

  /** Whatever a stream holds, and even if it fails, the root index stays a map and gains the named descriptors. */
  lemma LoadRefinesMap(store: Store, root: seq<Descriptor>, entries: seq<Entry>, parse: Parser)
    requires DistinctNames(root)
    ensures var (st, error) := LoadEntries(Loading(store, []), entries);
      var after := Load(store, root, entries, parse);
      var listed := if error.None? && st.index != [] && parse(st.index).Some? then parse(st.index).value else [];
      && DistinctNames(after.root)
      && View(after.root) == RunOnMap(View(root), NameWrites(listed))
      && Unnamed(after.root) == Unnamed(root)
  {
    hide LoadEntries, Register, NameWrites, Run, View, Unnamed, DistinctNames, RunOnMap;
    var (st, error) := LoadEntries(Loading(store, []), entries);
    var listed := if error.None? && st.index != [] && parse(st.index).Some? then parse(st.index).value else [];
    RegisterRuns(root, listed);
    RunRefinesMap(root, NameWrites(listed));
    RegisterNothing(root);
  }

  lemma RegisterNothing(root: seq<Descriptor>)
    ensures Register(root, []).0 == root
  {
  }

  /** The name that a descriptor of index.json asks for, if any. */
  predicate AsksFor(d: Descriptor, name: string) {
    "io.containerd.image.name" in d.annotations && d.annotations["io.containerd.image.name"] == name
  }

  /** Names that no descriptor asks for stand for what they did. */
  lemma {:induction false} RegisterOthers(root: seq<Descriptor>, descs: seq<Descriptor>, name: string)
    requires DistinctNames(root) && forall d :: d in descs ==> !AsksFor(d, name)
    ensures var after := Register(root, descs).0;
      DistinctNames(after) && (name in View(after) <==> name in View(root)) && (name in View(root) ==> View(after)[name] == View(root)[name])
    decreases |descs|
  {
    hide WriteName, WithName, View, DistinctNames;
    if descs != [] {
      var d, rest := descs[0], descs[1..];
      assert !AsksFor(d, name);
      if ANNOTATION_IMAGE_NAME !in d.annotations {
        RegisterOthers(root, rest, name);
      } else if d.annotations[ANNOTATION_IMAGE_NAME] != "" {
        WriteNameRefines(root, d.annotations[ANNOTATION_IMAGE_NAME], d);
        RegisterOthers(WriteName(root, d.annotations[ANNOTATION_IMAGE_NAME], d), rest, name);
      }
    }
  }

  /** The last descriptor that asks for a name gets it. */
  lemma {:induction false} RegisterGivesNames(root: seq<Descriptor>, descs: seq<Descriptor>, i: nat, name: string)
    requires DistinctNames(root) && name != "" && (forall d :: d in descs ==> !AsksFor(d, ""))
    requires i < |descs| && AsksFor(descs[i], name) && forall j :: i < j < |descs| ==> !AsksFor(descs[j], name)
    ensures var after := Register(root, descs).0;
      name in View(after) && Renamed(View(after)[name], descs[i], name)
    decreases |descs|
  {
    hide WriteName, View, DistinctNames;
    var d, rest := descs[0], descs[1..];
    assert !AsksFor(d, "");
    var next := if ANNOTATION_IMAGE_NAME in d.annotations then WriteName(root, d.annotations[ANNOTATION_IMAGE_NAME], d) else root;
    if ANNOTATION_IMAGE_NAME in d.annotations {
      WriteNameRefines(root, d.annotations[ANNOTATION_IMAGE_NAME], d);
    }
    if i == 0 {
      forall x | x in rest
        ensures !AsksFor(x, name)
      {
        var j :| 0 <= j < |rest| && rest[j] == x;
        assert descs[j + 1] == x;
      }
      RegisterOthers(next, rest, name);
    } else {
      RegisterGivesNames(next, rest, i - 1, name);
    }
  }

  /** What is returned is what index.json lists, one for one, with the same contents. */
  lemma {:induction false} RegisterReturnsAll(root: seq<Descriptor>, descs: seq<Descriptor>)
    requires Register(root, descs).1.Success?
    ensures var r := Register(root, descs).1.value;
      |r| == |descs| && forall i :: 0 <= i < |descs| ==>
        r[i].digest == descs[i].digest && r[i].size == descs[i].size && r[i].mediaType == descs[i].mediaType && r[i].platform == descs[i].platform
    decreases |descs|
  {
    hide WriteName;
    if descs != [] {
      var d, rest := descs[0], descs[1..];
      var next := if ANNOTATION_IMAGE_NAME in d.annotations then WriteName(root, d.annotations[ANNOTATION_IMAGE_NAME], d) else root;
      RegisterReturnsAll(next, rest);
      assert forall i :: 0 < i < |descs| ==> descs[i] == rest[i - 1];
    }
  }

  // ----- the code -----

  lemma {:induction false} BlobEntriesAppend(a: seq<Blob>, b: seq<Blob>)
    ensures BlobEntries(a + b) == BlobEntries(a) + BlobEntries(b)
  {
    if a == [] {
      assert a + b == b;
    } else {
      assert (a + b)[1..] == a[1..] + b;
      BlobEntriesAppend(a[1..], b);
    }
  }

  class TarWriter {
    var entries: seq<Entry>

    constructor ()
      ensures entries == []
    {
      entries := [];
    }

    method WriteLayoutHeader()
      modifies this
      ensures entries == old(entries) + HEADER
    {
      entries := entries + [Entry("oci-layout", false, LAYOUT_FILE)];
      entries := entries + [Entry("blobs/", true, [])];
      entries := entries + [Entry("blobs/sha256/", true, [])];
    }

    method WriteLayoutBlob(b: Blob) returns (ok: bool)
      modifies this
      ensures ok <==> b.size == |b.bytes|
      ensures ok ==> entries == old(entries) + BlobEntries([b])
    {
      ok := b.size == |b.bytes|;
      if ok {
        entries := entries + [BlobEntry(b)];
      }
    }

    /** Configuration, layers, manifest. */
    method WriteLayoutImage(image: ImageContent) returns (ok: bool)
      modifies this
      ensures ok <==> SizesRight(ImageBlobs(image))
      ensures ok ==> entries == old(entries) + BlobEntries(ImageBlobs(image))
    {
      ok := WriteLayoutBlob(image.config);
      if !ok {
        assert image.config in ImageBlobs(image);
        return;
      }
      ghost var past := [image.config];
      for i := 0 to |image.layers|
        invariant past == [image.config] + image.layers[..i]
        invariant SizesRight(past)
        invariant entries == old(entries) + BlobEntries(past)
      {
        BlobEntriesAppend(past, [image.layers[i]]);
        ok := WriteLayoutBlob(image.layers[i]);
        if !ok {
          assert image.layers[i] in ImageBlobs(image);
          return;
        }
        past := past + [image.layers[i]];
      }
      BlobEntriesAppend(past, [image.manifest]);
      ok := WriteLayoutBlob(image.manifest);
      assert ImageBlobs(image) == past + [image.manifest];
      assert image.manifest in ImageBlobs(image);
    }

    method WriteLayoutIndex(desc: Descriptor, json: Printer)
      modifies this
      ensures entries == old(entries) + [Entry("index.json", false, json([desc]))]
    {
      entries := entries + [Entry("index.json", false, json([desc]))];
    }
  }

  lemma {:induction false} ListedBlobsPrefix(manifests: seq<Descriptor>, images: map<Hash, ImageContent>, m: Descriptor)
    ensures var before, after := ListedBlobs(manifests, images), ListedBlobs(manifests + [m], images);
      after == if before.Failure? then before
               else if !IsImageType(m.mediaType) then before
               else if m.digest !in images then Failure(NoSuchImage(m.digest))
               else Success(before.value + ImageBlobs(images[m.digest]))
  {
    hide IsImageType, ImageBlobs;
    if manifests == [] {
      assert [] + [m] == [m] && [m][1..] == [];
      assert m.digest in images ==> ImageBlobs(images[m.digest]) + [] == [] + ImageBlobs(images[m.digest]);
    } else {
      assert (manifests + [m])[1..] == manifests[1..] + [m];
      ListedBlobsPrefix(manifests[1..], images, m);
      assert forall a: seq<Blob>, b: seq<Blob>, c: seq<Blob> :: a + (b + c) == a + b + c;
    }
  }

  /** A listed image that cannot be opened, or a wrong size, early on spoils the whole. */
  lemma {:induction false} ListedBlobsMonotone(manifests: seq<Descriptor>, images: map<Hash, ImageContent>, n: nat)
    requires n <= |manifests|
    ensures ListedBlobs(manifests, images).Success? ==>
      ListedBlobs(manifests[..n], images).Success?
      && ListedBlobs(manifests[..n], images).value <= ListedBlobs(manifests, images).value
    decreases |manifests| - n
  {
    hide ImageBlobs;
    if n == |manifests| {
      assert manifests[..n] == manifests;
    } else {
      ListedBlobsMonotone(manifests, images, n + 1);
      ListedBlobsPrefix(manifests[..n], images, manifests[n]);
      assert manifests[..n + 1] == manifests[..n] + [manifests[n]];
    }
  }

  /** The export of an index for all platforms. */
  method OciTar(index: IndexContent, refName: string, json: Printer) returns (r: Result<seq<Entry>, TarError>)
    ensures r.Success? <==> Reachable(index).Success? && SizesRight(Reachable(index).value)
    ensures r.Success? ==> r.value == Stream(index, Reachable(index).value, refName, json)
  {
    hide ListedBlobs, BlobEntries, ImageBlobs;
    var tw := new TarWriter();
    tw.WriteLayoutHeader();
    ghost var past: seq<Blob> := [];
    NothingListed(index.images);
    for i := 0 to |index.manifests|
      invariant ListedBlobs(index.manifests[..i], index.images) == Success(past)
      invariant SizesRight(past)
      invariant tw.entries == HEADER + BlobEntries(past)
    {
      var manifest := index.manifests[i];
      ListedBlobsPrefix(index.manifests[..i], index.images, manifest);
      ListedBlobsMonotone(index.manifests, index.images, i + 1);
      assert index.manifests[..i + 1] == index.manifests[..i] + [manifest];
      if IsImageType(manifest.mediaType) {
        if manifest.digest !in index.images {
          return Failure(NoSuchImage(manifest.digest));
        }
        var image := index.images[manifest.digest];
        BlobEntriesAppend(past, ImageBlobs(image));
        var ok := tw.WriteLayoutImage(image);
        if !ok {
          var b :| b in ImageBlobs(image) && b.size != |b.bytes|;
          assert b in past + ImageBlobs(image);
          return Failure(WrongSize(manifest.digest));
        }
        past := past + ImageBlobs(image);
      }
    }
    assert index.manifests[..|index.manifests|] == index.manifests;
    BlobEntriesAppend(past, [index.raw]);
    var ok := tw.WriteLayoutBlob(index.raw);
    if !ok {
      assert index.raw in past + [index.raw];
      return Failure(WrongSize(index.raw.digest));
    }
    var desc := Descriptor(OCI_IMAGE_INDEX, index.raw.size, index.raw.digest, None, map[ANNOTATION_REF_NAME := refName]);
    tw.WriteLayoutIndex(desc, json);
    return Success(tw.entries);
  }

  lemma NothingListed(images: map<Hash, ImageContent>)
    ensures ListedBlobs([], images) == Success([]) && BlobEntries([]) == []
  {
  }

  class Cache {
    var store: Store
    var root: seq<Descriptor>

    constructor (store: Store, root: seq<Descriptor>)
      ensures this.store == store && this.root == root
    {
      this.store, this.root := store, root;
    }

    /** Blobs go into the store as they come; what index.json lists is registered and returned. */
    method ImageLoad(entries: seq<Entry>, parse: Parser) returns (r: Result<seq<Descriptor>, TarError>)
      modifies this
      ensures Loaded(store, root, r) == Load(old(store), old(root), entries, parse)
      ensures forall h :: h in old(store) ==> h in store && store[h] == old(store)[h]
    {
      hide Split, ParseHash, Register;
      var index: Bytes := [];
      assert entries[0..] == entries;
      for i := 0 to |entries|
        invariant root == old(root)
        invariant LoadEntries(Loading(store, index), entries[i..]) == LoadEntries(Loading(old(store), []), entries)
        invariant forall h :: h in old(store) ==> h in store && store[h] == old(store)[h]
      {
        var e := entries[i];
        assert entries[i..][1..] == entries[i + 1..];
        if e.name == "manifest.json" || e.name == "oci-layout" || e.isDir {
          continue;
        }
        if e.name == "index.json" {
          index := index + e.bytes;
        } else if BLOB_PREFIX <= e.name {
          var parts := Split(e.name, '/');
          if |parts| != 3 {
            continue;
          }
          var hash := ParseHash(parts[1] + ":" + parts[2]);
          if hash.Failure? {
            return Failure(BadName(e.name));
          }
          if hash.value !in store {
            store := store[hash.value := e.bytes];
          }
        }
      }
      if |index| == 0 {
        return Success([]);
      }
      var listed := parse(index);
      if listed.None? {
        return Failure(BadIndex);
      }
      r := RegisterAll(listed.value);
    }

    method RegisterAll(listed: seq<Descriptor>) returns (r: Result<seq<Descriptor>, TarError>)
      modifies `root
      ensures (root, r) == Register(old(root), listed)
    {
      hide WriteName, WithName;
      var descs: seq<Descriptor> := [];
      assert listed[0..] == listed;
      AfterNone(Register(root, listed).1);
      for i := 0 to |listed|
        invariant Register(root, listed[i..]).0 == Register(old(root), listed).0
        invariant After(descs, Register(root, listed[i..]).1) == Register(old(root), listed).1
      {
        var desc := listed[i];
        assert listed[i..][1..] == listed[i + 1..];
        if ANNOTATION_IMAGE_NAME in desc.annotations {
          var name := desc.annotations[ANNOTATION_IMAGE_NAME];
          if name == "" {
            return Failure(NoRefName);
          }
          AfterOne(descs, WithName(desc, name), Register(WriteName(root, name, desc), listed[i + 1..]).1);
          root := WriteName(root, name, desc);
          // the annotation was added to the map the descriptor shares
          descs := descs + [WithName(desc, name)];
        } else {
          AfterOne(descs, desc, Register(root, listed[i + 1..]).1);
          descs := descs + [desc];
        }
      }
      assert descs + [] == descs;
      return Success(descs);
    }
  }

  lemma AfterNone(r: Result<seq<Descriptor>, TarError>)
    ensures After([], r) == r
  {
    if r.Success? {
      assert [] + r.value == r.value;
    }
  }

  lemma AfterOne(descs: seq<Descriptor>, d: Descriptor, r: Result<seq<Descriptor>, TarError>)
    ensures After(descs, After([d], r)) == After(descs + [d], r)
  {
    if r.Success? {
      assert descs + ([d] + r.value) == descs + [d] + r.value;
    }
  }
}
