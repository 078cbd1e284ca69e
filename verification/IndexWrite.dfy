/**
  `IndexWrite` as a whole: find the index that a name has, update its manifest
  list or start a new one, store the result under its hash and point the name at it.
 */
module IndexWrite {
  import opened Results
  import opened Seqs
  import opened Oci
  import opened RootIndex
  import opened IndexUpdate

  datatype IndexError = NoDescriptors | Unreadable | NotAnIndex | NoName

  /** An index document: what it lists, and its other fields as texts. */
  datatype Document = Document(manifests: seq<Descriptor>, fields: map<string, string>)

  type Hasher = Document -> Hash

  /** Equal hashes mean equal documents. */
  ghost predicate NoCollisions(hashOf: Hasher) {
    forall a, b :: hashOf(a) == hashOf(b) ==> a == b
  }

  const NEW_FIELDS := map["mediaType" := OCI_IMAGE_INDEX, "schemaVersion" := "2"]

  /** The index that a name stands for, if it is stored. */
  function IndexOf(view: map<string, Descriptor>, indexes: map<Hash, Document>, name: string): Option<Document> {
    if name in view && IsIndexType(view[name].mediaType) && view[name].digest in indexes
    then Some(indexes[view[name].digest]) else None
  }

  /** The old blob goes, the new one is written unless it is there. */
  function Replaced(indexes: map<Hash, Document>, gone: Option<Hash>, hash: Hash, doc: Document): map<Hash, Document> {
    var rest := if gone.Some? then indexes - {gone.value} else indexes;
    if hash in rest then rest else rest[hash := doc]
  }

  /**
    Pointing a name at its new index: the name has it, and another name's index
    survives unless it is the very blob that was replaced; then it is not stored any more.
   */
  lemma ReplacedLists(view: map<string, Descriptor>, indexes: map<Hash, Document>, name: string, desc: Descriptor,
                      doc: Document, hashOf: Hasher, gone: Option<Hash>)
    requires (forall h :: h in indexes ==> hashOf(indexes[h]) == h) && NoCollisions(hashOf)
    requires desc.digest == hashOf(doc) && IsIndexType(desc.mediaType)
    requires gone == if IndexOf(view, indexes, name).Some? then Some(view[name].digest) else None
    ensures var view', indexes' := view[name := desc], Replaced(indexes, gone, hashOf(doc), doc);
      && (forall h :: h in indexes' ==> hashOf(indexes'[h]) == h)
      && (forall h :: h in indexes && gone != Some(h) ==> h in indexes' && indexes'[h] == indexes[h])
      && IndexOf(view', indexes', name) == Some(doc)
      && (forall n :: n != name && IndexOf(view, indexes, n).Some? ==>
            IndexOf(view', indexes', n) ==
              if gone.None? || view[n].digest != gone.value || IndexOf(view, indexes, name) == Some(doc)
              then IndexOf(view, indexes, n) else None)
  {
    hide IsIndexType;
  }

  lemma NamedIndex(desc: Descriptor, name: string)
    requires desc.mediaType == OCI_IMAGE_INDEX
    ensures var named := WithName(desc, name);
      IsIndexType(named.mediaType) && named.digest == desc.digest
    ensures desc.annotations == map[ANNOTATION_REF_NAME := name] ==> WithName(desc, name) == desc
  {
    assert map[ANNOTATION_REF_NAME := name][ANNOTATION_REF_NAME := name] == map[ANNOTATION_REF_NAME := name];
  }

  /** The document written: the old one with its list updated and its other fields kept, or a new one. */
  ghost function Written(existing: Option<Document>, given: seq<Descriptor>, order: seq<string>): Document
    requires existing.Some? ==> Enumerates(order, LastGiven(given).Keys - Keys(existing.value.manifests))
  {
    match existing
    case Some(doc) => doc.(manifests := Update(doc.manifests, given, order))
    case None => Document(given, NEW_FIELDS)
  }

  class IndexCache {
    var root: seq<Descriptor>           // index.json
    var indexes: map<Hash, Document>    // index blobs, by hash

    ghost function Index(name: string): Option<Document>
      reads this
    {
      IndexOf(View(root), indexes, name)
    }

    /** Names are distinct and every index is stored under the hash of its content. */
    ghost predicate Valid(hashOf: Hasher)
      reads this
    {
      DistinctNames(root) && forall h :: h in indexes ==> hashOf(indexes[h]) == h
    }

    /** The name does not stand for an image or for an index that is not stored. */
    ghost predicate Usable(name: string)
      reads this
    {
      name in View(root) ==>
        !IsImageType(View(root)[name].mediaType) && (IsIndexType(View(root)[name].mediaType) ==> View(root)[name].digest in indexes)
    }

    constructor ()
      ensures root == [] && indexes == map[]
    {
      root, indexes := [], map[];
    }

    /** Which index a name has already. */
    method Existing(name: string, openImage: Hash -> bool) returns (r: Result<Option<Descriptor>, IndexError>)
      requires DistinctNames(root)
      ensures r.Success? <==> Usable(name)
      ensures r.Success? ==> (r.value.Some? <==> Index(name).Some?)
      ensures r.Success? && r.value.Some? ==> r.value.value == View(root)[name]
      ensures r.Failure? ==> r.error.Unreadable? || r.error.NotAnIndex?
    {
      hide IsImageType, IsIndexType, View, HasName;
      OnlyEntry(root, name, IsImageType);
      OnlyEntry(root, name, IsIndexType);
      var images := Find(root, name, IsImageType, openImage);
      if images.Failure? {
        return Failure(Unreadable);
      }
      if |images.value| > 0 {
        return Failure(NotAnIndex);
      }
      var stored := indexes;
      var found := Find(root, name, IsIndexType, (h: Hash) => h in stored);
      if found.Failure? {
        return Failure(Unreadable);
      }
      return Success(if |found.value| > 0 then Some(found.value[0]) else None);
    }

    /** `RemoveBlob` of the old index, `WriteBlob` of the new one. */
    method StoreDocument(gone: Option<Hash>, hash: Hash, doc: Document)
      modifies `indexes
      ensures indexes == Replaced(old(indexes), gone, hash, doc)
    {
      if gone.Some? {
        indexes := indexes - {gone.value};
      }
      if hash !in indexes {
        indexes := indexes[hash := doc];
      }
    }

    /**
      After a successful write the name stands for an index, stored under its hash,
      that lists the update of what the name listed before, or just what was given;
      every other name and every unnamed entry of the root is as it was. It fails
      without a change, except that the blobs are already replaced when the name is empty.
     */
    method Write(name: string, given: seq<Descriptor>, openImage: Hash -> bool, hashOf: Hasher, sizeOf: Document -> int)
        returns (r: Result<(), IndexError>, ghost order: seq<string>)
      requires Valid(hashOf) && NoCollisions(hashOf)
      modifies this
      ensures Valid(hashOf)
      ensures r.Success? <==> given != [] && name != "" && old(Usable(name))
      ensures given == [] ==> r == Failure(NoDescriptors)
      ensures r.Failure? ==> root == old(root)
      ensures r.Failure? && !r.error.NoName? ==> indexes == old(indexes)
      ensures r.Success? || r.error.NoName? ==>
        old(Index(name)).Some? ==> Enumerates(order, LastGiven(given).Keys - Keys(old(Index(name)).value.manifests))
      ensures r == Failure(NoName) ==>
        var doc := Written(old(Index(name)), given, order);
        indexes == Replaced(old(indexes), if old(Index(name)).Some? then Some(View(old(root))[name].digest) else None, hashOf(doc), doc)
      ensures r.Success? ==> Index(name) == Some(Written(old(Index(name)), given, order))
      ensures r.Success? ==>
        var doc := Written(old(Index(name)), given, order);
        name in View(root) && View(root)[name] ==
          Descriptor("application/vnd.oci.image.index.v1+json", sizeOf(doc), hashOf(doc), None, map["org.opencontainers.image.ref.name" := name])
      // an update keeps the other fields of the document; a new one has these
      ensures r.Success? && old(Index(name)).Some? ==>
        Index(name).Some? && Index(name).value.fields == old(Index(name)).value.fields
        && Index(name).value.manifests == Update(old(Index(name)).value.manifests, given, order)
      ensures r.Success? && old(Index(name)).None? ==>
        Index(name) == Some(Document(given, map["mediaType" := "application/vnd.oci.image.index.v1+json", "schemaVersion" := "2"]))
      ensures forall h :: h in old(indexes) && !(old(Index(name)).Some? && View(old(root))[name].digest == h) ==>
        h in indexes && indexes[h] == old(indexes)[h]
      ensures View(root) - {name} == View(old(root)) - {name} && Unnamed(root) == Unnamed(old(root))
      // another name's index survives unless it is the very blob that was replaced
      ensures r.Success? ==> forall n :: n != name && old(Index(n)).Some? ==>
        Index(n) == if old(Index(name)).None? || View(old(root))[n].digest != View(old(root))[name].digest || Index(name) == old(Index(name))
                    then old(Index(n)) else None
    {
      hide View, Unnamed, Update, LastGiven, Keys, Enumerates, WriteName, DistinctNames, IsImageType, IsIndexType, WithName, Replaced;
      order := [];
      if |given| < 1 {
        return Failure(NoDescriptors), order;
      }
      var existing := Existing(name, openImage);
      if existing.Failure? {
        return Failure(existing.error), order;
      }
      var before := if existing.value.Some? then Some(indexes[existing.value.value.digest]) else None;
      var manifests;
      manifests, order := IndexManifests(if before.Some? then Some(before.value.manifests) else None, given);
      var doc := if before.Some? then before.value.(manifests := manifests.value) else Document(manifests.value, NEW_FIELDS);
      var gone := if existing.value.Some? then Some(existing.value.value.digest) else None;
      var hash := hashOf(doc);
      var desc := Descriptor(OCI_IMAGE_INDEX, sizeOf(doc), hash, None, map[ANNOTATION_REF_NAME := name]);
      NamedIndex(desc, name);
      ReplacedLists(View(root), indexes, name, WithName(desc, name), doc, hashOf, gone);
      StoreDocument(gone, hash, doc);
      if name == "" {
        return Failure(NoName), order;
      }
      WriteNameRefines(root, name, desc);
      root := WriteName(root, name, desc);
      return Success(()), order;
    }
  }

  /** Two names that are given the same come to share one index blob. */
  method ShareIndex(a: string, b: string, x: Descriptor, openImage: Hash -> bool, hashOf: Hasher, sizeOf: Document -> int)
      returns (cache: IndexCache)
    requires a != "" && b != "" && a != b && NoCollisions(hashOf)
    ensures fresh(cache) && cache.Valid(hashOf) && cache.Index(a) == cache.Index(b) == Some(Document([x], NEW_FIELDS))
    ensures View(cache.root)[a].digest == View(cache.root)[b].digest
  {
    hide View, Unnamed, Update, LastGiven, Keys, Enumerates, DistinctNames, IsImageType, IsIndexType, Replaced;
    cache := new IndexCache();
    NothingNamed();
    ghost var order;
    var r;
    r, order := cache.Write(a, [x], openImage, hashOf, sizeOf);
    assert b !in View(cache.root) - {a};
    r, order := cache.Write(b, [x], openImage, hashOf, sizeOf);
    assert View(cache.root)[a].digest == hashOf(Document([x], NEW_FIELDS));
  }

  /** Then updating the index of one of them leaves the other name without its index. */
  method SharedIndexIsLost(a: string, b: string, x: Descriptor, y: Descriptor, openImage: Hash -> bool, hashOf: Hasher, sizeOf: Document -> int)
      returns (cache: IndexCache)
    requires a != "" && b != "" && a != b && x.digest != y.digest && Replaces(y) && !HasReference(y)
    requires NoCollisions(hashOf)
    ensures cache.Index(a).Some? && b in View(cache.root) && cache.Index(b).None?
  {
    hide View, Unnamed, Update, LastGiven, Keys, Enumerates, DistinctNames, IsImageType, IsIndexType, Replaced, Replaces, HasReference;
    cache := ShareIndex(a, b, x, openImage, hashOf, sizeOf);
    assert b in View(cache.root) - {a};
    Addressable(cache, a);
    ghost var order;
    var r;
    r, order := cache.Write(a, [y], openImage, hashOf, sizeOf);
    ReplacementIsThere([x], y, order);
    assert Digests([x]) == {x.digest};
    assert b in View(cache.root) - {a};
  }

  lemma NothingNamed()
    ensures View([]) == map[] && DistinctNames([])
  {
  }

  /** A name that has an index is not an image. */
  lemma Addressable(cache: IndexCache, name: string)
    requires cache.Index(name).Some?
    ensures cache.Usable(name)
  {
    hide View;
    assert |OCI_IMAGE_INDEX| == 39 && |DOCKER_MANIFEST_LIST| == 57 && |OCI_MANIFEST| == 42 && |DOCKER_MANIFEST| == 52;
  }

  lemma ReplacementIsThere(before: seq<Descriptor>, y: Descriptor, order: seq<string>)
    requires Enumerates(order, LastGiven([y]).Keys - Keys(before)) && Replaces(y) && !HasReference(y)
    ensures y.digest in Digests(Update(before, [y], order))
  {
    hide Update, HasReference;
    UpdateKeepsImages(before, [y], order);
    LastGivenIsLast([y], 0);
  }
}
