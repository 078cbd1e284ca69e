# LinuxKit, modelled and proved in Dafny

This project models the parts of LinuxKit that carry real state, branching or arithmetic, and proves what they are for.

* **Multi-architecture indexes and the image cache.** `IndexMerge` is the merge of a local and a remote index, `PushIndex`
  the merge and clean-up that a push does, `IndexUpdate` the update of an index that a name already has, `IndexWrite` that
  update together with the blob store and the root index, `RootIndex` the root `index.json` as a map from names to
  descriptors, `CacheLock` the file lock around it as a state machine over any number of processes, with `CacheProgress` for who can
  finish and `CacheCalls` for what calls come to, and `ImageTar` the
  export of an index as a tar stream and its loading into another cache.
* **memlogd.** `Memlogd` is the handler with its ring, its listeners and their bounded channels, as a state machine over
  all interleavings; `LineReader` is how lines become messages.
* **start-stop-daemon.** `StopSchedule` is the `--retry` schedule: its text, its meaning, the array it is compiled to and
  the interpreter of that array; `Polling` is the waiting during one of its timeouts, which the interpreter uses.
* **logwrite.** `LogRotate` is writing with rotation.
* **The DHCP client's packet filter.** `BootpFilter` is a machine for classic BPF and the eleven-instruction program.
* **OCI runtime configuration.** `OciConfig` is the mount list and the capability sets that an image definition becomes.

`Results`, `Seqs`, `Text`, `Sorting` and `Oci` hold what these share: fallible results, filtering of lists, string
splitting and order, sorting by key, and OCI descriptors with their content hashes.

Where the source loops over variables or updates fields, there is a method or a class with loops and fields, proved equal
to a specification function; the properties are then proved of that function, for all inputs and all runs.
The lock protocol and memlogd's concurrency are step functions over a whole state, executed along arbitrary schedules.
Every hypothesis is stated in a `requires` clause.

Abstractions. Hashes are kept as text with the syntax that the parser enforces; computing them is a parameter. Fetching a
manifest from a registry and opening a blob are parameters that may fail, as is parsing an index document. A nil annotation
map and an empty one are the same, since every test in the code treats them alike. Other JSON documents are the values they
stand for. Clock readings and the results of looking for processes are inputs. Integers are unbounded except where a C or
wire width decides something. memlogd's messages carry the number they were logged under and its listeners what was dropped,
so that order and loss can be stated. A channel is a sequence with a capacity; memlogd gives the ring and the channels the
same size, which must be positive.

## Where the code and its comments part

* `AppendIndex` says that it returns the other index when one is nil; it has no such test.
* `IndexWrite` says that it avoids a second entry for an arch, OS and variant; its key is OS, architecture and OS version.
* `mergeStrings` says that it merges uniquely; the map it consults is never filled, so it concatenates (`MergeStrings`).
* `LogFile.Rotate` speaks of `foo.1` as the first rotated file; it is `foo.0`.
* `ImageLoad` registers a descriptor only under the containerd image-name annotation, while the export writes only the
  OCI reference name, so loading an exported stream leaves the root index as it was (`ExportThenLoad`).

## What turned out false, and exactly when it holds

* A push can lose an image: the clean-up removes by digest, so an image goes with a dangling attestation that has the same
  digest (`PushCanLoseAnImage`). An image is pushed if and only if its digest is not that of an attestation, on the side the
  merge starts from, about something that is neither an image there nor a remote image to be added
  (`PushHoldsImageIff`); if no digest is listed for both an image and an attestation, nothing is lost
  (`PushLosesNothing`).
* For the same reason a pushed index can keep an attestation whose image is gone (`PushCanLeaveDangling`). That happens if
  and only if an attestation that the merge holds, and that stays, is about an image that goes
  (`PushLeavesNothingDanglingIff`); never with distinct digests on both sides and an architecture on every local entry
  (`PushLeavesNothingDangling`). The clean-up is idempotent under the same condition (`CleanIdempotentIff`).
* A merge can leave out an image for a platform that the primary lacks, because platforms are compared as texts and slashes
  can make two texts meet (`SlashesHideAnImage`). Exactly when an image is there is `MergeHoldsImageIff`; without slashes in
  architectures and OS names no platform is left out (`MergeHoldsNewPlatforms`).
* A second merge can add an attestation that is listed before the attestation it is about (`SecondMergeCanAdd`). It changes
  nothing if and only if there is no such pair, the first neither known nor added and the second added, or the superset
  shortcut applies (`MergeIdempotentIff`); so it is when attestations are about images only (`MergeIdempotent`).
* An update can store two images for one key, because the key is a text and an unknown/unknown entry can share it with an
  image whose OS name contains slashes (`ClashExists`). What is stored stays at one image per key if and only if there is no
  clash of which both the replacement and the old image survive the clean-up (`UpdateOnePerKeyIff`): one of them can have the
  digest of an earlier entry or refer to something unlisted. Names without slashes never clash (`SlashFreeNoClash`).
* An update can store an entry that refers to a dropped one (`ChainIsLeftDangling`), if and only if everything listed under
  the digest referred to is dropped (`UpdateLeavesNothingDanglingIff`).
* `IndexWrite` removes the old index blob even if another name stands for it (`SharedIndexIsLost`). That name's index
  survives if and only if it was another blob or the document did not change (`ReplacedLists`).
* With more rotated files on disk than allowed, a rotation overwrites one in the middle. A rotation leaves the end of what
  was there, whatever it was, if and only if there are no more files than allowed (`RotateKeepsTheEndIff`).

## Model

| member | source | states |
|---|---|---|
| IndexMerge.AppendIndex | src/cmd/linuxkit/util/index.go:27-123 | the three loops with their digest and platform maps compute `Merge`, errors included |
| IndexMerge.CollectPrimary | src/cmd/linuxkit/util/index.go:45-58 | the maps made from the primary are its digests and platform keys, entries without architecture left out |
| IndexMerge.IndexSuperset | src/cmd/linuxkit/util/index.go:125-139 | true exactly when the inner list is no longer and all its digests are in the outer one |
| IndexMerge.AddImages | src/cmd/linuxkit/util/index.go:60-84 | the loop over the remote images adds what the image pass adds, and the digest map afterwards holds exactly the old digests and those added |
| IndexMerge.AddAttestations | src/cmd/linuxkit/util/index.go:91-119 | the loop over the remote attestations adds what the attestation pass adds, or fails with its error |
| IndexMerge.MergeRefinesSimple | src/cmd/linuxkit/util/index.go:45-122 | outside the superset shortcut, and when the secondary has distinct digests and its attestations are about images, the two passes with their growing map give exactly the primary, then the images on platforms it lacks, then the attestations about what is then present, each in list order |
| IndexMerge.MergePrecedence | src/cmd/linuxkit/util/index.go:51-120 | the primary comes first and whole; added images are for platforms whose architecture, OS and variant, joined by slashes, no entry of the primary has, and every such image is present by digest; an attestation whose image was kept is present; when attestations are about images, none is added whose image was not kept |
| IndexMerge.MergeHoldsImageIff | src/cmd/linuxkit/util/index.go:42-84 | in the fields of the descriptors, exactly when an image of the secondary is in the merge by digest |
| IndexMerge.MergeHoldsNewPlatforms | src/cmd/linuxkit/util/index.go:60-84 | an image whose architecture, OS and variant no primary entry has is in the merge, architectures and OS names being free of slashes |
| IndexMerge.MergeKeepsPrimaryPlatforms | src/cmd/linuxkit/util/index.go:65-70 | an image whose architecture, OS and variant a primary entry has is not added |
| IndexMerge.SameTextSameFields | src/cmd/linuxkit/util/index.go:55-65 | without slashes in architecture and OS the joined text tells all three fields apart |
| IndexMerge.SlashesHideAnImage | src/cmd/linuxkit/util/index.go:55-70 | two different platforms with one joined text, of which the second is left out |
| IndexMerge.MergeHoldsAttestations | src/cmd/linuxkit/util/index.go:86-119 | in the fields: an attestation about a primary entry with an architecture, or about an image that is added, is in the merge |
| IndexMerge.MergeHoldsAttestationIff | src/cmd/linuxkit/util/index.go:86-119 | and, for attestations about images, no other is |
| IndexMerge.MergeIdempotent | src/cmd/linuxkit/util/index.go:42-44 | merging the same secondary again changes nothing, the shortcut included, when attestations are about images |
| IndexMerge.MergeIdempotentIff | src/cmd/linuxkit/util/index.go:91-120 | the exact condition for a second merge to change nothing, told from the two lists: the superset shortcut, or no attestation that is neither known nor added stands before one that it is about and that is added |
| IndexMerge.SecondMergeCanAdd | src/cmd/linuxkit/util/index.go:91-119 | two merges of one image with two attestations, the first listed being about the second, where the second merge adds what the first passed over |
| IndexMerge.AttestationPassReaches | src/cmd/linuxkit/util/index.go:91-119 | after the loop exactly the known digests are present and those of attestations that reach one through attestations listed earlier |
| IndexMerge.AttestationPassExact | src/cmd/linuxkit/util/index.go:91-119 | the loop adds exactly the first entry with each new digest that does so |
| IndexMerge.MergeSucceeds | src/cmd/linuxkit/util/index.go:74-112 | the merge fails only over a manifest that cannot be fetched or a reference that does not parse |
| IndexMerge.MergeFailsIff | src/cmd/linuxkit/util/index.go:74-112 | exactly when a merge fails, told from the two lists and from what can be fetched: an image or attestation to be added that cannot be fetched, or a new attestation whose reference does not parse |
| Oci.ParseHash | src/cmd/linuxkit/vendor/github.com/google/go-containerregistry/pkg/v1/hash.go:86-121 | an accepted text is the written form of the well-formed hash returned |
| Oci.ParseInvertsToString | src/cmd/linuxkit/vendor/github.com/google/go-containerregistry/pkg/v1/hash.go:43-54 | parsing the written form of a well-formed hash gives it back |
| PushIndex.CleanDanglingReferences | src/cmd/linuxkit/cache/push.go:164-206 | the two loops and the removal compute `Clean`, with the first malformed reference as error |
| PushIndex.RecordSubjects | src/cmd/linuxkit/cache/push.go:174-179 | the recorded digests are those of entries with a known architecture |
| PushIndex.FindDangling | src/cmd/linuxkit/cache/push.go:180-203 | the digests to remove are exactly those of attestations whose subject is not listed |
| PushIndex.CleanDigests | src/cmd/linuxkit/cache/push.go:199-204 | exactly the entries that carry the digest of a dangling attestation go |
| PushIndex.CleanKeepsImages | src/cmd/linuxkit/cache/push.go:164-206 | when images and attestations share no digest, no image goes and nothing dangles in what remains |
| PushIndex.CleanIsExact | src/cmd/linuxkit/cache/push.go:164-206 | with distinct digests exactly the dangling attestations go, and the order stays |
| PushIndex.CleanKeepsAttestationIff | src/cmd/linuxkit/cache/push.go:174-204 | in the fields: under distinct digests an attestation stays exactly when an entry with an architecture other than unknown has the digest that its annotation names |
| PushIndex.CleanKeepsOthers | src/cmd/linuxkit/cache/push.go:181-195 | and everything that is not an attestation stays |
| PushIndex.CleanFailsIff | src/cmd/linuxkit/cache/push.go:192-199 | the clean-up fails exactly when the annotation of an unknown/unknown entry is not the text of a sha256 hash |
| PushIndex.CleanIdempotent | src/cmd/linuxkit/cache/push.go:164-206 | cleaning a cleaned index changes nothing, when images and attestations share no digest |
| PushIndex.CleanIdempotentIff | src/cmd/linuxkit/cache/push.go:164-206 | cleaning again changes nothing exactly when no attestation that stays is about a subject that goes |
| PushIndex.CleanLeavesNothingDanglingIff | src/cmd/linuxkit/cache/push.go:180-206 | nothing dangles after the clean-up exactly under the same condition |
| PushIndex.Push | src/cmd/linuxkit/cache/push.go:88-111 | what is written for an index: skipped if the remote has it, else merged with the remote index if there is one and cleaned, or the local index if nothing is there |
| PushIndex.PushSkipsIff | src/cmd/linuxkit/cache/push.go:89-94 | nothing is written if and only if the registry has something with the digest of the local index |
| PushIndex.FirstPush | src/cmd/linuxkit/cache/push.go:89-114 | with nothing in the registry the local index is written as it is |
| PushIndex.PushSucceeds | src/cmd/linuxkit/cache/push.go:88-111 | over something else an index is written when every remote manifest can be fetched and all references parse |
| PushIndex.PushLosesNothing | src/cmd/linuxkit/cache/push.go:95-110 | when no digest is listed both for an image and for an attestation, every local image and every remote image on a platform that is not local is in the index pushed over something else, and every attestation there is about an entry of it; a remote that is no index counts as an empty one |
| PushIndex.PushLeavesNothingDanglingIff | src/cmd/linuxkit/cache/push.go:88-111 | the exact condition, on the two lists alone, for every attestation of the pushed index to be about an entry of it: no attestation that the merge holds and that stays is about a subject that goes |
| PushIndex.PushLeavesNothingDangling | src/cmd/linuxkit/cache/push.go:95-110 | so it is when both lists have distinct digests and every local entry has an architecture |
| PushIndex.PushCanLeaveDangling | src/cmd/linuxkit/cache/push.go:180-206 | a local index, pushed over an empty one, of which only an attestation about the image that was lost remains |
| PushIndex.MergeKeepsDigestsDistinct | src/cmd/linuxkit/util/index.go:51-120 | under those conditions the merge has distinct digests |
| PushIndex.PushHoldsImageIff | src/cmd/linuxkit/cache/push.go:199-204 | the exact condition, on the two lists alone, under which such an image is pushed, whatever the registry held |
| PushIndex.ImagePassExact | src/cmd/linuxkit/util/index.go:60-84 | the loop over remote images adds exactly the first entry with each new digest on an uncovered platform |
| PushIndex.MergedSubjects | src/cmd/linuxkit/util/index.go:51-120 | what attestations of the merged index may be about, told from the two lists |
| PushIndex.DanglingFromBase | src/cmd/linuxkit/util/index.go:86-119 | an attestation in the merge under the digest of an image to be pushed was on the side that the merge started from |
| PushIndex.PushCanLoseAnImage | src/cmd/linuxkit/cache/push.go:199-204 | a local image that is lost |
| PushIndex.PushKeepsOnePerPlatform | src/cmd/linuxkit/cache/push.go:95-110 | two indexes with one image per platform give a pushed index with one image per platform |
| PushIndex.OnePerPlatformIsText | src/cmd/linuxkit/util/index.go:55-65 | one image per platform means that no two have the same architecture, OS and variant once joined by slashes |
| PushIndex.MergeKeepsOnePerPlatform | src/cmd/linuxkit/util/index.go:60-84 | the merge of two indexes with one image per platform has one image per platform |
| IndexUpdate.IndexManifests | src/cmd/linuxkit/cache/write.go:239-359 | the loops over given descriptors, old entries, leftovers in any map order and the final clean-up compute `Update`; without an old index the list is what was given; no descriptors is an error |
| IndexUpdate.CollectGiven | src/cmd/linuxkit/cache/write.go:276-287 | the map of the last descriptors given for a key, and the others in order |
| IndexUpdate.SwapIn | src/cmd/linuxkit/cache/write.go:294-307 | the loop over the old list puts each replacement at the first entry with its key, and leaves those whose key was not met |
| IndexUpdate.AddLeftovers | src/cmd/linuxkit/cache/write.go:308-312 | the leftovers are each added once, in some order |
| IndexUpdate.DropDangling | src/cmd/linuxkit/cache/write.go:320-345 | the clean-up keeps the first entry with each digest that does not refer to something unlisted |
| IndexUpdate.LastGivenIsLast | src/cmd/linuxkit/cache/write.go:280-287 | the descriptor that counts for a key is the last one given |
| IndexUpdate.CombinedMembers | src/cmd/linuxkit/cache/write.go:294-316 | before the clean-up the list holds the last given descriptor of every key, the old entries with untouched keys, the given entries without one, and nothing else |
| IndexUpdate.CombinedSameMembers | src/cmd/linuxkit/cache/write.go:308-316 | the same entries for every map iteration order |
| IndexUpdate.UpdateDigests | src/cmd/linuxkit/cache/write.go:317-345 | afterwards digests are distinct and are exactly those of entries that do not refer to something unlisted |
| IndexUpdate.UpdateKeepsImages | src/cmd/linuxkit/cache/write.go:264-347 | the last given descriptor of every key and every old image with an untouched key, if it carries no reference, is there by digest, and nothing is there that was neither listed nor given |
| IndexUpdate.UpdateLeavesNothingDangling | src/cmd/linuxkit/cache/write.go:317-345 | when references are not chained, nothing refers to something that is not in the result |
| IndexUpdate.UpdateLeavesNothingDanglingIff | src/cmd/linuxkit/cache/write.go:317-345 | the exact condition: no stored entry refers to a digest of which every listed entry is dropped |
| IndexUpdate.ChainIsLeftDangling | src/cmd/linuxkit/cache/write.go:317-345 | an image is replaced, the attestation about it is dropped, and an attestation about that attestation is stored |
| IndexUpdate.UpdateOrderIrrelevant | src/cmd/linuxkit/cache/write.go:308-312 | the set of digests is the same for every map iteration order |
| IndexUpdate.UpdateKeepsOnePerKey | src/cmd/linuxkit/cache/write.go:275-312 | one image per OS, architecture and OS version stays so in what is stored when no entry clashes |
| IndexUpdate.UpdateOnePerKeyIff | src/cmd/linuxkit/cache/write.go:264-347 | the exact condition for what is stored, told from the old list and what is given: no clash of which both places are stored, that is, refer to nothing unlisted and come first with their digest among those |
| IndexUpdate.SwappedPlaces | src/cmd/linuxkit/cache/write.go:294-307 | place by place, the loop over the old list leaves an entry or puts the replacement at the first with its key |
| IndexUpdate.TidyExact | src/cmd/linuxkit/cache/write.go:320-345 | the clean-up keeps exactly the places that refer to nothing unlisted and come first with their digest among those |
| IndexUpdate.CombinedOnePerKeyIff | src/cmd/linuxkit/cache/write.go:294-307 | before the clean-up one image per key stays so exactly when no entry clashes |
| IndexUpdate.ClashRepeatsAKey | src/cmd/linuxkit/cache/write.go:294-307 | the family of two-entry lists where an unknown/unknown entry is replaced and the old image stays, so that two images for one key are stored |
| IndexUpdate.ClashExists | src/cmd/linuxkit/cache/write.go:286-295 | a concrete member of that family: two platforms, one of them unknown/unknown, with the same key text |
| IndexUpdate.SlashFreeNoClash | src/cmd/linuxkit/cache/write.go:286-296 | names without slashes never clash |
| IndexUpdate.UpdateReplaces | src/cmd/linuxkit/cache/write.go:294-303 | an image listed for a given key is the last one given for it, when no entry clashes |
| IndexUpdate.GivenReplacesByPlace | src/cmd/linuxkit/cache/write.go:286-307 | in the fields: the last image given for an OS, architecture and OS version is stored and is the only one stored for them, whatever the variants, OS and architecture names being free of slashes |
| IndexUpdate.OthersStayByPlace | src/cmd/linuxkit/cache/write.go:294-307 | an old image for an OS, architecture and OS version that nothing is given for is stored |
| IndexUpdate.ReferencesByText | src/cmd/linuxkit/cache/write.go:313-345 | what refers to a digest that is listed nowhere is not stored; given entries without a platform that refer to none are |
| IndexUpdate.KeyIsPlace | src/cmd/linuxkit/cache/write.go:286-295 | without slashes in OS and architecture equal keys mean equal OS, architecture and OS version |
| IndexWrite.IndexCache.Existing | src/cmd/linuxkit/cache/write.go:243-257 | which index a name has; it succeeds exactly when the name is not an image and its index, if any, can be read |
| IndexWrite.IndexCache.Write | src/cmd/linuxkit/cache/write.go:236-383 | success exactly for a non-empty name that is usable and at least one descriptor; then the name has the old document with its list updated and its other fields kept, or a new document with what was given, stored under its hash; other names and unnamed entries of the root are as before; another name loses its index exactly when it shared the replaced blob; on failure the root is unchanged, and the blobs too unless the name is empty, when they are already replaced |
| IndexWrite.ReplacedLists | src/cmd/linuxkit/cache/write.go:348-372 | the name has the new index, and exactly which other names keep theirs when the blob is replaced; the others have none |
| IndexWrite.ShareIndex | src/cmd/linuxkit/cache/write.go:354-372 | two names that are given the same descriptors come to share one blob |
| IndexWrite.SharedIndexIsLost | src/cmd/linuxkit/cache/write.go:348-372 | updating one of them leaves the other name without a stored index |
| RootIndex.WriteNameRefines | src/cmd/linuxkit/cache/write.go:491-499 | removing and appending is a map update at the name; names stay distinct, unnamed entries stay |
| RootIndex.RemoveNameRefines | src/cmd/linuxkit/cache/write.go:504-514 | removing by name removes the name from the map and nothing else |
| RootIndex.RunRefinesMap | src/cmd/linuxkit/cache/write.go:475-514 | after every run of writes and removals the list is the map that the run computes |
| RootIndex.FindRootAgrees | src/cmd/linuxkit/cache/resolvabledescriptor.go:52-72 | a lookup succeeds exactly when the map holds an image or index that can be opened, and returns it |
| RootIndex.WriteThenFind | src/cmd/linuxkit/cache/write.go:491-499 | looking up a name that was just written finds the same content under that name, other annotations included; other names are found as before |
| RootIndex.RemoveThenFind | src/cmd/linuxkit/cache/write.go:504-514 | a removed name is not found, other names are found as before |
| RootIndex.OnlyEntry | src/cmd/linuxkit/cache/resolvabledescriptor.go:52-72 | the entries of a kind found under a name are none or the one in the map |
| RootIndex.Provider.DescriptorWrite | src/cmd/linuxkit/cache/write.go:475-502 | an empty name is refused without change; otherwise the list and the map are updated at the name |
| RootIndex.Provider.RemoveDescriptors | src/cmd/linuxkit/cache/write.go:504-514 | the new list, and the map without the name |
| RootIndex.Provider.List | src/cmd/linuxkit/cache/image.go:16-35 | the names are those of the map, with the digests it holds, for every root; of entries with the same name the last counts |
| CacheLock.MutualExclusion | src/cmd/linuxkit/cache/provider.go:54-85 | in every interleaving a process that reads, writes or creates holds the file lock, so no two do at once |
| CacheLock.ExecInv | src/cmd/linuxkit/cache/provider.go:41-85 | every schedule of steps, lock failures included, keeps the invariant that ties lock, layout, list, log and reads together |
| CacheLock.RootIsSerial | src/cmd/linuxkit/cache/provider.go:41-85 | in every interleaving, and whenever no process is between removing and appending, the list on disk is the serial application of the updates in the log; every read saw the list between two updates; and no layout was created over another |
| CacheLock.CreateInv | src/cmd/linuxkit/cache/open.go:24-43 | creating the layout after the second look keeps the invariant: the layout was absent, and it is complete before anyone else can read it |
| CacheLock.RootIsAMap | src/cmd/linuxkit/cache/write.go:475-514 | whoever made the updates, names stay distinct and the list is the map they compute, whenever no process is between removing and appending |
| CacheCalls.LogIsInterleaving | src/cmd/linuxkit/cache/write.go:475-514 | each process's part of the log is its program's updates in order, all of them if it finished without error |
| CacheCalls.NeverFails | src/cmd/linuxkit/cache/write.go:475-514 | under every schedule without lock errors a process whose writes all have names never fails |
| CacheCalls.FinishedIsLogged | src/cmd/linuxkit/cache/write.go:475-514 | so when it has finished its part of the log is exactly its updates, in order |
| CacheCalls.StepFailsWell | src/cmd/linuxkit/cache/write.go:475-490 | any single step makes a process fail only because the lock could not be had or a write has no name |
| CacheCalls.UpdateRootAlone | src/cmd/linuxkit/cache/write.go:475-514 | an update on its own applies itself to the complete list, logs itself and lets go of the lock |
| CacheCalls.ReadRootAlone | src/cmd/linuxkit/cache/provider.go:46-52 | a read on its own sees everything in the log applied, and lets go of the lock |
| CacheCalls.OpenCacheAlone | src/cmd/linuxkit/cache/open.go:12-45 | opening makes an empty layout where there is none and changes nothing where there is one |
| CacheCalls.TakeLockAlone | src/cmd/linuxkit/cache/provider.go:55-70 | locking on its own gets the file lock and changes nothing else |
| CacheCalls.GiveBackAlone | src/cmd/linuxkit/cache/provider.go:73-85 | unlocking frees the file lock and changes nothing else |
| CacheCalls.LockErrorFails | src/cmd/linuxkit/cache/provider.go:64-67 | a call that cannot have the lock fails without effect, and opening so ends the process |
| CacheCalls.UnlockErrorKeepsFile | src/cmd/linuxkit/cache/provider.go:81-84 | when the file cannot be unlocked the provider forgets the lock all the same |
| CacheLock.HolderNeverBlocks | src/cmd/linuxkit/cache/provider.go:59-62 | the process that has the file lock never waits for it |
| CacheProgress.EveryoneCanFinishIff | src/cmd/linuxkit/cache/provider.go:54-85 | no deadlock: from every reachable state whose holder, if any, gives the lock back in the end, some schedule without errors finishes every process if and only if at most one of them, by its remaining calls, ends with the lock |
| CacheProgress.ExecEndsHolding | src/cmd/linuxkit/cache/provider.go:54-85 | under every schedule without errors, whether a process ends with the lock does not depend on what the others do |
| CacheProgress.KeptLockBlocks | src/cmd/linuxkit/cache/provider.go:63-67 | a process that has finished with the lock keeps everyone who waits for it waiting under every schedule without errors |
| CacheProgress.FinishOne | src/cmd/linuxkit/cache/provider.go:54-85 | on its own, with the lock free or its own, a process carries out all its calls and has the lock afterwards exactly if they end so |
| CacheLock.InnerCallReleases | src/cmd/linuxkit/cache/provider.go:72-85 | a nested read or update gives the lock up after at most three of its own steps, though an outer call took it |
| ImageTar.OciTar | src/cmd/linuxkit/cache/indexsource.go:58-154 | the export succeeds exactly when every listed image opens and all sizes are right, and then is the header, the blobs of every image in order, the index and index.json |
| ImageTar.TarWriter.WriteLayoutImage | src/cmd/linuxkit/cache/layout.go:48-102 | appends configuration, layers and manifest, or fails on a wrong size |
| ImageTar.Cache.ImageLoad | src/cmd/linuxkit/cache/write.go:150-230 | the loop over tar entries and the registration leave store, root and result as `Load` says, failures included; no blob that was there is lost or changed |
| ImageTar.Cache.RegisterAll | src/cmd/linuxkit/cache/write.go:219-227 | the named descriptors of index.json are registered in order up to an empty name |
| ImageTar.RegisterRuns | src/cmd/linuxkit/cache/write.go:219-227 | registering is the run of writes that the descriptors ask for, and fails exactly when one has an empty name |
| ImageTar.RegisterGivesNames | src/cmd/linuxkit/cache/write.go:219-227 | the last descriptor with a containerd image name gets that name in the root, its content unchanged |
| ImageTar.RegisterOthers | src/cmd/linuxkit/cache/write.go:219-227 | names that no descriptor asks for stand for what they did |
| ImageTar.RegisterReturnsAll | src/cmd/linuxkit/cache/write.go:219-229 | what is returned is what index.json lists, one for one |
| ImageTar.LoadRefinesMap | src/cmd/linuxkit/cache/write.go:209-229 | whatever the stream holds, and even if it fails, the root stays a map, updated at exactly the names of index.json, and its unnamed entries stay |
| ImageTar.BlobEntryLoads | src/cmd/linuxkit/cache/write.go:190-206 | an exported blob is read back under its own digest |
| ImageTar.WriteAllKeys | src/cmd/linuxkit/cache/write.go:200-206 | writing blobs one after another adds exactly their digests and changes none that was there |
| ImageTar.WriteAllHolds | src/cmd/linuxkit/cache/write.go:200-206 | a blob that was not there is there with its content, though others with its digest are written too |
| ImageTar.ExportThenLoad | src/cmd/linuxkit/cache/indexsource.go:75-154 | loading an exported stream, with a parser that reads back what was printed, adds exactly the reachable blobs, leaves the others alone, returns the one descriptor written and does not touch the root, layers shared between images included |
| ImageTar.ReachableMembers | src/cmd/linuxkit/cache/indexsource.go:75-140 | an export holds exactly the index and the configuration, manifest and layers of every image that it lists in the OCI or Docker format |
| ImageTar.ExportedImagesAreLoaded | src/cmd/linuxkit/cache/indexsource.go:75-154 | after loading an export every such part is in the store under its digest, with its content unless the digest was there |
| ImageTar.BlobFileMeans | src/cmd/linuxkit/cache/write.go:190-206 | a file blobs/sha256/x is stored under that hash unless one is there, if x is 64 lower-case hexadecimal digits, and else fails the load |
| ImageTar.OtherEntriesMean | src/cmd/linuxkit/cache/write.go:177-189 | index.json is collected, and directories and all other files are passed over |
| Memlogd.RingHoldsLast | pkg/memlogd/cmd/memlogd/main.go:77-87 | after any run the ring holds exactly the last messages, as many as fit, oldest first |
| Memlogd.ListenerGuarantee | pkg/memlogd/cmd/memlogd/main.go:75-141 | in every interleaving what a listener got and has queued is in order, without repetition, from its snapshot if it dumps and from later messages if it follows; the channel stays within capacity, is closed exactly after a dump-only query's dump, and is never sent on after that |
| Memlogd.ExecInv | pkg/memlogd/cmd/memlogd/main.go:75-141 | every interleaving of messages, tests for errors, sends to single listeners, queries, dump sends, deliveries and connection errors keeps the invariant of ring, listeners and channels |
| Memlogd.DumpDelivers | pkg/memlogd/cmd/memlogd/main.go:124-138 | a healthy connection gets at least the oldest messages of the ring that the channel can hold; all of them, and nothing else for a plain dump, when the channel is as large as the ring |
| Memlogd.Conservation | pkg/memlogd/cmd/memlogd/main.go:75-141 | when the handler is idle, what a connection without error asked for is exactly what was written to it, is queued or was dropped, and nothing is in two of these |
| Memlogd.OfferedOrDropped | pkg/memlogd/cmd/memlogd/main.go:98-134 | in every state an open channel takes what it is offered if it has room, and only what is offered to a full channel is dropped |
| Memlogd.RoomyDropsNothing | pkg/memlogd/cmd/memlogd/main.go:98-134 | over a whole run nothing is dropped for a connection whose channel had room whenever it was offered something |
| Memlogd.TakenWhenIdle | pkg/memlogd/cmd/memlogd/main.go:80-123 | a message is logged and a query opens a connection of its mode from then on, both only between two other pieces of work |
| Memlogd.DrainWrites | pkg/memlogd/cmd/memlogd/main.go:63-73 | a goroutine writes the message that has waited longest, or fails to and has an error from then on |
| Memlogd.FollowerMissesNothing | pkg/memlogd/cmd/memlogd/main.go:89-103 | a follower without error whose channel had room whenever it was offered something has been sent the ring as it was if it asked for a dump, and then every message logged since it asked, in order |
| Memlogd.FailedAreDropped | pkg/memlogd/cmd/memlogd/main.go:91-110 | whatever happens meanwhile, a listener that had an error when a message was taken is off the list when the handler is through with it, and for good, and followers without error are on it |
| Memlogd.HandlerProgresses | pkg/memlogd/cmd/memlogd/main.go:91-138 | a busy handler always has a next step that brings it nearer to being idle, and goroutines never set it back |
| Memlogd.Ring.Put | pkg/memlogd/cmd/memlogd/main.go:85-87 | writing a slot and stepping on keeps the last messages |
| Memlogd.Ring.Do | pkg/memlogd/cmd/memlogd/main.go:126-134 | the circle from the current slot visits the contents oldest first |
| Memlogd.Handler.TakeLog | pkg/memlogd/cmd/memlogd/main.go:82-110 | with goroutines running between any two of its steps, the code for a message makes the steps of the state machine and keeps the invariant |
| Memlogd.Handler.OfferAll | pkg/memlogd/cmd/memlogd/main.go:91-103 | the loop tests and tells every listener as the state machine does, one at a time, and collects those found with an error |
| Memlogd.Handler.RemoveAll | pkg/memlogd/cmd/memlogd/main.go:104-110 | the collected listeners are removed, the others stay in order |
| Memlogd.Handler.TakeQuery | pkg/memlogd/cmd/memlogd/main.go:112-139 | with goroutines running between any two of its steps, a query registers, dumps and closes as the state machine does and keeps the invariant |
| Memlogd.Handler.Dump | pkg/memlogd/cmd/memlogd/main.go:124-135 | the loop offers the ring entries in order as the state machine does |
| LineReader.ReadLog | pkg/memlogd/cmd/memlogd/main.go:198-229 | the loops produce one message per line, the line's first bytes |
| LineReader.FinishLine | pkg/memlogd/cmd/memlogd/main.go:206-215 | the inner loop stops growing the buffer once it is long enough, and still agrees with the whole line up to the maximal length |
| LineReader.LinesOfReads | pkg/memlogd/cmd/memlogd/main.go:202-219 | the chunks of lines, however cut, are put together to those lines |
| LineReader.AnyCutSameLog | pkg/memlogd/cmd/memlogd/main.go:202-219 | for every way of cutting lines into chunks the messages are the first `maxLineLen` bytes of each line, in order |
| LineReader.ErrorEndsLine | pkg/memlogd/cmd/memlogd/main.go:207-219 | a read error inside a line ends that line there and reading goes on; one where a line should begin ends the log |
| StopSchedule.ParseSchedule | projects/selinux/init/start-stop-daemon.c:420-476 | accepts exactly the well-formed schedules, never writes outside the array, fills it completely, and leaves the compiled form in it |
| StopSchedule.CountSlashes | projects/selinux/init/start-stop-daemon.c:427-430 | counting slashes gives the number of items |
| StopSchedule.CutItem | projects/selinux/init/start-stop-daemon.c:450-457 | cutting at the first slash takes the first item and leaves the others |
| StopSchedule.ParseList | projects/selinux/init/start-stop-daemon.c:446-475 | the loop over items fills every place of the array with the compiled form, or fails exactly when an item is too long or malformed or `forever` is repeated |
| StopSchedule.ProgramsAreAccepted | projects/selinux/init/start-stop-daemon.c:420-476 | a schedule that is accepted has at most one `forever` and no goto of its own |
| StopSchedule.CompiledItem | projects/selinux/init/start-stop-daemon.c:462-473 | position by position, the compiled array holds the items without `forever`, then the goto to where it stood |
| StopSchedule.ItemValuesFit | projects/selinux/init/start-stop-daemon.c:370-418 | timeouts and signal numbers are non-negative and fit an int |
| StopSchedule.TimeoutIff | projects/selinux/init/start-stop-daemon.c:402-412 | a timeout is exactly a non-empty text of digits for a number that fits an int |
| StopSchedule.NumbersReadBack | projects/selinux/init/start-stop-daemon.c:370-418 | a number written in decimal is read back as a timeout, and with a hyphen as a signal |
| StopSchedule.SignedNumbers | projects/selinux/init/start-stop-daemon.c:370-383 | a plus changes nothing, a minus wraps around in 64 bits before the value must fit an int |
| StopSchedule.SignalsByName | projects/selinux/init/start-stop-daemon.c:348-399 | TERM, KILL, HUP and INT are read as their numbers, with or without a hyphen |
| StopSchedule.ScheduleReadsBack | projects/selinux/init/start-stop-daemon.c:446-475 | every schedule of at least two items with at most one `forever` is read back as it is written |
| StopSchedule.BadPartSpoils | projects/selinux/init/start-stop-daemon.c:452-465 | a part of 20 characters or more, a part that is no item, or a second `forever` spoils the whole |
| StopSchedule.LoneItem | projects/selinux/init/start-stop-daemon.c:435-445 | a lone timeout stands for signal, wait, SIGKILL, wait, and no other lone item is accepted |
| StopSchedule.RunStopSchedule | projects/selinux/init/start-stop-daemon.c:812-914 | the interpreter's loop, given for each turn what a signal reaches or what a wait sees and when, runs the machine, every timeout through the polling loop |
| StopSchedule.ExecInv | projects/selinux/init/start-stop-daemon.c:812-914 | every run, whatever is found, keeps position, trace and exit status in step with the schedule |
| StopSchedule.TraceFollowsSchedule | projects/selinux/init/start-stop-daemon.c:815-898 | whatever is found, the items carried out are those that the schedule asks for, in order |
| StopSchedule.NthRepeats | projects/selinux/init/start-stop-daemon.c:462-473 | what follows `forever` comes round without end |
| StopSchedule.NthMeans | projects/selinux/init/start-stop-daemon.c:815-898 | what a schedule asks for, in full: straight through, and for a/forever/b after a the items of b round and round |
| StopSchedule.ForeverGoesOn | projects/selinux/init/start-stop-daemon.c:821-823 | while processes stay alive an endless schedule goes on, carrying out an item at least every second turn |
| StopSchedule.StraightThrough | projects/selinux/init/start-stop-daemon.c:815-904 | without `forever`, while processes stay alive, every item is carried out once and then the program gives up |
| StopSchedule.TrailingForeverHangs | projects/selinux/init/start-stop-daemon.c:821-823 | a schedule that ends in `forever` rests on its own goto |
| StopSchedule.StopOutcome | projects/selinux/init/start-stop-daemon.c:815-914 | what each exit status implies about the signals and about every single look; status 2 means that every look that was made found processes, and with `forever` never happens |
| StopSchedule.TurnSees | projects/selinux/init/start-stop-daemon.c:825-870 | the trace tells what each signal reached and each look found, and finding nothing left ends the run |
| StopSchedule.TimeoutLasts | projects/selinux/init/start-stop-daemon.c:855-898 | a timeout of v seconds that the schedule goes on after took at least v seconds |
| StopSchedule.LooksWithinBudget | projects/selinux/init/start-stop-daemon.c:815-898 | with a clock that does not go back and full sleeps, a run makes at most one look per signal and 50 v + 1 per timeout of v seconds that it began |
| StopSchedule.RunLooksBound | projects/selinux/init/start-stop-daemon.c:815-898 | without `forever` that bounds the looks of the whole run by the schedule |
| StopSchedule.WaitMeans | projects/selinux/init/start-stop-daemon.c:855-889 | a wait ends in all gone exactly at its first look that finds nothing |
| Polling.TvCalcExact | projects/selinux/init/start-stop-daemon.c:150-162 | the macro's result is normalised and exactly the scaled difference in microseconds |
| Polling.SleepExact | projects/selinux/init/start-stop-daemon.c:872-883 | a sleep is the ratio times the look, cut to the time left, at least 20 ms |
| Polling.PollBound | projects/selinux/init/start-stop-daemon.c:855-889 | with a clock that does not go back and full sleeps a timeout of v seconds makes at most 50 v + 1 looks |
| Polling.WaitLasts | projects/selinux/init/start-stop-daemon.c:855-870 | a wait of v seconds expires only at a clock reading v seconds after its start, and finds everything gone only in a look begun before |
| Polling.LaterIsMicros | projects/selinux/init/start-stop-daemon.c:860-870 | the comparison of normalised times is that of microseconds |
| Polling.LooksAreSpaced | projects/selinux/init/start-stop-daemon.c:858-889 | each look begins at least 20 ms after the one before |
| Polling.WatchMeans | projects/selinux/init/start-stop-daemon.c:858-870 | exactly what each end of a wait says about every look made |
| Polling.Wait | projects/selinux/init/start-stop-daemon.c:855-889 | the loop comes to that end, counted from its start and its seconds, with the sleeps computed with ratios 2, 3, ... 10 |
| LogRotate.RunKeepsTheEnd | pkg/logwrite/logwrite.go:158-168 | after any run of lines and failed writes, with any limits, the files, oldest first, are the end of everything written, at most the allowed number are rotated, and the current file is within its limit or empty after a line |
| LogRotate.WithinLimitNothingMoves | pkg/logwrite/logwrite.go:158-168 | a line that leaves the file within its limit is only appended |
| LogRotate.AboveLimitRotates | pkg/logwrite/logwrite.go:80-109 | a line that does not ends the newest rotated file, every older one moves up, and a new file begins |
| LogRotate.BrokenNothingMoves | pkg/logwrite/logwrite.go:158-165 | a failed write leaves the bytes that got through and moves nothing |
| LogRotate.RotateSuffix | pkg/logwrite/logwrite.go:84-101 | a rotation drops at most the oldest file, and nothing while there is room |
| LogRotate.HandleSuffix | pkg/logwrite/logwrite.go:158-168 | one line or failed write keeps the files the end of everything written |
| LogRotate.RotateKeepsTheEndIff | pkg/logwrite/logwrite.go:84-101 | the exact condition for a rotation to leave the end of what was there |
| LogRotate.TooManyFiles | pkg/logwrite/logwrite.go:84-101 | for every number of files above the limit, contents of which the newer part is lost and the older stays |
| LogRotate.LogFile.Write | pkg/logwrite/logwrite.go:65-72 | appends to the current file, and the byte count stays its length |
| LogRotate.LogFile.RotateFiles | pkg/logwrite/logwrite.go:80-109 | the descending renames shift every file one place and leave contiguous numbers and an empty current file |
| LogRotate.LogFile.HandleLine | pkg/logwrite/logwrite.go:158-168 | writes and rotates as specified; the byte count is the length of the current file and within the limit, or 0 |
| LogRotate.LogFile.HandleBroken | pkg/logwrite/logwrite.go:158-165 | a failed write leaves its part, and reopening counts the bytes that are there |
| LogRotate.LogFile.constructor | pkg/logwrite/logwrite.go:46-62 | opening an existing log continues it at its size |
| BootpFilter.FilterAccepts | projects/miragesdk/src/dhcp-client/dhcp.c:62-81 | on every packet of any length the program returns the whole packet for an unfragmented IPv4 UDP datagram to port 68, located through the IP header length (section 3.1 of RFC 791, RFC 768, section 4.1 of RFC 2131), and 0 otherwise |
| BootpFilter.PortAccepts | projects/miragesdk/src/dhcp-client/dhcp.c:74-80 | from the header-length load on, the destination port at the offset that the IP header states decides |
| BootpFilter.CheckedHalts | projects/miragesdk/src/dhcp-client/dhcp.c:62-81 | every program with forward jumps inside it and a final return halts with 0 or a value that one of its returns states |
| BootpFilter.ProgramIsChecked | projects/miragesdk/src/dhcp-client/dhcp.c:62-81 | the filter is such a program |
| OciConfig.Mounts | src/cmd/linuxkit/moby/config.go:860-933 | the mount list is strictly increasing by destination and holds exactly the last writer for each destination in the order defaults, tmpfs, binds, mounts; or the first error |
| OciConfig.YamlOverridesMounts | src/cmd/linuxkit/moby/config.go:590-659 | what yaml states overrides the label, whose values do not matter then |
| OciConfig.LabelCountsForMounts | src/cmd/linuxkit/moby/config.go:590-659 | where yaml states nothing the label counts, and with neither there are the defaults |
| OciConfig.BindsAreAdded | src/cmd/linuxkit/moby/config.go:612-637 | binds that yaml adds follow those of the label, repetitions included |
| OciConfig.LaterKindWins | src/cmd/linuxkit/moby/config.go:860-924 | for a destination an explicit mount beats a bind, a bind a tmpfs and that a default |
| OciConfig.WritesAreKinds | src/cmd/linuxkit/moby/config.go:860-924 | the four kinds are written in that order, from yaml or else from the label |
| OciConfig.EachMeans | src/cmd/linuxkit/moby/config.go:867-924 | stated mounts are taken one for one, or the first that is refused is the error |
| OciConfig.DefaultsAre | src/cmd/linuxkit/moby/config.go:847-866 | the default mounts, with /dev and /sys read-only exactly if the root is |
| OciConfig.AddEach | src/cmd/linuxkit/moby/config.go:867-924 | each loop over tmpfs, binds or mounts enters its mounts in the table in order, or stops at the first error |
| OciConfig.DefaultTable | src/cmd/linuxkit/moby/config.go:860-866 | the default mounts as a table |
| OciConfig.SortedValues | src/cmd/linuxkit/moby/config.go:925-933 | from the table in any order, the sorted list of last writers |
| OciConfig.TableIsLastWriters | src/cmd/linuxkit/moby/config.go:860-924 | the table holds a mount exactly when it was the last written for its destination |
| OciConfig.MountListUnique | src/cmd/linuxkit/moby/config.go:925-933 | there is only one such list, whatever order the map is walked in |
| OciConfig.ParentsFirst | src/cmd/linuxkit/moby/config.go:925-933 | a destination that is a proper prefix of another comes first |
| OciConfig.BindReadsBack | src/cmd/linuxkit/moby/config.go:879-895 | source, destination and options of a bind are read as written, with their defaults |
| OciConfig.TmpfsReadsBack | src/cmd/linuxkit/moby/config.go:867-878 | destination and options of a tmpfs are read as written |
| OciConfig.ExplicitMountCompletes | src/cmd/linuxkit/moby/config.go:896-924 | an explicit mount keeps what is stated; how a missing type, source or destination is completed; and exactly when it is refused |
| OciConfig.Caps | src/cmd/linuxkit/moby/config.go:983-1024 | accepted exactly when all are known; bounding is the sorted union without repetition of effective and ambient, and is what is inheritable and permitted |
| OciConfig.NoneAndAll | src/cmd/linuxkit/moby/config.go:990-997 | a single "none" or "all", in either case, stands for no or for every capability, and other lists for themselves |
| OciConfig.CapabilitiesFrom | src/cmd/linuxkit/moby/config.go:988-1011 | capabilities are those of yaml if stated, else those of the label followed by those that yaml adds |
| OciConfig.CheckCaps | src/cmd/linuxkit/moby/config.go:984-1017 | accepted exactly when all are known, with the union as result; the error names an unknown one |
| OciConfig.SortedSet | src/cmd/linuxkit/moby/config.go:1018-1023 | the members of a set in strictly ascending order |

## Left out

- Cloud back ends, metadata providers, hypervisor launchers and user interfaces: clients of services that are not part of this model.
- Option parsing, process discovery, fork and exec in start-stop-daemon: what looking for processes finds is an input; a run without a schedule, which is one look, would only add an easy member.
- The apk-aware tar writer and the parsing of fstab-style mount options: each is one fold over a list and would only add easy members.
- Tar export restricted to platforms, and validation of images: both use a platform that may be absent.
- Goroutines that share one provider: `Lock` returns at once when the provider holds the lock and any `Unlock` releases it, so there is no exclusion between them; each process has one goroutine here.
- IndexWrite.IndexCache.Write: sequential; the code reads the root index before it takes the lock, so concurrent updates of one name can be lost, which is not modelled.
- CacheProgress.EveryoneCanFinishIff: a holder whose remaining calls end with the lock is left out, except when it has finished (`KeptLockBlocks`); every function of the provider that takes the lock defers giving it back.
- CacheLock.RootIsSerial: a process that dies between removing and appending is not modelled, nor are failing file writes.
- Memlogd.ListenerGuarantee: an unbuffered channel, which hands over only to a waiting reader, is not modelled; capacity 0 drops everything.
- Polling.PollBound, StopSchedule.LooksWithinBudget: interrupted sleeps and a clock set back are excluded by hypothesis, as is overflow of a 64-bit time.
- LogRotate.RunKeepsTheEnd: a rename that fails midway through a rotation is not modelled; files of different sources are independent.
- RootIndex.Provider.DescriptorWrite: the annotation is also added to the caller's map in the code; that sharing appears only where it shows, in `ImageTar.Cache.RegisterAll`.
- OciConfig.Mounts: `sort.Slice` is a sort by insertion here; only that the result is sorted and holds the same entries is used. Namespaces, rlimits, users and devices of the configuration are not part of this model.
- Computing hashes, JSON, YAML and schema validation, time formatting.
