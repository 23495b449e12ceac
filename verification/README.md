# A Dafny model of oci-image-copy

oci-image-copy moves container images between a content-addressed, write-once store and
containers-storage, through a download cache that several processes share. This project models its
logic in Dafny and proves what that logic promises.

Every theorem holds for each hash function, each JSON decoder and each compressor: they are parameters.
Collision-freedom, `decode(encode(x)) == x` and `decompress(zstd(x)) == x` are hypotheses, stated only
where a claim needs them. One digest algorithm is modelled, the canonical one.

| files | what they model |
|---|---|
| `Content`, `ImageModel` | digests, descriptors, manifests, configs, platforms, create-if-absent |
| `BlobProtocol`, `BlobSafety`, `BlobNoLock` | the blob cache as a machine: inodes, a directory, a lock table, one program counter per process, crashes anywhere |
| `BlobCache`, `BlobLoop`, `BlobFetch`, `BlobPut` | Fetch with its download loop and retry, and Put, as methods of one process; the loop, the whole Fetch and the whole Put as runs of the machine |
| `StoreProtocol`, `StoreSafety`, `BareManifests` | commits and uploads by any number of processes, one step per backend call, with failures, lost answers and crashes; closure of leaves and of all blobs |
| `Store` | Commit and PutBlob as methods, proved equal to the machine run by one process alone |
| `FsDir`, `FsCreate` | the file system backend: lstat, exclusive temporary file, write, verify, hard link, remove; a whole Create as a run of it |
| `StoreOnFiles` | the store machine over that backend, one system call at a time, proved to be the store machine |
| `LayerIds`, `Pull`, `Push`, `RoundTrip` | chain IDs, pulling into containers-storage, rebuilding a manifest for a push, and both in sequence |
| `Paths`, `LeafPath`, `EntryPaths`, `Listing`, `MarkerFiles` | path.Join and path.Clean, the leaf path codec, the paths of store entries, Walk and DiffIDBlobs over a listing, when marker files are the markers |
| `Walks` | blob lists, known descriptors and nested search over the documents of an image layout |
| `Errors`, `Planning` | the error tree, plans and the uploads that follow from them |
| `PushProtocol`, `PushInvariant`, `PushSafety`, `PushClosure` | a push as a machine over the store machine: parallel workers, the semaphore, the commits; what each step keeps and what whole runs guarantee; closure all along with one worker |
| `Transfer` | planning and Push as methods that run that machine |
| `CopyResult`, `CopyAccount`, `CopyOutcome`, `Copy` | result rows, attribution of errors to rows, what each row says, a push copy from start to end |

`dafny verify dfyconfig.toml` checks everything.

## What the model shows about the code

- **The no-op lock is not covered by the final digest check.** blobcache/lock_other.go:5-8 says the digest
  check catches a collision. The digest is taken over the bytes a process reads, not over the file, so
  a second process can rewrite the file after it was hashed. `BlobNoLock.NoOpLockBreaksIntegrity` gives a
  schedule, for any two contents the hash tells apart, that leaves the wrong bytes under blobs/.
  `BlobNoLock.IntegrityNeedsTheLock` is the exact condition: every reachable state keeps the blobs verified
  if and only if the lock is the unix one or the hash tells no two contents apart.
- **Closure holds for leaves, not for all of shared/blobs** (store/store.go:10, store/store.go:334-335). A
  push uploads in parallel, so a manifest blob can be stored without its layers, and Resolve by digest
  answers with it: `StoreSafety.BareManifestIsNotClosed`. The exact condition: all stored manifests keep their
  config and layers all along a run if and only if no call of it stores a manifest before its parts, which an
  uploader can check before it calls (`BareManifests.RunKeepsBareClosed`, `BareManifests.PutKeepsBareClosed`).
  A push may break it for a while; the manifest of every entry none of whose uploads failed has all its parts
  in the end (`PushSafety.UploadedIsClosed`). With concurrency one it breaks it at no moment: blobs go up
  dependencies first, so a push cut short anywhere leaves no manifest without its parts, unless an upload failed
  (`PushClosure.SequentialPushKeepsClosed`).
- **A push may rewrite a manifest none of whose layer digests changed.** The stored manifest is reused
  exactly when every listed digest is not the layer's own diffID and its blob was in the cache or in the
  destination before the call; otherwise the bytes are the encoding of the rebuilt manifest
  (`Push.PushSource.Resolve`). When a fresh export happens to reproduce the listed digest, the manifest is
  written anew (`Push.ExportReproducesListed`).
- **Leaf paths are invertible exactly when no platform component is "." or ".."**: ParsePlatform accepts
  such components, path.Join then removes them (`LeafPath.LeafRoundTrip` is an equivalence).
- **record keeps every leaf of an error exactly when no leaf wraps an entry failure** in another error;
  otherwise the wrapping, and any second failure in it, is dropped (`CopyResult.RecordConserves`). Nothing
  a push copy produces is of that kind.
- **A platform given twice breaks "every row without an error names a committed leaf".** record attaches
  every failure to the first row of a request (`CopyResult.RepeatedRowGetsNothing`), so a request made twice
  that its source does not resolve leaves a row with neither an error nor a manifest
  (`CopyAccount.RepeatLeavesEmptyRow`). The statement holds however a copy goes if and only if the requests
  are distinct (`CopyAccount.AlwaysDoneIffDistinct`), which is if and only if the platforms are
  (`CopyAccount.DistinctRequests`). Row by row: the first row of a request always keeps it, the others follow
  the first (`CopyAccount.FirstRowIsDone`, `CopyAccount.LaterRow`, `CopyAccount.RowsFollowTheFirst`).
- **A malformed diffID in one image's config can mislead DiffIDBlobs about another diffID.** Commit does not
  validate the diffIDs of a config (store/store.go:239-247), and path.Join cleans the marker's path. A diffID
  "sha256:x/../" followed by the hex of D leaves a marker file that reads as D's
  (`MarkerFiles.MalformedDiffIDMisleads`). DiffIDBlobs(D) returns exactly the blobs marked for D if and only if
  every blob with a marker in D's directory, whichever diffID's it is, is marked for D
  (`MarkerFiles.DiffIDBlobsAreTheMarkers`). A commit keeps that so for all diffIDs if and only if each valid
  diffID whose directory one of its markers will lie in is already marked for that layer or is in the same
  config for it, which the committer can read off config and store (`MarkerFiles.CommitKeepsCover`). Valid
  diffIDs are enough, and a malformed one that shares no valid diffID's directory does no harm. Walk and the
  files of leaves are not affected.
- **One top layer ID can belong to two images.** Under a collision-free hash that is so exactly when one is the
  other with its first layer replaced by a stack whose ID is that layer's diffID (`LayerIds.ChainIdsEqualIff`).

## Model

| member | source | states |
|---|---|---|
| BlobProtocol.StepKeepsInv | blobcache/blobcache.go:145-273 | the invariant that names, locks, verified blobs and each process's view of its file agree survives every step of any process: a system call, a failure or a crash |
| BlobProtocol.ActIsGood | blobcache/blobcache.go:145-318 | each step of Fetch and Put touches only files and names the process owns, and is true to what the process remembers |
| BlobProtocol.GoodKeepsInv | blobcache/blobcache.go:145-318 | any such well-behaved effect, whoever performs it, keeps the whole invariant |
| BlobProtocol.WaitingIsGood | blobcache/lock_unix.go:13-20 | the exclusive lock is granted only when no other open file holds it |
| BlobProtocol.WritingIsGood | blobcache/blobcache.go:195-223 | in the loop file length equals `done`, `done` never passes the size, and the digester was fed exactly the file's bytes, also between partial writes |
| BlobSafety.CriticalHoldsTheFile | blobcache/blobcache.go:235-261 | in every reachable state a process past the SameFile check holds the only lock on the file now at the partial name |
| BlobSafety.OneWriter | blobcache/blobcache.go:155-161 | two processes past the check for one digest, or on one inode, are one process |
| BlobSafety.ByNameHitsLockedFile | blobcache/blobcache.go:263-273 | rename and remove go by name and yet always hit the locked file; what a commit moves into blobs/ hashes to its name |
| BlobSafety.SealedForever | blobcache/blobcache.go:267-273 | a committed, replaced or discarded inode is never written again, even by a process that opened it while it was partial |
| BlobSafety.BlobIntegrity | blobcache/blobcache.go:184-232 | whatever bytes sources return and partial files hold, every file under blobs/ hashes to its name, stays there, and its inode never changes |
| BlobSafety.HonestRunsKeepPrefixes | blobcache/blobcache.go:171-223 | with honest sources each partial file stays a byte prefix of its blob through any mix of cancelled, failed and crashed fetches, and none is ever discarded |
| BlobSafety.HonestCommitIsTheBlob | blobcache/blobcache.go:225-232 | then the final digest test succeeds and the file committed is the blob |
| BlobSafety.RemovalIsCounted | blobcache/blobcache.go:235-273 | a partial name leaves the directory only by a commit or discard of the process that holds its lock |
| BlobSafety.ReopensBounded | blobcache/blobcache.go:238-261 | over any run, openLocked reopens at most once per commit or discard by another process |
| BlobFetch.StaleIsReopened | blobcache/blobcache.go:235-261 | a waiter that wakes up with a file no longer at its name does not give up: whatever others do meanwhile, all it can do short of a crash is close the file and open the name again for the same blob |
| BlobFetch.StaleGetsCurrent | blobcache/blobcache.go:235-261 | left alone it then holds the lock of the file that is at the name now, or of a new one, and no longer the stale one's |
| BlobNoLock.NoOpLockBreaksIntegrity | blobcache/lock_other.go:5-11 | with the no-op lock, for any two contents the hash tells apart, a reachable state holds one under the name of the other |
| BlobNoLock.IntegrityNeedsTheLock | blobcache/lock_other.go:5-11 | every reachable state keeps every blob verified if and only if the lock is the unix one or the hash is constant |
| BlobCache.HonestDrainFills | blobcache/blobcache.go:197-223 | against an honest source the loop ends with the whole blob, whatever prefix it started from, in at most one read per missing byte |
| BlobCache.ResumeEqualsFresh | blobcache/blobcache.go:171-223 | a resumed download feeds the digester the same bytes as a fresh one |
| BlobCache.DrainReads | blobcache/blobcache.go:197-223 | the loop is one read after another from the end of what it has, and goes on exactly while answers come without an error, bytes are missing and the context is not done |
| BlobCache.LastReplyDecides | blobcache/blobcache.go:211-233 | an attempt ends as its last answer says: a source that ends early is a mismatch and the partial file is discarded, any other error keeps it, as a done context does, and with all bytes read the digest decides between commit and discard |
| BlobLoop.LoopIsDrain | blobcache/blobcache.go:195-223 | the loop's function is a run of the machine: read, write and check steps of that process alone end with its file, its digester and its place in the program as the function says, nothing else touched |
| BlobFetch.FetchIsARun | blobcache/blobcache.go:115-273 | the whole Fetch of a process left to itself, from opening the partial file to closing it, both attempts, is a run of the machine: partial file and blob end as the method's function says, no other file, lock or process changes |
| BlobPut.PutIsARun | blobcache/blobcache.go:276-318 | the whole Put of a process left to itself is a run of the machine: the data ends under its own digest unless that blob was there, no scratch file stays, no other file, lock or process changes |
| BlobCache.Cache.Stream | blobcache/blobcache.go:195-223 | the loop computes exactly that function of the source, keeps the partial file equal to what was hashed, and reads only between the saved length and the size |
| BlobCache.Cache.FetchOnce | blobcache/blobcache.go:145-233 | one attempt: the outcome, both directories and every read as determined by the source; a partial file longer than the blob starts over |
| BlobCache.Cache.Settle | blobcache/blobcache.go:211-232 | a short or mismatching download discards the partial file, a match commits it, cancellation and other errors keep it |
| BlobCache.Cache.Fetch | blobcache/blobcache.go:115-142 | an honest source and no cancellation commit the right blob from any partial content of any length in at most two attempts; from a good prefix in one, without reading a saved byte again; error, reads, partial file and blob are one function of what was there and of the source |
| BlobCache.Cache.Put | blobcache/blobcache.go:276-318 | content is stored under its own digest, an existing blob is left as it is, a failing reader changes nothing |
| StoreProtocol.StepKeepsInv | store/store.go:193-285 | leaf closure, honest markers and verified blobs survive every backend call, failure, lost answer and crash of any process |
| StoreProtocol.CallKeepsStore | store/store.go:130-142 | one backend call of PutBlob or Commit keeps every leaf closed, every marker honest and every blob verified |
| StoreProtocol.CallAdds | store/store.go:220-283 | a call can add only a verified blob, an empty-object marker of the pair just checked, the layout document of the leaf at work, or the checked index.json |
| StoreProtocol.CallGrows | store/store.go:287-293 | no call changes or removes an entry |
| StoreSafety.LeavesAreClosed | store/store.go:182-285 | in every reachable state an index.json names a stored manifest matching its digest, with stored config and layers, none of the four non-distributable types, a platform that agrees with the config's, an oci-layout with the layout document beside it and an empty-object marker per pair |
| StoreSafety.MarkersAreHonest | store/store.go:237-247 | every diff_ids marker's blob is stored and some stored manifest and config pair the two at one index |
| StoreSafety.WinnerStays | store/store.go:249-284 | after Commit returned nil its leaf holds its manifest then and in every later state |
| StoreSafety.OneWinner | store/store.go:264-284 | two commits of one leaf that both returned nil committed the same digest |
| StoreSafety.LoserConflicts | store/store.go:264-284 | a commit of another digest that reaches the index step ends in ErrConflict and changes nothing |
| StoreSafety.ResolveFindsWinner | store/store.go:336-355 | Resolve returns a committed leaf's manifest in every later state |
| StoreSafety.UploadStays | store/store.go:110-142 | after PutBlob returned nil the blob is stored with bytes that hash to the digest, then and in every later state |
| StoreSafety.BareManifestIsNotClosed | store/store.go:333-355 | one upload reaches a state where Resolve by digest answers with a manifest none of whose layers is stored |
| BareManifests.CallKeepsBareClosed | store/store.go:129-142 | with all stored manifests closed, one backend call keeps them so if and only if it does not store a manifest whose config or layers are absent |
| BareManifests.RunKeepsBareClosed | store/store.go:129-285 | over any run of any processes: closed all along if and only if no call stores a manifest before its parts |
| BareManifests.PutKeepsBareClosed | store/store.go:129-142 | a whole PutBlob keeps all manifests closed exactly under that condition on descriptor, body and store |
| BareManifests.ResolvedIsClosed | store/store.go:336-355 | in such a reachable state whatever Resolve answers with, leaf or bare, has its config and layers stored |
| Store.SoloCommit | store/store.go:193-285 | Commit left alone: nil if and only if all it names is stored, allowed and of the platform and the leaf is absent or already holds the digest; it then has added the markers, the layout and the index and nothing else |
| Store.SoloErrors | store/store.go:193-285 | each error of a commit left alone names the first check that failed, in the code's order |
| Store.SoloWrites | store/store.go:237-262 | every entry a commit left alone adds has the bytes of its kind: the layout document, the encoded index, an empty object |
| Store.SoloPut | store/store.go:129-142 | PutBlob returns nil if and only if the digest is well formed and the blob was there or the body matches digest and size; nothing else changes |
| Store.SoloKeepsHealthy | store/store.go:193-285 | a whole call keeps the store closed and its markers honest |
| Store.Store.Commit | store/store.go:193-285 | the method, with its checks in the code's order, computes exactly the machine's commit: same entries, same error; what it adds are the layout document, the index of the job and empty-object markers |
| Store.Store.PutBlob | store/store.go:130-142 | the method computes exactly the machine's upload |
| Store.Store.WriteMarkers | store/store.go:239-247 | one create-if-absent per pair, in order |
| Store.Store.WriteLeaf | store/store.go:249-284 | layout document first, index.json last, an existing index decides between a no-op and a conflict |
| FsDir.StepKeepsInv | ocidir/fsdir/store.go:56-111 | a file being written or linked has its temporary name only and holds exactly the bytes read so far |
| FsDir.LinkRefinesCreate | ocidir/fsdir/store.go:75-88 | linking a verified file is the atomic create-if-absent of the visible entries, with the same answer |
| FsDir.LstatRefinesCreate | ocidir/fsdir/store.go:56-69 | finding the name at the first look is that same operation answering that the name exists |
| FsDir.StepRefines | ocidir/fsdir/store.go:56-111 | each step of each process is create-if-absent of one verified entry or changes nothing visible |
| FsDir.VisibleForever | ocidir/fsdir/store.go:54-89 | visible content never changes and never goes away, in any run with concurrent creators and crashes |
| FsDir.VisibleIsVerified | ocidir/fsdir/store.go:54-89 | what became visible during a run was linked by one of its creators of that name, and has, then and ever after, the length and the digest of its job; from a state without processes that job was given to it earlier in the run |
| FsDir.RunIsItsCreations | ocidir/fsdir/store.go:54-111 | any run, crashes included, does to the visible entries what its successful links do as create-if-absent calls one after another |
| FsCreate.CreateIsARun | ocidir/fsdir/store.go:54-111 | a Create left to itself whose calls get through is create-if-absent of the visible entries, with the same answer, and leaves no temporary file, refused or not |
| FsDir.OneCreatorWins | ocidir/fsdir/store.go:54-89 | exactly one creator wins a name that becomes visible, none wins one that already was |
| FsDir.ListIsTheView | ocidir/fsdir/store.go:120-155 | List's filter yields exactly the visible entries, and no temporary file of a creator at work |
| StoreOnFiles.StepSimulates | ocidir/fsdir/store.go:54-111 | each system call of a store process on the file system is one step of the store over an atomic backend, or none |
| StoreOnFiles.FilesAreAStore | store/store.go:287-293 | so what a directory holds at any moment of any run is a reachable state of the store |
| StoreOnFiles.LeafFilesAreClosed | store/store.go:182-285 | whenever a leaf's index.json is visible in the directory so are its manifest, config and layers with bytes that hash to their digests, its layout file with the layout document and its markers, each an empty object, wherever creators are or crashed |
| StoreOnFiles.TreeIsDistinct | store/store.go:74-92 | the store's own paths of well-formed names satisfy what that needs: distinct files, none of them temporary |
| LayerIds.ComputeChainIds | cstorage/cstorage.go:86-98 | the loop fills the array with the ID of every prefix |
| LayerIds.ChainIdsGrow | cstorage/cstorage.go:86-98 | the first ID is the first diffID itself, each next one the hash of the ID below, a plus sign and the diffID |
| LayerIds.ChainIdsEqualIff | cstorage/cstorage.go:88-98 | under a collision-free hash two sequences of valid diffIDs have one last ID if and only if they are equal or one is the other with its first layer replaced by a stack whose ID is that layer's encoded diffID |
| LayerIds.ChainIdInjective | cstorage/cstorage.go:88-98 | under a collision-free hash equal last IDs mean equal diffID sequences, given that no first diffID is the hash of an "x+y" text |
| LayerIds.ChainIdClash | cstorage/cstorage.go:88-98 | without that condition a one-layer and a two-layer image share their last ID |
| Pull.AddKeepsChains | cstorage/pull.go:263-302 | adding the next layer on top of its chain keeps every chain ID truthful for every other sequence |
| Pull.CarriesUnique | cstorage/push.go:209-221 | a layer determines the diffIDs down its parent links |
| Pull.Storage.PlanEntry | cstorage/pull.go:59-97 | Present followed by Missing is the layer list, Present is the longest present prefix and carries the right content, the first Missing layer is absent |
| Pull.Storage.ApplyLayer | cstorage/pull.go:263-302 | a layer is added only with the diffID asked for; an ID that appeared meanwhile is reused when its diffID agrees; every failure leaves the layers as they were |
| Pull.Storage.FetchAll | cstorage/pull.go:232-261 | on success every missing blob is cached |
| Pull.Storage.ApplyAll | cstorage/pull.go:210-229 | while others add layers between the calls, the last parent carries exactly the config's diffIDs, and with blobs and reports in order no step fails |
| Pull.Storage.WriteImage | cstorage/pull.go:304-364 | the record is created or extended if and only if absent or of the same top layer; it has the names it had and the entry's; no other record changes |
| Pull.Storage.PullEntry | cstorage/pull.go:194-230 | refused as a bad image exactly when its documents do not match their digests or do not decode; after success the image's top layer carries exactly the config's diffIDs in order, whatever other pulls add between planning, checking and applying, and its record keeps the names it had; a planned pull in order can only fail over an existing record of that image ID with another top layer, so a new image ID always succeeds |
| Pull.Storage.LayerChain | cstorage/push.go:207-221 | the chain goes from a bottom layer up to the top by parent links and its diffIDs are exactly what the top layer carries |
| Push.PushSource.AsIs | cstorage/push.go:223-253 | the listed blob is used exactly when it is not the diffID itself and in reach; nothing found means neither candidate qualifies |
| Push.PushSource.ByDiffID | cstorage/push.go:312-344 | only a marked blob of the destination with a known compression is used, with its own length and the media type its first bytes tell; nothing found means none qualifies |
| Push.PushSource.ExportZstd | cstorage/push.go:262-296 | succeeds exactly when the layer can be read and still has its diffID; the descriptor is of zstd type with length and digest of the compressed export, which is cached |
| Push.PushSource.Choose | cstorage/push.go:69-90 | whichever way a blob was chosen it is in reach, any bytes with its digest decompress to the layer's diffID, and its descriptor is the listed one, the recorded one, or has the blob's own length and the media type of its compression |
| Push.PushSource.ChooseAll | cstorage/push.go:69-91 | the same at every position; all listed blobs are kept exactly when each is a compressed one in reach before the call |
| Push.PushSource.Resolve | cstorage/push.go:43-128 | config bytes, layer count and each layer's meaning are preserved, all is openable through the returned dir, and the stored manifest is reused byte for byte under that condition; otherwise the bytes encode the rebuilt manifest, with the config's descriptor and layer descriptors as chosen, whose sizes are their blobs' lengths when the listed and recorded ones are |
| Push.ExportReproducesListed | cstorage/push.go:70-111 | equal layer digests are not enough for the manifest to be reused |
| RoundTrip.PlanAndPull | cstorage/pull.go:59-97 | a planned pull of blobs that hold what the config says gives the image those layer IDs; only an existing record of another top layer can stop it |
| RoundTrip.PushThenPull | cstorage/push.go:60-127 | pulling what was pushed gives the same image ID, config bytes and chain IDs, whatever mix of blobs the push chose; the pull is refused only over an existing record of that image ID with another top layer |
| Paths.CleanFromConcat | store/store.go:86-92 | path.Clean works part by part: cleaning a joined path is cleaning its head, then its tail on top |
| LeafPath.ParsePrinted | store/store.go:407-440 | the parser finds the marker behind the repository, tags named _tag or _digest included, and gives back reference and platform |
| LeafPath.LeafRoundTrip | store/store.go:407-440 | for every well-formed reference and every platform with an operating system, an architecture and no slash in any part parseLeaf undoes LeafPath, the tag dropped when a digest is present, if and only if no platform component is "." or ".." |
| LeafPath.LeafPathIs | store/store.go:85-92 | the path written out: image_refs, the repository, _tag or _digest with its parts, the platform's parts |
| LeafPath.LeafPathInjective | store/store.go:85-92 | then two leaf paths are equal if and only if repository, tag or digest, and platform are |
| LeafPath.AcceptedParts | types/platform.go:23-46 | the string of such a platform splits into its parts, two or three of them |
| LeafPath.ParsePlatformIff | types/platform.go:23-37 | on all strings: a platform is parsed exactly from two or three slash-separated parts, none empty, and those are its fields |
| LeafPath.AcceptedIff | types/platform.go:23-46 | a platform's own string parses back to it exactly when operating system and architecture are given and no part has a slash |
| EntryPaths.EntryPathInjective | store/store.go:74-92 | no two blobs, markers, layout files or index files of well-formed names share a path |
| EntryPaths.BlobPathIs | store/store.go:74-79 | a blob's path is shared/blobs, its algorithm and its hex |
| EntryPaths.MarkerPathIs | store/store.go:74-79 | the marker of valid digests is at the diffID's directory, then the blob's algorithm and hex |
| EntryPaths.LeafFilesAre | store/store.go:85-92 | layout file and index.json are directly in the leaf's directory |
| EntryPaths.MarkerEndsInBlob | store/store.go:74-79 | a marker's path ends in its blob's algorithm and hex whatever its diffID is: cleaning cannot reach back from the end |
| EntryPaths.LeafFileIsItsOwn | store/store.go:85-92 | the files of a leaf share their path with no other entry, not even with the marker of a malformed diffID |
| EntryPaths.SameMarkerFile | store/store.go:74-79 | any diffID's marker is the file of a valid diffID's marker for the blob if and only if their directories are one path |
| EntryPaths.ClimbingTakesMarker | store/store.go:74-79 | the marker of "x/../" and another diffID's hex has the path of that other diffID's marker |
| Listing.ParseLeafInjective | store/store.go:409-440 | on all strings: two names that parse to one reference and platform are one name |
| Listing.Walk | store/store.go:370-405 | a backend that cannot list is an error; errors of the listing are passed on, what is no leaf is skipped, the rest gives a manifest or an error, in listing order |
| Listing.WalkYieldsNoneTwice | store/store.go:370-405 | whatever else is listed, no reference and platform is yielded twice |
| Listing.WalkYieldsEachLeafOnce | store/store.go:370-405 | in every reachable state, whatever diffIDs its markers have: Walk yields no image twice, each is a committed leaf with the manifest Resolve gives, the only errors are the listing's, and when the listing did not fail every committed leaf comes |
| Listing.BrokenLeafIsReported | store/store.go:385-404 | in any files, the index.json of a leaf is never passed over: it gives its one manifest, or an error |
| Listing.DiffIDBlobs | store/store.go:546-576 | an invalid diffID, a backend that cannot list and a failing listing are errors; otherwise each listed name under the prefix that ends in a valid digest gives that digest |
| Listing.DiffIDBlobsAreTheFiles | store/store.go:546-576 | in every reachable state: each blob once, exactly those for which some marker's file is the diffID's marker file |
| MarkerFiles.FilesAreMarkersIff | store/store.go:74-79 | the marker files of a valid diffID are its markers if and only if each blob with a marker in its directory is marked for it |
| MarkerFiles.DiffIDBlobsAreTheMarkers | store/store.go:546-576 | in every reachable state: each blob once, and exactly the blobs with a marker for the diffID if and only if that holds |
| MarkerFiles.MarkerKeepsCover | store/store.go:237-247 | with that true of every valid diffID, writing one marker keeps it so if and only if every other valid diffID of the same directory is already marked for the blob |
| MarkerFiles.RunKeepsCover | store/store.go:193-285 | over any run: true all along if and only if every marker fits when it is written |
| MarkerFiles.CommitKeepsCover | store/store.go:193-285 | a whole commit keeps it so if and only if it is refused or its config's markers fit the store and each other |
| MarkerFiles.ValidConfigsCover | store/store.go:237-247 | while the stored configs list valid diffIDs it is true in every reachable state |
| MarkerFiles.MarkerFilesAreHonest | store/store.go:237-247 | then a diffID's marker file exists if and only if its marker does |
| MarkerFiles.MalformedDiffIDMisleads | store/store.go:237-247 | a commit of a config with the diffID "x/../" and D's hex succeeds and leaves a file that reads as D's marker for its layer, without there being such a marker |
| Walks.Walker.WalkBlobs | ocidir/helper.go:176-206 | adds the descriptor and its descendants, children before parents, and fails only on an unreadable document |
| Walks.Walker.BlobsFrom | ocidir/helper.go:147-206 | over several roots and shared subtrees the list has no duplicates, is exactly what the roots reach, places each blob after all it refers to, and fails if and only if a reached document is unreadable |
| Walks.Collector.Collect | ocidir/helper.go:236-260 | ends on every finite layout, cycles included, and leaves what it recorded closed under nesting |
| Walks.Collector.CollectAll | ocidir/helper.go:118-145 | knows exactly the digests nested in the roots |
| Walks.FindIsSound | transfer/ocidir.go:57-85 | what find returns has the digest asked for and is nested in the roots |
| Walks.FindIsComplete | transfer/ocidir.go:57-85 | on readable acyclic layouts everything nested is found |
| Walks.FindIffNested | transfer/ocidir.go:57-85 | on readable acyclic layouts find succeeds for exactly the digests nested in the roots |
| Walks.FindAgreesWithCollect | transfer/ocidir.go:69-85 | the set collectDescriptors returns, the digests nested in the roots and the digests find succeeds for are one set |
| Planning.Bytes | transfer/transfer.go:40-53 | the sizes of the first mentions of the missing digests, summed: the very list the uploads are |
| Planning.SumAdds | ociimagecopy/copy.go:278-284 | nothing adds nothing, one descriptor its size, and lists add up |
| Planning.SplitSums | transfer/transfer.go:157-176 | missing and present sizes of a split list add up to the list's |
| Planning.ImageBlobsAre | transfer/transfer.go:84-107 | the blob list is there exactly when the source holds the manifest, and holds its layers, config and manifest and no others |
| Planning.SplitIsInOrder | transfer/transfer.go:84-107 | split in two, in both lists the layers come in the manifest's order before the config and the config before the manifest, which is last |
| Planning.RequestsAt | transfer/transfer.go:126-147 | row i * platforms + j of the requests is reference i for platform j, and there are references * platforms of them |
| Planning.CollectUploads | transfer/transfer.go:195-204 | the uploads are the first mentions of the missing digests |
| Planning.UploadsAreTheMissing | transfer/transfer.go:183-204 | they are exactly the distinct missing digests, once each, each for an entry that lists it and no later than any that does |
| Planning.StoredIsCommittable | transfer/transfer.go:84-107 | once all blobs of an image in order are stored, it passes every check of Commit |
| Planning.SplitDistinct | transfer/transfer.go:157-176 | a list split in two, order kept: each element is in exactly one part |
| PushInvariant.StepKeepsPInv | transfer/transfer.go:183-245 | every step of the loop, a worker, the committer, the context or a stranger keeps: one token per upload in flight, workers where their status says, an upload that ended either failed or left its blob stored, each outcome true of the store |
| PushSafety.NeverMoreThanCapacity | transfer/transfer.go:206-227 | at every point of every run the uploads in flight are as many as the tokens held, at most the concurrency |
| PushSafety.EachUploadStartsOnce | transfer/transfer.go:212-227 | a complete run starts each upload exactly once, in order |
| PushSafety.EveryEntrySettles | transfer/transfer.go:229-245 | each entry of a complete push has a failure that names it or a leaf holding its manifest |
| PushSafety.EveryErrorNamesAnEntry | transfer/transfer.go:212-245 | each leaf of the error carries reference and platform of an entry |
| PushSafety.EntriesInOrderDoNotFail | transfer/transfer.go:178-245 | when the entries of a request are in order and none of the blobs they lacked failed to upload, every error that names it is a cancellation, a conflict or the backend's |
| PushSafety.OnlyUnfitUploadsFail | transfer/transfer.go:247-269 | without failing calls exactly the blobs that the source lacks or that do not match their descriptors fail to upload; the others are stored |
| PushSafety.UploadedIsClosed | transfer/transfer.go:206-227 | after the uploads the manifest of each entry none of whose blobs failed is stored with its config and layers, committed or not |
| PushSafety.CancelledSkips | transfer/transfer.go:229-235 | once the context is done no further commit begins in any run: the one under way may end, every later entry is reported cancelled |
| PushSafety.SkippedIsCancelled | transfer/transfer.go:229-235 | and no entry is passed over unless it is done |
| PushClosure.SequentialPushKeepsClosed | transfer/transfer.go:183-227 | with one worker, entries dependencies first, no failed upload and nobody else storing a manifest before its parts: from a store whose manifests all have their parts, every state of the run keeps that |
| PushSafety.CalmPushCommits | transfer/transfer.go:178-245 | without failing calls and cancellation, images in order: each leaf ends up holding its entry's manifest, or the entry's error is a conflict and the leaf holds another; there are no other errors |
| Transfer.Pusher.Diff | transfer/transfer.go:157-176 | the image's blobs in order, each either missing or present; in both lists layers come before the config and the config before the manifest; the present ones are stored, the missing ones were absent when the call began; with calls that get through only a malformed digest or unreadable manifest fails |
| Transfer.PlannedIsOrderly | transfer/transfer.go:157-176 | a planned entry is what a push with one worker needs exactly when no layer or config of its image reads as a manifest |
| Transfer.Pusher.PlanPush | transfer/transfer.go:109-147 | every request is answered, in order, by the diff of what the source resolves it to or by a failure that names it, for the host's platform when none is given; with calls that get through only requests that cannot be planned fail; an unparsable reference is a failure of its own |
| Transfer.Pusher.UploadAll | transfer/transfer.go:206-227 | the loop with its tokens is a run of the machine that ends every upload, in any interleaving with strangers, and terminates |
| Transfer.Pusher.CommitAll | transfer/transfer.go:229-243 | the loop over the entries, call by call among strangers, completes that run |
| Transfer.Pusher.Push | transfer/transfer.go:183-245 | for any plan and pattern of failures and cancellation the call is a complete run of the machine and its error exactly what that run left: in every state of it at most the concurrency in flight, 4 when not set; each upload started once, in order; each entry with an error that names it or a leaf holding its manifest; each error of an entry; an entry in order that got its blobs only cancelled, in conflict or hit by the backend; the manifest of an entry none of whose uploads failed stored with all its parts; and with one worker and no failed upload no stored manifest without its parts in any state of it |
| Transfer.DiffedIsReady | transfer/transfer.go:157-176 | what Diff returns for an image in order is what Push needs to commit it |
| Store.CallStaysOnTrack | store/store.go:193-285 | a commit whose image passes every check can end only with nil or a conflict, whatever others add between its calls |
| Errors.JoinLeaves | ociimagecopy/copy.go:312-324 | errors.Join appends the leaves that flatten finds |
| Errors.LeavesAreJoined | ociimagecopy/copy.go:312-324 | the leaves of an error are what it joins, however deep, the joins themselves left out |
| Errors.AsEntryFinds | ociimagecopy/copy.go:286-292 | the search for an entry failure succeeds exactly when one is inside, wrapped or joined, however deep, and gives one of those |
| CopyResult.FailureReachesFirstRow | ociimagecopy/copy.go:295-305 | a failure of a request is attached to the first row for it |
| CopyResult.FailureReachesRow | ociimagecopy/copy.go:295-305 | with distinct requests that is the one row for it |
| CopyResult.RepeatedRowGetsNothing | ociimagecopy/copy.go:295-305 | of two rows for one request the second never gets an error |
| CopyResult.KeptIffNoneBuried | ociimagecopy/copy.go:286-310 | what record keeps of the leaves is the leaves if and only if none has an entry failure inside another error |
| CopyResult.RecordConserves | ociimagecopy/copy.go:286-310 | what the rows hold and what is returned is what they held and every leaf, none lost and none twice, exactly under that condition |
| CopyResult.Result.constructor | ociimagecopy/copy.go:251-276 | one row per request in order; no plan entry is claimed twice and a request goes unanswered only when no entry for it is left |
| CopyResult.Result.Record | ociimagecopy/copy.go:286-310 | each row gets, in order, exactly the errors whose first matching row it is; the others are returned; a row that gets none is unchanged |
| CopyResult.Result.Err | ociimagecopy/copy.go:326-334 | the joined error's leaves are those of all rows, and it is nil exactly when no row has an error |
| CopyAccount.FailuresHaveRows | transfer/transfer.go:111-147 | every failure of planning and of pushing names a requested row |
| CopyAccount.FirstRowIsDone | ociimagecopy/copy.go:251-310 | the first row of each request, repeated or not: without an error its leaf holds the row's manifest |
| CopyAccount.LaterRow | ociimagecopy/copy.go:251-310 | a later row of a request never has an error, and names a committed leaf exactly when it claims a plan entry whose leaf holds the entry's manifest |
| CopyAccount.EveryRowClaims | ociimagecopy/copy.go:251-276 | when no request of a kind failed to be planned, each row for it has a plan entry of its own |
| CopyAccount.RowsFollowTheFirst | ociimagecopy/copy.go:251-310 | when the first row of a request has no error, all rows for it name a leaf holding their manifest |
| CopyAccount.RepeatLeavesEmptyRow | ociimagecopy/copy.go:251-310 | a request made twice that no plan entry answers leaves a row with neither an error nor a manifest |
| CopyAccount.AlwaysDoneIffDistinct | ociimagecopy/copy.go:251-310 | every row without an error names a committed leaf, however planning and the push end, if and only if the requests are distinct |
| CopyAccount.DistinctRequests | ociimagecopy/copy.go:228-264 | with the distinct references of parseSet the requests are distinct if and only if the platforms are |
| CopyOutcome.CalmRow | ociimagecopy/copy.go:83-162 | when every call gets through and resolved images are in order, a request succeeds exactly when its source resolves it and its leaf is not taken by another manifest; every row for it then has the manifest's digest |
| CopyOutcome.CalmRepeat | ociimagecopy/copy.go:251-310 | in such a copy a later row names a committed leaf exactly when the first row of its request has no error |
| Copy.ParseSet | ociimagecopy/copy.go:228-249 | refused exactly when empty or unparsable; otherwise one reference per distinct name, none left out |
| Copy.RowsHoldBoth | ociimagecopy/copy.go:121-162 | after both records the rows hold every failure of planning and of the push, none lost and none twice |
| Copy.CopyPush | ociimagecopy/copy.go:83-162 | refused as usage exactly when an image does not parse or none is given, the store untouched; otherwise a row for exactly each reference and platform asked for, the host's when none is, row i * platforms + j for reference i and platform j; each row's manifest is that of the image its source resolves, its missing and present sizes add up to that image's; the errors of the rows and of the result are exactly the planning failures and the leaves of a complete run of the push machine, and the result is nil exactly when no row has an error; a dry run takes no step in the store; after a real copy each row says what the lemmas above promise, repeated platforms included, and when all calls get through every resolvable request whose leaf is free succeeds |

## Left out

- The network, S3, HTTP and registry clients, the command line, configuration, logging, signals, user
  namespaces, versions and progress rendering: only the create-if-absent and open contract of a backend is used.
- JSON, hashing, zstd and tar: uninterpreted functions with the hypotheses named above.
- Digest algorithms other than the canonical one: several readers hash with the canonical one only.
- containers-storage internals: PutLayer, CreateImage and DeleteLayer are opaque. PutLayer reports a diffID; that it
  recomputes it is a hypothesis where a claim needs it, and apply-and-check is one step, as a layer with a wrong
  diffID is deleted again (cstorage/pull.go:270-299).
- Power loss and fsync ordering: crashes are crashes of processes, written bytes stay.
- The cache's lock within one process (blobcache/blobcache.go:105-110): the machine allows every interleaving that
  lock forbids. Inodes are never reused while the machine runs.
- The rely of a pull: other users of containers-storage add layers, images and names and keep chain IDs truthful;
  tools that delete layers during a pull, that store a layer under another layer's ID, or that move a name from one
  image to another, are not modelled.
- Choosing the record to push (cstorage/push.go:132-206), selectPlatform and name matching of an image layout
  (transfer/ocidir.go:87-158), AllImages and walkManifests, leafDir and the single-manifest dir: short searches without
  state. The fallback of a pull through the store (cstorage/pull.go:101-116) and the registry fallback flag of a row.
- BlobCache.Cache.Fetch: covers no I/O error of the local file system and no other process; the machine covers both.
- BlobCache.Cache.Fetch: does not check the size when it finds the blob cached, as the code does not.
- Store.Store.Commit: does not include the leaf's empty blobs directory, and checks neither that a layer
  decompresses to its diffID nor the size in the manifest's descriptor, as the code does not.
- EntryPaths.EntryPathInjective: markers with malformed diffIDs from a config and platforms with "." or ".."
  components have no distinct path; the store machine names entries by structure, not by path.
- Listing.WalkYieldsEachLeafOnce: is stated for leaves whose platforms have no "." or ".." component, as their paths
  do not parse back (`LeafPath.LeafRoundTrip`).
- StoreOnFiles.LeafFilesAreClosed: a body that does not verify counts as a call that failed; entries whose names are not
  well formed, as markers of malformed diffIDs, are not written.
- BlobFetch.FetchIsARun: a process left to itself and a blob that is not cached; the loop and Fetch among other
  processes are the machine's subject.
- A diffID without a colon: a digest is its algorithm and encoded part here. The accessors of the digest type panic on
  such a string, inside Commit.
- Pull.Storage.PullEntry: leaves out that an image resolved through the fallback is first pushed into the source store
  (cstorage/pull.go:201-205), and is stated for well-formed diffIDs whose first one is not the hash of an "x+y" text.
- Walks.Walker.BlobsFrom: is stated for acyclic layouts whose media types are a function of the digest; the code
  recurses without end on a cycle of indexes.
- Transfer.Pusher.Push: progress events are left out. A worker notes its failure and gives its token back in one step.
  Which calls fail and when the context is cancelled is left open, except for a pusher created as calm: it stands for
  a client whose own calls all get through; nothing is assumed of the other clients of the store.
- Planning.Bytes: and the sizes of a row are sums of unbounded integers; the code's wrap at 64 bits.
- Copy.CopyPush: covers the push direction; that a reference parses back from its own string is a hypothesis. The pull
  direction uses the same rows and the same record.
