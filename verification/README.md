# A verified model of hauler's content store

hauler keeps container images, charts and files in an OCI image layout: a directory of blobs named by their
digests, and an `index.json` that lists the roots. This project models the store and the algorithms around it in
Dafny and proves what they promise. `dafny verify dfyconfig.toml` checks everything.

Bytes are sequences, a digest is an algorithm and a hex string, the blob directory is a map from digests to bytes.
The hash, the two JSON decoders, the reference parser and the registry are functions the model is given and never
looks into. What a system call, a registry, a blob's source or a clock answers is a parameter or a choice of each
step, so every theorem covers every failure at every point. Goroutines are sequences of atomic steps, and a run is any interleaving.

| file | what it holds |
|---|---|
| `Sequences`, `Content`, `Graph` | prefixes and slices; blobs, digests, descriptors; the descriptor graph, read by recursion and by paths |
| `Checker` | the memoized integrity checker, as a class, against both readings |
| `BlobWriter`, `BlobProtocol`, `BlobRuns`, `BlobProgress`, `SharedContext` | the blob write protocol: steps, what each step keeps, whole runs, why writes succeed, and two runs that show its limits |
| `Index`, `IndexStore`, `IndexKeys`, `IndexRuns`, `Checkpoint`, `Oci` | keys, loading and saving of the index; its critical sections; what shares a key; whole runs; fsync coalescing; the `OCI` class that refines them |
| `Closure`, `AddingJobs` | concurrent `AddArtifact` and `AddImage` jobs over the blob protocol and the index, as one machine; what a finished job leaves |
| `CleanUp` | mark-and-sweep, `RemoveArtifact`, and `store remove`, as a class |
| `Copy` | the graph copy into another layout, as a class |
| `Charts` | the breadth-first walk over chart dependencies, and image de-duplication |
| `ChunkNames`, `Archives` | chunk names, splitting and joining archives |
| `Retry`, `Verifier`, `ImageJobs` | the retry loop, signature verification with its fallback, digest pinning |
| `LayerCache` | the shared fetch of file layers |

The central results compose. `BlobRuns` shows that no interleaving of writers damages a final path, and
`BlobProgress` that writers who are not hindered succeed. `Closure` runs
that very machine under the adding jobs and shows that every index entry always leads to a complete graph. `CleanUp`
and `Copy` show that collecting and copying keep what the checker certifies, where `Checker` shows that the
certificate is exact.

## What turned out not to hold

Each of these is proved, by a run, an input or a contract. A lemma whose name says "exactly when", or a contract
with an equivalence, gives the exact condition under which the code does what one expects.

- An `AddIndex` whose save fails leaves its entry in memory, so an identical retry is skipped and reports success
  while `index.json` does not have the entry (`RetryAfterFailedSaveIsLost`, `AddReachesTheFileExactlyWhen`). However
  often it is retried and skipped, the entry gets there exactly when a later save of anybody replaces the file; if the
  file has an older entry under the same key, nobody may load it before (`UnsavedEntryIsSavedExactlyWhen`).
- `RemoveArtifact` deletes in memory and saves in two critical sections. A load between them brings the entry back.
  The removal survives exactly when no other caller reloads the file before one of them has replaced it
  (`RemovalSurvivesExactlyWhen`).
- `UpdateAnnotations` keeps a rewritten entry under its old key. The file then agrees with the name map exactly when
  the entry's new annotations still give that key (`RewriteReadsBackExactlyWhen`). After a rename to a new reference,
  which is what both callers do (`cmd/hauler/cli/store/add.go:647` and `:1520`), the next load in the process stores
  the entry a second time and the next save lists it twice (`RewrittenEntryIsDoubled`).
- The checker's memo ignores the size a descriptor claims, so a sound blob can be reported as damaged after another
  descriptor gave it a wrong size (`SecondSizeIsReportedWrong`). The second answer is right exactly when the
  blob is missing or its size unreadable, or both sizes fit it, or neither does (`MemoAgreesExactlyWhen`, contract of `SecondAnswer`).
- One cancelled context can fail a caller with a live one when two calls share the cancelled context, as equal layers
  of one image do: both lead a flight, and the live caller retries only once
  (`OneSharedCancellationFailsALiveCaller`). The same happens without any cancelled context when a source twice fails
  with an error that wraps `context.Canceled` (`OneDishonestSourceFailsALiveCaller`). Without either, one cancelled
  context is harmless (`OneForeignCancellationIsHarmless`). A live caller reports a cancellation exactly when both
  its flights ended cancelled (`LiveCallerReportsACancellationExactlyWhen`).
- `ociPusher.Push` saves the root's index entry before the root's bytes arrive, so a failing push leaves an index
  entry without a blob (`PushWithoutBytes`; the contract of `PushBytes` says exactly when). Everything below the root
  is there by then.
- `ChunkGroupKey` gives chunk 1 of `haul.tar.zst` and the legacy chunk `haul_0.tar.zst` one key although `JoinChunks`
  never joins them (`OneKeyTwoSets`, `SameKeyJoinsExactlyWhenSameScheme`). The comment on it at
  `pkg/archives/unarchiver.go:207-211` promises otherwise; the model follows the code.
- Splitting an empty archive deletes it and leaves no chunk (`ChunksRemainExactlyWhenNotEmpty`).
- A registry error whose chain says both "no matching signatures" and "no signature" does get a second chance on the
  bundle path (`BothKindsFallBack`, `NoCallFollowsANoMatch`).
- With ignored errors a job still fails when the rewrite after a successful add does (contract of `StoreImage`).
- A failed `CleanUp` counts the size of the file it could not remove as freed (contract of `CleanUp`).

## Assumptions

- A digest graph has no cycle. `rank` is the witness; neither the checker nor the collector keeps a visited set, so
  they need it to return.
- `NoCollisions`, `SameBytes` and `Untruncatable` say that no two of the byte strings at hand hash alike, where a
  theorem speaks of contents rather than of names. In `Closure` these are the bytes that ever reach a final path.
- `PeekAgrees` says that the collector's lax decoder reads the same digests as the strict one wherever that succeeds.
- `MindsKey` (in `IndexRuns`) says for one key that no caller puts a second entry for it under another key, as a
  rename to its reference would. Renames between other keys are covered.
- `SourcesAreHonest` (in one theorem of `BlobRuns`) says that sources of a blob do not make up cancellations.
- `SizesAgree` (for the memoized check) says that the sizes claimed for one stored blob all fit it, or all do not.
- `HonestRegistry` says that what is fetched by digest is that image or, under a platform filter, one its index names.
- `Follows` (for the chart walk) says that the dependency keys of a chart depend on its key only.
- `NoStaleChunks` (for joining what was split) says that no chunk of the archive's name lies in the folder before,
  except under names the split writes.
- `HashShape` (for one theorem on intact entries) says that the hash is written as a well-formed digest.
- `EmptyRefFails` (for loading, saving and loading) says that the empty reference does not parse.
- `Uniform` (for the single commit) says that all calls for the blob expect one positive size and none is a push.
- `Nested` (for the verdict after a copy) says that indexes name only manifests and indexes, and manifests no manifests.
- `WellTyped` (for adding) and `TypedSource` (for copying) say that a source's manifests name its own parts and that
  media types agree with contents.

## Model

| member | source | states |
|---|---|---|
| Graph.ProblemsAreTheVisibleFailures | pkg/store/check.go:214-312 | a blob is reported exactly when some path of opened manifests leads to it and it fails there; nothing is invented and nothing visible is missed |
| Graph.NoProblemsExactlyWhenIntact | pkg/store/check.go:214-312 | no problem is reported exactly when every reachable blob has its size and digest and every manifest position decodes |
| Graph.StatusMeans | pkg/store/check.go:105-173 | what each of the five answers says of the file: there, readable, of the claimed length, of an available algorithm, hashing to the digest |
| Graph.IntactMeansSound | pkg/store/check.go:214-312 | a graph is intact exactly when every blob its bytes name, level by level, is there, has its size and hashes to its digest, and every manifest decodes |
| Graph.IntactGrows | pkg/store/check.go:105-173 | adding files never spoils an intact graph |
| Content.ValidDigests | pkg/store/check.go:270-283 | which digests validate: the three algorithms with their lengths, in lower-case hexadecimal |
| IntegrityCheck.Checker.CheckOneBlob | pkg/store/check.go:105-173 | each branch of the blob check, by which call on the file fails; OK means that the file's bytes hash to the digest; exactly a check which starts to stream the content counts as a hash, a read that fails half way included |
| IntegrityCheck.Checker.CheckMemo | pkg/store/check.go:178-193 | the first status under a digest is kept for good, and no digest is hashed twice |
| IntegrityCheck.Checker.CheckLeaves | pkg/store/check.go:258-295 | in whatever order the leaves finish, their problems are the plain check's as a multiset |
| IntegrityCheck.Checker.Check | pkg/store/check.go:214-312 | over any sequence of checks whose sizes for one stored digest agree on whether they fit, the memoized problems are the plain ones as a multiset, OK means that everything the bytes name is there with its size and its hash, and each digest is hashed at most once |
| IntegrityCheck.MemoAgreesExactlyWhen | pkg/store/check.go:126-126 | which second sizes a memo keyed by digest answers rightly, `Stat` failures included |
| IntegrityCheck.SecondAnswer | pkg/store/check.go:178-193 | the memoized answer for a second descriptor of a digest is the right one exactly when the two sizes agree on whether they fit the file |
| IntegrityCheck.SecondSizeIsReportedWrong | pkg/store/check.go:178-193 | a sound blob reported as damaged after a descriptor of another size |
| BlobRuns.OneWriterPerDigest | pkg/content/oci.go:659-677 | at most one call is inside `writeBlobOnce` for a digest |
| BlobRuns.FinalPathsStaySafe | pkg/content/oci.go:681-761 | in every interleaving, with any failure anywhere, a final path is untouched or holds bytes that hash to its name |
| BlobRuns.HashValidStays | pkg/content/oci.go:622-655 | a hash-valid store stays hash-valid |
| BlobRuns.NilMeansStored | pkg/content/oci.go:622-655 | a nil result means the blob is at its path |
| BlobRuns.AtMostOneCommit | pkg/content/oci.go:681-761 | of all writers of one blob of one positive size, at most one stream is renamed into place |
| BlobRuns.CountsWithinCeiling | pkg/content/oci.go:665-674 | counted writes never exceed held permits, nor those the ceiling; the recorded peak never exceeds the true one and equals it when no CAS loop is running |
| BlobRuns.HighestIsTheMaximum | pkg/content/stats.go:66-74 | the true peak is the greatest in-flight count of any moment of the run, and the recorded peak only grows |
| BlobRuns.QuietAfterwards | pkg/content/oci.go:894-922 | once every call has returned no temp file, flight or missing permit is left |
| BlobProgress.UnhinderedCallsSucceed | pkg/content/oci.go:622-761 | in every run in which no call of theirs fails, no source of theirs gives wrong bytes or a cancellation, and no context of theirs ends, all calls for a digest that have returned returned nil and the blob is stored, whatever happens to others |
| BlobProgress.ANewCallCanSucceed | pkg/content/oci.go:622-761 | from any moment of any run a new `WriteBlob` or `Push` on a free digest can return nil with its bytes at the path; a file of the expected size is left alone, one of another size is replaced |
| BlobProgress.LateCallsAreRefused | pkg/content/oci.go:622-632 | a `WriteBlob` under a context that has ended before returns that context's error, whatever is stored |
| BlobProgress.AHinderedCallFails | pkg/content/oci.go:681-761 | a call one of whose steps goes wrong, a system call, its source, its context or the bytes, stores nothing by it and returns that very error in every run; a cancellation alone allows a second attempt |
| BlobRuns.LiveCallerNeedsTwoCancellations | pkg/content/oci.go:648-653 | a live caller returns `context.Canceled` only after two cancelled flights of the same digest, each led by a call that was itself cancelled or whose source answered with a cancellation of its own; by two different calls where no source did |
| BlobRuns.LiveCallerReportsACancellationExactlyWhen | pkg/content/oci.go:648-653 | a live caller that has returned did so with `context.Canceled` exactly when it went through two cancelled flights |
| BlobRuns.OneForeignCancellationIsHarmless | pkg/content/oci.go:618-621 | one cancelled context fails no live caller, unless two other calls for the same blob share it or a source of that blob answers with a cancellation of its own |
| SharedContext.OneSharedCancellationFailsALiveCaller | pkg/content/oci.go:648-653 | a run in which a single cancelled context that two other calls for the blob share does |
| SharedContext.OneDishonestSourceFailsALiveCaller | pkg/content/oci.go:648-653 | a run in which nothing is cancelled and a source that twice answers with a cancellation does |
| Index.CurrentKindIsStable | pkg/consts/migrate.go:12-19 | translating a kind twice is translating it once |
| IndexKeys.LoadedKind | pkg/consts/migrate.go:12-19 | a load makes a missing kind the image kind and gives a legacy kind the new prefix; other kinds and everything else stay |
| IndexKeys.KeysTellApart | pkg/content/oci.go:166-182 | of one kind, two tags share a key exactly when they are the same tag, two digests exactly when they are of one repository; one reference has different keys under different kinds |
| IndexKeys.AddsShareAKeyExactlyWhen | pkg/content/oci.go:157-182 | the same for the keys that `AddIndex` derives from annotations |
| IndexKeys.LoadsShareAKeyExactlyWhen | pkg/content/oci.go:264-295 | the same for the keys that a load derives |
| IndexKeys.AddsNeedAReference | pkg/content/oci.go:157-182 | an add is refused exactly without a reference that parses |
| IndexKeys.OneKeyForAll | pkg/content/oci.go:787-814 | an add, a load and the root of a push agree on the key of an entry |
| IndexKeys.TwoAddsTwoEntries | pkg/content/oci.go:157-204 | after two successful adds of different tags, or of one tag under two kinds, both are in the name map, and in the file if the second was written |
| Index.StableSortIsImagesFirst | pkg/content/oci.go:335-347 | every stable sort by "is an image" is the images followed by the rest |
| Index.ImagesFirstPermutes | pkg/content/oci.go:335-347 | sorting the entries loses and doubles none |
| IndexKeys.SavedListsImagesFirst | pkg/content/oci.go:335-347 | a saved list has no image kind after another kind |
| IndexKeys.SavedListsTheEntries | pkg/content/oci.go:318-347 | a saved list holds the entries of any name map, as many, each with a reference annotation, empty where it had none |
| Index.SavedHoldsTheMap | pkg/content/oci.go:318-347 | a saved list holds each entry of a canonical name map, once, and nothing else |
| Index.RoundTrip | pkg/content/oci.go:246-299 | saving a canonical name map and loading it into a fresh store gives it back |
| Index.RoundTripExactlyWhen | pkg/content/oci.go:246-299 | for any name map, a save and a load into a fresh store give it back exactly when it is canonical: each entry normalized and under the key a load derives |
| Index.LoadSaveLoad | pkg/content/oci.go:246-299 | loading, saving and loading again is loading once, legacy kinds included |
| Index.LoadAgain | pkg/content/oci.go:246-299 | loading the same file twice changes nothing more |
| Index.LoadIsOver | pkg/content/oci.go:246-299 | loading any file is putting what it leaves in a fresh store over the name map |
| IndexStore.StepAtKey | pkg/content/oci.go:157-204 | each critical section, with or without failing saves, at one key: memory takes the file's entry if it loads, then its own write; the file takes the result if a save reaches its rename |
| IndexStore.AddReachesTheFileExactlyWhen | pkg/content/oci.go:189-203 | when a successful add is on disk: unless it was skipped for an entry that never got there |
| IndexStore.RetryAfterFailedSaveIsLost | pkg/content/oci.go:189-203 | a failed save and a successful retry after which the file has no entry |
| IndexStore.RewriteReadsBackExactlyWhen | pkg/content/oci.go:954-981 | after a rewrite of annotations a fresh process reads the name map back exactly when each rewritten entry still stands under the key its annotations give |
| IndexKeys.RewritesChangeMatchingAnnotations | pkg/content/oci.go:954-981 | a rewrite changes the annotations of exactly the entries that match, and nothing else about any entry |
| IndexStore.RewrittenEntryIsDoubled | pkg/content/oci.go:954-981 | an entry rewritten to a new reference is stored a second time by the next load and listed twice by the next save |
| IndexRuns.FileAgreesOnTheKey | pkg/content/oci.go:318-401 | on runs where no save fails, memory and `index.json` say the same about a key after every critical section, unless a removal of it has not been saved yet, whatever happens to other keys |
| IndexRuns.FileIsTheNameMap | pkg/content/oci.go:318-401 | where all entries written are read back under their own keys, `index.json` holds exactly the name map after every critical section that loads or saves |
| IndexRuns.EveryWriteReachesTheFile | pkg/content/oci.go:157-204 | on runs where no save fails, an entry whose key nobody touches again is in memory and in the file from its write on; skipping equal writes loses nothing |
| IndexRuns.TheFirstToSettleDecides | pkg/content/oci.go:157-204 | a difference between memory and file about a key nobody changes lasts until the first event that reads the file's entry or replaces the file, and that event decides it, over any run with failing saves and skipped retries |
| IndexRuns.UnsavedEntryIsSavedExactlyWhen | pkg/content/oci.go:189-203 | after a failed save, and any number of skipped retries of the same add, an entry gets into the file exactly when a later save of anybody reaches its rename, before anybody loads an older entry |
| IndexRuns.RemovalSurvivesExactlyWhen | pkg/store/store.go:968-975 | a removal from memory survives other callers exactly when none reloads the entry before one of them replaces the file, and is in the file exactly when one of them has |
| Checkpoint.DurableSavesAreSpaced | pkg/content/oci.go:402-410 | in any run under a clock that never goes back, durable saves that checkpoints ask for end at least 30 seconds apart |
| Checkpoint.FewCheckpointsInAnyWindow | pkg/content/oci.go:37-42 | a window of length T holds at most T/30s + 1 of them |
| Checkpoint.UnsyncedSavesAreRecent | pkg/content/oci.go:402-410 | at every point of any run, a checkpointed save that succeeds is durable, or starts under 30 seconds after the durable save whose file a power loss would bring back |
| Checkpoint.FailedCheckpointStaysDue | pkg/content/oci.go:318-401 | after a due save that failed every checkpointed save stays due until a durable one goes through, so the first that succeeds is durable |
| Checkpoint.PowerLossRestoresAnEarlierMap | pkg/content/oci.go:318-401 | at any point of any run, with failing saves, a power loss restores one complete file that a durable save wrote; it is read back as the name map of that moment exactly when that was canonical |
| Checkpoint.PowerLossKeepsWhatWasWritten | pkg/content/oci.go:318-401 | where no save failed, what comes back holds every entry written before that durable save and not touched between |
| Oci.OCI.LoadIndex | pkg/content/oci.go:246-299 | the load loop refines the load step |
| Oci.OCI.SaveIndexLocked | pkg/content/oci.go:318-401 | the save, with a failure at any point, refines the save step: file, durable version and name map |
| Oci.OCI.AddIndex | pkg/content/oci.go:157-204 | refines the add step: key derivation, skip, store, checkpointed save |
| Oci.OCI.PushRootEntry | pkg/content/oci.go:787-814 | refines the push step: load, normalize, store, save in one critical section |
| Oci.OCI.UpdateAnnotations | pkg/content/oci.go:954-981 | refines the update step: the matching entries change under their old keys, and nothing is saved when none match |
| IndexClosure.StoredIsIntact | pkg/store/store.go:391-556 | once every blob of a well-typed source is stored, in any order, its graph is intact |
| IndexClosure.EveryEntryIsAlwaysIntact | pkg/store/store.go:149-215 | in every interleaving of adds, loads, saves, removals and rewrites, failing or cancelled anywhere, each entry of the name map, the file and its durable version leads to a graph whose blobs are all there and hash to their digests |
| AddingJobs.AFinishedAddIsInTheIndex | pkg/store/store.go:203-214 | a job that ends successfully leaves under its key an entry with exactly the annotations and the media type it began with, for the hash and length of its source's top blob, leading to a sound graph; it is successful whenever the save works |
| GarbageCollection.ReachedUnfolds | pkg/store/store.go:984-1049 | what paths from an entry mark is what the recursive marking marks |
| GarbageCollection.Layout.Mark | pkg/store/store.go:984-1049 | marking a digest adds exactly what it leads to |
| GarbageCollection.Layout.Sweep | pkg/store/store.go:1065-1091 | only unmarked files go; count and size are what left, plus the size of the file that would not go |
| GarbageCollection.MeasuredIsTheBytes | pkg/store/store.go:1080-1082 | the size that is reported is made of the lengths of the files whose size can be read |
| GarbageCollection.Layout.CleanUp | pkg/store/store.go:977-1091 | on nil, which is the answer when nothing fails, the files left are exactly the live ones; on an error no live file is lost; the reported count and size against what left |
| GarbageCollection.Layout.RemoveArtifact | pkg/store/store.go:968-975 | load, drop the key, save durably |
| GarbageCollection.Layout.RemoveAndCleanUp | cmd/hauler/cli/store/remove.go:149-200 | removing an artifact and collecting leaves every other entry the same problems, each of them, whatever fails and whatever the index file holds; it succeeds when nothing fails, and then exactly the live files are left |
| GarbageCollection.Layout.CleanUpTwice | pkg/store/store.go:977-1091 | a second collection removes nothing and reports nothing |
| GarbageCollection.SparedGraphKeepsItsProblems | pkg/store/check.go:214-312 | losing files a root does not lead to changes none of its problems |
| GarbageCollection.IntactEntriesStayIntact | pkg/store/store.go:977-1091 | every indexed graph that was intact is intact after a collection |
| GarbageCollection.SecondCollectionRemovesNothing | pkg/store/store.go:977-1091 | what a collection keeps is still live afterwards |
| GarbageCollection.KeptExactlyWhenMentioned | pkg/store/store.go:977-1091 | where the indexed graphs are intact, a canonical file is kept exactly when the bytes of one of them mention its digest, level by level |
| GraphCopy.Copier.WriteStream | pkg/content/oci.go:816-848 | when exactly a pushed blob is accepted, when exactly it reaches its final path, and that an altered or shortened one never does |
| GraphCopy.Copier.PushBytes | pkg/content/oci.go:783-849 | only a push of the root touches the index, by one critical section before its bytes; the index on disk names a missing root afterwards exactly when its file was replaced, or named it before, and the blob neither was there nor landed |
| GraphCopy.Copier.CopyBlob | pkg/store/store.go:807-846 | nil means the blob is in the target under its name |
| GraphCopy.Copier.CopyGraph | pkg/store/store.go:721-804 | after every step, also of a failing copy, each parent in the target has its children; nil means that what the four media types make it follow arrived, config, layers and children included, with the root in the target's index, and is the answer whenever nothing fails and the source has all that; the index changes only when everything below the root is there |
| GraphCopy.Copier.PushWithoutBytes | pkg/content/oci.go:787-814 | a failing push whose entry is in the target's index and whose blob is not in the target |
| GraphCopy.CopyKeepsTheVerdict | pkg/store/store.go:721-873 | a copy that reported success checks out in the target whenever the original does in the source |
| Charts.WithinIsReached | cmd/hauler/cli/store/add.go:917-941 | the levels of the walk are the charts reached by chains of that length |
| Charts.KeysTellChartsApart | cmd/hauler/cli/store/add.go:1005-1010 | charts that differ in name, repository or version alone have different keys, and without bars in names and repositories the key identifies all three |
| Charts.FetchLevel | cmd/hauler/cli/store/add.go:962-985 | in any completion order a level's images, dependencies and count are those of all its fetches; it fails with the first fetch that fails, and discards the level |
| Charts.TraverseChartLevels | cmd/hauler/cli/store/add.go:942-1003 | the charts fetched are exactly those at the end of a chain of at most ten charts from a root, each non-root key once; images are those of all fetches; the dropped count is the number at distance ten; it fails only with a fetch that was made and failed; it ends on any graph |
| Charts.DedupeImageJobs | cmd/hauler/cli/store/add.go:891-910 | keeps exactly the first job of each pull, in order |
| Charts.FirstsCoverAll | cmd/hauler/cli/store/add.go:878-910 | no pull is lost and none is made twice |
| ChunkNames.ChunkInfoIsThePattern | pkg/archives/unarchiver.go:163-180 | splitting at the last dot is the only way the pattern can match |
| ChunkNames.LegacyInfoIsThePattern | pkg/archives/unarchiver.go:182-204 | the legacy names recognized are exactly those of the pattern, read in the one way it can match |
| ChunkNames.PaddedParses | pkg/archives/archiver.go:140-140 | `%03d` of any index parses back to it and has at least three digits |
| ChunkNames.NamesParseBack | pkg/archives/unarchiver.go:166-180 | every name the splitter gives parses back to the same base and index, past 999 too |
| ChunkNames.SameKeyJoinsExactlyWhenSameScheme | pkg/archives/unarchiver.go:207-220 | grouped names are joined together exactly when they follow one scheme |
| ChunkNames.OneKeyTwoSets | pkg/archives/unarchiver.go:207-220 | the collision of the two schemes under one key |
| Archives.OneSplit | pkg/archives/archiver.go:107-109 | bytes and chunk size determine the pieces, whatever the reads were |
| Archives.Splitter.SplitArchive | pkg/archives/archiver.go:109-186 | for any pattern of short reads the chunks are non-empty, full except the last, and concatenate to the archive, which is removed only then; a failure, which takes a failing call, keeps the archive with its bytes |
| Archives.JoinChunks | pkg/archives/unarchiver.go:230-279 | which files are joined, in index order, and when the path comes back unchanged or the join fails |
| Archives.OneOrder | pkg/archives/unarchiver.go:246-250 | the chunks of one split have exactly one sorted order |
| Archives.JoinOfSplit | pkg/archives/unarchiver.go:230-308 | joining from any chunk rebuilds the archive, given no stale sibling |
| Archives.JoinOfLegacySet | pkg/archives/unarchiver.go:257-279 | joining from any chunk of a legacy set gives its chunks in the order of their numbers, and fails exactly when a file cannot be created or opened |
| Archives.SplitThenJoin | pkg/archives/archiver.go:109-186 | the two methods one after the other give back the name and the bytes, and do so whenever nothing fails, the size is positive and there is such a chunk |
| Archives.ChunksRemainExactlyWhenNotEmpty | pkg/archives/archiver.go:133-150 | chunks exist exactly when the archive was not empty |
| Retry.Operation | pkg/retry/retry.go:15-65 | within the budget, three where none is set, nil exactly when the last attempt worked, the last error when all failed |
| Verifier.WithRetry | pkg/cosign/verifier.go:265-279 | a path's calls: retryable refusals, then one last answer, which is the result |
| Verifier.OnlyUnclassifiedErrorsAreRetried | pkg/cosign/verifier.go:281-321 | a call is followed by another on its path only after an error of none of the four known types |
| Verifier.Verify | pkg/cosign/verifier.go:208-221 | bundle calls only after the classic path ended in one of the two "absent" errors, and then always unless the context ends; each path within its budget, and up to it on unclassified errors; nil exactly when the last call accepted, and otherwise the last call's error |
| Verifier.NoCallFollowsANoMatch | pkg/cosign/verifier.go:281-306 | the one answer after which a call can follow a failed match |
| Verifier.AFailedMatchIsFinal | pkg/cosign/verifier.go:308-321 | a failed match that is not also "absent" is the last call, and the run fails |
| Verifier.BothKindsFallBack | pkg/cosign/verifier.go:302-321 | an answer that says both is followed by a bundle call |
| ImageJobs.PinDigest | cmd/hauler/cli/store/sync.go:881-898 | the pin is the answer of the first head request that worked, within the budget; a failure counts as a cancellation exactly when the context's or the last request's error is one |
| ImageJobs.ResolveAndVerify | cmd/hauler/cli/store/sync.go:832-868 | success means that the calls `Verify` made ended with the registry accepting exactly the returned digest; a failure after the pin keeps the pin |
| ImageJobs.PinnedAttemptKeepsThePin | pkg/store/store.go:268-320 | an add under a pin fetches that digest and stores it, or a platform child its index names |
| ImageJobs.AttemptSucceedsExactlyWhen | pkg/store/store.go:268-320 | when an attempt succeeds and what it stores then: the whole index without a platform filter, the fetched image otherwise |
| ImageJobs.RewrittenNames | cmd/hauler/cli/store/add.go:543-560 | the new name, its tag kept from the reference where the rewrite has none |
| ImageJobs.StoreImage | cmd/hauler/cli/store/add.go:481-560 | every attempt fetches the same pin; a rename is asked for only after a successful add; when exactly the result is nil, with and without ignored errors, a failing rewrite included |
| ImageJobs.RunJob | cmd/hauler/cli/store/sync.go:1112-1137 | stored as verified only if a call that was made accepted exactly the stored digest; an ignored failure after the pin stores the pin; a cancellation never stores |
| LayerCache.AtMostOneFetch | pkg/artifacts/file/cache.go:38-70 | each path is fetched successfully at most once in every interleaving |
| LayerCache.OneLayerForAll | pkg/artifacts/file/cache.go:32-38 | all callers that succeed get the same layer |
| LayerCache.CacheOnlyGrows | pkg/artifacts/file/cache.go:34-37 | entries never change and a failed fetch adds none |
| LayerCache.ACachedPathNeedsNoFlight | pkg/artifacts/file/cache.go:38-44 | a path with an entry is answered from it without a flight |
| LayerCache.AFailingFetchEndsTheFlight | pkg/artifacts/file/cache.go:34-70 | a fetch that fails gives the failure to its leader and to everybody who waits, and leaves neither an entry nor a flight |
| LayerCache.ALaterCallerCanSucceed | pkg/artifacts/file/cache.go:34-37 | after any failures the next caller whose fetch works succeeds |

## Left out

- A failing `Close` of a manifest reader in `copyDescriptorGraph`: the deferred function assigns it to a shadowed `err`, so the source drops it, and the model has no such failure.
- Network, registry, Helm, cosign and Docker internals: oracles that answer a value or a classified error.
- JSON, YAML, tar and the reference grammar: abstract functions; hash functions are uninterpreted.
- File permissions, path cleaning, glob metacharacters and symbolic links: the directory is a map with atomic rename.
- Blob durability: only the index has a durable version; a power loss is not modelled for blobs.
- `CopyAll` and pushes to registries: the copy is modelled for one root into one layout nobody else writes to, so a store that copies into itself is outside.
- `CleanUp` while others write, and two processes on one store: the code does not claim them.
- Related signatures, attestations and referrers of an added image: each is one more job of the same kind.
- `verifyAddImage`, the single-image command's own pin and check: the same calls in the same order as a sync job.
- `Cache.Get` of verifiers, and the resolution of flags and annotations into verification settings: one lookup and precedence rules.
- Progress, logging, audit entries and statistics other than the in-flight counters.
- IntegrityCheck.Checker.Check: goroutines of one group are modelled as any order of whole blob checks, not as interleaved reads.
- GarbageCollection.Layout.RemoveAndCleanUp: removes one artifact where the command loops over all matches, and reports a failed collection where the command warns.
- Charts.FetchLevel: the concurrency limit is not modelled, as any completion order is allowed.
- Archives.JoinChunks: the folder is a map of names, so the joined file's directory is taken to be another one.
- Verifier.Verify: the text of errors is not modelled, only the error types and the cancellation in their chain.
