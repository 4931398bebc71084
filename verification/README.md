# Bonnie: model store and paired runs, verified

Bonnie is an agent that stages AI models on a host and runs benchmarks against inference engines in
containers. This project models its stateful core and proves what it is meant to guarantee.

**The model store** (`internal/storage/store.go`). Two maps, an `index.json`, a mutex that one `Fetch`
takes and gives back several times, and a singleflight group.

- `Index`, `Text`: entries, the two maps, keys, the unique sorted listing, loading it back.
- `StoreCore`: the maps, the files below the root and the lock, with one step per file operation.
- `StoreSystem`: any number of callers in `Fetch`, `doFetch`, `markUsed` and `Delete`, each at a place
  between two lock sections; any file operation may fail, the process may crash and restart anywhere.
- `StoreSafety`, `StoreSteps`, `StoreLocks`, `StoreFileSteps`: the invariant and its preservation.
- `StoreAnswers`: what callers are answered, with the cause each answer must have.
- `StoreTheorems`: what follows for whole runs. `StoreDurable`: what is conserved through crashes.
- `StoreGap` and `StoreMarks`: the one way an error-free `Fetch` can return nothing, and exactly when it
  does. `StoreLoss`: when an entry stays indexed without its files.
- `ModelStore`: the store as an object, method by method. `StoreRefines`: what each method does is a run of
  the system's steps.

**Fetching from a share** (`internal/storage/fetchers.go`). `Files` copies and measures trees in an
abstract file system, `Walks` is the order of `filepath.WalkDir`, `Paths` is `filepath.Clean`, `Join`, `Abs`,
`Rel` and `underRoot` on strings, `NfsFetcher` puts them together.

**The paired run** (`internal/container/paired_run.go`, `internal/api/handlers/benchmark.go`).

- `Docker`: networks, volumes and containers with their owners; what a run guarantees to all others and
  what it relies on, so that any number of runs can be interleaved.
- `RunSystem`: each run as a machine of its own, and what holds when any number of them interleave.
- `RunClient`: one run's view of the daemon. Every call may fail (a cancelled context is one way to fail),
  others act between any two calls, and a removal is refused while its resource is in use. All a client goes
  through is a history of `RunSystem` (`Client.Valid`).
- `EventChannel`: the bounded channel with its blocked senders, their timers, one consumer, and the panic of
  a send on the closed channel.
- `RunEvents`, `RunStates`: the events, the story they tell, and how a goroutine emits them through that
  channel while all others act.
- `Health`, `PairedRun`: waiting for the engine, and the run with its cleanup.
- `BenchmarkHandler`: the select loop that frames events for the client and waits for the run.
- `LogLines`: the incremental splitter of container logs.

**Secrets** (`internal/flagcommons/secrets/openbao.go`) is the TTL cache over a changing server.
**Nvidia** (`internal/gpu/nvidia.go`), over `Strings` and `Int64`, is the CSV parser.

## Assumptions

- Source names hold no colon, and the 16 digits of `entryID` tell the keys in use apart (`ValidConfig`).
  `KeyForInjectiveIff` says exactly when two source names can collide.
- A rename is atomic, a failed save leaves the old index in place, and the index that is loaded was written
  by this store. JSON and RFC 3339 times are the identity on entries.
- A destination given by the caller lies apart from the store's root.
- Singleflight is used by its contract: one leader per key, joiners get its result, the key is freed when
  the leader ends.
- The clock does not go backwards.
- No two runs share a RunID at the same time, and nobody else uses names of the form `bonnie-run-…` and
  `bonnie-results-…` (`CanArrive`, `Rely`). Nothing in the code enforces this: `RemovalByNameSparesIff` and
  `SameRunIDTakesNetwork` show what happens otherwise.
- A create call that fails creates nothing, and container ids are fresh and not empty.
- A timer goes off when it is due: time does not pass a blocked sender's deadline.
- Every operation on files, every call to the daemon and every request may fail. What happens when none does
  is claimed for objects that say so: `faultless` stores and file systems, `willing` and `honours` daemons,
  a `reachable` server.

Where the code does not do what its comments suggest, the model follows the code:

- `markUsed` keeps its change when its save fails (`internal/storage/store.go:376-378`): `MarkRollsBackIff`.
- "Repeat calls return the existing entry" fails when a `Delete` falls between the mark and the re-read:
  `ZeroEntryFromEmptyRoot`, `ZeroEntryIff`.
- `Delete` removes the files before it saves the index and puts only the entry back when the save fails
  (`internal/storage/store.go:347-358`). The next `Fetch` returns that entry without error and without files:
  `DeleteThenFetch`, `FailedDeleteLosesFiles`, `LostStays`. A crash at that point does the same:
  `CrashLosesFiles`.
- `PairedRun` closes the event channel while log goroutines may still send on it
  (`internal/container/paired_run.go:106`, `168`, `201`). A send blocked at the close, or made after it, brings
  the process down: `ClosePanicsIff`, `CloseCanPanic`, `ClosedKeepsOurs`.
- The handler accepts an unknown benchmark kind that the run then refuses without sending any event:
  `RejectsIff` in `BenchmarkHandler`.

## Model

| member | source | states |
|---|---|---|
| Index.KeyForInjectiveIff | internal/storage/store.go:393 | two source names never produce the same key exactly when neither, followed by a colon, starts the other |
| Index.KeyForInjective | internal/storage/store.go:393 | over colon-free sources a key determines source and model id |
| Index.RollbackExactIff | internal/storage/store.go:295-303 | insert-then-delete gives back the old maps exactly when neither id nor key was there |
| Index.ReinsertExact | internal/storage/store.go:352-357 | delete-then-insert gives back the old maps |
| Index.SameListing | internal/storage/store.go:162-166 | a map has at most one listing in strictly increasing ID order, whatever the iteration order |
| Index.LoadRebuilds | internal/storage/store.go:151-155 | loading the listing of consistent maps rebuilds both maps exactly |
| Index.LastOneLoads | internal/storage/store.go:151-155 | whatever an index lists, the last entry of an id is the one loaded, and the last entry of a key has it |
| Index.OnlyListedLoads | internal/storage/store.go:151-155 | and nothing is loaded that is not listed |
| Text.SortedUnique | internal/storage/store.go:281 | sorting has one result, whatever the order of the names |
| Text.LessIff | internal/storage/store.go:166 | one string is below another exactly when it is a proper prefix, or has the smaller character at the first place where the two differ |
| StoreCore.SaveStepKeeps | internal/storage/store.go:161-192 | every file operation of a save, good or failed, keeps the core invariant |
| StoreCore.RenameInstalls | internal/storage/store.go:187-190 | the rename makes the index stand for exactly the maps in memory |
| StoreCore.RollbackRestores | internal/storage/store.go:298-304 | after a failed save a staging or a Delete leaves exactly the maps found on taking the lock |
| StoreCore.MarkRollsBackIff | internal/storage/store.go:369-379 | a markUsed whose save fails leaves the old maps exactly when the new time is the old one |
| StoreCore.ReleaseKeeps | internal/storage/store.go:295-305 | giving the lock back keeps the core invariant, whatever became of the save |
| StoreCore.CrashSafe | internal/storage/store.go:134-157 | at any point of any section the index reloads to consistent maps: those of before or those of after, up to LastUsedAt |
| StoreCore.RestartKeeps | internal/storage/store.go:98-102 | a store opened on what a crash left meets the core invariant |
| StoreSteps.ReReadResult | internal/storage/store.go:222-226 | the re-read gives the requested entry, or the zero Entry only if a Delete of the key completed since the mark |
| StoreSystem.ValidateMeans | internal/storage/store.go:201-213 | each refusal has its exact condition on the request's fields, and so has passing |
| StoreSteps.FailKeeps | internal/storage/store.go:265-277 | a doFetch that fails before the lock keeps the invariant |
| StoreLocks.BeginMarkKeeps | internal/storage/store.go:369-377 | markUsed taking the lock keeps the invariant of the whole system |
| StoreLocks.EndMarkKeeps | internal/storage/store.go:378 | markUsed returning keeps it, after a good save and a failed one |
| StoreLocks.BeginStageKeeps | internal/storage/store.go:295-297 | doFetch inserting its entry keeps it |
| StoreLocks.EndStageKeeps | internal/storage/store.go:298-305 | doFetch returning or rolling back keeps it |
| StoreLocks.BeginDeleteKeeps | internal/storage/store.go:338-353 | Delete taking the lock keeps it |
| StoreLocks.EndDeleteKeeps | internal/storage/store.go:354-361 | Delete returning, re-inserting or giving up keeps it |
| StoreFileSteps.LandKeeps | internal/storage/store.go:230-246 | freeing a key and handing its leader's result to every joiner keeps it |
| StoreFileSteps.RemoveAllKeeps | internal/storage/store.go:347-353 | removing an entry's files and dropping it keeps it |
| StoreFileSteps.StepKeeps | internal/storage/store.go:200-379 | every step of every caller, every fault, a clock tick and a crash keep the invariant of the whole system |
| StoreTheorems.RunHolds | internal/storage/store.go:200-379 | so it holds at every state of every run |
| StoreTheorems.MapsAreInverses | internal/storage/store.go:295-303 | in every run `entries` and `byKey` are exact inverses |
| StoreTheorems.LeaderKeyAbsent | internal/storage/store.go:230-242 | a leader past its double-check has its key absent until it inserts |
| StoreTheorems.RollbackExact | internal/storage/store.go:298-304 | in every run the rollback of a staging or a Delete restores exactly the maps found on taking the lock |
| StoreTheorems.CrashAnywhere | internal/storage/store.go:134-192 | at whatever state a process dies, the next one loads consistent maps of just before or just after the interrupted operation, up to LastUsedAt; while the lock is free, those in memory up to older times |
| StoreTheorems.Conservation | internal/storage/store.go:252-362 | per key, in one process and whenever the lock is free: indexed at its start plus stagings equals indexed now plus successful Deletes |
| StoreTheorems.OneFetcher | internal/storage/store.go:230-242 | at most one fetcher per key is at work |
| StoreTheorems.StartsBounded | internal/storage/store.go:252-311 | in one process fetcher starts never exceed one plus failed doFetches plus successful Deletes |
| StoreDurable.DurableConservation | internal/storage/store.go:161-192 | over whole runs, through any crashes: per key, on disk at the start plus the stagings renamed into place equals on disk now plus the removals renamed into place |
| StoreDurable.FetchesBounded | internal/storage/store.go:252-311 | over whole runs, through any crashes: fetcher starts never exceed one plus the removals made durable, the failed doFetches and the restarts |
| StoreTheorems.DirectoriesStand | internal/storage/store.go:253-293 | an indexed entry in its default place has its directory, with files adding up to SizeBytes, unless a Delete of it has begun to remove files without completing |
| StoreLoss.FailedDeleteLosesFiles | internal/storage/store.go:347-358 | in every run a Delete that returns because its save failed leaves its entry indexed, with its files exactly when they are not in the store's own directory |
| StoreLoss.LostStays | internal/storage/store.go:217-227 | while an entry stays indexed its directory, once gone, stays gone, whatever is fetched and whenever the process restarts |
| StoreLoss.CrashLosesFiles | internal/storage/store.go:347-358 | a process that dies between the removal and the rename leaves the next one the entry without its files |
| StoreTheorems.DeleteTouchesOwn | internal/storage/store.go:345-351 | a Delete at work on files removes what its entry's path names, which is the root's child of its id, and touches neither the index nor another entry's directory |
| StoreTheorems.FetchTouchesOwn | internal/storage/store.go:258-271 | nor does a fetcher or the cleanup after one touch those of any indexed entry |
| StoreTheorems.FetchResult | internal/storage/store.go:217-247 | an error-free Fetch (fast path, leader, joiner) returns the requested model's entry, or the zero Entry after a Delete in the gap |
| StoreAnswers.ArrivalAnswer | internal/storage/store.go:201-213 | an arriving Fetch is refused with each of the four errors, or let through, under exactly that condition on its fields |
| StoreAnswers.FinishHasCause | internal/storage/store.go:230-311 | a flight ends only with the entry read or staged, or with an error that has its cause: no directory, fetcher, measuring, save, or an entry gone |
| StoreAnswers.ReturnHasCause | internal/storage/store.go:200-247 | a Fetch let through returns only from its own mark or re-read, or with the answer of its flight's leader |
| StoreAnswers.LandingReachesAll | internal/storage/store.go:230-246 | the end of a flight gives everyone who joined it the leader's answer and frees the key |
| StoreAnswers.FlightsAreJoined | internal/storage/store.go:218-242 | who does not find its model joins the flight of its key or leads it; a leader looks again and marks what is indexed by now |
| StoreMarks.ZeroEntryIff | internal/storage/store.go:222-226 | the re-read yields the zero Entry exactly when more Deletes than stagings of the key have completed since the mark |
| StoreTheorems.ResultWasIndexed | internal/storage/store.go:222-246 | every entry returned was in the index at some moment of the run |
| StoreTheorems.StepAges | internal/storage/store.go:369-379 | no step changes an entry that stays indexed other than moving LastUsedAt forwards |
| StoreTheorems.UsedNeverGoesBack | internal/storage/store.go:369-379 | nor does any stretch of a run |
| StoreGap.SaveSucceeds | internal/storage/store.go:161-192 | a save can always go through when no operation fails |
| StoreGap.LockCanBeFreed | internal/storage/store.go:295-379 | from every state the lock can come free in at most two steps, with every other caller where it was |
| StoreGap.DeleteCanComplete | internal/storage/store.go:338-362 | a Delete can run to its end whenever the lock is free, and leaves exactly its entry out |
| StoreGap.GapDeleteLosesEntry | internal/storage/store.go:218-239 | from every state in which a Fetch, on the fast path or leading a flight, stands between mark and re-read, the system can go on so that it and all who joined its flight return the zero Entry without error |
| StoreGap.ZeroEntryReachable | internal/storage/store.go:218-227 | whenever the lock is free, a new Fetch of an indexed model can end so: mark, a whole Delete, re-read |
| StoreGap.FirstFetchStages | internal/storage/store.go:228-311 | on an empty root a Fetch can run to the staging of its model |
| StoreGap.ZeroEntryFromEmptyRoot | internal/storage/store.go:200-362 | so a run from an empty root reaches an error-free Fetch with the zero Entry |
| ModelStore.Store.constructor | internal/storage/store.go:107-157 | a new store holds what its index stands for, whatever the index; one that a store wrote gives consistent maps |
| ModelStore.Store.List | internal/storage/store.go:314-323 | List returns exactly the map's entries, each once, with the smaller character in front where two ids first differ |
| ModelStore.Store.SaveIndexLocked | internal/storage/store.go:161-192 | success makes `index.json` stand for the maps; failure leaves the old index; nothing else changes; without a fault it succeeds |
| ModelStore.Store.LookupByKey | internal/storage/store.go:381-390 | finds exactly the entry of the key |
| ModelStore.Store.MarkUsed | internal/storage/store.go:369-379 | moves one LastUsedAt in memory, on disk only if the save succeeds, which it does without a fault; an unknown id changes nothing |
| ModelStore.Store.CommitStaged | internal/storage/store.go:295-305 | adds the entry in memory and on disk, or changes neither |
| ModelStore.Store.CommitRemoval | internal/storage/store.go:352-359 | drops the entry in memory and on disk, or changes neither |
| ModelStore.Store.Delete | internal/storage/store.go:338-362 | success removes exactly the entry, on disk too, and its default directory; an error leaves maps and index alone; after a failed save the entry has its files exactly when they are not in its default directory; without a fault an indexed entry is deleted |
| ModelStore.Store.DoFetch | internal/storage/store.go:252-311 | success adds the entry of the requested model and place, with the measured size, the reported or else the found names in ascending order and the time, on disk too; each failure has its own error and leaves maps and index alone; without a fault what is ready is staged; nothing under another name changes |
| ModelStore.Store.Fetch | internal/storage/store.go:200-247 | each of the four refusals happens under exactly its condition on the request's fields and changes nothing; otherwise an indexed model is only marked, and any other is what doFetch makes of it |
| ModelStore.FetchTwice | internal/storage/store.go:194-198 | Fetch is idempotent: the second call runs no fetcher and returns the first entry up to LastUsedAt |
| ModelStore.DeleteThenFetch | internal/storage/store.go:200-227 | after a Delete whose save failed, a Fetch that succeeds runs no fetcher and returns an entry whose directory is gone |
| StoreRefines.SaveRuns | internal/storage/store.go:161-192 | whatever the object's save leaves on disk, good or failed, the system's save can leave |
| StoreRefines.MarkUsedRuns | internal/storage/store.go:369-379 | whatever the object's markUsed does, with whatever faults, is a run of the system's steps to the same maps, files and error |
| StoreRefines.DeleteRuns | internal/storage/store.go:338-362 | so is whatever its Delete does |
| StoreRefines.FetchRuns | internal/storage/store.go:200-311 | so is whatever its Fetch does, with fetcher, staging and rollback |
| Files.FileSystem.MkdirAll | internal/storage/fetchers.go:105 | creates the missing directories on the way and nothing else; without a fault it fails exactly when something else stands on the way |
| Files.FileSystem.CopyFile | internal/storage/fetchers.go:104-135 | success leaves the source's bytes at the destination; only the destination and missing parents change; without a fault a regular file is copied unless something else stands in the way |
| Files.FileSystem.CopyTree | internal/storage/fetchers.go:138-168 | success copies every node; whatever happens, only paths below the destination change; without a fault it succeeds exactly when no node is special or finds another kind at its place |
| Files.FileSystem.CopyNode | internal/storage/fetchers.go:139-167 | one call of the walk's callback makes the progress the copy needs |
| Files.CopiedMeans | internal/storage/fetchers.go:138-168 | node by node: the source's node stands at the destination, except that nothing replaces what a link would, and what the source lacks is as before |
| Files.CopyIntoEmptyIsEqual | internal/storage/fetchers.go:138-168 | a copy into an empty directory leaves a tree equal to the source in structure, contents and link texts |
| Files.CopyMeasuresTheSame | internal/storage/store.go:402-427 | so both sides measure the same size and the same sorted names |
| Files.FileSystem.MeasureTree | internal/storage/store.go:402-427 | the size is the total over the tree and the names are the sorted names of its files, whatever order the walk takes |
| Files.MeasureMeans | internal/storage/store.go:402-427 | one more file adds its bytes, one more link its text, and each its name; a directory adds nothing |
| Files.NameSplits | internal/storage/store.go:419-423 | a name splits at its slashes into the components of the path |
| Files.MeasuredUnique | internal/storage/store.go:402-427 | a tree has one measurement |
| Walks.LexicalWalkExists | internal/storage/store.go:403 | every tree has its lexical walk, which visits each path once and parents first |
| Walks.PathLessIff | internal/storage/store.go:403 | a path is visited before another exactly when it is above it or has the smaller name where the two first differ |
| Paths.CleanKeepsMeaning | internal/storage/store.go:429-438 | cleaning a path keeps the place it names |
| Paths.ComponentMeans | internal/storage/store.go:431-438 | a name leads one down, `..` exactly one up and at the top nowhere, the empty part and `.` stay |
| Paths.PlaceNamed | internal/storage/store.go:431-438 | a slash and its components name a place, from every working directory |
| Paths.RootedStays | internal/storage/store.go:431-438 | a path that starts with a slash does not depend on the working directory |
| Paths.RelativeFromCwd | internal/storage/store.go:431-438 | any other path names what it names behind the working directory's own, for plain names the place below it, and nothing without one |
| Paths.CleanForm | internal/storage/store.go:429-438 | a cleaned path has no superfluous part, starts with a slash exactly when the path did, and stays when cleaned again |
| Paths.JoinResolves | internal/storage/fetchers.go:72 | a joined path names the place reached from the first by following the second |
| Paths.RelIff | internal/storage/store.go:439-450 | the relative path is free of a leading `..` component exactly when the base is a prefix of the target |
| Paths.RelLeads | internal/storage/store.go:439 | the relative path leads from the base to the target |
| Paths.UnderRootIff | internal/storage/store.go:430-451 | `underRoot` holds exactly when the cleaned absolute components of the root are a prefix of those of the path |
| Paths.NfsAllowedIff | internal/storage/fetchers.go:72-78 | the guard lets a subpath through exactly when it leads to a place inside the mount |
| Paths.NfsAllowsDescent | internal/storage/fetchers.go:72-78 | every subpath that never climbs above the mount is let through |
| Paths.StaysBelowIff | internal/storage/fetchers.go:72-78 | a subpath never climbs above the mount exactly when no first part of it leads out |
| Paths.DefaultDirectory | internal/storage/store.go:255-257 | the default destination is the child of the root named by the id, and is under the root |
| NfsFetcher.Fetch | internal/storage/fetchers.go:71-100 | refused exactly when following the subpath from the mount leads out of it; only paths below the destination change; success copies the tree or the one file that stands where the subpath leads; without a fault the outcome is determined by what stands there |
| Docker.GuaranteeIsRely | internal/container/paired_run.go:126-135 | runs with distinct RunIDs give each other what they rely on |
| Docker.InterleavedRely | internal/container/paired_run.go:126-135 | in every history of any number of runs, a run sees between its own steps only what it relies on |
| Docker.GoneForGood | internal/container/paired_run.go:133-135 | once a returned run has nothing left, nothing of it comes back |
| Docker.OthersKept | internal/container/paired_run.go:560-576 | a run's step leaves every other owner's networks, volumes and containers exactly as they are |
| Docker.RemovalByNameSparesIff | internal/container/paired_run.go:571-576 | removal by name spares everyone else's exactly when nobody else has an idle network or volume of that name |
| Docker.SameRunIDTakesNetwork | internal/container/paired_run.go:133-141 | under one RunID the second run's cleanup takes the first one's network |
| RunSystem.OwnStep | internal/container/paired_run.go:133-232 | each step of a run keeps what its stage should have on the daemon, is within its guarantee, and removes nothing in use |
| RunSystem.StepKeeps | internal/container/paired_run.go:133-232 | every step of every run, and whatever goes on outside, keeps what holds of all runs |
| RunSystem.ReturnedLeavesNothing | internal/container/paired_run.go:560-576 | in every interleaving of runs whose RunIDs differ while they live, on a daemon that honours the removals it permits: no network, volume or container is a returned run's, and no removal ever met a resource in use |
| RunSystem.NothingUsesThem | internal/container/paired_run.go:571-576 | there, when a run comes to remove its network and volume, no container of anyone's uses them |
| RunSystem.StepSparesOthers | internal/container/paired_run.go:560-576 | on any daemon no step of a run touches what is not its own |
| RunSystem.AlwaysOn | internal/container/paired_run.go:133-135 | a run that has not returned can always go on, and returns within ten steps of its own |
| RunClient.Client.NetworkCreate | internal/container/paired_run.go:137-142 | makes the run's network or nothing |
| RunClient.Client.VolumeCreate | internal/container/paired_run.go:144-149 | makes the run's volume or nothing |
| RunClient.Client.ContainerCreate | internal/container/paired_run.go:291-314 | makes one container on the run's network or nothing; every other resource of the run stays |
| RunClient.Client.ContainerRemove | internal/container/paired_run.go:569 | removes the container if the daemon honours it, and nothing else |
| RunClient.Client.NetworkRemove | internal/container/paired_run.go:571-573 | is refused exactly when the run's network is there and a container of the run uses it; refused or missing, the run's resources stay as they are; otherwise an honouring daemon removes the network and nothing else of the run |
| RunClient.Client.VolumeRemove | internal/container/paired_run.go:574-576 | is refused exactly when the run's volume is there and a container of the run uses it; refused or missing, the run's resources stay as they are; otherwise an honouring daemon removes the volume and nothing else of the run |
| RunEvents.OneFinalBeat | internal/container/paired_run.go:137-232 | of a run's orchestrator events exactly the last is final: a result after all phases, or an error of the phase last announced |
| RunStates.RunState.Emit | internal/container/paired_run.go:253-276 | only terminal events block, until they are taken or their timeout is over, whoever else acts and even if nobody receives |
| RunStates.RunState.EmitError | internal/container/paired_run.go:278-285 | tells an orchestrator error of the phase |
| RunStates.RunState.CloseEvents | internal/container/paired_run.go:106 | closes the channel at once, with every event sent where it was; the process goes down exactly if a send is blocked then, and none of its own is |
| RunStates.OutcomeIsLastFrame | internal/api/handlers/benchmark.go:90-122 | the last frame of a drained client that is the orchestrator's is the run's last event, payload included, unless that was given up when its timeout was over |
| RunStates.ClosedKeepsOurs | internal/container/paired_run.go:106 | a closed channel takes no further event: what was sent, taken and lost stays as it is, and a further send brings the process down |
| PairedRun.ValidateMeans | internal/container/paired_run.go:108-123 | each of the five errors has its exact condition on the spec's fields, and so has passing |
| Health.PollsBounded | internal/container/paired_run.go:388-394 | no more polls than half the timeout in seconds rounded up, overflow included |
| Health.DeadlineMeans | internal/container/paired_run.go:388-392 | the deadline is 300 seconds, or as many as configured; polls are two seconds apart besides what they take |
| Int64.Wrap64Means | internal/container/paired_run.go:392 | a Duration is the product modulo 2^64, in the signed range |
| Health.AnswerDetermined | internal/container/paired_run.go:394-420 | the answer is that of the first poll that does not go on, or the deadline's |
| Health.HealthyIff | internal/container/paired_run.go:394-411 | the answer is an address exactly when the first poll that finds anything starts before the deadline and before the context is done, shows that nonempty address on the run's network, and has no health path configured or a good check on a nonzero port |
| Health.TimesOutIff | internal/container/paired_run.go:394-420 | the wait times out exactly when every poll before the deadline finds neither a ready engine nor a context that is done |
| Health.WaitEngineHealthy | internal/container/paired_run.go:387-420 | the loop gives that answer within that many polls, blocking on no event, with one progress event for every poll that finds the engine not ready |
| PairedRun.CreatePlaces | internal/container/paired_run.go:137-149 | network then volume, each announced first; a failure tells its phase |
| PairedRun.EngineConfigMeans | internal/container/paired_run.go:292-309 | the engine's configuration part by part, with the GPU access of each vendor |
| PairedRun.BenchmarkConfigMeans | internal/container/paired_run.go:321-349 | the benchmark's, part by part: its own environment except for the engine's URL, and the results volume |
| PairedRun.ConfigFileMeans | internal/container/paired_run.go:365-375 | which file is copied into the benchmark container for which kind, and when none is |
| PairedRun.WholeScript | internal/container/paired_run.go:139-230 | the calls of a whole run, one by one |
| PairedRun.CreateEngineContainer | internal/container/paired_run.go:291-314 | the engine gets its name, network, image, command, environment, the model directory read-only and the vendor's GPU access; its id is kept exactly when it was created |
| PairedRun.CreateBenchmarkContainer | internal/container/paired_run.go:320-354 | the benchmark gets its name, network, image, command, the results volume, and its environment with the engine's URL over it; its id is kept |
| PairedRun.CopyBenchmarkConfig | internal/container/paired_run.go:362-381 | copies the YAML or JSON file of the kind exactly when there is one |
| PairedRun.BringUpEngine | internal/container/paired_run.go:151-178 | engine created, started and healthy, in that order, before it is announced so |
| PairedRun.BringUpBenchmark | internal/container/paired_run.go:180-197 | benchmark created, configured and started, in that order |
| PairedRun.Collect | internal/container/paired_run.go:203-232 | a nonzero exit is told by an error event of the benchmark's and one more blocking send; results are read after the exit and sent as they were read; missing ones are told apart by the code |
| PairedRun.ToldMeans | internal/container/paired_run.go:140-230 | word for word what the orchestrator tells: a success announces the eight phases in order and ends with the result `done`; each failure announces the phases up to its own and ends with an error naming it |
| PairedRun.CleanupRun | internal/container/paired_run.go:560-576 | benchmark, engine, network, volume: of the containers there are, each is stopped and then removed; no removal meets a resource in use, and on an honouring daemon nothing of the run is left |
| PairedRun.PairedRun | internal/container/paired_run.go:105-233 | a bad spec leaves no trace and is told its first fault; otherwise one of the two stories agreeing with the returned error, a success ending with the results that were read; at most two blocking sends, 20 seconds; exactly the calls that go with it; on a daemon that lets it do all it can the engine's health and the benchmark's results alone decide; all of it a history of `RunSystem` that ends returned, so that nothing of its own is left on an honouring daemon; the close at the end brings the process down exactly if a log goroutine's send is blocked then |
| EventChannel.StepKeeps | internal/container/paired_run.go:253-276 | every step of any goroutine keeps the channel's invariant: bounded, first come first served, no send both taken and lost, and down only after a close |
| EventChannel.AcceptedInOrder | internal/container/paired_run.go:262-275 | accepted events are an in-order subsequence of the attempted sends |
| EventChannel.LossReason | internal/container/paired_run.go:262-275 | a status or progress event is lost only when the channel is full as it is sent, a terminal one exactly when its timeout is over |
| EventChannel.BlockedBriefly | internal/container/paired_run.go:262-269 | in every schedule no send is blocked for longer than the timeout, and no status or progress event at all |
| EventChannel.ClientSees | internal/api/handlers/benchmark.go:81-122 | a connected client has been framed exactly the accepted events in order up to the buffer; after the close all of them; one that left a prefix |
| EventChannel.OutcomeReachesClient | internal/api/handlers/benchmark.go:90-122 | after the close every terminal event was framed unless it was given up when its timeout was over |
| EventChannel.SendsFinish | internal/api/handlers/benchmark.go:83-89 | with nobody receiving, any list of events is sent to its end, blocked for at most one timeout for each terminal event in it |
| EventChannel.RunEndsInTime | internal/api/handlers/benchmark.go:83-89 | when the handler only waits for the run: sending the rest of its events, closing and returning takes at most one timeout for each terminal event in it; then the handler is gone with the run's error, or another's send was still blocked at the close |
| EventChannel.ClosePanicsIff | internal/container/paired_run.go:106 | in every schedule the close brings the process down exactly when a send is neither taken nor given up, which is a terminal one of the last timeout facing a full buffer |
| EventChannel.CloseCanPanic | internal/container/paired_run.go:106-201 | and there is such a schedule: a full buffer, a log goroutine's error, the close |
| BenchmarkHandler.RejectsIff | internal/api/handlers/benchmark.go:40-59 | the handler turns away exactly the specs without a valid RunID or an image; the run would turn away unknown kinds too |
| BenchmarkHandler.Run | internal/api/handlers/benchmark.go:80-122 | the frames are the first of the accepted events in order, all of them when the loop ends by itself; while nobody else acts every turn frames one more as long as there is one; the run is cancelled early exactly when the client has left or a write failed; but for a failed write or a process gone down, the run has returned before the handler does |
| BenchmarkHandler.AwaitRun | internal/api/handlers/benchmark.go:86-97 | while the run sends the rest of its events, all of them, and closes, whatever the log goroutines do, the frames stay as they were; the wait ends with the run's error unless the process goes down |
| LogLines.SplitUndoesJoin | internal/container/paired_run.go:478-486 | whatever newline-free lines a stream is made of, those are the lines shown, without trailing CRs and empty ones |
| LogLines.SplitExists | internal/container/paired_run.go:478-486 | every stream is made of such lines and a newline-free rest |
| LogLines.ShownMeans | internal/container/paired_run.go:481-487 | the lines shown are those that hold more than CRs, in order, each without the CRs at its end and never empty |
| LogLines.SplitInPieces | internal/container/paired_run.go:473-486 | splitting a chunk at a time is splitting the whole |
| LogLines.EmitLines | internal/container/paired_run.go:478-486 | the inner loop emits the buffer's lines in order and keeps the newline-free rest |
| LogLines.StreamFrom | internal/container/paired_run.go:470-496 | however the bytes are chunked, exactly the lines of all bytes received up to the reader's end go out, then one error event if the stream broke |
| LogLines.StreamLogs | internal/container/paired_run.go:457-496 | so they do when the logs can be opened; otherwise one error event does |
| Secrets.ParseRecovers | internal/flagcommons/secrets/openbao.go:194-211 | a nonempty `#`-free path and a nonempty field come back from their key |
| Secrets.ParseIff | internal/flagcommons/secrets/openbao.go:192-211 | exactly what a key parses to |
| Secrets.ParseErrIff | internal/flagcommons/secrets/openbao.go:192-211 | exactly which keys do not parse, and why |
| Secrets.ParseKey | internal/flagcommons/secrets/openbao.go:194-211 | the loop computes that parse, with its three errors |
| Secrets.ExtractMeans | internal/flagcommons/secrets/openbao.go:144-169 | the one reply that gives a value, and what each other one is an error of |
| Secrets.BoundedStaleness | internal/flagcommons/secrets/openbao.go:108-121 | in every interleaving a hit is what the server gave for exactly that path and field, no older than the TTL plus the storing Get's duration |
| Secrets.NothingCached | internal/flagcommons/secrets/openbao.go:118-120 | with a TTL of zero or less nothing is ever cached |
| Secrets.Provider.FromCache | internal/flagcommons/secrets/openbao.go:172-184 | gives the value of an entry up to its expiry and drops it after, as the interleaving model's lookup does |
| Secrets.Provider.ToCache | internal/flagcommons/secrets/openbao.go:186-190 | stores the value until the TTL is over |
| Secrets.Provider.Get | internal/flagcommons/secrets/openbao.go:102-122 | an entry up to its expiry answers; otherwise the server does, always if it can be reached, and the value is stored for the TTL; every value is justified by the server |
| Strings.TrimSpaceMeans | internal/gpu/nvidia.go:30-31 | trimming takes away spaces only, and all of them at both ends |
| Strings.IsSpaceIff | internal/gpu/nvidia.go:30-31 | the space characters are these 25 |
| Strings.SplitUndoesJoin | internal/gpu/nvidia.go:36 | splitting undoes joining for texts in which no separator begins |
| Strings.JoinUndoesSplit | internal/gpu/nvidia.go:36 | joining undoes splitting for every text |
| Strings.PartsHoldNone | internal/gpu/nvidia.go:36 | no part of a split text holds the separator |
| Strings.DecimalMeans | internal/gpu/nvidia.go:41 | one more digit multiplies by ten |
| Strings.AtoiUndoes | internal/gpu/nvidia.go:41 | Atoi undoes decimal printing exactly for 64-bit integers |
| Strings.AtoiIff | internal/gpu/nvidia.go:41 | Atoi reads exactly the decimal notations of 64-bit integers, behind a sign and zeros or not |
| Strings.ParseUintUndoes | internal/gpu/nvidia.go:46 | ParseUint undoes decimal printing exactly below 2^64 |
| Strings.ParseUintIff | internal/gpu/nvidia.go:46 | ParseUint reads exactly the decimal notations below 2^64, behind zeros or not |
| Nvidia.MeansDetermined | internal/gpu/nvidia.go:27-76 | an output has one meaning |
| Nvidia.OkIff | internal/gpu/nvidia.go:27-76 | the parse succeeds exactly when there is a row and every nonblank line parses |
| Nvidia.ParseNVIDIAOutput | internal/gpu/nvidia.go:27-76 | all GPUs in order, or the error of the first bad line, never a partial list |
| Nvidia.RowParses | internal/gpu/nvidia.go:36-69 | a printed row parses to its GPU |
| Nvidia.ParseLineMeans | internal/gpu/nvidia.go:36-69 | what a line of five fields is read as, the error of its first field that is no number, and the error of any other number of fields |
| Nvidia.RowsMean | internal/gpu/nvidia.go:30-34 | the rows are the lines that are not all space, in order, without the space around them |
| Nvidia.ParseUndoesPrint | internal/gpu/nvidia.go:27-76 | for every nonempty list of printable GPUs, parsing the printed form gives exactly that list |

## Left out

- Files.FileSystem.MkdirAll: an ancestor that is a symbolic link makes it fail, because links are resolved by no part of this file system.
- Files.FileSystem.CopyFile: writing through a symbolic link that already stands at the destination, for the same reason; a source root that is itself a link is excluded too.
- Files.FileSystem.CopyTree: a link in the destination where the source has a regular file, for the same reason.
- Files.FileSystem.CopyNode: the same.
- StoreTheorems.DirectoriesStand: says nothing of an entry whose Delete has begun to remove files and not completed, because its files are then partly or wholly gone (`FailedDeleteLosesFiles` says when); nor of entries with a destination of the caller's, which the store does not own.
- ModelStore.Store.Fetch: one caller at a time, because methods cannot be interleaved; the interleavings are those of `StoreSystem`, of which `FetchRuns` shows it to be one.
- NfsFetcher.Fetch: a destination with a symbolic link where a regular file is to be written, as for `CopyTree`, and one that overlaps the source; links where the source has links, as a first copy leaves them for a second, are covered.
- RunSystem.ReturnedLeavesNothing: an image's own defaults, the exit of containers and their logs play no part in what a run leaves.
- PairedRun.PairedRun: "leaves nothing behind" is claimed only for a daemon that honours every removal it permits within cleanup's 30 seconds; that nobody else's resources change is claimed for every daemon. A panic at one run's close takes the other runs of the process down where they stand: they then take no further step, cleanup included, and nothing is claimed of what they leave.
- EventChannel.StepKeeps: nothing is said of what follows a panic, because the process is gone.
- LogLines.StreamLogs: what follows the last newline is never shown, as in the code.
- Secrets.Provider.Get: others act on the cache only between its lookup and its store, because the mutex makes those two atomic; all interleavings are those of `IsRun`.
- Event timestamps, durations and the exact texts of errors; the JSON of a frame.
- The Docker SDK, HTTP, `huggingface-cli`, tar and JSON encoding: their outcomes are arbitrary.
- SHA-256 and singleflight, which are used by contract.
- File modes, fsync, power loss.
- `NewStore` on an unreadable or unparsable index, `Get`, and logging: single branches.
- The order of `envSlice`: its comment says stable, the loop follows map order.
- A 64-bit host: `Atoi` and `Duration` are modelled at 64 bits, sizes and counts without bound.
- Invalid UTF-8 in `nvidia-smi` output; the constant vendor of a parsed GPU.
- AMD and Intel parsers, the poller, the router, authentication, configuration and Manager CRUD.
