# Podwatcher, modelled and proved in Dafny

Podwatcher watches Spark pods in a Kubernetes cluster, resumes its watch from a checkpointed position, keeps a bounded
index of applications and pods, serves an incremental change feed and publishes completion summaries. This project
models that behaviour and proves what it guarantees. Check it with `dafny verify dfyconfig.toml`.

## What is modelled

* **The cluster** (`Cluster`) is an unbounded history of added, modified and deleted events with growing resource
  versions; `StateAt(h, n)` is the pod map after `n` events.
* **The watcher** exists twice. `PodInformer` is the goroutine's own code as a class: methods over cache, position,
  dirty and synced flags, with its loops. `WatchProtocol` is the concurrent system: the goroutine cut into single steps
  (handler call, cache update, position update), the periodic saver, the saver that Stop runs, the checkpoint store,
  saves that land late, crashes, and the cluster moving on meanwhile. `WatcherRefinement` shows that every round of the
  class's run loop is a run of the protocol, with the same state and the same handler calls. `WatchState` holds the
  functions both share, `WatchSafety` the invariant and its preservation, `WatchTheorems` the results, `Replay` the
  convergence argument, and `ResumeStore` the checkpoint stores, whose HTTP guard the protocol uses as it is.
* **The state store.** `StateStore` is the class: three coupled maps, the change clock, the eviction passes, the paged
  feed, save and load. Each method is proved to compute a function or relation of `StoreState`, `ChangeFeed` or
  `Persistence`. `StoreRuns`, `StoreTheorems`, `StoreHistory`, `StoreSaving` and `FeedRuns` prove what whole runs keep.
  Which of several equally old records is evicted, in which order maps are visited and how an unstable sort places equal
  keys is left open: every result holds for all choices.
* **The handler** (`EventHandler`, `Completions`) and the **sanitizer** (`Sanitizer`).
* Functions that several modules share are tied to the outside in its own terms: `PodIdentity` says by namespace, name
  and UID which pods are the same, `Observations` says field by field what an observed pod leaves in the records.

## How to read the results

The watch protocol's central fact is that a position is stored only after the handler has seen everything up to it,
and that seeding a newer snapshot under an older position does no harm: the cache is, key by key, between the two, and
meets the cluster state when the replay catches up. A pod recreated under one name during a gap is one key there, so
reconcile reports it as an update and never as a deletion; the exact diff says so.

Where a promise is not met in general the exact condition is proved, with an input for the failing side. Each speaks of
the whole operation, evictions included:

| what can fail | exactly when | failing input |
|---|---|---|
| the checkpoint is the position after Stop | `StopRace` | `StopCanSetCheckpointBack` |
| the driver index names each application's driver | `IndexSurvives` | `RelabelBreaksIndex` |
| change stamps are 1ms apart and below the clock | `NewcomerKeepsSpacing` | `NewcomerCanBreakSpacing` |
| pages deliver every change | `WalkIsUnpaged` | `PagingCanLose` |
| a polling consumer misses nothing through a bootstrap | `BootstrapKeepsFeed` | `BootstrapCanHide` |
| a polling consumer misses nothing through a restart | `RestartShowsFile` | `RestartCanMiss` |
| a clean store has the records of its file | `SavedExactly` | `LaterRefreshIsNotSaved`, `FailedWriteIsNotRetried` |
| finish and deletion times are set once | `RestartKeepsExactly` | `RestartCanForget` |
| an import leaves the store sound | `ImportSoundExactly` | `OrphanBreaksImport` |

The repository's documentation and its code disagree in these places, and the model follows the code:

* Its README.md:222-223 promises that a restart re-reports all live applications with fresh `changedAt`. Bootstrap
  anchors new records to the pod's past and never moves the stamp of known ones (`BootstrapAnchors`, `BootstrapFrame`).
* Its README.md:218 calls the stamps strictly increasing. Anchors of bootstrapped newcomers may tie with, or exceed, the
  clock (`NewcomerKeepsSpacing`); live stamps do increase once they come after every anchor (`RunStampsAboveAnchors`).
* Its README.md:226 names 1000 as the default of `maxApplications`; internal/config/config.go:78 sets 5000 and the store
  itself falls back to 10000 (`Store.constructor`).

Assumptions: a time is one integer of nanoseconds since the zero time, and the clock is past it. Resource versions are
numbers in practice; the comparison is modelled for all strings, the theorems about histories need numbers. A list read
reports a version that covers every event so far. Pod phases do not spell `succeeded`, `failed` or `deleted`;
`LifecycleKept` says exactly what goes wrong if they do, and `RawPhaseBreaksLifecycle` shows it. The runs of the store
contain no application under the empty id, which the eviction scan takes for "none found"; the class's own contracts
cover such stores, and `EmptyIdStopsEviction` shows what can happen. The checkpoint store holds what podwatcher wrote,
and an answer between 200 and 299 to a save means that the service wrote it. Namespaces, names and UIDs contain no slash.

## Model

| member | source | states |
|---|---|---|
| `Replay.ResumeConverges` | internal/informer/pod_informer.go:196-217 | From a snapshot taken after `n` events, replaying every event after an older position `k` gives the cluster state of the replay position as soon as that reaches `n`, for every history, deletions and recreations under one name included |
| `Replay.BetweenStep` | internal/informer/pod_informer.go:336-412 | One replayed event, older or newer than the cache, keeps every key either at its value at the replay position or at its value in the snapshot |
| `Replay.ReplayStaysBetween` | internal/informer/pod_informer.go:336-412 | So it stays over a whole replay, before it has caught up too |
| `Replay.ReplayDispatchesDeletes` | internal/informer/pod_informer.go:404-407 | Every deletion in the replayed stretch reaches the handler, whatever the cache held |
| `WatchTheorems.NoEventLost` | internal/informer/pod_informer.go:89-122 | In every interleaving of watch steps, both savers, failed saves, saves landing after they were given up or after a crash, restarts and crashes: every version that is checkpointed, current, being saved or still able to land has all events up to it subsumed by a completed relist whose pods were all shown, or delivered one by one since |
| `WatchTheorems.ResumeDeliversAll` | internal/informer/pod_informer.go:172-183 | Restarting from a checkpoint delivers every later event again, a deletion as that deletion, by calls made after the restart, through further crashes, as long as no relist is started; later means later than every save that may still land, too |
| `WatchTheorems.ResumeFrom` | internal/informer/pod_informer.go:196-217 | The same from any state satisfying the invariant with the process down |
| `WatcherRefinement.ResumeCatchesUp` | internal/informer/pod_informer.go:172-217 | From every checkpoint a restart can catch up by seeding and watching alone: some run without a relist ends with the position at the last event and the cache at the cluster state |
| `WatchTheorems.CacheIsClusterState` | internal/informer/pod_informer.go:124-183 | In every reachable state between events, a synced watcher whose position is at or past its last list holds exactly the cluster state at that position |
| `WatchTheorems.RunInvariant` | internal/informer/pod_informer.go:124-183 | Both protocol invariants hold after every run from a state that has them, the initial state included |
| `WatchSafety.StepKeeps` | internal/informer/pod_informer.go:124-519 | Every single step (commit, start, crash, late landing, seed, list, reconcile, watch, bookmark, gone, save) keeps the invariant that every version in hand is safe to resume from and the cache is in step |
| `WatchSafety.PositionKeeps` | internal/informer/pod_informer.go:336-412 | Moving the position past an event is safe because the handler call and the cache update came first |
| `WatchSafety.SeedingKeeps` | internal/informer/pod_informer.go:200-217 | Seeding the snapshot shows every listed pod and leaves the older position untouched |
| `WatchSafety.ListingKeeps` | internal/informer/pod_informer.go:228-243 | The initial list becomes cache and position only after every pod was shown |
| `WatchSafety.ReconcilingKeeps` | internal/informer/pod_informer.go:249-292 | Reconcile, step by step, keeps the invariant and ends at the listed state |
| `WatchSafety.EndSaveKeeps` | internal/informer/pod_informer.go:496-519 | The end of a save, written or not, acknowledged or not, keeps the invariant |
| `WatchSafety.RestartKeeps` | internal/informer/pod_informer.go:89-100 | A start from whatever was checkpointed, a crash, and a save landing late keep the invariant |
| `WatchTheorems.CheckpointIsFlushed` | internal/informer/pod_informer.go:496-519 | With one saver at a time and no save landing after it was given up, and a service whose answers between 200 and 299 mean that it wrote: a clean, non-empty position with no save in flight is the checkpointed one, a failed save stays pending, and the empty version is never written, even when a failing save crosses a cleared position |
| `WatchTheorems.StopRace` | internal/informer/pod_informer.go:118-122 | Two saves race once the second has begun. If the position is clean when both have ended, in whatever order and with whatever outcome and whatever the watcher does meanwhile, it never moved and both were acknowledged, and the checkpoint is behind it if and only if the older save ended last and carried another version |
| `WatchTheorems.LastEndedIsCheckpointed` | internal/informer/pod_informer.go:496-519 | While savers only finish and the position is not pending at the end: every save that ended was acknowledged, and the last one to end is what is checkpointed |
| `WatchTheorems.LastLandingWins` | internal/informer/pod_informer.go:460-519 | While savers only finish, the checkpoint is what the last landing save carried |
| `WatchTheorems.StopCanSetCheckpointBack` | internal/informer/pod_informer.go:460-477 | That race is reachable: a concrete run from the first deployment that leaves the checkpoint behind the position |
| `WatchTheorems.FailedLoadWritesNothing` | internal/store/resume_store.go:124-158 | A process whose guarded store did not establish its baseline at the start (unreachable, another status, or a 200 that does not decode over whatever is checkpointed) writes nothing until the next start; the guard is the proved one, and only a save sent by an earlier process can still land |
| `PodInformer.PodInformerManager.SetRV` | internal/informer/pod_informer.go:438-448 | New position and dirty flag; an empty or equal version changes nothing |
| `PodInformer.PodInformerManager.OnAdded` | internal/informer/pod_informer.go:336-360 | An added pod is ignored when the cache is at least as new, an update when older, an addition when unknown; cache, position and calls are those of the event function |
| `PodInformer.PodInformerManager.OnModified` | internal/informer/pod_informer.go:362-387 | The same function for a modified pod |
| `PodInformer.PodInformerManager.OnDeleted` | internal/informer/pod_informer.go:389-412 | A deletion is always dispatched and removes whatever version is cached |
| `PodInformer.PodInformerManager.ShowInitial` | internal/informer/pod_informer.go:207-211 | Every listed pod is shown once, in order, as part of the initial list |
| `PodInformer.PodInformerManager.SeedSnapshot` | internal/informer/pod_informer.go:200-217 | The snapshot becomes the cache, the position does not move; a failed list changes nothing |
| `PodInformer.PodInformerManager.Relist` | internal/informer/pod_informer.go:222-245 | Initial list or reconcile, then the list's version becomes the position; a failed list changes nothing |
| `PodInformer.PodInformerManager.Reconcile` | internal/informer/pod_informer.go:249-292 | Exact diff in any visiting order: the cache ends with the listed keys, each at the newer version, and the handler gets exactly once each addition, strictly newer update and vanished pod, and nothing else |
| `PodInformer.ReconcileIsExact` | internal/informer/pod_informer.go:249-292 | In every visiting order the two loops make the exact difference and leave the reconciled cache |
| `PodInformer.MergeIsExact` | internal/informer/pod_informer.go:260-276 | The first loop leaves each visited key at the newer version and makes exactly the additions and updates owed for it |
| `PodInformer.PruneIsExact` | internal/informer/pod_informer.go:278-291 | The second loop makes exactly the deletions owed |
| `PodInformer.PodInformerManager.OnDelivery` | internal/informer/pod_informer.go:315-331 | One delivery of a watch: bookmark, change or error |
| `PodInformer.PodInformerManager.Drain` | internal/informer/pod_informer.go:306-333 | The loop handles the events up to the first gone status and no further |
| `PodInformer.PodInformerManager.Watch` | internal/informer/pod_informer.go:294-334 | How a watch ends and what it did until then; a refused watch changes nothing |
| `PodInformer.PodInformerManager.ListAndWatch` | internal/informer/pod_informer.go:164-183 | Which of relist, seed and neither precedes the watch, the state it opens in, and all handler calls of the round up to the order in which reconcile visits keys |
| `PodInformer.PodInformerManager.LoadRV` | internal/informer/pod_informer.go:479-494 | The position comes from a successful load of whichever store the watcher has: none, the nop store, the file, or the guarded service |
| `PodInformer.PodInformerManager.SaveRV` | internal/informer/pod_informer.go:496-519 | Saves exactly a pending, non-empty position to whichever store the watcher has; with the guarded service and a baseline it stays pending exactly without an answer or with a code outside 200 to 299 |
| `WatcherRefinement.EventIsThreeSteps` | internal/informer/pod_informer.go:336-412 | Handling one watch event is three protocol steps: handler call, cache update, position update |
| `WatcherRefinement.DrainIsRun` | internal/informer/pod_informer.go:306-333 | Draining a stream that delivers the history, with bookmarks and errors in between, is a run of the protocol: same state, same calls |
| `WatcherRefinement.SeedIsRun` | internal/informer/pod_informer.go:200-217 | Seeding the snapshot is a run of the protocol |
| `WatcherRefinement.ListIsRun` | internal/informer/pod_informer.go:228-243 | The initial list is a run of the protocol |
| `WatcherRefinement.ReconcileIsRun` | internal/informer/pod_informer.go:249-292 | Reconcile, in any visiting order, is a run of the protocol |
| `WatcherRefinement.RoundIsRun` | internal/informer/pod_informer.go:164-183 | One round of the run loop, whichever list it takes and however its watch ends, is a run of the protocol |
| `WatcherRefinement.RunLoopIsRun` | internal/informer/pod_informer.go:124-162 | So is the run loop for any number of rounds: the same state and the same handler calls, in order |
| `WatcherRefinement.RunTracksCluster` | internal/informer/pod_informer.go:124-162 | What the run loop computes from a cold start: whenever it has a position its cache is the cluster state there, and its handler calls account for every event up to there |
| `WatcherRefinement.GoneIsRelisted` | internal/informer/pod_informer.go:140-143 | After a gone version nothing is left to save, the next round cannot watch without a list, and a list that succeeds is reconciled, gives the position and is pending for saving |
| `WatcherRefinement.ReconciledIsListed` | internal/informer/pod_informer.go:249-292 | From any cache a run can reach, reconcile ends with exactly the listed pods |
| `WatcherRefinement.RelistRecovers` | internal/informer/pod_informer.go:140-143 | After a gone version the relist brings cache and position to the cluster state of the list |
| `PodIdentity.CacheKeyIsName` | internal/informer/pod_informer.go:75 | For names and namespaces without a slash: two pods share a cache key if and only if namespace and name agree |
| `PodIdentity.OthersStay` | internal/informer/pod_informer.go:336-412 | Handling an event of one pod leaves the cache entry of every other namespace and name as it was |
| `PodIdentity.NewNameIsAdded` | internal/informer/pod_informer.go:336-387 | A pod whose namespace and name are not cached is dispatched as an addition and cached, whatever else is cached |
| `PodIdentity.KnownNameIsUpdated` | internal/informer/pod_informer.go:336-387 | A strictly newer version of a cached namespace and name is one update and takes its place; any other version changes nothing and is not dispatched |
| `PodIdentity.DeletedNameIsGone` | internal/informer/pod_informer.go:389-412 | A deletion is dispatched once and leaves no version of that namespace and name behind |
| `PodIdentity.ListedAreCached` | internal/informer/pod_informer.go:212-214 | A cache replaced by a list holds exactly the listed pods, pods of one name in different namespaces included |
| `PodIdentity.ReconcileByName` | internal/informer/pod_informer.go:249-292 | In any visiting order reconcile makes exactly these calls, each once: an addition for each listed pod of an uncached namespace and name, an update for each listed in a newer version, a deletion for each cached one not listed |
| `PodIdentity.ReconciledByName` | internal/informer/pod_informer.go:249-292 | And leaves exactly the listed namespaces and names, each at the newer of its two versions |
| `PodIdentity.StateIsAlive` | internal/informer/pod_informer.go:336-412 | The cluster state the theorems on histories speak of holds exactly the pods whose last event, by namespace and name, was no deletion |
| `PodIdentity.CachedAreAlive` | internal/informer/pod_informer.go:124-183 | In every reachable state a synced watcher past its last list caches exactly the pods alive at its position, by namespace and name |
| `PodIdentity.DeliveredIsByName` | internal/informer/pod_informer.go:336-412 | What counts as delivered: a deletion as such, a live pod as itself or a newer version of its namespace and name |
| `Cluster.AliveOrder` | internal/informer/pod_informer.go:526-536 | Comparing a live pod's version with an event on the same key tells whether the event is past |
| `Cluster.AliveMonotone` | internal/informer/pod_informer.go:526-536 | Of two cluster states the later holds, per key, the newer or the same pod |
| `Cluster.CacheOfListing` | internal/informer/pod_informer.go:212-214 | Replacing the cache by a list, in any order, restores exactly the listed pods |
| `ResourceVersion.RvOrderIsNumeric` | internal/informer/pod_informer.go:526-536 | On decimal spellings the comparison is the numeric order |
| `ResourceVersion.OpaqueOrder` | internal/informer/pod_informer.go:526-536 | A version that is no decimal spelling is only at least as new as itself |
| `ResourceVersion.LargeOrder` | internal/informer/pod_informer.go:526-536 | Nor is one that does not fit into 64 bits |
| `ResumeStore.HTTPResumeStore.Load` | internal/store/resume_store.go:124-150 | Not found exactly for a 404, found exactly for a 200 that decodes, else an error; exactly the first two establish the baseline |
| `ResumeStore.HTTPResumeStore.Save` | internal/store/resume_store.go:152-177 | A save without baseline is refused silently; with one it PUTs, and fails exactly without an answer or with a code outside 200 to 299 |
| `ResumeStore.FileResumeStore.Load` | internal/store/resume_store.go:50-63 | Not found without a file, the envelope's version when it can be read and decodes, else an error |
| `ResumeStore.FileResumeStore.Save` | internal/store/resume_store.go:65-80 | The file holds the new version exactly when the save reports success, else what it held |
| `ResumeStore.NoPutBeforeBaseline` | internal/store/resume_store.go:88-90 | For every sequence of requests and answers the PUTs are exactly the saves after the first load that establishes the baseline |
| `StateStore.Store.constructor` | internal/store/state_store.go:111-134 | A non-positive limit uses the default; the store starts from the state file when there is one that parses, and is marked for saving exactly when the cluster had to be stamped; else empty |
| `StateStore.Store.IdentifyApp` | internal/store/state_store.go:206-220 | Identity fields: earliest creation, configured cluster, first namespace, latest non-empty labels |
| `StateStore.Store.AdvanceApp` | internal/store/state_store.go:222-247 | Only the driver moves the lifecycle, and it is reported changed exactly when status, finish or deletion time differ |
| `StateStore.Store.Stamp` | internal/store/state_store.go:256-264 | The next stamp and the clock: never less than 1ms after the last one |
| `StateStore.Store.UpsertAppLocked` | internal/store/state_store.go:183-269 | The application half of an observation, whole new state |
| `StateStore.Store.TimePod` | internal/store/state_store.go:320-335 | Times of a pod record; bootstrap anchors the update time and never deletes |
| `StateStore.Store.UpsertPodRecordLocked` | internal/store/state_store.go:275-340 | The pod half of an observation and the driver index, whole new state |
| `PodIdentity.StoreKeyIsIdentity` | internal/store/state_store.go:369-376 | Two pods share a store record if and only if their UIDs agree, or both have none and namespace and name agree |
| `Observations.RecordedPodsBelong` | internal/store/state_store.go:773-809 | Recorded are exactly the pods whose labels name a driver or executor and a non-empty application id |
| `Observations.AppTellsObservation` | internal/store/state_store.go:183-269 | Every field of the application record after an observation of one of its pods, live or bootstrapped, in terms of the pod and the record before: names, times, status, and a finish that is the end of the first container that is not waiting, if it tells one, else the time of the call |
| `Observations.PodTellsObservation` | internal/store/state_store.go:275-340 | Every field of the pod record likewise: start and finish follow the first container that is not waiting, or the pod's start time if all are |
| `Observations.OthersUntouched` | internal/store/state_store.go:159-179 | The records of no other application and of no other pod change |
| `StateStore.Store.OldestDeleted` | internal/store/state_store.go:414-427 | The map scan finds a deleted application with the earliest deletion time, and none exactly when none is deleted; a deleted application under the empty id is never found and hides at most those deleted after it |
| `StateStore.Store.DeleteAppLocked` | internal/store/state_store.go:437-445 | Removes exactly one application, its index entry and all its pods |
| `StateStore.Store.EvictAppsLocked` | internal/store/state_store.go:411-432 | Only deleted applications leave, with exactly their pods and index entries; over the limit none that stays is deleted; none that leaves was deleted later than a deleted one that stays; no more leave than the limit asks for; with a deleted application under the empty id the order and the number hold up to that one and those deleted after it |
| `StateStore.Store.EvictPodsLocked` | internal/store/state_store.go:451-493 | Only deleted records leave, and no driver of a known application; over the limit every deleted record that stays is such a driver; none that leaves was deleted later than another deleted record that stays; no more leave than the limit asks for; says when it is still over limit |
| `StateStore.Store.Candidates` | internal/store/state_store.go:462-472 | Exactly the deleted records that are not the driver of a known application, none twice |
| `StateStore.Store.RemoveInTurn` | internal/store/state_store.go:476-482 | Removes the longest needed prefix of the ordered candidates |
| `StateStore.Store.Upsert` | internal/store/state_store.go:159-179 | Both halves, both evictions in this order, and exactly when the state is marked for saving, for every store |
| `StateStore.Store.UpsertPod` | internal/store/state_store.go:145-147 | A live observation, always marked for saving |
| `StateStore.Store.BootstrapPod` | internal/store/state_store.go:155-157 | A startup observation, never a deletion, and exactly when it is marked for saving |
| `StateStore.Store.GetApplication` | internal/store/state_store.go:496-504 | The joined view of a known application, else nothing |
| `StateStore.Store.GetChanges` | internal/store/state_store.go:512-552 | The answer in the request's own terms: only known records changed since, with the given id and one of the non-empty given statuses, by ascending stamp; every one of them unless more is announced, and then none stamped later than one left out; more is announced exactly when a positive limit is smaller than their number, and the page is then full; each joined with its driver |
| `StateStore.Store.Matched` | internal/store/state_store.go:520-534 | The filter loop: exactly the matching records after the cursor, none twice |
| `StateStore.Store.ScanStamps` | internal/store/state_store.go:694-703 | The latest stamp and exactly the records without one |
| `StateStore.Store.RebuildClock` | internal/store/state_store.go:711-722 | Missing stamps are drawn in update order above the latest stamp |
| `StateStore.Store.IngestAppsLocked` | internal/store/state_store.go:691-725 | Indexes records, the last under an id winning, and rebuilds the clock |
| `StateStore.Store.IngestPodsLocked` | internal/store/state_store.go:673-686 | Indexes pod records and the driver index |
| `StateStore.Store.BackfillClusterLocked` | internal/store/state_store.go:652-670 | Stamps the cluster onto records without one and says exactly whether anything changed |
| `StateStore.Store.Load` | internal/store/state_store.go:627-648 | Start from a parsed file, or empty; marked for saving exactly when the cluster had to be stamped |
| `StateStore.Store.Save` | internal/store/state_store.go:727-771 | Writes exactly when something is pending; a failed write is not retried; a store without a file keeps its mark |
| `StateStore.Store.TakeSnapshot` | internal/store/state_store.go:738-748 | Lists every record exactly once, in any order |
| `StateStore.Store.ImportLegacy` | internal/store/legacy.go:16-50 | Ingest, then both eviction passes; nothing for empty files |
| `StoreRuns.RunHolds` | internal/store/state_store.go:159-179 | In every state of every run of observations, bootstraps, evictions, an import, saves and restarts under any configuration, in memory and on disk: records filed under their own non-empty id, every pod's application known, index within known applications, terminal status implies finish time, deleted implies deletion time, deletion implies finish |
| `StoreRuns.RunSettled` | internal/store/state_store.go:407-493 | As long as no restart lowers a limit, both maps are always within their limit or with nothing left to evict |
| `StoreRuns.RunHoldsOnlyNeeded` | internal/store/state_store.go:407-493 | In every such state, in terms of the records: over its limit the store holds no deleted application, or no deleted pod record but those of drivers of known applications |
| `StoreRuns.ImportSoundExactly` | internal/store/legacy.go:16-50 | An import, with its evictions, leaves a sound store sound if and only if every imported record that is neither overwritten by a later one nor evicted at once is one the store could have written, stamps aside, with a known or imported application, and so is the application of every imported driver, whose index entry stays even if its record does not |
| `StoreRuns.OrphanBreaksImport` | internal/store/legacy.go:16-50 | A concrete live pod record without its application, imported into an empty store |
| `StoreRuns.ObserveKeeps` | internal/store/state_store.go:159-179 | One observation with its evictions keeps all that and leaves the store settled |
| `StoreRuns.LifecycleKept` | internal/store/state_store.go:222-247 | A driver observation keeps the lifecycle invariant if and only if its raw phase does not spell an undue terminal status |
| `StoreRuns.RawPhaseBreaksLifecycle` | internal/store/state_store.go:812-828 | What the assumption on pod phases excludes: a driver whose phase is spelled like a derived status gets that status without a finish time |
| `StoreRuns.EvictionSettles` | internal/store/state_store.go:407-493 | After both evictions each map is within its limit or has no reclaimable record left, unless an application under the empty id was deleted |
| `StoreRuns.NoPodLeavesInVain` | internal/store/state_store.go:172-175 | Applications go first: a pod record leaves before its application only if the store is at its pod limit even after that |
| `StoreRuns.EmptyIdStopsEviction` | internal/store/state_store.go:411-427 | A concrete store over its limit with a deleted application under the empty id, from which the pass may evict one application or none |
| `StoreTheorems.RunIndexed` | internal/store/state_store.go:336-338 | Over any stretch of a run in which every index entry that names an observed pod for another application, or as no driver, belongs to an application evicted at once: each index entry names a retained driver record of that application, and every application with a driver record has an entry; restarts included |
| `StoreTheorems.StableRunIndexed` | internal/store/state_store.go:336-338 | Pods that keep their application and role keep every step so guarded, over any stretch of a run |
| `StoreTheorems.ObserveKeepsIndex` | internal/store/state_store.go:437-472 | One such observation keeps the index right, and a driver record leaves only because its application was evicted |
| `StoreTheorems.IndexSurvives` | internal/store/state_store.go:159-179 | A right index is right after an observation and its evictions if and only if every entry that names the pod for another application, or names it although it is no driver any more, belongs to an application evicted at once |
| `StoreTheorems.RelabelBreaksIndex` | internal/store/state_store.go:300-304 | Two concrete observations of a new store, of a pod whose application id changes, leave a wrong entry |
| `StoreTheorems.ViewIsScan` | internal/store/state_store.go:554-565 | With one driver per application the joined view equals what a scan of all pods finds, present or absent |
| `StoreTheorems.NewcomerKeepsSpacing` | internal/store/state_store.go:249-255 | A bootstrapped newcomer, with the evictions it causes, leaves the stamps spaced if and only if its anchor is no later than the clock and at least 1ms from the stamp of every application that stays |
| `StoreTheorems.RunSpaced` | internal/store/state_store.go:253-264 | Over any stretch of a run in which every bootstrapped newcomer meets that condition, from any state with spaced stamps, restarts included and whatever the supplied clock does: retained stamps stay at least 1ms apart and none exceeds the clock |
| `StoreTheorems.RunStamps` | internal/store/state_store.go:253-267 | In such a stretch each reported change is stamped at least 1ms above every retained stamp, and nothing but a newcomer moves a stamp otherwise |
| `StoreTheorems.LiveStamp` | internal/store/state_store.go:253-267 | The same for one observation |
| `StoreTheorems.NewcomerCanBreakSpacing` | internal/store/state_store.go:249-255 | The first bootstrap of an empty store already stamps above the clock |
| `StoreTheorems.RunStampsAboveAnchors` | internal/store/state_store.go:253-267 | Newcomers included: as long as live observations come at least 1ms after every anchor, each reported change is stamped at least 1ms above every retained stamp, over any stretch of a run |
| `StoreTheorems.RestartDominates` | internal/store/state_store.go:691-725 | A reload puts the clock at the largest stamp on file, so every later live stamp exceeds all retained ones |
| `StoreHistory.TimesSetOnce` | internal/store/state_store.go:231-247 | Over any stretch of a run a retained record's finish time, deletion time and namespace, once set, stay, the time it was first seen stays, and its creation only moves back, provided each restart finds them in the file |
| `StoreHistory.RestartKeepsExactly` | internal/store/state_store.go:627-648 | A restart keeps them if and only if the file had them |
| `StoreHistory.RestartCanForget` | internal/store/state_store.go:627-648 | A concrete crash between a finish and the next save: the restart has forgotten it |
| `StoreHistory.BootstrapFrame` | internal/store/state_store.go:149-157 | Any sequence of bootstraps leaves the clock, and change and deletion times of records retained throughout, unchanged, and marks nothing deleted |
| `StoreHistory.BootstrapAnchors` | internal/store/state_store.go:342-354 | A new bootstrapped record is anchored to its finish time, else the pod's creation, else the time of the call |
| `Observations.NewcomerIsAnchored` | internal/store/state_store.go:342-354 | A newly bootstrapped application is stamped with that finish if its driver has ended, else with its pod's creation, else with the time of the call |
| `StoreHistory.ReportsExactly` | internal/store/state_store.go:140-147 | The stamp moves exactly for a new application, or a driver whose status differs or whose finish or deletion is the first; never for executors of known applications |
| `StoreHistory.PodTellsLast` | internal/store/state_store.go:294-335 | A retained pod record tells the last observation of its key, field by field: nothing else in a run touches it |
| `StoreHistory.ReplayIsQuiet` | internal/store/state_store.go:159-179 | A replayed observation whose records are retained and were left alone in between reports nothing, evicts nothing and changes the two update times only, however late it comes |
| `StoreHistory.ReplayRefreshes` | internal/store/state_store.go:159-179 | So does any live observation of what the records already say, in any settled state |
| `StoreHistory.OneEvictionAtMost` | internal/store/state_store.go:407-493 | From a settled state one observation evicts at most one application and at most one pod beyond that application's own |
| `Persistence.BackfillRebuildsClock` | internal/store/state_store.go:688-725 | For any records: none stays unstamped, present stamps stay, backfilled ones follow the update times in 1ms steps strictly above all present ones, and the clock dominates all |
| `Persistence.BackfillIsTight` | internal/store/state_store.go:711-725 | The first backfilled stamp is the earliest no earlier than its record's update and 1ms after every present stamp, records updated later are stamped later, and the clock stops at the largest stamp |
| `Persistence.LastIsFiled` | internal/store/state_store.go:673-686 | A pod record is filed under its UID, or namespace and name without one, and a driver's is what the index names from then on |
| `Persistence.ReloadRestores` | internal/store/state_store.go:672-748 | Save then load, for any record order: both record maps restored exactly, an index naming a driver of each application that has one, and a clock equal to the latest stamp |
| `Persistence.LoadRestores` | internal/store/state_store.go:627-670 | A start under any configuration gives those records with the cluster stamped where it was unknown, and changes nothing else; it is marked for saving if and only if some record did not know its cluster |
| `Persistence.StampIsNeeded` | internal/store/state_store.go:652-670 | The cluster is stamped exactly onto the records that know none, and something changes if and only if there is one |
| `Persistence.ReloadRestoresIndex` | internal/store/state_store.go:682-685 | With one driver per application the index is restored exactly |
| `StoreSaving.SavedExactly` | internal/store/state_store.go:159-179 | A step keeps a clean store equal to its file if and only if it is a live observation, a bootstrap that creates or evicts, an import, a write that succeeds, a restart, or has nothing to save: a bootstrap whose records hold, field by field, all it says and were last updated at that very time |
| `StoreSaving.RunSaved` | internal/store/state_store.go:727-771 | Over a run of such steps a clean store always has the records of its file |
| `StoreSaving.LaterRefreshIsNotSaved` | internal/store/state_store.go:177-179 | Every bootstrap of a known application and pod at another time than its last update leaves a clean store that differs from its file, unless it evicts |
| `StoreSaving.RefreshIsNotSaved` | internal/store/state_store.go:177-179 | For one, a driver bootstrapped twice |
| `StoreSaving.FailedWriteIsNotRetried` | internal/store/state_store.go:737-770 | A failed write leaves a clean store with an old file |
| `ChangeFeed.WalkDelivers` | internal/store/state_store.go:506-552 | On an unchanging store a page walk delivers every change except exactly the rests of stamp groups split by a page break |
| `ChangeFeed.WalkInOrder` | internal/store/state_store.go:537-539 | It delivers none twice, in stamp order |
| `ChangeFeed.WalkIsUnpaged` | internal/store/state_store.go:506-552 | The walk is the unpaged result if and only if no page break splits a group of equal stamps |
| `ChangeFeed.WalkEnds` | internal/store/state_store.go:541-544 | Polling an unchanging store ends: pages that all announce more, each drawn from the last cursor, number at most the changes divided by the limit |
| `ChangeFeed.DistinctStampsLoseNothing` | internal/store/state_store.go:253-254 | Distinct stamps leave no group to split |
| `FeedRuns.PagingCanLose` | internal/store/state_store.go:541-544 | Two applications bootstrapped from pods of one creation time, read in pages of one: the second is never delivered |
| `FeedRuns.FeedMissesNothing` | internal/store/state_store.go:506-552 | For a consumer who keeps the latest news of each application: live changes, bootstraps, evictions, saves that succeed or fail, restarts and polls with any limits in any order leave every retained matching record above the cursor, or the consumer's copy of its status, finish and deletion time right, for any fixed filter; each bootstrap must be harmless and a newcomer's anchor unused, and a restart must find a file that tells what the store tells, or none of the consumer's pages since it was written may have held anything |
| `FeedRuns.RestartMissesNothing` | internal/store/state_store.go:627-648 | One such restart keeps that, with the cursor as the bound the next live changes must exceed |
| `FeedRuns.RestartShowsFile` | internal/store/state_store.go:627-648 | After any restart a consumer misses something if and only if it misses something of the file |
| `FeedRuns.RestartCanMiss` | internal/store/state_store.go:627-648 | A concrete crash between a finish the consumer was told and the next save: after the restart the store is behind the consumer |
| `FeedRuns.BootstrapKeepsFeed` | internal/store/state_store.go:249-255 | A bootstrap while polling, with its evictions, leaves that so, for every consumer, if and only if its application is evicted at once, the record does not match, is a newcomer anchored above the cursor, is known and still to come or not moved, or comes back to just what the consumer holds |
| `FeedRuns.BootstrapCanHide` | internal/store/state_store.go:249-255 | A concrete bootstrap that a polling consumer never sees |
| `EventHandler.PodEventHandler.constructor` | internal/handler/event_handler.go:55-65 | No events, nothing published |
| `EventHandler.PodEventHandler.OnAdd` | internal/handler/event_handler.go:67-110 | Initial pods are bootstrapped, others live; the documents published and the driver event recorded |
| `EventHandler.PodEventHandler.OnUpdate` | internal/handler/event_handler.go:112-148 | Always live; an event only for a driver's move to a terminal phase; no pod document |
| `EventHandler.PodEventHandler.OnDelete` | internal/handler/event_handler.go:150-182 | A live deletion, tombstones unwrapped; the documents published and the driver event recorded |
| `EventHandler.PodEventHandler.Publish` | internal/handler/event_handler.go:184-197 | One pod document per call when there is a publisher |
| `EventHandler.PodEventHandler.PublishApplication` | internal/handler/event_handler.go:203-224 | A completion summary exactly for a driver of a known, finished application, after the store was updated |
| `EventHandler.DocumentsAreOffered` | internal/handler/event_handler.go:184-224 | What is offered to a publisher: the pod document of an addition or deletion, and one summary with the stored namespace and finish exactly for the driver of an application the store knows as finished |
| `EventHandler.PodEventHandler.PublishedStatus` | internal/elasticsearch/client.go:155-162 | The driver phase decides over the stored status |
| `EventHandler.PodEventHandler.AddEvent` | internal/handler/event_handler.go:250-259 | The list stays the newest events ever added, newest first, at most 1000 |
| `EventHandler.PodEventHandler.GetEvents` | internal/handler/event_handler.go:261-269 | The newest events, cut by a positive limit |
| `EventHandler.RecentGrows` | internal/handler/event_handler.go:254-258 | Prepending and cutting is the same as taking the newest of the longer history |
| `Completions.CompletionOutcome` | internal/elasticsearch/client.go:148-163 | While its application is retained, a driver is summarised if and only if it is deleted, terminal or finished before; one last seen Succeeded or Failed is published with that outcome even by its deletion |
| `Completions.DriverIsJoined` | internal/store/state_store.go:556-565 | While the application is retained, the join finds exactly the driver just observed |
| `Completions.OneFinishPerApp` | internal/handler/event_handler.go:203-224 | All summaries of an application retained over a stretch of a run carry one finish time, and one document identity once one of its drivers had a namespace, provided each restart finds them in the file |
| `Sanitizer.RemoveDotOnlyKeys` | internal/elasticsearch/client.go:243-258 | The recursive loops compute the specification on every document |
| `Sanitizer.CleanPathsSurvive` | internal/elasticsearch/client.go:230-258 | A path survives, with what it leads to sanitised, if and only if no field name on it is a non-empty string of dots |
| `Sanitizer.LeavesSurvive` | internal/elasticsearch/client.go:230-258 | A path leads to a given leaf afterwards if and only if it did before and is clean; arrays keep their length |
| `Sanitizer.SanitizedTwice` | internal/elasticsearch/client.go:243-258 | Sanitising twice is sanitising once |
| `Sanitizer.TrimsAway` | internal/elasticsearch/client.go:247 | Trimming dots leaves nothing exactly for strings of dots |

## Left out

- HTTP, TLS, gin controllers, Kubernetes client calls, logging, configuration, environment lookup and the Prometheus gateway: plumbing with thin logic; their answers are parameters.
- Parameter parsing and the limit clamp of internal/service/pod_service.go:100-113: the feed results hold for every limit.
- `GetPodRecords`, `GetStats`, `LookupPod`: filtered reads of one map or list.
- Non-numeric resource versions in the history theorems: the comparison then gives no order.
- The wall and monotonic readings of a clock value, and time zones.
- The backoff of the run loop, tickers, deadlines and the 60s start timeout: in the protocol every step may happen at any time.
- The steps of replacing the checkpoint file: writing beside it and renaming is one step that may or may not land, like any save.
- Durability of the state file relative to the checkpoint: the two flush independently, and delivery is claimed up to the handler only.
- A state file that stops parsing between two starts.
- Deletions missed during a cold start or a 410 gap at the level of the store: the code does not promise them; `ResumeDeliversAll` therefore excludes runs that start a relist.
- Records reached through pointers are values in maps; the store's lock makes each method one step. `GetChanges` takes its read lock twice; both reads see one state here.
- The write retry loop, sha256 document ids, secret redaction and error texts of the Elasticsearch client; a failed publication is only logged by the handler, so the model records what was offered.
- JSON encoding and parsing: a snapshot is two sequences of records, a document a tree.
- Sanitizer.RemoveDotOnlyKeys: deletes from maps in place in the source, and is modelled on values; a decoded document shares no subtree, so aliasing plays no part.
- WatchTheorems.CheckpointIsFlushed: for runs in which no save lands after it was given up; such a landing can set the checkpoint back, and `NoEventLost` covers it.
- StoreRuns.RunSettled: for runs in which no restart lowers a limit; the first tracked observation or import settles the store again (`ObserveKeeps`, `EvictionSettles`).
- StoreTheorems.RunIndexed: for runs in which every observation meets the guard of `IndexSurvives`; it and the results on stamps, set-once times, replays and the feed leave imports out of the stretch, and start from any state that has the invariant, so after an import.
- StoreTheorems.RunSpaced: for runs whose bootstrapped newcomers meet the exact condition of `NewcomerKeepsSpacing`; `RunStampsAboveAnchors` includes all others.
- StoreHistory.TimesSetOnce: for restarts whose file has the times; `RestartKeepsExactly` says that no other restart keeps them.
- FeedRuns.FeedMissesNothing: for runs whose bootstraps meet the condition of `BootstrapKeepsFeed` and whose restarts find a file not behind what the consumer was told; `RestartShowsFile` is the exact condition for any other. Driver phase and labels joined into a page are not part of a consumer's copy here.
- Completions.OneFinishPerApp: for restarts whose file has the finish time.
