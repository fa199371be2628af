# Verification of the signage system

This project models the parts of the signage system that are hard to get right and proves what they
promise. The system has two halves. An Android player downloads playlist manifests, plays them in a loop
and keeps durable evidence of every playback, which it uploads. A Django back end validates media, publishes
playlist versions, tells every display what to show and stores the evidence.

Each protocol is a state machine: a `State`, a `Step` type, `Enabled` and `Next`, and a `Run` over any
sequence of steps. A step is one atomic operation, one locked block, one database transaction or one durable
write, so crashes, stale workers, lost responses and every interleaving of threads are runs like any other.
The main theorems are about all runs. Code that changes rows or fields in place is a class whose methods
follow the program statement by statement and are proved against the functions the state machines use.

| File | Content |
|---|---|
| `Coalescer.dfy` | the lock-free request coalescer of the player |
| `ManifestPolicy.dfy`, `ManifestStaging.dfy`, `ManifestSettling.dfy` | manifest validation; staging, activation and pruning shared by three kinds of threads; how every queued manifest gets to be shown |
| `Evidence.dfy`, `LoopBatch.dfy` | playback evidence; one loop as a batch, and the rules of recovery |
| `PlaybackEvidence.dfy`, `PlaybackRuns.dfy`, `PlaybackFidelity.dfy`, `PlaybackExamples.dfy` | the play loop with its checkpoint, its runs with crashes, what they report and never lose, and a run through the gap between two items |
| `PlayerStore.dfy` | the bounded queues of the player and their forced loss |
| `ServerIngest.dfy` | validation, comparison and storage of evidence on the server |
| `EvidenceDelivery.dfy`, `DeliveryProgress.dfy` | queue, network and server together; how the queue empties |
| `EvidenceChain.dfy`, `EvidenceAcceptance.dfy` | the whole chain from playback to row; why the server takes what the player sends |
| `ExitHistory.dfy` | the cursor over Android's exit history |
| `MediaFencing.dfy` | leases, fencing tokens and stored objects of media processing |
| `MediaDelivery.dfy` | processing of all assets and the dashboard's transactions together: what is published is in storage |
| `FixedWindow.dfy`, `DispatchTokens.dfy`, `DispatchAttempts.dfy`, `DispatchExamples.dfy` | the two fixed-window limiters; dispatch reservations, client tokens and RunTask calls; where attempts go; how far calls can stray |
| `PlaylistLifecycle.dfy`, `EffectivePlaylist.dfy`, `PlaylistExamples.dfy` | publication and version history; the effective playlist and the prediction of its next change; two runs that reach what the guards allow |
| `ItemPositions.dfy` | renumbering of playlist items under a uniqueness constraint |
| `EvidenceRetention.dfy` | deletion of expired evidence |

Four results qualify what one might expect of the code. Each has a run from the initial state that shows it and
the exact condition under which it happens:

- An activation that lands between two items keeps the results of the old loop. Such a loop ends in a batch the
  server refuses or in a recorded loss (`GapIsRefused`, `ServerRefusesGapBatch`, `UncoveredBatchIsReached`). For one batch
  the condition is in `LiveBatchCovers`; `EveryBatchCovers` has a hypothesis on activations.
- Publishing an older draft after a newer version leaves both published (`TwoVersionsCanStayPublished`).
  `OnePublishedVersion` states exactly when a publication leaves one version.
- The fallback playlist may have ended, and the media of an ended playlist may be archived. Sync fails for
  unavailable media exactly when the effective playlist shows archived media, which only an ended one can
  (`SyncFailsExactlyForArchivedFallback`, `EndedFallbackCanFail`).
- RunTask is called after the reservation has committed and outside every lock, so calls can be late and two
  dispatchers can hold one token. A call can come after the reuse window of its token exactly if calls can be delayed
  at all, and by less than their delay (`ExpiredTokenGoesOut`). A settled token can still go out exactly if another
  reservation of it is open at the answer (`SettledTokenGoesOut`, `SettledTokenWentOut`), and the attempts sent
  decrease exactly if a later reservation overtakes (`SendsDecreaseIfOvertaken`, `AttemptsSentDecrease`).
  Reservations have none of these faults, and the last two do not occur when dispatchers of one asset do not overlap
  (`SerialCallsAreSafe`).

## Model

| member | source | states |
|---|---|---|
| Coalescer.WorkIsExclusive | android-player/app/src/main/java/com/duducar/signage/MainActivity.kt:1393-1409 | in every interleaving of any number of callers and executor threads the work never runs concurrently with itself |
| Coalescer.NoLostWakeup | android-player/app/src/main/java/com/duducar/signage/MainActivity.kt:1393-1409 | in every quiescent state nothing is pending and each request was followed by a run that started after it |
| Coalescer.RequestsAreServed | android-player/app/src/main/java/com/duducar/signage/MainActivity.kt:48-50 | on a single-thread executor, once calls stop, every schedule ends within a bound with all requests served |
| Coalescer.SettlesWithin | android-player/app/src/main/java/com/duducar/signage/MainActivity.kt:1393-1409 | the measure drops at every step that is not a new call, so retries cannot go on for ever |
| Coalescer.NeverStuck | android-player/app/src/main/java/com/duducar/signage/MainActivity.kt:1393-1409 | short of quiescence some thread can always take a step |
| ManifestPolicy.CheckEntries | android-player/app/src/main/java/com/duducar/signage/ManifestPolicy.kt:74-115 | one pass with a set and a map accepts exactly distinct entries with consistent media definitions, and its guarded additions never reject |
| ManifestPolicy.Validate | android-player/app/src/main/java/com/duducar/signage/ManifestPolicy.kt:38-117 | the identity is returned exactly for a manifest within all numeric bounds, with distinct entries, consistent definitions and bounded sums |
| ManifestPolicy.ValidExactly | android-player/app/src/main/java/com/duducar/signage/ManifestPolicy.kt:38-117 | what is accepted in plain figures: the bounds of every field, pairwise distinct entries, agreeing media and the sum of bytes; the bound on the total duration can never reject |
| ManifestPolicy.ExtendConsistent | android-player/app/src/main/java/com/duducar/signage/ManifestPolicy.kt:108-112 | looking one entry up in the map of definitions decides whether all entries of a media id agree pairwise |
| ManifestStaging.StagingIsSafe | android-player/app/src/main/java/com/duducar/signage/MainActivity.kt:661-698 | at most one drain loop, a staged file only of the current generation, strictly increasing activated generations, nothing pending when not running |
| ManifestStaging.ActivatesTheLatest | android-player/app/src/main/java/com/duducar/signage/MainActivity.kt:763-821 | safety: whatever becomes active is what was queued last and not invalidated since, with all its media in the cache |
| ManifestStaging.StagedIsPlayable | android-player/app/src/main/java/com/duducar/signage/CacheManager.kt:31-96 | all media of a staged manifest are present and valid, no staged file exists while a preparation runs, and a released current candidate finds its own file |
| ManifestStaging.PruneIsSafe | android-player/app/src/main/java/com/duducar/signage/CacheManager.kt:200-208 | the unlocked prune never runs beside a preparation and keeps every file of the active manifest |
| ManifestStaging.StepInv | android-player/app/src/main/java/com/duducar/signage/CacheManager.kt:117-162 | every step of queue, invalidation, download, commit, delivery, activation, prune and restart keeps the invariant |
| ManifestSettling.QueuedIsActivated | android-player/app/src/main/java/com/duducar/signage/MainActivity.kt:661-698 | from every reachable state, in every run without failures, blocks and newer manifests, a valid manifest that is queued is the active, the shown and the last activated one once no loop, message, main step or stash is left; without any loop boundary if it differs from what is shown |
| ManifestSettling.QueuedCanBeActivated | android-player/app/src/main/java/com/duducar/signage/MainActivity.kt:674-697 | such a run exists and ends within the work that the queueing leaves |
| ManifestSettling.RunWorks | android-player/app/src/main/java/com/duducar/signage/CacheManager.kt:31-96 | every run without failures is bounded by a measure of files, entries, messages and steps left |
| ManifestSettling.SmoothStepExists | android-player/app/src/main/java/com/duducar/signage/MainActivity.kt:674-692 | until nothing is left to do some step without failure can be taken, a loop boundary being needed for the stash alone |
| ManifestSettling.DeliveredIsActivated | android-player/app/src/main/java/com/duducar/signage/MainActivity.kt:763-809 | a delivered current manifest other than the shown one is activated at that delivery and not stashed |
| ManifestSettling.StashedIsActivated | android-player/app/src/main/java/com/duducar/signage/MainActivity.kt:810-817 | one with the identity of the shown manifest changes nothing until the next loop boundary, which activates it |
| ManifestSettling.ActiveIsLastActivated | android-player/app/src/main/java/com/duducar/signage/CacheManager.kt:117-162 | over every run of one process the active manifest is the one activated last, or the one at its start; failed activations leave it alone |
| ManifestSettling.ActiveSurvivesRestarts | android-player/app/src/main/java/com/duducar/signage/CacheManager.kt:21-25 | over every run without a step of the main thread, process deaths included, the active manifest stays, and a new process shows it with the media files as they were |
| ManifestSettling.InvalidationStops | android-player/app/src/main/java/com/duducar/signage/MainActivity.kt:756-761 | after an invalidation in a reachable state nothing becomes active in any run until something is queued again |
| LoopBatch.BuildLoopBatch | android-player/app/src/main/java/com/duducar/signage/MainActivity.kt:1165-1202 | the loop appends exactly one filler event per entry without a result, in manifest order |
| LoopBatch.BatchCoversManifest | backend/signage/api.py:1774-1819 | a built batch passes the server's count, duplicate and set checks on entries and event ids if and only if the loop's results have distinct ids and name known entries at most once; then its events are a permutation of the manifest |
| LoopBatch.FillersComplete | android-player/app/src/main/java/com/duducar/signage/MainActivity.kt:1173-1189 | the fillers name each unrecorded entry once and nothing else |
| LoopBatch.ValidatePersistedLoopResults | android-player/app/src/main/java/com/duducar/signage/MainActivity.kt:1821-1841 | the loop with its set of seen entries accepts exactly complete results of distinct known entries |
| LoopBatch.ResumesWhereItStopped | android-player/app/src/main/java/com/duducar/signage/PlayerPolicies.kt:312-329 | playback resumes at an index if and only if it is the interrupted one, or the cyclic successor of the last recorded one |
| PlaybackEvidence.PlaybackLoop.BeginCurrentPlayback | android-player/app/src/main/java/com/duducar/signage/MainActivity.kt:1015-1039 | the new current item and its durable checkpoint, with the id, the start and the entry at the current index |
| PlaybackEvidence.PlaybackLoop.RecordAndAdvance | android-player/app/src/main/java/com/duducar/signage/MainActivity.kt:1092-1124 | the last stored result has the id, item and start of the current checkpoint and exactly the status, reason, duration and end of the ending; the checkpoint is cleared and playback moves on by one; without a current item nothing changes |
| PlaybackEvidence.PlaybackLoop.InterruptCurrent | android-player/app/src/main/java/com/duducar/signage/MainActivity.kt:1126-1163 | an interruption is reported as it ended after the results before it, in a batch that closes the loop; without a current item nothing changes and the results stay |
| PlaybackEvidence.PlaybackLoop.FinishLoop | android-player/app/src/main/java/com/duducar/signage/MainActivity.kt:1135-1163 | one batch with the given id, manifest and times enters the queue, starting with the results, and the playback state is cleared together; an empty loop stores none |
| PlaybackEvidence.PlaybackLoop.RecoverInterruptedPlayback | android-player/app/src/main/java/com/duducar/signage/MainActivity.kt:1666-1810 | every branch of recovery: clean, unreadable or unfit state recorded as a loss, empty list, batch committed, commit failed before or after it took effect |
| PlaybackEvidence.RecoveryReports | android-player/app/src/main/java/com/duducar/signage/MainActivity.kt:1691-1810 | a recovery that gets through reports the stored results unchanged and the interrupted item once, with its own item and start, in a batch of the active manifest and the given times |
| PlaybackEvidence.RecoveryResumes | android-player/app/src/main/java/com/duducar/signage/PlayerPolicies.kt:312-329 | playback then resumes at the interrupted entry, or cyclically after the last recorded one, unless the commit reported a failure |
| PlaybackEvidence.RecoveryKeepsOrLoses | android-player/app/src/main/java/com/duducar/signage/MainActivity.kt:1666-1690 | what it cannot use is given up in one loss over exactly the stored ids; a failure before the commit leaves every row |
| PlaybackRuns.ExactlyOnce | android-player/app/src/main/java/com/duducar/signage/PlayerStore.kt:419-479 | after any run with crashes between any two durable writes, each playback whose checkpoint was written is in exactly one place: stored, one batch event, or covered by a loss event |
| PlaybackRuns.RecoverySettles | android-player/app/src/main/java/com/duducar/signage/MainActivity.kt:1785-1810 | after a start whose enqueue did not fail before its commit, nothing is left stored and each playback is in exactly one batch event or covered by a loss |
| PlaybackRuns.NoFabricatedEvidence | android-player/app/src/main/java/com/duducar/signage/MainActivity.kt:1097-1202 | over every run each event of any batch reports field by field what the loop observed of a playback that began, or the interruption of such a playback with its item and start, or is an empty interruption of an entry never reached; a completed or failed event has an observed ending of that status |
| PlaybackRuns.RecordedResultsSurvive | android-player/app/src/main/java/com/duducar/signage/MainActivity.kt:1119-1163 | the report of every observed ending is still stored, in a batch as it was, or covered by a loss event |
| PlaybackFidelity.ObservedIsReported | android-player/app/src/main/java/com/duducar/signage/MainActivity.kt:1691-1735 | an observed ending is never replaced: the event any batch has under that playback reports it field by field, through crashes too |
| PlaybackFidelity.PlaybackEndsOnce | android-player/app/src/main/java/com/duducar/signage/MainActivity.kt:1097-1124 | no playback is observed to end twice |
| PlaybackFidelity.CrashesLoseNothing | android-player/app/src/main/java/com/duducar/signage/MainActivity.kt:1666-1810 | over every run whose activations find nothing stored and whose stored text is readable no loss is ever recorded, wherever processes die |
| PlaybackFidelity.CrashesKeepEverything | android-player/app/src/main/java/com/duducar/signage/PlayerStore.kt:419-479 | after such a run every playback that began is recoverable or is one event of one batch |
| PlaybackFidelity.FullLoopIsReported | android-player/app/src/main/java/com/duducar/signage/MainActivity.kt:974-1012 | a loop nothing interrupts ends in one batch that reports every entry in manifest order as it ended, and the next loop starts with the first entry |
| PlaybackRuns.RecoveredIds | android-player/app/src/main/java/com/duducar/signage/MainActivity.kt:1691-1735 | recovery reports exactly the result ids the crash left, each once, also when the crash fell between result and checkpoint |
| PlaybackRuns.EveryBatchCovers | android-player/app/src/main/java/com/duducar/signage/MainActivity.kt:936-1012 | over every run whose activations find an empty loop each batch ever inserted passes the server's checks of ids and entries against its manifest |
| PlaybackRuns.RecoveredBatchCovers | android-player/app/src/main/java/com/duducar/signage/MainActivity.kt:1683-1765 | a recovered batch passes those checks without any hypothesis on the run |
| PlaybackRuns.LiveBatchCovers | android-player/app/src/main/java/com/duducar/signage/MainActivity.kt:1135-1163 | a live batch passes those checks if and only if the results in memory fit the active manifest |
| PlaybackRuns.StaleLoopIsRefused | android-player/app/src/main/java/com/duducar/signage/MainActivity.kt:936-1012 | from every reachable state, in every run without another activation, with crashes anywhere, a loop with results of entries the active manifest lacks stays so until the next batch inserted does not cover its manifest or a loss event covers those results |
| PlaybackRuns.GapIsRefused | android-player/app/src/main/java/com/duducar/signage/MainActivity.kt:1126-1127 | from every reachable state such an activation ends, if it ends, in a refused batch or a recorded loss |
| PlaybackExamples.UncoveredBatchIsReached | android-player/app/src/main/java/com/duducar/signage/MainActivity.kt:785-809 | a run from the initial state whose activation between two items ends in a batch that does not cover its manifest |
| PlayerStore.Store.EnforceStoragePolicy | android-player/app/src/main/java/com/duducar/signage/PlayerStore.kt:832-894 | forced loss removes the shortest oldest-first prefix that reaches the target and reports its rows, bytes and target |
| PlayerStore.Store.EnqueueBatch | android-player/app/src/main/java/com/duducar/signage/PlayerStore.kt:409-417 | storing a batch removes exactly the shortest prefix that reaches the target and reports it, and never leaves the queue above its limit, at most three quarters of it full if anything was removed |
| PlayerStore.Store.AcknowledgeBatch | android-player/app/src/main/java/com/duducar/signage/PlayerStore.kt:493-495 | an acknowledgement removes exactly the row with that id, and nothing if it is gone already |
| PlayerStore.EvictionIsEnough | android-player/app/src/main/java/com/duducar/signage/PlayerPolicies.kt:29-52 | the target always suffices, for the limit and for the minimum free space, and something is removed exactly when loss is forced |
| PlayerStore.TargetIsLeast | android-player/app/src/main/java/com/duducar/signage/PlayerPolicies.kt:29-52 | the target is zero within the limits, and else the least amount that brings the queue to three quarters of its limit and the disk to its minimum, or the whole queue if no less does |
| PlayerStore.EvictionIsShortest | android-player/app/src/main/java/com/duducar/signage/PlayerStore.kt:846-865 | a prefix reaches the target if and only if it is at least as long as the one removed |
| PlayerStore.OldestReaching | android-player/app/src/main/java/com/duducar/signage/PlayerStore.kt:855-865 | the loop collects the oldest ids up to the first that reaches the target |
| PlayerStore.Store.EnqueueLocationPoint | android-player/app/src/main/java/com/duducar/signage/PlayerStore.kt:583-638 | the location queue never exceeds 50000 points; the oldest go and the event states exactly how many points and bytes |
| PlayerStore.Store.DiscardBatchAsPoison | android-player/app/src/main/java/com/duducar/signage/PlayerStore.kt:497-529 | a poisoned batch leaves the queue once, with a loss event of one batch and its bytes, and only if it was there |
| ServerIngest.ValidatePlaybackBatchPayload | backend/signage/api.py:1749-1827 | the checks by counts and sets accept exactly the batches with valid events, distinct ids and one event per playlist entry |
| ServerIngest.EventIsValidExactly | backend/signage/api.py:1585-1746 | one event is valid exactly within five seconds of its loop, with a playing time at most five seconds longer than it lasted, and with a duration or a listed reason that fits its status |
| EvidenceAcceptance.OrdinaryBatchIsAcceptable | backend/signage/api.py:1749-1827 | every batch of a run whose activations find an empty loop is acceptable evidence when its playbacks were reported with the reasons, durations and times the player reports |
| EvidenceAcceptance.OrdinaryBatchIsAccepted | backend/signage/api.py:1863-1938 | such a batch, new to the server, is answered with success and stored under its device |
| EvidenceAcceptance.FillerIsValid | android-player/app/src/main/java/com/duducar/signage/MainActivity.kt:1177-1186 | the event the player makes up for an entry it did not reach is valid at any time within the loop |
| EvidenceAcceptance.AcceptedOutcomes | backend/signage/api.py:84-107 | in accepted evidence an event is failed exactly if it has one of the four failure reasons and completed exactly if it has none, within 500 ms of the media |
| ServerIngest.ClaimedTimeIsBounded | backend/signage/api.py:1585-1746 | an accepted event claims no more time than its loop lasted plus 15 seconds, and a completed one is backed by an interval of the media's length |
| ServerIngest.PlaybackBatchMatches | backend/signage/api.py:1830-1858 | the comparison by dictionaries accepts exactly the same evidence up to the order of events |
| ServerIngest.PlaybackTable.Insert | backend/signage/api.py:1908-1935 | the insertion and its collision branch: stored, duplicate, or refused with the rows unchanged |
| ServerIngest.AnswersExactly | backend/signage/api.py:1863-1938 | each of the four answers by its exact reason: barred access, new acceptable evidence, the same evidence again, and everything else |
| ServerIngest.PlaybackTable.PlaybackBatch | backend/signage/api.py:1863-1938 | the answer and the new rows for every request, stored evidence never being overwritten |
| EvidenceDelivery.EvidenceIsConserved | android-player/app/src/main/java/com/duducar/signage/MainActivity.kt:1278-1295 | batches ever inserted = queued + acknowledged + removed_batches of all loss events, each batch in exactly one of the three |
| EvidenceDelivery.AcknowledgedIsStored | backend/signage/api.py:1863-1938 | every acknowledged batch is stored on the server under this device with the player's evidence |
| EvidenceDelivery.EventsAreStoredOnce | backend/signage/models.py:950-976 | no event id is stored twice, across all batches and devices |
| EvidenceDelivery.ReplayIsDuplicate | backend/signage/api.py:1876-1899 | in every later state an accepted batch seen again is answered as a duplicate, by the checks and by a delayed insertion, and never refused as long as the device is enabled |
| DeliveryProgress.HeadLeaves | android-player/app/src/main/java/com/duducar/signage/MainActivity.kt:1278-1295 | the oldest queued batch can always leave the queue: acknowledged and stored exactly if the server has no reason to refuse it, and counted as one lost batch otherwise |
| DeliveryProgress.QueueCanBeEmptied | android-player/app/src/main/java/com/duducar/signage/MainActivity.kt:1246-1295 | from every reachable state an enabled device can empty its queue |
| DeliveryProgress.OldestAreEvicted | android-player/app/src/main/java/com/duducar/signage/PlayerStore.kt:846-865 | in every reachable state a forced loss takes batches no younger than those that stay |
| DeliveryProgress.OnlyInvalidEvidenceIsDropped | android-player/app/src/main/java/com/duducar/signage/MainActivity.kt:1352-1353 | in every reachable state only an answer 400 to that very batch lets the player drop it, so a refusal of access costs no evidence |
| EvidenceDelivery.StepInv | android-player/app/src/main/java/com/duducar/signage/PlayerStore.kt:439-529 | every step of queue, lossy network and server keeps the invariant |
| EvidenceChain.EveryPlaybackIsAccounted | android-player/app/src/main/java/com/duducar/signage/PlayerStore.kt:419-437 | end to end: each playback that began is stored on the player, covered by a loss event, or an event of a batch that is queued, counted as removed, or stored on the server with exactly that event |
| EvidenceChain.RecordedResultIsAccounted | android-player/app/src/main/java/com/duducar/signage/MainActivity.kt:1097-1124 | end to end for an observed ending: its report reaches the server field by field, unless it is still on the way, counted as removed or covered by a loss event |
| EvidenceChain.ServerHoldsOnlyTruth | backend/signage/api.py:1908-1925 | every event stored under this device reports field by field an ending its loop observed, or the interruption of a playback that began, or is an empty interruption of an entry never reached; a completed or failed one has an observed ending of that status |
| EvidenceChain.ValidationConcernsEventsOnly | backend/signage/api.py:1749-1827 | over runs whose activations find an empty loop the server's whole validation of a batch comes down to loop times and single events; ids and entries are always right |
| EvidenceChain.ServerRefusesGapBatch | backend/signage/api.py:1774-1819 | the first batch inserted after an activation between two items that left foreign results is refused by the server's validation whatever its events say, unless a loss event came first |
| ExitHistory.ReportedExactlyWhenNew | android-player/app/src/main/java/com/duducar/signage/PlayerPolicies.kt:232-274 | over any sequence of snapshots an entry is reported in a round if and only if all entries read before are older, or as old with another id |
| ExitHistory.ReportedOnce | android-player/app/src/main/java/com/duducar/signage/MainActivity.kt:1582-1628 | no entry is reported in two rounds |
| ExitHistory.NothingNewNothingMoves | android-player/app/src/main/java/com/duducar/signage/MainActivity.kt:1583-1589 | when nothing is new the cursor would not move, so returning early loses nothing |
| ExitHistory.CursorIsMonotone | android-player/app/src/main/java/com/duducar/signage/PlayerPolicies.kt:252-274 | the cursor never goes back: what it once covered is never fresh again |
| MediaFencing.MediaAsset.Claim | backend/signage/management/commands/process_media.py:75-126 | a claim succeeds exactly for quarantined media or an expired lease, counts an attempt and sets the new token and a lease of half an hour; otherwise nothing changes |
| MediaFencing.MediaAsset.Finalize | backend/signage/services.py:569-623 | only the holder of the current token finalizes, to READY with the staged object or to REJECTED, and the replaced object is handed out for deletion; otherwise nothing changes |
| MediaFencing.MediaAsset.RecoverExpiredLease | backend/signage/management/commands/reconcile_media_processing.py:98-127 | exactly an expired lease returns to quarantine without token and lease, attempts and object unchanged; otherwise nothing changes |
| MediaFencing.FinalizedOnceAndDeliverable | backend/signage/services.py:569-732 | with any number of live, stale and crashed workers an asset is finalized at most once, and READY implies that its normalized object is in storage |
| MediaFencing.SupersededWorkerIsHarmless | backend/signage/services.py:626-732 | once its token is superseded, no later step of a worker changes the row or removes the object the row names |
| MediaFencing.SupersededForever | backend/signage/services.py:541-566 | a superseded token never becomes the row's token again |
| MediaFencing.RecoveryFrees | backend/signage/management/commands/reconcile_media_processing.py:98-127 | in every reachable state the recovery of an expired lease lets any new worker claim the asset, and the old worker finalizes nothing in any continuation |
| MediaFencing.CanBeFinalized | backend/signage/management/commands/process_media.py:75-126 | no asset is stuck: from every reachable state an unfinished one can still become READY with its object in storage, or REJECTED |
| MediaFencing.CanBeErased | backend/signage/services.py:203-260 | archival and a deletion can always be completed, after which the row names no object and the object is gone |
| MediaFencing.ReadyIsStable | backend/signage/services.py:168-200 | in every reachable state a READY row changes only by archival |
| MediaFencing.StorageIsReclaimed | backend/signage/services.py:203-260 | without crashes storage ends with the row's object only, and with nothing after a completed deletion |
| FixedWindow.ApiThrottle.ThrottleWait | backend/signage/services.py:65-83 | the counter, the window and the block after a request, and the seconds to wait: none if admitted, the window if it exceeds the limit, the whole seconds left but at least one while blocked |
| FixedWindow.ThrottleLimits | backend/signage/services.py:65-83 | over any run of requests each window admits at most the limit, windows start a length apart, and any interval of one length admits at most twice the limit |
| FixedWindow.LimitThenBlock | backend/signage/services.py:65-83 | the first requests of a window are admitted up to the limit, the next one and all within one window length of it are refused, and the first after that is admitted |
| FixedWindow.AdmittedExactly | backend/signage/services.py:65-83 | after any run a request is admitted exactly if its block is over, or there is none and its window has ended or admitted fewer than the limit |
| FixedWindow.SlidingBound | backend/signage/services.py:65-83 | the bound for any interval follows for every log of a fixed-window limiter |
| FixedWindow.BudgetKeeps | backend/signage/media_dispatch.py:120-136 | the hourly budget row keeps the same log invariant |
| DispatchTokens.DispatchRows.ReserveDispatchAttempt | backend/signage/media_dispatch.py:163-231 | an attempt is handed out exactly to quarantined media that is not backing off, the same one within the reuse window of an ambiguous call and otherwise the next one while there are any; every column of the two rows after it |
| DispatchTokens.DispatchRows.ClearDispatchState | backend/signage/media_dispatch.py:234-247 | only the marker and dispatch time of the same attempt are cleared |
| DispatchTokens.TokensAreBounded | backend/signage/media_dispatch.py:319-386 | over every run reserved attempts stay within the maximum and never decrease, and all reservations sharing a token fall strictly within the reuse window of its first one |
| DispatchAttempts.AttemptsAreAccounted | backend/signage/media_dispatch.py:287-386 | over every run the attempts used up are the failures before a call plus the distinct tokens reserved, together at most the maximum |
| DispatchAttempts.ExhaustedForGood | backend/signage/media_dispatch.py:199-208 | once they are used up no run hands out another silent attempt or a new token |
| DispatchAttempts.AnswerLeaves | backend/signage/media_dispatch.py:430-469 | an unknown outcome leaves both rows, a definite one gives up the marker and only a failure the time of dispatch, of its attempt alone |
| DispatchAttempts.SuccessIsRemembered | backend/signage/media_dispatch.py:430-469 | after a success in a reachable state no step but a reservation or another answer changes the recorded time of dispatch |
| DispatchAttempts.ReservationSucceeds | backend/signage/media_dispatch.py:120-136 | until then no asset is stuck: after the retry delay and an hour a reservation that respects the backoff succeeds |
| DispatchTokens.SettledTokenIsNotReserved | backend/signage/media_dispatch.py:319-386 | a token that got a definite answer is never reserved again |
| DispatchTokens.BackoffIsKept | backend/signage/media_dispatch.py:165-173 | reservations are made for quarantined media only, those without bypass at least the retry delay after any earlier one, and dispatched_at is the time of the last one |
| DispatchTokens.ReservationsStayInBudget | backend/signage/media_dispatch.py:319-386 | every reservation is charged once, and all assets together stay within the hourly budget per window and twice it in any hour |
| DispatchTokens.SendsFollowReservations | backend/signage/media_dispatch.py:388-422 | each RunTask call carries the token of an earlier reservation, and two calls sharing a token from different reservations are less than the reuse window and the later one's delay apart |
| DispatchExamples.CallsOfATokenSpread | backend/signage/media_dispatch.py:388-422 | under every accepted setting, with calls delayed by at most d, some run has two calls of one token from different reservations a given time apart if and only if that time is less than the reuse window and d together |
| DispatchExamples.ExpiredTokenGoesOut | backend/signage/media_dispatch.py:388-422 | under every accepted setting, with calls delayed by at most d, some run makes a call a given time after the reuse window of its token if and only if that time is less than d; so an expired token goes out if and only if calls can be delayed at all |
| DispatchTokens.ExpiredTokenIsNotReserved | backend/signage/media_dispatch.py:186-199 | no new reservation takes a token after its reuse window |
| DispatchTokens.SettledTokenWasShared | backend/signage/media_dispatch.py:430-469 | an open reservation of a settled token was made before the answer that settled it came to another reservation of the token |
| DispatchTokens.SettledTokenGoesOut | backend/signage/media_dispatch.py:430-469 | after a definite answer in a reachable state some continuation calls the token again if and only if another reservation of it is open at that answer |
| DispatchTokens.SendsDecreaseIfOvertaken | backend/signage/media_dispatch.py:388-422 | a call goes out after one with a higher attempt if and only if a call of a later reservation with another token overtook it |
| DispatchTokens.SerialCallsAreSafe | backend/signage/media_dispatch.py:388-469 | if dispatchers of one asset do not overlap, the attempts sent never decrease and every call of a settled token was made before its answer |
| DispatchExamples.SettledTokenWentOut | backend/signage/management/commands/reconcile_media_processing.py:62-69 | a run from the initial state, under the default settings, in which a token is sent after its definite answer |
| DispatchExamples.AttemptsSentDecrease | backend/signage/management/commands/reconcile_media_processing.py:62-69 | a run from the initial state, under the default settings, in which a call with a lower attempt follows one with a higher attempt |
| PlaylistLifecycle.PlaylistTable.Save | backend/signage/models.py:446-518 | a save succeeds exactly if the version lock allows it and writes the named columns only |
| PlaylistLifecycle.SaveOnlyCorrects | backend/signage/models.py:446-518 | a save can only cancel a published row in favour of a published newer version of its slot, and never touch a cancelled one |
| PlaylistLifecycle.SaveIsAllowedExactly | backend/signage/models.py:446-518 | a draft may be saved in any way, a cancelled row in none, and a published one exactly as cancelled for a newer published version with both columns written |
| PlaylistLifecycle.PlaylistTable.Publish | backend/signage/services.py:735-811 | the guards alone decide; none of the saves inside is refused, and exactly the older versions of the slot are cancelled |
| PlaylistLifecycle.PublishableExactly | backend/signage/services.py:762-788 | an urgent draft is publishable exactly inside its window and if every published urgent playlist that meets it is an older version of the same slot |
| PlaylistLifecycle.PublicationChangesExactly | backend/signage/services.py:790-797 | the draft is published now, the published older versions of its slot and urgency are cancelled for it, and no other column of any row changes |
| PlaylistLifecycle.ContentLimits | backend/signage/services.py:740-760 | what the limits on entries and duration admit and refuse, by the number of entries and their shortest and longest |
| PlaylistLifecycle.DraftingExactly | backend/signage/views.py:710-760 | creating and editing change one draft exactly as requested, its items in the requested order, and no other playlist |
| PlaylistLifecycle.CloneIsNewest | backend/signage/views.py:820-845 | a new version is a draft with window and content of its source, one above the latest version of its name, and changes nothing else |
| PlaylistLifecycle.OnePublishedVersion | backend/signage/services.py:768-797 | publication leaves one published version of its slot and urgency if and only if no newer one was published before |
| PlaylistExamples.TwoVersionsCanStayPublished | backend/signage/services.py:768-797 | a run that clones a draft, publishes the clone and then the draft, and ends with both published |
| PlaylistLifecycle.PublishedIsForever | backend/signage/models.py:446-522 | over every run a published row keeps identity, window, urgency, publication time and content; only its status may become cancelled, after which nothing changes |
| PlaylistLifecycle.UrgentWindowsDisjoint | backend/signage/services.py:780-788 | published urgent windows are pairwise disjoint, so at most one urgent replacement is in force at any time |
| PlaylistLifecycle.PublicationTimes | backend/signage/services.py:762-792 | every version ever published has a publication time in the past, an urgent one inside its own window |
| PlaylistLifecycle.Chain | backend/signage/models.py:403-410 | superseded_by leads through strictly newer versions of the same name, window and urgency to a published one |
| PlaylistLifecycle.EveryVersionHasAHead | backend/signage/services.py:790-797 | in every reachable state each version ever published has a published head |
| PlaylistLifecycle.PublishedIsDeliverable | backend/signage/api.py:860-868 | in every reachable state a published playlist that has not ended cannot make sync fail for unavailable media |
| PlaylistLifecycle.SyncFailsForArchivedMedia | backend/signage/api.py:860-868 | in every reachable state a published playlist makes sync fail for unavailable media if and only if it shows archived media, which takes a playlist that has ended |
| PlaylistLifecycle.StepInv | backend/signage/views.py:710-851 | upload, processing, archival, creation, editing, cloning and publication keep the invariant |
| MediaDelivery.RunRefines | backend/signage/services.py:161-200 | every run of all workers, recoveries, deletions and dashboard transactions together is, for the dashboard, a run of its own transactions |
| MediaDelivery.DashboardSeesTheAssets | backend/signage/services.py:569-623 | in every joint state the dashboard knows exactly the uploaded assets, each in the status its workers left |
| MediaDelivery.PublishedObjectsExist | backend/signage/api.py:857-870 | in every state they reach together, each medium of a published playlist that has not ended is READY and the object its row names is in storage |
| EffectivePlaylist.First | backend/signage/services.py:838-870 | the row a query picks comes first in the sort order among all eligible rows |
| EffectivePlaylist.EffectiveIsTheLatest | backend/signage/services.py:834-870 | in every reachable state: of the open playlists, none urgent, the one that started last, then published last, then of the largest id; with none open, the one published last of all started; nothing exactly if none has started |
| EffectivePlaylist.PredictionIsSound | backend/signage/services.py:873-890 | the effective playlist is constant until the predicted time, and for ever if there is none, for every fixed tie-break |
| EffectivePlaylist.PredictionIsFirstEvent | backend/signage/services.py:873-890 | the prediction is the first time after now at which a published playlist starts or the current one ends, and absent exactly if there is none |
| EffectivePlaylist.EffectivePlaylistIsConstant | backend/signage/services.py:834-890 | the same from every reachable state, over any run without a publication |
| EffectivePlaylist.UrgentReplacementWins | backend/signage/services.py:838-851 | an urgent replacement in force is the effective playlist, without any tie |
| EffectivePlaylist.SyncFailsExactlyForArchivedFallback | backend/signage/api.py:844-868 | for the effective playlist sync fails for unavailable media if and only if it shows archived media; that happens only on the fallback query, after its end |
| PlaylistExamples.EndedFallbackCanFail | backend/signage/services.py:861-870 | a run that reaches such a failure |
| ItemPositions.PlaylistItems.Add | backend/signage/views.py:716-726 | the new item goes last and its insertion is never refused |
| ItemPositions.PlaylistItems.Remove | backend/signage/views.py:727-743 | the rest keeps its order with positions 1 to n, and none of the row updates is refused |
| ItemPositions.PlaylistItems.Renumber | backend/signage/views.py:732-735 | from positions with one gap the loop of single updates completes with positions 1 to n |
| ItemPositions.PlaylistItems.Reorder | backend/signage/views.py:744-759 | exactly the requested permutation; anything else is refused unchanged, and up to 10000 items no update collides |
| ItemPositions.ShiftIsSafeUpToTenThousand | backend/signage/views.py:754 | shifting all rows is collision-free in every order of row updates if and only if there are at most 10000 items |
| EvidenceRetention.EvidenceTables.DeleteExpiredPlaybackEvidence | backend/signage/management/commands/apply_retention.py:207-276 | the loops end with exactly the retained tables, and the counts are the rows removed |
| EvidenceRetention.RetentionIsExact | backend/signage/management/commands/apply_retention.py:207-276 | exactly the newer events and their corrections stay as they were, and exactly the batches that are recent or keep an event; no reference dangles, and a second run changes nothing |
| EvidenceRetention.EvidenceTables.DeleteSomeExpired | backend/signage/management/commands/apply_retention.py:221-251 | one transaction deletes at most 5000 events with their corrections and none only if none is left |

## Left out

- Android framework, views, lock task, package installation, Keystore and battery: foreign calls without modelable logic.
- HTTP transport, ECS, S3 and Play Integrity: represented by outcomes (success, definite failure, unknown) and by a network that loses, repeats and delays.
- Image and video decoding, malware scanning, digests: inspection is a nondeterministic verdict, a digest part of a media definition, image verification at publication an input.
- JSON texts: manifests, checkpoints, results, payloads and the exit cursor are values; a stored text that does not parse is the input `readable` of recovery, and the type and presence checks of request fields are not part of this model.
- ManifestStaging: file moves may fail, deletes of single files may not; the temporary download files, the manifest URL checks and a failing re-read of the active manifest are not part of this model. Posted messages arrive in any order.
- ManifestPolicy.Validate: the size of the text and the checks of strings, hosts and URLs, of the required application version and of the fixed time zone and sync time are not part of this model.
- ManifestPolicy.CheckEntries: entries arrive as typed values; the digest pattern, the text of the kind and the download URL are not part of this model.
- Coalescer.RequestsAreServed: for the single-thread executors the player creates; on a pool of several threads two tasks can keep re-requesting each other, while the safety half holds there too.
- PlaybackRuns: one activity at a time, and each method of the player's database is atomic; the timestamps and the offline flag of a batch are inputs. A finishLoop that throws ends the process, which the crash step covers.
- PlaybackRuns.EveryBatchCovers: assumes that every activation finds an empty loop, because the code does not ensure it; the exact condition and the failing case are proved beside it.
- PlayerStore.Store.EnforceStoragePolicy: the selection of rows and the deletion are one step, as nothing else writes in between; the multiplication of the limit is unbounded.
- PlayerStore.Store.DiscardBatchAsPoison: the diagnostic copy of the last hundred rejected uploads is not part of this model; nothing reads it.
- EvidenceDelivery: retention of old evidence on the server does not run at the same time; operational events and location uploads have the same queue shape and are not repeated. Corruption of a queued row may strike any row.
- DeliveryProgress.QueueCanBeEmptied: assumes that no other device has stored one of the player's batch ids, which are UUIDs; such a batch would be answered 403 for ever and keep its place at the head.
- EvidenceAcceptance.OrdinaryBatchIsAccepted: the clocks of the player are inputs, so that the events lie within their loop and playing times agree with them up to five seconds is a hypothesis; how the player reports is stated in `PlayerReport`.
- PlaybackFidelity.CrashesLoseNothing: assumes that every activation finds nothing stored and that stored text is readable; other activations are the subject of `GapIsRefused`.
- ManifestSettling.QueuedIsActivated: for runs in which no download, move or write fails and nothing blocks a delivery; after a failure the safety half still holds and the player waits for the next manifest.
- EvidenceDelivery.ReplayIsDuplicate: for devices that are not disabled, since a disabled device is refused before its evidence is looked at.
- MediaFencing.StorageIsReclaimed: speaks of normalized objects; the source object, which only the upload writes and only the deletion removes, is not part of this model.
- MediaFencing: the reference check before archival is not part of it; archival may happen at any time there. `MediaDelivery` adds the check.
- DispatchExamples.ExpiredTokenGoesOut: for settings that allow an attempt at all; with a maximum of zero attempts nothing is sent.
- DispatchTokens: the concurrency limit on running tasks is an input, whether ECS accepts a repeated client token is its own business, and alerts and logs are not part of this model. The reservation time of a transaction is read once.
- PlaylistLifecycle: one transaction is one step, without isolation anomalies; the ARCHIVED status of a playlist exists but nothing sets it; audit entries, sync commands and users other than the author are not part of this model. Full validation of a draft at publication adds nothing beyond the constraints modelled.
- EffectivePlaylist: an earlier entry of the listing wins among equal sort keys, for an arbitrary but fixed listing.
- ExitHistory: the order of the events of one round, the suppression around a planned shutdown and the mapping of exit reasons; a stored cursor reads back as written.
- EvidenceRetention: the order in which a bounded query picks rows, concurrent writers, and the other tables, whose deletion is the same loop without references.
- Dashboard forms, login, CSV, map tiles, backups, Terraform, readiness checks, enrollment, heartbeats, alerts and PIN lockout: plumbing or easy members.
