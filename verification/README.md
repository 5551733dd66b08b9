# Asset repository: verified model

This project models the parts of the asset repository that decide who sees what, what may
be deleted, restored and purged, and how many bytes an organization has used. Every database
transaction is a function from one table state to the next (or to an error that leaves the
state alone); a run is any interleaving of those transactions by any number of workers, who
may crash between two of them. Selections made under `SKIP LOCKED` are arbitrary subsets of the
admissible rows, the empty one included, ids are fresh, and the database clock of a media run
strictly increases.

## What is modelled

**Media processing and quota** (`Media*`). Upload sessions reserve quota, commits turn the
reservation into stored bytes, jobs are claimed under (owner, expiry) tokens, retried,
exhausted, isolated, replayed, reconciled and promoted, sessions and objects are swept.
`MediaSteps` holds the transactions, `MediaInvariant`, `MediaUploads` and `MediaLedger` the
invariant step by step, `MediaConsequences` what it gives to one transaction, `MediaWorld` and
`MediaRuns` whole runs including what a sweep read earlier and may act on late, `MediaStore` the
same transactions as a class that updates its tables in place, `MediaWorker` one worker's run of a job with its renewal loop and its promotion,
`MediaWitness` a run into a job that nothing ever claims or settles. `MediaKeys` says which
objects the tables record, `PurgeManifest` and `PurgeRuns` what a physical purge leaves in
object storage, and `PurgeWitness` why its two configured lifetimes matter. Storage is a log of
writes and removals; a raw object is written while an upload credential runs, an output by any
execution that claimed its version, until the execution's deadline.

**Lifecycle engine** (`Lifecycle*`, `DisplayNames`). Folders and items form a forest. A
deletion tombstones its root first (the visibility gate) and the rest in batches; a restore
raises members in batches and its root last; a purge records and removes objects, then rows,
leaf folders first. Each V8 DELETE job is mirrored by a V5 row, and only V5 rows are read by
the fence that protects subtrees under deletion. `LifecycleSteps` holds the transactions,
`LifecycleRuns` the steps and runs, `LifecycleStore` the batch loops and queue operations as
a class, and `LifecycleRestoring` what its restore loop rests on. `LifecycleMirror` and
`LifecycleFence` hold in every run. `LifecycleOrder` proves the whole invariant for each step of
a *disciplined* run (below); `LifecycleRoundTrip`, `LifecycleDrain`, `LifecycleNames` and
`LifecycleResults` prove what follows for whole runs, `LifecycleGuards` when the discipline is
needed, and `LifecycleWitness` runs from the empty store into every situation it excludes.

**Paths and moves** (`Paths`, `FolderMoves`). The text encoding of paths with its decoding for
permission inheritance, the string-prefix cycle test, and what a move does to the forest.

**Authorized reads** (`Pagination`, `Authorization`, `DecisionCache`, `DecisionFreshness`,
`DecisionWitness`). The keyset scan with permission filtering, of search results and of the
recycle bin, the evaluation of object permissions for one resource and for many, and the
epoch-keyed decision cache with single-flight as a state machine over many processes.

**Import order** (`ImportOrder`). Kahn's algorithm over the import file and the folder upsert of
the import transaction.

## Where the code's guards are too weak

The lifecycle run theorems hold for disciplined runs, which make four checks the code leaves out.
Each is local to the row or job the transaction is about, and a caller could make it before the
call. The theorems about V5 rows and the deletion fence hold in every run.

- Confirming (or adopting) a deletion looks at the root folder's own `deleted_at` only, not at
  its ancestors. A member that a running restore has already raised can so be confirmed for
  deletion while it is still hidden. `LifecycleResults.ConfirmExactly`: confirmation leaves every
  other deletion's members alone if and only if the root is visible.
  `LifecycleWitness.HiddenConfirmLosesMember` reaches the failing case.
- Cancelling accepts a job that was re-queued after a failed attempt, when rows below the root
  may already be tombstoned. `LifecycleResults.CancelExactly`: afterwards every tombstone still
  belongs to a live unit if and only if the unit had buried nothing but its root.
  `LifecycleResults.NeverClaimedHasNoMember` proves that this holds for a job that was never
  claimed, `LifecycleResults.CancelUndoesConfirm` that cancelling is then exact, and
  `LifecycleWitness.RequeuedCancelLosesMember` reaches the failing case.
- The retention gate and the leaf-first purge compare path snapshots taken when a unit was
  created. `LifecycleGuards.GateExactly`: queueing a purge respects the nesting gate if and only
  if every live unit inside the purged root recorded a path below the one this unit recorded.
  `LifecycleGuards.DrainExactly`: a purge finds something to remove if and only if its own unit's
  snapshot is current, and `LifecycleGuards.FinishExactly`: it may finish only then, and when no
  leaf is locked. `LifecycleWitness.MovedAncestorDefeatsGate` and
  `LifecycleWitness.MovedAncestorEndsPurgeEarly` reach a store where a moved ancestor lets the gate
  pass over a live unit, and one where the purge finishes with its rows still there.
- A delete or restore batch that finds every remaining row locked falls through to completion.
  `LifecycleGuards.DeletionEndsExactly` and `LifecycleGuards.RestoreEndsExactly`: completing is
  right if and only if nothing was left to select. `LifecycleWitness.SkippedRowStaysActive` and
  `LifecycleWitness.SkippedMemberIsStranded` reach the failing cases.

The physical purge depends on the configuration. Outputs have deterministic keys, and no write
checks the lease, so a worker that lost its job writes until its context ends.
`PurgeWitness.NeverOrphansExactly`: in every run every recorded object is gone for good once its
asset is torn down, if and only if the credential lifetime and the execution deadline are at most
the 30 days of retention. With the defaults of one hour and 90 seconds they are; the configuration
does not check it. For every longer setting `PurgeWitness.LateUploadSurvivesPurge` and
`PurgeWitness.LateOutputSurvivesPurge` give a run that orphans an object, the latter one in which
no renewal notices the lost lease.

The decision key holds neither the organization's `olpEnabled` nor the ancestors. What that costs
an answer depends on the request that computed it, and is stated answer by answer.

- When every relevant change was acknowledged before the request began, the answer is the
  evaluation on the present grants, under the setting of the request that computed it and on the
  ancestors that one loaded, the present ones, or was supplied (`DecisionFreshness.AnswersAreCurrent`).
- `DecisionFreshness.AnswersAreOnesOwn`: on the present ancestors it is the requester's own if and
  only if both saw one setting, or the setting makes no difference to the question.
  `DecisionWitness.ToggleIsNotSeen` reaches the failing case, although the context of the next
  request has the new value.
- `DecisionFreshness.AnswersAreFresh`: an acknowledged move is reflected if and only if the request
  that computed the answer loaded its ancestors, or was supplied ones at least that new;
  `DecisionFreshness.OutdatedAncestorsMatter` says exactly when older ones change the answer.
  `DecisionWitness.OutdatedAncestorsSpread` reaches the failing case.

Other places where the code differs from what its comments or documents suggest; the model
follows the code.

- The version status `processing` is never written; a version is pending until it is completed
  or failed.
- Replay keeps `attempt_count`, so a job isolated during its last attempt comes back queued and
  unclaimable for ever (`MediaRuns.IsolatedOnLastAttempt`, `MediaRuns.UsedUpIsDeadEnd`, reached by
  `MediaWitness.ReplayOfLastAttemptIsStuck`).
- A renewal that comes in between a promotion and the worker's own check finds the lease given up,
  and the run reports the job abandoned although it is complete (`MediaWorker.RunJob`).
- Adopting a V5 job starts its V8 item count at zero, so the two counts differ for ever by what V5
  had counted (`LifecycleResults.SurplusKept`).
- Settling a failed execution inserts an outbox row under a partial unique index; when an
  unpublished row is already there the whole settlement rolls back.
- A stale deletion preview is refused with an error and the transaction rolls back, so the
  preview row stays as it was.
- Delete and restore batches check the lease owner but not the lease expiry.
- Cancelling raises the root under its old name and so can fail on the sibling-name index.
- `canDo` leaves object grants out at the organization's own node, the batch evaluation does not
  (`Authorization.CanDoAgreesExactly`, `Authorization.OrganizationNodeDiffers`).

## Model

| member | source | states |
|---|---|---|
| MediaRuns.RunInv | services/asset-core/internal/repository/media_repository.go:253-348 | in every reachable state session, version, job, pointers, outbox and ledger cohere: a job is queued, processing or isolated iff its version is pending iff the asset's pending pointer names it; an active pointer names a completed version with both outputs; at most one open session or pending version per asset; reserved and stored bytes are the exact sums and stay within quota |
| MediaRuns.StepPreserves | services/asset-core/internal/repository/media_promotion.go:37-166 | every enabled transaction of every worker, including sweeps that act on rows read earlier, keeps that invariant |
| MediaRuns.StaleTokenIsDead | services/asset-core/internal/repository/media_promotion.go:134-150 | once a later claim or renewal has issued a token, an older one never again promotes, fails or reschedules the job, whatever the run does afterwards |
| MediaRuns.ClaimsBounded | services/asset-core/internal/repository/media_job_store.go:46-121 | over a whole run, crash recovery and replay included, a job is claimed at most once per retry delay plus one |
| MediaRuns.SettlementsBounded | services/asset-core/internal/repository/media_job_store.go:207-268 | each claim settles at most once: settlements never outnumber claims plus the attempt in hand |
| MediaRuns.PromotedAtMostOnce | services/asset-core/internal/repository/media_promotion.go:37-94 | a job is promoted at most once in its whole life |
| MediaRuns.ExhaustedExactly | services/asset-core/internal/repository/media_job_store.go:123-147 | the exhausted error is returned for exactly a queued job whose attempts are used up |
| MediaRuns.NeverExhaustedWithoutIsolation | services/asset-core/internal/repository/media_job_store.go:54-103 | in runs without isolation the exhausted error is unreachable |
| MediaRuns.IsolatedOnLastAttempt | services/asset-core/internal/repository/media_dead_letter.go:108-126 | a replayed job is refused as exhausted iff it was isolated with its attempts used up |
| MediaRuns.UsedUpIsDeadEnd | services/asset-core/internal/repository/media_job_store.go:46-147 | in every continuation a queued job with its attempts used up is never claimed, settled, promoted or rejected; until its asset is purged its version stays pending and the asset points to it |
| MediaWitness.ReplayOfLastAttemptIsStuck | services/asset-core/internal/repository/media_dead_letter.go:28-126 | a run from the empty tables, with a stalled worker and a takeover, reaches such a job |
| MediaRuns.NeverStranded | services/asset-core/internal/repository/media_reconciliation.go:28-130 | a queued or processing job has an unpublished event, or is a reconciliation candidate exactly when it is due and all its publications are stale |
| MediaRuns.SecondPassInsertsNothing | services/asset-core/internal/repository/media_reconciliation.go:66-130 | a second pass over the jobs just re-dispatched inserts nothing |
| MediaConsequences.FailureHitsPendingVersion | services/asset-core/internal/repository/media_promotion.go:114-132 | the unguarded version update of a failure only ever meets the pending version the asset points to, so it never downgrades a completed one |
| MediaInvariant.FailurePreserves | services/asset-core/internal/repository/media_promotion.go:96-132 | failing a leased job keeps coherence of all tables |
| MediaInvariant.PromotionPreserves | services/asset-core/internal/repository/media_promotion.go:37-94 | promotion keeps coherence of all tables |
| MediaConsequences.PromotionDecided | services/asset-core/internal/repository/media_promotion.go:37-94 | under a held lease a complete output set is promoted iff the asset is active, and then version, outputs, pointers and job are all final |
| MediaConsequences.CommitNeverFindsPending | services/asset-core/internal/repository/media_repository.go:572-604 | a commit never meets a pending version: its pointer guard is redundant in reachable states |
| MediaInvariant.ClaimPreserves | services/asset-core/internal/repository/media_job_store.go:46-121 | a claim, or the settlement of a lapsed last attempt in its place, keeps coherence |
| MediaInvariant.SettlePreserves | services/asset-core/internal/repository/media_job_store.go:207-268 | settling a failed execution keeps coherence, with the retry index in range |
| MediaInvariant.IsolatePreserves | services/asset-core/internal/repository/media_dead_letter.go:28-48 | isolation keeps coherence |
| MediaInvariant.RebuildPreserves | services/asset-core/internal/repository/media_dead_letter.go:50-126 | replay keeps coherence |
| MediaInvariant.RedispatchPreserves | services/asset-core/internal/repository/media_reconciliation.go:66-130 | the reconciliation loop keeps coherence, including one unpublished event per job |
| MediaUploads.CreateUploadPreserves | services/asset-core/internal/repository/media_repository.go:253-348 | creating a session, with the reclaim of lapsed ones, keeps coherence |
| MediaConsequences.CreateIsIdempotent | services/asset-core/internal/repository/media_repository.go:266-300 | repeating an admitted request, whatever new ids and time it brings, returns the same session as a replay and changes nothing |
| MediaUploads.CommitPreserves | services/asset-core/internal/repository/media_repository.go:510-638 | a commit keeps coherence while it creates version, job, event and pointer |
| MediaUploads.MarkPurgedPreserves | services/asset-core/internal/repository/media_purge.go:236-283 | recording a purge from a claim read earlier keeps coherence |
| MediaUploads.TeardownPreserves | services/asset-core/internal/repository/lifecycle_purge_repository.go:155-222 | removing an asset's media rows keeps coherence of what is left |
| MediaLedger.CreateUploadBalances | services/asset-core/internal/repository/media_repository.go:301-348 | after a create, reserved bytes are exactly the sum over open sessions, within quota |
| MediaLedger.CommitBalances | services/asset-core/internal/repository/media_repository.go:140-206 | a commit moves exactly the reservation to stored bytes; its clamp is idle |
| MediaLedger.CloseUploadBalances | services/asset-core/internal/repository/media_repository.go:437-495 | cancelling or expiring gives back exactly the reservation; its clamp is idle |
| MediaLedger.ExpireUploadBalances | services/asset-core/internal/repository/media_purge.go:105-143 | the sweep gives back exactly the reservation, even with a candidate list read earlier |
| MediaLedger.MarkPurgedBalances | services/asset-core/internal/repository/media_purge.go:236-283 | a recorded purge gives back exactly the bytes its version still retained, even from a stale claim |
| MediaLedger.TeardownBalances | services/asset-core/internal/repository/lifecycle_purge_repository.go:155-222 | purging an asset gives back exactly its stored and reserved bytes; both clamps are idle |
| MediaStore.Store.CreateUploadSession | services/asset-core/internal/repository/media_repository.go:253-348 | the table updates have exactly the specified effect and answer on every path, rollbacks included |
| MediaStore.Store.ReclaimExpiredSessions | services/asset-core/internal/repository/media_repository.go:181-206 | the loop over reclaimed rows releases exactly the sum of their sizes |
| MediaStore.Store.CommitUpload | services/asset-core/internal/repository/media_repository.go:510-638 | the commit's updates in order equal the specified transaction |
| MediaStore.Store.ClaimJob | services/asset-core/internal/repository/media_job_store.go:46-121 | claim, exhaustion and each refusal equal the specified transaction |
| MediaStore.Store.SettleExecutionFailure | services/asset-core/internal/repository/media_job_store.go:207-268 | retry, exhaustion, lost lease and the rollback on the unique index equal the specified transaction |
| MediaStore.Store.RequireCompleteOutputSet | services/asset-core/internal/repository/media_promotion.go:191-206 | the loop accepts exactly the lists with each manifest kind once |
| MediaStore.Store.CompleteAndPromote | services/asset-core/internal/repository/media_promotion.go:37-94 | the promotion's updates in order equal the specified transaction |
| MediaStore.Store.ReconcileStaleDispatches | services/asset-core/internal/repository/media_reconciliation.go:66-130 | the loop over candidates equals the specified pass |
| MediaStore.Store.ExpireUploadSessions | services/asset-core/internal/repository/media_purge.go:41-143 | the sweep goes on past failed candidates and equals one transaction per candidate |
| MediaStore.Store.FinalizePurgeAsset | services/asset-core/internal/repository/lifecycle_purge_repository.go:155-222 | the ordered row deletes and the ledger update equal the specified transaction |
| MediaWorker.RenewUntilLost | services/asset-core/internal/usecase/media_lease.go:35-112 | the job runs under exactly the held token after every renewal; the loop reports the lease lost iff some tick came at or after the expiry then held |
| MediaWorker.RunJob | services/asset-core/internal/usecase/media_worker.go:59-129 | claim, renewals, rejection or promotion, the lost-lease check and settlement: what every outcome means for the tables, late renewals included |
| MediaWorker.CompleteRenderingPromoted | services/asset-core/internal/usecase/media_rendition.go:67-128 | a complete rendering of a claimable job, undisturbed by others, is promoted iff its lease, as last renewed, still runs |
| MediaKeys.RecordedKeysAreRecords | services/asset-core/internal/repository/lifecycle_purge_repository.go:101-132 | the three manifest inserts select exactly the raw, output and session keys the tables record for the asset |
| MediaKeys.TombstonedGainsNoKey | services/asset-core/internal/repository/media_repository.go:78-109 | no media transaction records a new key for an asset that is tombstoned or gone |
| PurgeManifest.PurgeStepKeeps | services/asset-core/internal/repository/lifecycle_purge_repository.go:22-222 | every step of purge workers, crashes, re-claims, media transactions and late writers keeps: the manifest covers what a worker relies on, a deleted mark follows a removal, credentials and executions of a tombstone started before it, and no key whose writers are bounded is written once its asset is under purge |
| PurgeManifest.CredentialsOver | services/asset-core/internal/repository/media_repository.go:388-427 | an asset under purge has no running upload credential left when credentials live no longer than the retention |
| PurgeManifest.ExecutionsOver | services/asset-core/internal/usecase/media_worker.go:59-129 | an asset under purge has no execution left that may still write when the hard deadline is no longer than the retention |
| PurgeRuns.RunKeepsInv | services/asset-core/internal/repository/lifecycle_purge_repository.go:22-52 | that invariant holds in every state of every interleaving |
| PurgeRuns.TeardownOrphansNothing | services/asset-core/internal/usecase/lifecycle_purger.go:49-82 | when an asset's rows go, every recorded object was removed after its manifest entry was written, and is gone for good when its writers end within the retention; in general iff it was not written since and nobody can write it now |
| PurgeWitness.NeverOrphansExactly | services/asset-core/internal/domain/media_config.go:104-134 | a configuration orphans no recorded object in any run iff credential lifetime and execution deadline are at most the retention |
| PurgeWitness.LateUploadSurvivesPurge | services/asset-core/internal/repository/media_repository.go:388-427 | for every longer credential lifetime, a run from the empty tables after whose teardown the raw object can be uploaded again |
| PurgeWitness.LateOutputSurvivesPurge | services/asset-core/internal/usecase/media_rendition.go:175-273 | for every longer deadline, a run from the empty tables after whose teardown a stalled worker can store an output another one had promoted |
| PurgeRuns.PurgeCompletes | services/asset-core/internal/usecase/lifecycle_purger.go:49-82 | from any state one worker takes a tombstone whose retention is over to an allowed teardown, whatever earlier attempts left behind |
| PurgeRuns.TeardownCommits | services/asset-core/internal/repository/lifecycle_purge_repository.go:155-222 | the teardown of an asset never fails on a missing ledger row |
| PurgeRuns.GoneForGoodExactly | services/asset-core/internal/usecase/media_rendition.go:247-273 | once its session or version is gone, no continuation of the run stores an object again iff it is not stored and no unexpired credential or execution for it is left |
| PurgeRuns.StoredAfterTeardown | services/asset-core/internal/usecase/lifecycle_purger.go:49-82 | at and after the teardown a recorded object is in storage iff a write followed its removal under the manifest |
| PurgeRuns.WritersNeverGrow | services/asset-core/internal/repository/media_job_store.go:46-121 | after the teardown nobody becomes able to write a key of the asset who could not before |
| DisplayNames.FirstFree | services/asset-core/internal/repository/asset_repository_restore.go:17-27 | the search ends on every finite set of used names, by pigeonhole, with the first free numbered candidate |
| DisplayNames.NextAvailableDisplayValue | services/asset-core/internal/repository/asset_repository_restore.go:17-27 | the loop terminates on every input and returns that name |
| LifecycleRoundTrip.RestoreUndoesDelete | services/asset-core/internal/repository/lifecycle_restore_repository.go:492-754 | however the run went in between, when the unit is restored the active rows below its root are exactly those active before the deletion, and every other row has the tombstone and unit it had |
| LifecycleRoundTrip.NothingVisibleMeanwhile | services/asset-core/internal/repository/visibility.go:10-28 | all or nothing: until the root's own transaction no folder or item at or below it is visible |
| LifecycleRoundTrip.MembersTracked | services/asset-core/internal/repository/folder_deletion_repository.go:699-818 | at every moment of a deletion or restore the unit's members are exactly the rows it found active |
| LifecycleRevive.RestoreRowShape | services/asset-core/internal/repository/lifecycle_restore_repository.go:492-706 | a restore batch raises exactly the selected rows and changes no mark of any other |
| LifecycleNames.StepNames | services/asset-core/internal/repository/lifecycle_restore_repository.go:554-754 | no transaction leaves two active sibling folders with one name: creation, moves, cancellation, member and root restores |
| LifecycleNames.RunNames | services/asset-core/internal/repository/lifecycle_restore_repository.go:554-754 | names of active sibling folders are unique in every store of a disciplined run |
| LifecycleNames.RootNames | services/asset-core/internal/repository/lifecycle_restore_repository.go:728-754 | a restored root folder comes back under a name no active sibling has |
| LifecycleNames.RestoreTitles | services/asset-core/internal/repository/lifecycle_restore_repository.go:665-786 | every item a restore brings back, root or member, has a title no other active item of its folder has, the others of its batch included |
| LifecycleRevive.BatchKeepsNames | services/asset-core/internal/repository/lifecycle_restore_repository.go:620-663 | raising any list of folders keeps names unique among active siblings |
| LifecycleOrder.StepOrderly | services/asset-core/internal/repository/asset_repository.go:33-106 | every disciplined step keeps the whole lifecycle invariant: forest, tombstone ownership, gates closed, units nested, fences and job links |
| LifecycleRoundTrip.RunOrderly | services/asset-core/internal/repository/lifecycle_restore_repository.go:192-304 | that invariant holds in every store of a disciplined run |
| LifecycleGuards.GateExactly | services/asset-core/internal/repository/lifecycle_cleanup_worker_repository.go:92-157 | queueing an eligible unit keeps the nesting gate, and the store in order, iff every live unit inside it recorded a path below its own |
| LifecycleGuards.DrainExactly | services/asset-core/internal/repository/lifecycle_purge_repository.go:76-99 | a purge whose root is in place selects an item or a leaf iff its unit's path snapshot is current |
| LifecycleGuards.FinishExactly | services/asset-core/internal/repository/lifecycle_purge_repository.go:224-292 | finishing a purge leaves the store in order iff the snapshot was current and no leaf was left |
| LifecycleGuards.DeletionEndsExactly | services/asset-core/internal/repository/folder_deletion_repository.go:741-818 | completing a deletion leaves the store in order iff its last batch skipped no row |
| LifecycleGuards.RestoreEndsExactly | services/asset-core/internal/repository/lifecycle_restore_repository.go:620-754 | completing a restore leaves the store in order iff its last batch skipped no member |
| LifecycleDrain.DeletionComplete | services/asset-core/internal/repository/folder_deletion_repository.go:699-818 | a deletion that succeeds has tombstoned everything at or below its root, and both rows' counters equal the active counts at confirmation |
| LifecycleDrain.MembersAtEnd | services/asset-core/internal/repository/folder_deletion_repository.go:767-818 | it owns exactly the rows active at confirmation; rows tombstoned before keep their unit |
| LifecycleDrain.CountersExact | services/asset-core/internal/repository/folder_deletion_repository.go:820-839 | at every moment, across crashes and re-claims, the counters of both rows equal the rows buried so far |
| LifecycleDrain.BatchMakesProgress | services/asset-core/internal/repository/folder_deletion_repository.go:699-766 | a batch removes exactly its selection from the active rows below the root |
| LifecycleDrain.ActiveNeverGrows | services/asset-core/internal/repository/deletion_fence.go:36-61 | no other step of a disciplined run brings an active row into a subtree under deletion |
| LifecycleMirror.StepMirrors | services/asset-core/internal/repository/folder_deletion_repository.go:852-896 | every transaction keeps each DELETE job and its V5 row images of each other and links unique, and changes both item counts of a pair alike |
| LifecycleResults.LegacyIsImage | services/asset-core/internal/repository/lifecycle_restore_repository.go:272-296 | in every run the V5 row shows its job's status, attempts, lease, schedule and folder count |
| LifecycleResults.ItemCountsAgree | services/asset-core/internal/repository/folder_deletion_repository.go:820-839 | from its confirmation on, a job and its V5 row count the same items in every run |
| LifecycleResults.SurplusKept | services/asset-core/internal/repository/folder_deletion_repository.go:528-571 | in every run the two item counts of a pair keep the difference they had when they were linked |
| LifecycleFence.StepGuarded | services/asset-core/internal/repository/deletion_fence.go:36-61 | every transaction keeps fenced roots in place and pairwise incomparable |
| LifecycleFence.MoveGuarded | services/asset-core/internal/repository/asset_repository.go:448-576 | a move never takes a fenced root along, out of or into another fenced subtree |
| LifecycleResults.FencedRootsApart | services/asset-core/internal/repository/deletion_fence.go:36-61 | in every run active roots are pairwise path-incomparable and each recorded root path is the folder's current path |
| LifecycleResults.ConfirmExactly | services/asset-core/internal/repository/folder_deletion_repository.go:167-263 | confirming leaves every other deletion's members alone iff the root is visible |
| LifecycleResults.CancelExactly | services/asset-core/internal/repository/folder_deletion_repository.go:294-376 | after cancelling every tombstone belongs to a live unit iff the unit had buried its root only |
| LifecycleResults.NeverClaimedHasNoMember | services/asset-core/internal/repository/folder_deletion_repository.go:431-523 | a job queued ever since its confirmation has buried nothing but its root |
| LifecycleResults.CancelUndoesConfirm | services/asset-core/internal/repository/folder_deletion_repository.go:294-376 | cancelling a never-claimed job gives every row below the root its tombstone and unit from before the confirmation, whatever ran in between |
| LifecycleResults.NeverOrphaned | services/asset-core/internal/repository/lifecycle_purge_repository.go:224-292 | no folder ever loses an ancestor row |
| LifecycleResults.NestingGateHolds | services/asset-core/internal/repository/lifecycle_cleanup_worker_repository.go:92-118 | while a folder unit is queued for purge or purging, every other unit rooted inside it is restored or purged |
| LifecycleResults.PurgeOwnsSubtree | services/asset-core/internal/repository/lifecycle_cleanup_worker_repository.go:92-157 | and every row below its root is a tombstone of that unit |
| LifecycleResults.PurgeIsLeafFirst | services/asset-core/internal/repository/lifecycle_purge_repository.go:232-260 | a folder the purge removes has no row of any unit below it |
| LifecycleResults.PurgeEndsEmpty | services/asset-core/internal/repository/lifecycle_purge_repository.go:262-288 | a purged unit owns no row any more |
| LifecycleDiscipline.LeafExists | services/asset-core/internal/repository/lifecycle_purge_repository.go:232-260 | below every folder of a unit under purge lies one the leaf query selects, or one that still holds an item |
| LifecycleDiscipline.DrainedWhenNoLeaf | services/asset-core/internal/repository/lifecycle_purge_repository.go:262-273 | when no item and no leaf is left to select, nothing of the unit is left |
| LifecycleDiscipline.BatchBuries | services/asset-core/internal/repository/folder_deletion_repository.go:699-818 | a committed batch tombstones exactly its selection, all active and below the root, with the gate already closed |
| LifecycleWitness.EmptyOrderly | services/asset-core/internal/repository/asset_repository.go:33-106 | the empty store satisfies the whole lifecycle invariant |
| LifecycleWitness.HiddenConfirmLosesMember | services/asset-core/internal/repository/folder_deletion_repository.go:167-263 | a run from the empty store reaches a hidden active folder that can be confirmed, which loses the restore's member |
| LifecycleWitness.RequeuedCancelLosesMember | services/asset-core/internal/repository/folder_deletion_repository.go:294-376 | a run reaches a re-queued job with a buried member whose cancellation leaves a tombstone nobody owns |
| LifecycleWitness.MovedAncestorDefeatsGate | services/asset-core/internal/repository/lifecycle_cleanup_worker_repository.go:92-118 | a run reaches a store with a moved ancestor in which the gate passes a unit with a live unit inside it |
| LifecycleWitness.MovedAncestorEndsPurgeEarly | services/asset-core/internal/repository/lifecycle_purge_repository.go:262-288 | a run reaches a purge that finishes with its unit's rows still there |
| LifecycleWitness.OrphanedBelowPurge | services/asset-core/internal/repository/lifecycle_purge_repository.go:232-260 | a purge step from a reached store removes a folder that still has one below it |
| LifecycleWitness.SkippedRowStaysActive | services/asset-core/internal/repository/folder_deletion_repository.go:741-818 | a run reaches a deletion that completes over a locked, still active row |
| LifecycleWitness.SkippedMemberIsStranded | services/asset-core/internal/repository/lifecycle_restore_repository.go:620-754 | a run reaches a restore that raises its root and strands its locked members |
| LifecycleStore.Repository.ProcessFolderDeletionJob | services/asset-core/internal/repository/folder_deletion_repository.go:573-592 | the batch loop terminates and leaves the whole subtree tombstoned, counters exact and both rows succeeded |
| LifecycleStore.Repository.RunBatch | services/asset-core/internal/repository/folder_deletion_repository.go:699-818 | one batch's updates equal the specified transaction, gate repair and rollback included |
| LifecycleStore.Repository.CloseVisibilityGate | services/asset-core/internal/repository/folder_deletion_repository.go:636-650 | the gate's updates equal the specified one |
| LifecycleStore.Repository.ConfirmFolderDeletion | services/asset-core/internal/repository/folder_deletion_repository.go:167-263 | confirmation equals the specified transaction on every path |
| LifecycleStore.Repository.CancelFolderDeletionJob | services/asset-core/internal/repository/folder_deletion_repository.go:294-376 | cancellation equals the specified transaction on every path |
| LifecycleStore.Repository.FenceRefuses | services/asset-core/internal/repository/deletion_fence.go:36-61 | the read-only loop refuses exactly the paths comparable with an active root |
| LifecycleStore.Repository.RestoreMemberFolders | services/asset-core/internal/repository/lifecycle_restore_repository.go:620-663 | the loop over member folders equals raising them one after the other |
| LifecycleStore.Repository.RunRestoreBatch | services/asset-core/internal/repository/lifecycle_restore_repository.go:492-552 | a restore batch, the root-last completion included, equals the specified transaction |
| LifecycleStore.Repository.ProcessRestoreBatch | services/asset-core/internal/repository/lifecycle_restore_repository.go:492-552 | one transaction, its checks and `LIMIT` selections included, equals the specified one; member folders come first, then items, then the root |
| LifecycleStore.Repository.ProcessLifecycleRestoreJob | services/asset-core/internal/repository/lifecycle_restore_repository.go:474-490 | the batch loop terminates; it ends with the unit restored, none of its rows left tombstoned and names unique, iff the worker may restore it and no external identity of its items is taken; otherwise the root stays hidden and the job is still held |
| LifecycleRestoring.BatchDecided | services/asset-core/internal/repository/lifecycle_restore_repository.go:591-607 | a batch fails only if an item of the unit shares its external identity with another that is active or comes back too, and no batch makes or resolves such a clash |
| LifecycleRestoring.LastBatchEmpties | services/asset-core/internal/repository/lifecycle_restore_repository.go:525-549 | when the root comes back the unit owns no row any more |
| LifecycleStore.Repository.QueuePurges | services/asset-core/internal/repository/lifecycle_cleanup_worker_repository.go:121-157 | the loop over picks equals the specified batch, rolled back whole on a failure |
| LifecycleStore.Repository.DrainPurge | services/asset-core/internal/repository/lifecycle_purge_repository.go:224-292 | the drain terminates with the unit purged; its rows are gone and every other row is as it was when its snapshot is current, and no row is touched when an ancestor has moved |
| Paths.UuidRoundTrip | services/access-core/src/domain/ltreePath.ts:1-11 | a uuid is its own path label with the dashes put back |
| Paths.FolderIdsRoundTrip | services/access-core/src/domain/ltreePath.ts:19-26 | decoding an item's path gives exactly the folders it lies in, outermost first |
| Paths.AncestorIdsRoundTrip | services/access-core/src/domain/ltreePath.ts:13-17 | decoding a folder's path gives exactly its proper ancestors |
| Paths.EncodeInjective | services/asset-core/internal/repository/asset_repository.go:336-345 | different id sequences have different path texts |
| Paths.ChildEncodes | services/asset-core/internal/repository/asset_repository.go:336-345 | the written child text is the encoding of the parent's ids with the child's appended |
| Paths.CycleTestIsAncestry | services/asset-core/internal/repository/asset_repository.go:493-502 | the string-prefix cycle test holds iff the destination's id sequence extends the source's |
| Paths.ParentPathIsParent | services/asset-core/internal/repository/asset_repository.go:108-115 | cutting a path text at its last dot is dropping the last id |
| FolderMoves.MoveKeepsForest | services/asset-core/internal/repository/asset_repository.go:448-576 | after any move every path is still the parent's path plus the folder's own id |
| FolderMoves.MoveLands | services/asset-core/internal/repository/asset_repository.go:493-560 | the folder ends directly below its destination, and a destination inside it is refused |
| FolderMoves.MoveIsLocal | services/asset-core/internal/repository/asset_repository.go:544-560 | rows outside the subtree are untouched; rows inside, tombstones included, change only the front of their path |
| FolderMoves.MoveKeepsStructure | services/asset-core/internal/repository/asset_repository.go:544-560 | which of two rows of the subtree lies below the other does not change |
| FolderMoves.MoveBackRestores | services/asset-core/internal/repository/asset_repository.go:544-560 | rewriting the subtree to its new place and back is the identity |
| FolderMoves.PathsUnique | services/asset-core/internal/repository/asset_repository.go:282-371 | no two folders share a path |
| FolderMoves.CycleTestRefusesSubtree | services/asset-core/internal/repository/asset_repository.go:493-502 | with a distinct uuid for every id of the two paths, the test on texts refuses exactly the destinations inside the moved subtree |
| Pagination.TwoRangesAreSuccessors | services/asset-core/internal/repository/asset_repository.go:1003-1024 | the two ordered ranges together are exactly the strict successors in the mixed order, in order |
| Pagination.FetchCandidatePage | services/asset-core/internal/repository/asset_repository.go:956-1035 | a cursor is refused iff its row is none of the list's, matching the search or not; otherwise the page is the next batch of matching rows and the flag says whether more follow |
| Pagination.ReadVisiblePage | services/access-core/src/usecase/visibleMetadataPage.ts:51-139 | the scan loop refuses a stale cursor, and otherwise returns the first permitted candidates after it and whether more follow, unless ten batches hold too few |
| Pagination.ReadVisibleRecycleBinPage | services/access-core/src/usecase/visibleRecycleBinPage.ts:38-124 | the recycle bin's page, authorized by kind and rejoined by resource, is the page of the plain filter |
| Pagination.FollowCursors | services/access-core/src/usecase/visibleMetadataPage.ts:51-139 | following end cursors yields exactly the filtered list, no skip and no repeat, iff no page of the walk hits the batch limit |
| Pagination.FilterSorted | services/access-core/src/usecase/visibleMetadataPage.ts:86-118 | that list is strictly ordered by timestamp descending, then id |
| Pagination.MixedIsPlainFilter | services/access-core/src/usecase/visibleRecycleBinPage.ts:84-117 | authorizing folders and items apart and rejoining by resource is the plain filter iff entries of one resource are permitted together |
| Authorization.DecideAllowedResources | services/access-core/src/authz/authorizationService.ts:144-206 | the batch allows an id iff it was asked for and the single-resource rule allows it |
| Authorization.UnionQueryIsPointwise | services/access-core/src/authz/authorizationService.ts:144-206 | querying all ancestors of all resources at once changes nothing for any one resource |
| Authorization.CanDo | services/access-core/src/authz/authorizationService.ts:239-282 | the single decision is the same rule, without object grants at the organization's node |
| Authorization.CanDoAgreesExactly | services/access-core/src/authz/authorizationService.ts:144-282 | the single decision and the batch agree iff grants do not decide, the resource is not the organization's node, or its grants say what the role ceiling says |
| Authorization.OrganizationNodeDiffers | services/access-core/src/authz/authorizationService.ts:268-276 | at the organization's node each of the two allows a case the other refuses |
| Authorization.FilterVisible | services/access-core/src/authz/authorizationService.ts:284-314 | filtering keeps exactly the allowed items, in their order |
| Authorization.ActionsAreMonotone | services/access-core/src/authz/authorizationService.ts:17-107 | manage implies write implies read, whichever rule decides |
| Authorization.ChildInherits | services/access-core/src/db/queries/authorization.ts:36-70 | a child is allowed by a direct grant, an inheritable grant on its parent, or one on an ancestor of the parent, and by nothing else |
| Authorization.AllowanceClosesDown | services/access-core/src/authz/authorizationService.ts:17-30 | whoever is allowed on a folder other than by managing it directly is allowed on everything below |
| Authorization.ManageIsNeverInherited | services/access-core/src/authz/authorizationService.ts:17-30 | removing every manage grant on other resources changes no answer |
| Authorization.OtherRowsAreIrrelevant | services/access-core/src/db/queries/authorization.ts:36-70 | only rows of the user and the resolved roles can change an answer |
| DecisionFreshness.RunSound | services/access-core/src/cache/singleFlight.ts:5-17 | in every interleaving of requests, followers, fact lookups, grant changes, moves, bumps and expiries every held decision is fresh for its key, and every stored fact for its epoch |
| DecisionFreshness.AnswersAreFresh | services/access-core/src/authz/authorizationService.ts:239-282 | both grant queries behind a returned answer ran after every change to the user, the roles or the assets of that organization whose bump was complete when the request began, through cache hits and followers; such a move is reflected in the ancestors iff the request that computed the answer loaded them, or was supplied ones at least that new |
| DecisionFreshness.AnswersAreEvaluations | services/access-core/src/cache/decisionCache.ts:15-34 | a returned answer is some request's evaluation of that very question on the grants and ancestors of those moments |
| DecisionFreshness.AnswersAreCurrent | services/access-core/src/usecase/objectPermissionService.ts:105-158 | when every relevant change was acknowledged before the request began, the answer is the evaluation on the present grants, under the setting of whoever computed it and on the ancestors that one loaded, the present ones, or was supplied |
| DecisionFreshness.AnswersAreOnesOwn | services/access-core/src/authz/authorizationService.ts:239-282 | such an answer on the present ancestors is the requester's own iff both requests saw one setting or the setting makes no difference |
| DecisionFreshness.OutdatedAncestorsMatter | services/access-core/src/usecase/restoreAuthorization.ts:13-47 | under one setting, supplied ancestors change such an answer iff object grants decide, none is direct, and the supplied and the present ancestors inherit differently |
| DecisionWitness.ToggleIsNotSeen | services/access-core/src/cache/keys.ts:19-35 | a run in which, after object permissions were switched off, a user with no role ceiling is still allowed by the stored decision |
| DecisionWitness.OutdatedAncestorsSpread | services/access-core/src/usecase/restoreAuthorization.ts:13-47 | a run in which ancestors read before an acknowledged move decide a later request that loads its own |
| DecisionCache.ReadCacheSound | services/access-core/src/cache/keys.ts:9-35 | a cache hit hands out only a decision fresh for its key's epochs |
| DecisionCache.StoreFactSound | services/access-core/src/cache/factCache.ts:11-31 | ancestors stored under an asset epoch reflect every move acknowledged by that epoch, however late they are stored |
| DecisionCache.LookupSeesMoves | services/access-core/src/cache/factCache.ts:41-57 | ancestors found by a decision's own lookup, stored or not, reflect every move the decision's key knows of |
| DecisionCache.BumpSound | services/access-core/src/cache/epoch.ts:11-62 | a bump keeps every held decision sound, and its epoch exceeds every epoch of that subject a request has read or a stored key holds |
| ImportOrder.TopologicalSort | services/asset-core/internal/usecase/asset_usecase_import.go:140-191 | the sort fails on a cycle iff the parent relation has one, on an unknown parent iff there is one, and otherwise returns a permutation with parents first, roots and siblings in input order |
| ImportOrder.UnreachedMeansCycle | services/asset-core/internal/usecase/asset_usecase_import.go:186-191 | folders left over when the queue runs empty contain a cycle |
| ImportOrder.SortedIsAcyclic | services/asset-core/internal/usecase/asset_usecase_import.go:169-185 | a parents-first order of all folders exists only for an acyclic relation |
| ImportOrder.AssignPaths | services/asset-core/internal/repository/asset_repository_import.go:34-91 | over a sorted file the parent-path lookup is always defined and each folder is placed below its parent, reusing active folders, those created earlier in the same file included |
| ImportOrder.ImportIsIdempotent | services/asset-core/internal/repository/asset_repository_import.go:34-91 | importing the same file again creates no folder and finds each where the first import left it |
| ImportOrder.SharedExactly | services/asset-core/internal/repository/asset_repository_import.go:42-57 | two folders of a file become one iff they have the same parent path and name |

## Left out

- HTTP and GraphQL layers, middleware, metrics, configuration and field validation: they add no state of their own.
- Kafka, Redis and MinIO clients: publication is an abstract step, storage is a log of writes and removals; bytes, checksums and the refusal to overwrite an object are not modelled, and a write counts at the moment its credential or context is checked.
- The text of cursors, their signatures and RFC 3339 timestamps: a cursor is its position.
- SHA-1 and SHA-256 digests: treated as injective.
- Folder and item updates that rename or edit fields, and single-row restore of a folder or item: they do not look at unit state, so they are no steps of lifecycle runs.
- The import's database writes beyond folder paths: external ids and metadata upserts are not modelled.
- Authorization of deletion requests (preview token, requester): one boolean says whether the caller's checks passed.
- Queue progress: a restore whose parent stays hidden is rolled back and selected again, so no claim is made that every queued job is reached.
- `ORDER BY` within batches: batches are arbitrary admissible selections up to the limit.
- Single flight, epochs and the decision cache as classes: they are modelled as one state machine over many processes, so in-process maps and promise identity are not captured. An item's ancestors are read as one fact; the code reads the item's folder and the folder's path as two.
- The memo of ancestors and roles within one GraphQL request: a later decision of the same request that reuses ancestors is, in the model, one that supplies them.
- Redis failure paths, lost bumps and jitter of time-to-live values: staleness there is bounded by the time-to-live only.
- The in-process cache of role ceilings: its staleness is outside the freshness theorem.
- Several organizations in one lifecycle store: folders, units and jobs of one organization are modelled; the media ledger covers many.
- LifecycleStore.Repository.DrainPurge: runs without interference; lease expiry, renewal and other workers are steps of the lifecycle runs, not of this loop.
- LifecycleStore.Repository.ProcessLifecycleRestoreJob: runs without interference and skips no locked row, which other workers' steps in the lifecycle runs may cause; publishing the outcome is left out.
- Executions cut short: a lost lease also cancels the context at the next renewal. In the model an execution may end at any time, but no renewal has to come: orphaning nothing needs none, and the run that orphans an output under a longer deadline is one in which none comes. A process suspended between its claim and the start of its deadline, or between checking its context and writing, is not modelled.
- MediaWorker.RunJob: executes no image processing; what the execution came to, and when renewals come, are inputs.
- Pagination.FollowCursors: the list stays the same during a walk; rows that change between two pages are not modelled.
- ImportOrder.ImportIsIdempotent: covers folders only, and no other transaction comes between the two imports.
