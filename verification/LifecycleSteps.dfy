/**
 Each transaction of the lifecycle engine as a function from store to store.
 Rows a statement selects (`SELECT ... LIMIT`) and generated ids are parameters;
 `Enabled` in LifecycleRuns says which choices the statement can make. A guard
 that fails, or a unique index that is violated, rolls the transaction back.
 */
module LifecycleSteps {
  import opened Wrappers
  import opened LifecycleTables
  import opened DisplayNames

  datatype Error =
    | FolderNotFound | MetadataNotFound | FolderConflict | MetadataConflict | CycleDetected | FolderNotEmpty
    | DeletionInProgress | PreviewStale | JobNotFound | NotCancellable | UnitNotFound | NotRestorable
    | RestoreParentDeleted | Internal

  datatype Outcome = Commit(store: Store) | Rollback(error: Error)

  function After(s: Store, o: Outcome): Store {
    if o.Commit? then o.store else s
  }

  // ---- shared statements ----

  predicate FencesPath(s: Store, l: Id, path: Path) {
    l in s.legacy && s.legacy[l].status.Fencing() && Comparable(s.legacy[l].rootPath, path)
  }

  /** `ensureNoActiveDeletionForPaths` refuses the path; the empty path is skipped. */
  predicate Fenced(s: Store, path: Path) {
    path != [] && exists l {:trigger FencesPath(s, l, path)} :: l in s.legacy && FencesPath(s, l, path)
  }

  predicate ActiveChild(rows: Rows, k: Key, parent: Path) {
    && k in rows && rows[k].Folder? && !rows[k].deleted
    && parent <= rows[k].path && |rows[k].path| == |parent| + 1
  }

  /** Names of the stored, active folders directly below `parent`, other than `self`. */
  function SiblingNames(rows: Rows, parent: Path, self: Id): set<string> {
    set k | k in rows && ActiveChild(rows, k, parent) && k != FolderKey(self) :: rows[k].name
  }

  /** Titles of the stored, active items of a folder, other than `self`. */
  function ItemTitles(rows: Rows, folder: Id, self: Id): set<string> {
    set k | k in rows && rows[k].Item? && !rows[k].deleted && rows[k].folder == folder && k != ItemKey(self) :: rows[k].name
  }

  /** Another active item already holds the external identity. */
  predicate ExternalTaken(rows: Rows, external: Option<External>, self: Id) {
    external.Some? && exists k :: k in rows && rows[k].Item? && !rows[k].deleted && k != ItemKey(self) && rows[k].external == external
  }

  function ParentPath(path: Path): Option<Path> {
    if |path| > 1 then Some(path[..|path| - 1]) else None
  }

  /** The parent as the unique index on sibling names sees it. */
  function ParentOf(path: Path): Path {
    if |path| > 1 then path[..|path| - 1] else []
  }

  predicate LiveRootUnit(s: Store, u: Id, root: Key) {
    u in s.units && s.units[u].root == root && s.units[u].state.Live()
  }

  /** The partial unique index: a live unit already reserves the root. */
  predicate LiveRoot(s: Store, root: Key) {
    exists u {:trigger LiveRootUnit(s, u, root)} :: u in s.units && LiveRootUnit(s, u, root)
  }

  predicate OccupiesUnit(s: Store, j: Id, u: Id) {
    j in s.jobs && s.jobs[j].unit == u && s.jobs[j].status.Occupying()
  }

  predicate UnitOccupied(s: Store, u: Id) {
    exists j {:trigger OccupiesUnit(s, j, u)} :: j in s.jobs && OccupiesUnit(s, j, u)
  }

  predicate LinkedTo(s: Store, j: Id, l: Id) {
    j in s.jobs && s.jobs[j].legacy == Some(l)
  }

  predicate HasLink(s: Store, l: Id) {
    exists j {:trigger LinkedTo(s, j, l)} :: j in s.jobs && LinkedTo(s, j, l)
  }

  // ---- ordinary writes ----

  function CreateFolder(s: Store, parent: Path, name: string, id: Id): Outcome {
    if parent != [] && !VisiblePath(s.rows, parent) then Rollback(FolderNotFound)
    else if Fenced(s, parent) then Rollback(DeletionInProgress)
    else if name in SiblingNames(s.rows, parent, id) then Rollback(FolderConflict)
    else Commit(s.(rows := s.rows[FolderKey(id) := Folder(parent + [id], name, false, None)], spent := s.spent + {id}))
  }

  function CreateItem(s: Store, folder: Id, name: string, external: Option<External>, id: Id): Outcome {
    if !VisibleFolder(s.rows, folder) then Rollback(FolderNotFound)
    else if Fenced(s, s.rows[FolderKey(folder)].path) then Rollback(DeletionInProgress)
    else if ExternalTaken(s.rows, external, id) then Rollback(MetadataConflict)
    else Commit(s.(rows := s.rows[ItemKey(id) := Item(folder, name, external, false, None)], spent := s.spent + {id}))
  }

  /** `path || subpath(path, nlevel(source))` for every folder at or below the source. */
  function Moved(rows: Rows, source: Path, target: Path): Rows {
    map k | k in rows ::
      if rows[k].Folder? && source <= rows[k].path then rows[k].(path := target + rows[k].path[|source|..]) else rows[k]
  }

  function MoveFolder(s: Store, f: Id, dest: Option<Id>): Outcome {
    if !VisibleFolder(s.rows, f) then Rollback(FolderNotFound) else
    var source := s.rows[FolderKey(f)].path;
    if Fenced(s, source) then Rollback(DeletionInProgress)
    else if dest.Some? && !VisibleFolder(s.rows, dest.value) then Rollback(FolderNotFound) else
    var destPath := if dest.Some? then s.rows[FolderKey(dest.value)].path else [];
    if dest.Some? && (dest.value == f || source <= destPath) then Rollback(CycleDetected)
    else if Fenced(s, destPath) then Rollback(DeletionInProgress) else
    var target := destPath + [f];
    if target == source then Commit(s)
    else if s.rows[FolderKey(f)].name in SiblingNames(s.rows, destPath, f) then Rollback(FolderConflict)
    else Commit(s.(rows := Moved(s.rows, source, target)))
  }

  predicate ActiveBelow(rows: Rows, k: Key, top: Path) {
    Below(rows, k, top) && !rows[k].deleted
  }

  function DeleteFolder(s: Store, f: Id, u: Id, now: Time): Outcome {
    var key := FolderKey(f);
    if !VisibleFolder(s.rows, f) then Rollback(FolderNotFound) else
    var path := s.rows[key].path;
    if Fenced(s, path) then Rollback(DeletionInProgress)
    else if exists k :: k in s.rows && k != key && ActiveBelow(s.rows, k, path) then Rollback(FolderNotEmpty)
    else if LiveRoot(s, key) then Rollback(Internal)
    else if s.rows[key].unit.Some? then Rollback(FolderNotFound)
    else Commit(s.(
      rows := s.rows[key := s.rows[key].Buried(u)],
      units := s.units[u := LifecycleUnit(key, path, ParentPath(path), None, Deleted, Some(now + RETENTION))],
      spent := s.spent + {u}))
  }

  function DeleteItem(s: Store, i: Id, u: Id, now: Time): Outcome {
    var key := ItemKey(i);
    if !VisibleItem(s.rows, i) then Rollback(MetadataNotFound) else
    var folder := s.rows[key].folder;
    var path := s.rows[FolderKey(folder)].path;
    if Fenced(s, path) then Rollback(DeletionInProgress)
    else if LiveRoot(s, key) then Rollback(Internal)
    else if s.rows[key].unit.Some? then Rollback(MetadataNotFound)
    else Commit(s.(
      rows := s.rows[key := s.rows[key].Buried(u)],
      units := s.units[u := LifecycleUnit(key, path, None, Some(folder), Deleted, Some(now + RETENTION))],
      spent := s.spent + {u}))
  }

  // ---- asynchronous folder deletion ----

  function RowsBelow(rows: Rows, top: Path, folders: bool, deleted: bool): set<Key> {
    set k | k in rows && Below(rows, k, top) && k.FolderKey? == folders && rows[k].deleted == deleted
  }

  /** `countFolderDeletionRows` for the active rows, or for the tombstones. */
  function CountRows(rows: Rows, top: Path, deleted: bool): Counts {
    Counts(|RowsBelow(rows, top, true, deleted)|, |RowsBelow(rows, top, false, deleted)|)
  }

  predicate ActiveFolder(rows: Rows, f: Id) {
    FolderKey(f) in rows && rows[FolderKey(f)].Folder? && !rows[FolderKey(f)].deleted
  }

  /** Only the folder's own tombstone is looked at, not those of its ancestors. */
  function Preview(s: Store, f: Id, l: Id, now: Time): Outcome {
    if !ActiveFolder(s.rows, f) then Rollback(FolderNotFound) else
    var path := s.rows[FolderKey(f)].path;
    if Fenced(s, path) then Rollback(DeletionInProgress)
    else Commit(s.(
      legacy := s.legacy[l := Legacy(
        f, path, LegacyPreviewed, CountRows(s.rows, path, false), CountRows(s.rows, path, true), Counts(0, 0),
        Some(now + PREVIEW_TTL), 0, None, None)],
      spent := s.spent + {l}))
  }

  datatype Gate = Gate(store: Store, closed: bool) | Stuck

  predicate DeletingUnitOf(s: Store, u: Id, root: Id) {
    u in s.units && s.units[u].root == FolderKey(root) && s.units[u].state.Deleting?
  }

  /**
   Tombstone the root alone and hang it on its DELETING unit: the existing one
   when `u` names it, otherwise a new unit `u`.
   */
  function CloseGate(s: Store, root: Id, rootPath: Path, u: Id): Gate {
    var key := FolderKey(root);
    if key !in s.rows then Stuck
    else if DeletingUnitOf(s, u, root) then
      Gate(s.(rows := s.rows[key := s.rows[key].Buried(u)]), !s.rows[key].deleted)
    else if u in s.units || LiveRoot(s, key) then Stuck
    else
      Gate(s.(
        rows := s.rows[key := s.rows[key].Buried(u)],
        units := s.units[u := LifecycleUnit(key, rootPath, ParentPath(rootPath), None, Deleting, None)],
        spent := s.spent + {u}),
        !s.rows[key].deleted)
  }

  /** Insert the V8 job unless one of its two unique indexes refuses it. */
  function AddJob(s: Store, j: Id, job: Job): Option<Store> {
    if UnitOccupied(s, job.unit) || (job.legacy.Some? && HasLink(s, job.legacy.value)) then None
    else Some(s.(jobs := s.jobs[j := job], spent := s.spent + {j}))
  }

  function DeleteJob(l: Id, legacy: Legacy, u: Id, now: Time): Job {
    Job(u, Some(l), DeleteOp, JobQueued, Checkpoint(legacy.deleted.folders, 0), legacy.attempts, None, Some(now))
  }

  /** Close the gate for a V5 row that becomes `legacy`, then give it its V8 job. */
  function StartDeletion(s: Store, l: Id, legacy: Legacy, u: Id, j: Id, now: Time): Outcome {
    match CloseGate(s, legacy.root, legacy.rootPath, u)
    case Stuck => Rollback(Internal)
    case Gate(gated, closed) =>
      var counted := if closed then legacy.(deleted := legacy.deleted.(folders := legacy.deleted.folders + 1)) else legacy;
      match AddJob(gated.(legacy := gated.legacy[l := counted]), j, DeleteJob(l, counted, u, now))
      case None => Rollback(Internal)
      case Some(store) => Commit(store)
  }

  predicate Confirmable(s: Store, l: Id, root: Id, accepted: bool, now: Time) {
    && l in s.legacy && s.legacy[l].status.LegacyPreviewed?
    && accepted && s.legacy[l].previewExpiresAt.Some? && now < s.legacy[l].previewExpiresAt.value
    && s.legacy[l].root == root
    && ActiveFolder(s.rows, root) && s.rows[FolderKey(root)].path == s.legacy[l].rootPath
  }

  /** `accepted`: the requester and the confirmation token are the preview's own. */
  function Confirm(s: Store, l: Id, root: Id, accepted: bool, u: Id, j: Id, now: Time): Outcome {
    if !Confirmable(s, l, root, accepted, now) then Rollback(PreviewStale) else
    var preview := s.legacy[l];
    if Fenced(s, preview.rootPath) then Rollback(DeletionInProgress)
    else if preview.active != CountRows(s.rows, preview.rootPath, false)
         || preview.tombstones != CountRows(s.rows, preview.rootPath, true) then Rollback(PreviewStale)
    else StartDeletion(s, l, preview.(status := LegacyQueued, previewExpiresAt := None, nextRunAt := Some(now)), u, j, now)
  }

  predicate Adoptable(s: Store, l: Id, now: Time) {
    && l in s.legacy && !HasLink(s, l)
    && ((s.legacy[l].status.LegacyQueued? && (s.legacy[l].nextRunAt.None? || s.legacy[l].nextRunAt.value <= now))
        || (s.legacy[l].status.LegacyRunning? && s.legacy[l].lease.Some? && s.legacy[l].lease.value.expiresAt < now))
  }

  /** A V5 row from before the V8 engine gets a gate, a unit and a job. */
  function Adopt(s: Store, l: Id, u: Id, j: Id, now: Time): Outcome {
    if !Adoptable(s, l, now) then Rollback(Internal)
    else StartDeletion(s, l, s.legacy[l].(status := LegacyQueued, nextRunAt := Some(now), lease := None), u, j, now)
  }

  /** `j` is the job linked to the V5 row and `u` its root's DELETING unit, when they exist. */
  function Cancel(s: Store, l: Id, j: Option<Id>, u: Option<Id>): Outcome {
    if l !in s.legacy || s.legacy[l].status.LegacyPreviewed? then Rollback(JobNotFound)
    else if !s.legacy[l].status.LegacyQueued? then Rollback(NotCancellable)
    else if j.Some? && (j.value !in s.jobs || !s.jobs[j.value].status.JobQueued?) then Rollback(NotCancellable)
    else
      var cancelled := s.(
        jobs := if j.Some? then s.jobs[j.value := s.jobs[j.value].(status := JobSuppressed, nextRunAt := None)] else s.jobs,
        legacy := s.legacy[l := s.legacy[l].(status := LegacyCancelled, nextRunAt := None)]);
      if u.None? then Commit(cancelled) else
      var key := FolderKey(s.legacy[l].root);
      if !(u.value in s.units && key in s.rows && s.rows[key].Folder? && s.rows[key].deleted && s.rows[key].unit == u) then Rollback(Internal)
      else if s.rows[key].name in SiblingNames(s.rows, ParentOf(s.rows[key].path), key.id) then Rollback(FolderConflict)
      else Commit(cancelled.(
        rows := s.rows[key := s.rows[key].Raised(s.rows[key].name)],
        units := s.units[u.value := s.units[u.value].(state := Restored)]))
  }

  function Retry(s: Store, l: Id, j: Option<Id>, now: Time): Outcome {
    if l !in s.legacy || s.legacy[l].status.LegacyPreviewed? then Rollback(JobNotFound)
    else if !s.legacy[l].status.LegacyFailed? then Rollback(NotCancellable)
    else if j.Some? && (j.value !in s.jobs || !s.jobs[j.value].status.JobFailed?) then Rollback(NotCancellable)
    else Commit(s.(
      jobs := if j.Some?
        then s.jobs[j.value := s.jobs[j.value].(status := JobQueued, attempts := 0, nextRunAt := Some(now), lease := None)]
        else s.jobs,
      legacy := s.legacy[l := s.legacy[l].(status := LegacyQueued, attempts := 0, nextRunAt := Some(now), lease := None)]))
  }

  // ---- claims, failures and leases ----

  predicate Claimable(job: Job, now: Time) {
    || (job.status.JobQueued? && (job.nextRunAt.None? || job.nextRunAt.value <= now))
    || (job.status.JobRunning? && job.lease.Some? && job.lease.value.expiresAt < now)
  }

  function SetState(s: Store, u: Id, state: UnitState): Store
    requires u in s.units
  {
    s.(units := s.units[u := s.units[u].(state := state)])
  }

  /** `FAILED` for a unit whose restore or purge gave up. */
  function FailUnit(s: Store, u: Id, op: Operation): Store {
    if u in s.units
       && ((op.RestoreOp? && (s.units[u].state.RestoreQueued? || s.units[u].state.Restoring?))
           || (op.PurgeOp? && (s.units[u].state.PurgeQueued? || s.units[u].state.Purging?)))
    then SetState(s, u, UnitFailed) else s
  }

  /** Mirror a V8 job's attempts, lease and schedule onto its V5 row. */
  function Mirror(legacy: Legacy, job: Job, status: LegacyStatus): Legacy {
    legacy.(status := status, attempts := job.attempts, lease := job.lease, nextRunAt := job.nextRunAt)
  }

  /** A claim of a job that has no attempt left only records the failure. */
  function FailClaimed(s: Store, j: Id): Store
    requires j in s.jobs
  {
    var job := s.jobs[j].(status := JobFailed, nextRunAt := None, lease := None);
    var s1 := FailUnit(s.(jobs := s.jobs[j := job]), job.unit, job.operation);
    if job.operation.DeleteOp? && job.legacy.Some? && job.legacy.value in s.legacy
    then s1.(legacy := s1.legacy[job.legacy.value := Mirror(s1.legacy[job.legacy.value], job, LegacyFailed)]) else s1
  }

  /** `assertLifecycleRestoreRootAndParent`: `None` when the unit may be restored. */
  function RestoreRefusal(s: Store, u: Id): Option<Error>
    requires u in s.units
  {
    var unit := s.units[u];
    if unit.root !in s.rows || s.rows[unit.root].unit != Some(u) then Some(NotRestorable)
    else if !s.rows[unit.root].deleted then Some(NotRestorable)
    else match unit.root
      case FolderKey(_) =>
        if unit.parentPath.Some? && !VisiblePath(s.rows, unit.parentPath.value) then Some(RestoreParentDeleted) else None
      case ItemKey(_) =>
        if unit.homeFolder.None? then Some(NotRestorable)
        else if !VisibleFolder(s.rows, unit.homeFolder.value) then Some(RestoreParentDeleted) else None
  }

  function Started(job: Job, worker: string, now: Time): Job {
    job.(status := JobRunning, attempts := job.attempts + 1, lease := Some(Lease(worker, now + LEASE_SECONDS)), nextRunAt := None)
  }

  function Claim(s: Store, j: Id, worker: string, now: Time): Outcome {
    if j !in s.jobs || !Claimable(s.jobs[j], now) then Rollback(Internal) else
    var job := s.jobs[j];
    if job.operation.DeleteOp? && (job.legacy.None? || job.legacy.value !in s.legacy) then Rollback(Internal)
    else if job.attempts >= MAX_ATTEMPTS then Commit(FailClaimed(s, j)) else
    var started := Started(job, worker, now);
    var s1 := s.(jobs := s.jobs[j := started]);
    match job.operation
    case DeleteOp =>
      Commit(s1.(legacy := s.legacy[job.legacy.value := Mirror(s.legacy[job.legacy.value], started, LegacyRunning)]))
    case RestoreOp =>
      if job.unit !in s.units || !(s.units[job.unit].state.RestoreQueued? || s.units[job.unit].state.Restoring?) then Rollback(Internal)
      else if RestoreRefusal(s, job.unit).Some? then Rollback(RestoreRefusal(s, job.unit).value)
      else Commit(SetState(s1, job.unit, Restoring))
    case PurgeOp =>
      if job.unit !in s.units || !(s.units[job.unit].state.PurgeQueued? || s.units[job.unit].state.Purging?) then Rollback(Internal)
      else Commit(SetState(s1, job.unit, Purging))
  }

  datatype Adoption = Adoption(legacy: Id, unit: Id, job: Id)

  /** One poll: adopt at most one V5 row, then claim at most one job, in one transaction. */
  function ClaimNext(s: Store, adoption: Option<Adoption>, j: Option<Id>, worker: string, now: Time): Outcome {
    var adopted := if adoption.Some? then Adopt(s, adoption.value.legacy, adoption.value.unit, adoption.value.job, now) else Commit(s);
    if adopted.Rollback? || j.None? then adopted else Claim(adopted.store, j.value, worker, now)
  }

  function RetryDelay(attempt: nat): nat {
    if attempt == 1 then 5 else if attempt == 2 then 30 else 120
  }

  predicate HeldBy(job: Job, op: Operation, worker: string) {
    job.operation == op && job.status.JobRunning? && job.lease.Some? && job.lease.value.owner == worker
  }

  /** The worker runs the job and owns both its V8 and its V5 lease. */
  predicate OwnsDeletion(s: Store, j: Id, l: Id, worker: string) {
    && j in s.jobs && s.jobs[j].legacy == Some(l) && s.jobs[j].status.JobRunning?
    && s.jobs[j].lease.Some? && s.jobs[j].lease.value.owner == worker
    && l in s.legacy && s.legacy[l].status.LegacyRunning?
    && s.legacy[l].lease.Some? && s.legacy[l].lease.value.owner == worker
  }

  function FailDeletion(s: Store, j: Id, l: Id, worker: string, now: Time): Outcome {
    if !OwnsDeletion(s, j, l, worker) then Rollback(Internal) else
    var exhausted := s.legacy[l].attempts >= MAX_ATTEMPTS;
    var next := if exhausted then None else Some(now + RetryDelay(s.legacy[l].attempts));
    Commit(s.(
      jobs := s.jobs[j := s.jobs[j].(status := if exhausted then JobFailed else JobQueued, lease := None, nextRunAt := next)],
      legacy := s.legacy[l := s.legacy[l].(status := if exhausted then LegacyFailed else LegacyQueued, lease := None, nextRunAt := next)]))
  }

  /** The same for RESTORE and PURGE, which also move their unit's state. */
  function FailNative(s: Store, j: Id, op: Operation, worker: string, now: Time): Outcome {
    if op.DeleteOp? || j !in s.jobs || !HeldBy(s.jobs[j], op, worker) then Rollback(Internal) else
    var job := s.jobs[j];
    var exhausted := job.attempts >= MAX_ATTEMPTS;
    var s1 := s.(jobs := s.jobs[j := job.(
      status := if exhausted then JobFailed else JobQueued, lease := None,
      nextRunAt := if exhausted then None else Some(now + RetryDelay(job.attempts)))]);
    if job.unit !in s.units then Commit(s1)
    else if op.RestoreOp? && s.units[job.unit].state.Restoring? then
      Commit(SetState(s1, job.unit, if exhausted then UnitFailed else RestoreQueued))
    else if op.PurgeOp? && s.units[job.unit].state.Purging? then
      Commit(SetState(s1, job.unit, if exhausted then UnitFailed else PurgeQueued))
    else Commit(s1)
  }

  /** Extends the lease only under the exact expiry the worker was given. */
  function RenewPurgeLease(s: Store, j: Id, worker: string, expected: Time, now: Time): Outcome {
    if j in s.jobs && HeldBy(s.jobs[j], PurgeOp, worker) && s.jobs[j].lease.value.expiresAt == expected && now < expected
    then Commit(s.(jobs := s.jobs[j := s.jobs[j].(lease := Some(Lease(worker, now + LEASE_SECONDS)))]))
    else Rollback(Internal)
  }

  // ---- delete batches ----

  /** The chosen rows become tombstones of the unit. */
  function Tombstoned(rows: Rows, chosen: set<Key>, u: Id): Rows {
    map k | k in rows :: if k in chosen then rows[k].Buried(u) else rows[k]
  }

  /** `saveRunningFolderDeletionProgress` */
  function SaveDeletion(s: Store, j: Id, l: Id, worker: string, folders: nat, items: nat, now: Time): Store
    requires j in s.jobs && l in s.legacy
  {
    var lease := Some(Lease(worker, now + LEASE_SECONDS));
    var checkpoint := s.jobs[j].checkpoint;
    var deleted := s.legacy[l].deleted;
    s.(jobs := s.jobs[j := s.jobs[j].(
         checkpoint := Checkpoint(checkpoint.folderRows + folders, checkpoint.itemRows + items), lease := lease)],
       legacy := s.legacy[l := s.legacy[l].(
         deleted := Counts(deleted.folders + folders, deleted.items + items), lease := lease)])
  }

  /** `completeDeletingLifecycleUnit`, and both rows marked as succeeded. */
  function CompleteDeletion(s: Store, j: Id, l: Id, u: Id, folders: nat, now: Time): Store
    requires j in s.jobs && l in s.legacy && u in s.units
  {
    var checkpoint := s.jobs[j].checkpoint;
    var deleted := s.legacy[l].deleted;
    s.(jobs := s.jobs[j := s.jobs[j].(
         status := JobSucceeded, lease := None, checkpoint := checkpoint.(folderRows := checkpoint.folderRows + folders))],
       legacy := s.legacy[l := s.legacy[l].(
         status := LegacySucceeded, lease := None, deleted := deleted.(folders := deleted.folders + folders))],
       units := s.units[u := s.units[u].(state := Deleted, retentionUntil := Some(now + RETENTION))])
  }

  /** `u` is the root's DELETING unit (or a fresh id), `items` and `folders` the selected rows. */
  function DeleteBatch(s: Store, j: Id, l: Id, u: Id, worker: string, items: set<Key>, folders: set<Key>, now: Time): Outcome {
    if !OwnsDeletion(s, j, l, worker) then Rollback(Internal) else
    match CloseGate(s, s.legacy[l].root, s.legacy[l].rootPath, u)
    case Stuck => Rollback(Internal)
    case Gate(gated, closed) =>
      var extra := if closed then 1 else 0;
      if u != s.jobs[j].unit then Rollback(Internal)
      else if items != {} then
        Commit(SaveDeletion(gated.(rows := Tombstoned(gated.rows, items, u)), j, l, worker, extra, |items|, now))
      else if folders != {} then
        Commit(SaveDeletion(gated.(rows := Tombstoned(gated.rows, folders, u)), j, l, worker, extra + |folders|, 0, now))
      else Commit(CompleteDeletion(gated, j, l, u, extra, now))
  }

  // ---- restore ----

  function QueueRestore(s: Store, u: Id, j: Id, now: Time): Outcome {
    if u !in s.units then Rollback(UnitNotFound) else
    var unit := s.units[u];
    if unit.state.RestoreQueued? || unit.state.Restoring? then
      if exists x :: x in s.jobs && OccupiesUnit(s, x, u) && s.jobs[x].operation.RestoreOp? then Commit(s) else Rollback(Internal)
    else if !unit.state.Deleted? then Rollback(NotRestorable)
    else if RestoreRefusal(s, u).Some? then Rollback(RestoreRefusal(s, u).value)
    else if unit.root.ItemKey? && unit.homeFolder.None? then Rollback(NotRestorable)
    else match AddJob(s, j, Job(u, None, RestoreOp, JobQueued, Checkpoint(0, 0), 0, None, Some(now)))
      case None => Rollback(Internal)
      case Some(store) => Commit(SetState(store, u, RestoreQueued))
  }

  /** One tombstoned folder comes back under a name its active siblings do not use. */
  function ReviveFolder(rows: Rows, f: Id): Rows {
    var key := FolderKey(f);
    if key in rows && rows[key].Folder? then
      rows[key := rows[key].Raised(NextAvailable(rows[key].name, SiblingNames(rows, ParentOf(rows[key].path), f)))]
    else rows
  }

  function ReviveFolders(rows: Rows, ids: seq<Id>): Rows {
    if ids == [] then rows else ReviveFolder(ReviveFolders(rows, ids[..|ids| - 1]), ids[|ids| - 1])
  }

  function ReviveItem(rows: Rows, i: Id): Option<Rows> {
    var key := ItemKey(i);
    if !(key in rows && rows[key].Item?) then None
    else if ExternalTaken(rows, rows[key].external, i) then None
    else Some(rows[key := rows[key].Raised(NextAvailable(rows[key].name, ItemTitles(rows, rows[key].folder, i)))])
  }

  /** `None` as soon as one external identity is held by another active item. */
  function ReviveItems(rows: Rows, ids: seq<Id>): Option<Rows> {
    if ids == [] then Some(rows)
    else match ReviveItems(rows, ids[..|ids| - 1])
      case None => None
      case Some(revived) => ReviveItem(revived, ids[|ids| - 1])
  }

  function SaveRestore(s: Store, j: Id, worker: string, folders: nat, items: nat, now: Time): Store
    requires j in s.jobs
  {
    var checkpoint := s.jobs[j].checkpoint;
    s.(jobs := s.jobs[j := s.jobs[j].(
      checkpoint := Checkpoint(checkpoint.folderRows + folders, checkpoint.itemRows + items),
      lease := Some(Lease(worker, now + LEASE_SECONDS)))])
  }

  /** The unit is RESTORED in the same transaction that brings its root back. */
  function CompleteRestore(s: Store, j: Id, u: Id, items: nat): Store
    requires j in s.jobs && u in s.units
  {
    var checkpoint := s.jobs[j].checkpoint;
    SetState(
      s.(jobs := s.jobs[j := s.jobs[j].(
        status := JobSucceeded, nextRunAt := None, lease := None,
        checkpoint := checkpoint.(itemRows := checkpoint.itemRows + items))]),
      u, Restored)
  }

  /** Member folders first, then member items, and the root only when none is left. */
  function RestoreBatch(s: Store, j: Id, worker: string, folders: seq<Id>, items: seq<Id>, now: Time): Outcome {
    if j !in s.jobs || !HeldBy(s.jobs[j], RestoreOp, worker) then Rollback(Internal) else
    var u := s.jobs[j].unit;
    if u !in s.units || !s.units[u].state.Restoring? then Rollback(Internal)
    else if RestoreRefusal(s, u).Some? then Rollback(RestoreRefusal(s, u).value) else
    var root := s.units[u].root;
    match root
    case ItemKey(i) =>
      (match ReviveItem(s.rows, i)
       case None => Rollback(MetadataConflict)
       case Some(revived) => Commit(CompleteRestore(s.(rows := revived), j, u, 1)))
    case FolderKey(f) =>
      if folders != [] then Commit(SaveRestore(s.(rows := ReviveFolders(s.rows, folders)), j, worker, |folders|, 0, now))
      else if items != [] then
        (match ReviveItems(s.rows, items)
         case None => Rollback(MetadataConflict)
         case Some(revived) => Commit(SaveRestore(s.(rows := revived), j, worker, 0, |items|, now)))
      else Commit(CompleteRestore(s.(rows := ReviveRoot(s.rows, f, s.units[u].parentPath)), j, u, 0))
  }

  /** The root is renamed against the siblings at the parent path its unit recorded. */
  function ReviveRoot(rows: Rows, f: Id, parentPath: Option<Path>): Rows
    requires FolderKey(f) in rows
  {
    var key := FolderKey(f);
    var parent := if parentPath.Some? then parentPath.value else [];
    rows[key := rows[key].Raised(NextAvailable(rows[key].name, SiblingNames(rows, parent, f)))]
  }

  // ---- retention cleanup and purge ----

  predicate Depends(s: Store, d: Id, u: Id) {
    && d in s.units && u in s.units && d != u
    && s.units[d].state.Live() && s.units[u].rootPath <= s.units[d].rootPath
  }

  /** Retention is over and, for a folder, no other live unit's path snapshot lies below. */
  predicate Eligible(s: Store, u: Id, now: Time) {
    && u in s.units && s.units[u].state.Deleted?
    && s.units[u].retentionUntil.Some? && s.units[u].retentionUntil.value <= now
    && (s.units[u].root.ItemKey? || !exists d {:trigger Depends(s, d, u)} :: d in s.units && Depends(s, d, u))
  }

  function QueuePurge(s: Store, u: Id, j: Id, now: Time): Outcome {
    if u !in s.units || (s.units[u].root.ItemKey? && s.units[u].homeFolder.None?) then Rollback(Internal)
    else match AddJob(s, j, Job(u, None, PurgeOp, JobQueued, Checkpoint(0, 0), 0, None, Some(now)))
      case None => Rollback(Internal)
      case Some(store) => Commit(if s.units[u].state.Deleted? then SetState(store, u, PurgeQueued) else store)
  }

  datatype Pick = Pick(unit: Id, job: Id)

  /** One cleanup transaction queues a PURGE job for each selected unit, or none at all. */
  function CleanupBatch(s: Store, picks: seq<Pick>, now: Time): Outcome {
    if picks == [] then Commit(s)
    else match CleanupBatch(s, picks[..|picks| - 1], now)
      case Rollback(error) => Rollback(error)
      case Commit(store) => QueuePurge(store, picks[|picks| - 1].unit, picks[|picks| - 1].job, now)
  }

  /** `lockRunningPurgeJob`: unlike a batch, a purge checks the lease's expiry. */
  predicate PurgeRunning(s: Store, j: Id, worker: string, now: Time) {
    && j in s.jobs && HeldBy(s.jobs[j], PurgeOp, worker) && now < s.jobs[j].lease.value.expiresAt
    && s.jobs[j].unit in s.units && s.units[s.jobs[j].unit].state.Purging?
  }

  /** The teardown's last statement; the asset's media rows are PurgeManifest's subject. */
  function PurgeItem(s: Store, j: Id, worker: string, i: Id, now: Time): Outcome {
    if !PurgeRunning(s, j, worker, now) then Rollback(Internal) else
    var key := ItemKey(i);
    Commit(if key in s.rows && s.rows[key].deleted && s.rows[key].unit == Some(s.jobs[j].unit) then s.(rows := s.rows - {key}) else s)
  }

  predicate OwnedBy(rows: Rows, k: Key, u: Id) {
    k in rows && rows[k].unit == Some(u)
  }

  /** A tombstoned folder of the unit with no item in it and no folder of the unit below it. */
  predicate PurgeLeaf(s: Store, f: Id, u: Id) {
    var key := FolderKey(f);
    && u in s.units && key in s.rows && s.rows[key].Folder? && s.rows[key].deleted && s.rows[key].unit == Some(u)
    && s.units[u].rootPath <= s.rows[key].path
    && (forall k :: k in s.rows && s.rows[k].Item? ==> s.rows[k].folder != f)
    && (forall k :: k in s.rows && s.rows[k].Folder? && s.rows[k].unit == Some(u) && k != key ==> !(s.rows[key].path <= s.rows[k].path))
  }

  predicate RemainingItem(s: Store, k: Key, u: Id) {
    && u in s.units && k in s.rows && s.rows[k].Item? && s.rows[k].deleted && s.rows[k].unit == Some(u)
    && s.units[u].rootPath <= PathOf(s.rows, k)
  }

  /** Remove the selected leaf, or finish the job when none is selectable. */
  function FinalizePurge(s: Store, j: Id, worker: string, leaf: Option<Id>, now: Time): Outcome {
    if !PurgeRunning(s, j, worker, now) then Rollback(Internal) else
    var u := s.jobs[j].unit;
    if leaf.Some? then Commit(if PurgeLeaf(s, leaf.value, u) then s.(rows := s.rows - {FolderKey(leaf.value)}) else s)
    else if exists k {:trigger RemainingItem(s, k, u)} :: k in s.rows && RemainingItem(s, k, u) then Rollback(Internal)
    else Commit(SetState(s.(jobs := s.jobs[j := s.jobs[j].(status := JobSucceeded, lease := None)]), u, Purged))
  }
}
