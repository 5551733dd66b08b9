/**
 The folder forest of one organization with its tombstones, lifecycle units,
 V5 deletion jobs and V8 lifecycle jobs. Every statement of the lifecycle
 engine carries `org_id = ?`, so one organization's rows are the whole state.
 A path is the sequence of folder ids its ltree labels encode.
 */
module LifecycleTables {
  import opened Wrappers

  type Id = nat
  type Time = int
  type Path = seq<Id>

  datatype Key = FolderKey(id: Id) | ItemKey(id: Id)

  datatype External = External(source: string, id: string)

  datatype Row =
    | Folder(path: Path, name: string, deleted: bool, unit: Option<Id>)
    | Item(folder: Id, name: string, external: Option<External>, deleted: bool, unit: Option<Id>)
  {
    /** The row as a tombstone of unit `u`. */
    function Buried(u: Id): Row {
      match this
      case Folder(p, n, _, _) => Folder(p, n, true, Some(u))
      case Item(f, n, e, _, _) => Item(f, n, e, true, Some(u))
    }

    /** The row active again, under the given name. */
    function Raised(n: string): Row {
      match this
      case Folder(p, _, _, _) => Folder(p, n, false, None)
      case Item(f, _, e, _, _) => Item(f, n, e, false, None)
    }
  }

  type Rows = map<Key, Row>

  datatype UnitState =
    | Deleting | Deleted | RestoreQueued | Restoring | Restored | PurgeQueued | Purging | UnitFailed | Purged
  {
    /** Not one of the states that release the root's identity. */
    predicate Live() { !Restored? && !Purged? }
  }

  /** `rootPath` and `parentPath` are snapshots taken when the unit was created. */
  datatype LifecycleUnit = LifecycleUnit(
    root: Key, rootPath: Path, parentPath: Option<Path>, homeFolder: Option<Id>, state: UnitState,
    retentionUntil: Option<Time>)

  datatype Lease = Lease(owner: string, expiresAt: Time)

  datatype LegacyStatus = LegacyPreviewed | LegacyQueued | LegacyRunning | LegacySucceeded | LegacyFailed | LegacyCancelled {
    /** The statuses the deletion fence looks at. */
    predicate Fencing() { LegacyQueued? || LegacyRunning? || LegacyFailed? }
  }

  datatype Counts = Counts(folders: nat, items: nat)

  /** A V5 folder deletion job. */
  datatype Legacy = Legacy(
    root: Id, rootPath: Path, status: LegacyStatus, active: Counts, tombstones: Counts, deleted: Counts,
    previewExpiresAt: Option<Time>, attempts: nat, lease: Option<Lease>, nextRunAt: Option<Time>)

  datatype Operation = DeleteOp | RestoreOp | PurgeOp

  datatype JobStatus = JobQueued | JobRunning | JobSucceeded | JobFailed | JobSuppressed {
    predicate Occupying() { JobQueued? || JobRunning? }
  }

  datatype Checkpoint = Checkpoint(folderRows: nat, itemRows: nat)

  /** A V8 lifecycle job. */
  datatype Job = Job(
    unit: Id, legacy: Option<Id>, operation: Operation, status: JobStatus, checkpoint: Checkpoint,
    attempts: nat, lease: Option<Lease>, nextRunAt: Option<Time>)

  datatype Store = Store(rows: Rows, units: map<Id, LifecycleUnit>, legacy: map<Id, Legacy>, jobs: map<Id, Job>, spent: set<Id>)

  const MAX_ATTEMPTS: nat := 4
  const LEASE_SECONDS: nat := 30
  const DELETE_ITEM_BATCH: nat := 1000
  const DELETE_FOLDER_BATCH: nat := 100
  const RESTORE_ITEM_BATCH: nat := 1000
  const RESTORE_FOLDER_BATCH: nat := 100
  const PREVIEW_TTL: nat := 15 * 60
  const RETENTION: nat := 30 * 24 * 3600

  // ---- paths and visibility ----

  /** A folder's own path; for an item the path of its folder (the join). */
  function PathOf(rows: Rows, k: Key): Path
    requires k in rows
  {
    match rows[k]
    case Folder(path, _, _, _) => path
    case Item(folder, _, _, _, _) =>
      if FolderKey(folder) in rows && rows[FolderKey(folder)].Folder? then rows[FolderKey(folder)].path else []
  }

  /** `path <@ top` */
  predicate Below(rows: Rows, k: Key, top: Path) {
    k in rows && top <= PathOf(rows, k)
  }

  /** The row lies in the subtree of folder `r`, by identity rather than by position. */
  predicate Under(rows: Rows, k: Key, r: Id) {
    k in rows && r in PathOf(rows, k)
  }

  predicate ActiveRow(rows: Rows, k: Key) {
    k in rows && !rows[k].deleted
  }

  predicate Comparable(p: Path, q: Path) {
    p <= q || q <= p
  }

  predicate Tombstone(rows: Rows, k: Key) {
    k in rows && k.FolderKey? && rows[k].Folder? && rows[k].deleted
  }

  /** No folder at or above the path is a tombstone. */
  predicate Clear(rows: Rows, path: Path) {
    forall t :: t in rows && Tombstone(rows, t) ==> !(rows[t].path <= path)
  }

  predicate VisibleFolder(rows: Rows, f: Id) {
    && FolderKey(f) in rows && rows[FolderKey(f)].Folder? && !rows[FolderKey(f)].deleted
    && Clear(rows, rows[FolderKey(f)].path)
  }

  predicate VisibleItem(rows: Rows, i: Id) {
    && ItemKey(i) in rows && rows[ItemKey(i)].Item? && !rows[ItemKey(i)].deleted
    && VisibleFolder(rows, rows[ItemKey(i)].folder)
  }

  /** A visible folder with exactly this path. */
  predicate VisiblePath(rows: Rows, path: Path) {
    exists k :: k in rows && k.FolderKey? && rows[k].Folder? && rows[k].path == path && VisibleFolder(rows, k.id)
  }

  // ---- the forest ----

  predicate FolderSound(rows: Rows, f: Id) {
    FolderKey(f) in rows ==>
      && rows[FolderKey(f)].Folder?
      && rows[FolderKey(f)].path != []
      && rows[FolderKey(f)].path[|rows[FolderKey(f)].path| - 1] == f
  }

  predicate ItemSound(rows: Rows, i: Id) {
    ItemKey(i) in rows ==>
      && rows[ItemKey(i)].Item?
      && FolderKey(rows[ItemKey(i)].folder) in rows
  }

  predicate FolderAt(rows: Rows, f: Id, path: Path) {
    && FolderKey(f) in rows
    && rows[FolderKey(f)].Folder?
    && rows[FolderKey(f)].path == path
  }

  /** Every prefix of a folder's path is the path of the folder it ends in. */
  predicate Chained(rows: Rows, f: Id, i: nat) {
    && FolderKey(f) in rows
    && rows[FolderKey(f)].Folder?
    && i < |rows[FolderKey(f)].path|
    ==>
    FolderAt(rows, rows[FolderKey(f)].path[i], rows[FolderKey(f)].path[..i + 1])
  }

  ghost predicate Forest(rows: Rows) {
    && (forall f {:trigger FolderSound(rows, f)} :: FolderSound(rows, f))
    && (forall i {:trigger ItemSound(rows, i)} :: ItemSound(rows, i))
    && (forall f, i {:trigger Chained(rows, f, i)} :: Chained(rows, f, i))
  }

  /** The folder a row sits in: itself, or an item's folder. */
  function Home(rows: Rows, k: Key): Id
    requires k in rows
  {
    match rows[k]
    case Folder(_, _, _, _) => k.id
    case Item(folder, _, _, _, _) => folder
  }

  /** In a forest a row's path is the path of its home, which is present. */
  lemma HomeSound(rows: Rows, k: Key)
    requires Forest(rows) && k in rows
    ensures FolderAt(rows, Home(rows, k), PathOf(rows, k))
    ensures k.FolderKey? == rows[k].Folder?
    ensures PathOf(rows, k) != [] && PathOf(rows, k)[|PathOf(rows, k)| - 1] == Home(rows, k)
    ensures k.FolderKey? ==> rows[k].path == PathOf(rows, k) && Home(rows, k) == k.id
  {
    if k.FolderKey? { assert FolderSound(rows, k.id); } else { assert ItemSound(rows, k.id); }
    assert FolderSound(rows, Home(rows, k));
  }

  /** Whatever id a path names is a present folder, sitting at that prefix of the path. */
  lemma AncestorPresent(rows: Rows, k: Key, r: Id)
    requires Forest(rows) && Under(rows, k, r)
    ensures FolderKey(r) in rows && rows[FolderKey(r)].Folder? && rows[FolderKey(r)].path <= PathOf(rows, k)
  {
    HomeSound(rows, k);
    var path := PathOf(rows, k);
    var i: nat :| i < |path| && path[i] == r;
    assert Chained(rows, Home(rows, k), i);
  }

  /** Lying in a folder's subtree by identity and lying below its path are the same. */
  lemma UnderIsBelow(rows: Rows, k: Key, r: Id)
    requires Forest(rows) && k in rows && FolderKey(r) in rows && rows[FolderKey(r)].Folder?
    ensures Under(rows, k, r) <==> Below(rows, k, rows[FolderKey(r)].path)
  {
    if Under(rows, k, r) { AncestorPresent(rows, k, r); }
    assert FolderSound(rows, r);
    var top := rows[FolderKey(r)].path;
    if Below(rows, k, top) { assert PathOf(rows, k)[|top| - 1] == r; }
  }

  /** No folder occurs twice on a path, so no folder is its own ancestor. */
  lemma PathsHaveNoRepeats(rows: Rows, f: Id, i: nat, j: nat)
    requires Forest(rows) && FolderKey(f) in rows && rows[FolderKey(f)].Folder?
    requires i < |rows[FolderKey(f)].path| && j < |rows[FolderKey(f)].path|
    requires rows[FolderKey(f)].path[i] == rows[FolderKey(f)].path[j]
    ensures i == j
  {
    assert Chained(rows, f, i) && Chained(rows, f, j);
    assert |rows[FolderKey(f)].path[..i + 1]| == |rows[FolderKey(f)].path[..j + 1]|;
  }

  /** Being in a subtree is transitive. */
  lemma UnderTransitive(rows: Rows, k: Key, r: Id, top: Id)
    requires Forest(rows) && Under(rows, k, r) && FolderKey(r) in rows && Under(rows, FolderKey(r), top)
    ensures Under(rows, k, top)
  {
    AncestorPresent(rows, k, r);
    HomeSound(rows, FolderKey(r));
  }

  /** Two folders on one path lie one below the other. */
  lemma AncestorsComparable(rows: Rows, k: Key, r: Id, t: Id)
    requires Forest(rows) && Under(rows, k, r) && Under(rows, k, t)
    ensures FolderKey(r) in rows && FolderKey(t) in rows
    ensures Under(rows, FolderKey(r), t) || Under(rows, FolderKey(t), r)
  {
    AncestorPresent(rows, k, r);
    AncestorPresent(rows, k, t);
    UnderIsBelow(rows, FolderKey(r), t);
    UnderIsBelow(rows, FolderKey(t), r);
    HomeSound(rows, FolderKey(r));
    HomeSound(rows, FolderKey(t));
  }

  /** A tombstoned folder hides its whole subtree, whatever the rows below say. */
  lemma TombstoneHides(rows: Rows, k: Key, r: Id)
    requires Forest(rows) && Under(rows, k, r) && FolderKey(r) in rows && rows[FolderKey(r)].deleted
    ensures !VisibleFolder(rows, Home(rows, k))
    ensures k.ItemKey? ==> !VisibleItem(rows, k.id)
  {
    AncestorPresent(rows, k, r);
    HomeSound(rows, k);
    assert Tombstone(rows, FolderKey(r));
  }
}
