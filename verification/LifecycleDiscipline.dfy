/**
 Disciplined runs: deletions start at visible folders, a cancelled deletion has
 buried no member yet, a job finishes only when no row it should take was locked,
 and the path snapshots a purge compares are not outdated by a moved ancestor. In
 such runs the store stays tidy.
 */
module LifecycleDiscipline {
  import opened Wrappers
  import opened LifecycleTables
  import opened LifecycleSteps
  import opened LifecycleRuns
  import opened LifecycleRevive
  import opened LifecycleMirror
  import opened LifecycleFence
  import opened LifecycleInvariant
  import opened LifecycleKept
  import opened LifecycleRowSteps
  import opened LifecycleTreeSteps

  /** A unit's path snapshot is its root's present path. */
  predicate SnapshotCurrent(s: Store, u: Id) {
    u in s.units && s.units[u].state.Live() && s.units[u].root in s.rows ==> s.units[u].rootPath == PathOf(s.rows, s.units[u].root)
  }

  /** A live unit rooted inside `u`'s subtree recorded a path that extends `u`'s. */
  predicate SnapshotBelow(s: Store, u: Id, x: Id) {
    u in s.units && x in s.units && x != u && s.units[u].root.FolderKey?
    && s.units[x].state.Live() && s.units[x].root in s.rows && Under(s.rows, s.units[x].root, s.units[u].root.id)
    ==>
    s.units[u].rootPath <= s.units[x].rootPath
  }

  ghost predicate SnapshotsBelow(s: Store, u: Id) {
    forall x {:trigger SnapshotBelow(s, u, x)} :: SnapshotBelow(s, u, x)
  }

  ghost predicate NoLeaf(s: Store, u: Id) {
    forall f {:trigger PurgeLeaf(s, f, u)} :: !PurgeLeaf(s, f, u)
  }

  /** A batch that takes nothing, and so finishes its job, has passed over no locked row. */
  predicate NoRowSkipped(s: Store, l: Id, items: set<Key>, folders: set<Key>) {
    l in s.legacy && items == {} && folders == {} ==>
      && DeletableRows(s.rows, s.legacy[l].rootPath, s.legacy[l].root, false) == {}
      && DeletableRows(s.rows, s.legacy[l].rootPath, s.legacy[l].root, true) == {}
  }

  predicate NoMemberSkipped(s: Store, u: Id, folders: seq<Id>, items: seq<Id>) {
    u in s.units && folders == [] && items == [] ==>
      RestorableIds(s.rows, u, s.units[u].root, true) == {} && RestorableIds(s.rows, u, s.units[u].root, false) == {}
  }

  /** The unit owns its root and nothing else: no batch has run yet. */
  ghost predicate NoMember(s: Store, u: Id) {
    u in s.units ==> forall k {:trigger OwnedBy(s.rows, k, u)} :: OwnedBy(s.rows, k, u) ==> k == s.units[u].root
  }

  ghost predicate Disciplined(s: Store, step: Step) {
    match step
    case ConfirmDeletion(_, folder, _, _, _, _) => VisibleFolder(s.rows, folder)
    case Poll(adoption, _, _, _) =>
      adoption.Some? && adoption.value.legacy in s.legacy ==> VisibleFolder(s.rows, s.legacy[adoption.value.legacy].root)
    case CancelDeletion(_, _, deleting) => deleting.Some? ==> NoMember(s, deleting.value)
    case DeleteRows(l, _, _, _, items, folders, _) => NoRowSkipped(s, l, items, folders)
    case RestoreRows(j, _, folders, items, _) => j in s.jobs ==> NoMemberSkipped(s, s.jobs[j].unit, folders, items)
    case Cleanup(picks, _) => forall i :: 0 <= i < |picks| ==> SnapshotsBelow(s, picks[i].unit)
    case PurgeOneFolder(j, _, leaf, _) =>
      leaf.None? && j in s.jobs ==> SnapshotCurrent(s, s.jobs[j].unit) && NoLeaf(s, s.jobs[j].unit)
    case _ => true
  }

  // ---- deletions in progress are fenced ----

  predicate ProtectedBy(s: Store, u: Id, l: Id) {
    u in s.units && Fencing(s, l) && s.units[u].root == FolderKey(s.legacy[l].root)
  }

  ghost predicate Protected(s: Store, u: Id) {
    u in s.units && s.units[u].state.Deleting? ==> exists l {:trigger ProtectedBy(s, u, l)} :: ProtectedBy(s, u, l)
  }

  ghost predicate ProtectedAll(s: Store) { forall u {:trigger Protected(s, u)} :: Protected(s, u) }

  predicate JobKnown(s: Store, j: Id) { j in s.jobs ==> s.jobs[j].unit in s.units }

  ghost predicate JobsKnown(s: Store) { forall j {:trigger JobKnown(s, j)} :: JobKnown(s, j) }

  /** The invariant of disciplined runs. */
  ghost predicate Orderly(s: Store) {
    IdsSpent(s) && Mirrored(s) && Guarded(s) && Tidy(s) && ProtectedAll(s) && JobsKnown(s)
  }

  // ---- what a transaction does to rows and units ----

  datatype Effect =
    | Untouched
    | StateChange(u: Id)
    | Ending(u: Id)
    | Inserted(key: Key, row: Row, h: Option<Id>)
    | Shifted(f: Id, dest: Option<Id>)
    | Founded(u: Id, key: Key)
    | Buried(u: Id, chosen: set<Key>)
    | Raised(u: Id, chosen: set<Key>)
    | Removed(u: Id, key: Key)

  ghost predicate Has(s: Store, t: Store, e: Effect) {
    match e
    case Untouched => t.rows == s.rows && t.units == s.units && s.spent <= t.spent
    case StateChange(u) => StateMoving(s, t, u)
    case Ending(u) => UnitEnding(s, t, u)
    case Inserted(key, row, h) => Inserting(s, t, key, row, h)
    case Shifted(f, dest) => Moving(s, t, f, dest)
    case Founded(u, key) => Founding(s, t, u, key)
    case Buried(u, chosen) => Burying(s, t, u, chosen)
    case Raised(u, chosen) => Raising(s, t, u, chosen)
    case Removed(u, key) => Removing(s, t, u, key)
  }

  lemma EffectTidy(s: Store, t: Store, e: Effect)
    requires Tidy(s) && Has(s, t, e)
    ensures Tidy(t)
  {
    match e
    case Untouched => RowsAndUnitsKept(s, t);
    case StateChange(u) => StateMoved(s, t, u);
    case Ending(u) => UnitEnded(s, t, u);
    case Inserted(key, row, h) => RowInserted(s, t, key, row, h);
    case Shifted(f, dest) => SubtreeMoved(s, t, f, dest);
    case Founded(u, key) => UnitFounded(s, t, u, key);
    case Buried(u, chosen) => RowsBuried(s, t, u, chosen);
    case Raised(u, chosen) => RowsRaised(s, t, u, chosen);
    case Removed(u, key) => RowRemoved(s, t, u, key);
  }

  // ---- each transaction, by its effect on rows and units ----

  lemma NewFolderEffect(s: Store, parent: Path, name: string, id: Id) returns (e: Effect)
    requires Orderly(s) && id !in s.spent
    ensures Has(s, After(s, CreateFolder(s, parent, name, id)), e)
    ensures !e.Buried?
  {
    e := Untouched;
    var o := CreateFolder(s, parent, name, id);
    if o.Commit? {
      if parent == [] {
        e := Inserted(FolderKey(id), o.store.rows[FolderKey(id)], None);
      } else {
        var k :| k in s.rows && k.FolderKey? && s.rows[k].Folder? && s.rows[k].path == parent && VisibleFolder(s.rows, k.id);
        e := Inserted(FolderKey(id), o.store.rows[FolderKey(id)], Some(k.id));
      }
    }
  }

  lemma NewItemEffect(s: Store, folder: Id, name: string, external: Option<External>, id: Id) returns (e: Effect)
    requires Orderly(s) && id !in s.spent
    ensures Has(s, After(s, CreateItem(s, folder, name, external, id)), e)
    ensures !e.Buried?
  {
    e := Untouched;
    var o := CreateItem(s, folder, name, external, id);
    if o.Commit? { e := Inserted(ItemKey(id), o.store.rows[ItemKey(id)], Some(folder)); }
  }

  lemma MoveEffect(s: Store, f: Id, dest: Option<Id>) returns (e: Effect)
    requires Orderly(s)
    ensures Has(s, After(s, MoveFolder(s, f, dest)), e)
    ensures !e.Buried?
  {
    e := Untouched;
    var o := MoveFolder(s, f, dest);
    if o.Commit? && o.store != s {
      assert FolderSound(s.rows, f);
      e := Shifted(f, dest);
    }
  }

  /** A root about to be tombstoned has no deletion in progress below it: the fence would refuse. */
  lemma FenceCoversSubtree(s: Store, f: Id, w: Id)
    requires Orderly(s) && FolderKey(f) in s.rows && s.rows[FolderKey(f)].Folder?
    requires forall m {:trigger Fencing(s, m)} :: Fencing(s, m) ==> !Comparable(s.legacy[m].rootPath, s.rows[FolderKey(f)].path)
    requires w in s.units && s.units[w].state.Deleting?
    ensures !Under(s.rows, s.units[w].root, f)
  {
    assert Protected(s, w);
    var l :| ProtectedBy(s, w, l);
    assert FenceRoot(s, l);
    if Under(s.rows, s.units[w].root, f) { UnderIsBelow(s.rows, s.units[w].root, f); }
  }

  lemma NotFencedMeans(s: Store, path: Path)
    requires path != [] && !Fenced(s, path)
    ensures forall m {:trigger Fencing(s, m)} :: Fencing(s, m) ==> !Comparable(s.legacy[m].rootPath, path)
  {
    forall m | Fencing(s, m) ensures !Comparable(s.legacy[m].rootPath, path) { ClearOfFence(s, path, m); }
  }

  lemma DropFolderEffect(s: Store, f: Id, u: Id, now: Time) returns (e: Effect)
    requires Orderly(s) && u !in s.spent
    ensures Has(s, After(s, DeleteFolder(s, f, u, now)), e)
    ensures !e.Buried?
  {
    e := Untouched;
    var o := DeleteFolder(s, f, u, now);
    if o.Commit? {
      var key := FolderKey(f);
      HomeSound(s.rows, key);
      NotFencedMeans(s, s.rows[key].path);
      forall w | w in s.units && s.units[w].state.Deleting? ensures !Under(s.rows, s.units[w].root, f) { FenceCoversSubtree(s, f, w); }
      forall k | Under(s.rows, k, f) && k != key ensures s.rows[k].deleted {
        UnderIsBelow(s.rows, k, f);
        assert !ActiveBelow(s.rows, k, s.rows[key].path);
      }
      e := Founded(u, key);
    }
  }

  lemma DropItemEffect(s: Store, i: Id, u: Id, now: Time) returns (e: Effect)
    requires Orderly(s) && u !in s.spent
    ensures Has(s, After(s, DeleteItem(s, i, u, now)), e)
    ensures !e.Buried?
  {
    e := Untouched;
    var o := DeleteItem(s, i, u, now);
    if o.Commit? { e := Founded(u, ItemKey(i)); }
  }

  /** A visible root is active, so it has no DELETING unit yet and the gate creates one. */
  lemma StartEffect(s: Store, l: Id, legacy: Legacy, u: Id, j: Id, now: Time) returns (e: Effect)
    requires Orderly(s) && j !in s.spent && j != u && VisibleFolder(s.rows, legacy.root) && GateChoice(s, legacy.root, u)
    requires s.rows[FolderKey(legacy.root)].path == legacy.rootPath
    requires forall m {:trigger Fencing(s, m)} :: Fencing(s, m) && m != l ==> !Comparable(s.legacy[m].rootPath, legacy.rootPath)
    requires Fencing(s, l) ==> s.legacy[l].root == legacy.root
    ensures Has(s, After(s, StartDeletion(s, l, legacy, u, j, now)), e) && (e.Untouched? || e.Founded?)
    ensures !e.Buried?
  {
    e := Untouched;
    var o := StartDeletion(s, l, legacy, u, j, now);
    if o.Commit? {
      StartShape(s, l, legacy, u, j, now);
      GateShape(s, legacy.root, legacy.rootPath, u);
      var key := FolderKey(legacy.root);
      assert UnitRooted(s, u);
      HomeSound(s.rows, key);
      forall w | w in s.units && s.units[w].state.Deleting? ensures !Under(s.rows, s.units[w].root, key.id) {
        assert Protected(s, w) && UnitRooted(s, w);
        var m :| ProtectedBy(s, w, m);
        assert FenceRoot(s, m);
        if Under(s.rows, s.units[w].root, key.id) { UnderIsBelow(s.rows, s.units[w].root, key.id); }
      }
      assert s.rows[key].unit.None? by { assert RowOwned(s, key); }
      e := Founded(u, key);
    }
  }

  lemma ConfirmEffect(s: Store, l: Id, root: Id, accepted: bool, u: Id, j: Id, now: Time) returns (e: Effect)
    requires Orderly(s) && j !in s.spent && j != u && GateChoice(s, root, u) && VisibleFolder(s.rows, root)
    ensures Has(s, After(s, Confirm(s, l, root, accepted, u, j, now)), e) && (e.Untouched? || e.Founded?)
    ensures !e.Buried?
  {
    e := Untouched;
    if Confirm(s, l, root, accepted, u, j, now).Commit? {
      HomeSound(s.rows, FolderKey(root));
      NotFencedMeans(s, s.legacy[l].rootPath);
      e := StartEffect(s, l, s.legacy[l].(status := LegacyQueued, previewExpiresAt := None, nextRunAt := Some(now)), u, j, now);
    }
  }

  lemma AdoptEffect(s: Store, l: Id, u: Id, j: Id, now: Time) returns (e: Effect)
    requires Orderly(s) && j !in s.spent && j != u && l in s.legacy
    requires GateChoice(s, s.legacy[l].root, u) && VisibleFolder(s.rows, s.legacy[l].root)
    ensures Has(s, After(s, Adopt(s, l, u, j, now)), e) && (e.Untouched? || e.Founded?)
    ensures !e.Buried?
  {
    e := Untouched;
    if Adoptable(s, l, now) {
      assert FenceRoot(s, l);
      forall m | Fencing(s, m) && m != l ensures !Comparable(s.legacy[m].rootPath, s.legacy[l].rootPath) { assert FencePair(s, m, l); }
      e := StartEffect(s, l, s.legacy[l].(status := LegacyQueued, nextRunAt := Some(now), lease := None), u, j, now);
    }
  }

  lemma CancelEffect(s: Store, l: Id, j: Option<Id>, u: Option<Id>) returns (e: Effect)
    requires Orderly(s) && (l in s.legacy ==> DeletingChoice(s, s.legacy[l].root, u)) && (u.Some? ==> NoMember(s, u.value))
    ensures Has(s, After(s, Cancel(s, l, j, u)), e)
    ensures !e.Buried?
  {
    e := Untouched;
    var o := Cancel(s, l, j, u);
    if o.Commit? {
      if u.None? {
        e := Untouched;
      } else {
        var w, root := u.value, s.units[u.value].root;
        assert UnitRooted(s, w);
        forall x ensures Clearance(s, w, x) { assert Outermost(s, w, x); }
        forall k | k in s.rows ensures RowAfter(s.rows, o.store.rows, k, k in {root}) {}
        e := Raised(w, {root});
      }
    }
  }

  /** A running deletion's gate is closed already: closing it again changes nothing. */
  lemma GateIsClosed(s: Store, root: Id, rootPath: Path, u: Id)
    requires Orderly(s) && GateChoice(s, root, u) && u in s.units
    ensures DeletingUnitOf(s, u, root) && RootInPlace(s, u)
    ensures CloseGate(s, root, rootPath, u) == Gate(s, false)
  {
    assert UnitRooted(s, u);
    var key := FolderKey(root);
    assert s.rows[key].Buried(u) == s.rows[key];
    assert s.rows[key := s.rows[key]] == s.rows;
  }

  /** A batch that selects something buries active rows of the unit's own subtree. */
  lemma BatchBuries(s: Store, l: Id, j: Id, u: Id, worker: string, items: set<Key>, folders: set<Key>, now: Time)
    requires Orderly(s) && Enabled(s, DeleteRows(l, j, u, worker, items, folders, now))
    requires DeleteBatch(s, j, l, u, worker, items, folders, now).Commit?
    ensures
      var t := DeleteBatch(s, j, l, u, worker, items, folders, now).store;
      && t.rows == Tombstoned(s.rows, BatchRows(items, folders), u) && s.spent <= t.spent
      && DeletingUnitOf(s, u, s.legacy[l].root) && RootInPlace(s, u)
      && CloseGate(s, s.legacy[l].root, s.legacy[l].rootPath, u) == Gate(s, false)
      && (BatchRows(items, folders) != {} ==> t.units == s.units)
      && (BatchRows(items, folders) == {} ==> t.units == s.units[u := s.units[u].(state := Deleted, retentionUntil := Some(now + RETENTION))])
    ensures forall k {:trigger k in BatchRows(items, folders)} ::
      k in BatchRows(items, folders) ==> ActiveRow(s.rows, k) && Under(s.rows, k, s.legacy[l].root)
  {
    BatchShape(s, j, l, u, worker, items, folders, now);
    assert JobKnown(s, j) && FenceRoot(s, l);
    GateIsClosed(s, s.legacy[l].root, s.legacy[l].rootPath, u);
    forall k | k in BatchRows(items, folders) ensures ActiveRow(s.rows, k) && Under(s.rows, k, s.legacy[l].root) {
      UnderIsBelow(s.rows, k, s.legacy[l].root);
    }
  }

  /** A batch that selects nothing finds the whole subtree tombstoned. */
  lemma NothingLeft(s: Store, l: Id, j: Id, u: Id, worker: string, now: Time, k: Key)
    requires Orderly(s) && Enabled(s, DeleteRows(l, j, u, worker, {}, {}, now)) && NoRowSkipped(s, l, {}, {})
    requires DeleteBatch(s, j, l, u, worker, {}, {}, now).Commit?
    requires Under(s.rows, k, s.legacy[l].root)
    ensures s.rows[k].deleted
  {
    var root, top := s.legacy[l].root, s.legacy[l].rootPath;
    BatchBuries(s, l, j, u, worker, {}, {}, now);
    assert FenceRoot(s, l);
    UnderIsBelow(s.rows, k, root);
    assert k != FolderKey(root) && !s.rows[k].deleted ==> k in DeletableRows(s.rows, top, root, k.FolderKey?);
  }

  /** An empty batch moves the unit on to DELETED over a fully tombstoned subtree. */
  lemma BatchCompletes(s: Store, l: Id, j: Id, u: Id, worker: string, now: Time)
    requires Orderly(s) && Enabled(s, DeleteRows(l, j, u, worker, {}, {}, now)) && NoRowSkipped(s, l, {}, {})
    requires DeleteBatch(s, j, l, u, worker, {}, {}, now).Commit?
    ensures StateMoving(s, DeleteBatch(s, j, l, u, worker, {}, {}, now).store, u)
  {
    BatchBuries(s, l, j, u, worker, {}, {}, now);
    var t := DeleteBatch(s, j, l, u, worker, {}, {}, now).store;
    assert t.rows == s.rows;
    forall k | Under(s.rows, k, s.legacy[l].root) ensures s.rows[k].deleted { NothingLeft(s, l, j, u, worker, now, k); }
  }

  lemma BatchEffect(s: Store, l: Id, j: Id, u: Id, worker: string, items: set<Key>, folders: set<Key>, now: Time) returns (e: Effect)
    requires Orderly(s) && Enabled(s, DeleteRows(l, j, u, worker, items, folders, now)) && NoRowSkipped(s, l, items, folders)
    ensures Has(s, After(s, DeleteBatch(s, j, l, u, worker, items, folders, now)), e)
    ensures e.Buried? ==> e.u == u && DeleteBatch(s, j, l, u, worker, items, folders, now).Commit?
  {
    e := Untouched;
    if DeleteBatch(s, j, l, u, worker, items, folders, now).Commit? {
      if items == {} && folders == {} {
        BatchCompletes(s, l, j, u, worker, now);
        e := StateChange(u);
      } else {
        BatchBuries(s, l, j, u, worker, items, folders, now);
        e := Buried(u, BatchRows(items, folders));
      }
    }
  }

  lemma ClaimEffect(s: Store, j: Id, worker: string, now: Time) returns (e: Effect)
    requires Tidy(s) && Mirrored(s)
    ensures Has(s, After(s, Claim(s, j, worker, now)), e) && (e.Untouched? || e.StateChange?)
    ensures !e.Buried?
  {
    e := Untouched;
    var o := Claim(s, j, worker, now);
    if o.Commit? {
      if o.store.units == s.units { e := Untouched; } else { e := StateChange(s.jobs[j].unit); }
    }
  }

  lemma GiveUpNativeEffect(s: Store, j: Id, op: Operation, worker: string, now: Time) returns (e: Effect)
    requires Tidy(s)
    ensures Has(s, After(s, FailNative(s, j, op, worker, now)), e)
    ensures !e.Buried?
  {
    e := Untouched;
    var o := FailNative(s, j, op, worker, now);
    if o.Commit? {
      if o.store.units == s.units { e := Untouched; } else { e := StateChange(s.jobs[j].unit); }
    }
  }

  lemma AskEffect(s: Store, u: Id, j: Id, now: Time) returns (e: Effect)
    requires Tidy(s)
    ensures Has(s, After(s, QueueRestore(s, u, j, now)), e)
    ensures !e.Buried?
  {
    e := Untouched;
    var o := QueueRestore(s, u, j, now);
    if o.Commit? && o.store != s { e := StateChange(u); }
  }

  lemma RestoreEffect(s: Store, j: Id, worker: string, folders: seq<Id>, items: seq<Id>, now: Time) returns (e: Effect)
    requires Tidy(s) && Enabled(s, RestoreRows(j, worker, folders, items, now)) && Disciplined(s, RestoreRows(j, worker, folders, items, now))
    ensures Has(s, After(s, RestoreBatch(s, j, worker, folders, items, now)), e)
    ensures !e.Buried?
  {
    e := Untouched;
    var o := RestoreBatch(s, j, worker, folders, items, now);
    if o.Commit? {
      RestoreTables(s, j, worker, folders, items, now);
      var u := s.jobs[j].unit;
      RestoreRaises(s, j, worker, folders, items, now);
      e := Raised(u, RaisedRows(s.units[u].root, folders, items));
    }
  }

  lemma RestoreClears(s: Store, u: Id)
    requires Tidy(s) && u in s.units && s.units[u].state.Restoring? && RestoreRefusal(s, u).None?
    ensures RootInPlace(s, u)
    ensures forall x {:trigger Clearance(s, u, x)} :: Clearance(s, u, x)
  {
    assert UnitRooted(s, u);
    forall x ensures Clearance(s, u, x) {
      if x in s.units && x != u && s.units[x].state.Live() && s.units[x].root.FolderKey? && s.units[x].root in s.rows {
        RestorableIsOutermost(s, u, x);
      }
    }
  }

  lemma RestoreRaises(s: Store, j: Id, worker: string, folders: seq<Id>, items: seq<Id>, now: Time)
    requires Tidy(s) && Enabled(s, RestoreRows(j, worker, folders, items, now)) && Disciplined(s, RestoreRows(j, worker, folders, items, now))
    requires RestoreBatch(s, j, worker, folders, items, now).Commit?
    ensures s.jobs[j].unit in s.units
    ensures
      var u := s.jobs[j].unit;
      Raising(s, RestoreBatch(s, j, worker, folders, items, now).store, u, RaisedRows(s.units[u].root, folders, items))
  {
    RestoreTables(s, j, worker, folders, items, now);
    var u := s.jobs[j].unit;
    var root := s.units[u].root;
    var t, chosen := RestoreBatch(s, j, worker, folders, items, now).store, RaisedRows(root, folders, items);
    RestoreClears(s, u);
    RestoreRowShape(s, j, worker, folders, items, now, root);
    RestoreOwned(s, j, worker, folders, items, now, root);
    forall k | k in chosen ensures OwnedBy(s.rows, k, u) { RestoreOwned(s, j, worker, folders, items, now, k); }
    forall k | k in s.rows ensures RowAfter(s.rows, t.rows, k, k in chosen) { RestoreRowShape(s, j, worker, folders, items, now, k); }
    if LastRestore(root, folders, items) {
      forall k | OwnedBy(s.rows, k, u) ensures k in chosen { LastMember(s, u, folders, items, k); }
    }
  }

  /** Nothing but the root is left once no member is listed. */
  lemma LastMember(s: Store, u: Id, folders: seq<Id>, items: seq<Id>, k: Key)
    requires Tidy(s) && u in s.units && LastRestore(s.units[u].root, folders, items) && OwnedBy(s.rows, k, u)
    requires NoMemberSkipped(s, u, folders, items)
    ensures k == s.units[u].root
  {
    assert RowOwned(s, k);
    var memberFolders, memberItems := RestorableIds(s.rows, u, s.units[u].root, true), RestorableIds(s.rows, u, s.units[u].root, false);
    assert k != s.units[u].root ==> k.id in (if k.FolderKey? then memberFolders else memberItems);
  }

  /** A unit the cleanup may pick has no live unit rooted inside it. */
  lemma EligibleIsNested(s: Store, u: Id, x: Id, now: Time)
    requires SnapshotsBelow(s, u) && Eligible(s, u, now)
    requires s.units[u].root.FolderKey? && x in s.units && x != u && s.units[x].state.Live() && s.units[x].root in s.rows
    ensures !Under(s.rows, s.units[x].root, s.units[u].root.id)
  {
    assert SnapshotBelow(s, u, x) && !Depends(s, x, u);
  }

  predicate CleanupUnit(s: Store, t: Store, picks: seq<Pick>, u: Id) {
    (u in t.units <==> u in s.units)
    && (u in s.units ==>
          && SameUnit(s.units[u], t.units[u]) && t.units[u].state.Live() == s.units[u].state.Live()
          && (t.units[u] != s.units[u] ==> t.units[u].state.PurgeQueued? && exists i :: 0 <= i < |picks| && picks[i].unit == u))
  }

  lemma {:induction false} CleanupTidy(s: Store, picks: seq<Pick>, now: Time)
    requires Tidy(s) && IdsSpent(s) && CleanupChoice(s, picks, now)
    requires forall i :: 0 <= i < |picks| ==> SnapshotsBelow(s, picks[i].unit)
    ensures Tidy(After(s, CleanupBatch(s, picks, now)))
    ensures CleanupBatch(s, picks, now).Commit? ==>
      forall u {:trigger CleanupUnit(s, CleanupBatch(s, picks, now).store, picks, u)} ::
        CleanupUnit(s, CleanupBatch(s, picks, now).store, picks, u)
  {
    if picks != [] {
      var init, pick := picks[..|picks| - 1], picks[|picks| - 1];
      CleanupTidy(s, init, now);
      var before := CleanupBatch(s, init, now);
      if before.Commit? {
        CleanupSpends(s, init, now);
        CleanupOne(s, before.store, init, pick, now);
        var o := QueuePurge(before.store, pick.unit, pick.job, now);
        if o.Commit? {
          forall u ensures CleanupUnit(s, o.store, picks, u) {
            assert CleanupUnit(s, before.store, init, u);
            if u == pick.unit { assert picks[|picks| - 1].unit == u; }
            if u in s.units && before.store.units[u] != s.units[u] {
              var i :| 0 <= i < |init| && init[i].unit == u;
              assert picks[i].unit == u;
            }
          }
        }
      }
    }
  }

  lemma CleanupOne(s: Store, b: Store, init: seq<Pick>, pick: Pick, now: Time)
    requires Tidy(s) && Tidy(b) && SnapshotsBelow(s, pick.unit) && b.rows == s.rows && s.spent <= b.spent
    requires forall u {:trigger CleanupUnit(s, b, init, u)} :: CleanupUnit(s, b, init, u)
    requires Eligible(s, pick.unit, now) && forall i :: 0 <= i < |init| ==> init[i].unit != pick.unit
    ensures Tidy(After(b, QueuePurge(b, pick.unit, pick.job, now)))
  {
    var u := pick.unit;
    assert CleanupUnit(s, b, init, u);
    assert b.units[u] == s.units[u];
    var o := QueuePurge(b, u, pick.job, now);
    if o.Commit? {
      forall x ensures Nested(o.store, u, x) {
        assert CleanupUnit(s, b, init, x);
        if s.units[u].root.FolderKey? && x in s.units && x != u && s.units[x].state.Live() && s.units[x].root in s.rows {
          EligibleIsNested(s, u, x, now);
        }
      }
      StateMoved(b, o.store, u);
    }
  }

  lemma PurgeItemEffect(s: Store, j: Id, worker: string, i: Id, now: Time) returns (e: Effect)
    requires Tidy(s)
    ensures Has(s, After(s, PurgeItem(s, j, worker, i, now)), e)
    ensures !e.Buried?
  {
    e := Untouched;
    var o := PurgeItem(s, j, worker, i, now);
    if o.Commit? && o.store != s { e := Removed(s.jobs[j].unit, ItemKey(i)); }
  }

  lemma PurgeLeafEffect(s: Store, j: Id, worker: string, f: Id, now: Time) returns (e: Effect)
    requires Tidy(s)
    ensures Has(s, After(s, FinalizePurge(s, j, worker, Some(f), now)), e)
    ensures !e.Buried?
  {
    e := Untouched;
    var o := FinalizePurge(s, j, worker, Some(f), now);
    if o.Commit? && o.store != s { e := Removed(s.jobs[j].unit, FolderKey(f)); }
  }

  // ---- the purge drains completely ----

  /** Every row below a folder unit under purge carries the unit's id. */
  lemma PurgedSubtreeIsOwned(s: Store, u: Id, k: Key)
    requires Tidy(s) && u in s.units && PurgeState(s.units[u].state) && s.units[u].root.FolderKey?
    requires Under(s.rows, k, s.units[u].root.id)
    ensures s.rows[k].deleted && s.rows[k].unit == Some(u)
  {
    assert Sealed(s, u, k) && RowOwned(s, k);
    assert Nested(s, u, s.rows[k].unit.value);
  }

  /** The unit's folders strictly below folder `f`. */
  function OwnedBelow(s: Store, u: Id, f: Id): set<Key> {
    set k | k in s.rows && k != FolderKey(f) && OwnedBy(s.rows, k, u) && s.rows[k].Folder? && Under(s.rows, k, f)
  }

  predicate ItemIn(s: Store, k: Key, f: Id) {
    k in s.rows && s.rows[k].Item? && s.rows[k].folder == f
  }

  /** While the unit owns a folder, some leaf is selectable or some folder of it still holds an item. */
  lemma {:induction false} LeafExists(s: Store, u: Id, f: Id) returns (g: Id)
    requires Tidy(s) && u in s.units && PurgeState(s.units[u].state) && s.units[u].root.FolderKey? && SnapshotCurrent(s, u)
    requires OwnedBy(s.rows, FolderKey(f), u)
    ensures OwnedBy(s.rows, FolderKey(g), u)
    ensures PurgeLeaf(s, g, u) || exists k {:trigger ItemIn(s, k, g)} :: ItemIn(s, k, g)
    decreases OwnedBelow(s, u, f)
  {
    var key := FolderKey(f);
    assert RowOwned(s, key) && UnitRooted(s, u);
    HomeSound(s.rows, key);
    HomeSound(s.rows, s.units[u].root);
    UnderIsBelow(s.rows, key, s.units[u].root.id);
    if k :| k in OwnedBelow(s, u, f) {
      HomeSound(s.rows, k);
      SelfUnder(s.rows, f);
      forall m | m in OwnedBelow(s, u, k.id) ensures m in OwnedBelow(s, u, f) {
        UnderTransitive(s.rows, m, k.id, f);
        if m == key { MutualUnder(s.rows, f, k.id); }
      }
      g := LeafExists(s, u, k.id);
    } else {
      g := f;
      forall k | k in s.rows && s.rows[k].Folder? && s.rows[k].unit == Some(u) && k != key ensures !(s.rows[key].path <= s.rows[k].path) {
        HomeSound(s.rows, k);
        UnderIsBelow(s.rows, k, f);
        assert k !in OwnedBelow(s, u, f);
      }
      if forall k {:trigger ItemIn(s, k, f)} :: !ItemIn(s, k, f) {
        forall k | k in s.rows && s.rows[k].Item? ensures s.rows[k].folder != f { assert !ItemIn(s, k, f); }
      }
    }
  }

  /** While the unit owns any row, the purge has an item or a leaf folder to remove. */
  lemma SomethingSelectable(s: Store, u: Id)
    requires Tidy(s) && u in s.units && PurgeState(s.units[u].state) && SnapshotCurrent(s, u) && RootInPlace(s, u)
    ensures (exists f {:trigger PurgeLeaf(s, f, u)} :: PurgeLeaf(s, f, u)) || (exists k {:trigger RemainingItem(s, k, u)} :: RemainingItem(s, k, u))
  {
    var root := s.units[u].root;
    HomeSound(s.rows, root);
    if root.ItemKey? {
      assert RemainingItem(s, root, u);
    } else {
      assert OwnedBy(s.rows, root, u);
      var g := LeafExists(s, u, root.id);
      if k :| ItemIn(s, k, g) {
        assert RowOwned(s, FolderKey(g));
        HomeSound(s.rows, k);
        HomeSound(s.rows, FolderKey(g));
        PurgedSubtreeIsOwned(s, u, k);
        UnderIsBelow(s.rows, k, root.id);
        assert RemainingItem(s, k, u);
      }
    }
  }

  /** So it can only finish a unit that has nothing left. */
  lemma DrainedWhenNoLeaf(s: Store, u: Id)
    requires Tidy(s) && u in s.units && PurgeState(s.units[u].state) && SnapshotCurrent(s, u)
    requires NoLeaf(s, u)
    requires forall k {:trigger RemainingItem(s, k, u)} :: !RemainingItem(s, k, u)
    ensures Emptied(s.rows, u)
  {
    assert UnitRooted(s, u);
    if RootInPlace(s, u) { SomethingSelectable(s, u); }
  }

  lemma PurgeEndEffect(s: Store, j: Id, worker: string, now: Time) returns (e: Effect)
    requires Tidy(s) && Disciplined(s, PurgeOneFolder(j, worker, None, now))
    ensures Has(s, After(s, FinalizePurge(s, j, worker, None, now)), e)
    ensures !e.Buried?
  {
    e := Untouched;
    var o := FinalizePurge(s, j, worker, None, now);
    if o.Commit? {
      var u := s.jobs[j].unit;
      assert SnapshotCurrent(s, u);
      DrainedWhenNoLeaf(s, u);
      e := Ending(u);
    }
  }
}
