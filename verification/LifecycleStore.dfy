module LifecycleStore {
  // The lifecycle repository in its own imperative form: tables updated in place,
  // batch loops, and transactions that put everything back when they fail. Every
  // method has exactly the effect of the transaction function it implements.

  import opened Wrappers
  import opened DisplayNames
  import opened LifecycleTables
  import opened LifecycleSteps
  import opened LifecycleRuns
  import opened LifecycleRevive
  import opened LifecycleMirror
  import opened LifecycleFence
  import opened LifecycleInvariant
  import opened LifecycleKept
  import opened LifecycleTreeSteps
  import opened LifecycleDiscipline
  import opened LifecycleGuards
  import opened LifecycleOrder
  import opened LifecycleRoundTrip
  import opened LifecycleDrain
  import opened LifecycleNames
  import opened LifecycleRestoring

  class Repository {
    var rows: Rows
    var units: map<Id, LifecycleUnit>
    var legacy: map<Id, Legacy>
    var jobs: map<Id, Job>
    var spent: set<Id>

    ghost function Snapshot(): Store
      reads this
    {
      Store(rows, units, legacy, jobs, spent)
    }

    constructor ()
      ensures Snapshot() == Store(map[], map[], map[], map[], {})
    {
      rows, units, legacy, jobs, spent := map[], map[], map[], map[], {};
    }

    // ---- folder deletion ----

    /** `closed` tells whether this call hid the root; on failure nothing has changed. */
    method CloseVisibilityGate(root: Id, rootPath: Path, u: Id) returns (ok: bool, closed: bool)
      modifies this`rows, this`units, this`spent
      ensures
        match CloseGate(old(Snapshot()), root, rootPath, u)
        case Stuck => !ok && Snapshot() == old(Snapshot())
        case Gate(store, hid) => ok && closed == hid && Snapshot() == store
    {
      var key := FolderKey(root);
      closed := false;
      if key !in rows { return false, false; }
      if !(u in units && units[u].root == key && units[u].state.Deleting?) {
        if u in units || exists x :: x in units && units[x].root == key && units[x].state.Live() {
          assert u !in units ==> LiveRoot(Snapshot(), key) by {
            if u !in units {
              var x :| x in units && units[x].root == key && units[x].state.Live();
              assert LiveRootUnit(Snapshot(), x, key);
            }
          }
          return false, false;
        }
        assert !LiveRoot(Snapshot(), key);
        units := units[u := LifecycleUnit(key, rootPath, ParentPath(rootPath), None, Deleting, None)];
        spent := spent + {u};
      }
      closed := !rows[key].deleted;
      rows := rows[key := rows[key].Buried(u)];
      ok := true;
    }

    /** `SELECT ... LIMIT`: any `limit` of the candidates, all of them when they are fewer. */
    static method TakeUpTo(candidates: set<Key>, limit: nat) returns (chosen: set<Key>)
      requires limit > 0
      ensures Selected(chosen, candidates, limit) && (chosen == {} ==> candidates == {})
    {
      chosen := {};
      var rest := candidates;
      while rest != {} && |chosen| < limit
        invariant chosen <= candidates && rest == candidates - chosen && |chosen| <= limit
        decreases rest
      {
        var k :| k in rest;
        chosen, rest := chosen + {k}, rest - {k};
      }
    }

    /** `saveRunningFolderDeletionProgress` */
    method SaveRunningProgress(j: Id, l: Id, worker: string, folderRows: nat, itemRows: nat, now: Time)
      requires j in jobs && l in legacy
      modifies this`jobs, this`legacy
      ensures Snapshot() == SaveDeletion(old(Snapshot()), j, l, worker, folderRows, itemRows, now)
    {
      var lease := Some(Lease(worker, now + LEASE_SECONDS));
      var progress, counted := jobs[j].checkpoint, legacy[l].deleted;
      jobs := jobs[j := jobs[j].(
        checkpoint := Checkpoint(progress.folderRows + folderRows, progress.itemRows + itemRows), lease := lease)];
      legacy := legacy[l := legacy[l].(
        deleted := Counts(counted.folders + folderRows, counted.items + itemRows), lease := lease)];
    }

    method CompleteDeletingUnit(j: Id, l: Id, u: Id, folderRows: nat, now: Time)
      requires j in jobs && l in legacy && u in units
      modifies this`jobs, this`legacy, this`units
      ensures Snapshot() == CompleteDeletion(old(Snapshot()), j, l, u, folderRows, now)
    {
      var progress, counted := jobs[j].checkpoint, legacy[l].deleted;
      units := units[u := units[u].(state := Deleted, retentionUntil := Some(now + RETENTION))];
      jobs := jobs[j := jobs[j].(
        status := JobSucceeded, lease := None, checkpoint := progress.(folderRows := progress.folderRows + folderRows))];
      legacy := legacy[l := legacy[l].(
        status := LegacySucceeded, lease := None, deleted := counted.(folders := counted.folders + folderRows))];
    }

    /** One bounded batch: items first, then folders, and completion when neither is left. */
    method ProcessFolderDeletionBatch(j: Id, l: Id, u: Id, worker: string, now: Time)
      returns (ok: bool, done: bool, items: set<Key>, folders: set<Key>)
      requires l in legacy && j in jobs && jobs[j].legacy == Some(l)
      modifies this
      ensures Selected(items, DeletableRows(old(rows), old(legacy[l].rootPath), old(legacy[l].root), false), DELETE_ITEM_BATCH)
      ensures Selected(folders, DeletableRows(old(rows), old(legacy[l].rootPath), old(legacy[l].root), true), DELETE_FOLDER_BATCH)
      ensures NoRowSkipped(old(Snapshot()), l, items, folders)
      ensures
        var o := DeleteBatch(old(Snapshot()), j, l, u, worker, items, folders, now);
        Snapshot() == After(old(Snapshot()), o) && ok == o.Commit? && done == (ok && items == {} && folders == {})
    {
      var root, top := legacy[l].root, legacy[l].rootPath;
      items := TakeUpTo(DeletableRows(rows, top, root, false), DELETE_ITEM_BATCH);
      folders := TakeUpTo(DeletableRows(rows, top, root, true), DELETE_FOLDER_BATCH);
      ok, done := false, false;
      if jobs[j].status.JobRunning? && jobs[j].lease.Some? && jobs[j].lease.value.owner == worker
         && legacy[l].status.LegacyRunning? && legacy[l].lease.Some? && legacy[l].lease.value.owner == worker {
        ok, done := RunBatch(j, l, u, worker, items, folders, now);
      }
    }

    /** The batch proper, under a lease that is known to be held. */
    method RunBatch(j: Id, l: Id, u: Id, worker: string, items: set<Key>, folders: set<Key>, now: Time) returns (ok: bool, done: bool)
      requires OwnsDeletion(Snapshot(), j, l, worker)
      modifies this
      ensures
        var o := DeleteBatch(old(Snapshot()), j, l, u, worker, items, folders, now);
        Snapshot() == After(old(Snapshot()), o) && ok == o.Commit? && done == (ok && items == {} && folders == {})
    {
      var savedRows, savedUnits, savedSpent := rows, units, spent;
      var closed;
      ok, closed := CloseVisibilityGate(legacy[l].root, legacy[l].rootPath, u);
      done := false;
      if !ok { return; }
      if u != jobs[j].unit {
        rows, units, spent := savedRows, savedUnits, savedSpent;
        return false, false;
      }
      var extra := if closed then 1 else 0;
      if items != {} {
        rows := Tombstoned(rows, items, u);
        SaveRunningProgress(j, l, worker, extra, |items|, now);
      } else if folders != {} {
        rows := Tombstoned(rows, folders, u);
        SaveRunningProgress(j, l, worker, extra + |folders|, 0, now);
      } else {
        CompleteDeletingUnit(j, l, u, extra, now);
        done := true;
      }
    }

    /**
     The worker's loop. Alone with the store it always finishes, whatever each
     batch selects, with the whole subtree tombstoned and the counters exact.
     */
    method ProcessFolderDeletionJob(j: Id, l: Id, u: Id, worker: string, now: Time)
      requires Orderly(Snapshot()) && Drains(Snapshot(), u, l, j) && Counted(Snapshot(), u, l, j)
      requires OwnsDeletion(Snapshot(), j, l, worker)
      modifies this
      ensures Orderly(Snapshot()) && Counted(Snapshot(), u, l, j)
      ensures u in units && units[u].state.Deleted? && units[u].root == old(units[u].root)
      ensures forall k {:trigger Under(rows, k, units[u].root.id)} :: Under(rows, k, units[u].root.id) ==> rows[k].deleted
      ensures legacy[l].status.LegacySucceeded? && jobs[j].status.JobSucceeded? && legacy[l].active == old(legacy[l].active)
    {
      var done := false;
      ghost var r := units[u].root.id;
      while !done
        invariant Orderly(Snapshot()) && Counted(Snapshot(), u, l, j)
        invariant u in units && units[u].root == old(units[u].root) == FolderKey(r) && legacy[l].active == old(legacy[l].active)
        invariant !done ==> Drains(Snapshot(), u, l, j) && OwnsDeletion(Snapshot(), j, l, worker)
        invariant done ==> units[u].state.Deleted? && legacy[l].status.LegacySucceeded? && jobs[j].status.JobSucceeded?
        decreases !done, |ActiveRows(rows, r, true)| + |ActiveRows(rows, r, false)|
      {
        ghost var before := Snapshot();
        var ok, items, folders;
        ok, done, items, folders := ProcessFolderDeletionBatch(j, l, u, worker, now);
        BatchRuns(before, u, l, j, worker, items, folders, now);
      }
      forall k | Under(rows, k, units[u].root.id) ensures rows[k].deleted { assert Sealed(Snapshot(), u, k); }
    }

    // ---- confirming and cancelling ----

    /** Insert a V8 job unless one of its unique indexes refuses it. */
    method InsertJob(j: Id, job: Job) returns (ok: bool)
      modifies this`jobs, this`spent
      ensures
        var o := AddJob(old(Snapshot()), j, job);
        ok == o.Some? && Snapshot() == (if ok then o.value else old(Snapshot()))
    {
      ok := false;
      if exists x :: x in jobs && jobs[x].unit == job.unit && jobs[x].status.Occupying() {
        assert UnitOccupied(Snapshot(), job.unit) by {
          var x :| x in jobs && jobs[x].unit == job.unit && jobs[x].status.Occupying();
          assert OccupiesUnit(Snapshot(), x, job.unit);
        }
        return;
      }
      assert !UnitOccupied(Snapshot(), job.unit);
      if job.legacy.Some? && exists x :: x in jobs && jobs[x].legacy == job.legacy {
        assert HasLink(Snapshot(), job.legacy.value) by {
          var x :| x in jobs && jobs[x].legacy == job.legacy;
          assert LinkedTo(Snapshot(), x, job.legacy.value);
        }
        return;
      }
      assert job.legacy.Some? ==> !HasLink(Snapshot(), job.legacy.value);
      jobs, spent := jobs[j := job], spent + {j};
      ok := true;
    }

    method StartDeletionJob(l: Id, pending: Legacy, u: Id, j: Id, now: Time) returns (ok: bool)
      modifies this
      ensures
        var o := StartDeletion(old(Snapshot()), l, pending, u, j, now);
        ok == o.Commit? && Snapshot() == After(old(Snapshot()), o)
    {
      var savedRows, savedUnits, savedLegacy, savedSpent := rows, units, legacy, spent;
      var closed;
      ok, closed := CloseVisibilityGate(pending.root, pending.rootPath, u);
      if !ok { return; }
      var row := if closed then pending.(deleted := pending.deleted.(folders := pending.deleted.folders + 1)) else pending;
      legacy := legacy[l := row];
      ok := InsertJob(j, DeleteJob(l, row, u, now));
      if !ok { rows, units, legacy, spent := savedRows, savedUnits, savedLegacy, savedSpent; }
    }

    method ConfirmFolderDeletion(l: Id, root: Id, accepted: bool, u: Id, j: Id, now: Time) returns (ok: bool)
      modifies this
      ensures
        var o := Confirm(old(Snapshot()), l, root, accepted, u, j, now);
        ok == o.Commit? && Snapshot() == After(old(Snapshot()), o)
    {
      var key := FolderKey(root);
      if !(l in legacy && legacy[l].status.LegacyPreviewed?) { return false; }
      var preview := legacy[l];
      if !accepted || preview.previewExpiresAt.None? || now >= preview.previewExpiresAt.value || preview.root != root { return false; }
      if !(key in rows && rows[key].Folder? && !rows[key].deleted && rows[key].path == preview.rootPath) { return false; }
      var overlap := FenceRefuses(preview.rootPath);
      if overlap { return false; }
      if preview.active != CountRows(rows, preview.rootPath, false) || preview.tombstones != CountRows(rows, preview.rootPath, true) {
        return false;
      }
      ok := StartDeletionJob(l, preview.(status := LegacyQueued, previewExpiresAt := None, nextRunAt := Some(now)), u, j, now);
    }

    /** `ensureNoActiveDeletionForPaths` for one path. */
    method FenceRefuses(path: Path) returns (refused: bool)
      ensures refused == Fenced(Snapshot(), path)
    {
      refused := false;
      if path == [] { return; }
      var rest := legacy.Keys;
      while rest != {}
        invariant rest <= legacy.Keys
        invariant forall l {:trigger FencesPath(Snapshot(), l, path)} :: l in legacy.Keys - rest ==> !FencesPath(Snapshot(), l, path)
        decreases rest
      {
        var l :| l in rest;
        if legacy[l].status.Fencing() && Comparable(legacy[l].rootPath, path) {
          assert FencesPath(Snapshot(), l, path);
          return true;
        }
        rest := rest - {l};
      }
    }

    method CancelFolderDeletionJob(l: Id, j: Option<Id>, u: Option<Id>) returns (ok: bool)
      modifies this
      ensures
        var o := Cancel(old(Snapshot()), l, j, u);
        ok == o.Commit? && Snapshot() == After(old(Snapshot()), o)
    {
      if l !in legacy || !legacy[l].status.LegacyQueued? { return false; }
      if j.Some? && (j.value !in jobs || !jobs[j.value].status.JobQueued?) { return false; }
      if u.Some? {
        var key := FolderKey(legacy[l].root);
        if !(u.value in units && key in rows && rows[key].Folder? && rows[key].deleted && rows[key].unit == u) { return false; }
        if rows[key].name in SiblingNames(rows, ParentOf(rows[key].path), key.id) { return false; }
        rows := rows[key := rows[key].Raised(rows[key].name)];
        units := units[u.value := units[u.value].(state := Restored)];
      }
      if j.Some? { jobs := jobs[j.value := jobs[j.value].(status := JobSuppressed, nextRunAt := None)]; }
      legacy := legacy[l := legacy[l].(status := LegacyCancelled, nextRunAt := None)];
      ok := true;
    }

    // ---- restore batches ----

    /** Folder by folder: each takes a name free among the siblings active at that moment. */
    method RestoreMemberFolders(ids: seq<Id>)
      modifies this`rows
      ensures rows == ReviveFolders(old(rows), ids)
    {
      for i := 0 to |ids|
        invariant rows == ReviveFolders(old(rows), ids[..i])
      {
        assert ids[..i + 1][..i] == ids[..i];
        var key := FolderKey(ids[i]);
        if key in rows && rows[key].Folder? {
          var name := NextAvailableDisplayValue(rows[key].name, SiblingNames(rows, ParentOf(rows[key].path), ids[i]));
          rows := rows[key := rows[key].Raised(name)];
        }
      }
      assert ids[..|ids|] == ids;
    }

    /** Item by item, and nothing at all when one external identity is taken. */
    method RestoreMemberItems(ids: seq<Id>) returns (ok: bool)
      modifies this`rows
      ensures ok == ReviveItems(old(rows), ids).Some?
      ensures rows == if ok then ReviveItems(old(rows), ids).value else old(rows)
    {
      var saved := rows;
      for i := 0 to |ids|
        invariant ReviveItems(saved, ids[..i]) == Some(rows)
      {
        assert ids[..i + 1][..i] == ids[..i];
        var key := ItemKey(ids[i]);
        if !(key in rows && rows[key].Item?) || ExternalTaken(rows, rows[key].external, ids[i]) {
          RevivalStops(saved, ids, i);
          rows := saved;
          return false;
        }
        var name := NextAvailableDisplayValue(rows[key].name, ItemTitles(rows, rows[key].folder, ids[i]));
        rows := rows[key := rows[key].Raised(name)];
      }
      assert ids[..|ids|] == ids;
      return true;
    }

    // ---- retention cleanup ----

    /** One selected unit: its PURGE job, then its state. */
    method QueueUnit(u: Id, j: Id, now: Time) returns (ok: bool)
      modifies this`units, this`jobs, this`spent
      ensures
        var o := QueuePurge(old(Snapshot()), u, j, now);
        ok == o.Commit? && Snapshot() == After(old(Snapshot()), o)
    {
      ok := u in units && (units[u].root.ItemKey? ==> units[u].homeFolder.Some?);
      if !ok { return; }
      ok := InsertJob(j, Job(u, None, PurgeOp, JobQueued, Checkpoint(0, 0), 0, None, Some(now)));
      if ok && units[u].state.Deleted? { units := units[u := units[u].(state := PurgeQueued)]; }
    }

    /** One PURGE job per selected unit; a refused insert undoes the whole batch. */
    method QueuePurges(picks: seq<Pick>, now: Time) returns (ok: bool)
      modifies this`units, this`jobs, this`spent
      ensures
        var o := CleanupBatch(old(Snapshot()), picks, now);
        ok == o.Commit? && Snapshot() == After(old(Snapshot()), o)
    {
      var savedUnits, savedJobs, savedSpent := units, jobs, spent;
      ghost var start := Snapshot();
      for i := 0 to |picks|
        invariant CleanupBatch(start, picks[..i], now) == Commit(Snapshot())
        invariant rows == old(rows) && legacy == old(legacy)
      {
        assert picks[..i + 1][..i] == picks[..i];
        ok := QueueUnit(picks[i].unit, picks[i].job, now);
        if !ok {
          CleanupStops(start, picks, i, now);
          units, jobs, spent := savedUnits, savedJobs, savedSpent;
          return false;
        }
      }
      assert picks[..|picks|] == picks;
      return true;
    }

    // ---- restore and purge transactions ----

    method SaveRestoreProgress(j: Id, worker: string, folderRows: nat, itemRows: nat, now: Time)
      requires j in jobs
      modifies this`jobs
      ensures Snapshot() == SaveRestore(old(Snapshot()), j, worker, folderRows, itemRows, now)
    {
      var progress := jobs[j].checkpoint;
      jobs := jobs[j := jobs[j].(
        checkpoint := Checkpoint(progress.folderRows + folderRows, progress.itemRows + itemRows),
        lease := Some(Lease(worker, now + LEASE_SECONDS)))];
    }

    method CompleteRestoreJob(j: Id, u: Id, itemRows: nat)
      requires j in jobs && u in units
      modifies this`jobs, this`units
      ensures Snapshot() == CompleteRestore(old(Snapshot()), j, u, itemRows)
    {
      var progress := jobs[j].checkpoint;
      jobs := jobs[j := jobs[j].(
        status := JobSucceeded, nextRunAt := None, lease := None, checkpoint := progress.(itemRows := progress.itemRows + itemRows))];
      units := units[u := units[u].(state := Restored)];
    }

    /** The dispatch of one restore transaction once its job, unit and parent have been checked. */
    method RunRestoreBatch(j: Id, worker: string, memberFolders: seq<Id>, memberItems: seq<Id>, now: Time) returns (ok: bool)
      requires j in jobs && HeldBy(jobs[j], RestoreOp, worker) && jobs[j].unit in units && units[jobs[j].unit].state.Restoring?
      requires RestoreRefusal(Snapshot(), jobs[j].unit).None?
      modifies this`rows, this`jobs, this`units
      ensures
        var o := RestoreBatch(old(Snapshot()), j, worker, memberFolders, memberItems, now);
        ok == o.Commit? && Snapshot() == After(old(Snapshot()), o)
    {
      var u := jobs[j].unit;
      var root := units[u].root;
      if root.ItemKey? {
        if !(rows[root].Item?) || ExternalTaken(rows, rows[root].external, root.id) { return false; }
        rows := rows[root := rows[root].Raised(NextAvailable(rows[root].name, ItemTitles(rows, rows[root].folder, root.id)))];
        CompleteRestoreJob(j, u, 1);
      } else if memberFolders != [] {
        RestoreMemberFolders(memberFolders);
        SaveRestoreProgress(j, worker, |memberFolders|, 0, now);
      } else if memberItems != [] {
        ok := RestoreMemberItems(memberItems);
        if !ok { return; }
        SaveRestoreProgress(j, worker, 0, |memberItems|, now);
      } else {
        var parent := if units[u].parentPath.Some? then units[u].parentPath.value else [];
        var name := NextAvailableDisplayValue(rows[root].name, SiblingNames(rows, parent, root.id));
        rows := rows[root := rows[root].Raised(name)];
        CompleteRestoreJob(j, u, 0);
      }
      ok := true;
    }

    /** `SELECT ... LIMIT` over a unit's members: any order, all of them when they are fewer. */
    static method ListUpTo(candidates: set<Id>, limit: nat) returns (listed: seq<Id>)
      requires limit > 0
      ensures Listed(listed, candidates, limit) && (listed == [] ==> candidates == {})
    {
      listed := [];
      var rest := candidates;
      while rest != {} && |listed| < limit
        invariant rest <= candidates && |listed| <= limit && (listed == [] ==> rest == candidates)
        invariant forall i :: 0 <= i < |listed| ==> listed[i] in candidates && listed[i] !in rest
        invariant forall i, j :: 0 <= i < j < |listed| ==> listed[i] != listed[j]
        decreases rest
      {
        var id :| id in rest;
        listed, rest := listed + [id], rest - {id};
      }
    }

    /**
     One bounded transaction: the worker must hold the job, its unit and parent must allow it;
     then member folders come first, then member items, then the root.
     */
    method ProcessRestoreBatch(j: Id, worker: string, now: Time)
      returns (ok: bool, done: bool, ghost memberFolders: seq<Id>, ghost memberItems: seq<Id>)
      modifies this`rows, this`jobs, this`units
      ensures
        var o := RestoreBatch(old(Snapshot()), j, worker, memberFolders, memberItems, now);
        Snapshot() == After(old(Snapshot()), o) && ok == o.Commit?
      ensures MayRestore(old(Snapshot()), j, worker) ==>
        && Batch(old(Snapshot()), j, memberFolders, memberItems)
        && done == LastRestore(old(units[jobs[j].unit].root), memberFolders, memberItems)
    {
      ok, done, memberFolders, memberItems := false, false, [], [];
      if j !in jobs || !HeldBy(jobs[j], RestoreOp, worker) { return; }
      var u := jobs[j].unit;
      if u !in units || !units[u].state.Restoring? || RestoreRefusal(Store(rows, units, legacy, jobs, spent), u).Some? { return; }
      var root := units[u].root;
      var listedFolders := ListUpTo(RestorableIds(rows, u, root, true), RESTORE_FOLDER_BATCH);
      var listedItems := ListUpTo(RestorableIds(rows, u, root, false), RESTORE_ITEM_BATCH);
      done := root.ItemKey? || (listedFolders == [] && listedItems == []);
      memberFolders, memberItems := listedFolders, listedItems;
      ok := RunRestoreBatch(j, worker, listedFolders, listedItems, now);
    }

    /**
     The worker's loop. Alone with the store it brings the whole unit back, names unique among
     siblings, exactly if the worker may restore it and no item's external identity is taken. On a
     taken one the batches before it stand, the root stays hidden, and the job is still held.
     */
    method ProcessLifecycleRestoreJob(j: Id, worker: string, now: Time) returns (ok: bool)
      requires Tidy(Snapshot())
      modifies this`rows, this`jobs, this`units
      ensures Tidy(Snapshot()) && (NamesUnique(old(rows)) ==> NamesUnique(rows))
      ensures ok <==> MayRestore(old(Snapshot()), j, worker) && IdentitiesFree(old(rows), old(jobs[j].unit))
      ensures !MayRestore(old(Snapshot()), j, worker) ==> Snapshot() == old(Snapshot())
      ensures MayRestore(old(Snapshot()), j, worker) ==>
        var u := old(jobs[j].unit);
        && RaisedSince(old(rows), rows, u)
        && if ok then Finished(old(Snapshot()), Snapshot(), j, u)
           else units == old(units) && Restores(Snapshot(), j, u, worker)
    {
      ghost var start, able := Snapshot(), MayRestore(Snapshot(), j, worker);
      ghost var u := if able then jobs[j].unit else 0;
      var done := false;
      while !done
        invariant Tidy(Snapshot()) && (NamesUnique(start.rows) ==> NamesUnique(rows))
        invariant !able ==> !done && Snapshot() == start
        invariant able ==> RaisedSince(start.rows, rows, u)
        invariant able ==> (IdentitiesFree(rows, u) <==> IdentitiesFree(start.rows, u))
        invariant able && !done ==> units == start.units && Restores(Snapshot(), j, u, worker)
        invariant able && done ==> Finished(start, Snapshot(), j, u)
        decreases !done, |UnitRows(rows, u)|
      {
        ghost var before := Snapshot();
        var committed, last;
        ghost var memberFolders, memberItems;
        committed, last, memberFolders, memberItems := ProcessRestoreBatch(j, worker, now);
        if able { BatchDecided(before, j, u, worker, memberFolders, memberItems, now); }
        if !committed { return false; }
        RestoreStep(before, j, u, worker, memberFolders, memberItems, now);
        RaisedOn(start.rows, before.rows, rows, u);
        done := last;
      }
      NothingClashes(rows, u);
      ok := true;
    }

    /**
     The purger's loop over a unit's rows: an item while there is one, else a leaf
     folder, and the end when neither is selectable. It stops with exactly the unit's
     rows gone when the path snapshot is current, and with none gone when an ancestor
     has moved.
     */
    method DrainPurge(j: Id, u: Id)
      requires Tidy(Snapshot()) && j in jobs && jobs[j].unit == u
      requires u in units && units[u].state.Purging?
      requires SnapshotCurrent(Snapshot(), u) || (RootInPlace(Snapshot(), u) && SnapshotEndsInRoot(units[u]))
      modifies this`rows, this`jobs, this`units
      ensures u in units && units[u].state.Purged? && j in jobs && jobs[j].status.JobSucceeded?
      ensures old(SnapshotCurrent(Snapshot(), u)) ==>
        Tidy(Snapshot()) && rows == map k | k in old(rows) && old(rows)[k].unit != Some(u) :: old(rows)[k]
      ensures !old(SnapshotCurrent(Snapshot(), u)) ==> rows == old(rows)
    {
      ghost var before := rows;
      ghost var current := SnapshotCurrent(Snapshot(), u);
      if !current { DrainExactly(Snapshot(), u); }
      while true
        invariant Tidy(Snapshot()) && units == old(units) && jobs == old(jobs)
        invariant if current then SnapshotCurrent(Snapshot(), u) else rows == before
        invariant rows.Keys <= before.Keys && forall k :: k in rows ==> rows[k] == before[k]
        invariant forall k :: k in before && before[k].unit != Some(u) ==> k in rows
        decreases rows.Keys
      {
        ghost var s := Snapshot();
        if k :| k in rows && rows[k].Item? && rows[k].deleted && rows[k].unit == Some(u) && units[u].rootPath <= PathOf(rows, k) {
          HomeSound(rows, k);
          rows := rows - {k};
          assert RemainingItem(s, k, u);
          PurgeOne(s, Snapshot(), u, k);
        } else if k :| k in rows && k.FolderKey? && PurgeLeaf(Store(rows, units, legacy, jobs, spent), k.id, u) {
          rows := rows - {k};
          PurgeOne(s, Snapshot(), u, k);
        } else {
          assert forall k {:trigger RemainingItem(s, k, u)} :: !RemainingItem(s, k, u);
          forall f ensures !PurgeLeaf(s, f, u) { assert FolderKey(f) !in rows || !PurgeLeaf(s, FolderKey(f).id, u); }
          if current {
            DrainedWhenNoLeaf(s, u);
            forall k | k in rows ensures rows[k].unit != Some(u) { assert !OwnedBy(s.rows, k, u); }
          }
          break;
        }
      }
      ghost var drained := Snapshot();
      jobs := jobs[j := jobs[j].(status := JobSucceeded, lease := None)];
      units := units[u := units[u].(state := Purged)];
      if current {
        forall k ensures !OwnedBy(drained.rows, k, u) {}
        UnitEnded(drained, Snapshot(), u);
      }
    }
  }

  /** A committed restore batch: what it leaves, and whether the worker goes on. */
  lemma RestoreStep(s: Store, j: Id, u: Id, worker: string, folders: seq<Id>, items: seq<Id>, now: Time)
    requires Tidy(s) && Restores(s, j, u, worker) && Batch(s, j, folders, items)
    requires RestoreBatch(s, j, worker, folders, items, now).Commit?
    ensures
      var t := RestoreBatch(s, j, worker, folders, items, now).store;
      && Tidy(t) && RaisedSince(s.rows, t.rows, u) && (NamesUnique(s.rows) ==> NamesUnique(t.rows))
      && if LastRestore(s.units[u].root, folders, items)
         then Finished(s, t, j, u)
         else t.units == s.units && Restores(t, j, u, worker) && |UnitRows(t.rows, u)| < |UnitRows(s.rows, u)|
  {
    BatchRaises(s, j, u, worker, folders, items, now);
    RestoreTables(s, j, worker, folders, items, now);
    if NamesUnique(s.rows) { RestoreNames(s, j, worker, folders, items, now); }
    var root := s.units[u].root;
    if LastRestore(root, folders, items) {
      LastBatchEmpties(s, j, u, worker, folders, items, now);
    } else {
      BatchGoesOn(s, j, u, worker, folders, items, now);
      if folders != [] { assert FolderKey(folders[0]) in RaisedRows(root, folders, items); }
      else { assert ItemKey(items[0]) in RaisedRows(root, folders, items); }
      MembersShrink(UnitRows(s.rows, u), RaisedRows(root, folders, items));
    }
  }

  /** One removal keeps the store tidy and the unit's path snapshot current. */
  lemma PurgeOne(s: Store, t: Store, u: Id, key: Key)
    requires Tidy(s) && Removing(s, t, u, key) && SnapshotCurrent(s, u)
    ensures Tidy(t) && SnapshotCurrent(t, u)
  {
    RowRemoved(s, t, u, key);
    if s.units[u].root in t.rows { RemovePath(s, t, u, key, s.units[u].root); }
  }

  /** A batch of a held job never fails, keeps the lease or finishes, and shrinks the active rows. */
  lemma BatchRuns(s: Store, u: Id, l: Id, j: Id, worker: string, items: set<Key>, folders: set<Key>, now: Time)
    requires Orderly(s) && Drains(s, u, l, j) && Counted(s, u, l, j) && OwnsDeletion(s, j, l, worker)
    requires Selected(items, DeletableRows(s.rows, s.legacy[l].rootPath, s.legacy[l].root, false), DELETE_ITEM_BATCH)
    requires Selected(folders, DeletableRows(s.rows, s.legacy[l].rootPath, s.legacy[l].root, true), DELETE_FOLDER_BATCH)
    requires NoRowSkipped(s, l, items, folders)
    ensures DeleteBatch(s, j, l, u, worker, items, folders, now).Commit?
    ensures
      var t := DeleteBatch(s, j, l, u, worker, items, folders, now).store;
      var r := s.units[u].root.id;
      && Orderly(t) && Counted(t, u, l, j) && u in t.units && t.units[u].root == s.units[u].root
      && t.legacy[l].active == s.legacy[l].active
      && (BatchRows(items, folders) == {} ==>
            t.units[u].state.Deleted? && t.legacy[l].status.LegacySucceeded? && t.jobs[j].status.JobSucceeded?)
      && (BatchRows(items, folders) != {} ==>
            Drains(t, u, l, j) && OwnsDeletion(t, j, l, worker)
            && |ActiveRows(t.rows, r, true)| + |ActiveRows(t.rows, r, false)| < |ActiveRows(s.rows, r, true)| + |ActiveRows(s.rows, r, false)|)
  {
    var step := DeleteRows(l, j, u, worker, items, folders, now);
    assert Enabled(s, step);
    BatchCommits(s, u, l, j, worker, items, folders, now);
    assert Next(s, step) == DeleteBatch(s, j, l, u, worker, items, folders, now).store;
    StepOrderly(s, step);
    OwnBatchCounted(s, u, l, j, step);
    BatchWrites(s, u, l, j, step);
    StepRoots(s, step, u);
    if BatchRows(items, folders) != {} { BatchShrinks(s, u, l, j, step); BatchKeepsLease(s, u, l, j, worker, items, folders, now); }
    BatchBuries(s, l, j, u, worker, items, folders, now);
  }

  lemma BatchCommits(s: Store, u: Id, l: Id, j: Id, worker: string, items: set<Key>, folders: set<Key>, now: Time)
    requires Orderly(s) && Drains(s, u, l, j) && OwnsDeletion(s, j, l, worker)
    ensures DeleteBatch(s, j, l, u, worker, items, folders, now).Commit? && DeletingUnitOf(s, u, s.legacy[l].root)
  {
    GateIsClosed(s, s.legacy[l].root, s.legacy[l].rootPath, u);
  }

  lemma BatchKeepsLease(s: Store, u: Id, l: Id, j: Id, worker: string, items: set<Key>, folders: set<Key>, now: Time)
    requires Orderly(s) && Drains(s, u, l, j) && OwnsDeletion(s, j, l, worker) && BatchRows(items, folders) != {}
    requires DeleteBatch(s, j, l, u, worker, items, folders, now).Commit?
    ensures OwnsDeletion(DeleteBatch(s, j, l, u, worker, items, folders, now).store, j, l, worker)
  {
    GateIsClosed(s, s.legacy[l].root, s.legacy[l].rootPath, u);
  }

  lemma BatchShrinks(s: Store, u: Id, l: Id, j: Id, step: Step)
    requires Orderly(s) && Enabled(s, step) && Drains(s, u, l, j) && step.DeleteRows? && step.legacy == l && Apply(s, step).Commit?
    requires BatchRows(step.items, step.folders) != {}
    ensures
      var r := s.units[u].root.id;
      |ActiveRows(Next(s, step).rows, r, true)| + |ActiveRows(Next(s, step).rows, r, false)|
        < |ActiveRows(s.rows, r, true)| + |ActiveRows(s.rows, r, false)|
  {
    BatchMakesProgress(s, u, l, j, step, true);
    BatchMakesProgress(s, u, l, j, step, false);
    var r, chosen := s.units[u].root.id, BatchRows(step.items, step.folders);
    var f, i := ActiveRows(s.rows, r, true), ActiveRows(s.rows, r, false);
    SetShrinks(f, i, chosen);
  }

  lemma SetShrinks(f: set<Key>, i: set<Key>, chosen: set<Key>)
    requires chosen != {} && chosen <= f + i
    ensures |f - chosen| + |i - chosen| < |f| + |i|
  {
    assert |f| == |f - chosen| + |f * chosen| by { assert f == (f - chosen) + (f * chosen); }
    assert |i| == |i - chosen| + |i * chosen| by { assert i == (i - chosen) + (i * chosen); }
    var k :| k in chosen;
    assert k in f * chosen || k in i * chosen;
  }

  lemma {:induction false} RevivalStops(rows: Rows, ids: seq<Id>, i: nat)
    requires i < |ids| && ReviveItems(rows, ids[..i + 1]).None?
    ensures ReviveItems(rows, ids).None?
    decreases |ids|
  {
    if i + 1 < |ids| {
      var init := ids[..|ids| - 1];
      assert init[..i + 1] == ids[..i + 1];
      RevivalStops(rows, init, i);
    } else {
      assert ids[..i + 1] == ids;
    }
  }

  lemma {:induction false} CleanupStops(s: Store, picks: seq<Pick>, i: nat, now: Time)
    requires i < |picks| && CleanupBatch(s, picks[..i + 1], now).Rollback?
    ensures CleanupBatch(s, picks, now).Rollback?
    decreases |picks|
  {
    if i + 1 < |picks| {
      var init := picks[..|picks| - 1];
      assert init[..i + 1] == picks[..i + 1];
      CleanupStops(s, init, i, now);
    } else {
      assert picks[..i + 1] == picks;
    }
  }
}
