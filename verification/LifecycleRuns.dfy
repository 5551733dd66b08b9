/**
 Runs of the lifecycle engine: any interleaving of users, workers and the
 cleanup scheduler, one transaction at a time. A crash is the absence of a
 worker's next step; leases lapse and jobs are claimed again.
 */
module LifecycleRuns {
  import opened Wrappers
  import opened LifecycleTables
  import opened LifecycleSteps

  datatype Step =
    | NewFolder(parent: Path, name: string, id: Id)
    | NewItem(folder: Id, name: string, external: Option<External>, id: Id)
    | Move(folder: Id, dest: Option<Id>)
    | DropFolder(folder: Id, unit: Id, now: Time)
    | DropItem(item: Id, unit: Id, now: Time)
    | PreviewDeletion(folder: Id, legacy: Id, now: Time)
    | ConfirmDeletion(legacy: Id, folder: Id, accepted: bool, unit: Id, job: Id, now: Time)
    | CancelDeletion(legacy: Id, link: Option<Id>, deleting: Option<Id>)
    | RetryDeletion(legacy: Id, link: Option<Id>, now: Time)
    | Poll(adoption: Option<Adoption>, claimed: Option<Id>, worker: string, now: Time)
    | DeleteRows(legacy: Id, job: Id, unit: Id, worker: string, items: set<Key>, folders: set<Key>, now: Time)
    | GiveUpDeletion(legacy: Id, job: Id, worker: string, now: Time)
    | AskRestore(unit: Id, job: Id, now: Time)
    | RestoreRows(job: Id, worker: string, memberFolders: seq<Id>, memberItems: seq<Id>, now: Time)
    | GiveUpNative(job: Id, operation: Operation, worker: string, now: Time)
    | RenewPurge(job: Id, worker: string, expected: Time, now: Time)
    | Cleanup(picks: seq<Pick>, now: Time)
    | PurgeOneItem(job: Id, worker: string, item: Id, now: Time)
    | PurgeOneFolder(job: Id, worker: string, leaf: Option<Id>, now: Time)

  function Apply(s: Store, step: Step): Outcome {
    match step
    case NewFolder(parent, name, id) => CreateFolder(s, parent, name, id)
    case NewItem(folder, name, external, id) => CreateItem(s, folder, name, external, id)
    case Move(folder, dest) => MoveFolder(s, folder, dest)
    case DropFolder(folder, unit, now) => DeleteFolder(s, folder, unit, now)
    case DropItem(item, unit, now) => DeleteItem(s, item, unit, now)
    case PreviewDeletion(folder, legacy, now) => Preview(s, folder, legacy, now)
    case ConfirmDeletion(legacy, folder, accepted, unit, job, now) => Confirm(s, legacy, folder, accepted, unit, job, now)
    case CancelDeletion(legacy, link, deleting) => Cancel(s, legacy, link, deleting)
    case RetryDeletion(legacy, link, now) => Retry(s, legacy, link, now)
    case Poll(adoption, claimed, worker, now) => ClaimNext(s, adoption, claimed, worker, now)
    case DeleteRows(legacy, job, unit, worker, items, folders, now) => DeleteBatch(s, job, legacy, unit, worker, items, folders, now)
    case GiveUpDeletion(legacy, job, worker, now) => FailDeletion(s, job, legacy, worker, now)
    case AskRestore(unit, job, now) => QueueRestore(s, unit, job, now)
    case RestoreRows(job, worker, memberFolders, memberItems, now) => RestoreBatch(s, job, worker, memberFolders, memberItems, now)
    case GiveUpNative(job, operation, worker, now) => FailNative(s, job, operation, worker, now)
    case RenewPurge(job, worker, expected, now) => RenewPurgeLease(s, job, worker, expected, now)
    case Cleanup(picks, now) => CleanupBatch(s, picks, now)
    case PurgeOneItem(job, worker, item, now) => PurgeItem(s, job, worker, item, now)
    case PurgeOneFolder(job, worker, leaf, now) => FinalizePurge(s, job, worker, leaf, now)
  }

  function Next(s: Store, step: Step): Store {
    After(s, Apply(s, step))
  }

  // ---- what the SELECT statements and the id generator can return ----

  /** The job linked to the V5 row, if there is one. */
  predicate LinkChoice(s: Store, l: Id, link: Option<Id>) {
    if link.Some? then LinkedTo(s, link.value, l) else !HasLink(s, l)
  }

  predicate HasDeletingUnit(s: Store, root: Id) {
    exists u {:trigger DeletingUnitOf(s, u, root)} :: u in s.units && DeletingUnitOf(s, u, root)
  }

  /** The root's DELETING unit, or the id of the unit about to be created. */
  predicate GateChoice(s: Store, root: Id, u: Id) {
    DeletingUnitOf(s, u, root) || (!HasDeletingUnit(s, root) && u !in s.spent)
  }

  predicate DeletingChoice(s: Store, root: Id, u: Option<Id>) {
    if u.Some? then DeletingUnitOf(s, u.value, root) else !HasDeletingUnit(s, root)
  }

  /** Up to `limit` candidates: `SKIP LOCKED` may pass over any of them, even all. */
  predicate Selected(chosen: set<Key>, candidates: set<Key>, limit: nat) {
    chosen <= candidates && |chosen| <= limit
  }

  predicate Listed(ids: seq<Id>, candidates: set<Id>, limit: nat) {
    && (forall i :: 0 <= i < |ids| ==> ids[i] in candidates)
    && (forall i, j :: 0 <= i < j < |ids| ==> ids[i] != ids[j])
    && |ids| <= limit
  }

  /** Rows a delete batch may take once the gate is closed: everything active but the root. */
  function DeletableRows(rows: Rows, top: Path, root: Id, folders: bool): set<Key> {
    RowsBelow(rows, top, folders, false) - {FolderKey(root)}
  }

  /** Tombstoned members of a unit, without its root. */
  function RestorableIds(rows: Rows, u: Id, root: Key, folders: bool): set<Id> {
    set k | k in rows && k.FolderKey? == folders && OwnedBy(rows, k, u) && rows[k].deleted && k != root :: k.id
  }

  predicate CleanupChoice(s: Store, picks: seq<Pick>, now: Time) {
    && (forall i :: 0 <= i < |picks| ==> Eligible(s, picks[i].unit, now) && picks[i].job !in s.spent)
    && (forall i, j :: 0 <= i < j < |picks| ==> picks[i].unit != picks[j].unit && picks[i].job != picks[j].job)
  }

  ghost predicate Enabled(s: Store, step: Step) {
    match step
    case NewFolder(_, _, id) => id !in s.spent
    case NewItem(_, _, _, id) => id !in s.spent
    case Move(_, _) => true
    case DropFolder(_, unit, _) => unit !in s.spent
    case DropItem(_, unit, _) => unit !in s.spent
    case PreviewDeletion(_, legacy, _) => legacy !in s.spent
    case ConfirmDeletion(_, folder, _, unit, job, _) => GateChoice(s, folder, unit) && job !in s.spent && job != unit
    case CancelDeletion(legacy, link, deleting) =>
      LinkChoice(s, legacy, link) && (legacy in s.legacy ==> DeletingChoice(s, s.legacy[legacy].root, deleting))
    case RetryDeletion(legacy, link, _) => LinkChoice(s, legacy, link)
    case Poll(adoption, _, _, _) =>
      adoption.Some? ==>
        && adoption.value.legacy in s.legacy && adoption.value.job !in s.spent && adoption.value.job != adoption.value.unit
        && GateChoice(s, s.legacy[adoption.value.legacy].root, adoption.value.unit)
    case DeleteRows(legacy, job, unit, _, items, folders, _) =>
      legacy in s.legacy ==>
        var root, top := s.legacy[legacy].root, s.legacy[legacy].rootPath;
        && LinkChoice(s, legacy, Some(job)) && GateChoice(s, root, unit)
        && Selected(items, DeletableRows(s.rows, top, root, false), DELETE_ITEM_BATCH)
        && Selected(folders, DeletableRows(s.rows, top, root, true), DELETE_FOLDER_BATCH)
    case GiveUpDeletion(legacy, job, _, _) => LinkChoice(s, legacy, Some(job))
    case AskRestore(_, job, _) => job !in s.spent
    case RestoreRows(job, _, memberFolders, memberItems, _) =>
      job in s.jobs && s.jobs[job].unit in s.units ==>
        var u := s.jobs[job].unit;
        && Listed(memberFolders, RestorableIds(s.rows, u, s.units[u].root, true), RESTORE_FOLDER_BATCH)
        && Listed(memberItems, RestorableIds(s.rows, u, s.units[u].root, false), RESTORE_ITEM_BATCH)
    case GiveUpNative(_, _, _, _) => true
    case RenewPurge(_, _, _, _) => true
    case Cleanup(picks, now) => CleanupChoice(s, picks, now)
    case PurgeOneItem(_, _, _, _) => true
    case PurgeOneFolder(job, _, leaf, _) => job in s.jobs && leaf.Some? ==> PurgeLeaf(s, leaf.value, s.jobs[job].unit)
  }

  // ---- runs ----

  ghost predicate StepsTo(trace: seq<Store>, steps: seq<Step>, i: nat) {
    i < |steps| && i + 1 < |trace| && Enabled(trace[i], steps[i]) && trace[i + 1] == Next(trace[i], steps[i])
  }

  /** `trace` lists the stores a run of `steps` goes through, first to last. */
  ghost predicate Run(trace: seq<Store>, steps: seq<Step>) {
    |trace| == |steps| + 1 && forall i: nat {:trigger StepsTo(trace, steps, i)} :: i < |steps| ==> StepsTo(trace, steps, i)
  }

  /** No id is handed out twice: every id in a table is spent. */
  predicate IdsSpent(s: Store) {
    && s.units.Keys <= s.spent && s.legacy.Keys <= s.spent && s.jobs.Keys <= s.spent
    && (forall k :: k in s.rows ==> k.id in s.spent)
  }

  // ---- what the composite transactions leave behind ----

  lemma GateShape(s: Store, root: Id, rootPath: Path, u: Id)
    requires CloseGate(s, root, rootPath, u).Gate?
    ensures
      var key := FolderKey(root);
      var t := CloseGate(s, root, rootPath, u).store;
      && key in s.rows && t.rows == s.rows[key := s.rows[key].Buried(u)]
      && t.jobs == s.jobs && t.legacy == s.legacy && s.spent <= t.spent <= s.spent + {u}
      && (DeletingUnitOf(s, u, root) ==> t.units == s.units && t.spent == s.spent)
      && (!DeletingUnitOf(s, u, root) ==>
            u !in s.units && !LiveRoot(s, key) && u in t.spent
            && t.units == s.units[u := LifecycleUnit(key, rootPath, ParentPath(rootPath), None, Deleting, None)])
      && DeletingUnitOf(t, u, root)
      && CloseGate(s, root, rootPath, u).closed == !s.rows[key].deleted
  {
  }

  lemma StartShape(s: Store, l: Id, legacy: Legacy, u: Id, j: Id, now: Time)
    requires StartDeletion(s, l, legacy, u, j, now).Commit?
    ensures CloseGate(s, legacy.root, legacy.rootPath, u).Gate?
    ensures
      var gate := CloseGate(s, legacy.root, legacy.rootPath, u);
      var t := StartDeletion(s, l, legacy, u, j, now).store;
      var counted := if gate.closed then legacy.(deleted := legacy.deleted.(folders := legacy.deleted.folders + 1)) else legacy;
      && t.rows == gate.store.rows && t.units == gate.store.units && t.spent == gate.store.spent + {j}
      && t.legacy == s.legacy[l := counted] && t.jobs == s.jobs[j := DeleteJob(l, counted, u, now)]
      && !HasLink(s, l) && !UnitOccupied(s, u)
  {
    var gate := CloseGate(s, legacy.root, legacy.rootPath, u);
    var counted := if gate.closed then legacy.(deleted := legacy.deleted.(folders := legacy.deleted.folders + 1)) else legacy;
    var linked := gate.store.(legacy := gate.store.legacy[l := counted]);
    assert gate.store.jobs == s.jobs && gate.store.legacy == s.legacy;
    forall x | x in s.jobs ensures !LinkedTo(s, x, l) && !OccupiesUnit(s, x, u) {
      assert !LinkedTo(linked, x, l) && !OccupiesUnit(linked, x, u);
    }
  }

  /** The rows a delete batch buries besides its root. */
  function BatchRows(items: set<Key>, folders: set<Key>): set<Key> {
    if items != {} then items else folders
  }

  lemma BatchShape(s: Store, j: Id, l: Id, u: Id, worker: string, items: set<Key>, folders: set<Key>, now: Time)
    requires DeleteBatch(s, j, l, u, worker, items, folders, now).Commit?
    ensures OwnsDeletion(s, j, l, worker) && s.jobs[j].unit == u
    ensures CloseGate(s, s.legacy[l].root, s.legacy[l].rootPath, u).Gate?
    ensures
      var gate := CloseGate(s, s.legacy[l].root, s.legacy[l].rootPath, u);
      var t := DeleteBatch(s, j, l, u, worker, items, folders, now).store;
      var chosen := BatchRows(items, folders);
      && l in t.legacy && j in t.jobs && t.spent == gate.store.spent
      && t.rows == Tombstoned(gate.store.rows, chosen, u)
      && t.jobs == s.jobs[j := t.jobs[j]] && t.legacy == s.legacy[l := t.legacy[l]]
      && t.jobs[j].legacy == s.jobs[j].legacy && t.jobs[j].operation == s.jobs[j].operation && t.jobs[j].unit == u
      && t.legacy[l].root == s.legacy[l].root && t.legacy[l].rootPath == s.legacy[l].rootPath
      && t.legacy[l].active == s.legacy[l].active
      && t.legacy[l].deleted == Counts(
           s.legacy[l].deleted.folders + (if gate.closed then 1 else 0) + (if items == {} then |folders| else 0),
           s.legacy[l].deleted.items + |items|)
      && (chosen != {} ==> t.units == gate.store.units && t.jobs[j].status.JobRunning? && t.legacy[l].status.LegacyRunning?)
      && (chosen == {} ==>
            t.units == gate.store.units[u := gate.store.units[u].(state := Deleted, retentionUntil := Some(now + RETENTION))]
            && t.jobs[j].status.JobSucceeded? && t.legacy[l].status.LegacySucceeded?)
  {
    GateShape(s, s.legacy[l].root, s.legacy[l].rootPath, u);
    var gated := CloseGate(s, s.legacy[l].root, s.legacy[l].rootPath, u).store;
    if BatchRows(items, folders) == {} { assert Tombstoned(gated.rows, {}, u) == gated.rows; }
  }

  // ---- ids ----

  lemma StartSpends(s: Store, l: Id, legacy: Legacy, u: Id, j: Id, now: Time)
    requires IdsSpent(s) && l in s.legacy
    ensures IdsSpent(After(s, StartDeletion(s, l, legacy, u, j, now)))
    ensures s.spent <= After(s, StartDeletion(s, l, legacy, u, j, now)).spent
  {
    if StartDeletion(s, l, legacy, u, j, now).Commit? {
      StartShape(s, l, legacy, u, j, now);
      GateShape(s, legacy.root, legacy.rootPath, u);
    }
  }

  predicate SameKeys(s: Store, t: Store) {
    && t.rows.Keys == s.rows.Keys && t.units.Keys == s.units.Keys && t.legacy.Keys == s.legacy.Keys
    && t.jobs.Keys == s.jobs.Keys && t.spent == s.spent
  }

  lemma SameKeysSpent(s: Store, t: Store)
    requires IdsSpent(s) && SameKeys(s, t)
    ensures IdsSpent(t)
  {
    forall k | k in t.rows ensures k.id in t.spent { assert k in s.rows.Keys; }
  }

  lemma ClaimKeys(s: Store, j: Id, worker: string, now: Time)
    ensures SameKeys(s, After(s, Claim(s, j, worker, now)))
  {
  }

  lemma PollSpends(s: Store, adoption: Option<Adoption>, j: Option<Id>, worker: string, now: Time)
    requires IdsSpent(s)
    ensures IdsSpent(After(s, ClaimNext(s, adoption, j, worker, now)))
    ensures s.spent <= After(s, ClaimNext(s, adoption, j, worker, now)).spent
  {
    if adoption.Some? {
      var l := adoption.value.legacy;
      if Adoptable(s, l, now) {
        StartSpends(s, l, s.legacy[l].(status := LegacyQueued, nextRunAt := Some(now), lease := None), adoption.value.unit, adoption.value.job, now);
      }
    }
    var adopted := if adoption.Some? then Adopt(s, adoption.value.legacy, adoption.value.unit, adoption.value.job, now) else Commit(s);
    if adopted.Commit? && j.Some? {
      ClaimKeys(adopted.store, j.value, worker, now);
      SameKeysSpent(adopted.store, After(adopted.store, Claim(adopted.store, j.value, worker, now)));
    }
  }

  lemma BatchSpends(s: Store, j: Id, l: Id, u: Id, worker: string, items: set<Key>, folders: set<Key>, now: Time)
    requires IdsSpent(s)
    ensures IdsSpent(After(s, DeleteBatch(s, j, l, u, worker, items, folders, now)))
    ensures s.spent <= After(s, DeleteBatch(s, j, l, u, worker, items, folders, now)).spent
  {
    if DeleteBatch(s, j, l, u, worker, items, folders, now).Commit? {
      BatchShape(s, j, l, u, worker, items, folders, now);
      GateShape(s, s.legacy[l].root, s.legacy[l].rootPath, u);
    }
  }

  lemma {:induction false} CleanupSpends(s: Store, picks: seq<Pick>, now: Time)
    requires IdsSpent(s)
    ensures IdsSpent(After(s, CleanupBatch(s, picks, now)))
    ensures s.spent <= After(s, CleanupBatch(s, picks, now)).spent
    ensures After(s, CleanupBatch(s, picks, now)).rows == s.rows
  {
    if picks != [] {
      CleanupSpends(s, picks[..|picks| - 1], now);
    }
  }

  lemma {:induction false} RevivedKeys(rows: Rows, folders: seq<Id>, items: seq<Id>)
    ensures ReviveFolders(rows, folders).Keys == rows.Keys
    ensures ReviveItems(rows, items).Some? ==> ReviveItems(rows, items).value.Keys == rows.Keys
    decreases |folders| + |items|
  {
    if folders != [] { RevivedKeys(rows, folders[..|folders| - 1], []); }
    if items != [] { RevivedKeys(rows, [], items[..|items| - 1]); }
  }

  lemma RestoreKeys(s: Store, j: Id, worker: string, folders: seq<Id>, items: seq<Id>, now: Time)
    ensures SameKeys(s, After(s, RestoreBatch(s, j, worker, folders, items, now)))
  {
    var o := RestoreBatch(s, j, worker, folders, items, now);
    if o.Commit? {
      RevivedKeys(s.rows, folders, items);
      var t := o.store;
      assert t.spent == s.spent && t.legacy == s.legacy;
      assert t.jobs.Keys == s.jobs.Keys;
      assert t.units.Keys == s.units.Keys;
      assert t.rows.Keys == s.rows.Keys;
    }
  }

  lemma WriteSpends(s: Store, step: Step)
    requires IdsSpent(s)
    requires step.NewFolder? || step.NewItem? || step.Move? || step.DropFolder? || step.DropItem? || step.PurgeOneItem? || step.PurgeOneFolder?
    ensures IdsSpent(Next(s, step)) && s.spent <= Next(s, step).spent
  {
  }

  lemma UserSpends(s: Store, step: Step)
    requires IdsSpent(s)
    requires step.PreviewDeletion? || step.CancelDeletion? || step.RetryDeletion?
    ensures IdsSpent(Next(s, step)) && s.spent <= Next(s, step).spent
  {
  }

  lemma JobSpends(s: Store, step: Step)
    requires IdsSpent(s)
    requires step.GiveUpDeletion? || step.AskRestore? || step.GiveUpNative? || step.RenewPurge?
    ensures IdsSpent(Next(s, step)) && s.spent <= Next(s, step).spent
  {
  }

  /** Every id in a table stays spent. */
  lemma StepSpends(s: Store, step: Step)
    requires IdsSpent(s)
    ensures IdsSpent(Next(s, step)) && s.spent <= Next(s, step).spent
  {
    if step.ConfirmDeletion? {
      if Apply(s, step).Commit? {
        StartSpends(s, step.legacy, s.legacy[step.legacy].(status := LegacyQueued, previewExpiresAt := None, nextRunAt := Some(step.now)),
          step.unit, step.job, step.now);
      }
    } else if step.Poll? {
      PollSpends(s, step.adoption, step.claimed, step.worker, step.now);
    } else if step.DeleteRows? {
      BatchSpends(s, step.job, step.legacy, step.unit, step.worker, step.items, step.folders, step.now);
    } else if step.Cleanup? {
      CleanupSpends(s, step.picks, step.now);
    } else if step.RestoreRows? {
      RestoreKeys(s, step.job, step.worker, step.memberFolders, step.memberItems, step.now);
      SameKeysSpent(s, Next(s, step));
    } else if step.NewFolder? || step.NewItem? || step.Move? || step.DropFolder? || step.DropItem? || step.PurgeOneItem? || step.PurgeOneFolder? {
      WriteSpends(s, step);
    } else if step.PreviewDeletion? || step.CancelDeletion? || step.RetryDeletion? {
      UserSpends(s, step);
    } else {
      JobSpends(s, step);
    }
  }
}
