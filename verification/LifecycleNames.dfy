module LifecycleNames {
  // Names among active siblings stay unique in every run, restores included, and every
  // restored item comes back under a title no other active item of its folder has.

  import opened Wrappers
  import opened LifecycleTables
  import opened LifecycleSteps
  import opened LifecycleRuns
  import opened LifecycleRevive
  import opened LifecycleMirror
  import opened LifecycleFence
  import opened LifecycleInvariant
  import opened LifecycleKept
  import opened LifecycleDiscipline
  import opened LifecycleOrder
  import opened LifecycleRoundTrip
  import opened FolderMoves
  import opened DisplayNames

  // ---- transactions that only take active folders away ----

  /** An active folder was there before, exactly as it is now. */
  predicate FolderKept(rows: Rows, after: Rows, k: Key) {
    k in after && after[k].Folder? && !after[k].deleted ==> k in rows && rows[k] == after[k]
  }

  lemma FewerNames(rows: Rows, after: Rows)
    requires NamesUnique(rows)
    requires forall k {:trigger FolderKept(rows, after, k)} :: FolderKept(rows, after, k)
    ensures NamesUnique(after)
  {
    forall k, m ensures NamesApart(after, k, m) {
      assert NamesApart(rows, k, m) && FolderKept(rows, after, k) && FolderKept(rows, after, m);
    }
  }

  lemma StartNames(s: Store, l: Id, legacy: Legacy, u: Id, j: Id, now: Time)
    requires NamesUnique(s.rows)
    ensures NamesUnique(After(s, StartDeletion(s, l, legacy, u, j, now)).rows)
  {
    if StartDeletion(s, l, legacy, u, j, now).Commit? {
      StartShape(s, l, legacy, u, j, now);
      GateShape(s, legacy.root, legacy.rootPath, u);
      FewerNames(s.rows, StartDeletion(s, l, legacy, u, j, now).store.rows);
    }
  }

  lemma PollNames(s: Store, adoption: Option<Adoption>, j: Option<Id>, worker: string, now: Time)
    requires NamesUnique(s.rows)
    ensures NamesUnique(After(s, ClaimNext(s, adoption, j, worker, now)).rows)
  {
    if adoption.Some? && Adoptable(s, adoption.value.legacy, now) {
      var l := adoption.value.legacy;
      StartNames(s, l, s.legacy[l].(status := LegacyQueued, nextRunAt := Some(now), lease := None), adoption.value.unit, adoption.value.job, now);
    }
    var adopted := Adopted(s, adoption, now);
    if adopted.Commit? && j.Some? { ClaimKeepsRows(adopted.store, j.value, worker, now); }
  }

  lemma ClaimKeepsRows(s: Store, j: Id, worker: string, now: Time)
    ensures After(s, Claim(s, j, worker, now)).rows == s.rows
  {
  }

  lemma BatchNames(s: Store, j: Id, l: Id, u: Id, worker: string, items: set<Key>, folders: set<Key>, now: Time)
    requires NamesUnique(s.rows)
    ensures NamesUnique(After(s, DeleteBatch(s, j, l, u, worker, items, folders, now)).rows)
  {
    if DeleteBatch(s, j, l, u, worker, items, folders, now).Commit? {
      BatchShape(s, j, l, u, worker, items, folders, now);
      GateShape(s, s.legacy[l].root, s.legacy[l].rootPath, u);
      FewerNames(s.rows, DeleteBatch(s, j, l, u, worker, items, folders, now).store.rows);
    }
  }

  // ---- transactions that bring or carry active folders ----

  lemma CreateNames(s: Store, parent: Path, name: string, id: Id)
    requires NamesUnique(s.rows)
    ensures NamesUnique(After(s, CreateFolder(s, parent, name, id)).rows)
  {
    if CreateFolder(s, parent, name, id).Commit? {
      var t := CreateFolder(s, parent, name, id).store.rows;
      forall k, m ensures NamesApart(t, k, m) {
        assert NamesApart(s.rows, k, m);
        if ActiveSiblings(t, k, m) {
          if k == FolderKey(id) { SiblingListed(s.rows, m, parent, id); }
          if m == FolderKey(id) { SiblingListed(s.rows, k, parent, id); }
        }
      }
    }
  }

  /** The folder directly above the one a path ends in. */
  function ParentId(path: Path): Option<Id> {
    if |path| > 1 then Some(path[|path| - 2]) else None
  }

  /** In a forest two folders have the same parent path iff they have the same parent. */
  lemma SameParent(rows: Rows, k: Key, m: Key)
    requires Forest(rows) && k in rows && m in rows && rows[k].Folder? && rows[m].Folder?
    ensures ParentOf(rows[k].path) == ParentOf(rows[m].path) <==> ParentId(rows[k].path) == ParentId(rows[m].path)
  {
    HomeSound(rows, k);
    HomeSound(rows, m);
    if |rows[k].path| > 1 { assert Chained(rows, k.id, |rows[k].path| - 2); }
    if |rows[m].path| > 1 { assert Chained(rows, m.id, |rows[m].path| - 2); }
  }

  /** A move gives no folder but the moved one another parent. */
  lemma MovedParent(s: Store, f: Id, dest: Option<Id>, k: Key)
    requires Forest(s.rows) && MoveFolder(s, f, dest).Commit? && k in s.rows && s.rows[k].Folder? && k != FolderKey(f)
    ensures ParentId(MoveFolder(s, f, dest).store.rows[k].path) == ParentId(s.rows[k].path)
  {
    var source := s.rows[FolderKey(f)].path;
    HomeSound(s.rows, FolderKey(f));
    HomeSound(s.rows, k);
    assert s.rows[k].path != source;
  }

  /** No folder of the moved subtree ends up a sibling of the moved folder. */
  lemma MovedRoot(s: Store, f: Id, dest: Option<Id>, m: Key)
    requires Forest(s.rows) && MoveFolder(s, f, dest).Commit? && MoveFolder(s, f, dest).store != s
    requires ActiveSiblings(MoveFolder(s, f, dest).store.rows, FolderKey(f), m)
    ensures s.rows[FolderKey(f)].name != s.rows[m].name
  {
    var t, source := MoveFolder(s, f, dest).store.rows, s.rows[FolderKey(f)].path;
    var destPath := if dest.Some? then s.rows[FolderKey(dest.value)].path else [];
    HomeSound(s.rows, FolderKey(f));
    HomeSound(s.rows, m);
    assert source[|source|..] == [] && t[FolderKey(f)].path == destPath + [f];
    assert ParentOf(destPath + [f]) == destPath;
    SiblingListed(s.rows, m, destPath, f);
  }

  /** In the subtree that moves, siblings stay siblings; the moved folder's name is free at its destination. */
  lemma MoveNames(s: Store, f: Id, dest: Option<Id>)
    requires Forest(s.rows) && NamesUnique(s.rows)
    ensures NamesUnique(After(s, MoveFolder(s, f, dest)).rows)
  {
    var o := MoveFolder(s, f, dest);
    if o.Commit? && o.store != s {
      MoveKeepsForest(s, f, dest);
      forall k, m ensures NamesApart(o.store.rows, k, m) {
        assert NamesApart(s.rows, k, m);
        if ActiveSiblings(o.store.rows, k, m) {
          if k == FolderKey(f) {
            MovedRoot(s, f, dest, m);
          } else if m == FolderKey(f) {
            MovedRoot(s, f, dest, k);
          } else {
            MovedParent(s, f, dest, k);
            MovedParent(s, f, dest, m);
            SameParent(o.store.rows, k, m);
            SameParent(s.rows, k, m);
            HomeSound(s.rows, k);
            HomeSound(s.rows, m);
          }
        }
      }
    }
  }

  lemma CancelNames(s: Store, l: Id, j: Option<Id>, u: Option<Id>)
    requires NamesUnique(s.rows)
    ensures NamesUnique(After(s, Cancel(s, l, j, u)).rows)
  {
    var o := Cancel(s, l, j, u);
    if o.Commit? && u.Some? { RaiseKeepsNames(s.rows, s.legacy[l].root, s.rows[FolderKey(s.legacy[l].root)].name); }
  }

  // ---- restores ----

  /** The root comes back beside its real siblings: the recorded parent is visible, so it is still the parent. */
  lemma RootNames(s: Store, u: Id)
    requires Tidy(s) && NamesUnique(s.rows) && u in s.units && RootInPlace(s, u) && s.units[u].root.FolderKey?
    requires RestoreRefusal(s, u).None?
    ensures NamesUnique(ReviveRoot(s.rows, s.units[u].root.id, s.units[u].parentPath))
  {
    var unit, f := s.units[u], s.units[u].root.id;
    HomeSound(s.rows, unit.root);
    var path := s.rows[unit.root].path;
    var parent := if unit.parentPath.Some? then unit.parentPath.value else [];
    assert parent == ParentOf(path) by {
      if unit.parentPath.Some? {
        var k :| k in s.rows && k.FolderKey? && s.rows[k].Folder? && s.rows[k].path == unit.parentPath.value && VisibleFolder(s.rows, k.id);
        HomeSound(s.rows, k);
        assert Chained(s.rows, f, |path| - 2);
      }
    }
    RaiseKeepsNames(s.rows, f, NextAvailable(s.rows[unit.root].name, SiblingNames(s.rows, parent, f)));
  }

  lemma RestoreNames(s: Store, j: Id, worker: string, folders: seq<Id>, items: seq<Id>, now: Time)
    requires Tidy(s) && NamesUnique(s.rows)
    ensures NamesUnique(After(s, RestoreBatch(s, j, worker, folders, items, now)).rows)
  {
    var o := RestoreBatch(s, j, worker, folders, items, now);
    if o.Commit? {
      RestoreTables(s, j, worker, folders, items, now);
      var u := s.jobs[j].unit;
      assert UnitRooted(s, u);
      if s.units[u].root.ItemKey? {
        forall k ensures FolderKept(s.rows, o.store.rows, k) {}
        FewerNames(s.rows, o.store.rows);
      } else if folders != [] {
        BatchKeepsNames(s.rows, folders);
      } else if items != [] {
        forall k ensures FolderKept(s.rows, o.store.rows, k) {
          ItemsRevived(s.rows, items, k);
          if k in s.rows && k.ItemKey? { HomeSound(s.rows, k); }
        }
        FewerNames(s.rows, o.store.rows);
      } else {
        RootNames(s, u);
      }
    }
  }

  // ---- every step, every run ----

  lemma WriteNames(s: Store, step: Step)
    requires Tidy(s) && NamesUnique(s.rows)
    requires step.NewItem? || step.DropFolder? || step.DropItem?
    ensures NamesUnique(Next(s, step).rows)
  {
    forall k ensures FolderKept(s.rows, Next(s, step).rows, k) {}
    FewerNames(s.rows, Next(s, step).rows);
  }

  lemma PurgeNames(s: Store, step: Step)
    requires NamesUnique(s.rows) && (step.PurgeOneItem? || step.PurgeOneFolder?)
    ensures NamesUnique(Next(s, step).rows)
  {
    forall k ensures FolderKept(s.rows, Next(s, step).rows, k) {}
    FewerNames(s.rows, Next(s, step).rows);
  }

  lemma JobNames(s: Store, step: Step)
    requires step.PreviewDeletion? || step.RetryDeletion? || step.GiveUpDeletion? || step.AskRestore? || step.GiveUpNative? || step.RenewPurge?
    ensures Next(s, step).rows == s.rows
  {
  }

  lemma {:induction false} CleanupKeepsRows(s: Store, picks: seq<Pick>, now: Time)
    ensures After(s, CleanupBatch(s, picks, now)).rows == s.rows
  {
    if picks != [] { CleanupKeepsRows(s, picks[..|picks| - 1], now); }
  }

  lemma ConfirmNames(s: Store, l: Id, root: Id, accepted: bool, u: Id, j: Id, now: Time)
    requires NamesUnique(s.rows)
    ensures NamesUnique(After(s, Confirm(s, l, root, accepted, u, j, now)).rows)
  {
    if Confirm(s, l, root, accepted, u, j, now).Commit? {
      StartNames(s, l, s.legacy[l].(status := LegacyQueued, previewExpiresAt := None, nextRunAt := Some(now)), u, j, now);
    }
  }

  /** Whatever a transaction does, no two active siblings end up with one name. */
  lemma StepNames(s: Store, step: Step)
    requires Tidy(s) && NamesUnique(s.rows)
    ensures NamesUnique(Next(s, step).rows)
  {
    match step
    case NewFolder(parent, name, id) => CreateNames(s, parent, name, id);
    case Move(folder, dest) => MoveNames(s, folder, dest);
    case ConfirmDeletion(l, root, accepted, u, j, now) => ConfirmNames(s, l, root, accepted, u, j, now);
    case CancelDeletion(l, link, deleting) => CancelNames(s, l, link, deleting);
    case Poll(adoption, claimed, worker, now) => PollNames(s, adoption, claimed, worker, now);
    case DeleteRows(l, j, u, worker, items, folders, now) => BatchNames(s, j, l, u, worker, items, folders, now);
    case RestoreRows(j, worker, folders, items, now) => RestoreNames(s, j, worker, folders, items, now);
    case Cleanup(picks, now) => CleanupKeepsRows(s, picks, now);
    case NewItem(_, _, _, _) => WriteNames(s, step);
    case DropFolder(_, _, _) => WriteNames(s, step);
    case DropItem(_, _, _) => WriteNames(s, step);
    case PurgeOneItem(_, _, _, _) => PurgeNames(s, step);
    case PurgeOneFolder(_, _, _, _) => PurgeNames(s, step);
    case _ => JobNames(s, step);
  }

  /** Names of active siblings are unique in every store of a disciplined run. */
  lemma {:induction false} RunNames(trace: seq<Store>, steps: seq<Step>, n: nat)
    requires DisciplinedRun(trace, steps) && NamesUnique(trace[0].rows) && n < |trace|
    ensures NamesUnique(trace[n].rows)
  {
    if n > 0 {
      RunNames(trace, steps, n - 1);
      RunOrderly(trace, steps, n - 1);
      assert StepsTo(trace, steps, n - 1);
      StepNames(trace[n - 1], steps[n - 1]);
    }
  }

  // ---- titles of restored items ----

  /** No other active item of its folder has the item's title. */
  predicate TitleFresh(rows: Rows, i: Id) {
    var key := ItemKey(i);
    key in rows && rows[key].Item? && !rows[key].deleted && rows[key].name !in ItemTitles(rows, rows[key].folder, i)
  }

  lemma TitleStaysFresh(rows: Rows, i: Id, other: Id)
    requires TitleFresh(rows, i) && other != i && ReviveItem(rows, other).Some?
    ensures TitleFresh(ReviveItem(rows, other).value, i)
  {
    var t, key := ReviveItem(rows, other).value, ItemKey(i);
    var used := ItemTitles(rows, rows[ItemKey(other)].folder, other);
    forall k | k in t && t[k].Item? && !t[k].deleted && t[k].folder == t[key].folder && k != key ensures t[k].name != t[key].name {
      if k == ItemKey(other) {
        assert t[k].name == NextAvailable(rows[k].name, used);
        if rows[key].folder == rows[k].folder { assert rows[key].name in used; }
      } else {
        assert rows[k].name in ItemTitles(rows, rows[key].folder, i);
      }
    }
  }

  /** Every item of a restored batch has a title of its own in its folder, also beside the others of the batch. */
  lemma {:induction false} RestoredTitles(rows: Rows, ids: seq<Id>, n: nat)
    requires ReviveItems(rows, ids).Some? && n < |ids|
    ensures TitleFresh(ReviveItems(rows, ids).value, ids[n])
    decreases |ids|
  {
    var init, last := ids[..|ids| - 1], ids[|ids| - 1];
    var before, t := ReviveItems(rows, init).value, ReviveItems(rows, ids).value;
    assert ReviveItem(before, last) == Some(t);
    if n == |ids| - 1 {
      RevivedTitle(before, last);
    } else {
      RestoredTitles(rows, init, n);
      assert TitleFresh(before, ids[n]);
      if ids[n] == last { RevivedTitle(before, last); } else { TitleStaysFresh(before, ids[n], last); }
    }
  }

  lemma RevivedTitle(rows: Rows, i: Id)
    requires ReviveItem(rows, i).Some?
    ensures TitleFresh(ReviveItem(rows, i).value, i)
  {
    var t, key := ReviveItem(rows, i).value, ItemKey(i);
    forall k | k in t && t[k].Item? && !t[k].deleted && t[k].folder == t[key].folder && k != key ensures t[k].name != t[key].name {
      assert t[k].name in ItemTitles(rows, rows[key].folder, i);
    }
  }

  /** What a restore transaction brings back has a fresh title. */
  lemma RestoreTitles(s: Store, j: Id, worker: string, folders: seq<Id>, items: seq<Id>, now: Time, i: Id)
    requires RestoreBatch(s, j, worker, folders, items, now).Commit?
    requires ItemKey(i) in RaisedRows(s.units[s.jobs[j].unit].root, folders, items)
    ensures TitleFresh(RestoreBatch(s, j, worker, folders, items, now).store.rows, i)
  {
    if s.units[s.jobs[j].unit].root.ItemKey? {
      RevivedTitle(s.rows, i);
    } else {
      var n :| 0 <= n < |items| && ItemKey(items[n]) == ItemKey(i);
      RestoredTitles(s.rows, items, n);
    }
  }
}
