module LifecycleRevive {
  // What a restore batch does to the rows: the listed ones come back, each under a free name.

  import opened Wrappers
  import opened LifecycleTables
  import opened LifecycleSteps
  import opened LifecycleRuns
  import opened DisplayNames

  /** Row `k` came back under some name when `raised`, and is untouched otherwise. */
  predicate RowAfter(before: Rows, after: Rows, k: Key, raised: bool) {
    && k in before && k in after
    && after[k] == if raised then before[k].Raised(after[k].name) else before[k]
  }

  lemma {:induction false} FoldersRevived(rows: Rows, ids: seq<Id>, k: Key)
    requires forall i :: 0 <= i < |ids| ==> FolderKey(ids[i]) in rows && rows[FolderKey(ids[i])].Folder?
    ensures ReviveFolders(rows, ids).Keys == rows.Keys
    ensures k in rows ==> RowAfter(rows, ReviveFolders(rows, ids), k, k.FolderKey? && k.id in ids)
  {
    if ids != [] {
      var init, last := ids[..|ids| - 1], ids[|ids| - 1];
      assert ids == init + [last];
      FoldersRevived(rows, init, k);
      FoldersRevived(rows, init, FolderKey(last));
    }
  }

  lemma {:induction false} ItemsRevived(rows: Rows, ids: seq<Id>, k: Key)
    requires ReviveItems(rows, ids).Some?
    ensures ReviveItems(rows, ids).value.Keys == rows.Keys
    ensures k in rows ==> RowAfter(rows, ReviveItems(rows, ids).value, k, k.ItemKey? && k.id in ids)
  {
    if ids != [] {
      var init, last := ids[..|ids| - 1], ids[|ids| - 1];
      assert ids == init + [last];
      ItemsRevived(rows, init, k);
      ItemsRevived(rows, init, ItemKey(last));
    }
  }

  // ---- names stay unique among active siblings ----

  predicate ActiveSiblings(rows: Rows, k: Key, m: Key) {
    && k in rows && m in rows && k != m && rows[k].Folder? && rows[m].Folder? && !rows[k].deleted && !rows[m].deleted
    && rows[k].path != [] && rows[m].path != [] && ParentOf(rows[k].path) == ParentOf(rows[m].path)
  }

  /** The unique index on active sibling names. */
  predicate NamesApart(rows: Rows, k: Key, m: Key) {
    ActiveSiblings(rows, k, m) ==> rows[k].name != rows[m].name
  }

  ghost predicate NamesUnique(rows: Rows) {
    forall k, m {:trigger NamesApart(rows, k, m)} :: NamesApart(rows, k, m)
  }

  lemma SiblingListed(rows: Rows, k: Key, parent: Path, self: Id)
    requires k in rows && rows[k].Folder? && !rows[k].deleted && rows[k].path != [] && ParentOf(rows[k].path) == parent
    requires k != FolderKey(self)
    ensures rows[k].name in SiblingNames(rows, parent, self)
  {
    assert ActiveChild(rows, k, parent);
  }

  /** A folder raised under a name none of its siblings uses keeps the index satisfied. */
  lemma RaiseKeepsNames(rows: Rows, f: Id, name: string)
    requires NamesUnique(rows) && FolderKey(f) in rows && rows[FolderKey(f)].Folder?
    requires name !in SiblingNames(rows, ParentOf(rows[FolderKey(f)].path), f)
    ensures NamesUnique(rows[FolderKey(f) := rows[FolderKey(f)].Raised(name)])
  {
    var t := rows[FolderKey(f) := rows[FolderKey(f)].Raised(name)];
    forall k, m ensures NamesApart(t, k, m) {
      assert NamesApart(rows, k, m);
      if ActiveSiblings(t, k, m) {
        if k == FolderKey(f) { SiblingListed(rows, m, ParentOf(t[m].path), f); }
        if m == FolderKey(f) { SiblingListed(rows, k, ParentOf(t[k].path), f); }
      }
    }
  }

  /** A whole batch of restored folders satisfies the unique index, whatever its order. */
  lemma {:induction false} BatchKeepsNames(rows: Rows, ids: seq<Id>)
    requires NamesUnique(rows)
    ensures NamesUnique(ReviveFolders(rows, ids))
  {
    if ids != [] {
      BatchKeepsNames(rows, ids[..|ids| - 1]);
      var before, f := ReviveFolders(rows, ids[..|ids| - 1]), ids[|ids| - 1];
      var key := FolderKey(f);
      if key in before && before[key].Folder? {
        RaiseKeepsNames(before, f, NextAvailable(before[key].name, SiblingNames(before, ParentOf(before[key].path), f)));
      }
    }
  }

  // ---- one restore transaction ----

  function FolderKeys(ids: seq<Id>): set<Key> {
    set i | 0 <= i < |ids| :: FolderKey(ids[i])
  }

  function ItemKeys(ids: seq<Id>): set<Key> {
    set i | 0 <= i < |ids| :: ItemKey(ids[i])
  }

  /** The rows a restore batch raises: listed members, or the root once no member is listed. */
  function RaisedRows(root: Key, folders: seq<Id>, items: seq<Id>): set<Key> {
    if root.ItemKey? then {root}
    else if folders != [] then FolderKeys(folders)
    else if items != [] then ItemKeys(items)
    else {root}
  }

  predicate LastRestore(root: Key, folders: seq<Id>, items: seq<Id>) {
    root.ItemKey? || (folders == [] && items == [])
  }

  lemma RestoreOwned(s: Store, j: Id, worker: string, folders: seq<Id>, items: seq<Id>, now: Time, k: Key)
    requires Enabled(s, RestoreRows(j, worker, folders, items, now))
    requires RestoreBatch(s, j, worker, folders, items, now).Commit?
    ensures s.jobs[j].unit in s.units
    ensures
      var u := s.jobs[j].unit;
      k in RaisedRows(s.units[u].root, folders, items) ==>
        OwnedBy(s.rows, k, u) && s.rows[k].deleted && (k == s.units[u].root <==> LastRestore(s.units[u].root, folders, items))
  {
    var u := s.jobs[j].unit;
    var root := s.units[u].root;
    if k in RaisedRows(root, folders, items) && !LastRestore(root, folders, items) {
      if folders != [] {
        var i :| 0 <= i < |folders| && k == FolderKey(folders[i]);
        assert folders[i] in RestorableIds(s.rows, u, root, true);
      } else {
        var i :| 0 <= i < |items| && k == ItemKey(items[i]);
        assert items[i] in RestorableIds(s.rows, u, root, false);
      }
    }
  }

  lemma RestoreRowShape(s: Store, j: Id, worker: string, folders: seq<Id>, items: seq<Id>, now: Time, k: Key)
    requires Enabled(s, RestoreRows(j, worker, folders, items, now))
    requires RestoreBatch(s, j, worker, folders, items, now).Commit?
    requires forall f {:trigger FolderSound(s.rows, f)} :: FolderSound(s.rows, f)
    ensures s.jobs[j].unit in s.units
    ensures
      var t := RestoreBatch(s, j, worker, folders, items, now).store;
      && t.rows.Keys == s.rows.Keys
      && (k in s.rows ==> RowAfter(s.rows, t.rows, k, k in RaisedRows(s.units[s.jobs[j].unit].root, folders, items)))
  {
    var root := s.units[s.jobs[j].unit].root;
    if root.FolderKey? && folders != [] {
      forall i | 0 <= i < |folders| ensures FolderKey(folders[i]) in s.rows && s.rows[FolderKey(folders[i])].Folder? {
        RestoreOwned(s, j, worker, folders, items, now, FolderKey(folders[i]));
        assert FolderKey(folders[i]) in FolderKeys(folders);
        assert FolderSound(s.rows, folders[i]);
      }
      FoldersRevived(s.rows, folders, k);
      assert k in FolderKeys(folders) <==> k.FolderKey? && k.id in folders;
    } else if root.FolderKey? && items != [] {
      ItemsRevived(s.rows, items, k);
      assert k in ItemKeys(items) <==> k.ItemKey? && k.id in items;
    }
  }

  lemma RestoreTables(s: Store, j: Id, worker: string, folders: seq<Id>, items: seq<Id>, now: Time)
    requires RestoreBatch(s, j, worker, folders, items, now).Commit?
    ensures
      var t := RestoreBatch(s, j, worker, folders, items, now).store;
      var u := s.jobs[j].unit;
      && j in s.jobs && HeldBy(s.jobs[j], RestoreOp, worker)
      && u in s.units && s.units[u].state.Restoring? && RestoreRefusal(s, u).None?
      && t.legacy == s.legacy && t.spent == s.spent && t.jobs.Keys == s.jobs.Keys
      && t.jobs == s.jobs[j := t.jobs[j]] && t.jobs[j].unit == u && t.jobs[j].operation.RestoreOp? && t.jobs[j].legacy == s.jobs[j].legacy
      && t.units == (if LastRestore(s.units[u].root, folders, items) then s.units[u := s.units[u].(state := Restored)] else s.units)
      && (t.jobs[j].status.JobSucceeded? <==> LastRestore(s.units[u].root, folders, items))
      && (t.jobs[j].status.JobRunning? <==> !LastRestore(s.units[u].root, folders, items))
  {
  }
}
