module LifecycleRestoring {
  // The batch loop of a restore, alone with the store: which rows are left after each
  // transaction, and that it gets to the root exactly if no item's external identity is taken.

  import opened Wrappers
  import opened LifecycleTables
  import opened LifecycleSteps
  import opened LifecycleRuns
  import opened LifecycleRevive
  import opened LifecycleMirror
  import opened LifecycleInvariant
  import opened LifecycleDiscipline

  /** The worker holds a RESTORE job whose unit may be restored. */
  predicate Restores(s: Store, j: Id, u: Id, worker: string) {
    && j in s.jobs && s.jobs[j].unit == u && HeldBy(s.jobs[j], RestoreOp, worker)
    && u in s.units && s.units[u].state.Restoring? && RestoreRefusal(s, u).None?
  }

  /** The worker holds the job, and nothing refuses its next transaction outright. */
  predicate MayRestore(s: Store, j: Id, worker: string) {
    j in s.jobs && Restores(s, j, s.jobs[j].unit, worker)
  }

  // ---- external identities ----

  /** Item `k` of the unit cannot come back while `m` is active, and cannot come back beside it. */
  predicate Clash(rows: Rows, u: Id, k: Key, m: Key) {
    && OwnedBy(rows, k, u) && m in rows && m != k && rows[k].Item? && rows[m].Item?
    && rows[k].external.Some? && rows[m].external == rows[k].external && (!rows[m].deleted || OwnedBy(rows, m, u))
  }

  /** No item of the unit shares its external identity with an active item, or with another of the unit. */
  ghost predicate IdentitiesFree(rows: Rows, u: Id) {
    forall k, m {:trigger Clash(rows, u, k, m)} :: !Clash(rows, u, k, m)
  }

  predicate UnitTombstone(rows: Rows, i: Id, u: Id) {
    OwnedBy(rows, ItemKey(i), u) && rows[ItemKey(i)].Item? && rows[ItemKey(i)].deleted
  }

  /** One item that comes back neither makes nor resolves a clash. */
  lemma ReviveKeepsFreedom(rows: Rows, i: Id, u: Id)
    requires UnitTombstone(rows, i, u) && ReviveItem(rows, i).Some?
    ensures IdentitiesFree(ReviveItem(rows, i).value, u) <==> IdentitiesFree(rows, u)
  {
    var key, t := ItemKey(i), ReviveItem(rows, i).value;
    if IdentitiesFree(rows, u) {
      forall k, m ensures !Clash(t, u, k, m) { assert !Clash(rows, u, k, m); }
    }
    if IdentitiesFree(t, u) {
      forall k, m ensures !Clash(rows, u, k, m) {
        assert !Clash(t, u, k, m) && !Clash(t, u, m, k);
      }
    }
  }

  /** An item that cannot come back clashes. */
  lemma RefusedClashes(rows: Rows, i: Id, u: Id)
    requires UnitTombstone(rows, i, u) && ReviveItem(rows, i).None?
    ensures !IdentitiesFree(rows, u)
  {
    var m :| m in rows && rows[m].Item? && !rows[m].deleted && m != ItemKey(i) && rows[m].external == rows[ItemKey(i)].external;
    assert Clash(rows, u, ItemKey(i), m);
  }

  predicate ItemsOf(rows: Rows, ids: seq<Id>, u: Id) {
    && (forall n :: 0 <= n < |ids| ==> UnitTombstone(rows, ids[n], u))
    && (forall n, m :: 0 <= n < m < |ids| ==> ids[n] != ids[m])
  }

  /** A batch of items comes back without touching the clashes, or there was one. */
  lemma {:induction false} BatchFreedom(rows: Rows, ids: seq<Id>, u: Id)
    requires ItemsOf(rows, ids, u)
    ensures match ReviveItems(rows, ids)
            case None => !IdentitiesFree(rows, u)
            case Some(t) => IdentitiesFree(t, u) <==> IdentitiesFree(rows, u)
    decreases |ids|
  {
    if ids != [] {
      var init, last := ids[..|ids| - 1], ids[|ids| - 1];
      BatchFreedom(rows, init, u);
      if ReviveItems(rows, init).Some? {
        var mid := ReviveItems(rows, init).value;
        ItemsRevived(rows, init, ItemKey(last));
        assert UnitTombstone(rows, last, u) && last !in init;
        if ReviveItem(mid, last).Some? { ReviveKeepsFreedom(mid, last, u); } else { RefusedClashes(mid, last, u); }
      }
    }
  }

  /** Items stand still, so their identities clash as before. */
  lemma FoldersKeepFreedom(rows: Rows, t: Rows, u: Id)
    requires t.Keys == rows.Keys && forall k :: k in rows ==> (rows[k].Item? <==> t[k].Item?) && (rows[k].Item? ==> t[k] == rows[k])
    ensures IdentitiesFree(t, u) <==> IdentitiesFree(rows, u)
  {
    forall k, m ensures Clash(t, u, k, m) == Clash(rows, u, k, m) {}
  }

  // ---- what a batch leaves ----

  function UnitRows(rows: Rows, u: Id): set<Key> { set k | k in rows && OwnedBy(rows, k, u) }

  predicate RowSince(before: Rows, rows: Rows, u: Id, k: Key) {
    k in before ==>
      && RowAfter(before, rows, k, OwnedBy(before, k, u) && !OwnedBy(rows, k, u))
      && (OwnedBy(rows, k, u) ==> OwnedBy(before, k, u))
  }

  /** Since `before`, exactly the rows the unit no longer owns came back, and nothing else changed. */
  ghost predicate RaisedSince(before: Rows, rows: Rows, u: Id) {
    rows.Keys == before.Keys && forall k {:trigger RowSince(before, rows, u, k)} :: RowSince(before, rows, u, k)
  }

  lemma RaisedOn(before: Rows, mid: Rows, rows: Rows, u: Id)
    requires RaisedSince(before, mid, u) && RaisedSince(mid, rows, u)
    ensures RaisedSince(before, rows, u)
  {
    forall k ensures RowSince(before, rows, u, k) { assert RowSince(before, mid, u, k) && RowSince(mid, rows, u, k); }
  }

  /** The unit owns no row any more, it is RESTORED, and its job has succeeded. */
  predicate Finished(s: Store, t: Store, j: Id, u: Id)
    requires u in s.units
  {
    && UnitRows(t.rows, u) == {} && t.units == s.units[u := s.units[u].(state := Restored)]
    && j in t.jobs && t.jobs[j].status.JobSucceeded?
  }

  predicate Batch(s: Store, j: Id, folders: seq<Id>, items: seq<Id>)
    requires j in s.jobs && s.jobs[j].unit in s.units
  {
    var u := s.jobs[j].unit;
    && Listed(folders, RestorableIds(s.rows, u, s.units[u].root, true), RESTORE_FOLDER_BATCH)
    && Listed(items, RestorableIds(s.rows, u, s.units[u].root, false), RESTORE_ITEM_BATCH)
    && NoMemberSkipped(s, u, folders, items)
  }

  /** A committed batch raises what it lists, all of it the unit's. */
  lemma BatchRaises(s: Store, j: Id, u: Id, worker: string, folders: seq<Id>, items: seq<Id>, now: Time)
    requires Tidy(s) && Restores(s, j, u, worker) && Batch(s, j, folders, items)
    requires RestoreBatch(s, j, worker, folders, items, now).Commit?
    ensures
      var t := RestoreBatch(s, j, worker, folders, items, now).store;
      && Tidy(t) && RaisedSince(s.rows, t.rows, u)
      && UnitRows(t.rows, u) == UnitRows(s.rows, u) - RaisedRows(s.units[u].root, folders, items)
      && RaisedRows(s.units[u].root, folders, items) <= UnitRows(s.rows, u)
  {
    var step := RestoreRows(j, worker, folders, items, now);
    assert Enabled(s, step) && Disciplined(s, step);
    var t, chosen := RestoreBatch(s, j, worker, folders, items, now).store, RaisedRows(s.units[u].root, folders, items);
    var e := RestoreEffect(s, j, worker, folders, items, now);
    EffectTidy(s, t, e);
    RestoreRowShape(s, j, worker, folders, items, now, s.units[u].root);
    forall k | k in s.rows
      ensures RowAfter(s.rows, t.rows, k, k in chosen) && (k in chosen ==> OwnedBy(s.rows, k, u))
    {
      RestoreRowShape(s, j, worker, folders, items, now, k);
      RestoreOwned(s, j, worker, folders, items, now, k);
    }
    forall k ensures RowSince(s.rows, t.rows, u, k) {}
    forall k | k in chosen ensures k in s.rows { RestoreOwned(s, j, worker, folders, items, now, k); }
  }

  /** After a member batch the worker can go on: the root is still hidden, its parent still visible. */
  lemma BatchGoesOn(s: Store, j: Id, u: Id, worker: string, folders: seq<Id>, items: seq<Id>, now: Time)
    requires Tidy(s) && Restores(s, j, u, worker) && Batch(s, j, folders, items)
    requires RestoreBatch(s, j, worker, folders, items, now).Commit? && !LastRestore(s.units[u].root, folders, items)
    ensures Restores(RestoreBatch(s, j, worker, folders, items, now).store, j, u, worker)
  {
    var t := RestoreBatch(s, j, worker, folders, items, now).store;
    var unit := s.units[u];
    RestoreTables(s, j, worker, folders, items, now);
    BatchRaises(s, j, u, worker, folders, items, now);
    assert UnitRooted(s, u);
    RestoreOwned(s, j, worker, folders, items, now, unit.root);
    RestoreRowShape(s, j, worker, folders, items, now, unit.root);
    if unit.parentPath.Some? { PathStaysVisible(s.rows, t.rows, u, unit.parentPath.value); }
  }

  /** Rows that come back hide nothing. */
  lemma PathStaysVisible(rows: Rows, t: Rows, u: Id, path: Path)
    requires RaisedSince(rows, t, u) && VisiblePath(rows, path)
    ensures VisiblePath(t, path)
  {
    var k :| k in rows && k.FolderKey? && rows[k].Folder? && rows[k].path == path && VisibleFolder(rows, k.id);
    assert RowSince(rows, t, u, k);
    forall m | m in t && Tombstone(t, m) ensures !(t[m].path <= path) {
      assert RowSince(rows, t, u, m);
      assert Tombstone(rows, m);
    }
  }

  /** The listed members are tombstones of the unit, each listed once. */
  lemma ListedItems(s: Store, j: Id, u: Id, folders: seq<Id>, items: seq<Id>)
    requires Tidy(s) && j in s.jobs && s.jobs[j].unit == u && u in s.units && Batch(s, j, folders, items)
    ensures ItemsOf(s.rows, items, u)
  {
    forall n | 0 <= n < |items| ensures UnitTombstone(s.rows, items[n], u) {
      assert items[n] in RestorableIds(s.rows, u, s.units[u].root, false);
      HomeSound(s.rows, ItemKey(items[n]));
    }
  }

  /** A batch commits unless it meets a clash, and leaves the clashes as they are. */
  lemma BatchDecided(s: Store, j: Id, u: Id, worker: string, folders: seq<Id>, items: seq<Id>, now: Time)
    requires Tidy(s) && Restores(s, j, u, worker) && Batch(s, j, folders, items)
    ensures match RestoreBatch(s, j, worker, folders, items, now)
            case Rollback(_) => !IdentitiesFree(s.rows, u)
            case Commit(t) => IdentitiesFree(t.rows, u) <==> IdentitiesFree(s.rows, u)
  {
    var root, o := s.units[u].root, RestoreBatch(s, j, worker, folders, items, now);
    assert UnitRooted(s, u);
    HomeSound(s.rows, root);
    if root.ItemKey? {
      if o.Commit? { ReviveKeepsFreedom(s.rows, root.id, u); } else { RefusedClashes(s.rows, root.id, u); }
    } else if folders == [] && items != [] {
      ListedItems(s, j, u, folders, items);
      BatchFreedom(s.rows, items, u);
    } else {
      BatchOfFolders(s, j, u, worker, folders, items, now);
    }
  }

  lemma BatchOfFolders(s: Store, j: Id, u: Id, worker: string, folders: seq<Id>, items: seq<Id>, now: Time)
    requires Tidy(s) && Restores(s, j, u, worker) && Batch(s, j, folders, items)
    requires s.units[u].root.FolderKey? && (folders != [] || items == []) && RestoreBatch(s, j, worker, folders, items, now).Commit?
    ensures IdentitiesFree(RestoreBatch(s, j, worker, folders, items, now).store.rows, u) <==> IdentitiesFree(s.rows, u)
  {
    var t := RestoreBatch(s, j, worker, folders, items, now).store;
    RestoreRowShape(s, j, worker, folders, items, now, s.units[u].root);
    forall k | k in s.rows ensures (s.rows[k].Item? <==> t.rows[k].Item?) && (s.rows[k].Item? ==> t.rows[k] == s.rows[k]) {
      RestoreRowShape(s, j, worker, folders, items, now, k);
      HomeSound(s.rows, k);
    }
    FoldersKeepFreedom(s.rows, t.rows, u);
  }

  /** The last batch leaves the unit nothing. */
  lemma LastBatchEmpties(s: Store, j: Id, u: Id, worker: string, folders: seq<Id>, items: seq<Id>, now: Time)
    requires Tidy(s) && Restores(s, j, u, worker) && Batch(s, j, folders, items)
    requires RestoreBatch(s, j, worker, folders, items, now).Commit? && LastRestore(s.units[u].root, folders, items)
    ensures UnitRows(RestoreBatch(s, j, worker, folders, items, now).store.rows, u) == {}
  {
    BatchRaises(s, j, u, worker, folders, items, now);
    forall k | k in UnitRows(s.rows, u) ensures k == s.units[u].root { LastMember(s, u, folders, items, k); }
  }

  lemma NothingClashes(rows: Rows, u: Id)
    requires UnitRows(rows, u) == {}
    ensures IdentitiesFree(rows, u)
  {
    forall k, m ensures !Clash(rows, u, k, m) { assert k in rows && OwnedBy(rows, k, u) ==> k in UnitRows(rows, u); }
  }

  lemma MembersShrink(owned: set<Key>, raised: set<Key>)
    requires raised != {} && raised <= owned
    ensures |owned - raised| < |owned|
  {
    assert owned == (owned - raised) + raised;
  }
}
