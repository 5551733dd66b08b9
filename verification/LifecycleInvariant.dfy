/**
 What ties tombstones to lifecycle units. Each table row has its own predicate;
 `Tidy` is their conjunction, kept by every step of a disciplined run.
 */
module LifecycleInvariant {
  import opened Wrappers
  import opened LifecycleTables
  import opened LifecycleSteps

  /** The row lies in the subtree of a unit's root, or is the root item itself. */
  predicate UnderRoot(rows: Rows, k: Key, root: Key) {
    match root
    case FolderKey(r) => Under(rows, k, r)
    case ItemKey(_) => k == root && k in rows
  }

  /** An active row has no unit; a tombstone has a live one whose root is at or above it. */
  predicate RowOwned(s: Store, k: Key) {
    k in s.rows ==>
      if s.rows[k].deleted then
        && s.rows[k].unit.Some? && s.rows[k].unit.value in s.units
        && s.units[s.rows[k].unit.value].state.Live()
        && UnderRoot(s.rows, k, s.units[s.rows[k].unit.value].root)
      else s.rows[k].unit.None?
  }

  /** The root's own tombstone carries the unit, and the recorded parent is still its parent. */
  predicate RootInPlace(s: Store, u: Id) {
    u in s.units &&
    var unit := s.units[u];
    && unit.root in s.rows && s.rows[unit.root].deleted && s.rows[unit.root].unit == Some(u)
    && match unit.root
       case FolderKey(r) =>
         var path := PathOf(s.rows, unit.root);
         if unit.parentPath.None? then |path| == 1
         else unit.parentPath.value != [] && |path| >= 2 && unit.parentPath.value[|unit.parentPath.value| - 1] == path[|path| - 2]
       case ItemKey(_) => unit.homeFolder == Some(Home(s.rows, unit.root))
  }

  ghost predicate Emptied(rows: Rows, u: Id) {
    forall k {:trigger OwnedBy(rows, k, u)} :: !OwnedBy(rows, k, u)
  }

  predicate PurgeState(state: UnitState) { state.PurgeQueued? || state.Purging? }

  /** Only a purge removes a root, and then nothing of the unit is left. */
  ghost predicate UnitRooted(s: Store, u: Id) {
    u in s.units ==>
      && s.units[u].root.id in s.spent
      && (s.units[u].state.Deleting? ==> s.units[u].root.FolderKey?)
      && (s.units[u].state.Live() ==>
            RootInPlace(s, u)
            || ((PurgeState(s.units[u].state) || s.units[u].state.UnitFailed?) && s.units[u].root !in s.rows && Emptied(s.rows, u)))
  }

  /** From confirmation until a restore is asked for, and again through a purge. */
  predicate Sealing(unit: LifecycleUnit) {
    unit.root.FolderKey? && (unit.state.Deleting? || unit.state.Deleted? || PurgeState(unit.state))
  }

  /** A row owned by another unit belongs to one rooted inside this subtree. */
  predicate OwnerInside(s: Store, k: Key, u: Id, r: Id) {
    k in s.rows && s.rows[k].unit.Some? ==>
      var x := s.rows[k].unit.value;
      x == u || (x in s.units && s.units[x].root in s.rows && Under(s.rows, s.units[x].root, r))
  }

  /** Below a sealing root: everything is tombstoned once DELETED, and no outer unit owns anything. */
  predicate Sealed(s: Store, u: Id, k: Key) {
    u in s.units && Sealing(s.units[u]) && Under(s.rows, k, s.units[u].root.id) ==>
      && (s.units[u].state.Deleting? || s.rows[k].deleted)
      && OwnerInside(s, k, u, s.units[u].root.id)
  }

  /** The nesting gate: a folder unit under purge has no other live unit rooted inside it. */
  predicate Nested(s: Store, u: Id, x: Id) {
    u in s.units && x in s.units && u != x && s.units[u].root.FolderKey? && PurgeState(s.units[u].state)
    && s.units[x].state.Live() && s.units[x].root in s.rows
    ==>
    !Under(s.rows, s.units[x].root, s.units[u].root.id)
  }

  /** A deletion in progress is the outermost one on its path. */
  predicate Outermost(s: Store, u: Id, x: Id) {
    u in s.units && x in s.units && u != x && s.units[u].state.Deleting?
    && s.units[x].state.Live() && s.units[x].root.FolderKey? && s.units[x].root in s.rows
    ==>
    !Under(s.rows, s.units[u].root, s.units[x].root.id)
  }

  ghost predicate Owned(s: Store) { forall k {:trigger RowOwned(s, k)} :: RowOwned(s, k) }
  ghost predicate Rooted(s: Store) { forall u {:trigger UnitRooted(s, u)} :: UnitRooted(s, u) }
  ghost predicate SealedAll(s: Store) { forall u, k {:trigger Sealed(s, u, k)} :: Sealed(s, u, k) }
  ghost predicate NestedAll(s: Store) { forall u, x {:trigger Nested(s, u, x)} :: Nested(s, u, x) }

  ghost predicate OutermostAll(s: Store) { forall u, x {:trigger Outermost(s, u, x)} :: Outermost(s, u, x) }

  ghost predicate Tidy(s: Store) {
    Forest(s.rows) && Owned(s) && Rooted(s) && SealedAll(s) && NestedAll(s) && OutermostAll(s)
  }

  // ---- the visibility gate ----

  /** A live folder unit's root is a tombstone, so nothing below it is visible. */
  lemma GateHides(s: Store, u: Id, k: Key)
    requires Forest(s.rows) && RootInPlace(s, u) && s.units[u].root.FolderKey? && Under(s.rows, k, s.units[u].root.id)
    ensures !VisibleFolder(s.rows, Home(s.rows, k))
    ensures k.ItemKey? ==> !VisibleItem(s.rows, k.id)
  {
    TombstoneHides(s.rows, k, s.units[u].root.id);
  }

  /** No live unit's root folder lies at or above a visible folder. */
  lemma VisibleIsClear(s: Store, f: Id, u: Id)
    requires Forest(s.rows) && UnitRooted(s, u)
    requires VisibleFolder(s.rows, f) && u in s.units && s.units[u].state.Live() && s.units[u].root.FolderKey?
    ensures !Under(s.rows, FolderKey(f), s.units[u].root.id)
  {
    var r := s.units[u].root.id;
    if Under(s.rows, FolderKey(f), r) {
      AncestorPresent(s.rows, FolderKey(f), r);
      TombstoneHides(s.rows, FolderKey(f), r);
    }
  }
}
