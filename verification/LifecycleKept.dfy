/** Each way a transaction changes rows and units keeps them tidy. */
module LifecycleKept {
  import opened Wrappers
  import opened LifecycleTables
  import opened LifecycleSteps
  import opened LifecycleInvariant

  // ---- changes that move no row ----

  predicate SamePlace(a: Rows, b: Rows, k: Key) {
    && (k in a <==> k in b)
    && (k in a ==> a[k].Folder? == b[k].Folder? && (if a[k].Folder? then a[k].path == b[k].path else a[k].folder == b[k].folder))
  }

  ghost predicate SamePlaces(a: Rows, b: Rows) {
    forall k {:trigger SamePlace(a, b, k)} :: SamePlace(a, b, k)
  }

  lemma PathKept(a: Rows, b: Rows, k: Key)
    requires SamePlaces(a, b) && k in a
    ensures k in b && PathOf(a, k) == PathOf(b, k) && Home(a, k) == Home(b, k)
  {
    assert SamePlace(a, b, k);
    assert SamePlace(a, b, FolderKey(Home(a, k)));
  }

  lemma UnderKept(a: Rows, b: Rows, k: Key, r: Id)
    requires SamePlaces(a, b)
    ensures Under(a, k, r) <==> Under(b, k, r)
  {
    assert SamePlace(a, b, k);
    if k in a { PathKept(a, b, k); }
  }

  lemma ForestKept(a: Rows, b: Rows)
    requires Forest(a) && SamePlaces(a, b)
    ensures Forest(b)
  {
    forall f ensures FolderSound(b, f) { assert FolderSound(a, f) && SamePlace(a, b, FolderKey(f)); }
    forall i ensures ItemSound(b, i) {
      assert ItemSound(a, i) && SamePlace(a, b, ItemKey(i));
      if ItemKey(i) in b { assert SamePlace(a, b, FolderKey(b[ItemKey(i)].folder)); }
    }
    forall f, i: nat ensures Chained(b, f, i) {
      assert Chained(a, f, i) && SamePlace(a, b, FolderKey(f));
      if FolderKey(f) in b && b[FolderKey(f)].Folder? && i < |b[FolderKey(f)].path| {
        assert SamePlace(a, b, FolderKey(b[FolderKey(f)].path[i]));
      }
    }
  }

  /** A unit's record keeps its root and what it recorded about the parent. */
  predicate SameUnit(a: LifecycleUnit, b: LifecycleUnit) {
    a.root == b.root && a.parentPath == b.parentPath && a.homeFolder == b.homeFolder
  }

  /** No row changes and one live unit moves to another live state. */
  ghost predicate StateMoving(s: Store, t: Store, u: Id) {
    && t.rows == s.rows && s.spent <= t.spent
    && u in s.units && u in t.units && t.units == s.units[u := t.units[u]] && SameUnit(s.units[u], t.units[u])
    && s.units[u].state.Live() && t.units[u].state.Live()
    && (t.units[u].state.Deleting? ==> s.units[u].state.Deleting?)
    && (PurgeState(s.units[u].state) || s.units[u].state.UnitFailed? ==> PurgeState(t.units[u].state) || t.units[u].state.UnitFailed?)
    && (Sealing(t.units[u]) ==> Sealing(s.units[u]))
    && (Sealing(t.units[u]) && !t.units[u].state.Deleting? && s.units[u].state.Deleting? ==>
          forall k {:trigger Under(s.rows, k, s.units[u].root.id)} :: Under(s.rows, k, s.units[u].root.id) ==> s.rows[k].deleted)
    && (PurgeState(t.units[u].state) && !PurgeState(s.units[u].state) ==> forall x {:trigger Nested(t, u, x)} :: Nested(t, u, x))
  }

  lemma StateMoved(s: Store, t: Store, u: Id)
    requires Tidy(s) && StateMoving(s, t, u)
    ensures Tidy(t)
  {
    forall k ensures RowOwned(t, k) { assert RowOwned(s, k); }
    forall x ensures UnitRooted(t, x) {
      assert UnitRooted(s, x);
      if RootInPlace(s, x) { assert RootInPlace(t, x); }
    }
    forall x, k ensures Sealed(t, x, k) { assert Sealed(s, x, k); }
    forall x, y ensures Nested(t, x, y) { assert Nested(s, x, y); }
    forall x, y ensures Outermost(t, x, y) { assert Outermost(s, x, y); }
  }

  /** No row changes and a unit that owns nothing any more ends. */
  ghost predicate UnitEnding(s: Store, t: Store, u: Id) {
    && t.rows == s.rows && s.spent <= t.spent
    && u in s.units && u in t.units && t.units == s.units[u := t.units[u]] && SameUnit(s.units[u], t.units[u])
    && !t.units[u].state.Live() && Emptied(s.rows, u)
  }

  lemma UnitEnded(s: Store, t: Store, u: Id)
    requires Tidy(s) && UnitEnding(s, t, u)
    ensures Tidy(t)
  {
    forall k ensures RowOwned(t, k) { assert RowOwned(s, k) && !OwnedBy(s.rows, k, u); }
    forall x ensures UnitRooted(t, x) {
      assert UnitRooted(s, x);
      if RootInPlace(s, x) && x != u { assert RootInPlace(t, x); }
    }
    forall x, k ensures Sealed(t, x, k) { assert Sealed(s, x, k) && !OwnedBy(s.rows, k, u); }
    forall x, y ensures Nested(t, x, y) { assert Nested(s, x, y); }
    forall x, y ensures Outermost(t, x, y) { assert Outermost(s, x, y); }
  }

  /** Only job tables change. */
  lemma RowsAndUnitsKept(s: Store, t: Store)
    requires Tidy(s) && t.rows == s.rows && t.units == s.units && s.spent <= t.spent
    ensures Tidy(t)
  {
    forall k ensures RowOwned(t, k) { assert RowOwned(s, k); }
    forall x ensures UnitRooted(t, x) {
      assert UnitRooted(s, x);
      if RootInPlace(s, x) { assert RootInPlace(t, x); }
    }
    forall x, k ensures Sealed(t, x, k) { assert Sealed(s, x, k); }
    forall x, y ensures Nested(t, x, y) { assert Nested(s, x, y); }
    forall x, y ensures Outermost(t, x, y) { assert Outermost(s, x, y); }
  }

  // ---- facts about roots ----

  /** Folders on each other's paths are one folder. */
  lemma MutualUnder(rows: Rows, r: Id, t: Id)
    requires Forest(rows) && FolderKey(r) in rows && FolderKey(t) in rows
    requires Under(rows, FolderKey(r), t) && Under(rows, FolderKey(t), r)
    ensures r == t
  {
    AncestorPresent(rows, FolderKey(r), t);
    AncestorPresent(rows, FolderKey(t), r);
    HomeSound(rows, FolderKey(r));
    HomeSound(rows, FolderKey(t));
  }

  lemma SelfUnder(rows: Rows, r: Id)
    requires Forest(rows) && FolderKey(r) in rows
    ensures Under(rows, FolderKey(r), r)
  {
    HomeSound(rows, FolderKey(r));
  }

  /** The owner of a row below `r` is rooted inside `r`, or at or above it. */
  lemma OwnerComparable(s: Store, k: Key, r: Id)
    requires Tidy(s) && Under(s.rows, k, r) && s.rows[k].unit.Some?
    ensures
      var x := s.rows[k].unit.value;
      && x in s.units && s.units[x].state.Live() && RootInPlace(s, x) && FolderKey(r) in s.rows
      && (Under(s.rows, s.units[x].root, r)
          || (s.units[x].root.FolderKey? && Under(s.rows, FolderKey(r), s.units[x].root.id)))
  {
    var x := s.rows[k].unit.value;
    assert RowOwned(s, k);
    assert OwnedBy(s.rows, k, x);
    assert UnitRooted(s, x);
    AncestorPresent(s.rows, k, r);
    if s.units[x].root.FolderKey? { AncestorsComparable(s.rows, k, s.units[x].root.id, r); }
  }

  /** A restorable unit's root has no other live unit's root above it. */
  lemma RestorableIsOutermost(s: Store, u: Id, x: Id)
    requires Tidy(s) && u in s.units && RestoreRefusal(s, u).None? && RootInPlace(s, u)
    requires x in s.units && x != u && s.units[x].state.Live() && s.units[x].root.FolderKey? && s.units[x].root in s.rows
    ensures !Under(s.rows, s.units[u].root, s.units[x].root.id)
  {
    var unit, r := s.units[u], s.units[x].root.id;
    assert UnitRooted(s, x);
    HomeSound(s.rows, unit.root);
    match unit.root
    case FolderKey(f) =>
      var path := PathOf(s.rows, unit.root);
      if unit.parentPath.Some? && Under(s.rows, unit.root, r) && r != f {
        var k :| k in s.rows && k.FolderKey? && s.rows[k].Folder? && s.rows[k].path == unit.parentPath.value && VisibleFolder(s.rows, k.id);
        HomeSound(s.rows, k);
        assert Chained(s.rows, f, |path| - 2);
        assert path == path[..|path| - 1] + [f];
        assert r in path[..|path| - 1];
        assert Under(s.rows, k, r);
        VisibleIsClear(s, k.id, x);
      }
    case ItemKey(i) =>
      if Under(s.rows, unit.root, r) { VisibleIsClear(s, unit.homeFolder.value, x); }
  }
}
