/** Burying, raising, inserting, moving and removing rows keeps the store tidy. */
module LifecycleRowSteps {
  import opened Wrappers
  import opened LifecycleTables
  import opened LifecycleSteps
  import opened LifecycleInvariant
  import opened LifecycleKept
  import opened LifecycleRevive

  // ---- a batch of active rows becomes tombstones of a DELETING unit ----

  lemma BuryPlaces(rows: Rows, chosen: set<Key>, u: Id)
    ensures SamePlaces(rows, Tombstoned(rows, chosen, u))
  {
  }

  lemma BurySealed(s: Store, t: Store, chosen: set<Key>, u: Id, w: Id, k: Key)
    requires Tidy(s) && t.units == s.units && t.rows == Tombstoned(s.rows, chosen, u)
    requires RootInPlace(s, u) && s.units[u].root.FolderKey? && s.units[u].state.Deleting?
    requires k in chosen ==> ActiveRow(s.rows, k) && Under(s.rows, k, s.units[u].root.id)
    ensures Sealed(t, w, k)
  {
    BuryPlaces(s.rows, chosen, u);
    assert Sealed(s, w, k) && Outermost(s, w, u);
    if w in t.units && Sealing(t.units[w]) && Under(t.rows, k, t.units[w].root.id) {
      var r := s.units[w].root.id;
      UnderKept(s.rows, t.rows, k, r);
      if k in chosen {
        var root := s.units[u].root;
        AncestorsComparable(s.rows, k, root.id, r);
        UnderKept(s.rows, t.rows, root, r);
      } else if s.rows[k].unit.Some? && s.rows[k].unit.value in s.units {
        var x := s.rows[k].unit.value;
        UnderKept(s.rows, t.rows, s.units[x].root, r);
      }
    }
  }

  ghost predicate Burying(s: Store, t: Store, u: Id, chosen: set<Key>) {
    && t.units == s.units && t.rows == Tombstoned(s.rows, chosen, u) && s.spent <= t.spent
    && RootInPlace(s, u) && s.units[u].root.FolderKey? && s.units[u].state.Deleting?
    && (forall k {:trigger k in chosen} :: k in chosen ==> ActiveRow(s.rows, k) && Under(s.rows, k, s.units[u].root.id))
  }

  lemma RowsBuried(s: Store, t: Store, u: Id, chosen: set<Key>)
    requires Tidy(s) && Burying(s, t, u, chosen)
    ensures Tidy(t)
  {
    BuryPlaces(s.rows, chosen, u);
    ForestKept(s.rows, t.rows);
    forall k ensures RowOwned(t, k) {
      assert RowOwned(s, k);
      if k in s.rows {
        var x := if k in chosen then u else if s.rows[k].unit.Some? then s.rows[k].unit.value else u;
        if x in s.units && s.units[x].root.FolderKey? { UnderKept(s.rows, t.rows, k, s.units[x].root.id); }
      }
    }
    forall w ensures UnitRooted(t, w) { BuryRooted(s, t, chosen, u, w); }
    forall w, k ensures Sealed(t, w, k) { BurySealed(s, t, chosen, u, w, k); }
    forall x, y ensures Nested(t, x, y) { NestedKept(s, t, x, y); }
    forall x, y ensures Outermost(t, x, y) { OutermostKept(s, t, x, y); }
  }

  lemma BuryRooted(s: Store, t: Store, chosen: set<Key>, u: Id, w: Id)
    requires Tidy(s) && t.units == s.units && t.rows == Tombstoned(s.rows, chosen, u) && s.spent <= t.spent
    requires RootInPlace(s, u)
    requires forall k {:trigger k in chosen} :: k in chosen ==> ActiveRow(s.rows, k)
    ensures UnitRooted(t, w)
  {
    BuryPlaces(s.rows, chosen, u);
    assert UnitRooted(s, w);
    if RootInPlace(s, w) { PathKept(s.rows, t.rows, s.units[w].root); assert RootInPlace(t, w); }
    if w in s.units && s.units[w].state.Live() && !RootInPlace(s, w) {
      forall k ensures !OwnedBy(t.rows, k, w) { assert !OwnedBy(s.rows, k, w); }
    }
  }

  lemma NestedKept(s: Store, t: Store, x: Id, y: Id)
    requires Nested(s, x, y) && SamePlaces(s.rows, t.rows) && t.units == s.units
    ensures Nested(t, x, y)
  {
    if x in s.units && y in s.units && s.units[x].root.FolderKey? { UnderKept(s.rows, t.rows, s.units[y].root, s.units[x].root.id); }
    if y in s.units { assert SamePlace(s.rows, t.rows, s.units[y].root); }
  }

  lemma OutermostKept(s: Store, t: Store, x: Id, y: Id)
    requires Outermost(s, x, y) && SamePlaces(s.rows, t.rows) && t.units == s.units
    ensures Outermost(t, x, y)
  {
    if x in s.units && y in s.units && s.units[y].root.FolderKey? {
      UnderKept(s.rows, t.rows, s.units[x].root, s.units[y].root.id);
      assert SamePlace(s.rows, t.rows, s.units[y].root);
    }
  }

  // ---- rows of a unit come back ----

  /** No other live unit's root lies at or above the root of `u`. */
  predicate Clearance(s: Store, u: Id, x: Id) {
    u in s.units && x in s.units && x != u && s.units[x].state.Live() && s.units[x].root.FolderKey? && s.units[x].root in s.rows
    ==>
    !Under(s.rows, s.units[u].root, s.units[x].root.id)
  }

  /**
   The chosen rows of `u` are raised. Either the root stays down and the unit is
   not a sealing one, or only the root is left, it is raised, and the unit ends.
   */
  ghost predicate Raising(s: Store, t: Store, u: Id, chosen: set<Key>) {
    && u in s.units && RootInPlace(s, u) && s.spent <= t.spent && t.rows.Keys == s.rows.Keys
    && (forall k {:trigger k in chosen} :: k in chosen ==> OwnedBy(s.rows, k, u))
    && (forall k {:trigger RowAfter(s.rows, t.rows, k, k in chosen)} :: k in s.rows ==> RowAfter(s.rows, t.rows, k, k in chosen))
    && (forall x {:trigger Clearance(s, u, x)} :: Clearance(s, u, x))
    && if s.units[u].root in chosen then
         && u in t.units && t.units == s.units[u := t.units[u]] && SameUnit(s.units[u], t.units[u]) && !t.units[u].state.Live()
         && (forall k {:trigger OwnedBy(s.rows, k, u)} :: OwnedBy(s.rows, k, u) ==> k in chosen)
       else
         t.units == s.units && !Sealing(s.units[u])
  }

  lemma RaisePlaces(s: Store, t: Store, u: Id, chosen: set<Key>)
    requires Raising(s, t, u, chosen)
    ensures SamePlaces(s.rows, t.rows)
  {
    forall k ensures SamePlace(s.rows, t.rows, k) {
      assert k in s.rows ==> RowAfter(s.rows, t.rows, k, k in chosen);
      assert k in s.rows.Keys <==> k in t.rows.Keys;
    }
  }

  lemma RaiseOwned(s: Store, t: Store, u: Id, chosen: set<Key>, k: Key)
    requires Tidy(s) && Raising(s, t, u, chosen)
    ensures RowOwned(t, k)
  {
    RaisePlaces(s, t, u, chosen);
    assert RowOwned(s, k) && SamePlace(s.rows, t.rows, k);
    if k in s.rows {
      assert RowAfter(s.rows, t.rows, k, k in chosen);
      if s.rows[k].unit.Some? && k !in chosen {
        var x := s.rows[k].unit.value;
        assert x == u ==> OwnedBy(s.rows, k, u);
        if x in s.units && s.units[x].root.FolderKey? { UnderKept(s.rows, t.rows, k, s.units[x].root.id); }
      }
    }
  }

  lemma RaiseRooted(s: Store, t: Store, u: Id, chosen: set<Key>, w: Id)
    requires Tidy(s) && Raising(s, t, u, chosen)
    ensures UnitRooted(t, w)
  {
    RaisePlaces(s, t, u, chosen);
    assert UnitRooted(s, w);
    if w in s.units && s.units[w].state.Live() {
      var root := s.units[w].root;
      if RootInPlace(s, w) {
        assert RowAfter(s.rows, t.rows, root, root in chosen);
        assert OwnedBy(s.rows, root, w);
        if w != u || root !in chosen {
          assert root !in chosen;
          PathKept(s.rows, t.rows, root);
          assert RootInPlace(t, w);
        }
      } else {
        forall k ensures !OwnedBy(t.rows, k, w) {
          assert !OwnedBy(s.rows, k, w) && SamePlace(s.rows, t.rows, k);
          assert k in s.rows ==> RowAfter(s.rows, t.rows, k, k in chosen);
        }
        assert SamePlace(s.rows, t.rows, root);
      }
    }
  }

  /** A raised row lies below no sealing root: its unit's root would, too. */
  lemma RaiseSealed(s: Store, t: Store, u: Id, chosen: set<Key>, w: Id, k: Key)
    requires Tidy(s) && Raising(s, t, u, chosen)
    ensures Sealed(t, w, k)
  {
    RaisePlaces(s, t, u, chosen);
    assert Sealed(s, w, k) && Clearance(s, u, w) && SamePlace(s.rows, t.rows, k) && UnitRooted(s, w);
    if w in t.units && Sealing(t.units[w]) && Under(t.rows, k, t.units[w].root.id) {
      assert w != u;
      var r := s.units[w].root.id;
      UnderKept(s.rows, t.rows, k, r);
      AncestorPresent(s.rows, k, r);
      assert RowAfter(s.rows, t.rows, k, k in chosen) && (k in chosen ==> OwnedBy(s.rows, k, u));
      if k in chosen {
        assert false;
      } else if s.rows[k].unit.Some? && s.rows[k].unit.value in s.units {
        UnderKept(s.rows, t.rows, s.units[s.rows[k].unit.value].root, r);
        assert SamePlace(s.rows, t.rows, s.units[s.rows[k].unit.value].root);
      }
    }
  }

  lemma RowsRaised(s: Store, t: Store, u: Id, chosen: set<Key>)
    requires Tidy(s) && Raising(s, t, u, chosen)
    ensures Tidy(t)
  {
    RaisePlaces(s, t, u, chosen);
    ForestKept(s.rows, t.rows);
    forall k ensures RowOwned(t, k) { RaiseOwned(s, t, u, chosen, k); }
    forall w ensures UnitRooted(t, w) { RaiseRooted(s, t, u, chosen, w); }
    forall w, k ensures Sealed(t, w, k) { RaiseSealed(s, t, u, chosen, w, k); }
    forall x, y ensures Nested(t, x, y) {
      assert Nested(s, x, y);
      NestedKept(s, s.(rows := t.rows), x, y);
    }
    forall x, y ensures Outermost(t, x, y) {
      assert Outermost(s, x, y);
      OutermostKept(s, s.(rows := t.rows), x, y);
    }
  }
}
