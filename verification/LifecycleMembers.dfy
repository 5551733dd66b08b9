/**
 The members of a deleted subtree. From the moment a unit is founded until it is
 restored or cancelled, no step of a disciplined run adds or removes a member,
 although deletions, restores and purges of other units go on above and below.
 */
module LifecycleMembers {
  import opened Wrappers
  import opened LifecycleTables
  import opened LifecycleSteps
  import opened LifecycleRuns
  import opened LifecycleRevive
  import opened LifecycleInvariant
  import opened LifecycleKept
  import opened LifecycleRowSteps
  import opened LifecycleTreeSteps
  import opened LifecycleDiscipline

  /** Unit `x` is rooted at or above the root of `u`. */
  predicate OwnerAbove(s: Store, x: Id, u: Id) {
    x in s.units && u in s.units && s.units[x].root.FolderKey? && Under(s.rows, s.units[u].root, s.units[x].root.id)
  }

  /** Below the root, and active or buried by this deletion or by one further up. */
  predicate Member(s: Store, u: Id, k: Key) {
    && u in s.units && UnderRoot(s.rows, k, s.units[u].root)
    && (s.rows[k].deleted ==> s.rows[k].unit.Some? && OwnerAbove(s, s.rows[k].unit.value, u))
  }

  /** A folder unit that is neither finished nor under purge; its root closes the gate. */
  predicate Standing(s: Store, u: Id) {
    RootInPlace(s, u) && s.units[u].root.FolderKey? && s.units[u].state.Live() && !PurgeState(s.units[u].state)
  }

  /** The marks a deletion changes. */
  predicate SameMarks(a: Row, b: Row) {
    a.deleted == b.deleted && a.unit == b.unit
  }

  /**
   What one effect may do to row `k` below the root of a standing unit: members
   stay members, and a row of a unit nested inside is left alone or purged.
   */
  predicate RowKept(s: Store, t: Store, u: Id, k: Key) {
    && (Member(s, u, k) <==> Member(t, u, k))
    && (u in t.units && UnderRoot(t.rows, k, t.units[u].root) && !Member(t, u, k) ==>
          k in s.rows && UnderRoot(s.rows, k, t.units[u].root) && SameMarks(s.rows[k], t.rows[k]))
  }

  /** Rows and roots as before: membership reads nothing else. */
  lemma SameRowsKept(s: Store, t: Store, u: Id, k: Key)
    requires Tidy(s) && Standing(s, u) && t.rows == s.rows && s.units.Keys <= t.units.Keys
    requires forall x :: x in s.units ==> t.units[x].root == s.units[x].root
    ensures RowKept(s, t, u, k)
  {
    assert RowOwned(s, k);
  }

  lemma InsertKept(s: Store, t: Store, u: Id, k: Key, key: Key, row: Row, h: Option<Id>)
    requires Tidy(s) && Standing(s, u) && Inserting(s, t, key, row, h)
    ensures RowKept(s, t, u, k)
  {
    assert RowOwned(s, k);
    if k == key {
      InsertedOutside(s, t, key, row, h, u);
    } else if k in s.rows {
      InsertPath(s, t, key, row, h, k);
      InsertPath(s, t, key, row, h, s.units[u].root);
    }
  }

  lemma MoveKept(s: Store, t: Store, u: Id, k: Key, f: Id, dest: Option<Id>)
    requires Tidy(s) && Tidy(t) && Standing(s, u) && Moving(s, t, f, dest)
    ensures RowKept(s, t, u, k)
  {
    MovePath(s, t, f, dest, k);
    MoveUnder(s, t, f, dest, k, s.units[u].root.id);
    if k in s.rows && s.rows[k].unit.Some? {
      var x := s.rows[k].unit.value;
      assert RowOwned(s, k) && UnitRooted(s, x) && OwnedBy(s.rows, k, x);
      if s.units[x].root.FolderKey? { MoveRootPair(s, t, f, dest, u, x); }
    }
  }

  lemma FoundKept(s: Store, t: Store, u: Id, k: Key, x: Id, key: Key)
    requires Tidy(s) && Standing(s, u) && Founding(s, t, x, key)
    ensures RowKept(s, t, u, k)
  {
    assert RowOwned(s, k);
    FoundPlaces(s, t, x, key);
    UnderKept(s.rows, t.rows, k, s.units[u].root.id);
    FoundOutside(s, t, x, key, u);
    if k in s.rows && s.rows[k].unit.Some? && s.units[s.rows[k].unit.value].root.FolderKey? {
      UnderKept(s.rows, t.rows, s.units[u].root, s.units[s.rows[k].unit.value].root.id);
    }
  }

  lemma BuryKept(s: Store, t: Store, u: Id, k: Key, x: Id, chosen: set<Key>)
    requires Tidy(s) && Standing(s, u) && Burying(s, t, x, chosen)
    ensures RowKept(s, t, u, k)
  {
    assert RowOwned(s, k) && Outermost(s, x, u);
    BuryPlaces(s.rows, chosen, x);
    UnderKept(s.rows, t.rows, k, s.units[u].root.id);
    UnderKept(s.rows, t.rows, s.units[u].root, s.units[x].root.id);
    if k in s.rows {
      if k in chosen && Under(s.rows, k, s.units[u].root.id) {
        AncestorsComparable(s.rows, k, s.units[x].root.id, s.units[u].root.id);
        SelfUnder(s.rows, s.units[u].root.id);
      } else if s.rows[k].unit.Some? && s.units[s.rows[k].unit.value].root.FolderKey? {
        UnderKept(s.rows, t.rows, s.units[u].root, s.units[s.rows[k].unit.value].root.id);
      }
    }
  }

  lemma RaiseKept(s: Store, t: Store, u: Id, k: Key, x: Id, chosen: set<Key>)
    requires Tidy(s) && Standing(s, u) && Raising(s, t, x, chosen)
    ensures RowKept(s, t, u, k)
  {
    assert RowOwned(s, k) && Clearance(s, x, u);
    RaisePlaces(s, t, x, chosen);
    UnderKept(s.rows, t.rows, k, s.units[u].root.id);
    if k in s.rows {
      assert RowAfter(s.rows, t.rows, k, k in chosen) && (k in chosen ==> OwnedBy(s.rows, k, x));
      if k in chosen && Under(s.rows, k, s.units[u].root.id) {
        OwnerComparable(s, k, s.units[u].root.id);
        SelfUnder(s.rows, s.units[u].root.id);
      } else if s.rows[k].unit.Some? && s.units[s.rows[k].unit.value].root.FolderKey? {
        UnderKept(s.rows, t.rows, s.units[u].root, s.units[s.rows[k].unit.value].root.id);
      }
    }
  }

  lemma RemoveKept(s: Store, t: Store, u: Id, k: Key, x: Id, key: Key)
    requires Tidy(s) && Standing(s, u) && Removing(s, t, x, key)
    ensures RowKept(s, t, u, k)
  {
    assert RowOwned(s, k) && Nested(s, x, u) && RowOwned(s, s.units[u].root);
    if k in t.rows {
      RemovePath(s, t, x, key, k);
    }
    RemovePath(s, t, x, key, s.units[u].root);
  }
}
