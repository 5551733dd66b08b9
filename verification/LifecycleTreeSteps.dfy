/** Creating, moving, starting to delete, and physically removing rows keeps the store tidy. */
module LifecycleTreeSteps {
  import opened Wrappers
  import opened LifecycleTables
  import opened LifecycleSteps
  import opened LifecycleInvariant
  import opened LifecycleKept

  // ---- inserting an active row under a visible parent ----

  /** `h` is the visible folder the new row goes into; a root folder has none. */
  ghost predicate Inserting(s: Store, t: Store, key: Key, row: Row, h: Option<Id>) {
    && key !in s.rows && key.id !in s.spent && t.rows == s.rows[key := row] && t.units == s.units && s.spent <= t.spent
    && !row.deleted && row.unit.None?
    && (h.Some? ==> VisibleFolder(s.rows, h.value))
    && match key
       case FolderKey(id) => row.Folder? && row.path == (if h.Some? then s.rows[FolderKey(h.value)].path else []) + [id]
       case ItemKey(_) => row.Item? && h == Some(row.folder)
  }

  lemma InsertPath(s: Store, t: Store, key: Key, row: Row, h: Option<Id>, k: Key)
    requires Forest(s.rows) && Inserting(s, t, key, row, h) && k in s.rows
    ensures k in t.rows && PathOf(t.rows, k) == PathOf(s.rows, k) && Home(t.rows, k) == Home(s.rows, k)
  {
    HomeSound(s.rows, k);
  }

  lemma InsertForest(s: Store, t: Store, key: Key, row: Row, h: Option<Id>)
    requires Forest(s.rows) && Inserting(s, t, key, row, h)
    ensures Forest(t.rows)
  {
    forall f ensures FolderSound(t.rows, f) { assert FolderSound(s.rows, f); }
    forall i ensures ItemSound(t.rows, i) { assert ItemSound(s.rows, i); }
    forall f, i: nat ensures Chained(t.rows, f, i) {
      assert Chained(s.rows, f, i);
      if FolderKey(f) == key && i < |row.path| - 1 {
        assert Chained(s.rows, h.value, i);
        assert row.path[..i + 1] == s.rows[FolderKey(h.value)].path[..i + 1];
      } else if FolderKey(f) == key && i == |row.path| - 1 {
        assert row.path[..i + 1] == row.path;
      }
    }
  }

  lemma InsertedOutside(s: Store, t: Store, key: Key, row: Row, h: Option<Id>, w: Id)
    requires Tidy(s) && Inserting(s, t, key, row, h)
    requires w in s.units && s.units[w].state.Live() && s.units[w].root.FolderKey?
    ensures !Under(t.rows, key, s.units[w].root.id)
  {
    assert UnitRooted(s, w);
    if h.Some? { VisibleIsClear(s, h.value, w); }
  }

  lemma RowInserted(s: Store, t: Store, key: Key, row: Row, h: Option<Id>)
    requires Tidy(s) && Inserting(s, t, key, row, h)
    ensures Tidy(t)
  {
    InsertForest(s, t, key, row, h);
    forall k ensures RowOwned(t, k) {
      assert RowOwned(s, k);
      if k in s.rows { InsertPath(s, t, key, row, h, k); }
    }
    forall w ensures UnitRooted(t, w) {
      assert UnitRooted(s, w);
      if RootInPlace(s, w) { InsertPath(s, t, key, row, h, s.units[w].root); assert RootInPlace(t, w); }
      if w in s.units && s.units[w].state.Live() && !RootInPlace(s, w) {
        forall k ensures !OwnedBy(t.rows, k, w) { assert !OwnedBy(s.rows, k, w); }
      }
    }
    forall w, k ensures Sealed(t, w, k) {
      assert Sealed(s, w, k) && RowOwned(s, k);
      if w in s.units && Sealing(s.units[w]) && k in t.rows {
        if k == key {
          InsertedOutside(s, t, key, row, h, w);
        } else {
          InsertPath(s, t, key, row, h, k);
          if s.rows[k].unit.Some? && s.units[s.rows[k].unit.value].root in s.rows {
            InsertPath(s, t, key, row, h, s.units[s.rows[k].unit.value].root);
          }
        }
      }
    }
    forall x, y ensures Nested(t, x, y) {
      assert Nested(s, x, y) && UnitRooted(s, y);
      if y in s.units && s.units[y].root in s.rows { InsertPath(s, t, key, row, h, s.units[y].root); }
    }
    forall x, y ensures Outermost(t, x, y) {
      assert Outermost(s, x, y) && UnitRooted(s, x) && UnitRooted(s, y);
      if x in s.units && s.units[x].root in s.rows { InsertPath(s, t, key, row, h, s.units[x].root); }
    }
  }

  // ---- moving a visible folder below a visible one ----

  ghost predicate Moving(s: Store, t: Store, f: Id, dest: Option<Id>) {
    && VisibleFolder(s.rows, f) && (dest.Some? ==> VisibleFolder(s.rows, dest.value))
    && var source := s.rows[FolderKey(f)].path;
    && var destPath := if dest.Some? then s.rows[FolderKey(dest.value)].path else [];
    && !(source <= destPath)
    && t.rows == Moved(s.rows, source, destPath + [f]) && t.units == s.units && s.spent <= t.spent
  }

  /** Where a row's path goes. */
  function MovedPath(path: Path, source: Path, target: Path): Path {
    if source <= path then target + path[|source|..] else path
  }

  function DestPath(s: Store, dest: Option<Id>): Path
    requires dest.Some? ==> VisibleFolder(s.rows, dest.value)
  {
    if dest.Some? then s.rows[FolderKey(dest.value)].path else []
  }

  lemma MovePath(s: Store, t: Store, f: Id, dest: Option<Id>, k: Key)
    requires Forest(s.rows) && Moving(s, t, f, dest)
    ensures k in s.rows <==> k in t.rows
    ensures k in s.rows ==>
      && PathOf(t.rows, k) == MovedPath(PathOf(s.rows, k), s.rows[FolderKey(f)].path, DestPath(s, dest) + [f])
      && Home(t.rows, k) == Home(s.rows, k)
  {
    if k in s.rows { HomeSound(s.rows, k); }
  }

  lemma MoveForest(s: Store, t: Store, f: Id, dest: Option<Id>)
    requires Forest(s.rows) && Moving(s, t, f, dest)
    ensures Forest(t.rows)
  {
    var source := s.rows[FolderKey(f)].path;
    assert FolderSound(s.rows, f);
    forall g ensures FolderSound(t.rows, g) { assert FolderSound(s.rows, g); }
    forall i ensures ItemSound(t.rows, i) { assert ItemSound(s.rows, i); }
    forall g, i: nat ensures Chained(t.rows, g, i) {
      if FolderKey(g) in s.rows { MoveChained(s, t, f, dest, g, i); }
    }
  }

  lemma MoveChained(s: Store, t: Store, f: Id, dest: Option<Id>, g: Id, i: nat)
    requires Forest(s.rows) && Moving(s, t, f, dest) && FolderKey(g) in s.rows
    ensures Chained(t.rows, g, i)
  {
    var source, destPath := s.rows[FolderKey(f)].path, DestPath(s, dest);
    var target := destPath + [f];
    assert FolderSound(s.rows, g) && FolderSound(s.rows, f);
    var path := s.rows[FolderKey(g)].path;
    if source <= path {
      var moved := target + path[|source|..];
      if i < |destPath| {
        assert Chained(s.rows, dest.value, i);
        assert moved[..i + 1] == destPath[..i + 1] && moved[i] == destPath[i];
        assert !(source <= destPath[..i + 1]);
      } else if i == |destPath| {
        assert moved[i] == f && moved[..i + 1] == target;
        assert target + source[|source|..] == target;
      } else if i < |moved| {
        var j := i - |target| + |source|;
        assert Chained(s.rows, g, j);
        assert moved[i] == path[j];
        assert source <= path[..j + 1];
        assert path[..j + 1][|source|..] == path[|source|..][..j + 1 - |source|];
        assert moved[..i + 1] == target + path[..j + 1][|source|..];
      }
    } else {
      assert Chained(s.rows, g, i);
      if i < |path| { assert !(source <= path[..i + 1]); }
    }
  }

  /** A tombstoned folder's subtree has the same members after the move. */
  lemma MoveUnder(s: Store, t: Store, f: Id, dest: Option<Id>, k: Key, r: Id)
    requires Forest(s.rows) && Moving(s, t, f, dest)
    requires FolderKey(r) in s.rows && s.rows[FolderKey(r)].deleted
    ensures Under(s.rows, k, r) <==> Under(t.rows, k, r)
  {
    MovePath(s, t, f, dest, k);
    if k in s.rows {
      var source, destPath := s.rows[FolderKey(f)].path, DestPath(s, dest);
      var path := PathOf(s.rows, k);
      if source <= path {
        if r in source { TombstoneHides(s.rows, FolderKey(f), r); }
        if r in destPath { TombstoneHides(s.rows, FolderKey(dest.value), r); }
        assert path == source + path[|source|..];
      }
    }
  }

  lemma MoveRooted(s: Store, t: Store, f: Id, dest: Option<Id>, w: Id)
    requires Tidy(s) && Moving(s, t, f, dest)
    ensures UnitRooted(t, w)
    ensures RootInPlace(s, w) ==> RootInPlace(t, w)
  {
    assert UnitRooted(s, w);
    if RootInPlace(s, w) {
      var root := s.units[w].root;
      MovePath(s, t, f, dest, root);
      HomeSound(s.rows, root);
      HomeSound(s.rows, FolderKey(f));
      if root.FolderKey? {
        var source, path := s.rows[FolderKey(f)].path, PathOf(s.rows, root);
        assert source <= path && |path| == |source| ==> path == source;
      }
      assert RootInPlace(t, w);
    } else if w in s.units && s.units[w].state.Live() {
      forall k ensures !OwnedBy(t.rows, k, w) { assert !OwnedBy(s.rows, k, w); MovePath(s, t, f, dest, k); }
      MovePath(s, t, f, dest, s.units[w].root);
    }
  }

  lemma MoveOwned(s: Store, t: Store, f: Id, dest: Option<Id>, k: Key)
    requires Tidy(s) && Moving(s, t, f, dest)
    ensures RowOwned(t, k)
  {
    assert RowOwned(s, k);
    MovePath(s, t, f, dest, k);
    if k in s.rows && s.rows[k].deleted {
      var x := s.rows[k].unit.value;
      assert UnitRooted(s, x) && OwnedBy(s.rows, k, x);
      if s.units[x].root.FolderKey? { MoveUnder(s, t, f, dest, k, s.units[x].root.id); }
    }
  }

  lemma MoveSealed(s: Store, t: Store, f: Id, dest: Option<Id>, w: Id, k: Key)
    requires Tidy(s) && Moving(s, t, f, dest) && Forest(t.rows)
    ensures Sealed(t, w, k)
  {
    assert Sealed(s, w, k) && UnitRooted(s, w) && RowOwned(s, k);
    if w in s.units && Sealing(s.units[w]) && Under(t.rows, k, s.units[w].root.id) {
      var r := s.units[w].root.id;
      AncestorPresent(t.rows, k, r);
      MovePath(s, t, f, dest, FolderKey(r));
      MovePath(s, t, f, dest, k);
      MoveUnder(s, t, f, dest, k, r);
      if s.rows[k].unit.Some? {
        var x := s.rows[k].unit.value;
        MovePath(s, t, f, dest, s.units[x].root);
        MoveUnder(s, t, f, dest, s.units[x].root, r);
      }
    }
  }

  lemma SubtreeMoved(s: Store, t: Store, f: Id, dest: Option<Id>)
    requires Tidy(s) && Moving(s, t, f, dest)
    ensures Tidy(t)
  {
    MoveForest(s, t, f, dest);
    forall k ensures RowOwned(t, k) { MoveOwned(s, t, f, dest, k); }
    forall w ensures UnitRooted(t, w) { MoveRooted(s, t, f, dest, w); }
    forall w, k ensures Sealed(t, w, k) { MoveSealed(s, t, f, dest, w, k); }
    forall x, y ensures Nested(t, x, y) {
      assert Nested(s, x, y);
      if x in s.units && y in s.units && s.units[x].root.FolderKey? && s.units[x].state.Live() {
        MoveRootPair(s, t, f, dest, y, x);
      }
    }
    forall x, y ensures Outermost(t, x, y) {
      assert Outermost(s, x, y);
      if x in s.units && y in s.units && s.units[y].root.FolderKey? && s.units[y].state.Live() {
        MoveRootPair(s, t, f, dest, x, y);
      }
    }
  }

  /** One unit's root lies below another's before the move iff it does after. */
  lemma MoveRootPair(s: Store, t: Store, f: Id, dest: Option<Id>, x: Id, y: Id)
    requires Tidy(s) && Moving(s, t, f, dest) && Forest(t.rows)
    requires x in s.units && y in s.units && s.units[y].root.FolderKey? && s.units[y].state.Live()
    ensures s.units[x].root in s.rows <==> s.units[x].root in t.rows
    ensures s.units[y].root in s.rows <==> s.units[y].root in t.rows
    ensures Under(s.rows, s.units[x].root, s.units[y].root.id) <==> Under(t.rows, s.units[x].root, s.units[y].root.id)
  {
    var root, r := s.units[x].root, s.units[y].root.id;
    MovePath(s, t, f, dest, root);
    MovePath(s, t, f, dest, FolderKey(r));
    assert UnitRooted(s, y);
    if FolderKey(r) in s.rows {
      MoveUnder(s, t, f, dest, root, r);
    } else {
      if Under(s.rows, root, r) { AncestorPresent(s.rows, root, r); }
      if Under(t.rows, root, r) { AncestorPresent(t.rows, root, r); }
    }
  }

  // ---- a visible row becomes the root of a new unit ----

  ghost predicate Founding(s: Store, t: Store, u: Id, key: Key) {
    && u !in s.units && u in t.units && t.units == s.units[u := t.units[u]] && s.spent <= t.spent && key.id in t.spent
    && key in s.rows && !s.rows[key].deleted && VisibleFolder(s.rows, Home(s.rows, key))
    && t.rows == s.rows[key := s.rows[key].Buried(u)]
    && t.units[u].root == key
    && (t.units[u].state.Deleted? || (t.units[u].state.Deleting? && key.FolderKey?))
    && (match key
        case FolderKey(f) =>
          && t.units[u].parentPath == ParentPath(PathOf(s.rows, key))
          && (t.units[u].state.Deleted? ==>
                forall k {:trigger Under(s.rows, k, f)} :: Under(s.rows, k, f) && k != key ==> s.rows[k].deleted)
          && (forall w {:trigger UnitRooted(s, w)} ::
                w in s.units && s.units[w].state.Deleting? ==> !Under(s.rows, s.units[w].root, f))
        case ItemKey(_) => t.units[u].homeFolder == Some(Home(s.rows, key)))
  }

  lemma FoundPlaces(s: Store, t: Store, u: Id, key: Key)
    requires Founding(s, t, u, key)
    ensures SamePlaces(s.rows, t.rows)
  {
  }

  /** No live folder root lies at or above the new root. */
  lemma FoundOutside(s: Store, t: Store, u: Id, key: Key, w: Id)
    requires Tidy(s) && Founding(s, t, u, key)
    requires w in s.units && s.units[w].state.Live() && s.units[w].root.FolderKey?
    ensures !Under(s.rows, key, s.units[w].root.id)
  {
    assert UnitRooted(s, w);
    HomeSound(s.rows, key);
    VisibleIsClear(s, Home(s.rows, key), w);
    HomeSound(s.rows, FolderKey(Home(s.rows, key)));
  }

  lemma FoundOwned(s: Store, t: Store, u: Id, key: Key, k: Key)
    requires Tidy(s) && Founding(s, t, u, key)
    ensures RowOwned(t, k)
  {
    FoundPlaces(s, t, u, key);
    assert RowOwned(s, k);
    if k == key {
      if key.FolderKey? { SelfUnder(s.rows, key.id); UnderKept(s.rows, t.rows, key, key.id); }
    } else if k in s.rows && s.rows[k].deleted {
      var x := s.rows[k].unit.value;
      if s.units[x].root.FolderKey? { UnderKept(s.rows, t.rows, k, s.units[x].root.id); }
    }
  }

  lemma FoundRooted(s: Store, t: Store, u: Id, key: Key, w: Id)
    requires Tidy(s) && Founding(s, t, u, key)
    ensures UnitRooted(t, w)
  {
    FoundPlaces(s, t, u, key);
    assert UnitRooted(s, w);
    if w == u {
      PathKept(s.rows, t.rows, key);
      HomeSound(s.rows, key);
      assert RootInPlace(t, u);
    } else if w in s.units && s.units[w].state.Live() {
      if RootInPlace(s, w) {
        PathKept(s.rows, t.rows, s.units[w].root);
        assert RootInPlace(t, w);
      } else {
        forall k ensures !OwnedBy(t.rows, k, w) { assert !OwnedBy(s.rows, k, w); }
      }
    }
  }

  lemma FoundSealed(s: Store, t: Store, u: Id, key: Key, w: Id, k: Key)
    requires Tidy(s) && Founding(s, t, u, key)
    ensures Sealed(t, w, k)
  {
    FoundPlaces(s, t, u, key);
    assert Sealed(s, w, k) && RowOwned(s, k);
    if w in t.units && Sealing(t.units[w]) && Under(t.rows, k, t.units[w].root.id) {
      var r := t.units[w].root.id;
      UnderKept(s.rows, t.rows, k, r);
      if w != u { FoundOutside(s, t, u, key, w); }
      if k != key && s.rows[k].unit.Some? {
        var x := s.rows[k].unit.value;
        OwnerComparable(s, k, r);
        UnderKept(s.rows, t.rows, s.units[x].root, r);
        if w == u && s.units[x].root.FolderKey? { FoundOutside(s, t, u, key, x); }
      }
    }
  }

  lemma UnitFounded(s: Store, t: Store, u: Id, key: Key)
    requires Tidy(s) && Founding(s, t, u, key)
    ensures Tidy(t)
  {
    FoundPlaces(s, t, u, key);
    ForestKept(s.rows, t.rows);
    forall k ensures RowOwned(t, k) { FoundOwned(s, t, u, key, k); }
    forall w ensures UnitRooted(t, w) { FoundRooted(s, t, u, key, w); }
    forall w, k ensures Sealed(t, w, k) { FoundSealed(s, t, u, key, w, k); }
    forall x, y ensures Nested(t, x, y) {
      assert Nested(s, x, y);
      if x in s.units && y in t.units && t.units[x].root.FolderKey? && PurgeState(s.units[x].state) {
        UnderKept(s.rows, t.rows, t.units[y].root, s.units[x].root.id);
        if y == u { FoundOutside(s, t, u, key, x); }
      }
    }
    forall x, y ensures Outermost(t, x, y) {
      assert Outermost(s, x, y) && UnitRooted(s, x);
      if x in t.units && y in t.units && x != y && t.units[y].root.FolderKey? && t.units[y].state.Live() {
        UnderKept(s.rows, t.rows, t.units[x].root, t.units[y].root.id);
        if x == u { FoundOutside(s, t, u, key, y); }
      }
    }
  }

  // ---- a purge removes one row ----

  ghost predicate Removing(s: Store, t: Store, u: Id, key: Key) {
    && u in s.units && PurgeState(s.units[u].state) && OwnedBy(s.rows, key, u)
    && t.rows == s.rows - {key} && t.units == s.units && s.spent <= t.spent
    && (key.FolderKey? ==>
          && (forall k :: k in s.rows && s.rows[k].Item? ==> s.rows[k].folder != key.id)
          && (forall k :: k in s.rows && s.rows[k].Folder? && s.rows[k].unit == Some(u) && k != key && s.rows[key].Folder?
                ==> !(s.rows[key].path <= s.rows[k].path)))
  }

  /** The leaf the purge takes has nothing below it, of this unit or any other. */
  lemma LeafIsBare(s: Store, t: Store, u: Id, f: Id, k: Key)
    requires Tidy(s) && Removing(s, t, u, FolderKey(f)) && Under(s.rows, k, f)
    ensures k == FolderKey(f)
  {
    var key := FolderKey(f);
    HomeSound(s.rows, key);
    HomeSound(s.rows, k);
    AncestorPresent(s.rows, k, f);
    if k != key {
      var g := FolderKey(Home(s.rows, k));
      HomeSound(s.rows, g);
      assert Under(s.rows, g, f) && g != key;
      BareFolder(s, t, u, f, g);
    }
  }

  lemma BareFolder(s: Store, t: Store, u: Id, f: Id, g: Key)
    requires Tidy(s) && Removing(s, t, u, FolderKey(f)) && g.FolderKey? && Under(s.rows, g, f)
    ensures g == FolderKey(f)
  {
    var key := FolderKey(f);
    HomeSound(s.rows, key);
    HomeSound(s.rows, g);
    assert RowOwned(s, key) && RowOwned(s, g);
    var r := s.units[u].root.id;
    UnderTransitive(s.rows, g, f, r);
    assert Sealed(s, u, g);
    AncestorPresent(s.rows, g, f);
    var x := s.rows[g].unit.value;
    assert Nested(s, u, x);
  }

  lemma RemoveForest(s: Store, t: Store, u: Id, key: Key)
    requires Tidy(s) && Removing(s, t, u, key)
    ensures Forest(t.rows)
  {
    forall f ensures FolderSound(t.rows, f) { assert FolderSound(s.rows, f); }
    forall i ensures ItemSound(t.rows, i) { assert ItemSound(s.rows, i); }
    forall f, i: nat ensures Chained(t.rows, f, i) {
      assert Chained(s.rows, f, i);
      if key.FolderKey? && Under(s.rows, FolderKey(f), key.id) { LeafIsBare(s, t, u, key.id, FolderKey(f)); }
    }
  }

  lemma RemovePath(s: Store, t: Store, u: Id, key: Key, k: Key)
    requires Tidy(s) && Removing(s, t, u, key) && k in t.rows
    ensures k in s.rows && t.rows[k] == s.rows[k] && PathOf(t.rows, k) == PathOf(s.rows, k)
  {
  }

  lemma RemoveRooted(s: Store, t: Store, u: Id, key: Key, w: Id)
    requires Tidy(s) && Removing(s, t, u, key)
    ensures UnitRooted(t, w)
  {
    assert UnitRooted(s, w);
    if w in s.units && s.units[w].state.Live() {
      var root := s.units[w].root;
      if RootInPlace(s, w) && root != key {
        RemovePath(s, t, u, key, root);
        assert RootInPlace(t, w);
      } else {
        forall k ensures !OwnedBy(t.rows, k, w) {
          assert RowOwned(s, k);
          if k in t.rows && RootInPlace(s, w) && s.rows[k].unit == Some(w) && key.FolderKey? { LeafIsBare(s, t, u, key.id, k); }
          assert !RootInPlace(s, w) ==> !OwnedBy(s.rows, k, w);
        }
      }
    }
  }

  lemma RowRemoved(s: Store, t: Store, u: Id, key: Key)
    requires Tidy(s) && Removing(s, t, u, key)
    ensures Tidy(t)
  {
    RemoveForest(s, t, u, key);
    forall k ensures RowOwned(t, k) {
      assert RowOwned(s, k);
      if k in t.rows { RemovePath(s, t, u, key, k); }
    }
    forall w ensures UnitRooted(t, w) { RemoveRooted(s, t, u, key, w); }
    forall w, k ensures Sealed(t, w, k) { RemoveSealed(s, t, u, key, w, k); }
    forall x, y ensures Nested(t, x, y) {
      assert Nested(s, x, y);
      if y in t.units && t.units[y].root in t.rows { RemovePath(s, t, u, key, t.units[y].root); }
    }
    forall x, y ensures Outermost(t, x, y) {
      assert Outermost(s, x, y);
      if x in t.units && t.units[x].root in t.rows { RemovePath(s, t, u, key, t.units[x].root); }
    }
  }

  lemma RemoveSealed(s: Store, t: Store, u: Id, key: Key, w: Id, k: Key)
    requires Tidy(s) && Removing(s, t, u, key)
    ensures Sealed(t, w, k)
  {
    assert Sealed(s, w, k) && RowOwned(s, k);
    if w in t.units && Sealing(t.units[w]) && Under(t.rows, k, t.units[w].root.id) {
      RemovePath(s, t, u, key, k);
      if s.rows[k].unit.Some? && s.rows[k].unit.value != w {
        var x := s.rows[k].unit.value;
        RemoveRooted(s, t, u, key, x);
        assert OwnedBy(t.rows, k, x);
        RemovePath(s, t, u, key, s.units[x].root);
      }
    }
  }
}
