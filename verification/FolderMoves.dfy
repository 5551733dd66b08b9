module FolderMoves {
  // What moving a folder does to the tree: the subtree is carried as it is,
  // tombstones included, nothing else changes, and moving it back undoes the move.

  import opened Wrappers
  import opened Paths
  import opened LifecycleTables
  import opened LifecycleSteps
  import opened LifecycleTreeSteps

  /** In a forest a path belongs to one folder, the one it ends in. */
  lemma PathsUnique(rows: Rows, f: Id, g: Id)
    requires Forest(rows) && FolderKey(f) in rows && FolderKey(g) in rows
    requires rows[FolderKey(f)].Folder? && rows[FolderKey(g)].Folder? && rows[FolderKey(f)].path == rows[FolderKey(g)].path
    ensures f == g
  {
    assert FolderSound(rows, f) && FolderSound(rows, g);
  }

  lemma CommittedMove(s: Store, f: Id, dest: Option<Id>)
    requires Forest(s.rows) && MoveFolder(s, f, dest).Commit? && MoveFolder(s, f, dest).store != s
    ensures Moving(s, MoveFolder(s, f, dest).store, f, dest)
  {
    assert FolderSound(s.rows, f);
  }

  /** Every path is still its parent's path plus the folder's own id. */
  lemma MoveKeepsForest(s: Store, f: Id, dest: Option<Id>)
    requires Forest(s.rows)
    ensures Forest(After(s, MoveFolder(s, f, dest)).rows)
  {
    var o := MoveFolder(s, f, dest);
    if o.Commit? && o.store != s {
      CommittedMove(s, f, dest);
      MoveForest(s, o.store, f, dest);
    }
  }

  /** The folder ends up directly below its destination; a destination inside it is refused. */
  lemma MoveLands(s: Store, f: Id, dest: Option<Id>)
    requires Forest(s.rows) && MoveFolder(s, f, dest).Commit?
    ensures FolderAt(MoveFolder(s, f, dest).store.rows, f, DestPath(s, dest) + [f])
    ensures dest.Some? ==> !Under(s.rows, FolderKey(dest.value), f)
  {
    HomeSound(s.rows, FolderKey(f));
    if dest.Some? { UnderIsBelow(s.rows, FolderKey(dest.value), f); }
    if MoveFolder(s, f, dest).store != s {
      CommittedMove(s, f, dest);
      MovePath(s, MoveFolder(s, f, dest).store, f, dest, FolderKey(f));
    }
  }

  /** Rows outside the subtree are untouched; rows inside keep all but the replaced front of their path. */
  lemma MoveIsLocal(s: Store, f: Id, dest: Option<Id>, k: Key)
    requires Forest(s.rows) && MoveFolder(s, f, dest).Commit? && k in s.rows
    ensures
      var t, source := MoveFolder(s, f, dest).store, s.rows[FolderKey(f)].path;
      && t.rows.Keys == s.rows.Keys
      && (!Under(s.rows, k, f) || k.ItemKey? ==> t.rows[k] == s.rows[k])
      && (Under(s.rows, k, f) ==>
            && source <= PathOf(s.rows, k)
            && PathOf(s.rows, k) == source + PathOf(s.rows, k)[|source|..]
            && PathOf(t.rows, k) == DestPath(s, dest) + [f] + PathOf(s.rows, k)[|source|..])
      && t.rows[k].deleted == s.rows[k].deleted && t.rows[k].unit == s.rows[k].unit && t.rows[k].name == s.rows[k].name
  {
    HomeSound(s.rows, k);
    UnderIsBelow(s.rows, k, f);
    if MoveFolder(s, f, dest).store != s {
      CommittedMove(s, f, dest);
      MovePath(s, MoveFolder(s, f, dest).store, f, dest, k);
    }
  }

  /** Which of two rows of the subtree lies below the other does not change. */
  lemma MoveKeepsStructure(s: Store, f: Id, dest: Option<Id>, k: Key, m: Key)
    requires Forest(s.rows) && MoveFolder(s, f, dest).Commit? && Under(s.rows, k, f) && Under(s.rows, m, f)
    ensures
      var t := MoveFolder(s, f, dest).store;
      k in t.rows && m in t.rows && (PathOf(t.rows, k) <= PathOf(t.rows, m) <==> PathOf(s.rows, k) <= PathOf(s.rows, m))
  {
    MoveIsLocal(s, f, dest, k);
    MoveIsLocal(s, f, dest, m);
    var source, target := s.rows[FolderKey(f)].path, DestPath(s, dest) + [f];
    var a, b := PathOf(s.rows, k)[|source|..], PathOf(s.rows, m)[|source|..];
    SharedFront(source, a, b);
    SharedFront(target, a, b);
  }

  lemma SharedFront(front: Path, a: Path, b: Path)
    ensures front + a <= front + b <==> a <= b
  {
    if front + a <= front + b {
      assert (front + a)[|front|..] == a && (front + b)[|front|..] == b;
      assert (front + a)[|front|..] <= (front + b)[|front|..];
    }
  }

  /** Rewriting the subtree to its new place and back is the identity. */
  lemma MoveBackRestores(rows: Rows, f: Id, destPath: Path)
    requires Forest(rows) && FolderKey(f) in rows && rows[FolderKey(f)].Folder? && !(rows[FolderKey(f)].path <= destPath)
    ensures
      var source, target := rows[FolderKey(f)].path, destPath + [f];
      Moved(Moved(rows, source, target), target, source) == rows
  {
    var source, target := rows[FolderKey(f)].path, destPath + [f];
    forall k | k in rows ensures Moved(Moved(rows, source, target), target, source)[k] == rows[k] {
      HomeSound(rows, k);
      if rows[k].Folder? {
        var path := rows[k].path;
        assert Chained(rows, k.id, |destPath|);
        assert target <= path ==> path[|destPath|] == f && path[..|destPath| + 1] == target;
        if source <= path {
          assert (target + path[|source|..])[|target|..] == path[|source|..];
          assert source + path[|source|..] == path;
        }
      }
    }
  }

  // ---- the string test that guards the move ----

  function Texts(path: Path, text: Id -> string): (texts: seq<string>)
    ensures |texts| == |path| && forall i :: 0 <= i < |path| ==> texts[i] == text(path[i])
  {
    seq(|path|, i requires 0 <= i < |path| => text(path[i]))
  }

  /** Asset Core's test on path texts refuses exactly the destinations inside the moved subtree. */
  lemma CycleTestRefusesSubtree(source: Path, dest: Path, text: Id -> string)
    requires forall id :: id in source || id in dest ==> IsUuid(text(id))
    requires forall a, b :: a in source && b in dest && text(a) == text(b) ==> a == b
    requires source != [] && dest != []
    ensures BelowText(Encode(Texts(dest, text)), Encode(Texts(source, text))) <==> source <= dest
  {
    CycleTestIsAncestry(Texts(source, text), Texts(dest, text));
    if Texts(source, text) <= Texts(dest, text) {
      forall i | 0 <= i < |source| ensures source[i] == dest[i] { assert Texts(source, text)[i] == Texts(dest, text)[i]; }
    }
  }
}
