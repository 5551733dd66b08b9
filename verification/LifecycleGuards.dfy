module LifecycleGuards {
  // Exactly when the guards the code does make are enough: the retention gate, the end of
  // a purge, and the end of a delete or restore job whose last batch skipped locked rows.

  import opened Wrappers
  import opened LifecycleTables
  import opened LifecycleSteps
  import opened LifecycleRuns
  import opened LifecycleRevive
  import opened LifecycleMirror
  import opened LifecycleFence
  import opened LifecycleInvariant
  import opened LifecycleKept
  import opened LifecycleTreeSteps
  import opened LifecycleDiscipline

  // ---- the retention gate ----

  /** Queueing an eligible unit respects the nesting gate iff every live unit inside it recorded a path below its own. */
  lemma GateExactly(s: Store, u: Id, j: Id, now: Time)
    requires Tidy(s) && Eligible(s, u, now) && QueuePurge(s, u, j, now).Commit?
    ensures NestedAll(QueuePurge(s, u, j, now).store) <==> SnapshotsBelow(s, u)
    ensures Tidy(QueuePurge(s, u, j, now).store) <==> SnapshotsBelow(s, u)
  {
    var t := QueuePurge(s, u, j, now).store;
    assert t.rows == s.rows && t.units == s.units[u := s.units[u].(state := PurgeQueued)];
    if SnapshotsBelow(s, u) {
      forall x ensures Nested(t, u, x) {
        if s.units[u].root.FolderKey? && x in s.units && x != u && s.units[x].state.Live() && s.units[x].root in s.rows {
          EligibleIsNested(s, u, x, now);
        }
      }
      StateMoved(s, t, u);
    }
    if NestedAll(t) {
      forall x ensures SnapshotBelow(s, u, x) { assert Nested(t, u, x); }
    }
  }

  // ---- the end of a purge ----

  /** A folder unit's snapshot ends in its root, as every path the engine records does. */
  predicate SnapshotEndsInRoot(unit: LifecycleUnit) {
    unit.root.FolderKey? && unit.rootPath != [] && unit.rootPath[|unit.rootPath| - 1] == unit.root.id
  }

  /** The purge of a root still in place selects something iff the root's path snapshot is current. */
  lemma DrainExactly(s: Store, u: Id)
    requires Tidy(s) && u in s.units && PurgeState(s.units[u].state) && RootInPlace(s, u) && SnapshotEndsInRoot(s.units[u])
    ensures
      (exists f {:trigger PurgeLeaf(s, f, u)} :: PurgeLeaf(s, f, u)) || (exists k {:trigger RemainingItem(s, k, u)} :: RemainingItem(s, k, u))
      <==>
      SnapshotCurrent(s, u)
  {
    if SnapshotCurrent(s, u) { SomethingSelectable(s, u); }
    if f :| PurgeLeaf(s, f, u) { SelectedMeansCurrent(s, u, FolderKey(f)); }
    if k :| RemainingItem(s, k, u) { SelectedMeansCurrent(s, u, k); }
  }

  /** A row of the unit found below the snapshot shows that the root still lies where the snapshot says. */
  lemma SelectedMeansCurrent(s: Store, u: Id, k: Key)
    requires Tidy(s) && u in s.units && RootInPlace(s, u) && SnapshotEndsInRoot(s.units[u])
    requires OwnedBy(s.rows, k, u) && s.units[u].rootPath <= PathOf(s.rows, k)
    ensures SnapshotCurrent(s, u)
  {
    var root, snapshot, path := s.units[u].root, s.units[u].rootPath, PathOf(s.rows, k);
    assert RowOwned(s, k);
    HomeSound(s.rows, k);
    HomeSound(s.rows, root);
    AncestorPresent(s.rows, k, root.id);
    var current := PathOf(s.rows, root);
    assert path[|current| - 1] == root.id == path[|snapshot| - 1];
    PathsHaveNoRepeats(s.rows, Home(s.rows, k), |current| - 1, |snapshot| - 1);
  }

  /** Finishing a purge leaves a tidy store iff the snapshot was current and no leaf was skipped. */
  lemma FinishExactly(s: Store, j: Id, worker: string, now: Time)
    requires Tidy(s) && FinalizePurge(s, j, worker, None, now).Commit?
    ensures
      var u := s.jobs[j].unit;
      Tidy(FinalizePurge(s, j, worker, None, now).store) <==> SnapshotCurrent(s, u) && NoLeaf(s, u)
  {
    var u, t := s.jobs[j].unit, FinalizePurge(s, j, worker, None, now).store;
    if SnapshotCurrent(s, u) && NoLeaf(s, u) {
      var e := PurgeEndEffect(s, j, worker, now);
      EffectTidy(s, t, e);
    }
    if Tidy(t) {
      forall k ensures !OwnedBy(s.rows, k, u) { assert RowOwned(t, k); assert RowOwned(s, k); }
      assert UnitRooted(s, u) && !OwnedBy(s.rows, s.units[u].root, u);
      forall f ensures !PurgeLeaf(s, f, u) { assert !OwnedBy(s.rows, FolderKey(f), u); }
    }
  }

  // ---- batches that skip locked rows ----

  /** A deletion that finishes leaves a tidy store iff its last batch skipped no row. */
  lemma DeletionEndsExactly(s: Store, l: Id, j: Id, u: Id, worker: string, now: Time)
    requires Orderly(s) && Enabled(s, DeleteRows(l, j, u, worker, {}, {}, now))
    requires DeleteBatch(s, j, l, u, worker, {}, {}, now).Commit?
    ensures Tidy(DeleteBatch(s, j, l, u, worker, {}, {}, now).store) <==> NoRowSkipped(s, l, {}, {})
  {
    var t := DeleteBatch(s, j, l, u, worker, {}, {}, now).store;
    var root, top := s.legacy[l].root, s.legacy[l].rootPath;
    BatchBuries(s, l, j, u, worker, {}, {}, now);
    if NoRowSkipped(s, l, {}, {}) {
      BatchCompletes(s, l, j, u, worker, now);
      StateMoved(s, t, u);
    }
    if Tidy(t) {
      assert FenceRoot(s, l) && t.rows == s.rows;
      forall folders, k ensures k !in DeletableRows(s.rows, top, root, folders) {
        if k in s.rows { UnderIsBelow(s.rows, k, root); }
        assert Sealed(t, u, k);
      }
    }
  }

  /** A restore that finishes leaves a tidy store iff its last batch skipped no member. */
  lemma RestoreEndsExactly(s: Store, j: Id, worker: string, now: Time)
    requires Tidy(s) && Enabled(s, RestoreRows(j, worker, [], [], now)) && RestoreBatch(s, j, worker, [], [], now).Commit?
    ensures Tidy(RestoreBatch(s, j, worker, [], [], now).store) <==> NoMemberSkipped(s, s.jobs[j].unit, [], [])
  {
    var t, u := RestoreBatch(s, j, worker, [], [], now).store, s.jobs[j].unit;
    RestoreTables(s, j, worker, [], [], now);
    if NoMemberSkipped(s, u, [], []) {
      var e := RestoreEffect(s, j, worker, [], [], now);
      EffectTidy(s, t, e);
    }
    if Tidy(t) {
      var root := s.units[u].root;
      forall folders, i ensures i !in RestorableIds(s.rows, u, root, folders) {
        var k := if folders then FolderKey(i) else ItemKey(i);
        RestoreRowShape(s, j, worker, [], [], now, k);
        assert RowOwned(t, k);
      }
    }
  }
}
