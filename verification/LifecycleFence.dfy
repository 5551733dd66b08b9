module LifecycleFence {
  // The deletion fence reads only V5 rows. In every run, whatever users and workers
  // do, the roots it protects stay where the V5 rows say they are and no two of
  // them lie on one path.

  import opened Wrappers
  import opened LifecycleTables
  import opened LifecycleSteps
  import opened LifecycleRuns
  import opened LifecycleRevive
  import opened LifecycleMirror

  predicate Fencing(s: Store, l: Id) {
    l in s.legacy && s.legacy[l].status.Fencing()
  }

  /** The protected root is present, where the V5 row says, and owned by no unit but its own DELETING one. */
  predicate FenceRoot(s: Store, l: Id) {
    Fencing(s, l) ==>
      && FolderAt(s.rows, s.legacy[l].root, s.legacy[l].rootPath)
      && (s.rows[FolderKey(s.legacy[l].root)].unit.Some? ==>
            DeletingUnitOf(s, s.rows[FolderKey(s.legacy[l].root)].unit.value, s.legacy[l].root))
  }

  predicate FencePair(s: Store, l: Id, m: Id) {
    Fencing(s, l) && Fencing(s, m) && l != m ==> !Comparable(s.legacy[l].rootPath, s.legacy[m].rootPath)
  }

  ghost predicate FoldersSound(rows: Rows) {
    forall f {:trigger FolderSound(rows, f)} :: FolderSound(rows, f)
  }

  ghost predicate Guarded(s: Store) {
    && FoldersSound(s.rows)
    && (forall l {:trigger FenceRoot(s, l)} :: FenceRoot(s, l))
    && (forall l, m {:trigger FencePair(s, l, m)} :: FencePair(s, l, m))
  }

  // ---- transactions that start no new fence ----

  /** A protected root of `t` was protected in `s`, at the same place. */
  predicate SameFence(s: Store, t: Store, l: Id) {
    Fencing(t, l) ==> Fencing(s, l) && s.legacy[l].root == t.legacy[l].root && s.legacy[l].rootPath == t.legacy[l].rootPath
  }

  lemma FenceKept(s: Store, t: Store)
    requires Guarded(s) && FoldersSound(t.rows)
    requires forall l {:trigger SameFence(s, t, l)} :: SameFence(s, t, l) && FenceRoot(t, l)
    ensures Guarded(t)
  {
    forall l ensures FenceRoot(t, l) { assert SameFence(s, t, l); }
    forall l, m ensures FencePair(t, l, m) {
      assert SameFence(s, t, l) && SameFence(s, t, m) && FencePair(s, l, m);
    }
  }

  /** Units leave DELETING only by name in a few transactions; elsewhere they stay. */
  predicate DeletingKept(s: Store, t: Store, u: Id) {
    u in s.units && s.units[u].state.Deleting? ==> u in t.units && t.units[u] == s.units[u]
  }

  /** Rows keep their path and unit, and no DELETING unit changes. */
  lemma QuietStep(s: Store, t: Store)
    requires Guarded(s) && t.rows == s.rows
    requires forall u {:trigger DeletingKept(s, t, u)} :: DeletingKept(s, t, u)
    requires forall l {:trigger SameFence(s, t, l)} :: SameFence(s, t, l)
    ensures Guarded(t)
  {
    forall l ensures SameFence(s, t, l) && FenceRoot(t, l) {
      assert SameFence(s, t, l) && FenceRoot(s, l);
      if Fencing(t, l) {
        var row := s.rows[FolderKey(s.legacy[l].root)];
        if row.unit.Some? { assert DeletingKept(s, t, row.unit.value); }
      }
    }
    FenceKept(s, t);
  }

  /** A write the fence let through leaves every protected root alone. */
  lemma ClearOfFence(s: Store, path: Path, l: Id)
    requires path != [] && !Fenced(s, path) && Fencing(s, l)
    ensures !Comparable(s.legacy[l].rootPath, path)
  {
    assert !FencesPath(s, l, path);
  }

  /** One folder or item row is written, and it is no protected root. */
  lemma RowWritten(s: Store, t: Store, key: Key)
    requires Guarded(s) && t.legacy == s.legacy && key in t.rows && t.rows == s.rows[key := t.rows[key]]
    requires forall u {:trigger DeletingKept(s, t, u)} :: DeletingKept(s, t, u)
    requires key.FolderKey? ==> FolderSound(t.rows, key.id)
    requires forall l | Fencing(s, l) :: FolderKey(s.legacy[l].root) != key
    ensures Guarded(t)
  {
    forall f ensures FolderSound(t.rows, f) { assert FolderSound(s.rows, f); }
    forall l ensures SameFence(s, t, l) && FenceRoot(t, l) {
      assert FenceRoot(s, l);
      if Fencing(t, l) {
        var row := s.rows[FolderKey(s.legacy[l].root)];
        if row.unit.Some? { assert DeletingKept(s, t, row.unit.value); }
      }
    }
    FenceKept(s, t);
  }

  lemma NewFolderGuarded(s: Store, parent: Path, name: string, id: Id)
    requires Guarded(s) && id !in s.spent && IdsSpent(s)
    ensures Guarded(After(s, CreateFolder(s, parent, name, id)))
  {
    var o := CreateFolder(s, parent, name, id);
    if o.Commit? {
      forall l | Fencing(s, l) ensures FolderKey(s.legacy[l].root) != FolderKey(id) { assert FenceRoot(s, l); }
      RowWritten(s, o.store, FolderKey(id));
    }
  }

  lemma DropFolderGuarded(s: Store, f: Id, u: Id, now: Time)
    requires Guarded(s) && u !in s.spent && IdsSpent(s)
    ensures Guarded(After(s, DeleteFolder(s, f, u, now)))
  {
    var o := DeleteFolder(s, f, u, now);
    if o.Commit? {
      assert FolderSound(s.rows, f);
      forall l | Fencing(s, l) ensures FolderKey(s.legacy[l].root) != FolderKey(f) {
        assert FenceRoot(s, l);
        ClearOfFence(s, s.rows[FolderKey(f)].path, l);
      }
      RowWritten(s, o.store, FolderKey(f));
    }
  }

  lemma ItemsGuarded(s: Store, step: Step)
    requires Guarded(s) && IdsSpent(s) && Enabled(s, step) && (step.NewItem? || step.DropItem?)
    ensures Guarded(Next(s, step))
  {
    if Apply(s, step).Commit? { RowWritten(s, Next(s, step), ItemKey(if step.NewItem? then step.id else step.item)); }
  }

  /** A move rewrites only paths below its source, which no protected root is comparable with. */
  lemma MoveGuarded(s: Store, f: Id, dest: Option<Id>)
    requires Guarded(s)
    ensures Guarded(After(s, MoveFolder(s, f, dest)))
  {
    var o := MoveFolder(s, f, dest);
    if o.Commit? && o.store != s {
      var t, source := o.store, s.rows[FolderKey(f)].path;
      assert FolderSound(s.rows, f);
      forall g ensures FolderSound(t.rows, g) { assert FolderSound(s.rows, g); }
      forall l ensures SameFence(s, t, l) && FenceRoot(t, l) {
        assert FenceRoot(s, l);
        if Fencing(s, l) { ClearOfFence(s, source, l); }
      }
      FenceKept(s, t);
    }
  }

  // ---- starting and ending a deletion ----

  lemma StartGuarded(s: Store, l: Id, legacy: Legacy, u: Id, j: Id, now: Time)
    requires Guarded(s) && IdsSpent(s) && legacy.status.LegacyQueued?
    requires FolderAt(s.rows, legacy.root, legacy.rootPath)
    requires forall m {:trigger Fencing(s, m)} :: Fencing(s, m) && m != l ==> !Comparable(s.legacy[m].rootPath, legacy.rootPath)
    ensures Guarded(After(s, StartDeletion(s, l, legacy, u, j, now)))
  {
    var o := StartDeletion(s, l, legacy, u, j, now);
    if o.Commit? {
      StartShape(s, l, legacy, u, j, now);
      GateShape(s, legacy.root, legacy.rootPath, u);
      var t := o.store;
      forall f ensures FolderSound(t.rows, f) { assert FolderSound(s.rows, f); }
      forall m ensures FenceRoot(t, m) {
        assert FenceRoot(s, m);
        if m != l && Fencing(t, m) {
          assert Fencing(s, m);
          assert s.legacy[m].root != legacy.root;
        }
      }
      forall m, n ensures FencePair(t, m, n) {
        assert FencePair(s, m, n);
        if m == l && Fencing(t, n) { assert n == l || Fencing(s, n); }
        if n == l && Fencing(t, m) { assert m == l || Fencing(s, m); }
      }
    }
  }

  lemma ConfirmGuarded(s: Store, l: Id, root: Id, accepted: bool, u: Id, j: Id, now: Time)
    requires Guarded(s) && IdsSpent(s)
    ensures Guarded(After(s, Confirm(s, l, root, accepted, u, j, now)))
  {
    if Confirm(s, l, root, accepted, u, j, now).Commit? {
      assert FolderSound(s.rows, root);
      forall m | Fencing(s, m) && m != l ensures !Comparable(s.legacy[m].rootPath, s.legacy[l].rootPath) {
        ClearOfFence(s, s.legacy[l].rootPath, m);
      }
      StartGuarded(s, l, s.legacy[l].(status := LegacyQueued, previewExpiresAt := None, nextRunAt := Some(now)), u, j, now);
    }
  }

  lemma AdoptGuarded(s: Store, l: Id, u: Id, j: Id, now: Time)
    requires Guarded(s) && IdsSpent(s)
    ensures Guarded(After(s, Adopt(s, l, u, j, now)))
  {
    if Adoptable(s, l, now) {
      assert FenceRoot(s, l);
      forall m | Fencing(s, m) && m != l ensures !Comparable(s.legacy[m].rootPath, s.legacy[l].rootPath) {
        assert FencePair(s, m, l);
      }
      StartGuarded(s, l, s.legacy[l].(status := LegacyQueued, nextRunAt := Some(now), lease := None), u, j, now);
    }
  }

  lemma CancelGuarded(s: Store, l: Id, j: Option<Id>, u: Option<Id>)
    requires Guarded(s) && (l in s.legacy ==> DeletingChoice(s, s.legacy[l].root, u))
    ensures Guarded(After(s, Cancel(s, l, j, u)))
  {
    var o := Cancel(s, l, j, u);
    if o.Commit? {
      var t := o.store;
      assert FenceRoot(s, l);
      forall f ensures FolderSound(t.rows, f) { assert FolderSound(s.rows, f); }
      forall m ensures SameFence(s, t, m) && FenceRoot(t, m) {
        assert FenceRoot(s, m) && FencePair(s, m, l);
        if Fencing(t, m) { assert s.legacy[m].root != s.legacy[l].root; }
      }
      FenceKept(s, t);
    }
  }

  /** A batch buries rows below its own root only; finishing releases that root alone. */
  lemma BatchGuarded(s: Store, j: Id, l: Id, u: Id, worker: string, items: set<Key>, folders: set<Key>, now: Time)
    requires Guarded(s) && IdsSpent(s) && l in s.legacy
    requires forall k {:trigger Below(s.rows, k, s.legacy[l].rootPath)} ::
      k in BatchRows(items, folders) ==> Below(s.rows, k, s.legacy[l].rootPath)
    ensures Guarded(After(s, DeleteBatch(s, j, l, u, worker, items, folders, now)))
  {
    var o := DeleteBatch(s, j, l, u, worker, items, folders, now);
    if o.Commit? {
      BatchShape(s, j, l, u, worker, items, folders, now);
      GateShape(s, s.legacy[l].root, s.legacy[l].rootPath, u);
      var t, chosen := o.store, BatchRows(items, folders);
      assert FenceRoot(s, l);
      forall f ensures FolderSound(t.rows, f) { assert FolderSound(s.rows, f); }
      forall m ensures SameFence(s, t, m) && FenceRoot(t, m) {
        assert FenceRoot(s, m) && FencePair(s, m, l);
        if Fencing(t, m) && m != l {
          var key := FolderKey(s.legacy[m].root);
          assert s.legacy[m].root != s.legacy[l].root;
          assert !Below(s.rows, key, s.legacy[l].rootPath);
          assert t.rows[key] == s.rows[key];
        }
      }
      FenceKept(s, t);
    }
  }

  // ---- restore, purge and the job-only steps ----

  /** Rows of one non-DELETING unit come back or go away; protected roots belong to none such. */
  lemma UnitRowsChanged(s: Store, t: Store, u: Id)
    requires Guarded(s) && t.legacy == s.legacy && u in s.units && !s.units[u].state.Deleting?
    requires forall w {:trigger DeletingKept(s, t, w)} :: DeletingKept(s, t, w)
    requires forall k {:trigger OwnedBy(s.rows, k, u)} ::
      k in s.rows && !OwnedBy(s.rows, k, u) ==> k in t.rows && t.rows[k] == s.rows[k]
    requires FoldersSound(t.rows)
    ensures Guarded(t)
  {
    forall l ensures SameFence(s, t, l) && FenceRoot(t, l) {
      assert FenceRoot(s, l);
      if Fencing(s, l) {
        var key := FolderKey(s.legacy[l].root);
        assert !OwnedBy(s.rows, key, u);
        if s.rows[key].unit.Some? { assert DeletingKept(s, t, s.rows[key].unit.value); }
      }
    }
    FenceKept(s, t);
  }

  lemma RestoreGuarded(s: Store, j: Id, worker: string, folders: seq<Id>, items: seq<Id>, now: Time)
    requires Guarded(s) && Enabled(s, RestoreRows(j, worker, folders, items, now))
    ensures Guarded(After(s, RestoreBatch(s, j, worker, folders, items, now)))
  {
    var o := RestoreBatch(s, j, worker, folders, items, now);
    if o.Commit? {
      var t, u := o.store, s.jobs[j].unit;
      RestoreTables(s, j, worker, folders, items, now);
      forall k ensures k in s.rows && !OwnedBy(s.rows, k, u) ==> k in t.rows && t.rows[k] == s.rows[k] {
        RestoreRowShape(s, j, worker, folders, items, now, k);
        RestoreOwned(s, j, worker, folders, items, now, k);
      }
      forall f ensures FolderSound(t.rows, f) {
        assert FolderSound(s.rows, f);
        RestoreRowShape(s, j, worker, folders, items, now, FolderKey(f));
      }
      UnitRowsChanged(s, t, u);
    }
  }

  lemma PurgeGuarded(s: Store, step: Step)
    requires Guarded(s) && (step.PurgeOneItem? || step.PurgeOneFolder?)
    ensures Guarded(Next(s, step))
  {
    if Apply(s, step).Commit? {
      var t, u := Next(s, step), s.jobs[step.job].unit;
      forall f ensures FolderSound(t.rows, f) { assert FolderSound(s.rows, f); }
      UnitRowsChanged(s, t, u);
    }
  }

  lemma JobStepGuarded(s: Store, t: Store, u: Id)
    requires Guarded(s) && t.rows == s.rows
    requires t.units == s.units
      || (u in s.units && u in t.units && t.units == s.units[u := t.units[u]] && !s.units[u].state.Deleting?)
    requires forall l {:trigger SameFence(s, t, l)} :: SameFence(s, t, l)
    ensures Guarded(t)
  {
    QuietStep(s, t);
  }

  lemma ClaimGuarded(s: Store, j: Id, worker: string, now: Time)
    requires Guarded(s) && Mirrored(s)
    ensures Guarded(After(s, Claim(s, j, worker, now)))
  {
    var o := Claim(s, j, worker, now);
    if o.Commit? {
      assert JobSound(s, j);
      JobStepGuarded(s, o.store, s.jobs[j].unit);
    }
  }

  lemma PollGuarded(s: Store, adoption: Option<Adoption>, j: Option<Id>, worker: string, now: Time)
    requires Guarded(s) && Mirrored(s) && IdsSpent(s) && (adoption.Some? ==> adoption.value.job !in s.spent)
    ensures Guarded(After(s, ClaimNext(s, adoption, j, worker, now)))
  {
    if adoption.Some? {
      AdoptGuarded(s, adoption.value.legacy, adoption.value.unit, adoption.value.job, now);
      AdoptMirrors(s, adoption.value.legacy, adoption.value.unit, adoption.value.job, now);
    }
    var adopted := if adoption.Some? then Adopt(s, adoption.value.legacy, adoption.value.unit, adoption.value.job, now) else Commit(s);
    if adopted.Commit? && j.Some? { ClaimGuarded(adopted.store, j.value, worker, now); }
  }

  lemma {:induction false} CleanupGuarded(s: Store, picks: seq<Pick>, now: Time)
    requires Guarded(s)
    ensures Guarded(After(s, CleanupBatch(s, picks, now)))
  {
    if picks != [] {
      CleanupGuarded(s, picks[..|picks| - 1], now);
      var before := CleanupBatch(s, picks[..|picks| - 1], now);
      if before.Commit? {
        var pick := picks[|picks| - 1];
        var o := QueuePurge(before.store, pick.unit, pick.job, now);
        if o.Commit? { JobStepGuarded(before.store, o.store, pick.unit); }
      }
    }
  }

  lemma JobStepsGuarded(s: Store, step: Step)
    requires Guarded(s) && Mirrored(s) && Enabled(s, step) && IdsSpent(s)
    requires step.PreviewDeletion? || step.RetryDeletion? || step.GiveUpDeletion? || step.AskRestore? || step.GiveUpNative? || step.RenewPurge?
    ensures Guarded(Next(s, step))
  {
    if Apply(s, step).Commit? {
      var u := if step.AskRestore? then step.unit else if step.GiveUpNative? then s.jobs[step.job].unit else 0;
      JobStepGuarded(s, Next(s, step), u);
    }
  }

  lemma BatchStepGuarded(s: Store, step: Step)
    requires Guarded(s) && Enabled(s, step) && IdsSpent(s) && step.DeleteRows?
    ensures Guarded(Next(s, step))
  {
    if Apply(s, step).Commit? {
      BatchGuarded(s, step.job, step.legacy, step.unit, step.worker, step.items, step.folders, step.now);
    }
  }

  lemma UserStepGuarded(s: Store, step: Step)
    requires Guarded(s) && IdsSpent(s) && Enabled(s, step)
    requires step.NewFolder? || step.Move? || step.DropFolder? || step.ConfirmDeletion? || step.CancelDeletion?
    ensures Guarded(Next(s, step))
  {
    match step
    case NewFolder(parent, name, id) => NewFolderGuarded(s, parent, name, id);
    case Move(folder, dest) => MoveGuarded(s, folder, dest);
    case DropFolder(folder, unit, now) => DropFolderGuarded(s, folder, unit, now);
    case ConfirmDeletion(legacy, folder, accepted, unit, job, now) => ConfirmGuarded(s, legacy, folder, accepted, unit, job, now);
    case CancelDeletion(legacy, link, deleting) => CancelGuarded(s, legacy, link, deleting);
  }

  lemma StepGuarded(s: Store, step: Step)
    requires Guarded(s) && Mirrored(s) && IdsSpent(s) && Enabled(s, step)
    ensures Guarded(Next(s, step))
  {
    if step.NewFolder? || step.Move? || step.DropFolder? || step.ConfirmDeletion? || step.CancelDeletion? {
      UserStepGuarded(s, step);
    } else if step.NewItem? || step.DropItem? {
      ItemsGuarded(s, step);
    } else if step.PurgeOneItem? || step.PurgeOneFolder? {
      PurgeGuarded(s, step);
    } else if step.Poll? {
      PollGuarded(s, step.adoption, step.claimed, step.worker, step.now);
    } else if step.Cleanup? {
      CleanupGuarded(s, step.picks, step.now);
    } else if step.RestoreRows? {
      RestoreGuarded(s, step.job, step.worker, step.memberFolders, step.memberItems, step.now);
    } else if step.DeleteRows? {
      BatchStepGuarded(s, step);
    } else {
      JobStepsGuarded(s, step);
    }
  }
}
