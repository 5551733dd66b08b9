module LifecycleDrain {
  // The batch loop of a folder deletion, across crashes, lapsed leases and repeated
  // claims: its counters are exactly what it has buried, each batch makes progress,
  // and when it succeeds it has buried exactly what the user confirmed.

  import opened Wrappers
  import opened LifecycleTables
  import opened LifecycleSteps
  import opened LifecycleRuns
  import opened LifecycleRevive
  import opened LifecycleMirror
  import opened LifecycleFence
  import opened LifecycleInvariant
  import opened LifecycleKept
  import opened LifecycleRowSteps
  import opened LifecycleTreeSteps
  import opened LifecycleDiscipline
  import opened LifecycleOrder
  import opened LifecycleMembers
  import opened LifecycleRoundTrip

  /** The rows a unit has buried, folders or items. */
  function OwnedRows(rows: Rows, u: Id, folders: bool): set<Key> {
    set k | k in rows && OwnedBy(rows, k, u) && k.FolderKey? == folders
  }

  /** Job `j` drains unit `u` for V5 row `l`. */
  predicate Drains(s: Store, u: Id, l: Id, j: Id) {
    && u in s.units && s.units[u].state.Deleting?
    && Fencing(s, l) && s.units[u].root == FolderKey(s.legacy[l].root)
    && LinkedTo(s, j, l) && s.jobs[j].unit == u
  }

  /** Both rows' counters are the number of rows buried so far. */
  predicate Counted(s: Store, u: Id, l: Id, j: Id) {
    && l in s.legacy && j in s.jobs
    && s.legacy[l].deleted == Counts(|OwnedRows(s.rows, u, true)|, |OwnedRows(s.rows, u, false)|)
    && s.jobs[j].checkpoint == Checkpoint(s.legacy[l].deleted.folders, s.legacy[l].deleted.items)
  }

  // ---- what other steps do to the two job rows ----

  predicate SameProgress(s: Store, t: Store, l: Id, j: Id) {
    && l in s.legacy && l in t.legacy && j in s.jobs && j in t.jobs
    && t.legacy[l].root == s.legacy[l].root && t.legacy[l].deleted == s.legacy[l].deleted && t.legacy[l].active == s.legacy[l].active
    && t.jobs[j].legacy == s.jobs[j].legacy && t.jobs[j].unit == s.jobs[j].unit && t.jobs[j].checkpoint == s.jobs[j].checkpoint
    && t.legacy[l].status.Fencing()
  }

  lemma StartProgress(s: Store, l: Id, j: Id, l2: Id, legacy: Legacy, u: Id, j2: Id, now: Time)
    requires Fencing(s, l) && j in s.jobs && l2 != l && j2 != j
    ensures SameProgress(s, After(s, StartDeletion(s, l2, legacy, u, j2, now)), l, j)
  {
    if StartDeletion(s, l2, legacy, u, j2, now).Commit? { StartShape(s, l2, legacy, u, j2, now); }
  }

  lemma ClaimProgress(s: Store, l: Id, j: Id, j2: Id, worker: string, now: Time)
    requires Fencing(s, l) && j in s.jobs && Mirrored(s)
    ensures SameProgress(s, After(s, Claim(s, j2, worker, now)), l, j)
  {
    assert JobSound(s, j2);
  }

  lemma PollProgress(s: Store, l: Id, j: Id, step: Step)
    requires Orderly(s) && Enabled(s, step) && step.Poll? && Fencing(s, l) && LinkedTo(s, j, l)
    ensures SameProgress(s, Next(s, step), l, j)
  {
    var adopted := Adopted(s, step.adoption, step.now);
    if step.adoption.Some? && adopted.Commit? {
      var a := step.adoption.value;
      StartProgress(s, l, j, a.legacy, s.legacy[a.legacy].(status := LegacyQueued, nextRunAt := Some(step.now), lease := None), a.unit, a.job, step.now);
      AdoptMirrors(s, a.legacy, a.unit, a.job, step.now);
    }
    if adopted.Commit? && step.claimed.Some? { ClaimProgress(adopted.store, l, j, step.claimed.value, step.worker, step.now); }
  }

  lemma OtherBatchProgress(s: Store, l: Id, j: Id, step: Step)
    requires Orderly(s) && step.DeleteRows? && step.legacy != l && Fencing(s, l) && LinkedTo(s, j, l)
    ensures SameProgress(s, Next(s, step), l, j)
  {
    if Apply(s, step).Commit? {
      BatchShape(s, step.job, step.legacy, step.unit, step.worker, step.items, step.folders, step.now);
      GateShape(s, s.legacy[step.legacy].root, s.legacy[step.legacy].rootPath, step.unit);
    }
  }

  lemma {:induction false} CleanupProgress(s: Store, l: Id, j: Id, picks: seq<Pick>, now: Time)
    requires Fencing(s, l) && j in s.jobs && forall i :: 0 <= i < |picks| ==> picks[i].job != j
    ensures SameProgress(s, After(s, CleanupBatch(s, picks, now)), l, j)
  {
    if picks != [] { CleanupProgress(s, l, j, picks[..|picks| - 1], now); }
  }

  lemma UserRowProgress(s: Store, l: Id, j: Id, step: Step)
    requires Orderly(s) && Enabled(s, step) && Fencing(s, l) && LinkedTo(s, j, l)
    requires step.PreviewDeletion? || step.RetryDeletion?
    ensures SameProgress(s, Next(s, step), l, j)
  {
    assert JobSound(s, j);
  }

  lemma GiveUpProgress(s: Store, l: Id, j: Id, l2: Id, j2: Id, worker: string, now: Time)
    requires Mirrored(s) && Fencing(s, l) && LinkedTo(s, j, l) && LinkedTo(s, j2, l2)
    ensures SameProgress(s, After(s, FailDeletion(s, j2, l2, worker, now)), l, j)
  {
    assert JobSound(s, j) && OneLink(s, j, j2);
  }

  lemma OtherCancelProgress(s: Store, l: Id, j: Id, step: Step)
    requires Orderly(s) && Enabled(s, step) && Fencing(s, l) && LinkedTo(s, j, l) && step.CancelDeletion? && step.legacy != l
    ensures SameProgress(s, Next(s, step), l, j)
  {
  }

  lemma NativeProgress(s: Store, l: Id, j: Id, step: Step)
    requires Orderly(s) && Fencing(s, l) && LinkedTo(s, j, l)
    requires step.GiveUpNative? || step.RenewPurge?
    ensures SameProgress(s, Next(s, step), l, j)
  {
    if step.GiveUpNative? {
      GiveUpNativeProgress(s, l, j, step.job, step.operation, step.worker, step.now);
    } else {
      RenewProgress(s, l, j, step.job, step.worker, step.expected, step.now);
    }
  }

  lemma GiveUpNativeProgress(s: Store, l: Id, j: Id, j2: Id, op: Operation, worker: string, now: Time)
    requires Mirrored(s) && Fencing(s, l) && LinkedTo(s, j, l)
    ensures SameProgress(s, After(s, FailNative(s, j2, op, worker, now)), l, j)
  {
    assert JobSound(s, j);
  }

  lemma RenewProgress(s: Store, l: Id, j: Id, j2: Id, worker: string, expected: Time, now: Time)
    requires Mirrored(s) && Fencing(s, l) && LinkedTo(s, j, l)
    ensures SameProgress(s, After(s, RenewPurgeLease(s, j2, worker, expected, now)), l, j)
  {
    assert JobSound(s, j);
  }

  lemma AskProgress(s: Store, l: Id, j: Id, step: Step)
    requires Orderly(s) && Enabled(s, step) && Fencing(s, l) && LinkedTo(s, j, l) && step.AskRestore?
    ensures SameProgress(s, Next(s, step), l, j)
  {
  }

  lemma WriteProgress(s: Store, l: Id, j: Id, step: Step)
    requires Orderly(s) && Enabled(s, step) && Fencing(s, l) && LinkedTo(s, j, l)
    requires step.NewFolder? || step.NewItem? || step.Move? || step.DropFolder? || step.DropItem? || step.PurgeOneItem? || step.PurgeOneFolder?
    ensures SameProgress(s, Next(s, step), l, j)
  {
    assert JobSound(s, j);
  }

  lemma RestoreProgress(s: Store, l: Id, j: Id, step: Step)
    requires Orderly(s) && Fencing(s, l) && LinkedTo(s, j, l) && step.RestoreRows?
    ensures SameProgress(s, Next(s, step), l, j)
  {
    assert JobSound(s, j);
    if Apply(s, step).Commit? { RestoreTables(s, step.job, step.worker, step.memberFolders, step.memberItems, step.now); }
  }

  /** Every step but the row's own batch and its cancellation leaves its progress alone. */
  lemma StepProgress(s: Store, l: Id, j: Id, step: Step)
    requires Orderly(s) && Enabled(s, step) && Fencing(s, l) && LinkedTo(s, j, l)
    requires !(step.DeleteRows? && step.legacy == l) && !(step.CancelDeletion? && step.legacy == l)
    ensures SameProgress(s, Next(s, step), l, j)
  {
    if step.ConfirmDeletion? {
      if Apply(s, step).Commit? {
        StartProgress(s, l, j, step.legacy, s.legacy[step.legacy].(status := LegacyQueued, previewExpiresAt := None, nextRunAt := Some(step.now)),
          step.unit, step.job, step.now);
      }
    } else if step.Poll? {
      PollProgress(s, l, j, step);
    } else if step.DeleteRows? {
      OtherBatchProgress(s, l, j, step);
    } else if step.Cleanup? {
      CleanupProgress(s, l, j, step.picks, step.now);
    } else if step.RestoreRows? {
      RestoreProgress(s, l, j, step);
    } else if step.PreviewDeletion? || step.RetryDeletion? {
      UserRowProgress(s, l, j, step);
    } else if step.GiveUpDeletion? {
      GiveUpProgress(s, l, j, step.legacy, step.job, step.worker, step.now);
    } else if step.CancelDeletion? {
      OtherCancelProgress(s, l, j, step);
    } else if step.AskRestore? {
      AskProgress(s, l, j, step);
    } else if step.GiveUpNative? || step.RenewPurge? {
      NativeProgress(s, l, j, step);
    } else {
      WriteProgress(s, l, j, step);
    }
  }

  // ---- what other steps do to the rows a deletion has buried ----

  predicate OwnedSame(s: Store, t: Store, u: Id, k: Key) {
    OwnedBy(s.rows, k, u) <==> OwnedBy(t.rows, k, u)
  }

  lemma EffectOwned(s: Store, t: Store, e: Effect, u: Id, k: Key)
    requires Tidy(s) && Tidy(t) && Has(s, t, e) && !(e.Buried? && e.u == u)
    requires u in s.units && s.units[u].state.Deleting? && u in t.units && t.units[u].state.Deleting?
    ensures OwnedSame(s, t, u, k)
  {
    assert RowOwned(s, k) && UnitRooted(t, u);
    match e
    case Shifted(f, dest) => MovePath(s, t, f, dest, k);
    case Raised(x, chosen) =>
      RaisePlaces(s, t, x, chosen);
      assert SamePlace(s.rows, t.rows, k);
      assert k in s.rows ==> RowAfter(s.rows, t.rows, k, k in chosen) && (k in chosen ==> OwnedBy(s.rows, k, x));
    case _ =>
  }

  /** Only the unit's own batch buries into it, and that batch belongs to its V5 row. */
  lemma OwnBatch(s: Store, u: Id, l: Id, j: Id, step: Step)
    requires Orderly(s) && Enabled(s, step) && Drains(s, u, l, j)
    requires step.DeleteRows? && step.unit == u && Apply(s, step).Commit?
    ensures step.legacy == l && step.job == j
  {
    BatchShape(s, step.job, step.legacy, step.unit, step.worker, step.items, step.folders, step.now);
    BatchBuries(s, step.legacy, step.job, u, step.worker, step.items, step.folders, step.now);
    assert FencePair(s, l, step.legacy) && FenceRoot(s, l) && FenceRoot(s, step.legacy);
    assert OneLink(s, j, step.job);
  }

  lemma StepOwned(s: Store, u: Id, l: Id, j: Id, step: Step, k: Key)
    requires Orderly(s) && Enabled(s, step) && Disciplined(s, step) && Drains(s, u, l, j)
    requires !(step.DeleteRows? && step.legacy == l)
    requires u in Next(s, step).units && Next(s, step).units[u].state.Deleting?
    ensures OwnedSame(s, Next(s, step), u, k)
  {
    StepTidy(s, step);
    if step.Cleanup? {
      CleanupSpends(s, step.picks, step.now);
    } else {
      var mid, e, e2 := StepEffects(s, step);
      EffectTidy(s, mid, e);
      if e.Buried? && e.u == u { OwnBatch(s, u, l, j, step); }
      EffectOwned(s, mid, e, u, k);
      EffectOwned(mid, Next(s, step), e2, u, k);
    }
  }

  // ---- the unit's own batch ----

  /** Burying rows the unit does not own yet adds exactly those rows. */
  lemma BuriedAdds(rows: Rows, u: Id, chosen: set<Key>, folders: bool)
    requires forall k {:trigger k in chosen} :: k in chosen ==> k in rows && !OwnedBy(rows, k, u) && k.FolderKey? == folders
    ensures |OwnedRows(Tombstoned(rows, chosen, u), u, folders)| == |OwnedRows(rows, u, folders)| + |chosen|
    ensures OwnedRows(Tombstoned(rows, chosen, u), u, !folders) == OwnedRows(rows, u, !folders)
  {
    assert OwnedRows(Tombstoned(rows, chosen, u), u, folders) == OwnedRows(rows, u, folders) + chosen;
    assert OwnedRows(rows, u, folders) !! chosen;
  }

  lemma BatchIdentity(s: Store, u: Id, l: Id, j: Id, step: Step)
    requires Orderly(s) && Enabled(s, step) && Drains(s, u, l, j) && step.DeleteRows? && step.legacy == l && Apply(s, step).Commit?
    ensures step.job == j && step.unit == u
    ensures Next(s, step).rows == Tombstoned(s.rows, BatchRows(step.items, step.folders), u)
    ensures forall k {:trigger k in BatchRows(step.items, step.folders)} ::
      k in BatchRows(step.items, step.folders) ==> k in s.rows && !OwnedBy(s.rows, k, u) && k.FolderKey? == (step.items == {})
  {
    BatchBuries(s, l, step.job, step.unit, step.worker, step.items, step.folders, step.now);
    assert OneLink(s, j, step.job);
    OneDeletingUnit(s, s.legacy[l].root, u, step.unit);
    forall k | k in BatchRows(step.items, step.folders) ensures !OwnedBy(s.rows, k, u) { assert RowOwned(s, k); }
  }

  lemma BatchCards(s: Store, u: Id, l: Id, j: Id, step: Step)
    requires Orderly(s) && Enabled(s, step) && Drains(s, u, l, j) && step.DeleteRows? && step.legacy == l && Apply(s, step).Commit?
    ensures step.job == j && step.unit == u
    ensures |OwnedRows(Next(s, step).rows, u, true)| == |OwnedRows(s.rows, u, true)| + (if step.items == {} then |step.folders| else 0)
    ensures |OwnedRows(Next(s, step).rows, u, false)| == |OwnedRows(s.rows, u, false)| + |step.items|
  {
    BatchIdentity(s, u, l, j, step);
    BuriedAdds(s.rows, u, BatchRows(step.items, step.folders), step.items == {});
  }

  /** What one committed batch of the job writes into the two job rows. */
  lemma BatchWrites(s: Store, u: Id, l: Id, j: Id, step: Step)
    requires Orderly(s) && Enabled(s, step) && Drains(s, u, l, j) && step.DeleteRows? && step.legacy == l && Apply(s, step).Commit?
    ensures
      var t := Next(s, step);
      && l in t.legacy && j in t.jobs
      && t.legacy[l].deleted == Counts(
           s.legacy[l].deleted.folders + (if step.items == {} then |step.folders| else 0), s.legacy[l].deleted.items + |step.items|)
      && t.jobs[j].checkpoint == Checkpoint(
           s.jobs[j].checkpoint.folderRows + (if step.items == {} then |step.folders| else 0), s.jobs[j].checkpoint.itemRows + |step.items|)
      && t.legacy[l].active == s.legacy[l].active && t.legacy[l].root == s.legacy[l].root
      && t.jobs[j].legacy == Some(l) && t.jobs[j].unit == u
      && (BatchRows(step.items, step.folders) != {} ==> t.legacy[l].status.LegacyRunning? && t.units == s.units)
      && (BatchRows(step.items, step.folders) == {} ==> t.legacy[l].status.LegacySucceeded? && t.jobs[j].status.JobSucceeded?)
  {
    BatchCards(s, u, l, j, step);
    BatchShape(s, j, l, u, step.worker, step.items, step.folders, step.now);
    BatchBuries(s, l, j, u, step.worker, step.items, step.folders, step.now);
    BatchCheckpoint(s, j, l, u, step.worker, step.items, step.folders, step.now);
  }

  lemma OwnBatchCounted(s: Store, u: Id, l: Id, j: Id, step: Step)
    requires Orderly(s) && Enabled(s, step) && Drains(s, u, l, j) && Counted(s, u, l, j)
    requires step.DeleteRows? && step.legacy == l && Apply(s, step).Commit?
    ensures Counted(Next(s, step), u, l, j)
    ensures l in Next(s, step).legacy && Next(s, step).legacy[l].active == s.legacy[l].active
    ensures BatchRows(step.items, step.folders) != {} ==> Drains(Next(s, step), u, l, j)
  {
    BatchCards(s, u, l, j, step);
    BatchWrites(s, u, l, j, step);
  }

  lemma BatchCheckpoint(s: Store, j: Id, l: Id, u: Id, worker: string, items: set<Key>, folders: set<Key>, now: Time)
    requires DeleteBatch(s, j, l, u, worker, items, folders, now).Commit?
    ensures j in s.jobs && CloseGate(s, s.legacy[l].root, s.legacy[l].rootPath, u).Gate?
    ensures
      var t := DeleteBatch(s, j, l, u, worker, items, folders, now).store;
      var extra := if CloseGate(s, s.legacy[l].root, s.legacy[l].rootPath, u).closed then 1 else 0;
      && j in t.jobs
      && t.jobs[j].checkpoint == Checkpoint(
           s.jobs[j].checkpoint.folderRows + extra + (if items == {} then |folders| else 0),
           s.jobs[j].checkpoint.itemRows + |items|)
  {
    GateShape(s, s.legacy[l].root, s.legacy[l].rootPath, u);
  }

  /** The drain's bookkeeping survives every step that leaves the unit DELETING. */
  lemma StepCounted(s: Store, u: Id, l: Id, j: Id, step: Step)
    requires Orderly(s) && Enabled(s, step) && Disciplined(s, step) && Drains(s, u, l, j) && Counted(s, u, l, j)
    requires u in Next(s, step).units && Next(s, step).units[u].state.Deleting?
    ensures Drains(Next(s, step), u, l, j) && Counted(Next(s, step), u, l, j)
    ensures Next(s, step).legacy[l].active == s.legacy[l].active
  {
    var t := Next(s, step);
    if step.DeleteRows? && step.legacy == l {
      if Apply(s, step).Commit? {
        OwnBatchCounted(s, u, l, j, step);
        BatchBuries(s, l, step.job, step.unit, step.worker, step.items, step.folders, step.now);
        OneDeletingUnit(s, s.legacy[l].root, u, step.unit);
      }
    } else if step.CancelDeletion? && step.legacy == l {
      CancelEnds(s, u, l, j, step);
    } else {
      StepProgress(s, l, j, step);
      StepRoots(s, step, u);
      forall k ensures OwnedSame(s, t, u, k) { StepOwned(s, u, l, j, step, k); }
      assert forall folders :: OwnedRows(t.rows, u, folders) == OwnedRows(s.rows, u, folders) by {
        forall folders, k ensures k in OwnedRows(t.rows, u, folders) <==> k in OwnedRows(s.rows, u, folders) { assert OwnedSame(s, t, u, k); }
      }
    }
  }

  lemma CancelEnds(s: Store, u: Id, l: Id, j: Id, step: Step)
    requires Orderly(s) && Enabled(s, step) && Drains(s, u, l, j) && step.CancelDeletion? && step.legacy == l
    requires u in Next(s, step).units && Next(s, step).units[u].state.Deleting?
    ensures Next(s, step) == s
  {
    assert DeletingUnitOf(s, u, s.legacy[l].root);
    if step.deleting.Some? { OneDeletingUnit(s, s.legacy[l].root, u, step.deleting.value); }
  }

  lemma StepRoots(s: Store, step: Step, u: Id)
    requires Orderly(s) && Enabled(s, step) && Disciplined(s, step) && u in s.units && u in Next(s, step).units
    ensures Next(s, step).units[u].root == s.units[u].root
  {
    if step.Cleanup? {
      CleanupRoots(s, step.picks, step.now, u);
    } else {
      var mid, e, e2 := StepEffects(s, step);
      EffectRoots(s, mid, e, u);
      EffectRoots(mid, Next(s, step), e2, u);
    }
  }

  lemma EffectRoots(s: Store, t: Store, e: Effect, u: Id)
    requires Has(s, t, e) && u in s.units
    ensures u in t.units && t.units[u].root == s.units[u].root
  {
  }

  lemma {:induction false} CleanupRoots(s: Store, picks: seq<Pick>, now: Time, u: Id)
    requires u in s.units
    ensures u in After(s, CleanupBatch(s, picks, now)).units
    ensures After(s, CleanupBatch(s, picks, now)).units[u].root == s.units[u].root
  {
    if picks != [] { CleanupRoots(s, picks[..|picks| - 1], now, u); }
  }

  // ---- whole drains ----

  /** Active rows at or below folder `r`. */
  function ActiveRows(rows: Rows, r: Id, folders: bool): set<Key> {
    set k | k in rows && ActiveUnder(rows, k, r) && k.FolderKey? == folders
  }

  function ActiveCounts(rows: Rows, r: Id): Counts {
    Counts(|ActiveRows(rows, r, true)|, |ActiveRows(rows, r, false)|)
  }

  lemma ConfirmedCounts(rows: Rows, r: Id)
    requires Forest(rows) && FolderKey(r) in rows && rows[FolderKey(r)].Folder?
    ensures CountRows(rows, rows[FolderKey(r)].path, false) == ActiveCounts(rows, r)
  {
    var top := rows[FolderKey(r)].path;
    forall folders, k ensures k in RowsBelow(rows, top, folders, false) <==> k in ActiveRows(rows, r, folders) {
      if k in rows { UnderIsBelow(rows, k, r); }
    }
    assert RowsBelow(rows, top, true, false) == ActiveRows(rows, r, true);
    assert RowsBelow(rows, top, false, false) == ActiveRows(rows, r, false);
  }

  lemma OneBuried(rows: Rows, u: Id, key: Key)
    requires key in rows && key.FolderKey? && forall k {:trigger OwnedBy(rows, k, u)} :: !OwnedBy(rows, k, u)
    ensures OwnedRows(rows[key := rows[key].Buried(u)], u, true) == {key}
    ensures OwnedRows(rows[key := rows[key].Buried(u)], u, false) == {}
  {
    var t := rows[key := rows[key].Buried(u)];
    assert OwnedBy(t, key, u);
    forall k | k in t && k != key ensures !OwnedBy(t, k, u) { assert !OwnedBy(rows, k, u); }
  }

  lemma ConfirmStarts(s: Store, step: Step)
    requires Orderly(s) && Enabled(s, step) && Disciplined(s, step) && step.ConfirmDeletion? && Apply(s, step).Commit?
    ensures
      var t := Next(s, step);
      && Drains(t, step.unit, step.legacy, step.job) && Counted(t, step.unit, step.legacy, step.job)
      && t.legacy[step.legacy].active == ActiveCounts(s.rows, step.folder)
      && Deletes(s, step, step.unit, step.folder)
  {
    var l, u, r := step.legacy, step.unit, step.folder;
    var p := s.legacy[l].(status := LegacyQueued, previewExpiresAt := None, nextRunAt := Some(step.now));
    StartShape(s, l, p, u, step.job, step.now);
    GateShape(s, r, p.rootPath, u);
    assert LegacySound(s, l) && RowOwned(s, FolderKey(r)) && UnitRooted(s, u);
    HomeSound(s.rows, FolderKey(r));
    ConfirmedCounts(s.rows, r);
    var t := Next(s, step);
    forall k ensures !OwnedBy(s.rows, k, u) { assert RowOwned(s, k); }
    OneBuried(s.rows, u, FolderKey(r));
  }

  /** Only the job's own empty batch completes the unit. */
  lemma CompletingStep(s: Store, u: Id, l: Id, j: Id, step: Step)
    requires Orderly(s) && Enabled(s, step) && Disciplined(s, step) && Drains(s, u, l, j)
    requires u in Next(s, step).units && Next(s, step).units[u].state.Deleted?
    ensures step.DeleteRows? && step.legacy == l && Apply(s, step).Commit?
  {
    if step.CancelDeletion? && step.legacy == l {
      CancelOutcome(s, u, l, j, step);
    } else if !(step.DeleteRows? && step.legacy == l) {
      OtherStepsLeaveDeleting(s, u, l, j, step);
    }
  }

  /** The fence still names the root's owner a DELETING unit, so it is one. */
  lemma OtherStepsLeaveDeleting(s: Store, u: Id, l: Id, j: Id, step: Step)
    requires Orderly(s) && Enabled(s, step) && Disciplined(s, step) && Drains(s, u, l, j)
    requires !(step.DeleteRows? && step.legacy == l) && !(step.CancelDeletion? && step.legacy == l)
    requires u in Next(s, step).units && StandingState(Next(s, step), u)
    ensures Next(s, step).units[u].state.Deleting?
  {
    var t := Next(s, step);
    assert UnitRooted(s, u);
    StepProgress(s, l, j, step);
    StepOrderly(s, step);
    RootStillThere(s, step, u);
    assert FenceRoot(t, l);
  }

  lemma RootStillThere(s: Store, step: Step, u: Id)
    requires Orderly(s) && Enabled(s, step) && Disciplined(s, step) && Standing(s, u) && StandingState(Next(s, step), u)
    ensures RootInPlace(Next(s, step), u) && Next(s, step).units[u].root == s.units[u].root
  {
    StepKept(s, step, u);
  }

  lemma CancelOutcome(s: Store, u: Id, l: Id, j: Id, step: Step)
    requires Orderly(s) && Enabled(s, step) && Drains(s, u, l, j) && step.CancelDeletion? && step.legacy == l
    ensures u in Next(s, step).units && !Next(s, step).units[u].state.Deleted?
  {
    assert DeletingUnitOf(s, u, s.legacy[l].root);
    if step.deleting.Some? { OneDeletingUnit(s, s.legacy[l].root, u, step.deleting.value); }
  }

  /** Job `j` drains `u` for V5 row `l` from its confirmation in step 0 until after step `n`. */
  ghost predicate Draining(trace: seq<Store>, steps: seq<Step>, u: Id, l: Id, j: Id, r: Id, n: nat) {
    && DisciplinedRun(trace, steps) && 1 <= n < |trace|
    && steps[0].ConfirmDeletion? && steps[0].unit == u && steps[0].legacy == l && steps[0].job == j && steps[0].folder == r
    && Apply(trace[0], steps[0]).Commit?
    && (forall i: nat {:trigger StandingState(trace[i], u)} :: 1 <= i <= n ==> StandingState(trace[i], u) && trace[i].units[u].state.Deleting?)
  }

  lemma DrainBegins(trace: seq<Store>, steps: seq<Step>, u: Id, l: Id, j: Id, r: Id)
    requires Draining(trace, steps, u, l, j, r, 1)
    ensures Drains(trace[1], u, l, j) && Counted(trace[1], u, l, j)
    ensures trace[1].legacy[l].active == ActiveCounts(trace[0].rows, r) && Deletes(trace[0], steps[0], u, r)
  {
    assert StepsTo(trace, steps, 0) && DisciplinedAt(trace, steps, 0);
    ConfirmStarts(trace[0], steps[0]);
  }

  lemma DrainGoesOn(trace: seq<Store>, steps: seq<Step>, u: Id, l: Id, j: Id, n: nat)
    requires DisciplinedRun(trace, steps) && n + 1 < |trace| && Drains(trace[n], u, l, j) && Counted(trace[n], u, l, j)
    requires u in trace[n + 1].units && trace[n + 1].units[u].state.Deleting?
    ensures Drains(trace[n + 1], u, l, j) && Counted(trace[n + 1], u, l, j)
    ensures trace[n + 1].legacy[l].active == trace[n].legacy[l].active
  {
    RunOrderly(trace, steps, n);
    assert StepsTo(trace, steps, n) && DisciplinedAt(trace, steps, n);
    StepCounted(trace[n], u, l, j, steps[n]);
  }

  /** At every moment of the drain both counters equal the number of rows buried so far. */
  lemma {:induction false} CountersExact(trace: seq<Store>, steps: seq<Step>, u: Id, l: Id, j: Id, r: Id, n: nat)
    requires Draining(trace, steps, u, l, j, r, n)
    ensures Drains(trace[n], u, l, j) && Counted(trace[n], u, l, j)
    ensures trace[n].legacy[l].active == ActiveCounts(trace[0].rows, r)
  {
    if n == 1 {
      DrainBegins(trace, steps, u, l, j, r);
    } else {
      CountersExact(trace, steps, u, l, j, r, n - 1);
      assert StandingState(trace[n], u);
      DrainGoesOn(trace, steps, u, l, j, n - 1);
    }
  }

  lemma DrainEnds(trace: seq<Store>, steps: seq<Step>, u: Id, l: Id, j: Id, n: nat)
    requires DisciplinedRun(trace, steps) && n + 1 < |trace| && Drains(trace[n], u, l, j) && Counted(trace[n], u, l, j)
    requires u in trace[n + 1].units && trace[n + 1].units[u].state.Deleted?
    ensures Counted(trace[n + 1], u, l, j) && trace[n + 1].legacy[l].active == trace[n].legacy[l].active
    ensures trace[n + 1].legacy[l].status.LegacySucceeded? && trace[n + 1].jobs[j].status.JobSucceeded?
  {
    RunOrderly(trace, steps, n);
    assert StepsTo(trace, steps, n) && DisciplinedAt(trace, steps, n);
    CompletingStep(trace[n], u, l, j, steps[n]);
    OwnBatchCounted(trace[n], u, l, j, steps[n]);
    BatchWrites(trace[n], u, l, j, steps[n]);
  }

  /** In a DELETED unit's subtree the members are what the unit owns. */
  lemma CompletedOwns(s0: Store, t: Store, u: Id, r: Id, folders: bool)
    requires Tidy(t) && Standing(t, u) && t.units[u].state.Deleted? && t.units[u].root == FolderKey(r)
    requires forall k {:trigger Tracks(s0, t, u, r, k)} :: Tracks(s0, t, u, r, k)
    ensures OwnedRows(t.rows, u, folders) == ActiveRows(s0.rows, r, folders)
  {
    SelfUnder(t.rows, r);
    forall k ensures k in OwnedRows(t.rows, u, folders) <==> k in ActiveRows(s0.rows, r, folders) {
      assert Tracks(s0, t, u, r, k) && RowOwned(t, k) && Sealed(t, u, k);
      if Member(t, u, k) && t.rows[k].deleted {
        var x := t.rows[k].unit.value;
        assert UnitRooted(t, x) && OwnedBy(t.rows, k, x);
        if x != u { MutualUnder(t.rows, r, t.units[x].root.id); }
      }
    }
  }

  /**
   A deletion that succeeds has tombstoned everything below its root, and the
   counters of both job rows are the counts the user confirmed.
   */
  lemma DeletionComplete(trace: seq<Store>, steps: seq<Step>, u: Id, l: Id, j: Id, r: Id, n: nat)
    requires n + 1 < |trace| && Draining(trace, steps, u, l, j, r, n)
    requires u in trace[n + 1].units && trace[n + 1].units[u].state.Deleted?
    ensures forall k {:trigger Under(trace[n + 1].rows, k, r)} :: Under(trace[n + 1].rows, k, r) ==> trace[n + 1].rows[k].deleted
    ensures l in trace[n + 1].legacy && j in trace[n + 1].jobs
    ensures trace[n + 1].legacy[l].deleted == trace[n + 1].legacy[l].active == ActiveCounts(trace[0].rows, r)
    ensures trace[n + 1].jobs[j].checkpoint == Checkpoint(trace[n + 1].legacy[l].active.folders, trace[n + 1].legacy[l].active.items)
    ensures trace[n + 1].legacy[l].status.LegacySucceeded? && trace[n + 1].jobs[j].status.JobSucceeded?
  {
    var s, t := trace[0], trace[n + 1];
    CountersExact(trace, steps, u, l, j, r, n);
    DrainEnds(trace, steps, u, l, j, n);
    RunOrderly(trace, steps, n + 1);
    MembersAtEnd(trace, steps, u, l, j, r, n);
    CompletedOwns(s, t, u, r, true);
    CompletedOwns(s, t, u, r, false);
    CompletedHides(t, u, r);
  }

  lemma CompletedHides(t: Store, u: Id, r: Id)
    requires Tidy(t) && u in t.units && t.units[u].state.Deleted? && t.units[u].root == FolderKey(r)
    ensures forall k {:trigger Under(t.rows, k, r)} :: Under(t.rows, k, r) ==> t.rows[k].deleted
  {
    forall k | Under(t.rows, k, r) ensures t.rows[k].deleted { assert Sealed(t, u, k); }
  }

  lemma MembersAtEnd(trace: seq<Store>, steps: seq<Step>, u: Id, l: Id, j: Id, r: Id, n: nat)
    requires n + 1 < |trace| && Draining(trace, steps, u, l, j, r, n)
    requires u in trace[n + 1].units && trace[n + 1].units[u].state.Deleted?
    ensures Standing(trace[n + 1], u) && trace[n + 1].units[u].root == FolderKey(r)
    ensures forall k {:trigger Tracks(trace[0], trace[n + 1], u, r, k)} :: Tracks(trace[0], trace[n + 1], u, r, k)
  {
    assert StandingState(trace[1], u);
    DrainBegins(trace, steps, u, l, j, r);
    assert StandingState(trace[n + 1], u);
    MembersTracked(trace, steps, u, r, n + 1);
  }

  // ---- progress ----

  /** A member of a drain's subtree is active, or the unit owns it. */
  lemma MemberSplit(s: Store, u: Id, k: Key)
    requires Tidy(s) && u in s.units && s.units[u].state.Deleting?
    ensures ActiveUnder(s.rows, k, s.units[u].root.id) <==> Member(s, u, k) && !OwnedBy(s.rows, k, u)
  {
    assert UnitRooted(s, u) && RowOwned(s, k);
    SelfUnder(s.rows, s.units[u].root.id);
    if k in s.rows && s.rows[k].unit.Some? {
      var x := s.rows[k].unit.value;
      assert UnitRooted(s, x) && OwnedBy(s.rows, k, x) && Outermost(s, u, x);
    }
  }

  /** No other step of a disciplined run brings an active row into the subtree. */
  lemma ActiveNeverGrows(s: Store, u: Id, l: Id, j: Id, step: Step, k: Key)
    requires Orderly(s) && Enabled(s, step) && Disciplined(s, step) && Drains(s, u, l, j)
    requires !(step.DeleteRows? && step.legacy == l)
    requires u in Next(s, step).units && Next(s, step).units[u].state.Deleting?
    ensures ActiveUnder(Next(s, step).rows, k, s.units[u].root.id) <==> ActiveUnder(s.rows, k, s.units[u].root.id)
  {
    assert UnitRooted(s, u);
    StepTidy(s, step);
    StepKept(s, step, u);
    StepOwned(s, u, l, j, step, k);
    MemberSplit(s, u, k);
    MemberSplit(Next(s, step), u, k);
    assert RowKept(s, Next(s, step), u, k);
  }

  /** Each batch that selects rows removes exactly those from the active ones below the root. */
  lemma BatchMakesProgress(s: Store, u: Id, l: Id, j: Id, step: Step, folders: bool)
    requires Orderly(s) && Enabled(s, step) && Drains(s, u, l, j) && step.DeleteRows? && step.legacy == l && Apply(s, step).Commit?
    ensures
      var r, chosen := s.units[u].root.id, BatchRows(step.items, step.folders);
      && ActiveRows(Next(s, step).rows, r, folders) == ActiveRows(s.rows, r, folders) - chosen
      && chosen <= ActiveRows(s.rows, r, true) + ActiveRows(s.rows, r, false)
  {
    var r, chosen := s.units[u].root.id, BatchRows(step.items, step.folders);
    BatchIdentity(s, u, l, j, step);
    BatchBuries(s, l, j, u, step.worker, step.items, step.folders, step.now);
    BuriedActive(s.rows, chosen, u, r, folders);
    assert ActiveRows(Next(s, step).rows, r, folders) == ActiveRows(s.rows, r, folders) - chosen;
    forall k | k in chosen ensures k in ActiveRows(s.rows, r, true) + ActiveRows(s.rows, r, false) {
      assert ActiveRow(s.rows, k) && Under(s.rows, k, r);
    }
  }

  lemma BuriedActive(rows: Rows, chosen: set<Key>, u: Id, r: Id, folders: bool)
    ensures ActiveRows(Tombstoned(rows, chosen, u), r, folders) == ActiveRows(rows, r, folders) - chosen
  {
    BuryPlaces(rows, chosen, u);
    forall k ensures Under(rows, k, r) <==> Under(Tombstoned(rows, chosen, u), k, r) {
      UnderKept(rows, Tombstoned(rows, chosen, u), k, r);
    }
  }
}
