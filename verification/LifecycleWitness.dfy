module LifecycleWitness {
  // Runs from the empty store into each situation the code's guards do not cover: a hidden
  // folder confirmed for deletion, a cancelled deletion that had buried members, a deletion
  // that finishes over a locked row, and moved ancestors at the retention gate and in a purge.

  import opened Wrappers
  import opened LifecycleTables
  import opened LifecycleSteps
  import opened LifecycleRuns
  import opened LifecycleRevive
  import opened LifecycleMirror
  import opened LifecycleFence
  import opened LifecycleInvariant
  import opened LifecycleDiscipline
  import opened LifecycleOrder
  import opened LifecycleRoundTrip
  import opened LifecycleGuards
  import opened LifecycleResults

  const EMPTY: Store := Store(map[], map[], map[], map[], {})

  /** The empty store satisfies the whole invariant. */
  lemma EmptyOrderly()
    ensures Orderly(EMPTY) && NamesUnique(EMPTY.rows)
  {
  }

  ghost predicate Reaches(trace: seq<Store>, steps: seq<Step>, s: Store) {
    DisciplinedRun(trace, steps) && trace[0] == EMPTY && trace[|trace| - 1] == s
  }

  /** Some disciplined run from the empty store ends in `s`. */
  ghost predicate Reachable(s: Store) {
    exists trace, steps {:trigger Reaches(trace, steps, s)} :: Reaches(trace, steps, s)
  }

  lemma EmptyReachable()
    ensures Reachable(EMPTY)
  {
    EmptyOrderly();
    assert Reaches([EMPTY], [], EMPTY);
  }

  lemma ReachNext(s: Store, step: Step, t: Store)
    requires Reachable(s) && Enabled(s, step) && Disciplined(s, step) && Next(s, step) == t
    ensures Reachable(t)
  {
    var trace, steps :| Reaches(trace, steps, s);
    var longer, taken := trace + [t], steps + [step];
    forall i: nat | i < |taken| ensures StepsTo(longer, taken, i) && DisciplinedAt(longer, taken, i) {
      if i < |steps| { assert StepsTo(trace, steps, i) && DisciplinedAt(trace, steps, i); }
    }
    assert Reaches(longer, taken, t);
  }

  lemma ReachableOrderly(s: Store)
    requires Reachable(s)
    ensures Orderly(s)
  {
    var trace, steps :| Reaches(trace, steps, s);
    RunOrderly(trace, steps, |steps|);
  }

  // ---- a deletion begins ----

  const ACTIVE_PARENT := Folder([1], "a", false, None)
  const ACTIVE_CHILD := Folder([1, 2], "b", false, None)
  const BURIED_PARENT := Folder([1], "a", true, Some(11))
  const BURIED_CHILD := Folder([1, 2], "b", true, Some(11))

  const TREE: Rows := map[FolderKey(1) := ACTIVE_PARENT, FolderKey(2) := ACTIVE_CHILD]
  const GATED: Rows := map[FolderKey(1) := BURIED_PARENT, FolderKey(2) := ACTIVE_CHILD]
  const BURIED: Rows := map[FolderKey(1) := BURIED_PARENT, FolderKey(2) := BURIED_CHILD]

  function V5(status: LegacyStatus, folders: nat, attempts: nat, lease: Option<Lease>, preview: Option<Time>, next: Option<Time>): Legacy {
    Legacy(1, [1], status, CountRows(TREE, [1], false), CountRows(TREE, [1], true), Counts(folders, 0), preview, attempts, lease, next)
  }

  function V8(status: JobStatus, folders: nat, attempts: nat, lease: Option<Lease>, next: Option<Time>): Job {
    Job(11, Some(10), DeleteOp, status, Checkpoint(folders, 0), attempts, lease, next)
  }

  function Unit(state: UnitState, retention: Option<Time>): LifecycleUnit {
    LifecycleUnit(FolderKey(1), [1], None, None, state, retention)
  }

  const ONE: Store := Store(map[FolderKey(1) := ACTIVE_PARENT], map[], map[], map[], {1})
  const TWO: Store := Store(TREE, map[], map[], map[], {1, 2})
  const PREVIEWED: Store := Store(TREE, map[], map[10 := V5(LegacyPreviewed, 0, 0, None, Some(PREVIEW_TTL), None)], map[], {1, 2, 10})
  const CONFIRMED: Store := Store(
    GATED, map[11 := Unit(Deleting, None)], map[10 := V5(LegacyQueued, 1, 0, None, None, Some(1))],
    map[12 := V8(JobQueued, 1, 0, None, Some(1))], {1, 2, 10, 11, 12})
  const CLAIMED: Store := Store(
    GATED, map[11 := Unit(Deleting, None)], map[10 := V5(LegacyRunning, 1, 1, Some(Lease("w", 31)), None, None)],
    map[12 := V8(JobRunning, 1, 1, Some(Lease("w", 31)), None)], {1, 2, 10, 11, 12})
  const MEMBER_BURIED: Store := Store(
    BURIED, map[11 := Unit(Deleting, None)], map[10 := V5(LegacyRunning, 2, 1, Some(Lease("w", 32)), None, None)],
    map[12 := V8(JobRunning, 2, 1, Some(Lease("w", 32)), None)], {1, 2, 10, 11, 12})

  lemma FirstFolder()
    ensures CreateFolder(EMPTY, [], "a", 1) == Commit(ONE)
  {
    assert SiblingNames(EMPTY.rows, [], 1) == {};
    assert [] + [1] == [1];
  }

  lemma SecondFolder()
    ensures CreateFolder(ONE, [1], "b", 2) == Commit(TWO)
  {
    assert VisibleFolder(ONE.rows, 1);
    assert FolderKey(1) in ONE.rows && ONE.rows[FolderKey(1)].path == [1];
    assert VisiblePath(ONE.rows, [1]);
    assert SiblingNames(ONE.rows, [1], 2) == {};
    assert [1] + [2] == [1, 2];
    assert ONE.rows[FolderKey(2) := ACTIVE_CHILD] == TREE;
  }

  lemma TwoReachable()
    ensures Reachable(ONE) && Reachable(TWO)
  {
    EmptyReachable();
    FirstFolder();
    ReachNext(EMPTY, NewFolder([], "a", 1), ONE);
    SecondFolder();
    ReachNext(ONE, NewFolder([1], "b", 2), TWO);
  }

  lemma Previewing()
    ensures Preview(TWO, 1, 10, 0) == Commit(PREVIEWED)
  {
  }

  lemma Confirming()
    ensures Confirm(PREVIEWED, 10, 1, true, 11, 12, 1) == Commit(CONFIRMED)
    ensures VisibleFolder(PREVIEWED.rows, 1)
  {
    assert !([1, 2] <= [1]);
    assert TREE[FolderKey(1) := BURIED_PARENT] == GATED;
  }

  lemma Claiming()
    ensures Claim(CONFIRMED, 12, "w", 1) == Commit(CLAIMED)
  {
  }

  lemma MemberTombstoned()
    ensures Tombstoned(GATED, {FolderKey(2)}, 11) == BURIED
  {
  }

  lemma BuryingMember()
    ensures DeleteBatch(CLAIMED, 12, 10, 11, "w", {}, {FolderKey(2)}, 2) == Commit(MEMBER_BURIED)
  {
    GateShut(CLAIMED);
    MemberTombstoned();
  }

  lemma PreviewedReachable()
    ensures Reachable(PREVIEWED)
  {
    TwoReachable();
    Previewing();
    ReachNext(TWO, PreviewDeletion(1, 10, 0), PREVIEWED);
  }

  lemma ConfirmedReachable()
    ensures Reachable(CONFIRMED)
  {
    PreviewedReachable();
    Confirming();
    ReachNext(PREVIEWED, ConfirmDeletion(10, 1, true, 11, 12, 1), CONFIRMED);
  }

  lemma ClaimedReachable()
    ensures Reachable(CLAIMED)
  {
    ConfirmedReachable();
    Claiming();
    ReachNext(CONFIRMED, Poll(None, Some(12), "w", 1), CLAIMED);
  }

  lemma MemberSelected()
    ensures Enabled(CLAIMED, DeleteRows(10, 12, 11, "w", {}, {FolderKey(2)}, 2))
  {
    assert [1] <= [1, 2] && FolderKey(2) in RowsBelow(GATED, [1], true, false);
  }

  lemma MemberBuriedReachable()
    ensures Reachable(MEMBER_BURIED)
  {
    ClaimedReachable();
    BuryingMember();
    MemberSelected();
    ReachNext(CLAIMED, DeleteRows(10, 12, 11, "w", {}, {FolderKey(2)}, 2), MEMBER_BURIED);
  }

  // ---- cancelled after a failed attempt ----

  const REQUEUED: Store := Store(
    BURIED, map[11 := Unit(Deleting, None)], map[10 := V5(LegacyQueued, 2, 1, None, None, Some(8))],
    map[12 := V8(JobQueued, 2, 1, None, Some(8))], {1, 2, 10, 11, 12})

  lemma GivingUp()
    ensures FailDeletion(MEMBER_BURIED, 12, 10, "w", 3) == Commit(REQUEUED)
  {
  }

  /** A re-queued job is cancelled although its unit has buried a member, which no live unit then owns. */
  lemma RequeuedCancelLosesMember()
    ensures Reachable(REQUEUED) && Enabled(REQUEUED, CancelDeletion(10, Some(12), Some(11)))
    ensures Cancel(REQUEUED, 10, Some(12), Some(11)).Commit? && !Owned(Cancel(REQUEUED, 10, Some(12), Some(11)).store)
  {
    MemberBuriedReachable();
    GivingUp();
    ReachNext(MEMBER_BURIED, GiveUpDeletion(10, 12, "w", 3), REQUEUED);
    ReachableOrderly(REQUEUED);
    RequeuedCancels();
    assert OwnedBy(REQUEUED.rows, FolderKey(2), 11);
    CancelExactly(REQUEUED, 10, Some(12), 11);
  }

  lemma RequeuedCancels()
    ensures Cancel(REQUEUED, 10, Some(12), Some(11)).Commit?
  {
    assert SiblingNames(BURIED, [], 1) == {};
  }

  // ---- finished over a locked row ----

  /** With its one remaining row locked, a batch completes the deletion over an active row. */
  lemma SkippedRowStaysActive()
    ensures Reachable(CLAIMED) && Enabled(CLAIMED, DeleteRows(10, 12, 11, "w", {}, {}, 2))
    ensures DeleteBatch(CLAIMED, 12, 10, 11, "w", {}, {}, 2).Commit?
    ensures !Tidy(DeleteBatch(CLAIMED, 12, 10, 11, "w", {}, {}, 2).store)
  {
    ClaimedReachable();
    ReachableOrderly(CLAIMED);
    assert [1] <= [1, 2] && FolderKey(2) in DeletableRows(GATED, [1], 1, true);
    DeletionEndsExactly(CLAIMED, 10, 12, 11, "w", 2);
  }

  // ---- confirmed while hidden ----

  function Finished(): Legacy { V5(LegacySucceeded, 2, 1, None, None, None) }

  function FinishedJob(): Job { V8(JobSucceeded, 2, 1, None, None) }

  function RestoreJob(status: JobStatus, folders: nat, attempts: nat, lease: Option<Lease>, next: Option<Time>): Job {
    Job(11, None, RestoreOp, status, Checkpoint(folders, 0), attempts, lease, next)
  }

  const DELETED: Store := Store(
    BURIED, map[11 := Unit(Deleted, Some(3 + RETENTION))], map[10 := Finished()], map[12 := FinishedJob()], {1, 2, 10, 11, 12})
  const ASKED: Store := Store(
    BURIED, map[11 := Unit(RestoreQueued, Some(3 + RETENTION))], map[10 := Finished()],
    map[12 := FinishedJob(), 13 := RestoreJob(JobQueued, 0, 0, None, Some(4))], {1, 2, 10, 11, 12, 13})
  const RESTORING: Store := Store(
    BURIED, map[11 := Unit(Restoring, Some(3 + RETENTION))], map[10 := Finished()],
    map[12 := FinishedJob(), 13 := RestoreJob(JobRunning, 0, 1, Some(Lease("w", 34)), None)], {1, 2, 10, 11, 12, 13})
  const HIDDEN: Store := Store(
    GATED, map[11 := Unit(Restoring, Some(3 + RETENTION))], map[10 := Finished()],
    map[12 := FinishedJob(), 13 := RestoreJob(JobRunning, 1, 1, Some(Lease("w", 35)), None)], {1, 2, 10, 11, 12, 13})
  const HIDDEN_PREVIEWED: Store := Store(
    GATED, map[11 := Unit(Restoring, Some(3 + RETENTION))],
    map[10 := Finished(),
        14 := Legacy(2, [1, 2], LegacyPreviewed, CountRows(GATED, [1, 2], false), CountRows(GATED, [1, 2], true), Counts(0, 0),
                     Some(6 + PREVIEW_TTL), 0, None, None)],
    map[12 := FinishedJob(), 13 := RestoreJob(JobRunning, 1, 1, Some(Lease("w", 35)), None)], {1, 2, 10, 11, 12, 13, 14})

  lemma Finishing()
    ensures DeleteBatch(MEMBER_BURIED, 12, 10, 11, "w", {}, {}, 3) == Commit(DELETED)
  {
    GateShut(MEMBER_BURIED);
  }

  /** The gate of a running deletion is closed already. */
  lemma GateShut(s: Store)
    requires DeletingUnitOf(s, 11, 1) && FolderKey(1) in s.rows && s.rows[FolderKey(1)] == BURIED_PARENT
    ensures CloseGate(s, 1, [1], 11) == Gate(s, false)
  {
    assert s.rows[FolderKey(1) := BURIED_PARENT] == s.rows;
  }

  lemma NothingActive()
    ensures NoRowSkipped(MEMBER_BURIED, 10, {}, {})
  {
    forall folders, k ensures k !in RowsBelow(BURIED, [1], folders, false) {}
    assert DeletableRows(BURIED, [1], 1, true) == {} && DeletableRows(BURIED, [1], 1, false) == {};
  }

  lemma Asking()
    ensures QueueRestore(DELETED, 11, 13, 4) == Commit(ASKED)
  {
    assert !OccupiesUnit(DELETED, 12, 11);
  }

  lemma ClaimingRestore()
    ensures Claim(ASKED, 13, "w", 4) == Commit(RESTORING)
  {
  }

  lemma RaisingMember()
    ensures RestoreBatch(RESTORING, 13, "w", [2], [], 5) == Commit(HIDDEN)
  {
    assert ReviveFolders(BURIED, []) == BURIED && [2][..0] == [];
    assert SiblingNames(BURIED, [1], 2) == {};
    assert BURIED[FolderKey(2) := ACTIVE_CHILD] == GATED;
  }

  lemma PreviewingHidden()
    ensures Preview(HIDDEN, 2, 14, 6) == Commit(HIDDEN_PREVIEWED)
  {
  }

  lemma DeletedReachable()
    ensures Reachable(DELETED)
  {
    MemberBuriedReachable();
    Finishing();
    NothingActive();
    ReachNext(MEMBER_BURIED, DeleteRows(10, 12, 11, "w", {}, {}, 3), DELETED);
  }

  lemma AskedReachable()
    ensures Reachable(ASKED)
  {
    DeletedReachable();
    Asking();
    ReachNext(DELETED, AskRestore(11, 13, 4), ASKED);
  }

  lemma RestoringReachable()
    ensures Reachable(RESTORING)
  {
    AskedReachable();
    ClaimingRestore();
    ReachNext(ASKED, Poll(None, Some(13), "w", 4), RESTORING);
  }

  lemma HiddenReachable()
    ensures Reachable(HIDDEN)
  {
    RestoringReachable();
    RaisingMember();
    assert FolderKey(2) in BURIED && 2 in RestorableIds(BURIED, 11, FolderKey(1), true);
    ReachNext(RESTORING, RestoreRows(13, "w", [2], [], 5), HIDDEN);
  }

  lemma HiddenPreviewedReachable()
    ensures Reachable(HIDDEN_PREVIEWED)
  {
    HiddenReachable();
    PreviewingHidden();
    ReachNext(HIDDEN, PreviewDeletion(2, 14, 6), HIDDEN_PREVIEWED);
  }

  /** A member raised by a running restore is hidden, and can still be confirmed for deletion: the restore loses it. */
  lemma HiddenConfirmLosesMember()
    ensures Reachable(HIDDEN_PREVIEWED) && !VisibleFolder(HIDDEN_PREVIEWED.rows, 2)
    ensures Enabled(HIDDEN_PREVIEWED, ConfirmDeletion(14, 2, true, 15, 16, 7)) && Confirm(HIDDEN_PREVIEWED, 14, 2, true, 15, 16, 7).Commit?
    ensures !KeepsMembers(HIDDEN_PREVIEWED, Confirm(HIDDEN_PREVIEWED, 14, 2, true, 15, 16, 7).store)
  {
    HiddenPreviewedReachable();
    HiddenConfirms();
    HiddenEnabled();
    ConfirmEnabled();
    ConfirmLoses(HIDDEN_PREVIEWED, 14, 2, 15, 16, 7);
  }

  lemma ConfirmEnabled()
    requires GateChoice(HIDDEN_PREVIEWED, 2, 15)
    ensures Enabled(HIDDEN_PREVIEWED, ConfirmDeletion(14, 2, true, 15, 16, 7))
  {
  }

  lemma ConfirmLoses(s: Store, l: Id, root: Id, u: Id, j: Id, now: Time)
    requires Reachable(s) && Enabled(s, ConfirmDeletion(l, root, true, u, j, now))
    requires Confirm(s, l, root, true, u, j, now).Commit? && !VisibleFolder(s.rows, root)
    ensures !KeepsMembers(s, Confirm(s, l, root, true, u, j, now).store)
  {
    ReachableOrderly(s);
    ConfirmExactly(s, l, root, true, u, j, now);
  }

  lemma HiddenConfirms()
    ensures Confirm(HIDDEN_PREVIEWED, 14, 2, true, 15, 16, 7).Commit?
  {
    var s := HIDDEN_PREVIEWED;
    assert !DeletingUnitOf(s, 11, 2) && !LiveRootUnit(s, 11, FolderKey(2));
    HiddenNotFenced();
    assert Confirmable(s, 14, 2, true, 7);
    assert CloseGate(s, 2, [1, 2], 15).Gate?;
  }

  lemma HiddenEnabled()
    ensures !VisibleFolder(HIDDEN_PREVIEWED.rows, 2)
    ensures GateChoice(HIDDEN_PREVIEWED, 2, 15)
  {
    assert Tombstone(GATED, FolderKey(1)) && [1] <= [1, 2];
    assert !DeletingUnitOf(HIDDEN_PREVIEWED, 11, 2);
  }

  lemma HiddenNotFenced()
    ensures !Fenced(HIDDEN_PREVIEWED, [1, 2])
  {
    assert !FencesPath(HIDDEN_PREVIEWED, 10, [1, 2]) && !FencesPath(HIDDEN_PREVIEWED, 14, [1, 2]);
  }

  /** With every member locked, a restore batch raises the root alone and strands the members. */
  lemma SkippedMemberIsStranded()
    ensures Reachable(RESTORING) && Enabled(RESTORING, RestoreRows(13, "w", [], [], 5))
    ensures RestoreBatch(RESTORING, 13, "w", [], [], 5).Commit? && !Tidy(RestoreBatch(RESTORING, 13, "w", [], [], 5).store)
  {
    RestoringReachable();
    ReachableOrderly(RESTORING);
    assert FolderKey(2) in BURIED && 2 in RestorableIds(BURIED, 11, FolderKey(1), true);
    RestoreEndsExactly(RESTORING, 13, "w", 5);
  }

  // ---- an ancestor moved before the retention gate ----

  const INNER_ROW := Folder([1, 2, 3], "c", true, Some(11))
  const INNER: LifecycleUnit := LifecycleUnit(FolderKey(3), [1, 2, 3], Some([1, 2]), None, Deleted, Some(RETENTION))
  const OUTER: LifecycleUnit := LifecycleUnit(FolderKey(2), [2], None, None, Deleted, Some(1 + RETENTION))

  const THREE: Store := Store(TREE[FolderKey(3) := Folder([1, 2, 3], "c", false, None)], map[], map[], map[], {1, 2, 3})
  const INNER_DELETED: Store := Store(TREE[FolderKey(3) := INNER_ROW], map[11 := INNER], map[], map[], {1, 2, 3, 11})
  const CARRIED: Store := Store(
    map[FolderKey(1) := ACTIVE_PARENT, FolderKey(2) := Folder([2], "b", false, None), FolderKey(3) := Folder([2, 3], "c", true, Some(11))],
    map[11 := INNER], map[], map[], {1, 2, 3, 11})
  const MOVED_ROWS: Rows :=
    map[FolderKey(1) := ACTIVE_PARENT, FolderKey(2) := Folder([2], "b", true, Some(10)), FolderKey(3) := Folder([2, 3], "c", true, Some(11))]
  const MOVED: Store := Store(MOVED_ROWS, map[10 := OUTER, 11 := INNER], map[], map[], {1, 2, 3, 10, 11})
  const QUEUED: Store := Store(
    MOVED_ROWS, map[10 := OUTER.(state := PurgeQueued), 11 := INNER], map[],
    map[20 := Job(10, None, PurgeOp, JobQueued, Checkpoint(0, 0), 0, None, Some(1 + RETENTION))], {1, 2, 3, 10, 11, 20})
  const PURGING: Store := Store(
    MOVED_ROWS, map[10 := OUTER.(state := Purging), 11 := INNER], map[],
    map[20 := Job(10, None, PurgeOp, JobRunning, Checkpoint(0, 0), 1, Some(Lease("p", 31 + RETENTION)), None)], {1, 2, 3, 10, 11, 20})

  lemma ThirdFolder()
    ensures CreateFolder(TWO, [1, 2], "c", 3) == Commit(THREE)
  {
    assert VisibleFolder(TREE, 2);
    assert FolderKey(2) in TREE && TREE[FolderKey(2)].path == [1, 2];
    assert VisiblePath(TREE, [1, 2]);
    assert SiblingNames(TREE, [1, 2], 3) == {};
    assert [1, 2] + [3] == [1, 2, 3];
  }

  lemma DroppingInner()
    ensures DeleteFolder(THREE, 3, 11, 0) == Commit(INNER_DELETED)
  {
    assert VisibleFolder(THREE.rows, 3);
    assert !([1, 2, 3] <= [1]) && !([1, 2, 3] <= [1, 2]);
    assert [1, 2, 3][..2] == [1, 2];
  }

  lemma CarryingInner()
    ensures MoveFolder(INNER_DELETED, 2, None) == Commit(CARRIED)
  {
    var rows := INNER_DELETED.rows;
    assert VisibleFolder(rows, 2) by { assert !([1, 2, 3] <= [1, 2]); }
    assert "b" !in SiblingNames(rows, [], 2) by {
      forall k | k in rows && ActiveChild(rows, k, []) && k != FolderKey(2) ensures rows[k].name != "b" { assert k == FolderKey(1); assert "a"[0] != "b"[0]; }
    }
    assert [] + [2] == [2] && [1, 2] <= [1, 2, 3] && !([1, 2] <= [1]);
    assert [1, 2, 3][2..] == [3] && [1, 2][2..] == [] && [2] + [3] == [2, 3] && [2] + [] == [2];
    assert Moved(rows, [1, 2], [2]) == CARRIED.rows;
  }

  lemma DroppingOuter()
    ensures DeleteFolder(CARRIED, 2, 10, 1) == Commit(MOVED)
  {
    assert VisibleFolder(CARRIED.rows, 2) by { assert !([2, 3] <= [2]); }
    assert !([2] <= [1]) by { assert [2][0] != [1][0]; }
  }

  lemma ThreeReachable()
    ensures Reachable(THREE)
  {
    TwoReachable();
    ThirdFolder();
    ReachNext(TWO, NewFolder([1, 2], "c", 3), THREE);
  }

  lemma InnerDeletedReachable()
    ensures Reachable(INNER_DELETED)
  {
    ThreeReachable();
    DroppingInner();
    ReachNext(THREE, DropFolder(3, 11, 0), INNER_DELETED);
  }

  lemma CarriedReachable()
    ensures Reachable(CARRIED)
  {
    InnerDeletedReachable();
    CarryingInner();
    ReachNext(INNER_DELETED, Move(2, None), CARRIED);
  }

  lemma MovedReachable()
    ensures Reachable(MOVED)
  {
    CarriedReachable();
    DroppingOuter();
    ReachNext(CARRIED, DropFolder(2, 10, 1), MOVED);
  }

  lemma GatePasses()
    ensures Eligible(MOVED, 10, 1 + RETENTION) && QueuePurge(MOVED, 10, 20, 1 + RETENTION) == Commit(QUEUED)
  {
    assert !([2] <= [1, 2, 3]) by { assert [2][0] != [1, 2, 3][0]; }
    assert !Depends(MOVED, 11, 10) && !Depends(MOVED, 10, 10);
  }

  /** The gate passes a unit although a live unit lies inside: its snapshot names the old place. */
  lemma MovedAncestorDefeatsGate()
    ensures Reachable(MOVED) && Enabled(MOVED, Cleanup([Pick(10, 20)], 1 + RETENTION))
    ensures Next(MOVED, Cleanup([Pick(10, 20)], 1 + RETENTION)) == QUEUED && !NestedAll(QUEUED)
  {
    MovedReachable();
    GatePasses();
    CleanupOfOne(MOVED, 10, 20, 1 + RETENTION, QUEUED);
    ReachableOrderly(MOVED);
    InnerUncovered();
    GateExactly(MOVED, 10, 20, 1 + RETENTION);
  }

  lemma CleanupOfOne(s: Store, u: Id, j: Id, now: Time, t: Store)
    requires QueuePurge(s, u, j, now) == Commit(t)
    ensures CleanupBatch(s, [Pick(u, j)], now) == Commit(t)
  {
    assert [Pick(u, j)][..0] == [] && CleanupBatch(s, [], now) == Commit(s);
  }

  lemma InnerUncovered()
    ensures !SnapshotsBelow(MOVED, 10)
  {
    assert Under(MOVED_ROWS, FolderKey(3), 2) by { assert PathOf(MOVED_ROWS, FolderKey(3))[0] == 2; }
    assert !SnapshotBelow(MOVED, 10, 11) by { assert [2][0] != [1, 2, 3][0]; }
  }

  lemma ClaimingPurge()
    ensures Claim(QUEUED, 20, "p", 1 + RETENTION) == Commit(PURGING)
  {
  }

  /** The purge that follows takes folder 2 away from above folder 3. */
  lemma OrphanedBelowPurge()
    ensures Next(QUEUED, Poll(None, Some(20), "p", 1 + RETENTION)) == PURGING
    ensures Enabled(PURGING, PurgeOneFolder(20, "p", Some(2), 2 + RETENTION))
    ensures FinalizePurge(PURGING, 20, "p", Some(2), 2 + RETENTION) == Commit(PURGING.(rows := MOVED_ROWS - {FolderKey(2)}))
    ensures !Forest(MOVED_ROWS - {FolderKey(2)})
  {
    ClaimingPurge();
    assert PurgeLeaf(PURGING, 2, 10);
    var left := MOVED_ROWS - {FolderKey(2)};
    assert !Chained(left, 3, 0) by { assert left[FolderKey(3)].path[0] == 2; }
  }

  // ---- an ancestor moved before a purge ends ----

  const STALE: LifecycleUnit := LifecycleUnit(FolderKey(2), [1, 2], Some([1]), None, Deleted, Some(RETENTION))
  const CHILD_DELETED: Store := Store(map[FolderKey(1) := ACTIVE_PARENT, FolderKey(2) := BURIED_CHILD], map[11 := STALE], map[], map[], {1, 2, 11})
  const BESIDE: Store := Store(
    map[FolderKey(1) := ACTIVE_PARENT, FolderKey(2) := BURIED_CHILD, FolderKey(5) := Folder([5], "x", false, None)],
    map[11 := STALE], map[], map[], {1, 2, 5, 11})
  const AWAY_ROWS: Rows :=
    map[FolderKey(1) := Folder([5, 1], "a", false, None), FolderKey(2) := Folder([5, 1, 2], "b", true, Some(11)),
        FolderKey(5) := Folder([5], "x", false, None)]
  const AWAY: Store := Store(AWAY_ROWS, map[11 := STALE], map[], map[], {1, 2, 5, 11})
  const AWAY_QUEUED: Store := Store(
    AWAY_ROWS, map[11 := STALE.(state := PurgeQueued)], map[],
    map[12 := Job(11, None, PurgeOp, JobQueued, Checkpoint(0, 0), 0, None, Some(RETENTION))], {1, 2, 5, 11, 12})
  const AWAY_PURGING: Store := Store(
    AWAY_ROWS, map[11 := STALE.(state := Purging)], map[],
    map[12 := Job(11, None, PurgeOp, JobRunning, Checkpoint(0, 0), 1, Some(Lease("p", 30 + RETENTION)), None)], {1, 2, 5, 11, 12})

  lemma DroppingChild()
    ensures DeleteFolder(TWO, 2, 11, 0) == Commit(CHILD_DELETED)
  {
    assert VisibleFolder(TREE, 2);
    assert !([1, 2] <= [1]) && [1, 2][..1] == [1];
    assert TREE[FolderKey(2) := BURIED_CHILD] == CHILD_DELETED.rows;
  }

  lemma FolderBeside()
    ensures CreateFolder(CHILD_DELETED, [], "x", 5) == Commit(BESIDE)
  {
    var rows := CHILD_DELETED.rows;
    assert "x" !in SiblingNames(rows, [], 5) by {
      forall k | k in rows && ActiveChild(rows, k, []) ensures rows[k].name != "x" { assert k == FolderKey(1); assert "a"[0] != "x"[0]; }
    }
    assert [] + [5] == [5];
  }

  lemma MovingAway()
    ensures MoveFolder(BESIDE, 1, Some(5)) == Commit(AWAY)
  {
    var rows := BESIDE.rows;
    assert VisibleFolder(rows, 1) && VisibleFolder(rows, 5) by { assert !([1, 2] <= [1]) && [1, 2][0] != [5][0]; }
    assert [5] + [1] == [5, 1] && !([1] <= [5]) by { assert [1][0] != [5][0]; }
    assert SiblingNames(rows, [5], 1) == {} by {
      forall k | k in rows ensures !ActiveChild(rows, k, [5]) { if k == FolderKey(2) { assert rows[k].deleted; } }
    }
    assert [1] <= [1, 2] && [1, 2][1..] == [2] && [1][1..] == [] && [5, 1] + [2] == [5, 1, 2] && [5, 1] + [] == [5, 1];
    assert Moved(rows, [1], [5, 1]) == AWAY_ROWS;
  }

  lemma QueueingAway()
    ensures Eligible(AWAY, 11, RETENTION) && QueuePurge(AWAY, 11, 12, RETENTION) == Commit(AWAY_QUEUED)
    ensures SnapshotsBelow(AWAY, 11)
  {
    assert !Depends(AWAY, 11, 11);
  }

  lemma ClaimingAway()
    ensures Claim(AWAY_QUEUED, 12, "p", RETENTION) == Commit(AWAY_PURGING)
  {
  }

  lemma ChildDeletedReachable()
    ensures Reachable(CHILD_DELETED)
  {
    TwoReachable();
    DroppingChild();
    ReachNext(TWO, DropFolder(2, 11, 0), CHILD_DELETED);
  }

  lemma BesideReachable()
    ensures Reachable(BESIDE)
  {
    ChildDeletedReachable();
    FolderBeside();
    ReachNext(CHILD_DELETED, NewFolder([], "x", 5), BESIDE);
  }

  lemma AwayReachable()
    ensures Reachable(AWAY)
  {
    BesideReachable();
    MovingAway();
    ReachNext(BESIDE, Move(1, Some(5)), AWAY);
  }

  lemma AwayQueuedReachable()
    ensures Reachable(AWAY_QUEUED)
  {
    AwayReachable();
    QueueingAway();
    CleanupOfOne(AWAY, 11, 12, RETENTION, AWAY_QUEUED);
    ReachNext(AWAY, Cleanup([Pick(11, 12)], RETENTION), AWAY_QUEUED);
  }

  lemma AwayPurgingReachable()
    ensures Reachable(AWAY_PURGING)
  {
    AwayQueuedReachable();
    ClaimingAway();
    ReachNext(AWAY_QUEUED, Poll(None, Some(12), "p", RETENTION), AWAY_PURGING);
  }

  lemma AwayHasNoLeaf()
    ensures NoLeaf(AWAY_PURGING, 11) && FinalizePurge(AWAY_PURGING, 12, "p", None, 1 + RETENTION).Commit?
    ensures !SnapshotCurrent(AWAY_PURGING, 11)
  {
    assert [1, 2][0] != [5, 1, 2][0] && !([1, 2] <= [5, 1, 2]);
  }

  /** The purge selects nothing and finishes; the tombstone it should have removed is left to no live unit. */
  lemma MovedAncestorEndsPurgeEarly()
    ensures Reachable(AWAY_PURGING) && Enabled(AWAY_PURGING, PurgeOneFolder(12, "p", None, 1 + RETENTION)) && NoLeaf(AWAY_PURGING, 11)
    ensures
      var o := FinalizePurge(AWAY_PURGING, 12, "p", None, 1 + RETENTION);
      o.Commit? && o.store.units[11].state.Purged? && OwnedBy(o.store.rows, FolderKey(2), 11) && !Tidy(o.store)
  {
    AwayPurgingReachable();
    AwayHasNoLeaf();
    ReachableOrderly(AWAY_PURGING);
    FinishExactly(AWAY_PURGING, 12, "p", 1 + RETENTION);
  }
}
