module LifecycleResults {
  // What the lifecycle engine guarantees over runs, and exactly where the code's
  // guards are too weak for it.

  import opened Wrappers
  import opened LifecycleTables
  import opened LifecycleSteps
  import opened LifecycleRuns
  import opened LifecycleRevive
  import opened LifecycleMirror
  import opened LifecycleFence
  import opened LifecycleInvariant
  import opened LifecycleKept
  import opened LifecycleRowSteps
  import opened LifecycleTreeSteps
  import opened LifecycleDiscipline
  import opened LifecycleOrder
  import opened LifecycleMembers
  import opened LifecycleRoundTrip
  import opened LifecycleDrain

  // ---- in every run ----

  ghost predicate Sane(s: Store) {
    IdsSpent(s) && Mirrored(s) && Guarded(s)
  }

  lemma {:induction false} RunSane(trace: seq<Store>, steps: seq<Step>, n: nat)
    requires Run(trace, steps) && Sane(trace[0]) && n < |trace|
    ensures Sane(trace[n])
  {
    if n > 0 {
      RunSane(trace, steps, n - 1);
      assert StepsTo(trace, steps, n - 1);
      StepSpends(trace[n - 1], steps[n - 1]);
      StepMirrors(trace[n - 1], steps[n - 1]);
      StepGuarded(trace[n - 1], steps[n - 1]);
    }
  }

  /** The V5 row of a DELETE job always shows its status, attempts, lease and schedule. */
  lemma LegacyIsImage(trace: seq<Store>, steps: seq<Step>, n: nat, j: Id)
    requires Run(trace, steps) && Sane(trace[0]) && n < |trace|
    requires j in trace[n].jobs && trace[n].jobs[j].operation.DeleteOp?
    ensures trace[n].jobs[j].legacy.Some? && trace[n].jobs[j].legacy.value in trace[n].legacy
    ensures
      var job, legacy := trace[n].jobs[j], trace[n].legacy[trace[n].jobs[j].legacy.value];
      && legacy.status == Image(job.status) && legacy.attempts == job.attempts
      && legacy.lease == job.lease && legacy.nextRunAt == job.nextRunAt
      && legacy.deleted.folders == job.checkpoint.folderRows
  {
    RunSane(trace, steps, n);
    assert JobSound(trace[n], j);
  }

  /** Once linked, a V5 row and its job count the same items from then on. */
  lemma {:induction false} SurplusKept(trace: seq<Store>, steps: seq<Step>, m: nat, n: nat, j: Id)
    requires Run(trace, steps) && Sane(trace[0]) && m <= n < |trace| && Paired(trace[m], j)
    ensures Paired(trace[n], j) && trace[n].jobs[j].legacy == trace[m].jobs[j].legacy && Surplus(trace[n], j) == Surplus(trace[m], j)
    decreases n
  {
    if m < n {
      SurplusKept(trace, steps, m, n - 1, j);
      RunSane(trace, steps, n - 1);
      assert StepsTo(trace, steps, n - 1);
      StepMirrors(trace[n - 1], steps[n - 1]);
      assert PairKept(trace[n - 1], trace[n], j);
    }
  }

  /** A confirmed job starts with equal item counts, an adopted one behind by what V5 had counted alone. */
  lemma SurplusAtStart(s: Store, l: Id, root: Id, accepted: bool, u: Id, j: Id, now: Time)
    requires Mirrored(s)
    ensures Confirm(s, l, root, accepted, u, j, now).Commit? ==>
      var t := Confirm(s, l, root, accepted, u, j, now).store; Paired(t, j) && Surplus(t, j) == 0
    ensures Adopt(s, l, u, j, now).Commit? ==>
      var t := Adopt(s, l, u, j, now).store; Paired(t, j) && Surplus(t, j) == s.legacy[l].deleted.items
  {
    assert LegacySound(s, l);
  }

  /** In every run the item count a V5 row shows is its job's, from the confirmation on. */
  lemma ItemCountsAgree(trace: seq<Store>, steps: seq<Step>, i: nat, n: nat)
    requires Run(trace, steps) && Sane(trace[0]) && i < n < |trace| && steps[i].ConfirmDeletion? && trace[i + 1] != trace[i]
    ensures
      var j := steps[i].job;
      Paired(trace[n], j) && trace[n].legacy[trace[n].jobs[j].legacy.value].deleted.items == trace[n].jobs[j].checkpoint.itemRows
  {
    assert StepsTo(trace, steps, i);
    RunSane(trace, steps, i);
    var m := steps[i];
    SurplusAtStart(trace[i], m.legacy, m.folder, m.accepted, m.unit, m.job, m.now);
    SurplusKept(trace, steps, i + 1, n, m.job);
  }

  /** Protected roots are where their V5 rows say, and no two lie on one path. */
  lemma FencedRootsApart(trace: seq<Store>, steps: seq<Step>, n: nat, l: Id, m: Id)
    requires Run(trace, steps) && Sane(trace[0]) && n < |trace| && Fencing(trace[n], l) && Fencing(trace[n], m) && l != m
    ensures FolderAt(trace[n].rows, trace[n].legacy[l].root, trace[n].legacy[l].rootPath)
    ensures !(trace[n].legacy[l].rootPath <= trace[n].legacy[m].rootPath)
    ensures !(trace[n].legacy[m].rootPath <= trace[n].legacy[l].rootPath)
  {
    RunSane(trace, steps, n);
    assert FenceRoot(trace[n], l) && FencePair(trace[n], l, m);
  }

  // ---- in every disciplined run ----

  /** No folder is ever orphaned: each prefix of its path is the path of a present folder. */
  lemma NeverOrphaned(trace: seq<Store>, steps: seq<Step>, n: nat, f: Id, i: nat)
    requires DisciplinedRun(trace, steps) && n < |trace|
    requires FolderKey(f) in trace[n].rows && trace[n].rows[FolderKey(f)].Folder? && i < |trace[n].rows[FolderKey(f)].path|
    ensures FolderAt(trace[n].rows, trace[n].rows[FolderKey(f)].path[i], trace[n].rows[FolderKey(f)].path[..i + 1])
  {
    RunOrderly(trace, steps, n);
    assert Chained(trace[n].rows, f, i);
  }

  /** While a folder unit is under purge, every other unit rooted inside it has ended. */
  lemma NestingGateHolds(trace: seq<Store>, steps: seq<Step>, n: nat, u: Id, x: Id)
    requires DisciplinedRun(trace, steps) && n < |trace| && u in trace[n].units && x in trace[n].units && u != x
    requires trace[n].units[u].root.FolderKey? && PurgeState(trace[n].units[u].state)
    requires Under(trace[n].rows, trace[n].units[x].root, trace[n].units[u].root.id)
    ensures trace[n].units[x].state.Restored? || trace[n].units[x].state.Purged?
  {
    RunOrderly(trace, steps, n);
    assert Nested(trace[n], u, x);
  }

  /** Nor is a row of any other unit left below it: all carry the purged unit's id. */
  lemma PurgeOwnsSubtree(trace: seq<Store>, steps: seq<Step>, n: nat, u: Id, k: Key)
    requires DisciplinedRun(trace, steps) && n < |trace| && u in trace[n].units
    requires trace[n].units[u].root.FolderKey? && PurgeState(trace[n].units[u].state)
    requires Under(trace[n].rows, k, trace[n].units[u].root.id)
    ensures trace[n].rows[k].deleted && trace[n].rows[k].unit == Some(u)
  {
    RunOrderly(trace, steps, n);
    PurgedSubtreeIsOwned(trace[n], u, k);
  }

  /** A folder the purge removes has no row of any unit below it. */
  lemma PurgeIsLeafFirst(trace: seq<Store>, steps: seq<Step>, n: nat, j: Id, worker: string, f: Id, now: Time, k: Key)
    requires DisciplinedRun(trace, steps) && n < |steps| && steps[n] == PurgeOneFolder(j, worker, Some(f), now)
    requires FinalizePurge(trace[n], j, worker, Some(f), now).Commit? && PurgeLeaf(trace[n], f, trace[n].jobs[j].unit)
    requires Under(trace[n].rows, k, f)
    ensures k == FolderKey(f)
  {
    RunOrderly(trace, steps, n);
    LeafIsBare(trace[n], FinalizePurge(trace[n], j, worker, Some(f), now).store, trace[n].jobs[j].unit, f, k);
  }

  /** When a purge ends, nothing carries its unit's id any more. */
  lemma PurgeEndsEmpty(trace: seq<Store>, steps: seq<Step>, n: nat, u: Id, k: Key)
    requires DisciplinedRun(trace, steps) && n < |trace| && u in trace[n].units && trace[n].units[u].state.Purged?
    ensures !OwnedBy(trace[n].rows, k, u)
  {
    RunOrderly(trace, steps, n);
    assert RowOwned(trace[n], k);
  }

  // ---- cancelling: sound exactly while no member has been buried ----

  /** After a cancellation every tombstone belongs to a live unit iff the unit had buried its root only. */
  lemma CancelExactly(s: Store, l: Id, j: Option<Id>, u: Id)
    requires Orderly(s) && l in s.legacy && DeletingUnitOf(s, u, s.legacy[l].root) && Cancel(s, l, j, Some(u)).Commit?
    ensures Owned(Cancel(s, l, j, Some(u)).store) <==> NoMember(s, u)
  {
    var t := Cancel(s, l, j, Some(u)).store;
    if NoMember(s, u) {
      var e := CancelEffect(s, l, j, Some(u));
      EffectTidy(s, t, e);
    }
    if Owned(t) {
      forall k | OwnedBy(s.rows, k, u) ensures k == s.units[u].root { assert RowOwned(t, k) && RowOwned(s, k); }
    }
  }

  lemma StillQueued(s: Store, u: Id, l: Id, j: Id, step: Step)
    requires Orderly(s) && Enabled(s, step) && Disciplined(s, step) && Drains(s, u, l, j) && NoMember(s, u)
    requires s.legacy[l].status.LegacyQueued?
    requires u in Next(s, step).units && Next(s, step).units[u].state.Deleting?
    ensures NoMember(Next(s, step), u)
  {
    if !(step.DeleteRows? && step.legacy == l) {
      StepRoots(s, step, u);
      forall k | OwnedBy(Next(s, step).rows, k, u) ensures k == s.units[u].root {
        StepOwned(s, u, l, j, step, k);
        assert OwnedSame(s, Next(s, step), u, k);
      }
    }
  }

  lemma ConfirmHasNoMember(trace: seq<Store>, steps: seq<Step>, u: Id, l: Id, j: Id, r: Id)
    requires Draining(trace, steps, u, l, j, r, 1)
    ensures NoMember(trace[1], u)
  {
    CountersExact(trace, steps, u, l, j, r, 1);
    assert StepsTo(trace, steps, 0);
    var s, step := trace[0], steps[0];
    var p := s.legacy[l].(status := LegacyQueued, previewExpiresAt := None, nextRunAt := Some(step.now));
    StartShape(s, l, p, u, step.job, step.now);
    GateShape(s, r, p.rootPath, u);
    assert UnitRooted(s, u) && DisciplinedAt(trace, steps, 0);
    forall k | OwnedBy(trace[1].rows, k, u) ensures k == FolderKey(r) { assert RowOwned(s, k); }
  }

  lemma {:induction false} NoMemberWhileQueued(trace: seq<Store>, steps: seq<Step>, u: Id, l: Id, j: Id, n: nat)
    requires DisciplinedRun(trace, steps) && 1 <= n < |trace| && NoMember(trace[1], u)
    requires forall i: nat {:trigger Drains(trace[i], u, l, j)} :: 1 <= i <= n ==>
      Drains(trace[i], u, l, j) && (i < n ==> trace[i].legacy[l].status.LegacyQueued?)
    ensures NoMember(trace[n], u)
  {
    if n > 1 {
      NoMemberWhileQueued(trace, steps, u, l, j, n - 1);
      RunOrderly(trace, steps, n - 1);
      assert Drains(trace[n - 1], u, l, j) && Drains(trace[n], u, l, j);
      NoMemberStep(trace, steps, u, l, j, n - 1);
    }
  }

  /** A job that has stayed queued since its confirmation has buried nothing but its root. */
  lemma NeverClaimedHasNoMember(trace: seq<Store>, steps: seq<Step>, u: Id, l: Id, j: Id, r: Id, n: nat)
    requires Draining(trace, steps, u, l, j, r, n)
    requires forall i: nat {:trigger Drains(trace[i], u, l, j)} :: 1 <= i < n && Drains(trace[i], u, l, j) ==> trace[i].legacy[l].status.LegacyQueued?
    ensures NoMember(trace[n], u)
  {
    ConfirmHasNoMember(trace, steps, u, l, j, r);
    forall i: nat | 1 <= i <= n ensures Drains(trace[i], u, l, j) { CountersExact(trace, steps, u, l, j, r, i); }
    NoMemberWhileQueued(trace, steps, u, l, j, n);
  }

  lemma NoMemberStep(trace: seq<Store>, steps: seq<Step>, u: Id, l: Id, j: Id, n: nat)
    requires DisciplinedRun(trace, steps) && n + 1 < |trace| && Orderly(trace[n])
    requires Drains(trace[n], u, l, j) && NoMember(trace[n], u) && trace[n].legacy[l].status.LegacyQueued?
    requires u in trace[n + 1].units && trace[n + 1].units[u].state.Deleting?
    ensures NoMember(trace[n + 1], u)
  {
    assert StepsTo(trace, steps, n) && DisciplinedAt(trace, steps, n);
    StillQueued(trace[n], u, l, j, steps[n]);
  }

  /**
   Cancel undoes confirm. If the job has stayed queued since its confirmation, then
   whatever else the run did, cancelling it leaves active below the root exactly what
   was active before the confirmation, and every other row there has its old tombstone.
   */
  lemma CancelUndoesConfirm(trace: seq<Store>, steps: seq<Step>, u: Id, l: Id, j: Id, r: Id, n: nat, cancel: Step, k: Key)
    requires Draining(trace, steps, u, l, j, r, n)
    requires forall i: nat {:trigger Drains(trace[i], u, l, j)} :: 1 <= i < n && Drains(trace[i], u, l, j) ==> trace[i].legacy[l].status.LegacyQueued?
    requires cancel == CancelDeletion(l, Some(j), Some(u)) && Enabled(trace[n], cancel) && Apply(trace[n], cancel).Commit?
    ensures
      var s, t := trace[0], Next(trace[n], cancel);
      && u in t.units && t.units[u].state.Restored?
      && (ActiveUnder(t.rows, k, r) <==> ActiveUnder(s.rows, k, r))
      && (Under(t.rows, k, r) ==> Under(s.rows, k, r) && SameMarks(s.rows[k], t.rows[k]))
  {
    NeverClaimedHasNoMember(trace, steps, u, l, j, r, n);
    MembersOfDrain(trace, steps, u, l, j, r, n);
    RunOrderly(trace, steps, n);
    CancelReveals(trace[0], trace[n], u, r, cancel, k);
  }

  lemma MembersOfDrain(trace: seq<Store>, steps: seq<Step>, u: Id, l: Id, j: Id, r: Id, n: nat)
    requires Draining(trace, steps, u, l, j, r, n)
    ensures Standing(trace[n], u) && trace[n].units[u].root == FolderKey(r) && Tidy(trace[0])
    ensures forall k {:trigger Tracks(trace[0], trace[n], u, r, k)} :: Tracks(trace[0], trace[n], u, r, k)
  {
    assert StandingState(trace[1], u);
    DrainBegins(trace, steps, u, l, j, r);
    MembersTracked(trace, steps, u, r, n);
  }

  lemma CancelReveals(s0: Store, s: Store, u: Id, r: Id, cancel: Step, k: Key)
    requires Tidy(s0) && Orderly(s) && Standing(s, u) && s.units[u].root == FolderKey(r) && Tracks(s0, s, u, r, k)
    requires cancel.CancelDeletion? && cancel.deleting == Some(u) && NoMember(s, u)
    requires Enabled(s, cancel) && Apply(s, cancel).Commit?
    ensures
      var t := Next(s, cancel);
      && u in t.units && t.units[u].state.Restored?
      && (ActiveUnder(t.rows, k, r) <==> ActiveUnder(s0.rows, k, r))
      && (Under(t.rows, k, r) ==> Under(s0.rows, k, r) && SameMarks(s0.rows[k], t.rows[k]))
  {
    var t := Next(s, cancel);
    EndingStep(s, cancel, u, k);
    StepTidy(s, cancel);
    assert RowOwned(t, k) && RowOwned(s0, k);
  }

  // ---- confirming: sound exactly at a visible folder ----

  ghost predicate KeepsMembers(s: Store, t: Store) {
    forall u, k {:trigger RowKept(s, t, u, k)} :: Standing(s, u) ==> RowKept(s, t, u, k)
  }

  /**
   Confirmation looks only at the root's own tombstone. It leaves every other
   deletion's members alone iff the root is visible.
   */
  lemma ConfirmExactly(s: Store, l: Id, r: Id, accepted: bool, u: Id, j: Id, now: Time)
    requires Orderly(s) && Enabled(s, ConfirmDeletion(l, r, accepted, u, j, now)) && Confirm(s, l, r, accepted, u, j, now).Commit?
    ensures KeepsMembers(s, Confirm(s, l, r, accepted, u, j, now).store) <==> VisibleFolder(s.rows, r)
  {
    var t := Confirm(s, l, r, accepted, u, j, now).store;
    if VisibleFolder(s.rows, r) {
      var e := ConfirmEffect(s, l, r, accepted, u, j, now);
      EffectTidy(s, t, e);
      forall x, k | Standing(s, x) ensures RowKept(s, t, x, k) { EffectKept(s, t, e, x, k); }
    } else {
      var x := HiddenUnderUnit(s, r);
      HiddenConfirmLosesRoot(s, l, r, accepted, u, j, now, x);
      assert !RowKept(s, t, x, FolderKey(r));
    }
  }

  /** An active folder is hidden only by a standing unit above it. */
  lemma HiddenUnderUnit(s: Store, r: Id) returns (x: Id)
    requires Orderly(s) && ActiveFolder(s.rows, r) && !VisibleFolder(s.rows, r)
    ensures Standing(s, x) && Under(s.rows, FolderKey(r), s.units[x].root.id) && s.units[x].root != FolderKey(r)
  {
    var key := FolderKey(r);
    var d :| d in s.rows && Tombstone(s.rows, d) && s.rows[d].path <= s.rows[key].path;
    HomeSound(s.rows, key);
    HomeSound(s.rows, d);
    UnderIsBelow(s.rows, key, d.id);
    assert RowOwned(s, d);
    x := s.rows[d].unit.value;
    assert UnitRooted(s, x) && OwnedBy(s.rows, d, x);
    UnderTransitive(s.rows, key, d.id, s.units[x].root.id);
    assert Sealed(s, x, key);
    assert RowOwned(s, key);
  }

  lemma HiddenConfirmLosesRoot(s: Store, l: Id, r: Id, accepted: bool, u: Id, j: Id, now: Time, x: Id)
    requires Orderly(s) && Enabled(s, ConfirmDeletion(l, r, accepted, u, j, now)) && Confirm(s, l, r, accepted, u, j, now).Commit?
    requires Standing(s, x) && Under(s.rows, FolderKey(r), s.units[x].root.id) && s.units[x].root != FolderKey(r)
    ensures Member(s, x, FolderKey(r)) && !Member(Confirm(s, l, r, accepted, u, j, now).store, x, FolderKey(r))
  {
    var key, t := FolderKey(r), Confirm(s, l, r, accepted, u, j, now).store;
    var p := s.legacy[l].(status := LegacyQueued, previewExpiresAt := None, nextRunAt := Some(now));
    StartShape(s, l, p, u, j, now);
    GateShape(s, r, p.rootPath, u);
    assert s.rows[key].unit.None? by { assert RowOwned(s, key); }
    assert UnitRooted(s, u);
    assert SamePlaces(s.rows, t.rows);
    UnderKept(s.rows, t.rows, s.units[x].root, r);
    if Under(s.rows, s.units[x].root, r) { MutualUnder(s.rows, r, s.units[x].root.id); }
  }
}
