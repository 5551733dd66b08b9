module LifecycleRoundTrip {
  // Restore undoes delete, all or nothing. A subtree that was deleted and comes back,
  // by a finished restore or by a cancellation, has exactly the active rows it had
  // when the deletion was confirmed; until then nothing below its root is visible.

  import opened Wrappers
  import opened LifecycleTables
  import opened LifecycleSteps
  import opened LifecycleRuns
  import opened LifecycleRevive
  import opened LifecycleMirror
  import opened LifecycleFence
  import opened LifecycleInvariant
  import opened LifecycleKept
  import opened LifecycleRowSteps
  import opened LifecycleTreeSteps
  import opened LifecycleDiscipline
  import opened LifecycleOrder
  import opened LifecycleMembers

  lemma EffectKept(s: Store, t: Store, e: Effect, u: Id, k: Key)
    requires Tidy(s) && Tidy(t) && Standing(s, u) && Has(s, t, e)
    ensures RowKept(s, t, u, k)
  {
    match e
    case Untouched => SameRowsKept(s, t, u, k);
    case StateChange(x) => SameRowsKept(s, t, u, k);
    case Ending(x) => SameRowsKept(s, t, u, k);
    case Inserted(key, row, h) => InsertKept(s, t, u, k, key, row, h);
    case Shifted(f, dest) => MoveKept(s, t, u, k, f, dest);
    case Founded(x, key) => FoundKept(s, t, u, k, x, key);
    case Buried(x, chosen) => BuryKept(s, t, u, k, x, chosen);
    case Raised(x, chosen) => RaiseKept(s, t, u, k, x, chosen);
    case Removed(x, key) => RemoveKept(s, t, u, k, x, key);
  }

  /** Only the last restore or a cancellation takes a unit out of the live states. */
  lemma EffectStands(s: Store, t: Store, e: Effect, u: Id)
    requires Tidy(s) && Tidy(t) && Standing(s, u) && Has(s, t, e)
    ensures u in t.units && t.units[u].root == s.units[u].root
    ensures t.units[u].state.Live() && !PurgeState(t.units[u].state) ==> Standing(t, u)
    ensures !t.units[u].state.Live() ==> e.Raised? && e.u == u && s.units[u].root in e.chosen
  {
    assert UnitRooted(t, u) && OwnedBy(s.rows, s.units[u].root, u);
    match e
    case Removed(x, key) => RemovePath(s, t, x, key, s.units[u].root);
    case Raised(x, chosen) => RaisePlaces(s, t, x, chosen); assert SamePlace(s.rows, t.rows, s.units[u].root);
    case Shifted(f, dest) => MovePath(s, t, f, dest, s.units[u].root);
    case _ =>
  }

  // ---- the two ends of a deletion ----

  predicate ActiveUnder(rows: Rows, k: Key, r: Id) {
    Under(rows, k, r) && !rows[k].deleted
  }

  /** When a unit is founded its members are the rows that were active. */
  lemma FoundedMembers(s: Store, t: Store, u: Id, r: Id, k: Key)
    requires Tidy(s) && Tidy(t) && Founding(s, t, u, FolderKey(r))
    ensures Standing(t, u)
    ensures Member(t, u, k) <==> ActiveUnder(s.rows, k, r)
    ensures Under(t.rows, k, r) && !Member(t, u, k) ==> k in s.rows && Under(s.rows, k, r) && SameMarks(s.rows[k], t.rows[k])
  {
    var key := FolderKey(r);
    FoundPlaces(s, t, u, key);
    UnderKept(s.rows, t.rows, k, r);
    SelfUnder(t.rows, r);
    SelfUnder(s.rows, r);
    assert UnitRooted(t, u) && OwnedBy(t.rows, key, u) && RowOwned(s, k);
    if k in s.rows && k != key && s.rows[k].unit.Some? {
      var x := s.rows[k].unit.value;
      if s.units[x].root.FolderKey? {
        FoundOutside(s, t, u, key, x);
        UnderKept(s.rows, t.rows, key, s.units[x].root.id);
      }
    }
  }

  /** When the root is raised, its members are the rows that are active. */
  lemma RaisedMembers(s: Store, t: Store, u: Id, chosen: set<Key>, k: Key)
    requires Tidy(s) && Tidy(t) && Standing(s, u) && Raising(s, t, u, chosen) && s.units[u].root in chosen
    ensures ActiveUnder(t.rows, k, s.units[u].root.id) <==> Member(s, u, k)
    ensures Under(t.rows, k, s.units[u].root.id) && !Member(s, u, k) ==> k in s.rows && SameMarks(s.rows[k], t.rows[k])
  {
    var r := s.units[u].root.id;
    RaisePlaces(s, t, u, chosen);
    UnderKept(s.rows, t.rows, k, r);
    SelfUnder(s.rows, r);
    assert RowOwned(s, k);
    if Under(s.rows, k, r) {
      assert RowAfter(s.rows, t.rows, k, k in chosen) && (k in chosen ==> OwnedBy(s.rows, k, u));
      if s.rows[k].unit.Some? {
        var x := s.rows[k].unit.value;
        assert Clearance(s, u, x) && UnitRooted(s, x) && OwnedBy(s.rows, k, x);
        assert OwnedBy(s.rows, k, u) ==> k in chosen;
      }
    }
  }

  // ---- one disciplined step ----

  lemma TwoEffectsKept(s: Store, mid: Store, t: Store, e: Effect, e2: Effect, u: Id)
    requires Tidy(s) && Tidy(mid) && Tidy(t) && Has(s, mid, e) && Has(mid, t, e2) && Standing(s, u)
    requires e2.Untouched? || (e2.StateChange? && (e.Untouched? || e.Founded?))
    requires u in t.units && t.units[u].state.Live() && !PurgeState(t.units[u].state)
    ensures Standing(t, u) && t.units[u].root == s.units[u].root
    ensures forall k {:trigger RowKept(s, t, u, k)} :: RowKept(s, t, u, k)
  {
    EffectStands(s, mid, e, u);
    EffectStands(mid, t, e2, u);
    forall k ensures RowKept(s, t, u, k) {
      EffectKept(s, mid, e, u, k);
      EffectKept(mid, t, e2, u, k);
    }
  }

  lemma CleanupKept(s: Store, step: Step, u: Id)
    requires Orderly(s) && Enabled(s, step) && Disciplined(s, step) && step.Cleanup? && Standing(s, u) && Tidy(Next(s, step))
    requires u in Next(s, step).units && Next(s, step).units[u].state.Live() && !PurgeState(Next(s, step).units[u].state)
    ensures Standing(Next(s, step), u) && Next(s, step).units[u].root == s.units[u].root
    ensures forall k {:trigger RowKept(s, Next(s, step), u, k)} :: RowKept(s, Next(s, step), u, k)
  {
    var t := Next(s, step);
    CleanupTidy(s, step.picks, step.now);
    CleanupSpends(s, step.picks, step.now);
    forall x | x in s.units ensures x in t.units && t.units[x].root == s.units[x].root {
      if Apply(s, step).Commit? { assert CleanupUnit(s, t, step.picks, x); }
    }
    assert UnitRooted(t, u) && OwnedBy(t.rows, s.units[u].root, u);
    forall k ensures RowKept(s, t, u, k) { SameRowsKept(s, t, u, k); }
  }

  /** One whole step, including a cleanup batch and the two halves of a poll. */
  lemma StepKept(s: Store, step: Step, u: Id)
    requires Orderly(s) && Enabled(s, step) && Disciplined(s, step) && Standing(s, u)
    requires u in Next(s, step).units && Next(s, step).units[u].state.Live() && !PurgeState(Next(s, step).units[u].state)
    ensures Standing(Next(s, step), u) && Next(s, step).units[u].root == s.units[u].root
    ensures forall k {:trigger RowKept(s, Next(s, step), u, k)} :: RowKept(s, Next(s, step), u, k)
  {
    StepTidy(s, step);
    if step.Cleanup? {
      CleanupKept(s, step, u);
    } else {
      var mid, e, e2 := StepEffects(s, step);
      EffectTidy(s, mid, e);
      TwoEffectsKept(s, mid, Next(s, step), e, e2, u);
    }
  }

  lemma CleanupEndsNothing(s: Store, step: Step, u: Id)
    requires Orderly(s) && Enabled(s, step) && Disciplined(s, step) && step.Cleanup?
    ensures u in s.units && s.units[u].state.Live() ==> u in Next(s, step).units && Next(s, step).units[u].state.Live()
    ensures u !in s.units ==> u !in Next(s, step).units
  {
    CleanupTidy(s, step.picks, step.now);
    assert Apply(s, step).Commit? ==> CleanupUnit(s, Next(s, step), step.picks, u);
  }

  /** The step that ends a standing unit raises its root, and reveals exactly its members. */
  lemma EndingStep(s: Store, step: Step, u: Id, k: Key)
    requires Orderly(s) && Enabled(s, step) && Disciplined(s, step) && Standing(s, u)
    requires u in Next(s, step).units && !Next(s, step).units[u].state.Live()
    ensures
      var t, r := Next(s, step), s.units[u].root.id;
      && (ActiveUnder(t.rows, k, r) <==> Member(s, u, k))
      && (Under(t.rows, k, r) && !Member(s, u, k) ==> k in s.rows && Under(s.rows, k, r) && SameMarks(s.rows[k], t.rows[k]))
  {
    var t := Next(s, step);
    StepTidy(s, step);
    if step.Cleanup? {
      CleanupEndsNothing(s, step, u);
    } else {
      var mid, e, e2 := StepEffects(s, step);
      EffectTidy(s, mid, e);
      EndingEffects(s, mid, t, e, e2, u, k);
    }
  }

  lemma EndingEffects(s: Store, mid: Store, t: Store, e: Effect, e2: Effect, u: Id, k: Key)
    requires Tidy(s) && Tidy(mid) && Tidy(t) && Has(s, mid, e) && Has(mid, t, e2) && Standing(s, u)
    requires e2.Untouched? || (e2.StateChange? && (e.Untouched? || e.Founded?))
    requires u in t.units && !t.units[u].state.Live()
    ensures
      var r := s.units[u].root.id;
      && (ActiveUnder(t.rows, k, r) <==> Member(s, u, k))
      && (Under(t.rows, k, r) && !Member(s, u, k) ==> k in s.rows && Under(s.rows, k, r) && SameMarks(s.rows[k], t.rows[k]))
  {
    EffectStands(s, mid, e, u);
    RaisedMembers(s, mid, u, e.chosen, k);
    RaisePlaces(s, mid, u, e.chosen);
    UnderKept(s.rows, mid.rows, k, s.units[u].root.id);
  }

  // ---- from the deletion to its end ----

  /** The members are the rows once active below `r`; every other row below `r` has the marks it had. */
  predicate Tracks(s0: Store, t: Store, u: Id, r: Id, k: Key) {
    && (Member(t, u, k) <==> ActiveUnder(s0.rows, k, r))
    && (Under(t.rows, k, r) && !Member(t, u, k) ==> Under(s0.rows, k, r) && SameMarks(s0.rows[k], t.rows[k]))
  }

  /** The step that creates unit `u` on folder `r`: a confirmation, an adoption or a direct delete. */
  predicate Deletes(s: Store, step: Step, u: Id, r: Id) {
    u !in s.units && u in Next(s, step).units && Next(s, step).units[u].root == FolderKey(r)
  }

  predicate StandingState(s: Store, u: Id) {
    u in s.units && s.units[u].state.Live() && !PurgeState(s.units[u].state)
  }

  lemma FoundingEffects(s: Store, mid: Store, t: Store, e: Effect, e2: Effect, u: Id, r: Id, k: Key)
    requires Tidy(s) && Tidy(mid) && Tidy(t) && Has(s, mid, e) && Has(mid, t, e2)
    requires e2.Untouched? || (e2.StateChange? && (e.Untouched? || e.Founded?))
    requires u !in s.units && StandingState(t, u) && t.units[u].root == FolderKey(r)
    ensures Standing(t, u) && Tracks(s, t, u, r, k)
  {
    assert e == Founded(u, FolderKey(r));
    FoundedMembers(s, mid, u, r, k);
    EffectStands(mid, t, e2, u);
    EffectKept(mid, t, e2, u, k);
  }

  lemma DeletionStarts(s: Store, step: Step, u: Id, r: Id, k: Key)
    requires Orderly(s) && Enabled(s, step) && Disciplined(s, step) && Deletes(s, step, u, r) && StandingState(Next(s, step), u)
    ensures Standing(Next(s, step), u) && Tracks(s, Next(s, step), u, r, k)
  {
    StepTidy(s, step);
    if step.Cleanup? {
      CleanupEndsNothing(s, step, u);
    } else {
      var mid, e, e2 := StepEffects(s, step);
      EffectTidy(s, mid, e);
      FoundingEffects(s, mid, Next(s, step), e, e2, u, r, k);
    }
  }

  // ---- disciplined runs ----

  ghost predicate DisciplinedAt(trace: seq<Store>, steps: seq<Step>, i: nat) {
    i < |steps| && i < |trace| && Disciplined(trace[i], steps[i])
  }

  ghost predicate DisciplinedRun(trace: seq<Store>, steps: seq<Step>) {
    && Run(trace, steps) && Orderly(trace[0])
    && forall i: nat {:trigger DisciplinedAt(trace, steps, i)} :: i < |steps| ==> DisciplinedAt(trace, steps, i)
  }

  /** The invariant holds in every store of a disciplined run. */
  lemma {:induction false} RunOrderly(trace: seq<Store>, steps: seq<Step>, n: nat)
    requires DisciplinedRun(trace, steps) && n < |trace|
    ensures Orderly(trace[n])
  {
    if n > 0 {
      RunOrderly(trace, steps, n - 1);
      assert StepsTo(trace, steps, n - 1) && DisciplinedAt(trace, steps, n - 1);
      StepOrderly(trace[n - 1], steps[n - 1]);
    }
  }

  /** `u` is founded on `r` by the first step and stands until after step `n`. */
  ghost predicate Deletion(trace: seq<Store>, steps: seq<Step>, u: Id, r: Id, n: nat) {
    && DisciplinedRun(trace, steps) && 1 <= n < |trace|
    && Deletes(trace[0], steps[0], u, r)
    && (forall i: nat {:trigger StandingState(trace[i], u)} :: 1 <= i <= n ==> StandingState(trace[i], u))
  }

  lemma FirstStep(trace: seq<Store>, steps: seq<Step>, u: Id, r: Id)
    requires Deletion(trace, steps, u, r, 1)
    ensures Standing(trace[1], u) && trace[1].units[u].root == FolderKey(r)
    ensures forall k {:trigger Tracks(trace[0], trace[1], u, r, k)} :: Tracks(trace[0], trace[1], u, r, k)
  {
    assert StepsTo(trace, steps, 0) && DisciplinedAt(trace, steps, 0) && StandingState(trace[1], u);
    forall k ensures Tracks(trace[0], trace[1], u, r, k) { DeletionStarts(trace[0], steps[0], u, r, k); }
    DeletionStarts(trace[0], steps[0], u, r, FolderKey(r));
  }

  lemma LaterStep(trace: seq<Store>, steps: seq<Step>, u: Id, n: nat)
    requires DisciplinedRun(trace, steps) && n + 1 < |trace| && Standing(trace[n], u) && StandingState(trace[n + 1], u)
    ensures Standing(trace[n + 1], u) && trace[n + 1].units[u].root == trace[n].units[u].root
    ensures forall k {:trigger RowKept(trace[n], trace[n + 1], u, k)} :: RowKept(trace[n], trace[n + 1], u, k)
  {
    RunOrderly(trace, steps, n);
    assert StepsTo(trace, steps, n) && DisciplinedAt(trace, steps, n);
    StepKept(trace[n], steps[n], u);
  }

  /** While it stands, the unit's members are exactly the rows it found active. */
  lemma {:induction false} MembersTracked(trace: seq<Store>, steps: seq<Step>, u: Id, r: Id, n: nat)
    requires Deletion(trace, steps, u, r, n)
    ensures Standing(trace[n], u) && trace[n].units[u].root == FolderKey(r)
    ensures forall k {:trigger Tracks(trace[0], trace[n], u, r, k)} :: Tracks(trace[0], trace[n], u, r, k)
  {
    if n == 1 {
      FirstStep(trace, steps, u, r);
    } else {
      MembersTracked(trace, steps, u, r, n - 1);
      assert StandingState(trace[n], u);
      LaterStep(trace, steps, u, n - 1);
      forall k ensures Tracks(trace[0], trace[n], u, r, k) {
        assert Tracks(trace[0], trace[n - 1], u, r, k) && RowKept(trace[n - 1], trace[n], u, k);
      }
    }
  }

  /** All or nothing: while the unit stands, nothing at or below its root is visible. */
  lemma NothingVisibleMeanwhile(trace: seq<Store>, steps: seq<Step>, u: Id, r: Id, n: nat, k: Key)
    requires Deletion(trace, steps, u, r, n) && Under(trace[n].rows, k, r)
    ensures !VisibleFolder(trace[n].rows, Home(trace[n].rows, k))
    ensures k.ItemKey? ==> !VisibleItem(trace[n].rows, k.id)
  {
    MembersTracked(trace, steps, u, r, n);
    RunOrderly(trace, steps, n);
    GateHides(trace[n], u, k);
  }

  lemma LastStep(trace: seq<Store>, steps: seq<Step>, u: Id, n: nat, k: Key)
    requires DisciplinedRun(trace, steps) && n + 1 < |trace| && Standing(trace[n], u)
    requires u in trace[n + 1].units && !trace[n + 1].units[u].state.Live()
    ensures
      var s, t, r := trace[n], trace[n + 1], trace[n].units[u].root.id;
      && (ActiveUnder(t.rows, k, r) <==> Member(s, u, k))
      && (Under(t.rows, k, r) && !Member(s, u, k) ==> k in s.rows && Under(s.rows, k, r) && SameMarks(s.rows[k], t.rows[k]))
  {
    RunOrderly(trace, steps, n);
    assert StepsTo(trace, steps, n) && DisciplinedAt(trace, steps, n);
    EndingStep(trace[n], steps[n], u, k);
  }

  /**
   Restore undoes delete. However the run went between the deletion and the step
   that ends its unit, the active rows below the root are then exactly those that
   were active before the deletion, and every other row still there carries the
   tombstone it had.
   */
  lemma RestoreUndoesDelete(trace: seq<Store>, steps: seq<Step>, u: Id, r: Id, n: nat, k: Key)
    requires n + 1 < |trace| && Deletion(trace, steps, u, r, n)
    requires u in trace[n + 1].units && trace[n + 1].units[u].state.Restored?
    ensures ActiveUnder(trace[n + 1].rows, k, r) <==> ActiveUnder(trace[0].rows, k, r)
    ensures Under(trace[n + 1].rows, k, r) ==>
      Under(trace[0].rows, k, r) && SameMarks(trace[0].rows[k], trace[n + 1].rows[k])
  {
    MembersTracked(trace, steps, u, r, n);
    LastStep(trace, steps, u, n, k);
    RunOrderly(trace, steps, n + 1);
    assert Tracks(trace[0], trace[n], u, r, k) && RowOwned(trace[n + 1], k) && RowOwned(trace[0], k);
  }
}
