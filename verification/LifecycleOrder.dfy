/** The invariant of disciplined runs, step by step and over whole runs. */
module LifecycleOrder {
  import opened Wrappers
  import opened LifecycleTables
  import opened LifecycleSteps
  import opened LifecycleRuns
  import opened LifecycleRevive
  import opened LifecycleMirror
  import opened LifecycleFence
  import opened LifecycleInvariant
  import opened LifecycleKept
  import opened LifecycleDiscipline

  // ---- every DELETING unit stays fenced ----

  /** A fence of `s` is still up in `t`, around the same root. */
  predicate FenceStays(s: Store, t: Store, l: Id) {
    Fencing(s, l) ==> Fencing(t, l) && t.legacy[l].root == s.legacy[l].root
  }

  predicate NoNewDeleting(s: Store, t: Store, u: Id) {
    u in t.units && t.units[u].state.Deleting? ==> u in s.units && s.units[u].state.Deleting? && s.units[u].root == t.units[u].root
  }

  lemma FencesStay(s: Store, t: Store)
    requires ProtectedAll(s)
    requires forall l {:trigger FenceStays(s, t, l)} :: FenceStays(s, t, l)
    requires forall u {:trigger NoNewDeleting(s, t, u)} :: NoNewDeleting(s, t, u)
    ensures ProtectedAll(t)
  {
    forall u ensures Protected(t, u) {
      assert NoNewDeleting(s, t, u) && Protected(s, u);
      if u in t.units && t.units[u].state.Deleting? {
        var l :| ProtectedBy(s, u, l);
        assert FenceStays(s, t, l) && ProtectedBy(t, u, l);
      }
    }
  }

  /** The fence around one root falls together with its unit's DELETING state. */
  lemma OneFenceFalls(s: Store, t: Store, l: Id)
    requires ProtectedAll(s) && l in s.legacy
    requires forall m {:trigger FenceStays(s, t, m)} :: m != l ==> FenceStays(s, t, m)
    requires forall u {:trigger NoNewDeleting(s, t, u)} :: NoNewDeleting(s, t, u)
    requires forall u {:trigger DeletingUnitOf(t, u, s.legacy[l].root)} :: !DeletingUnitOf(t, u, s.legacy[l].root)
    ensures ProtectedAll(t)
  {
    forall u ensures Protected(t, u) {
      assert NoNewDeleting(s, t, u) && Protected(s, u) && !DeletingUnitOf(t, u, s.legacy[l].root);
      if u in t.units && t.units[u].state.Deleting? {
        var m :| ProtectedBy(s, u, m);
        assert FenceStays(s, t, m) && ProtectedBy(t, u, m);
      }
    }
  }

  /** Two DELETING units of one root would be one unit. */
  lemma OneDeletingUnit(s: Store, root: Id, u: Id, x: Id)
    requires Tidy(s) && DeletingUnitOf(s, u, root) && DeletingUnitOf(s, x, root)
    ensures u == x
  {
    assert UnitRooted(s, u) && UnitRooted(s, x);
  }

  lemma StartProtects(s: Store, l: Id, legacy: Legacy, u: Id, j: Id, now: Time)
    requires Orderly(s) && legacy.status.LegacyQueued? && (Fencing(s, l) ==> s.legacy[l].root == legacy.root)
    ensures ProtectedAll(After(s, StartDeletion(s, l, legacy, u, j, now)))
    ensures JobsKnown(After(s, StartDeletion(s, l, legacy, u, j, now)))
  {
    var o := StartDeletion(s, l, legacy, u, j, now);
    if o.Commit? {
      StartShape(s, l, legacy, u, j, now);
      GateShape(s, legacy.root, legacy.rootPath, u);
      var t := o.store;
      forall w ensures Protected(t, w) {
        assert Protected(s, w);
        if w == u {
          assert ProtectedBy(t, u, l);
        } else if w in t.units && t.units[w].state.Deleting? {
          var m :| ProtectedBy(s, w, m);
          assert ProtectedBy(t, w, m);
        }
      }
      forall x ensures JobKnown(t, x) { assert JobKnown(s, x); }
    }
  }

  lemma CancelProtects(s: Store, l: Id, j: Option<Id>, u: Option<Id>)
    requires Orderly(s) && (l in s.legacy ==> DeletingChoice(s, s.legacy[l].root, u))
    ensures ProtectedAll(After(s, Cancel(s, l, j, u)))
  {
    var o := Cancel(s, l, j, u);
    if o.Commit? {
      var root := s.legacy[l].root;
      forall w ensures !DeletingUnitOf(o.store, w, root) {
        if u.Some? && DeletingUnitOf(s, w, root) { OneDeletingUnit(s, root, u.value, w); }
        assert u.None? ==> !DeletingUnitOf(s, w, root);
      }
      OneFenceFalls(s, o.store, l);
    }
  }

  lemma BatchProtects(s: Store, l: Id, j: Id, u: Id, worker: string, items: set<Key>, folders: set<Key>, now: Time)
    requires Orderly(s) && Enabled(s, DeleteRows(l, j, u, worker, items, folders, now))
    ensures ProtectedAll(After(s, DeleteBatch(s, j, l, u, worker, items, folders, now)))
  {
    var o := DeleteBatch(s, j, l, u, worker, items, folders, now);
    if o.Commit? {
      BatchShape(s, j, l, u, worker, items, folders, now);
      BatchBuries(s, l, j, u, worker, items, folders, now);
      if BatchRows(items, folders) != {} {
        FencesStay(s, o.store);
      } else {
        CompletionProtects(s, o.store, l, u);
      }
    }
  }

  /** The completing batch drops one fence together with the root's DELETING unit. */
  lemma CompletionProtects(s: Store, t: Store, l: Id, u: Id)
    requires Orderly(s) && Fencing(s, l) && DeletingUnitOf(s, u, s.legacy[l].root)
    requires u in t.units && !t.units[u].state.Deleting? && t.units == s.units[u := t.units[u]]
    requires t.legacy.Keys == s.legacy.Keys && forall m :: m in s.legacy && m != l ==> t.legacy[m] == s.legacy[m]
    ensures ProtectedAll(t)
  {
    var root := s.legacy[l].root;
    forall w ensures !DeletingUnitOf(t, w, root) {
      if DeletingUnitOf(s, w, root) { OneDeletingUnit(s, root, u, w); }
    }
    OneFenceFalls(s, t, l);
  }

  lemma ClaimProtects(s: Store, j: Id, worker: string, now: Time)
    requires ProtectedAll(s) && Mirrored(s) && JobsKnown(s)
    ensures ProtectedAll(After(s, Claim(s, j, worker, now))) && JobsKnown(After(s, Claim(s, j, worker, now)))
  {
    var o := Claim(s, j, worker, now);
    if o.Commit? {
      assert JobSound(s, j) && JobKnown(s, j);
      FencesStay(s, o.store);
      forall x ensures JobKnown(o.store, x) { assert JobKnown(s, x); }
    }
  }

  lemma {:induction false} CleanupProtects(s: Store, picks: seq<Pick>, now: Time)
    requires ProtectedAll(s) && JobsKnown(s)
    ensures ProtectedAll(After(s, CleanupBatch(s, picks, now))) && JobsKnown(After(s, CleanupBatch(s, picks, now)))
  {
    if picks != [] {
      CleanupProtects(s, picks[..|picks| - 1], now);
      var before := CleanupBatch(s, picks[..|picks| - 1], now);
      if before.Commit? {
        var o := QueuePurge(before.store, picks[|picks| - 1].unit, picks[|picks| - 1].job, now);
        if o.Commit? {
          FencesStay(before.store, o.store);
          forall x ensures JobKnown(o.store, x) { assert JobKnown(before.store, x); }
        }
      }
    }
  }

  lemma RestoreProtects(s: Store, j: Id, worker: string, folders: seq<Id>, items: seq<Id>, now: Time)
    requires ProtectedAll(s) && JobsKnown(s)
    ensures ProtectedAll(After(s, RestoreBatch(s, j, worker, folders, items, now)))
    ensures JobsKnown(After(s, RestoreBatch(s, j, worker, folders, items, now)))
  {
    var o := RestoreBatch(s, j, worker, folders, items, now);
    if o.Commit? {
      RestoreTables(s, j, worker, folders, items, now);
      FencesStay(s, o.store);
      forall x ensures JobKnown(o.store, x) { assert JobKnown(s, x); }
    }
  }

  /** The remaining steps touch V5 statuses only within the fenced ones, and DELETING units not at all. */
  lemma QuietProtects(s: Store, step: Step)
    requires Orderly(s) && Enabled(s, step)
    requires step.PreviewDeletion? || step.RetryDeletion? || step.GiveUpDeletion?
    ensures ProtectedAll(Next(s, step)) && JobsKnown(Next(s, step))
  {
    FencesStay(s, Next(s, step));
    forall x ensures JobKnown(Next(s, step), x) { assert JobKnown(s, x); }
  }

  lemma NativeProtects(s: Store, step: Step)
    requires Orderly(s) && Enabled(s, step) && (step.AskRestore? || step.GiveUpNative? || step.RenewPurge?)
    ensures ProtectedAll(Next(s, step)) && JobsKnown(Next(s, step))
  {
    if step.AskRestore? {
      AskProtects(s, step.unit, step.job, step.now);
    } else if step.GiveUpNative? {
      GiveUpProtects(s, step.job, step.operation, step.worker, step.now);
    } else {
      RenewProtects(s, step.job, step.worker, step.expected, step.now);
    }
  }

  lemma AskProtects(s: Store, u: Id, j: Id, now: Time)
    requires ProtectedAll(s) && JobsKnown(s)
    ensures ProtectedAll(After(s, QueueRestore(s, u, j, now))) && JobsKnown(After(s, QueueRestore(s, u, j, now)))
  {
    var t := After(s, QueueRestore(s, u, j, now));
    FencesStay(s, t);
    forall x ensures JobKnown(t, x) { assert JobKnown(s, x); }
  }

  lemma GiveUpProtects(s: Store, j: Id, op: Operation, worker: string, now: Time)
    requires ProtectedAll(s) && JobsKnown(s)
    ensures ProtectedAll(After(s, FailNative(s, j, op, worker, now))) && JobsKnown(After(s, FailNative(s, j, op, worker, now)))
  {
    var t := After(s, FailNative(s, j, op, worker, now));
    FencesStay(s, t);
    forall x ensures JobKnown(t, x) { assert JobKnown(s, x); }
  }

  lemma RenewProtects(s: Store, j: Id, worker: string, expected: Time, now: Time)
    requires ProtectedAll(s) && JobsKnown(s)
    ensures ProtectedAll(After(s, RenewPurgeLease(s, j, worker, expected, now)))
    ensures JobsKnown(After(s, RenewPurgeLease(s, j, worker, expected, now)))
  {
    var t := After(s, RenewPurgeLease(s, j, worker, expected, now));
    FencesStay(s, t);
    forall x ensures JobKnown(t, x) { assert JobKnown(s, x); }
  }

  lemma WriteProtects(s: Store, step: Step)
    requires Orderly(s) && Enabled(s, step)
    requires step.NewFolder? || step.NewItem? || step.Move? || step.DropFolder? || step.DropItem? || step.PurgeOneItem? || step.PurgeOneFolder?
    ensures ProtectedAll(Next(s, step)) && JobsKnown(Next(s, step))
  {
    FencesStay(s, Next(s, step));
    forall x ensures JobKnown(Next(s, step), x) { assert JobKnown(s, x); }
  }

  lemma LinkedJobsKnown(s: Store, step: Step)
    requires Orderly(s) && Enabled(s, step) && (step.CancelDeletion? || step.DeleteRows?)
    ensures JobsKnown(Next(s, step))
  {
    var t := Next(s, step);
    if step.DeleteRows? && Apply(s, step).Commit? {
      BatchShape(s, step.job, step.legacy, step.unit, step.worker, step.items, step.folders, step.now);
      GateShape(s, s.legacy[step.legacy].root, s.legacy[step.legacy].rootPath, step.unit);
    }
    forall x ensures JobKnown(t, x) { assert JobKnown(s, x); }
  }

  // ---- one disciplined step ----

  ghost predicate Linked(s: Store) { ProtectedAll(s) && JobsKnown(s) }

  lemma StartsLinked(s: Store, step: Step)
    requires Orderly(s) && Enabled(s, step) && step.ConfirmDeletion?
    ensures Linked(Next(s, step))
  {
    if Apply(s, step).Commit? {
      var p := s.legacy[step.legacy];
      StartProtects(s, step.legacy, p.(status := LegacyQueued, previewExpiresAt := None, nextRunAt := Some(step.now)), step.unit, step.job, step.now);
    }
  }

  lemma AdoptionOrderly(s: Store, step: Step) returns (e: Effect)
    requires Orderly(s) && Enabled(s, step) && Disciplined(s, step) && step.Poll? && Adopted(s, step.adoption, step.now).Commit?
    ensures Has(s, Adopted(s, step.adoption, step.now).store, e) && (e.Untouched? || e.Founded?)
    ensures Orderly(Adopted(s, step.adoption, step.now).store)
  {
    e := Untouched;
    if step.adoption.Some? {
      var a, now := step.adoption.value, step.now;
      assert FenceRoot(s, a.legacy);
      AdoptMirrors(s, a.legacy, a.unit, a.job, now);
      AdoptGuarded(s, a.legacy, a.unit, a.job, now);
      e := AdoptEffect(s, a.legacy, a.unit, a.job, now);
      EffectTidy(s, Adopted(s, step.adoption, now).store, e);
      PollSpends(s, step.adoption, None, step.worker, now);
      StartProtects(s, a.legacy, s.legacy[a.legacy].(status := LegacyQueued, nextRunAt := Some(now), lease := None), a.unit, a.job, now);
    }
  }

  /** A poll is an adoption followed by a claim. */
  lemma PollEffects(s: Store, step: Step) returns (mid: Store, e: Effect, e2: Effect)
    requires Orderly(s) && Enabled(s, step) && Disciplined(s, step) && step.Poll?
    ensures Has(s, mid, e) && Has(mid, Next(s, step), e2)
    ensures (e.Untouched? || e.Founded?) && (e2.Untouched? || e2.StateChange?)
    ensures Linked(Next(s, step))
  {
    mid, e, e2 := s, Untouched, Untouched;
    var adopted := Adopted(s, step.adoption, step.now);
    if Apply(s, step).Commit? {
      mid := adopted.store;
      e := AdoptionOrderly(s, step);
      if step.claimed.Some? {
        e2 := ClaimEffect(mid, step.claimed.value, step.worker, step.now);
        ClaimProtects(mid, step.claimed.value, step.worker, step.now);
      }
    }
  }

  lemma WriteEffect(s: Store, step: Step) returns (e: Effect)
    requires Orderly(s) && Enabled(s, step) && Disciplined(s, step)
    requires step.NewFolder? || step.NewItem? || step.Move? || step.DropFolder? || step.DropItem? || step.PurgeOneItem? || step.PurgeOneFolder?
    ensures Has(s, Next(s, step), e) && !e.Buried?
  {
    match step
    case NewFolder(parent, name, id) => e := NewFolderEffect(s, parent, name, id);
    case NewItem(folder, name, external, id) => e := NewItemEffect(s, folder, name, external, id);
    case Move(folder, dest) => e := MoveEffect(s, folder, dest);
    case DropFolder(folder, unit, now) => e := DropFolderEffect(s, folder, unit, now);
    case DropItem(item, unit, now) => e := DropItemEffect(s, item, unit, now);
    case PurgeOneItem(j, worker, item, now) => e := PurgeItemEffect(s, j, worker, item, now);
    case PurgeOneFolder(j, worker, leaf, now) =>
      if leaf.Some? { e := PurgeLeafEffect(s, j, worker, leaf.value, now); } else { e := PurgeEndEffect(s, j, worker, now); }
  }

  lemma JobStepUntouched(s: Store, step: Step)
    requires Orderly(s) && Enabled(s, step)
    requires step.PreviewDeletion? || step.RetryDeletion? || step.GiveUpDeletion? || step.RenewPurge?
    ensures Has(s, Next(s, step), Untouched)
  {
  }

  lemma UnitEffect(s: Store, step: Step) returns (e: Effect)
    requires Orderly(s) && Enabled(s, step) && Disciplined(s, step)
    requires step.ConfirmDeletion? || step.CancelDeletion? || step.DeleteRows? || step.AskRestore? || step.RestoreRows? || step.GiveUpNative?
    ensures Has(s, Next(s, step), e)
    ensures e.Buried? ==> step.DeleteRows? && e.u == step.unit && Apply(s, step).Commit?
  {
    match step
    case ConfirmDeletion(l, root, accepted, u, j, now) => e := ConfirmEffect(s, l, root, accepted, u, j, now);
    case CancelDeletion(l, link, deleting) => e := CancelEffect(s, l, link, deleting);
    case DeleteRows(l, j, u, worker, items, folders, now) => e := BatchEffect(s, l, j, u, worker, items, folders, now);
    case AskRestore(u, j, now) => e := AskEffect(s, u, j, now);
    case RestoreRows(j, worker, memberFolders, memberItems, now) => e := RestoreEffect(s, j, worker, memberFolders, memberItems, now);
    case GiveUpNative(j, op, worker, now) => e := GiveUpNativeEffect(s, j, op, worker, now);
  }

  /** Every step but a cleanup batch has at most two effects on rows and units. */
  lemma StepEffects(s: Store, step: Step) returns (mid: Store, e: Effect, e2: Effect)
    requires Orderly(s) && Enabled(s, step) && Disciplined(s, step) && !step.Cleanup?
    ensures Has(s, mid, e) && Has(mid, Next(s, step), e2)
    ensures e2.Untouched? || (e2.StateChange? && (e.Untouched? || e.Founded?))
    ensures e.Buried? ==> step.DeleteRows? && e.u == step.unit && Apply(s, step).Commit?
  {
    if step.Poll? {
      mid, e, e2 := PollEffects(s, step);
    } else {
      mid, e2 := Next(s, step), Untouched;
      if step.PreviewDeletion? || step.RetryDeletion? || step.GiveUpDeletion? || step.RenewPurge? {
        e := Untouched;
        JobStepUntouched(s, step);
      } else if step.ConfirmDeletion? || step.CancelDeletion? || step.DeleteRows? || step.AskRestore? || step.RestoreRows? || step.GiveUpNative? {
        e := UnitEffect(s, step);
      } else {
        e := WriteEffect(s, step);
      }
    }
  }

  lemma StepTidy(s: Store, step: Step)
    requires Orderly(s) && Enabled(s, step) && Disciplined(s, step)
    ensures Tidy(Next(s, step))
  {
    if step.Cleanup? {
      CleanupTidy(s, step.picks, step.now);
    } else {
      var mid, e, e2 := StepEffects(s, step);
      EffectTidy(s, mid, e);
      EffectTidy(mid, Next(s, step), e2);
    }
  }

  lemma StepLinked(s: Store, step: Step)
    requires Orderly(s) && Enabled(s, step) && Disciplined(s, step)
    ensures Linked(Next(s, step))
  {
    if step.Poll? {
      var _, _, _ := PollEffects(s, step);
    } else if step.ConfirmDeletion? {
      StartsLinked(s, step);
    } else if step.CancelDeletion? {
      CancelProtects(s, step.legacy, step.link, step.deleting);
      LinkedJobsKnown(s, step);
    } else if step.DeleteRows? {
      BatchProtects(s, step.legacy, step.job, step.unit, step.worker, step.items, step.folders, step.now);
      LinkedJobsKnown(s, step);
    } else if step.Cleanup? {
      CleanupProtects(s, step.picks, step.now);
    } else if step.RestoreRows? {
      RestoreProtects(s, step.job, step.worker, step.memberFolders, step.memberItems, step.now);
    } else if step.PreviewDeletion? || step.RetryDeletion? || step.GiveUpDeletion? {
      QuietProtects(s, step);
    } else if step.AskRestore? || step.GiveUpNative? || step.RenewPurge? {
      NativeProtects(s, step);
    } else {
      WriteProtects(s, step);
    }
  }

  /** The whole invariant, one disciplined step at a time. */
  lemma StepOrderly(s: Store, step: Step)
    requires Orderly(s) && Enabled(s, step) && Disciplined(s, step)
    ensures Orderly(Next(s, step))
  {
    StepSpends(s, step);
    StepMirrors(s, step);
    StepGuarded(s, step);
    StepTidy(s, step);
    StepLinked(s, step);
  }
}
