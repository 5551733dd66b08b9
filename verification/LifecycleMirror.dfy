module LifecycleMirror {
  // The V5 row is the public projection of its V8 DELETE job. In every reachable
  // store it is the job's exact image, and it is all the deletion fence reads.

  import opened Wrappers
  import opened LifecycleTables
  import opened LifecycleSteps
  import opened LifecycleRuns

  function Image(status: JobStatus): LegacyStatus {
    match status
    case JobQueued => LegacyQueued
    case JobRunning => LegacyRunning
    case JobSucceeded => LegacySucceeded
    case JobFailed => LegacyFailed
    case JobSuppressed => LegacyCancelled
  }

  /** Rows counted before a V5 job was adopted are not in the V8 checkpoint, hence `<=` for items. */
  predicate Mirrors(job: Job, legacy: Legacy) {
    && legacy.status == Image(job.status)
    && legacy.attempts == job.attempts && legacy.lease == job.lease && legacy.nextRunAt == job.nextRunAt
    && legacy.deleted.folders == job.checkpoint.folderRows && job.checkpoint.itemRows <= legacy.deleted.items
  }

  predicate JobSound(s: Store, j: Id) {
    j in s.jobs ==>
      && (s.jobs[j].operation.DeleteOp? <==> s.jobs[j].legacy.Some?)
      && (s.jobs[j].status.JobRunning? <==> s.jobs[j].lease.Some?)
      && (s.jobs[j].legacy.Some? ==>
            s.jobs[j].legacy.value in s.legacy && Mirrors(s.jobs[j], s.legacy[s.jobs[j].legacy.value]))
  }

  predicate OneLink(s: Store, j: Id, x: Id) {
    j in s.jobs && x in s.jobs && s.jobs[j].legacy.Some? && s.jobs[j].legacy == s.jobs[x].legacy ==> j == x
  }

  predicate LegacySound(s: Store, l: Id) {
    l in s.legacy ==>
      && (s.legacy[l].status.LegacyPreviewed? ==>
            s.legacy[l].attempts == 0 && s.legacy[l].lease.None? && s.legacy[l].deleted == Counts(0, 0))
  }

  ghost predicate Mirrored(s: Store) {
    && (forall j {:trigger JobSound(s, j)} :: JobSound(s, j))
    && (forall j, x {:trigger OneLink(s, j, x)} :: OneLink(s, j, x))
    && (forall l {:trigger LegacySound(s, l)} :: LegacySound(s, l))
  }

  // ---- what V5 had counted before its job existed stays the difference of the two item counts ----

  predicate Paired(s: Store, j: Id) {
    j in s.jobs && s.jobs[j].legacy.Some? && s.jobs[j].legacy.value in s.legacy
  }

  /** Items the V5 row counts and the V8 checkpoint does not. */
  function Surplus(s: Store, j: Id): int
    requires Paired(s, j)
  {
    s.legacy[s.jobs[j].legacy.value].deleted.items - s.jobs[j].checkpoint.itemRows
  }

  predicate PairKept(s: Store, t: Store, j: Id) {
    Paired(s, j) ==> Paired(t, j) && t.jobs[j].legacy == s.jobs[j].legacy && Surplus(t, j) == Surplus(s, j)
  }

  ghost predicate Tallied(s: Store, t: Store) {
    forall j {:trigger PairKept(s, t, j)} :: PairKept(s, t, j)
  }

  lemma TalliedOn(s: Store, t: Store, r: Store)
    requires Tallied(s, t) && Tallied(t, r)
    ensures Tallied(s, r)
  {
    forall j ensures PairKept(s, r, j) { assert PairKept(s, t, j) && PairKept(t, r, j); }
  }

  // ---- the five ways a transaction touches the two job tables ----

  lemma JobsUntouched(s: Store, t: Store)
    requires Mirrored(s) && t.jobs == s.jobs && t.legacy == s.legacy
    ensures Mirrored(t) && Tallied(s, t)
  {
    forall j ensures JobSound(t, j) { assert JobSound(s, j); }
    forall j, x ensures OneLink(t, j, x) { assert OneLink(s, j, x); }
    forall l ensures LegacySound(t, l) { assert LegacySound(s, l); }
  }

  /** A linked pair of rows is rewritten together. */
  lemma PairRewritten(s: Store, t: Store, j: Id, l: Id)
    requires Mirrored(s) && j in s.jobs && s.jobs[j].legacy == Some(l)
    requires l in s.legacy && j in t.jobs && l in t.legacy
    requires t.jobs == s.jobs[j := t.jobs[j]] && t.legacy == s.legacy[l := t.legacy[l]]
    requires t.jobs[j].legacy == Some(l) && t.jobs[j].operation.DeleteOp?
    requires (t.jobs[j].status.JobRunning? <==> t.jobs[j].lease.Some?) && Mirrors(t.jobs[j], t.legacy[l])
    requires t.legacy[l].deleted.items - t.jobs[j].checkpoint.itemRows == s.legacy[l].deleted.items - s.jobs[j].checkpoint.itemRows
    ensures Mirrored(t) && Tallied(s, t)
  {
    forall x ensures JobSound(t, x) {
      assert JobSound(s, x) && OneLink(s, x, j);
    }
    forall x, y ensures OneLink(t, x, y) { assert OneLink(s, x, y); }
    forall x ensures LegacySound(t, x) { assert LegacySound(s, x); }
    forall x ensures PairKept(s, t, x) { assert OneLink(s, x, j); }
  }

  /** A V5 row that has no job is rewritten, or a preview is inserted. */
  lemma LooseRowRewritten(s: Store, t: Store, l: Id)
    requires Mirrored(s) && !HasLink(s, l) && t.jobs == s.jobs
    requires l in t.legacy && t.legacy == s.legacy[l := t.legacy[l]] && LegacySound(t, l)
    ensures Mirrored(t) && Tallied(s, t)
  {
    forall x ensures JobSound(t, x) {
      assert JobSound(s, x);
      assert !LinkedTo(s, x, l);
    }
    forall x, y ensures OneLink(t, x, y) { assert OneLink(s, x, y); }
    forall x ensures LegacySound(t, x) { assert LegacySound(s, x); }
    forall x ensures PairKept(s, t, x) { assert !LinkedTo(s, x, l); }
  }

  /** A V5 row without a job gets one. */
  lemma LinkAdded(s: Store, t: Store, j: Id, l: Id)
    requires Mirrored(s) && !HasLink(s, l) && j !in s.jobs
    requires j in t.jobs && l in t.legacy
    requires t.jobs == s.jobs[j := t.jobs[j]] && t.legacy == s.legacy[l := t.legacy[l]]
    requires t.jobs[j].legacy == Some(l) && t.jobs[j].operation.DeleteOp?
    requires (t.jobs[j].status.JobRunning? <==> t.jobs[j].lease.Some?) && Mirrors(t.jobs[j], t.legacy[l])
    ensures Mirrored(t) && Tallied(s, t)
  {
    forall x ensures JobSound(t, x) {
      assert JobSound(s, x);
      assert !LinkedTo(s, x, l);
    }
    forall x, y ensures OneLink(t, x, y) {
      assert OneLink(s, x, y);
      assert !LinkedTo(s, x, l);
      assert !LinkedTo(s, y, l);
    }
    forall x ensures LegacySound(t, x) { assert LegacySound(s, x); }
    forall x ensures PairKept(s, t, x) { assert !LinkedTo(s, x, l); }
  }

  /** A RESTORE or PURGE job is inserted or rewritten. */
  lemma NativeRewritten(s: Store, t: Store, j: Id)
    requires Mirrored(s) && t.legacy == s.legacy && j in t.jobs && t.jobs == s.jobs[j := t.jobs[j]]
    requires t.jobs[j].legacy.None? && !t.jobs[j].operation.DeleteOp? && (j in s.jobs ==> s.jobs[j].legacy.None?)
    requires t.jobs[j].status.JobRunning? <==> t.jobs[j].lease.Some?
    ensures Mirrored(t) && Tallied(s, t)
  {
    forall x ensures JobSound(t, x) { assert JobSound(s, x); }
    forall x, y ensures OneLink(t, x, y) { assert OneLink(s, x, y); }
    forall x ensures LegacySound(t, x) { assert LegacySound(s, x); }
    forall x ensures PairKept(s, t, x) {}
  }

  // ---- every transaction keeps the mirror ----

  lemma StartMirrors(s: Store, l: Id, legacy: Legacy, u: Id, j: Id, now: Time)
    requires Mirrored(s) && IdsSpent(s) && j !in s.spent && legacy.status.LegacyQueued? && legacy.lease.None?
    requires legacy.nextRunAt == Some(now)
    ensures Mirrored(After(s, StartDeletion(s, l, legacy, u, j, now))) && Tallied(s, After(s, StartDeletion(s, l, legacy, u, j, now)))
  {
    var o := StartDeletion(s, l, legacy, u, j, now);
    if o.Commit? {
      var gated := CloseGate(s, legacy.root, legacy.rootPath, u).store;
      assert gated.jobs == s.jobs && gated.legacy == s.legacy;
      var t := o.store;
      assert t.jobs == s.jobs[j := t.jobs[j]] && t.legacy == s.legacy[l := t.legacy[l]];
      if HasLink(s, l) {
        var x :| x in s.jobs && LinkedTo(s, x, l);
        assert LinkedTo(gated.(legacy := t.legacy), x, l);
        assert false;
      }
      LinkAdded(s, t, j, l);
    }
  }

  lemma ConfirmMirrors(s: Store, l: Id, root: Id, accepted: bool, u: Id, j: Id, now: Time)
    requires Mirrored(s) && IdsSpent(s) && j !in s.spent
    ensures Mirrored(After(s, Confirm(s, l, root, accepted, u, j, now))) && Tallied(s, After(s, Confirm(s, l, root, accepted, u, j, now)))
  {
    if Confirmable(s, l, root, accepted, now) {
      assert LegacySound(s, l);
      StartMirrors(s, l, s.legacy[l].(status := LegacyQueued, previewExpiresAt := None, nextRunAt := Some(now)), u, j, now);
    }
  }

  lemma AdoptMirrors(s: Store, l: Id, u: Id, j: Id, now: Time)
    requires Mirrored(s) && IdsSpent(s) && j !in s.spent
    ensures Mirrored(After(s, Adopt(s, l, u, j, now))) && Tallied(s, After(s, Adopt(s, l, u, j, now)))
  {
    if Adoptable(s, l, now) {
      StartMirrors(s, l, s.legacy[l].(status := LegacyQueued, nextRunAt := Some(now), lease := None), u, j, now);
    }
  }

  lemma CancelMirrors(s: Store, l: Id, j: Option<Id>, u: Option<Id>)
    requires Mirrored(s) && LinkChoice(s, l, j)
    ensures Mirrored(After(s, Cancel(s, l, j, u))) && Tallied(s, After(s, Cancel(s, l, j, u)))
  {
    var o := Cancel(s, l, j, u);
    if o.Commit? {
      assert LegacySound(s, l);
      if j.Some? {
        assert JobSound(s, j.value);
        PairRewritten(s, o.store, j.value, l);
      } else {
        LooseRowRewritten(s, o.store, l);
      }
    }
  }

  lemma RetryMirrors(s: Store, l: Id, j: Option<Id>, now: Time)
    requires Mirrored(s) && LinkChoice(s, l, j)
    ensures Mirrored(After(s, Retry(s, l, j, now))) && Tallied(s, After(s, Retry(s, l, j, now)))
  {
    var o := Retry(s, l, j, now);
    if o.Commit? {
      assert LegacySound(s, l);
      if j.Some? {
        assert JobSound(s, j.value);
        PairRewritten(s, o.store, j.value, l);
      } else {
        LooseRowRewritten(s, o.store, l);
      }
    }
  }

  lemma FailClaimedMirrors(s: Store, j: Id)
    requires Mirrored(s) && j in s.jobs
    ensures Mirrored(FailClaimed(s, j)) && Tallied(s, FailClaimed(s, j))
  {
    assert JobSound(s, j);
    var t := FailClaimed(s, j);
    if s.jobs[j].legacy.Some? {
      PairRewritten(s, t, j, s.jobs[j].legacy.value);
    } else {
      NativeRewritten(s, t, j);
    }
  }

  lemma ClaimMirrors(s: Store, j: Id, worker: string, now: Time)
    requires Mirrored(s)
    ensures Mirrored(After(s, Claim(s, j, worker, now))) && Tallied(s, After(s, Claim(s, j, worker, now)))
  {
    var o := Claim(s, j, worker, now);
    if o.Commit? {
      assert JobSound(s, j);
      if s.jobs[j].attempts >= MAX_ATTEMPTS {
        FailClaimedMirrors(s, j);
      } else if s.jobs[j].operation.DeleteOp? {
        PairRewritten(s, o.store, j, s.jobs[j].legacy.value);
      } else {
        NativeRewritten(s, o.store, j);
      }
    }
  }

  /** The store between the two halves of a poll. */
  function Adopted(s: Store, adoption: Option<Adoption>, now: Time): Outcome {
    if adoption.Some? then Adopt(s, adoption.value.legacy, adoption.value.unit, adoption.value.job, now) else Commit(s)
  }

  lemma AdoptionMirrors(s: Store, adoption: Option<Adoption>, now: Time)
    requires Mirrored(s) && IdsSpent(s) && (adoption.Some? ==> adoption.value.job !in s.spent)
    ensures Tallied(s, s) && Mirrored(After(s, Adopted(s, adoption, now))) && Tallied(s, After(s, Adopted(s, adoption, now)))
  {
    forall x ensures PairKept(s, s, x) {}
    if adoption.Some? { AdoptMirrors(s, adoption.value.legacy, adoption.value.unit, adoption.value.job, now); }
  }

  lemma PollMirrors(s: Store, adoption: Option<Adoption>, j: Option<Id>, worker: string, now: Time)
    requires Mirrored(s) && IdsSpent(s) && (adoption.Some? ==> adoption.value.job !in s.spent)
    ensures Mirrored(After(s, ClaimNext(s, adoption, j, worker, now))) && Tallied(s, After(s, ClaimNext(s, adoption, j, worker, now)))
  {
    AdoptionMirrors(s, adoption, now);
    var adopted := Adopted(s, adoption, now);
    if adopted.Commit? && j.Some? {
      ClaimMirrors(adopted.store, j.value, worker, now);
      TalliedOn(s, adopted.store, After(adopted.store, Claim(adopted.store, j.value, worker, now)));
    }
  }

  lemma BatchMirrors(s: Store, j: Id, l: Id, u: Id, worker: string, items: set<Key>, folders: set<Key>, now: Time)
    requires Mirrored(s)
    ensures Mirrored(After(s, DeleteBatch(s, j, l, u, worker, items, folders, now))) && Tallied(s, After(s, DeleteBatch(s, j, l, u, worker, items, folders, now)))
  {
    var o := DeleteBatch(s, j, l, u, worker, items, folders, now);
    if o.Commit? {
      assert JobSound(s, j);
      BatchPair(s, j, l, u, worker, items, folders, now);
      PairRewritten(s, o.store, j, l);
    }
  }

  /** A batch rewrites the pair of rows it works for, to images of each other, and no other job row. */
  lemma BatchPair(s: Store, j: Id, l: Id, u: Id, worker: string, items: set<Key>, folders: set<Key>, now: Time)
    requires DeleteBatch(s, j, l, u, worker, items, folders, now).Commit? && JobSound(s, j)
    ensures OwnsDeletion(s, j, l, worker)
    ensures
      var t := DeleteBatch(s, j, l, u, worker, items, folders, now).store;
      && j in t.jobs && l in t.legacy && t.jobs == s.jobs[j := t.jobs[j]] && t.legacy == s.legacy[l := t.legacy[l]]
      && t.jobs[j].legacy == Some(l) && t.jobs[j].operation.DeleteOp?
      && (t.jobs[j].status.JobRunning? <==> t.jobs[j].lease.Some?) && Mirrors(t.jobs[j], t.legacy[l])
  {
    var gated := CloseGate(s, s.legacy[l].root, s.legacy[l].rootPath, u).store;
    assert gated.jobs == s.jobs && gated.legacy == s.legacy;
  }

  lemma GiveUpMirrors(s: Store, j: Id, l: Id, worker: string, now: Time)
    requires Mirrored(s)
    ensures Mirrored(After(s, FailDeletion(s, j, l, worker, now))) && Tallied(s, After(s, FailDeletion(s, j, l, worker, now)))
  {
    var o := FailDeletion(s, j, l, worker, now);
    if o.Commit? {
      assert JobSound(s, j);
      PairRewritten(s, o.store, j, l);
    }
  }

  lemma RestoreMirrors(s: Store, j: Id, worker: string, folders: seq<Id>, items: seq<Id>, now: Time)
    requires Mirrored(s)
    ensures Mirrored(After(s, RestoreBatch(s, j, worker, folders, items, now))) && Tallied(s, After(s, RestoreBatch(s, j, worker, folders, items, now)))
  {
    var o := RestoreBatch(s, j, worker, folders, items, now);
    assert JobSound(s, j);
    if o.Commit? { NativeRewritten(s, o.store, j); }
  }

  lemma GiveUpNativeMirrors(s: Store, j: Id, op: Operation, worker: string, now: Time)
    requires Mirrored(s)
    ensures Mirrored(After(s, FailNative(s, j, op, worker, now))) && Tallied(s, After(s, FailNative(s, j, op, worker, now)))
  {
    var o := FailNative(s, j, op, worker, now);
    assert JobSound(s, j);
    if o.Commit? { NativeRewritten(s, o.store, j); }
  }

  lemma RenewMirrors(s: Store, j: Id, worker: string, expected: Time, now: Time)
    requires Mirrored(s)
    ensures Mirrored(After(s, RenewPurgeLease(s, j, worker, expected, now))) && Tallied(s, After(s, RenewPurgeLease(s, j, worker, expected, now)))
  {
    var o := RenewPurgeLease(s, j, worker, expected, now);
    assert JobSound(s, j);
    if o.Commit? { NativeRewritten(s, o.store, j); }
  }

  lemma PurgeMirrors(s: Store, j: Id, worker: string, leaf: Option<Id>, now: Time)
    requires Mirrored(s)
    ensures Mirrored(After(s, FinalizePurge(s, j, worker, leaf, now))) && Tallied(s, After(s, FinalizePurge(s, j, worker, leaf, now)))
  {
    var o := FinalizePurge(s, j, worker, leaf, now);
    assert JobSound(s, j);
    if o.Commit? {
      if leaf.Some? { JobsUntouched(s, o.store); } else { NativeRewritten(s, o.store, j); }
    }
  }

  lemma AskMirrors(s: Store, u: Id, j: Id, now: Time)
    requires Mirrored(s) && j !in s.jobs
    ensures Mirrored(After(s, QueueRestore(s, u, j, now))) && Tallied(s, After(s, QueueRestore(s, u, j, now)))
  {
    var o := QueueRestore(s, u, j, now);
    if o.Commit? && o.store != s { NativeRewritten(s, o.store, j); }
  }

  lemma {:induction false} CleanupAdds(s: Store, picks: seq<Pick>, now: Time, x: Id)
    requires CleanupBatch(s, picks, now).Commit? && x in CleanupBatch(s, picks, now).store.jobs
    ensures x in s.jobs || exists i :: 0 <= i < |picks| && picks[i].job == x
  {
    if picks != [] {
      var before := CleanupBatch(s, picks[..|picks| - 1], now);
      if x in before.store.jobs { CleanupAdds(s, picks[..|picks| - 1], now, x); } else { assert picks[|picks| - 1].job == x; }
    }
  }

  lemma {:induction false} CleanupMirrors(s: Store, picks: seq<Pick>, now: Time)
    requires Mirrored(s) && IdsSpent(s) && CleanupChoice(s, picks, now)
    ensures Mirrored(After(s, CleanupBatch(s, picks, now))) && Tallied(s, After(s, CleanupBatch(s, picks, now)))
  {
    if picks != [] {
      var init, pick := picks[..|picks| - 1], picks[|picks| - 1];
      CleanupMirrors(s, init, now);
      var before := CleanupBatch(s, init, now);
      if before.Commit? {
        var o := QueuePurge(before.store, pick.unit, pick.job, now);
        if pick.job in before.store.jobs { CleanupAdds(s, init, now, pick.job); }
        if o.Commit? {
          NativeRewritten(before.store, o.store, pick.job);
          TalliedOn(s, before.store, o.store);
        }
      }
    }
  }

  lemma WritesMirror(s: Store, step: Step)
    requires Mirrored(s)
    requires step.NewFolder? || step.NewItem? || step.Move? || step.DropFolder? || step.DropItem? || step.PurgeOneItem?
    ensures Mirrored(Next(s, step)) && Tallied(s, Next(s, step))
  {
    JobsUntouched(s, Next(s, step));
  }

  lemma PreviewMirrors(s: Store, f: Id, l: Id, now: Time)
    requires Mirrored(s) && l !in s.legacy
    ensures Mirrored(After(s, Preview(s, f, l, now))) && Tallied(s, After(s, Preview(s, f, l, now)))
  {
    if Preview(s, f, l, now).Commit? {
      forall x | x in s.jobs ensures !LinkedTo(s, x, l) { assert JobSound(s, x); }
      LooseRowRewritten(s, Preview(s, f, l, now).store, l);
    }
  }

  lemma UserStepMirrors(s: Store, step: Step)
    requires Mirrored(s) && IdsSpent(s) && Enabled(s, step)
    requires step.PreviewDeletion? || step.ConfirmDeletion? || step.CancelDeletion? || step.RetryDeletion? || step.AskRestore?
    ensures Mirrored(Next(s, step)) && Tallied(s, Next(s, step))
  {
    match step
    case PreviewDeletion(folder, legacy, now) => PreviewMirrors(s, folder, legacy, now);
    case ConfirmDeletion(l, root, accepted, u, j, now) => ConfirmMirrors(s, l, root, accepted, u, j, now);
    case CancelDeletion(l, link, deleting) => CancelMirrors(s, l, link, deleting);
    case RetryDeletion(l, link, now) => RetryMirrors(s, l, link, now);
    case AskRestore(u, j, now) => AskMirrors(s, u, j, now);
  }

  lemma WorkerStepMirrors(s: Store, step: Step)
    requires Mirrored(s) && IdsSpent(s) && Enabled(s, step)
    requires step.DeleteRows? || step.GiveUpDeletion? || step.RestoreRows? || step.GiveUpNative? || step.RenewPurge?
      || step.Cleanup? || step.PurgeOneFolder?
    ensures Mirrored(Next(s, step)) && Tallied(s, Next(s, step))
  {
    match step
    case DeleteRows(l, j, u, worker, items, folders, now) => BatchMirrors(s, j, l, u, worker, items, folders, now);
    case GiveUpDeletion(l, j, worker, now) => GiveUpMirrors(s, j, l, worker, now);
    case RestoreRows(j, worker, memberFolders, memberItems, now) => RestoreMirrors(s, j, worker, memberFolders, memberItems, now);
    case GiveUpNative(j, op, worker, now) => GiveUpNativeMirrors(s, j, op, worker, now);
    case RenewPurge(j, worker, expected, now) => RenewMirrors(s, j, worker, expected, now);
    case Cleanup(picks, now) => CleanupMirrors(s, picks, now);
    case PurgeOneFolder(j, worker, leaf, now) => PurgeMirrors(s, j, worker, leaf, now);
  }

  /** One transaction, whichever it is and whatever it selects. */
  lemma StepMirrors(s: Store, step: Step)
    requires Mirrored(s) && IdsSpent(s) && Enabled(s, step)
    ensures Mirrored(Next(s, step)) && Tallied(s, Next(s, step))
  {
    if step.Poll? {
      PollMirrors(s, step.adoption, step.claimed, step.worker, step.now);
    } else if step.PreviewDeletion? || step.ConfirmDeletion? || step.CancelDeletion? || step.RetryDeletion? || step.AskRestore? {
      UserStepMirrors(s, step);
    } else if step.NewFolder? || step.NewItem? || step.Move? || step.DropFolder? || step.DropItem? || step.PurgeOneItem? {
      WritesMirror(s, step);
    } else {
      WorkerStepMirrors(s, step);
    }
  }
}
