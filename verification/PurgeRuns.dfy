module PurgeRuns {
  // Whole runs of the physical purge. When an asset's rows go, every object recorded for it
  // has been removed after it was put on the manifest, and it stays gone in every run
  // exactly if upload credentials and executions are configured to end within the retention.

  import opened Wrappers
  import opened FiniteSums
  import opened MediaTables
  import opened MediaSteps
  import opened MediaInvariant
  import opened MediaWorld
  import opened MediaRuns
  import opened MediaKeys
  import opened PurgeManifest

  datatype PurgeMove = PurgeMove(now: Time, step: PurgeStep)

  ghost predicate StepsTo(trace: seq<State>, moves: seq<PurgeMove>, policy: Policy, i: nat) {
    && i < |moves| && i + 1 < |trace| && Allowed(trace[i], moves[i].now, moves[i].step)
    && trace[i + 1] == After(trace[i], policy, moves[i].now, moves[i].step)
  }

  ghost predicate PurgeRun(trace: seq<State>, moves: seq<PurgeMove>, policy: Policy) {
    |trace| == |moves| + 1 && forall i: nat {:trigger StepsTo(trace, moves, policy, i)} :: i < |moves| ==> StepsTo(trace, moves, policy, i)
  }

  /** The invariant holds in every state, whatever crashes, lapses, is re-claimed or is uploaded late. */
  lemma {:induction false} RunKeepsInv(trace: seq<State>, moves: seq<PurgeMove>, policy: Policy, n: nat)
    requires PurgeRun(trace, moves, policy) && PurgeInv(trace[0], policy) && n < |trace|
    ensures PurgeInv(trace[n], policy)
  {
    if n > 0 {
      RunKeepsInv(trace, moves, policy, n - 1);
      assert StepsTo(trace, moves, policy, n - 1);
      PurgeStepKeeps(trace[n - 1], policy, moves[n - 1].now, moves[n - 1].step);
    }
  }

  // ---- who can still write a key ----

  /** An unexpired credential for a raw key, or an execution of an output's version within its deadline. */
  predicate CanStillWrite(s: State, key: ObjectKey) {
    match key
    case RawKey(_, _, _, _) => key in s.credentials && s.clock < s.credentials[key]
    case ProcessedKey(_, asset, version, _, _) => exists e :: e in s.running && MayPut(s, e, s.clock) && e.asset == asset && e.version == version
  }

  /** The session or version the key belongs to is gone, and its id will not be used again. */
  predicate OriginGone(s: State, key: ObjectKey) {
    match key
    case RawKey(_, _, upload, _) => upload in s.world.spentUploads && upload !in s.world.db.sessions
    case ProcessedKey(_, _, version, _, _) => version in s.world.spentVersions && version !in s.world.db.versions
  }

  lemma StartedVersion(db: Db, policy: Policy, now: Time, m: Step, e: Execution)
    requires Jobs(db, policy) && e in Started(db, policy, now, m)
    ensures e.version in db.versions
  {
    assert JobSound(db, policy, m.job);
  }

  /** Once a key's origin is gone, nobody becomes able to write it any more. */
  lemma MediaLeavesWriters(s: State, policy: Policy, now: Time, m: Step, key: ObjectKey)
    requires PurgeInv(s, policy) && Allowed(s, now, Media(m)) && OriginGone(s, key)
    ensures OriginGone(After(s, policy, now, Media(m)), key)
    ensures CanStillWrite(After(s, policy, now, Media(m)), key) ==> CanStillWrite(s, key)
  {
    var t := After(s, policy, now, Media(m));
    StepEvolves(s.world.db, policy, now, m);
    if key.ProcessedKey? {
      forall e | MayPut(t, e, t.clock) && e.version == key.version ensures MayPut(s, e, s.clock) {
        if e !in s.running { StartedVersion(s.world.db, policy, now, m, e); }
      }
    }
  }

  lemma TeardownLeavesWriters(s: State, policy: Policy, now: Time, step: PurgeStep, key: ObjectKey)
    requires PurgeInv(s, policy) && Allowed(s, now, step) && step.FinalizeAsset? && OriginGone(s, key)
    ensures OriginGone(After(s, policy, now, step), key)
    ensures CanStillWrite(After(s, policy, now, step), key) ==> CanStillWrite(s, key)
  {
    StepEvolves(s.world.db, policy, now, PurgeAsset(step.org, s.workers[step.worker].asset, step.unit));
  }

  lemma IssueLeavesWriters(s: State, policy: Policy, now: Time, upload: Id, until: Time, key: ObjectKey)
    requires PurgeInv(s, policy) && Allowed(s, now, IssueCredential(upload, until)) && OriginGone(s, key)
    ensures OriginGone(After(s, policy, now, IssueCredential(upload, until)), key)
    ensures CanStillWrite(After(s, policy, now, IssueCredential(upload, until)), key) ==> CanStillWrite(s, key)
  {
    assert SessionOwnsKey(s.world.db, upload);
  }

  /** The other steps leave tables and credentials alone and start no execution. */
  lemma QuietStep(s: State, policy: Policy, now: Time, step: PurgeStep)
    requires Allowed(s, now, step) && !step.Media? && !step.IssueCredential? && !step.FinalizeAsset?
    ensures var t := After(s, policy, now, step);
            t.world == s.world && t.credentials == s.credentials && t.running <= s.running && t.limits == s.limits && s.clock <= t.clock
  {
  }

  lemma WritersNeverGrow(s: State, policy: Policy, now: Time, step: PurgeStep, key: ObjectKey)
    requires PurgeInv(s, policy) && Allowed(s, now, step) && OriginGone(s, key)
    ensures OriginGone(After(s, policy, now, step), key)
    ensures CanStillWrite(After(s, policy, now, step), key) ==> CanStillWrite(s, key)
  {
    if step.Media? {
      MediaLeavesWriters(s, policy, now, step.step, key);
    } else if step.IssueCredential? {
      IssueLeavesWriters(s, policy, now, step.upload, step.until, key);
    } else if step.FinalizeAsset? {
      TeardownLeavesWriters(s, policy, now, step, key);
    } else {
      QuietStep(s, policy, now, step);
    }
  }

  /** Only somebody who can write a key brings its object back. */
  lemma StoredByWriter(s: State, policy: Policy, now: Time, step: PurgeStep, key: ObjectKey)
    requires PurgeInv(s, policy) && Allowed(s, now, step) && !InStorage(s.log, key)
    ensures InStorage(After(s, policy, now, step).log, key) ==> CanStillWrite(s, key)
  {
    var t := After(s, policy, now, step);
    if step.PutRaw? {
      assert CredentialSound(s, step.key);
      OneMoreEvent(s.log, Put(step.key), key);
    } else if step.PutOutput? {
      OneMoreEvent(s.log, Put(step.key), key);
    } else if step.RemoveObject? || step.DeleteObject? {
      OneMoreEvent(s.log, Removed(step.key), key);
    } else {
      assert t.log == s.log;
    }
  }

  lemma OneMoreEvent(log: seq<ObjectEvent>, e: ObjectEvent, key: ObjectKey)
    ensures InStorage(log + [e], key) && e != Put(key) ==> InStorage(log, key)
    ensures e == Put(key) ==> InStorage(log + [e], key)
  {
    var longer := log + [e];
    if InStorage(longer, key) && e != Put(key) {
      var p :| 0 <= p < |longer| && longer[p] == Put(key) && forall n :: p < n < |longer| ==> longer[n] != Removed(key);
      assert log[p] == Put(key) && forall n :: p < n < |log| ==> longer[n] == log[n];
    }
    assert longer[|log|] == e;
  }

  /** The origin is gone, the object is not stored, and nobody can write it. */
  ghost predicate Gone(s: State, key: ObjectKey) {
    OriginGone(s, key) && !CanStillWrite(s, key) && !InStorage(s.log, key)
  }

  lemma GoneStep(s: State, policy: Policy, now: Time, step: PurgeStep, key: ObjectKey)
    requires PurgeInv(s, policy) && Allowed(s, now, step) && Gone(s, key)
    ensures Gone(After(s, policy, now, step), key)
  {
    WritersNeverGrow(s, policy, now, step, key);
    StoredByWriter(s, policy, now, step, key);
  }

  lemma {:induction false} StaysGone(trace: seq<State>, moves: seq<PurgeMove>, policy: Policy, key: ObjectKey, n: nat)
    requires PurgeRun(trace, moves, policy) && PurgeInv(trace[0], policy) && n < |trace|
    requires Gone(trace[0], key)
    ensures Gone(trace[n], key)
  {
    if n > 0 {
      StaysGone(trace, moves, policy, key, n - 1);
      RunKeepsInv(trace, moves, policy, n - 1);
      assert StepsTo(trace, moves, policy, n - 1);
      GoneStep(trace[n - 1], policy, moves[n - 1].now, moves[n - 1].step, key);
    }
  }

  // ---- gone for good ----

  /** In no continuation of the run is the object ever stored. */
  ghost predicate GoneForGood(s: State, policy: Policy, key: ObjectKey) {
    forall trace: seq<State>, moves: seq<PurgeMove> {:trigger PurgeRun(trace, moves, policy)} ::
      PurgeRun(trace, moves, policy) && trace[0] == s ==> !InStorage(trace[|trace| - 1].log, key)
  }

  /** The write that brings the object back: a late upload, or a late output of a stalled execution. */
  ghost function LateWrite(s: State, key: ObjectKey): PurgeStep
    requires CanStillWrite(s, key)
  {
    if key.RawKey? then PutRaw(key)
    else
      var e :| MayPut(s, e, s.clock) && e.asset == key.asset && e.version == key.version;
      PutOutput(e, key)
  }

  lemma LateWriteStores(s: State, policy: Policy, key: ObjectKey)
    requires CanStillWrite(s, key)
    ensures !GoneForGood(s, policy, key)
  {
    var t := After(s, policy, s.clock, LateWrite(s, key));
    var moves := [PurgeMove(s.clock, LateWrite(s, key))];
    OneMoreEvent(s.log, Put(key), key);
    assert PurgeRun([s, t], moves, policy) && [s, t][|[s, t]| - 1] == t && InStorage(t.log, key);
  }

  /** Once its origin is gone, an object is gone for good exactly if it is not stored and nobody can write it. */
  lemma GoneForGoodExactly(s: State, policy: Policy, key: ObjectKey)
    requires PurgeInv(s, policy) && OriginGone(s, key)
    ensures GoneForGood(s, policy, key) <==> !InStorage(s.log, key) && !CanStillWrite(s, key)
  {
    if InStorage(s.log, key) {
      assert PurgeRun([s], [], policy) && [s][|[s]| - 1] == s;
    } else if CanStillWrite(s, key) {
      LateWriteStores(s, policy, key);
    } else {
      forall trace: seq<State>, moves: seq<PurgeMove> | PurgeRun(trace, moves, policy) && trace[0] == s ensures !InStorage(trace[|trace| - 1].log, key) {
        StaysGone(trace, moves, policy, key, |trace| - 1);
      }
    }
  }

  // ---- the teardown ----

  /** The ledger row a teardown needs is always there: no teardown of the asset's own organization rolls back. */
  lemma TeardownCommits(db: Db, org: Id, asset: Id, unit: Id)
    requires Sessions(db) && Versions(db) && (asset in db.assets ==> db.assets[asset].org == org)
    ensures FinalizePurgeAsset(db, org, asset, unit).Commit?
  {
    if org !in db.usage {
      forall s | s in db.sessions ensures db.sessions[s].asset != asset { assert SessionSound(db, s); }
      forall v | v in db.versions ensures db.versions[v].asset != asset {
        assert VersionSound(db, v) && SessionSound(db, db.versions[v].upload);
      }
      TotalOfZeros(RetainedRows(db, asset));
      TotalOfZeros(OpenRows(db, org, asset));
    }
  }

  /** The recording row belongs to the asset, and to the session or version the key names. */
  lemma RecordedOrigin(db: Db, asset: Id, key: ObjectKey)
    requires KeysOwned(db) && Versions(db) && Records(db, asset, key)
    ensures key.RawKey? ==> key.upload in SessionsOf(db, asset)
    ensures key.ProcessedKey? ==> key.version in VersionsOf(db, asset)
  {
    if u :| RecordsSession(db, asset, key, u) {
      assert SessionOwnsKey(db, u);
    } else {
      var v :| RecordsVersion(db, asset, key, v);
      assert VersionOwnsKeys(db, v) && VersionSound(db, v);
    }
  }

  /** The rows that recorded the key are deleted. */
  lemma TeardownDeletesOrigin(db: Db, org: Id, asset: Id, unit: Id, key: ObjectKey)
    requires Sessions(db) && Versions(db) && (asset in db.assets ==> db.assets[asset].org == org)
    requires KeysOwned(db) && Records(db, asset, key)
    ensures key.RawKey? ==> key.upload in db.sessions && key.upload !in DbAfter(db, FinalizePurgeAsset(db, org, asset, unit)).sessions
    ensures key.ProcessedKey? ==> key.version in db.versions && key.version !in DbAfter(db, FinalizePurgeAsset(db, org, asset, unit)).versions
  {
    TeardownCommits(db, org, asset, unit);
    RecordedOrigin(db, asset, key);
  }

  lemma TeardownWorld(s: State, policy: Policy, now: Time, step: PurgeStep)
    requires Allowed(s, now, step) && step.FinalizeAsset?
    ensures
      var asset, w := s.workers[step.worker].asset, After(s, policy, now, step).world;
      && (asset in s.world.db.assets ==> s.world.db.assets[asset].org == step.org)
      && w.db == DbAfter(s.world.db, FinalizePurgeAsset(s.world.db, step.org, asset, step.unit))
      && w.spentUploads == s.world.spentUploads && w.spentVersions == s.world.spentVersions
  {
  }

  lemma TeardownEndsOrigin(s: State, policy: Policy, now: Time, step: PurgeStep, key: ObjectKey)
    requires PurgeInv(s, policy) && Allowed(s, now, step) && step.FinalizeAsset?
    requires Records(s.world.db, s.workers[step.worker].asset, key)
    ensures OriginGone(After(s, policy, now, step), key)
  {
    TeardownWorld(s, policy, now, step);
    TeardownDeletesOrigin(s.world.db, step.org, s.workers[step.worker].asset, step.unit, key);
  }

  /** The object was removed from storage after its manifest entry was written. */
  ghost predicate RemovedUnderManifest(s: State, job: Id, key: ObjectKey) {
    var mk := ManifestKey(job, key);
    mk in s.manifest && s.manifest[mk].deleted && RemovedSince(s.log, key, s.manifest[mk].since)
  }

  lemma TeardownFollowsRemoval(s: State, policy: Policy, now: Time, step: PurgeStep, key: ObjectKey)
    requires PurgeInv(s, policy) && Allowed(s, now, step) && step.FinalizeAsset?
    requires Records(s.world.db, s.workers[step.worker].asset, key)
    ensures RemovedUnderManifest(s, s.workers[step.worker].job, key) && key.asset in s.purging
    ensures WritersBounded(s.limits, key) ==> !InStorage(s.log, key)
  {
    var phase := s.workers[step.worker];
    var mk := ManifestKey(phase.job, key);
    assert WorkerSound(s, step.worker) && EntrySound(s, mk);
    OwnedKeyNamesAsset(s.world.db, phase.asset, key);
    if WritersBounded(s.limits, key) { RemovedForGood(s.log, key, s.manifest[mk].since); }
  }

  /** Of an asset under purge nobody can write a key whose writers are bounded. */
  lemma NobodyWrites(s: State, policy: Policy, key: ObjectKey)
    requires PurgeInv(s, policy) && key.asset in s.purging && WritersBounded(s.limits, key)
    ensures !CanStillWrite(s, key)
  {
    if key.RawKey? {
      CredentialsOver(s, policy, s.clock, key);
    } else {
      forall e | MayPut(s, e, s.clock) && e.asset == key.asset ensures false { ExecutionsOver(s, policy, s.clock, e); }
    }
  }

  /**
   When an asset's rows go, every object recorded for it was removed after it was put on the
   manifest. It is gone for good if its writers end within the retention, and in general
   exactly if it was not written since and nobody can write it now.
   */
  lemma TeardownOrphansNothing(s: State, policy: Policy, now: Time, step: PurgeStep, key: ObjectKey)
    requires PurgeInv(s, policy) && Allowed(s, now, step) && step.FinalizeAsset?
    requires Records(s.world.db, s.workers[step.worker].asset, key)
    ensures
      var t := After(s, policy, now, step);
      && RemovedUnderManifest(t, s.workers[step.worker].job, key)
      && (GoneForGood(t, policy, key) <==> !InStorage(t.log, key) && !CanStillWrite(t, key))
      && (WritersBounded(s.limits, key) ==> GoneForGood(t, policy, key))
  {
    var t := After(s, policy, now, step);
    PurgeStepKeeps(s, policy, now, step);
    TeardownEndsOrigin(s, policy, now, step, key);
    TeardownFollowsRemoval(s, policy, now, step, key);
    GoneForGoodExactly(t, policy, key);
    if WritersBounded(s.limits, key) { NobodyWrites(t, policy, key); }
  }

  // ---- storage afterwards ----

  /** Written after position `n`, and not removed since. */
  predicate WrittenAfter(log: seq<ObjectEvent>, key: ObjectKey, n: nat) {
    exists p :: n < p < |log| && log[p] == Put(key) && forall m :: p < m < |log| ==> log[m] != Removed(key)
  }

  lemma StepExtendsLog(s: State, policy: Policy, now: Time, step: PurgeStep)
    requires Allowed(s, now, step)
    ensures s.log <= After(s, policy, now, step).log
  {
  }

  lemma {:induction false} LogOnlyGrows(trace: seq<State>, moves: seq<PurgeMove>, policy: Policy, i: nat)
    requires PurgeRun(trace, moves, policy) && i < |trace|
    ensures trace[0].log <= trace[i].log
  {
    if i > 0 {
      LogOnlyGrows(trace, moves, policy, i - 1);
      assert StepsTo(trace, moves, policy, i - 1);
      StepExtendsLog(trace[i - 1], policy, moves[i - 1].now, moves[i - 1].step);
    }
  }

  /** At any later moment the object is in storage exactly if a write followed the removal. */
  lemma StoredLaterExactly(trace: seq<State>, moves: seq<PurgeMove>, policy: Policy, i: nat, key: ObjectKey, n: nat)
    requires PurgeRun(trace, moves, policy) && i < |trace|
    requires n < |trace[0].log| && trace[0].log[n] == Removed(key)
    ensures InStorage(trace[i].log, key) <==> WrittenAfter(trace[i].log, key, n)
  {
    LogOnlyGrows(trace, moves, policy, i);
    StoredOnlyByLaterPut(trace[i].log, key, n);
  }

  /** The removal `n` came after the manifest entry was written, and decides what is stored at `log`. */
  ghost predicate DecidedByRemoval(s: State, job: Id, key: ObjectKey, log: seq<ObjectEvent>, n: nat) {
    && ManifestKey(job, key) in s.manifest && s.manifest[ManifestKey(job, key)].since <= n < |s.log| && s.log[n] == Removed(key)
    && (InStorage(log, key) <==> WrittenAfter(log, key, n))
  }

  /** At and after the teardown a recorded object is stored exactly if a write followed its removal under the manifest. */
  lemma StoredAfterTeardown(trace: seq<State>, moves: seq<PurgeMove>, policy: Policy, i: nat, step: PurgeStep, now: Time, s: State, key: ObjectKey)
    requires PurgeInv(s, policy) && Allowed(s, now, step) && step.FinalizeAsset?
    requires Records(s.world.db, s.workers[step.worker].asset, key)
    requires PurgeRun(trace, moves, policy) && trace[0] == After(s, policy, now, step) && i < |trace|
    ensures exists n :: DecidedByRemoval(trace[0], s.workers[step.worker].job, key, trace[i].log, n)
  {
    var job := s.workers[step.worker].job;
    TeardownOrphansNothing(s, policy, now, step, key);
    var n: nat :| trace[0].manifest[ManifestKey(job, key)].since <= n < |trace[0].log| && trace[0].log[n] == Removed(key);
    StoredLaterExactly(trace, moves, policy, i, key, n);
    assert DecidedByRemoval(trace[0], job, key, trace[i].log, n);
  }

  // ---- a purge can always be completed ----

  ghost predicate Connects(trace: seq<State>, moves: seq<PurgeMove>, policy: Policy, s: State, t: State) {
    PurgeRun(trace, moves, policy) && trace[0] == s && trace[|trace| - 1] == t
  }

  /** Some run leads from `s` to `t`. */
  ghost predicate Continues(policy: Policy, s: State, t: State) {
    exists trace, moves {:trigger Connects(trace, moves, policy, s, t)} :: Connects(trace, moves, policy, s, t)
  }

  lemma ContinuesHere(policy: Policy, s: State)
    ensures Continues(policy, s, s)
  {
    assert Connects([s], [], policy, s, s);
  }

  lemma ContinuesNext(policy: Policy, s: State, t: State, now: Time, step: PurgeStep, u: State)
    requires Continues(policy, s, t) && Allowed(t, now, step) && After(t, policy, now, step) == u
    ensures Continues(policy, s, u)
  {
    var trace, moves :| Connects(trace, moves, policy, s, t);
    var longer, taken := trace + [u], moves + [PurgeMove(now, step)];
    forall i: nat | i < |taken| ensures StepsTo(longer, taken, policy, i) {
      if i < |moves| { assert StepsTo(trace, moves, policy, i); }
    }
    assert Connects(longer, taken, policy, s, u);
  }

  lemma ContinuesOn(policy: Policy, s: State, t: State, u: State)
    requires Continues(policy, s, t) && Continues(policy, t, u)
    ensures Continues(policy, s, u)
  {
    var first, taken :| Connects(first, taken, policy, s, t);
    var second, more :| Connects(second, more, policy, t, u);
    var trace, moves := first + second[1..], taken + more;
    forall i: nat | i < |moves| ensures StepsTo(trace, moves, policy, i) {
      if i < |taken| { assert StepsTo(first, taken, policy, i); } else { assert StepsTo(second, more, policy, i - |taken|); }
    }
    assert Connects(trace, moves, policy, s, u);
  }

  /** A worker deletes what is left of its list, one object after the other. */
  lemma {:induction false} DeletesAll(policy: Policy, s: State, t: State, worker: WorkerId) returns (u: State)
    requires Continues(policy, s, t) && worker in t.workers && t.workers[worker].Deleting?
    ensures Continues(policy, s, u) && worker in u.workers
    ensures u == t.(log := u.log, workers := t.workers[worker := u.workers[worker]])
    ensures
      var phase := t.workers[worker];
      u.workers[worker] == phase.(pending := {}, done := phase.done + phase.pending)
    decreases |t.workers[worker].pending|
  {
    var phase := t.workers[worker];
    if phase.pending == {} {
      u := t;
      assert phase == phase.(pending := {}, done := phase.done + phase.pending) && t.workers[worker := phase] == t.workers;
    } else {
      var key :| key in phase.pending;
      var next := t.(log := t.log + [Removed(key)],
                     workers := t.workers[worker := phase.(pending := phase.pending - {key}, done := phase.done + {key})]);
      ContinuesNext(policy, s, t, t.clock, DeleteObject(worker, key), next);
      u := DeletesAll(policy, s, next, worker);
      assert phase.done + {key} + (phase.pending - {key}) == phase.done + phase.pending;
    }
  }

  lemma NothingPending(manifest: map<ManifestKey, Entry>, job: Id, asset: Id, s: State)
    requires s.manifest == MarkedManifest(manifest, job, asset, PendingKeys(manifest, job, asset))
    ensures NonePending(s, job, asset)
  {
    forall mk | mk in s.manifest && mk.job == job && s.manifest[mk].asset == asset ensures s.manifest[mk].deleted {
      if !manifest[mk].deleted { assert mk.key in PendingKeys(manifest, job, asset); }
    }
  }

  /** From the worker's list to its mark: everything listed is deleted. */
  lemma MarksAll(policy: Policy, s: State, t: State, worker: WorkerId, job: Id, asset: Id) returns (u: State)
    requires Continues(policy, s, t) && HoldsPurgeLease(t, t.clock, job, worker)
    requires worker in t.workers && t.workers[worker] == Deleting(job, asset, PendingKeys(t.manifest, job, asset), {})
    ensures Continues(policy, s, u) && u == t.(log := u.log, manifest := u.manifest, workers := u.workers)
    ensures worker in u.workers && u.workers[worker] == Marked(job, asset) && NonePending(u, job, asset)
  {
    var v := DeletesAll(policy, s, t, worker);
    var pending := PendingKeys(t.manifest, job, asset);
    assert {} + pending == pending;
    u := v.(manifest := MarkedManifest(v.manifest, job, asset, pending), workers := v.workers[worker := Marked(job, asset)]);
    ContinuesNext(policy, s, v, v.clock, MarkDeleted(worker), u);
    NothingPending(t.manifest, job, asset, u);
  }

  /** What a purge leaves alone before its teardown. */
  predicate OnlyPurged(s: State, t: State, now: Time) {
    t.world == s.world && t.running == s.running && t.credentials == s.credentials && t.limits == s.limits && t.clock == now
  }

  /** One worker takes a tombstone whose retention is over all the way to its teardown, whatever happened before. */
  lemma PurgeCompletes(policy: Policy, s: State, now: Time, worker: WorkerId, job: Id, asset: Id, org: Id, unit: Id) returns (t: State)
    requires asset in s.world.db.assets && s.world.db.assets[asset].deleted && s.world.db.assets[asset].org == org
    requires asset in s.tombstonedAt && s.tombstonedAt[asset] + RETENTION <= now && s.clock <= now
    requires job in s.leases ==> s.leases[job].expiresAt < now
    ensures Continues(policy, s, t) && OnlyPurged(s, t, now) && Allowed(t, now, FinalizeAsset(worker, org, unit))
    ensures worker in t.workers && t.workers[worker] == Marked(job, asset)
  {
    var leased := LeasesJob(policy, s, now, worker, job, asset);
    var listed := Listed(leased, worker, job, asset);
    ContinuesNext(policy, s, leased, now, NextAsset(worker, job, asset), listed);
    t := MarksAll(policy, s, listed, worker, job, asset);
  }

  lemma LeasesJob(policy: Policy, s: State, now: Time, worker: WorkerId, job: Id, asset: Id) returns (t: State)
    requires asset in s.world.db.assets && s.world.db.assets[asset].deleted
    requires asset in s.tombstonedAt && s.tombstonedAt[asset] + RETENTION <= now && s.clock <= now
    requires job in s.leases ==> s.leases[job].expiresAt < now
    ensures Continues(policy, s, t)
    ensures t == s.(clock := now, purging := s.purging + {asset}, leases := s.leases[job := Lease(worker, now + 1)])
  {
    ContinuesHere(policy, s);
    var begun := s.(clock := now, purging := s.purging + {asset});
    ContinuesNext(policy, s, s, now, BeginPurge(asset), begun);
    t := begun.(leases := s.leases[job := Lease(worker, now + 1)]);
    ContinuesNext(policy, s, begun, now, ClaimPurge(job, worker, 1), t);
  }

  function Listed(s: State, worker: WorkerId, job: Id, asset: Id): State {
    var manifest := WithManifest(s, job, asset);
    s.(manifest := manifest, workers := s.workers[worker := Deleting(job, asset, PendingKeys(manifest, job, asset), {})])
  }

  // ---- which configurations orphan nothing ----

  /** A run from the empty tables that is about to tear an asset down for which the key is recorded. */
  ghost predicate AtTeardown(
    limits: Limits, policy: Policy, trace: seq<State>, moves: seq<PurgeMove>, now: Time, step: PurgeStep, key: ObjectKey)
  {
    && PurgeRun(trace, moves, policy) && trace[0] == Begin(trace[0].log, limits)
    && Allowed(trace[|trace| - 1], now, step) && step.FinalizeAsset?
    && Records(trace[|trace| - 1].world.db, trace[|trace| - 1].workers[step.worker].asset, key)
  }

  /** In every run, every recorded object is gone for good once its asset is torn down. */
  ghost predicate NeverOrphans(limits: Limits) {
    forall policy, trace, moves, now, step, key {:trigger AtTeardown(limits, policy, trace, moves, now, step, key)} ::
      AtTeardown(limits, policy, trace, moves, now, step, key) ==>
        GoneForGood(After(trace[|trace| - 1], policy, now, step), policy, key)
  }

  predicate LimitsWithinRetention(limits: Limits) { limits.credentialTtl <= RETENTION && limits.deadline <= RETENTION }

  lemma TeardownState(
    limits: Limits, policy: Policy, trace: seq<State>, moves: seq<PurgeMove>, now: Time, step: PurgeStep, key: ObjectKey)
    requires AtTeardown(limits, policy, trace, moves, now, step, key)
    ensures PurgeInv(trace[|trace| - 1], policy) && trace[|trace| - 1].limits == limits
  {
    PurgeStart(trace[0].log, limits, policy);
    RunKeepsInv(trace, moves, policy, |trace| - 1);
    LimitsStay(trace, moves, policy, |trace| - 1);
  }

  lemma BoundedTeardown(
    limits: Limits, policy: Policy, trace: seq<State>, moves: seq<PurgeMove>, now: Time, step: PurgeStep, key: ObjectKey)
    requires LimitsWithinRetention(limits) && AtTeardown(limits, policy, trace, moves, now, step, key)
    ensures GoneForGood(After(trace[|trace| - 1], policy, now, step), policy, key)
  {
    TeardownState(limits, policy, trace, moves, now, step, key);
    TeardownOrphansNothing(trace[|trace| - 1], policy, now, step, key);
  }

  lemma BoundedNeverOrphans(limits: Limits)
    requires LimitsWithinRetention(limits)
    ensures NeverOrphans(limits)
  {
    forall policy, trace: seq<State>, moves: seq<PurgeMove>, now, step: PurgeStep, key
      | AtTeardown(limits, policy, trace, moves, now, step, key)
      ensures GoneForGood(After(trace[|trace| - 1], policy, now, step), policy, key)
    {
      BoundedTeardown(limits, policy, trace, moves, now, step, key);
    }
  }

  lemma StepKeepsLimits(s: State, policy: Policy, now: Time, step: PurgeStep)
    requires Allowed(s, now, step)
    ensures After(s, policy, now, step).limits == s.limits
  {
  }

  lemma {:induction false} LimitsStay(trace: seq<State>, moves: seq<PurgeMove>, policy: Policy, i: nat)
    requires PurgeRun(trace, moves, policy) && i < |trace|
    ensures trace[i].limits == trace[0].limits
  {
    if i > 0 {
      LimitsStay(trace, moves, policy, i - 1);
      assert StepsTo(trace, moves, policy, i - 1);
      StepKeepsLimits(trace[i - 1], policy, moves[i - 1].now, moves[i - 1].step);
    }
  }
}
