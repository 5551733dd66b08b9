module PurgeManifest {
  // Physical purge of an asset's media: a durable manifest of object keys, storage
  // deletes outside any transaction, and the teardown. Workers crash, leases lapse
  // and are re-claimed, uploads and renditions write objects whenever the code lets
  // them, and the media subsystem keeps running beside it all.

  import opened Wrappers
  import opened MediaTables
  import opened MediaSteps
  import opened MediaInvariant
  import opened MediaWorld
  import opened MediaRuns
  import opened MediaKeys

  type WorkerId = string

  /** What happened in object storage, oldest first. */
  datatype ObjectEvent = Put(key: ObjectKey) | Removed(key: ObjectKey)

  /** A manifest row; `since`: how much had happened in storage when it was written. */
  datatype Entry = Entry(asset: Id, deleted: bool, since: nat)

  datatype ManifestKey = ManifestKey(job: Id, key: ObjectKey)

  /** Where a purge worker stands in its loop; its memory is lost in a crash. */
  datatype Phase =
    | Idle
    | Deleting(job: Id, asset: Id, pending: set<ObjectKey>, done: set<ObjectKey>)
    | Marked(job: Id, asset: Id)

  /** A media worker that claimed a job of the version at `since`; its context ends `deadline` later. */
  datatype Execution = Execution(owner: string, asset: Id, version: Id, since: Time)

  /** The two configured lifetimes: of an upload credential, and of one execution. */
  datatype Limits = Limits(credentialTtl: nat, deadline: nat)

  /**
   `credentials`: the latest expiry of an upload credential issued for a raw key.
   `tombstonedAt`: when an asset last became a tombstone.
   */
  datatype State = State(
    world: World, clock: Time, limits: Limits, log: seq<ObjectEvent>,
    credentials: map<ObjectKey, Time>, running: set<Execution>, tombstonedAt: map<Id, Time>,
    manifest: map<ManifestKey, Entry>, leases: map<Id, Lease>, workers: map<WorkerId, Phase>, purging: set<Id>)

  datatype PurgeStep =
    | Media(step: Step)
    | IssueCredential(upload: Id, until: Time)
    | PutRaw(key: ObjectKey)
    | PutOutput(execution: Execution, key: ObjectKey)
    | FinishExecution(execution: Execution)
    | RemoveObject(key: ObjectKey)
    | BeginPurge(asset: Id)
    | ClaimPurge(job: Id, worker: WorkerId, ttl: nat)
    | NextAsset(worker: WorkerId, job: Id, asset: Id)
    | DeleteObject(worker: WorkerId, key: ObjectKey)
    | MarkDeleted(worker: WorkerId)
    | FinalizeAsset(worker: WorkerId, org: Id, unit: Id)
    | Crash(worker: WorkerId)

  const RETENTION: nat := 30 * 24 * 3600

  predicate HoldsPurgeLease(s: State, now: Time, job: Id, worker: WorkerId) {
    job in s.leases && s.leases[job].owner == worker && now < s.leases[job].expiresAt
  }

  /** The execution has not ended, and its context has not timed out. */
  predicate MayPut(s: State, execution: Execution, now: Time) {
    execution in s.running && now < execution.since + s.limits.deadline
  }

  /** `count(*) ... deleted_at IS NULL` is zero. */
  ghost predicate NonePending(s: State, job: Id, asset: Id) {
    forall mk :: mk in s.manifest && mk.job == job && s.manifest[mk].asset == asset ==> s.manifest[mk].deleted
  }

  /**
   Tombstones under purge are not revived, and a purge begins when the retention of the
   tombstone is over. A raw object is written under a credential, which is given out for an
   open session of an active asset and ends with the session at the latest; an output by an
   execution that has claimed its version, until its deadline. A guard that fails in the code
   rolls back.
   */
  ghost predicate Allowed(s: State, now: Time, step: PurgeStep) {
    s.clock <= now &&
    match step
    case Media(m) =>
      && Enabled(s.world, m, now) && !m.PurgeAsset?
      && (m.TouchAsset? && m.asset in s.purging ==> m.deleted)
      && (m.NewAsset? ==> m.asset !in s.purging)
    case IssueCredential(upload, until) =>
      && upload in s.world.db.sessions && s.world.db.sessions[upload].state.SessionCreated?
      && AssetActive(s.world.db, s.world.db.sessions[upload].asset)
      && now < until <= s.world.db.sessions[upload].expiresAt && until <= now + s.limits.credentialTtl
    case PutRaw(key) => key in s.credentials && now < s.credentials[key]
    case PutOutput(execution, key) => MayPut(s, execution, now) && OutputOf(key, execution.asset, execution.version)
    case FinishExecution(_) => true
    case RemoveObject(_) => true
    case BeginPurge(asset) =>
      && asset in s.world.db.assets && s.world.db.assets[asset].deleted
      && asset in s.tombstonedAt && s.tombstonedAt[asset] + RETENTION <= now
    case ClaimPurge(job, _, _) => job in s.leases ==> s.leases[job].expiresAt < now
    case NextAsset(worker, job, asset) =>
      HoldsPurgeLease(s, now, job, worker) && asset in s.purging && asset in s.world.db.assets
    case DeleteObject(worker, key) =>
      worker in s.workers && s.workers[worker].Deleting? && key in s.workers[worker].pending
    case MarkDeleted(worker) =>
      && worker in s.workers && s.workers[worker].Deleting? && s.workers[worker].pending == {}
      && (s.workers[worker].done != {} ==> HoldsPurgeLease(s, now, s.workers[worker].job, worker))
    case FinalizeAsset(worker, org, _) =>
      && worker in s.workers && s.workers[worker].Marked?
      && HoldsPurgeLease(s, now, s.workers[worker].job, worker)
      && NonePending(s, s.workers[worker].job, s.workers[worker].asset)
      && Enabled(s.world, PurgeAsset(org, s.workers[worker].asset, step.unit), now)
    case Crash(worker) => worker in s.workers
  }

  /** `ON CONFLICT (lifecycle_job_id, object_key) DO NOTHING` for every recorded key. */
  function WithManifest(s: State, job: Id, asset: Id): map<ManifestKey, Entry> {
    var missing := map key | key in RecordedKeys(s.world.db, asset) :: ManifestKey(job, key) := Entry(asset, false, |s.log|);
    missing + s.manifest
  }

  function PendingKeys(manifest: map<ManifestKey, Entry>, job: Id, asset: Id): set<ObjectKey> {
    set mk | mk in manifest && mk.job == job && manifest[mk].asset == asset && !manifest[mk].deleted :: mk.key
  }

  function MarkedManifest(manifest: map<ManifestKey, Entry>, job: Id, asset: Id, keys: set<ObjectKey>): map<ManifestKey, Entry> {
    map mk | mk in manifest ::
      if mk.job == job && manifest[mk].asset == asset && mk.key in keys then manifest[mk].(deleted := true)
      else manifest[mk]
  }

  /** A claim that hands out the job starts an execution. */
  ghost function Started(db: Db, policy: Policy, now: Time, m: Step): set<Execution> {
    if m.Claim? && m.job in db.jobs && ClaimJob(db, policy, now, m.job, m.owner).Commit?
       && ClaimJob(db, policy, now, m.job, m.owner).value.Claimed?
    then {Execution(m.owner, db.jobs[m.job].asset, db.jobs[m.job].version, now)} else {}
  }

  ghost function Tombstones(s: State, now: Time, m: Step): map<Id, Time> {
    if m.TouchAsset? && m.deleted && AssetActive(s.world.db, m.asset) then s.tombstonedAt[m.asset := now] else s.tombstonedAt
  }

  function Later(credentials: map<ObjectKey, Time>, key: ObjectKey, until: Time): Time {
    if key in credentials && until <= credentials[key] then credentials[key] else until
  }

  /** The state after a step; one that is not allowed changes nothing. */
  ghost function After(s: State, policy: Policy, now: Time, step: PurgeStep): State {
    if !Allowed(s, now, step) then s else
    var s := s.(clock := now);
    match step
    case Media(m) =>
      s.(world := Next(s.world, policy, now, m), running := s.running + Started(s.world.db, policy, now, m),
         tombstonedAt := Tombstones(s, now, m))
    case IssueCredential(upload, until) =>
      var key := s.world.db.sessions[upload].rawKey;
      s.(credentials := s.credentials[key := Later(s.credentials, key, until)])
    case PutRaw(key) => s.(log := s.log + [Put(key)])
    case PutOutput(_, key) => s.(log := s.log + [Put(key)])
    case FinishExecution(execution) => s.(running := s.running - {execution})
    case RemoveObject(key) => s.(log := s.log + [Removed(key)])
    case BeginPurge(asset) => s.(purging := s.purging + {asset})
    case ClaimPurge(job, worker, ttl) => s.(leases := s.leases[job := Lease(worker, now + ttl)])
    case NextAsset(worker, job, asset) =>
      var manifest := WithManifest(s, job, asset);
      s.(manifest := manifest,
         workers := s.workers[worker := Deleting(job, asset, PendingKeys(manifest, job, asset), {})])
    case DeleteObject(worker, key) =>
      var phase := s.workers[worker];
      s.(log := s.log + [Removed(key)],
         workers := s.workers[worker := phase.(pending := phase.pending - {key}, done := phase.done + {key})])
    case MarkDeleted(worker) =>
      var phase := s.workers[worker];
      s.(manifest := MarkedManifest(s.manifest, phase.job, phase.asset, phase.done),
         workers := s.workers[worker := Marked(phase.job, phase.asset)])
    case FinalizeAsset(worker, org, unit) =>
      s.(world := Next(s.world, policy, now, PurgeAsset(org, s.workers[worker].asset, unit)),
         workers := s.workers[worker := Idle])
    case Crash(worker) => s.(workers := s.workers[worker := Idle])
  }

  // ---- what the log says ----

  /** Some removal of the key happened at or after position `from`. */
  predicate RemovedSince(log: seq<ObjectEvent>, key: ObjectKey, from: nat) {
    exists n :: from <= n < |log| && log[n] == Removed(key)
  }

  predicate NoPutSince(log: seq<ObjectEvent>, key: ObjectKey, from: nat) {
    forall n :: from <= n < |log| ==> log[n] != Put(key)
  }

  /** The object is there: it was written, and not removed since. */
  predicate InStorage(log: seq<ObjectEvent>, key: ObjectKey) {
    exists p :: 0 <= p < |log| && log[p] == Put(key) && forall n :: p < n < |log| ==> log[n] != Removed(key)
  }

  /** After a removal the object is there exactly if it was written again later, and not removed since. */
  lemma StoredOnlyByLaterPut(log: seq<ObjectEvent>, key: ObjectKey, n: nat)
    requires n < |log| && log[n] == Removed(key)
    ensures InStorage(log, key) <==> exists p :: n < p < |log| && log[p] == Put(key) && forall m :: p < m < |log| ==> log[m] != Removed(key)
  {
    if InStorage(log, key) {
      var p :| 0 <= p < |log| && log[p] == Put(key) && forall m :: p < m < |log| ==> log[m] != Removed(key);
      assert n < p;
    }
  }

  lemma RemovedForGood(log: seq<ObjectEvent>, key: ObjectKey, from: nat)
    requires RemovedSince(log, key, from) && NoPutSince(log, key, from)
    ensures !InStorage(log, key)
  {
    var n :| from <= n < |log| && log[n] == Removed(key);
    StoredOnlyByLaterPut(log, key, n);
  }

  lemma LogGrows(log: seq<ObjectEvent>, e: ObjectEvent, key: ObjectKey, from: nat)
    ensures RemovedSince(log, key, from) ==> RemovedSince(log + [e], key, from)
    ensures e != Put(key) && NoPutSince(log, key, from) ==> NoPutSince(log + [e], key, from)
    ensures e == Removed(key) && from <= |log| ==> RemovedSince(log + [e], key, from)
  {
    if RemovedSince(log, key, from) {
      var n :| from <= n < |log| && log[n] == Removed(key);
      assert (log + [e])[n] == Removed(key);
    }
    assert (log + [e])[|log|] == e;
  }

  // ------------------------------------------------------------------
  // The invariant
  // ------------------------------------------------------------------

  /** Whoever may write the key is bound to stop within the retention: credentials of a raw key, executions for an output. */
  predicate WritersBounded(limits: Limits, key: ObjectKey) {
    if key.RawKey? then limits.credentialTtl <= RETENTION else limits.deadline <= RETENTION
  }

  /**
   An entry belongs to the asset its key names, which is under purge; marked deleted, its
   object was removed after the entry was written; and if its writers do not outlive the
   retention, it was not written since.
   */
  ghost predicate EntrySound(s: State, mk: ManifestKey) {
    mk in s.manifest ==>
      && s.manifest[mk].asset == mk.key.asset && s.manifest[mk].asset in s.purging && s.manifest[mk].since <= |s.log|
      && (s.manifest[mk].deleted ==> RemovedSince(s.log, mk.key, s.manifest[mk].since))
      && (WritersBounded(s.limits, mk.key) ==> NoPutSince(s.log, mk.key, s.manifest[mk].since))
  }

  /** Every key recorded for the asset is in the job's manifest. */
  ghost predicate Covered(s: State, job: Id, asset: Id) {
    forall key {:trigger Records(s.world.db, asset, key)} ::
      Records(s.world.db, asset, key) ==> ManifestKey(job, key) in s.manifest
  }

  ghost predicate WorkerSound(s: State, worker: WorkerId) {
    worker in s.workers ==>
      match s.workers[worker]
      case Idle => true
      case Deleting(job, asset, pending, done) =>
        && asset in s.purging && Covered(s, job, asset)
        && (forall key :: key in pending || key in done ==> ManifestKey(job, key) in s.manifest)
        && (forall key :: key in done ==> RemovedSince(s.log, key, s.manifest[ManifestKey(job, key)].since))
      case Marked(job, asset) => asset in s.purging && Covered(s, job, asset)
  }

  /** An asset under purge is a tombstone whose retention is over. */
  ghost predicate PurgingHidden(s: State, a: Id) {
    a in s.purging ==> !AssetActive(s.world.db, a) && a in s.tombstonedAt && s.tombstonedAt[a] + RETENTION <= s.clock
  }

  /** Only raw keys have credentials, and none outlives its time-to-live, counted from the asset's tombstone if there is one. */
  ghost predicate CredentialSound(s: State, key: ObjectKey) {
    key in s.credentials ==>
      key.RawKey? &&
      if AssetActive(s.world.db, key.asset) then s.credentials[key] <= s.clock + s.limits.credentialTtl
      else key.asset in s.tombstonedAt && s.credentials[key] <= s.tombstonedAt[key.asset] + s.limits.credentialTtl
  }

  /** A job is handed out for active assets only, so an execution is no younger than its asset's tombstone. */
  ghost predicate ExecutionSound(s: State, e: Execution) {
    e in s.running ==>
      if AssetActive(s.world.db, e.asset) then e.since <= s.clock
      else e.asset in s.tombstonedAt && e.since <= s.tombstonedAt[e.asset]
  }

  ghost predicate TombstoneTimed(s: State, a: Id) {
    a in s.tombstonedAt ==> s.tombstonedAt[a] <= s.clock
  }

  /** The part that speaks of credentials, executions and tombstones. */
  ghost predicate Timed(s: State) {
    && (forall key {:trigger CredentialSound(s, key)} :: CredentialSound(s, key))
    && (forall e {:trigger ExecutionSound(s, e)} :: ExecutionSound(s, e))
    && (forall a {:trigger TombstoneTimed(s, a)} :: TombstoneTimed(s, a))
  }

  ghost predicate PurgeInv(s: State, policy: Policy) {
    && WorldInv(s.world, policy)
    && KeysOwned(s.world.db)
    && Timed(s)
    && (forall mk {:trigger EntrySound(s, mk)} :: EntrySound(s, mk))
    && (forall w {:trigger WorkerSound(s, w)} :: WorkerSound(s, w))
    && (forall a {:trigger PurgingHidden(s, a)} :: PurgingHidden(s, a))
  }

  function Begin(log: seq<ObjectEvent>, limits: Limits): State {
    State(START, 0, limits, log, map[], {}, map[], map[], map[], map[], {})
  }

  /** Nothing recorded, nothing under purge: any storage content is a sound start. */
  lemma PurgeStart(log: seq<ObjectEvent>, limits: Limits, policy: Policy)
    ensures PurgeInv(Begin(log, limits), policy)
  {
    var s := Begin(log, limits);
    StartInv(policy);
    forall w ensures WorkerSound(s, w) {}
  }

  // ---- tombstones in the media tables ----

  /** Assets under purge stay hidden in every media step that is allowed beside a purge. */
  lemma HiddenStaysHidden(s: State, policy: Policy, now: Time, m: Step, a: Id)
    requires WorldInv(s.world, policy) && a in s.purging && PurgingHidden(s, a)
    requires m.TouchAsset? && m.asset in s.purging ==> m.deleted
    requires m.NewAsset? ==> m.asset !in s.purging
    ensures !AssetActive(NextDb(s.world.db, policy, now, m), a)
  {
    AssetRowsKept(s.world.db, policy, now, m, a);
  }

  /** The asset's row was there before, with the tombstone it has now; an active asset stays. */
  predicate TombstoneKept(db: Db, after: Db, a: Id) {
    && (a in after.assets ==> a in db.assets && after.assets[a].deleted == db.assets[a].deleted)
    && (a in db.assets && !db.assets[a].deleted ==> a in after.assets)
  }

  lemma CreateKeepsTombstones(db: Db, request: UploadRequest, options: SessionOptions, clock: Time, a: Id)
    ensures TombstoneKept(db, DbAfter(db, CreateUploadSession(db, request, options, clock)), a)
  {
    CreateShape(db, request, options, clock);
  }

  lemma CommitKeepsTombstones(db: Db, scope: Scope, attributes: Attributes, ids: CommitIds, clock: Time, a: Id)
    ensures TombstoneKept(db, DbAfter(db, CommitUpload(db, scope, attributes, ids, clock)), a)
  {
  }

  lemma TeardownKeepsTombstones(db: Db, org: Id, asset: Id, unit: Id, a: Id)
    ensures TombstoneKept(db, DbAfter(db, FinalizePurgeAsset(db, org, asset, unit)), a)
  {
  }

  lemma UploadsKeepTombstones(db: Db, policy: Policy, now: Time, m: Step, a: Id)
    requires m.CloseSession? || m.SweepExpired? || m.SweepPurged?
    ensures TombstoneKept(db, NextDb(db, policy, now, m), a)
  {
  }

  lemma ClaimKeepsTombstones(db: Db, policy: Policy, now: Time, j: Id, owner: string, a: Id)
    ensures TombstoneKept(db, DbAfter(db, ClaimJob(db, policy, now, j, owner)), a)
  {
    ClaimFrame(db, policy, now, j, owner);
  }

  lemma SettleKeepsTombstones(db: Db, policy: Policy, now: Time, j: Id, copy: Job, held: Lease, event: Id, a: Id)
    ensures TombstoneKept(db, DbAfter(db, SettleExecutionFailure(db, policy, now, j, copy, held, event)), a)
  {
    SettleFrame(db, policy, now, j, copy, held, event);
  }

  lemma TerminalKeepsTombstones(db: Db, policy: Policy, now: Time, m: Step, a: Id)
    requires m.Promote? || m.Reject?
    ensures TombstoneKept(db, NextDb(db, policy, now, m), a)
  {
  }

  lemma OthersKeepTombstones(db: Db, policy: Policy, now: Time, m: Step, a: Id)
    requires m.Renew? || m.Isolate? || m.Replay? || m.ReconcilePass? || m.RelayClaim? || m.RelayPublished? || m.RelayReschedule?
      || m.ListExpired? || m.ListPurgeable?
    ensures TombstoneKept(db, NextDb(db, policy, now, m), a)
  {
    if m.ReconcilePass? { RedispatchKeepsRows(db, now, m.picks); }
  }

  /** Only the asset steps move an asset's tombstone; the others at most change its pointers. */
  lemma AssetRowsKept(db: Db, policy: Policy, now: Time, m: Step, a: Id)
    ensures
      var after := NextDb(db, policy, now, m);
      || TombstoneKept(db, after, a)
      || (m.NewAsset? && m.asset == a)
      || (m.TouchAsset? && m.asset == a && a in after.assets && after.assets[a].deleted == m.deleted)
  {
    if m.CreateSession? {
      CreateKeepsTombstones(db, m.request, m.options, m.clock, a);
    } else if m.CommitSession? {
      CommitKeepsTombstones(db, m.scope, m.attributes, m.ids, m.clock, a);
    } else if m.CloseSession? || m.SweepExpired? || m.SweepPurged? {
      UploadsKeepTombstones(db, policy, now, m, a);
    } else if m.PurgeAsset? {
      TeardownKeepsTombstones(db, m.org, m.asset, m.unit, a);
    } else if m.Claim? {
      ClaimKeepsTombstones(db, policy, now, m.job, m.owner, a);
    } else if m.Settle? {
      SettleKeepsTombstones(db, policy, now, m.job, m.copy, m.held, m.event, a);
    } else if m.Promote? || m.Reject? {
      TerminalKeepsTombstones(db, policy, now, m, a);
    } else if !m.NewAsset? && !m.TouchAsset? {
      OthersKeepTombstones(db, policy, now, m, a);
    }
  }

  // ---- every step keeps the invariant ----

  lemma CoverageKept(s: State, policy: Policy, now: Time, m: Step, job: Id, asset: Id)
    requires WorldInv(s.world, policy) && Enabled(s.world, m, now)
    requires asset in s.purging && PurgingHidden(s, asset) && Covered(s, job, asset)
    ensures Covered(s.(world := Next(s.world, policy, now, m)), job, asset)
  {
    var next := s.(world := Next(s.world, policy, now, m));
    forall key | Records(next.world.db, asset, key) ensures ManifestKey(job, key) in next.manifest {
      TombstonedGainsNoKey(s.world.db, policy, now, m, asset, key);
    }
  }

  /** What a media transaction, or the teardown, does to the purge's own state: nothing but the clock and the history. */
  predicate BesideMedia(s: State, next: State, now: Time) {
    && s.clock <= now == next.clock && next.limits == s.limits && next.log == s.log && next.credentials == s.credentials
    && next.manifest == s.manifest && next.leases == s.leases && next.workers == s.workers && next.purging == s.purging
  }

  lemma MediaCredentials(s: State, policy: Policy, now: Time, m: Step, next: State)
    requires PurgeInv(s, policy) && Enabled(s.world, m, now) && BesideMedia(s, next, now)
    requires next.world == Next(s.world, policy, now, m) && next.tombstonedAt == Tombstones(s, now, m)
    ensures forall key {:trigger CredentialSound(next, key)} :: CredentialSound(next, key)
  {
    forall key ensures CredentialSound(next, key) {
      assert CredentialSound(s, key) && TombstoneTimed(s, key.asset);
      AssetRowsKept(s.world.db, policy, now, m, key.asset);
    }
  }

  /** What a claim starts: an execution for an asset that is active then. */
  lemma StartedActive(db: Db, policy: Policy, now: Time, m: Step, e: Execution)
    requires e in Started(db, policy, now, m)
    ensures AssetActive(db, e.asset) && e.since == now
  {
  }

  lemma MediaExecutions(s: State, policy: Policy, now: Time, m: Step, next: State)
    requires PurgeInv(s, policy) && Enabled(s.world, m, now) && BesideMedia(s, next, now)
    requires next.running <= s.running + Started(s.world.db, policy, now, m)
    requires next.world == Next(s.world, policy, now, m) && next.tombstonedAt == Tombstones(s, now, m)
    ensures forall e {:trigger ExecutionSound(next, e)} :: ExecutionSound(next, e)
  {
    forall e ensures ExecutionSound(next, e) {
      assert ExecutionSound(s, e) && TombstoneTimed(s, e.asset);
      AssetRowsKept(s.world.db, policy, now, m, e.asset);
      if e in next.running && e !in s.running { StartedActive(s.world.db, policy, now, m, e); }
    }
  }

  lemma MediaTimes(s: State, policy: Policy, now: Time, m: Step, next: State)
    requires PurgeInv(s, policy) && Enabled(s.world, m, now) && BesideMedia(s, next, now)
    requires next.world == Next(s.world, policy, now, m) && next.tombstonedAt == Tombstones(s, now, m)
    requires next.running <= s.running + Started(s.world.db, policy, now, m)
    ensures Timed(next)
  {
    forall a ensures TombstoneTimed(next, a) { assert TombstoneTimed(s, a); }
    MediaExecutions(s, policy, now, m, next);
    MediaCredentials(s, policy, now, m, next);
  }

  lemma MediaStepKeeps(s: State, policy: Policy, now: Time, m: Step, next: State)
    requires PurgeInv(s, policy) && Enabled(s.world, m, now) && BesideMedia(s, next, now)
    requires m.TouchAsset? && m.asset in s.purging ==> m.deleted
    requires m.NewAsset? ==> m.asset !in s.purging
    requires next.world == Next(s.world, policy, now, m) && next.tombstonedAt == Tombstones(s, now, m)
    requires next.running <= s.running + Started(s.world.db, policy, now, m)
    ensures PurgeInv(next, policy)
  {
    StepPreserves(s.world, policy, now, m);
    KeysOwnedStep(s.world, policy, now, m);
    MediaTimes(s, policy, now, m, next);
    forall mk ensures EntrySound(next, mk) { assert EntrySound(s, mk); }
    MediaWorkers(s, policy, now, m, next);
    forall a ensures PurgingHidden(next, a) {
      assert PurgingHidden(s, a);
      if a in s.purging { HiddenStaysHidden(s, policy, now, m, a); }
    }
  }

  lemma MediaWorkers(s: State, policy: Policy, now: Time, m: Step, next: State)
    requires PurgeInv(s, policy) && Enabled(s.world, m, now) && BesideMedia(s, next, now)
    requires next.world == Next(s.world, policy, now, m)
    ensures forall w {:trigger WorkerSound(next, w)} :: WorkerSound(next, w)
  {
    forall w ensures WorkerSound(next, w) {
      assert WorkerSound(s, w);
      if w in s.workers && !s.workers[w].Idle? {
        assert PurgingHidden(s, s.workers[w].asset);
        CoverageKept(s, policy, now, m, s.workers[w].job, s.workers[w].asset);
      }
    }
  }

  /** The media tables stand still. */
  predicate SameMedia(s: State, next: State) {
    next.world == s.world && next.tombstonedAt == s.tombstonedAt && next.running <= s.running && next.limits == s.limits && s.clock <= next.clock
  }

  lemma TimesKept(s: State, next: State)
    requires Timed(s) && SameMedia(s, next) && next.credentials == s.credentials
    ensures Timed(next)
  {
    forall key ensures CredentialSound(next, key) { assert CredentialSound(s, key); }
    forall e ensures ExecutionSound(next, e) { assert ExecutionSound(s, e); }
    forall a ensures TombstoneTimed(next, a) { assert TombstoneTimed(s, a); }
  }

  /** A credential is issued for an active asset only, within its session's deadline. */
  lemma IssueKeeps(s: State, policy: Policy, now: Time, upload: Id, until: Time)
    requires PurgeInv(s, policy) && Allowed(s, now, IssueCredential(upload, until))
    ensures PurgeInv(After(s, policy, now, IssueCredential(upload, until)), policy)
  {
    var next := After(s, policy, now, IssueCredential(upload, until));
    assert SessionOwnsKey(s.world.db, upload);
    forall key ensures CredentialSound(next, key) { assert CredentialSound(s, key); }
    forall e ensures ExecutionSound(next, e) { assert ExecutionSound(s, e); }
    forall a ensures TombstoneTimed(next, a) { assert TombstoneTimed(s, a); }
    forall mk ensures EntrySound(next, mk) { assert EntrySound(s, mk); }
    forall w ensures WorkerSound(next, w) { assert WorkerSound(s, w); }
    forall a ensures PurgingHidden(next, a) { assert PurgingHidden(s, a); }
  }

  /** No credential for an asset under purge is left when credentials do not outlive the retention. */
  lemma CredentialsOver(s: State, policy: Policy, now: Time, key: ObjectKey)
    requires PurgeInv(s, policy) && s.limits.credentialTtl <= RETENTION && key.asset in s.purging && s.clock <= now
    ensures !(key in s.credentials && now < s.credentials[key])
  {
    assert PurgingHidden(s, key.asset) && CredentialSound(s, key);
  }

  /** No execution for an asset under purge may write any more when executions do not outlive the retention. */
  lemma ExecutionsOver(s: State, policy: Policy, now: Time, e: Execution)
    requires PurgeInv(s, policy) && s.limits.deadline <= RETENTION && e.asset in s.purging && s.clock <= now
    ensures !MayPut(s, e, now)
  {
    assert PurgingHidden(s, e.asset) && ExecutionSound(s, e);
  }

  /** One more storage event, which for a bounded key of an asset under purge is no write. */
  lemma LogKeeps(s: State, policy: Policy, next: State, e: ObjectEvent)
    requires PurgeInv(s, policy) && SameMedia(s, next) && next.credentials == s.credentials && next.log == s.log + [e]
    requires next.manifest == s.manifest && next.workers == s.workers && next.purging == s.purging
    requires e.Put? && e.key.asset in s.purging ==> !WritersBounded(s.limits, e.key)
    ensures PurgeInv(next, policy)
  {
    TimesKept(s, next);
    forall mk ensures EntrySound(next, mk) {
      assert EntrySound(s, mk);
      if mk in s.manifest { LogGrows(s.log, e, mk.key, s.manifest[mk].since); }
    }
    forall w ensures WorkerSound(next, w) {
      assert WorkerSound(s, w);
      if w in s.workers && s.workers[w].Deleting? { DoneStays(s, w, e); }
    }
    forall a ensures PurgingHidden(next, a) { assert PurgingHidden(s, a); }
  }

  lemma DoneStays(s: State, w: WorkerId, e: ObjectEvent)
    requires w in s.workers && s.workers[w].Deleting? && WorkerSound(s, w)
    ensures forall key :: key in s.workers[w].done ==>
      RemovedSince(s.log + [e], key, s.manifest[ManifestKey(s.workers[w].job, key)].since)
  {
    forall key | key in s.workers[w].done
      ensures RemovedSince(s.log + [e], key, s.manifest[ManifestKey(s.workers[w].job, key)].since)
    {
      LogGrows(s.log, e, key, s.manifest[ManifestKey(s.workers[w].job, key)].since);
    }
  }

  lemma StorageKeeps(s: State, policy: Policy, now: Time, step: PurgeStep)
    requires PurgeInv(s, policy) && Allowed(s, now, step) && (step.PutRaw? || step.PutOutput? || step.RemoveObject?)
    ensures PurgeInv(After(s, policy, now, step), policy)
  {
    var next := After(s, policy, now, step);
    if step.PutRaw? {
      assert CredentialSound(s, step.key);
      if step.key.asset in s.purging && s.limits.credentialTtl <= RETENTION { CredentialsOver(s, policy, now, step.key); }
      LogKeeps(s, policy, next, Put(step.key));
    } else if step.PutOutput? {
      if step.key.asset in s.purging && s.limits.deadline <= RETENTION { ExecutionsOver(s, policy, now, step.execution); }
      LogKeeps(s, policy, next, Put(step.key));
    } else {
      LogKeeps(s, policy, next, Removed(step.key));
    }
  }

  lemma DeleteKeeps(s: State, policy: Policy, now: Time, worker: WorkerId, key: ObjectKey)
    requires PurgeInv(s, policy) && Allowed(s, now, DeleteObject(worker, key))
    ensures PurgeInv(After(s, policy, now, DeleteObject(worker, key)), policy)
  {
    var next := After(s, policy, now, DeleteObject(worker, key));
    var mid := next.(workers := s.workers);
    LogKeeps(s, policy, mid, Removed(key));
    assert WorkerSound(mid, worker) && EntrySound(s, ManifestKey(s.workers[worker].job, key));
    LogGrows(s.log, Removed(key), key, s.manifest[ManifestKey(s.workers[worker].job, key)].since);
    forall mk ensures EntrySound(next, mk) { assert EntrySound(mid, mk); }
    forall w ensures WorkerSound(next, w) { assert WorkerSound(mid, w); }
    TimesKept(mid, next);
    forall a ensures PurgingHidden(next, a) { assert PurgingHidden(mid, a); }
  }

  lemma MarkKeeps(s: State, policy: Policy, now: Time, worker: WorkerId)
    requires PurgeInv(s, policy) && Allowed(s, now, MarkDeleted(worker))
    ensures PurgeInv(After(s, policy, now, MarkDeleted(worker)), policy)
  {
    var next := After(s, policy, now, MarkDeleted(worker));
    assert WorkerSound(s, worker);
    forall mk ensures EntrySound(next, mk) { assert EntrySound(s, mk); }
    forall w ensures WorkerSound(next, w) { assert WorkerSound(s, w); }
    TimesKept(s, next);
    forall a ensures PurgingHidden(next, a) { assert PurgingHidden(s, a); }
  }

  /** A worker that forgets what it was doing, whether it crashed or is done. */
  lemma IdleKeeps(s: State, policy: Policy, now: Time, worker: WorkerId)
    requires PurgeInv(s, policy) && s.clock <= now
    ensures PurgeInv(s.(clock := now, workers := s.workers[worker := Idle]), policy)
  {
    var next := s.(clock := now, workers := s.workers[worker := Idle]);
    TimesKept(s, next);
    forall mk ensures EntrySound(next, mk) { assert EntrySound(s, mk); }
    forall w ensures WorkerSound(next, w) { assert WorkerSound(s, w); }
    forall a ensures PurgingHidden(next, a) { assert PurgingHidden(s, a); }
  }

  lemma BeginKeeps(s: State, policy: Policy, now: Time, step: PurgeStep)
    requires PurgeInv(s, policy) && Allowed(s, now, step) && (step.BeginPurge? || step.ClaimPurge? || step.FinishExecution?)
    ensures PurgeInv(After(s, policy, now, step), policy)
  {
    var next := After(s, policy, now, step);
    TimesKept(s, next);
    forall mk ensures EntrySound(next, mk) { assert EntrySound(s, mk); }
    forall w ensures WorkerSound(next, w) { assert WorkerSound(s, w); }
    forall a ensures PurgingHidden(next, a) { assert PurgingHidden(s, a); }
  }

  /** The manifest is written from the rows as they are: it covers the asset, and its new entries are its own. */
  lemma ManifestWritten(s: State, policy: Policy, job: Id, asset: Id, next: State)
    requires PurgeInv(s, policy) && asset in s.purging && next.manifest == WithManifest(s, job, asset)
    requires next.world == s.world && next.log == s.log && next.purging == s.purging && next.limits == s.limits
    ensures forall mk {:trigger EntrySound(next, mk)} :: EntrySound(next, mk)
    ensures Covered(next, job, asset)
  {
    forall mk ensures EntrySound(next, mk) {
      assert EntrySound(s, mk);
      if mk in next.manifest && mk !in s.manifest {
        RecordedKeysAreRecords(s.world.db, asset, mk.key);
        OwnedKeyNamesAsset(s.world.db, asset, mk.key);
      }
    }
    forall key | Records(next.world.db, asset, key) ensures ManifestKey(job, key) in next.manifest {
      RecordedKeysAreRecords(s.world.db, asset, key);
    }
  }

  lemma NextAssetKeeps(s: State, policy: Policy, now: Time, worker: WorkerId, job: Id, asset: Id)
    requires PurgeInv(s, policy) && Allowed(s, now, NextAsset(worker, job, asset))
    ensures PurgeInv(After(s, policy, now, NextAsset(worker, job, asset)), policy)
  {
    var next := After(s, policy, now, NextAsset(worker, job, asset));
    ManifestWritten(s, policy, job, asset, next);
    TimesKept(s, next);
    forall w ensures WorkerSound(next, w) { assert WorkerSound(s, w); }
    forall a ensures PurgingHidden(next, a) { assert PurgingHidden(s, a); }
  }

  lemma FinalizeKeeps(s: State, policy: Policy, now: Time, step: PurgeStep)
    requires PurgeInv(s, policy) && Allowed(s, now, step) && step.FinalizeAsset?
    ensures PurgeInv(After(s, policy, now, step), policy)
  {
    var m := PurgeAsset(step.org, s.workers[step.worker].asset, step.unit);
    var torn := s.(clock := now, world := Next(s.world, policy, now, m));
    MediaStepKeeps(s, policy, now, m, torn);
    IdleKeeps(torn, policy, now, step.worker);
    assert After(s, policy, now, step) == torn.(clock := now, workers := torn.workers[step.worker := Idle]);
  }

  lemma WorkerStepKeeps(s: State, policy: Policy, now: Time, step: PurgeStep)
    requires PurgeInv(s, policy) && Allowed(s, now, step)
    requires step.NextAsset? || step.DeleteObject? || step.MarkDeleted? || step.FinalizeAsset? || step.Crash?
    ensures PurgeInv(After(s, policy, now, step), policy)
  {
    match step
    case NextAsset(worker, job, asset) => NextAssetKeeps(s, policy, now, worker, job, asset);
    case DeleteObject(worker, key) => DeleteKeeps(s, policy, now, worker, key);
    case MarkDeleted(worker) => MarkKeeps(s, policy, now, worker);
    case FinalizeAsset(_, _, _) => FinalizeKeeps(s, policy, now, step);
    case Crash(worker) => IdleKeeps(s, policy, now, worker);
  }

  /** No step of the purge, of the media subsystem or of a late writer breaks the invariant. */
  lemma PurgeStepKeeps(s: State, policy: Policy, now: Time, step: PurgeStep)
    requires PurgeInv(s, policy) && Allowed(s, now, step)
    ensures PurgeInv(After(s, policy, now, step), policy)
  {
    if step.Media? {
      MediaStepKeeps(s, policy, now, step.step, After(s, policy, now, step));
    } else if step.IssueCredential? {
      IssueKeeps(s, policy, now, step.upload, step.until);
    } else if step.PutRaw? || step.PutOutput? || step.RemoveObject? {
      StorageKeeps(s, policy, now, step);
    } else if step.BeginPurge? || step.ClaimPurge? || step.FinishExecution? {
      BeginKeeps(s, policy, now, step);
    } else {
      WorkerStepKeeps(s, policy, now, step);
    }
  }
}
