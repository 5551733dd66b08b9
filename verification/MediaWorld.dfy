/**
 Interleaved runs of the media subsystem: any number of workers, each step one
 transaction, each transaction under one strictly later database timestamp. A
 crashed worker is one that takes no further step. What a sweep worker read
 before its transaction is kept in the world, so it may be arbitrarily stale.
 */
module MediaWorld {
  import opened Wrappers
  import opened MediaTables
  import opened MediaSteps
  import opened MediaInvariant
  import opened MediaUploads
  import opened MediaLedger

  datatype World = World(
    db: Db, now: Time,
    spentUploads: set<Id>, spentVersions: set<Id>, spentJobs: set<Id>,
    candidates: set<ExpiryCandidate>, claims: set<PurgeClaim>)

  datatype Step =
    | CreateSession(request: UploadRequest, options: SessionOptions, clock: Time)
    | CloseSession(scope: Scope, expiring: bool, clock: Time)
    | CommitSession(scope: Scope, attributes: Attributes, ids: CommitIds, clock: Time)
    | Claim(job: Id, owner: string)
    | Renew(job: Id, held: Lease)
    | Settle(job: Id, copy: Job, held: Lease, event: Id)
    | Promote(completion: Completion, held: Lease)
    | Reject(failure: Failure, held: Lease)
    | Isolate(job: Id)
    | Replay(job: Id, operatorKnown: bool, event: Id)
    | ReconcilePass(staleAfter: nat, picks: seq<Pick>)
    | RelayClaim(ttl: nat, owner: string, chosen: set<Id>)
    | RelayPublished(event: Id, held: Lease, at: Time)
    | RelayReschedule(event: Id, held: Lease, dueAt: Time, attempts: nat)
    | ListExpired(expired: set<ExpiryCandidate>)
    | SweepExpired(candidate: ExpiryCandidate)
    | ListPurgeable(quarantine: nat, purgeable: set<PurgeClaim>)
    | SweepPurged(claim: PurgeClaim)
    | PurgeAsset(org: Id, asset: Id, unit: Id)
    | NewAsset(asset: Id, org: Id)
    | TouchAsset(asset: Id, deleted: bool, folderDeleted: bool, member: Option<Id>)

  /** `ProcessedObjectKey`: the key an execution derives for an output of its version. */
  predicate OutputOf(key: ObjectKey, asset: Id, version: Id) {
    key.ProcessedKey? && key.asset == asset && key.version == version
  }

  /** What the callers of a transaction supply: new uuids, copies of rows they read, the asset's own organization. */
  ghost predicate Enabled(w: World, step: Step, now: Time) {
    match step
    case CreateSession(request, options, _) =>
      && options.upload !in w.spentUploads
      && options.rawKey == RawKey(request.org, request.asset, options.upload, request.contentType)
    case CommitSession(_, _, ids, _) => ids.version !in w.spentVersions && ids.job !in w.spentJobs
    case Promote(c, _) =>
      && (c.job in w.db.jobs ==> Describes(w.db, c))
      && (forall i :: 0 <= i < |c.outputs| ==> OutputOf(c.outputs[i].key, c.asset, c.version))
    case Reject(f, _) =>
      f.job in w.db.jobs ==>
        var job := w.db.jobs[f.job];
        f.version == job.version && f.org == job.org && f.asset == job.asset
    case ListExpired(found) => forall c :: c in found ==> ExpiryListed(w.db, now, c)
    case SweepExpired(c) => c in w.candidates
    case ListPurgeable(quarantine, found) => forall c :: c in found ==> PurgeListed(w.db, now, quarantine, c)
    case SweepPurged(c) => c in w.claims
    case PurgeAsset(org, asset, _) => asset in w.db.assets ==> w.db.assets[asset].org == org
    case NewAsset(asset, _) => asset !in w.db.assets
    case _ => true
  }

  function TouchedAssets(db: Db, a: Id, deleted: bool, folderDeleted: bool, unit: Option<Id>): map<Id, Asset> {
    if a in db.assets
    then db.assets[a := db.assets[a].(deleted := deleted, folderDeleted := folderDeleted, unit := unit)]
    else db.assets
  }

  /** The database after one step. */
  ghost function NextDb(db: Db, policy: Policy, now: Time, step: Step): Db {
    match step
    case CreateSession(request, options, clock) => DbAfter(db, CreateUploadSession(db, request, options, clock))
    case CloseSession(scope, expiring, clock) => DbAfter(db, CloseUploadSession(db, scope, expiring, clock))
    case CommitSession(scope, attributes, ids, clock) => DbAfter(db, CommitUpload(db, scope, attributes, ids, clock))
    case Claim(j, owner) => DbAfter(db, ClaimJob(db, policy, now, j, owner))
    case Renew(j, held) => DbAfter(db, RenewLease(db, policy, now, j, held))
    case Settle(j, copy, held, event) => DbAfter(db, SettleExecutionFailure(db, policy, now, j, copy, held, event))
    case Promote(c, held) => DbAfter(db, CompleteAndPromote(db, now, c, held))
    case Reject(f, held) => DbAfter(db, FailVersion(db, now, f, held))
    case Isolate(j) => IsolateNotification(db, now, j)
    case Replay(j, known, event) => DbAfter(db, RebuildAndEnqueue(db, now, j, known, event))
    case ReconcilePass(staleAfter, picks) => Reconcile(db, now, staleAfter, picks)
    case RelayClaim(ttl, owner, chosen) => ClaimEvents(db, now, ttl, owner, chosen)
    case RelayPublished(e, held, at) => MarkPublished(db, now, e, held, at)
    case RelayReschedule(e, held, dueAt, attempts) => RescheduleEvent(db, now, e, held, dueAt, attempts)
    case ListExpired(_) => db
    case SweepExpired(c) => DbAfter(db, ExpireUploadSession(db, now, c))
    case ListPurgeable(_, _) => db
    case SweepPurged(c) => DbAfter(db, MarkMediaObjectsPurged(db, c))
    case PurgeAsset(org, asset, unit) => DbAfter(db, FinalizePurgeAsset(db, org, asset, unit))
    case NewAsset(a, org) => db.(assets := db.assets[a := Asset(org, false, false, None, None, None)])
    case TouchAsset(a, deleted, folderDeleted, unit) =>
      db.(assets := TouchedAssets(db, a, deleted, folderDeleted, unit))
  }

  ghost function Next(w: World, policy: Policy, now: Time, step: Step): World {
    World(
      NextDb(w.db, policy, now, step), now,
      w.spentUploads + (if step.CreateSession? then {step.options.upload} else {}),
      w.spentVersions + (if step.CommitSession? then {step.ids.version} else {}),
      w.spentJobs + (if step.CommitSession? then {step.ids.job} else {}),
      w.candidates + (if step.ListExpired? then step.expired else {}),
      w.claims + (if step.ListPurgeable? then step.purgeable else {}))
  }

  const START := World(EMPTY_DB, 0, {}, {}, {}, {}, {})

  // ------------------------------------------------------------------
  // How rows evolve in one step
  // ------------------------------------------------------------------

  ghost predicate SessionEvolves(db: Db, after: Db, s: Id) {
    s in db.sessions && s in after.sessions ==>
      && after.sessions[s].org == db.sessions[s].org
      && after.sessions[s].asset == db.sessions[s].asset
      && after.sessions[s].expectedSize == db.sessions[s].expectedSize
      && (!db.sessions[s].state.SessionCreated? ==> after.sessions[s].state == db.sessions[s].state)
  }

  ghost predicate VersionEvolves(db: Db, after: Db, v: Id) {
    v in db.versions ==>
      && (v in after.versions <==> db.versions[v].upload in after.sessions)
      && (v in after.versions ==>
            && after.versions[v].upload == db.versions[v].upload
            && after.versions[v].size == db.versions[v].size
            && (db.versions[v].status.VersionFailed? ==> after.versions[v].status.VersionFailed?))
  }

  ghost predicate JobEvolves(db: Db, after: Db, policy: Policy, now: Time, step: Step, j: Id) {
    j in db.jobs && j in after.jobs ==>
      && db.jobs[j].attempts <= after.jobs[j].attempts
      && (db.jobs[j].status.JobCompleted? ==> after.jobs[j].status.JobCompleted?)
      && (after.jobs[j].status.JobProcessing? ==>
            db.jobs[j].status.JobProcessing? || (step.Claim? && step.job == j))
      && (after.jobs[j].lease == db.jobs[j].lease || after.jobs[j].lease.None?
          || after.jobs[j].lease.value.expiresAt == now + policy.leaseTtl)
  }

  /** Rows appear only under ids the step brought, and never change identity or leave a terminal state. */
  ghost predicate Evolves(db: Db, after: Db, policy: Policy, now: Time, step: Step) {
    && (after.sessions.Keys <= db.sessions.Keys + (if step.CreateSession? then {step.options.upload} else {}))
    && (after.versions.Keys <= db.versions.Keys + (if step.CommitSession? then {step.ids.version} else {}))
    && (after.jobs.Keys <= db.jobs.Keys + (if step.CommitSession? then {step.ids.job} else {}))
    && (forall s {:trigger SessionEvolves(db, after, s)} :: SessionEvolves(db, after, s))
    && (forall v {:trigger VersionEvolves(db, after, v)} :: VersionEvolves(db, after, v))
    && (forall j {:trigger JobEvolves(db, after, policy, now, step, j)} :: JobEvolves(db, after, policy, now, step, j))
  }

  /** Sessions are closed or added; everything else stays. */
  lemma EvolveSessions(db: Db, after: Db, policy: Policy, now: Time, step: Step)
    requires Versions(db)
    requires after == db.(usage := after.usage, sessions := after.sessions)
    requires db.sessions.Keys <= after.sessions.Keys
    requires after.sessions.Keys <= db.sessions.Keys + (if step.CreateSession? then {step.options.upload} else {})
    requires forall s {:trigger SessionEvolves(db, after, s)} :: SessionEvolves(db, after, s)
    ensures Evolves(db, after, policy, now, step)
  {
    forall v ensures VersionEvolves(db, after, v) {
      if v in db.versions { assert VersionSound(db, v); }
    }
    forall j ensures JobEvolves(db, after, policy, now, step, j) {}
  }

  /** One job row moves, and at most its version row with it. */
  lemma EvolveJob(db: Db, after: Db, policy: Policy, now: Time, step: Step, j: Id, v: Id)
    requires Versions(db)
    requires after.sessions == db.sessions
    requires j in db.jobs && j in after.jobs && after.jobs == db.jobs[j := after.jobs[j]]
    requires JobEvolves(db, after, policy, now, step, j)
    requires
      || after.versions == db.versions
      || (&& v in db.versions && v in after.versions && after.versions == db.versions[v := after.versions[v]]
          && after.versions[v].upload == db.versions[v].upload && after.versions[v].size == db.versions[v].size
          && (db.versions[v].status.VersionFailed? ==> after.versions[v].status.VersionFailed?))
    ensures Evolves(db, after, policy, now, step)
  {
    forall s ensures SessionEvolves(db, after, s) {}
    forall w ensures VersionEvolves(db, after, w) {
      if w in db.versions { assert VersionSound(db, w); }
    }
    forall i ensures JobEvolves(db, after, policy, now, step, i) {}
  }

  lemma EvolveOutbox(db: Db, after: Db, policy: Policy, now: Time, step: Step)
    requires Versions(db)
    requires after.sessions == db.sessions && after.versions == db.versions && after.jobs == db.jobs
    ensures Evolves(db, after, policy, now, step)
  {
    forall s ensures SessionEvolves(db, after, s) {}
    forall v ensures VersionEvolves(db, after, v) {
      if v in db.versions { assert VersionSound(db, v); }
    }
    forall j ensures JobEvolves(db, after, policy, now, step, j) {}
  }

  /** Admission closes lapsed sessions of the asset and adds the one it was given, or leaves all as they are. */
  lemma CreateShape(db: Db, request: UploadRequest, options: SessionOptions, clock: Time)
    ensures var after := DbAfter(db, CreateUploadSession(db, request, options, clock));
            && after == db.(usage := after.usage, sessions := after.sessions)
            && (after.sessions != db.sessions ==>
                  && 0 <= request.size
                  && options.upload !in db.sessions
                  && after.sessions == Expire(db.sessions, Lapsed(db, request.org, request.asset, clock), clock)
                                       [options.upload := NewSession(request, options)])
  {
    var tx := CreateUploadSession(db, request, options, clock);
    if tx.Commit? && !tx.value.replayed {
      var seated := EnsureUsage(db, request.org, options.defaultQuota);
      assert Lapsed(seated, request.org, request.asset, clock) == Lapsed(db, request.org, request.asset, clock);
      var reclaimed := ReclaimExpiredSessions(seated, request.org, request.asset, clock);
      assert tx == AdmitSession(reclaimed, request, options);
    }
  }

  lemma CreateStepEvolves(db: Db, policy: Policy, now: Time, step: Step)
    requires Versions(db)
    requires step.CreateSession?
    ensures Evolves(db, NextDb(db, policy, now, step), policy, now, step)
  {
    var after := NextDb(db, policy, now, step);
    CreateShape(db, step.request, step.options, step.clock);
    forall s ensures SessionEvolves(db, after, s) {}
    EvolveSessions(db, after, policy, now, step);
  }

  lemma CloseStepEvolves(db: Db, policy: Policy, now: Time, step: Step)
    requires Versions(db)
    requires step.CloseSession?
    ensures Evolves(db, NextDb(db, policy, now, step), policy, now, step)
  {
    var after := NextDb(db, policy, now, step);
    forall s ensures SessionEvolves(db, after, s) {}
    forall v ensures VersionEvolves(db, after, v) {
      if v in db.versions { assert VersionSound(db, v); }
    }
    forall j ensures JobEvolves(db, after, policy, now, step, j) {}
  }

  lemma ExpireEvolves(db: Db, policy: Policy, now: Time, step: Step, c: ExpiryCandidate)
    requires Versions(db) && !step.CreateSession?
    ensures Evolves(db, DbAfter(db, ExpireUploadSession(db, now, c)), policy, now, step)
  {
    var after := DbAfter(db, ExpireUploadSession(db, now, c));
    forall s ensures SessionEvolves(db, after, s) {}
    EvolveSessions(db, after, policy, now, step);
  }

  lemma CommitStepEvolves(db: Db, policy: Policy, now: Time, step: Step)
    requires Versions(db)
    requires step.CommitSession?
    ensures Evolves(db, NextDb(db, policy, now, step), policy, now, step)
  {
    var after := NextDb(db, policy, now, step);
    forall s ensures SessionEvolves(db, after, s) {}
    forall v ensures VersionEvolves(db, after, v) {
      if v in db.versions { assert VersionSound(db, v); }
    }
    forall j ensures JobEvolves(db, after, policy, now, step, j) {}
  }

  lemma SweepShape(db: Db, c: PurgeClaim)
    ensures var after := DbAfter(db, MarkMediaObjectsPurged(db, c));
            && after.jobs == db.jobs && after.versions.Keys == db.versions.Keys
            && after.sessions.Keys == db.sessions.Keys
            && (forall s :: s in db.sessions ==>
                  after.sessions[s] == db.sessions[s] || after.sessions[s] == db.sessions[s].(purged := true))
            && (forall v :: v in db.versions ==>
                  || after.versions[v] == db.versions[v]
                  || after.versions[v] == db.versions[v].(outputs := map[], retained := false))
  {
    var tx := MarkMediaObjectsPurged(db, c);
    if tx.Commit? && tx.value {
      assert tx.db.sessions == db.sessions[c.upload := db.sessions[c.upload].(purged := true)];
      if c.version.Some? && c.version.value in db.versions {
        var v := c.version.value;
        assert tx.db.versions == db.versions[v := db.versions[v].(outputs := map[], retained := false)];
      } else {
        assert tx.db.versions == db.versions;
      }
    } else {
      assert DbAfter(db, tx) == db;
    }
  }

  lemma SweepStepEvolves(db: Db, policy: Policy, now: Time, step: Step)
    requires Versions(db)
    requires step.SweepPurged?
    ensures Evolves(db, NextDb(db, policy, now, step), policy, now, step)
  {
    var after := DbAfter(db, MarkMediaObjectsPurged(db, step.claim));
    SweepShape(db, step.claim);
    SweptVersionsEvolve(db, after);
    SweptRestEvolves(db, after, policy, now, step);
  }

  lemma SweptRestEvolves(db: Db, after: Db, policy: Policy, now: Time, step: Step)
    requires after.jobs == db.jobs && after.versions.Keys == db.versions.Keys && after.sessions.Keys == db.sessions.Keys
    requires forall s :: s in db.sessions ==>
      after.sessions[s] == db.sessions[s] || after.sessions[s] == db.sessions[s].(purged := true)
    requires forall v {:trigger VersionEvolves(db, after, v)} :: VersionEvolves(db, after, v)
    ensures Evolves(db, after, policy, now, step)
  {
    forall s ensures SessionEvolves(db, after, s) {}
    forall j ensures JobEvolves(db, after, policy, now, step, j) {}
  }

  lemma SweptVersionsEvolve(db: Db, after: Db)
    requires Versions(db)
    requires after.sessions.Keys == db.sessions.Keys && after.versions.Keys == db.versions.Keys
    requires forall v :: v in db.versions ==>
      after.versions[v] == db.versions[v] || after.versions[v] == db.versions[v].(outputs := map[], retained := false)
    ensures forall v {:trigger VersionEvolves(db, after, v)} :: VersionEvolves(db, after, v)
  {
    forall v ensures VersionEvolves(db, after, v) {
      if v in db.versions { assert VersionSound(db, v); }
    }
  }

  lemma TeardownEvolves(db: Db, policy: Policy, now: Time, step: Step, org: Id, asset: Id, unit: Id)
    requires Versions(db)
    ensures Evolves(db, DbAfter(db, FinalizePurgeAsset(db, org, asset, unit)), policy, now, step)
  {
    var after := DbAfter(db, FinalizePurgeAsset(db, org, asset, unit));
    forall s ensures SessionEvolves(db, after, s) {}
    forall v ensures VersionEvolves(db, after, v) {
      if v in db.versions { assert VersionSound(db, v); }
    }
    forall j ensures JobEvolves(db, after, policy, now, step, j) {}
  }

  /** What a claim or a settlement never touches: the ledger, the sessions, and every version's identity and outputs. */
  ghost predicate WorkFrame(db: Db, after: Db) {
    && after.usage == db.usage && after.sessions == db.sessions && after.versions.Keys == db.versions.Keys
    && after.assets.Keys == db.assets.Keys
    && (forall v :: v in db.versions ==>
          && after.versions[v].org == db.versions[v].org && after.versions[v].asset == db.versions[v].asset
          && after.versions[v].upload == db.versions[v].upload
          && after.versions[v].rawKey == db.versions[v].rawKey && after.versions[v].retained == db.versions[v].retained
          && after.versions[v].size == db.versions[v].size && after.versions[v].outputs == db.versions[v].outputs)
    && (forall a :: a in db.assets ==> after.assets[a].deleted == db.assets[a].deleted)
  }

  lemma FailureFrame(db: Db, j: Id, version: Id, org: Id, asset: Id, code: ErrorCode, now: Time)
    requires j in db.jobs
    ensures WorkFrame(db, FailMediaVersion(db, j, version, org, asset, code, now))
  {
  }

  lemma ClaimFrame(db: Db, policy: Policy, now: Time, j: Id, owner: string)
    ensures WorkFrame(db, DbAfter(db, ClaimJob(db, policy, now, j, owner)))
  {
    if j in db.jobs { FailureFrame(db, j, db.jobs[j].version, db.jobs[j].org, db.jobs[j].asset, ProcessingFailed, now); }
  }

  lemma SettleFrame(db: Db, policy: Policy, now: Time, j: Id, copy: Job, held: Lease, event: Id)
    ensures WorkFrame(db, DbAfter(db, SettleExecutionFailure(db, policy, now, j, copy, held, event)))
  {
    if j in db.jobs { FailureFrame(db, j, db.jobs[j].version, db.jobs[j].org, db.jobs[j].asset, ProcessingFailed, now); }
  }

  lemma ClaimEvolves(db: Db, policy: Policy, now: Time, step: Step, j: Id, owner: string)
    requires Versions(db) && Jobs(db, policy) && step.Claim? && step.job == j && step.owner == owner
    ensures Evolves(db, DbAfter(db, ClaimJob(db, policy, now, j, owner)), policy, now, step)
  {
    var after := DbAfter(db, ClaimJob(db, policy, now, j, owner));
    if after == db {
      EvolveOutbox(db, after, policy, now, step);
    } else {
      assert JobSound(db, policy, j);
      EvolveJob(db, after, policy, now, step, j, db.jobs[j].version);
    }
  }

  lemma RenewEvolves(db: Db, policy: Policy, now: Time, step: Step)
    requires Versions(db) && Jobs(db, policy)
    requires step.Renew?
    ensures Evolves(db, NextDb(db, policy, now, step), policy, now, step)
  {
    var after := NextDb(db, policy, now, step);
    var j := step.job;
    if after == db {
      EvolveOutbox(db, after, policy, now, step);
    } else {
      assert JobSound(db, policy, j);
      EvolveJob(db, after, policy, now, step, j, db.jobs[j].version);
    }
  }

  lemma SettleEvolves(db: Db, policy: Policy, now: Time, step: Step, j: Id, copy: Job, held: Lease, event: Id)
    requires Versions(db) && Jobs(db, policy)
    ensures Evolves(db, DbAfter(db, SettleExecutionFailure(db, policy, now, j, copy, held, event)), policy, now, step)
  {
    var after := DbAfter(db, SettleExecutionFailure(db, policy, now, j, copy, held, event));
    if after == db {
      EvolveOutbox(db, after, policy, now, step);
    } else {
      assert JobSound(db, policy, j);
      EvolveJob(db, after, policy, now, step, j, db.jobs[j].version);
    }
  }

  lemma ParkStepEvolves(db: Db, policy: Policy, now: Time, step: Step)
    requires Versions(db) && Jobs(db, policy)
    requires step.Isolate? || step.Replay?
    ensures Evolves(db, NextDb(db, policy, now, step), policy, now, step)
  {
    var after := NextDb(db, policy, now, step);
    var j := step.job;
    if after == db {
      EvolveOutbox(db, after, policy, now, step);
    } else {
      assert JobSound(db, policy, j);
      EvolveJob(db, after, policy, now, step, j, db.jobs[j].version);
    }
  }

  lemma RejectStepEvolves(db: Db, policy: Policy, now: Time, step: Step)
    requires Versions(db) && Jobs(db, policy)
    requires step.Reject?
    ensures Evolves(db, NextDb(db, policy, now, step), policy, now, step)
  {
    var after := NextDb(db, policy, now, step);
    if after == db {
      EvolveOutbox(db, after, policy, now, step);
    } else {
      assert JobSound(db, policy, step.failure.job);
      EvolveJob(db, after, policy, now, step, step.failure.job, step.failure.version);
    }
  }

  lemma PromoteStepEvolves(db: Db, policy: Policy, now: Time, step: Step)
    requires Versions(db) && Jobs(db, policy)
    requires step.Promote? && (step.completion.job in db.jobs ==> Describes(db, step.completion))
    ensures Evolves(db, NextDb(db, policy, now, step), policy, now, step)
  {
    var after := NextDb(db, policy, now, step);
    if after == db {
      EvolveOutbox(db, after, policy, now, step);
    } else {
      assert JobSound(db, policy, step.completion.job);
      EvolveJob(db, after, policy, now, step, step.completion.job, step.completion.version);
    }
  }

  lemma {:induction false} RedispatchKeepsRows(db: Db, now: Time, picks: seq<Pick>)
    ensures Redispatch(db, now, picks) == db.(outbox := Redispatch(db, now, picks).outbox)
    decreases |picks|
  {
    if picks != [] {
      var inserted := InsertEvent(db, picks[0].event, picks[0].job, now);
      RedispatchKeepsRows(if inserted.Commit? then inserted.db else db, now, picks[1..]);
    }
  }

  lemma ReconcileEvolves(db: Db, policy: Policy, now: Time, step: Step, staleAfter: nat, picks: seq<Pick>)
    requires Versions(db)
    ensures Evolves(db, Reconcile(db, now, staleAfter, picks), policy, now, step)
  {
    RedispatchKeepsRows(db, now, picks);
    EvolveOutbox(db, Reconcile(db, now, staleAfter, picks), policy, now, step);
  }

  lemma OtherStepEvolves(db: Db, policy: Policy, now: Time, step: Step)
    requires Versions(db)
    requires step.RelayClaim? || step.RelayPublished? || step.RelayReschedule?
             || step.ListExpired? || step.ListPurgeable? || step.NewAsset? || step.TouchAsset?
    ensures Evolves(db, NextDb(db, policy, now, step), policy, now, step)
  {
    EvolveOutbox(db, NextDb(db, policy, now, step), policy, now, step);
  }

  lemma StepEvolves(db: Db, policy: Policy, now: Time, step: Step)
    requires Versions(db) && Jobs(db, policy)
    requires step.Promote? ==> step.completion.job in db.jobs ==> Describes(db, step.completion)
    ensures Evolves(db, NextDb(db, policy, now, step), policy, now, step)
  {
    match step
    case CreateSession(_, _, _) => CreateStepEvolves(db, policy, now, step);
    case CloseSession(_, _, _) => CloseStepEvolves(db, policy, now, step);
    case SweepExpired(c) => ExpireEvolves(db, policy, now, step, c);
    case CommitSession(_, _, _, _) => CommitStepEvolves(db, policy, now, step);
    case SweepPurged(_) => SweepStepEvolves(db, policy, now, step);
    case PurgeAsset(org, asset, unit) => TeardownEvolves(db, policy, now, step, org, asset, unit);
    case Claim(j, owner) => ClaimEvolves(db, policy, now, step, j, owner);
    case Renew(_, _) => RenewEvolves(db, policy, now, step);
    case Settle(j, copy, held, event) => SettleEvolves(db, policy, now, step, j, copy, held, event);
    case Promote(_, _) => PromoteStepEvolves(db, policy, now, step);
    case Reject(_, _) => RejectStepEvolves(db, policy, now, step);
    case Isolate(_) => ParkStepEvolves(db, policy, now, step);
    case Replay(_, _, _) => ParkStepEvolves(db, policy, now, step);
    case ReconcilePass(staleAfter, picks) => ReconcileEvolves(db, policy, now, step, staleAfter, picks);
    case _ => OtherStepEvolves(db, policy, now, step);
  }
}
