/**
 The one inductive invariant that links sessions, versions, jobs, asset
 pointers, outbox and ledger, and its preservation by every media transaction.
 */
module MediaInvariant {
  import opened Wrappers
  import opened FiniteSums
  import opened MediaTables
  import opened MediaSteps

  // ---- per-row soundness ----

  ghost predicate SessionSound(db: Db, s: Id)
    requires s in db.sessions
  {
    var session := db.sessions[s];
    && session.asset in db.assets
    && db.assets[session.asset].org == session.org
    && 1 <= session.expectedSize
    && session.org in db.usage
    && (session.state.SessionCreated? ==> db.assets[session.asset].pending.None? && !session.purged)
  }

  ghost predicate HasJob(db: Db, v: Id) {
    exists j :: j in db.jobs && db.jobs[j].version == v
  }

  ghost predicate VersionSound(db: Db, v: Id)
    requires v in db.versions
  {
    var version := db.versions[v];
    && version.upload in db.sessions
    && db.sessions[version.upload].state.SessionCommitted?
    && db.sessions[version.upload].asset == version.asset
    && db.sessions[version.upload].org == version.org
    && db.sessions[version.upload].expectedSize == version.size
    && version.retained == !db.sessions[version.upload].purged
    && (version.status.VersionCompleted? ==> version.outputs.Keys == MANIFEST)
    && HasJob(db, v)
  }

  /** A job is live iff its version is pending iff the asset's pending pointer names that version. */
  ghost predicate JobCoherent(db: Db, j: Id)
    requires j in db.jobs
  {
    var job := db.jobs[j];
    && job.version in db.versions
    && db.versions[job.version].asset == job.asset
    && db.versions[job.version].org == job.org
    && job.asset in db.assets
    && (job.Live() <==> db.versions[job.version].status.VersionPending?)
    && (job.Live() <==> db.assets[job.asset].pending == Some(job.version))
  }

  ghost predicate JobRowSound(policy: Policy, job: Job) {
    && job.attempts <= policy.MaxAttempts()
    && (job.status.JobProcessing? <==> job.lease.Some?)
    && (job.status.JobProcessing? ==> 1 <= job.attempts)
    && (job.isolatedAt.Some? ==> job.status.JobFailed? && job.lastError == Some(NotificationIsolated))
  }

  ghost predicate AssetSound(db: Db, a: Id)
    requires a in db.assets
  {
    var asset := db.assets[a];
    && (asset.active.Some? ==>
          && asset.active.value in db.versions
          && db.versions[asset.active.value].asset == a
          && db.versions[asset.active.value].status.VersionCompleted?)
    && (asset.pending.Some? ==>
          && asset.pending.value in db.versions
          && db.versions[asset.pending.value].asset == a
          && db.versions[asset.pending.value].status.VersionPending?)
  }

  ghost predicate EventSound(db: Db, e: Id)
    requires e in db.outbox
  {
    && db.outbox[e].job in db.jobs
    && (db.outbox[e].status.EventPublished? ==> db.outbox[e].publishedAt.Some?)
  }

  // ---- whole tables ----

  // Each quantifier is instantiated only where a proof names its row predicate.

  ghost predicate OneOpenUpload(db: Db, s: Id, t: Id) {
    && s in db.sessions && t in db.sessions
    && db.sessions[s].state.SessionCreated? && db.sessions[t].state.SessionCreated?
    && db.sessions[s].asset == db.sessions[t].asset
    ==> s == t
  }

  /** `uq_media_upload_sessions_idempotency` */
  ghost predicate OneSessionPerKey(db: Db, s: Id, t: Id) {
    && s in db.sessions && t in db.sessions
    && db.sessions[s].org == db.sessions[t].org && db.sessions[s].asset == db.sessions[t].asset
    && db.sessions[s].requestedBy == db.sessions[t].requestedBy
    && db.sessions[s].idempotencyKey == db.sessions[t].idempotencyKey
    ==> s == t
  }

  ghost predicate Sessions(db: Db) {
    && (forall s {:trigger SessionSound(db, s)} :: s in db.sessions ==> SessionSound(db, s))
    && (forall s, t {:trigger OneOpenUpload(db, s, t)} :: OneOpenUpload(db, s, t))
    && (forall s, t {:trigger OneSessionPerKey(db, s, t)} :: OneSessionPerKey(db, s, t))
  }

  ghost predicate OneVersionPerUpload(db: Db, v: Id, w: Id) {
    v in db.versions && w in db.versions && db.versions[v].upload == db.versions[w].upload ==> v == w
  }

  ghost predicate Versions(db: Db) {
    && (forall v {:trigger VersionSound(db, v)} :: v in db.versions ==> VersionSound(db, v))
    && (forall v, w {:trigger OneVersionPerUpload(db, v, w)} :: OneVersionPerUpload(db, v, w))
  }

  ghost predicate OneJobPerVersion(db: Db, i: Id, j: Id) {
    i in db.jobs && j in db.jobs && db.jobs[i].version == db.jobs[j].version ==> i == j
  }

  ghost predicate JobSound(db: Db, policy: Policy, j: Id)
    requires j in db.jobs
  {
    JobCoherent(db, j) && JobRowSound(policy, db.jobs[j])
  }

  ghost predicate Jobs(db: Db, policy: Policy) {
    && (forall j {:trigger JobSound(db, policy, j)} :: j in db.jobs ==> JobSound(db, policy, j))
    && (forall i, j {:trigger OneJobPerVersion(db, i, j)} :: OneJobPerVersion(db, i, j))
  }

  ghost predicate Assets(db: Db) {
    forall a {:trigger AssetSound(db, a)} :: a in db.assets ==> AssetSound(db, a)
  }

  ghost predicate HasEvent(db: Db, j: Id) {
    exists e :: e in db.outbox && db.outbox[e].job == j
  }

  ghost predicate OneUnpublished(db: Db, d: Id, e: Id) {
    && d in db.outbox && e in db.outbox && db.outbox[d].job == db.outbox[e].job
    && db.outbox[d].Unpublished() && db.outbox[e].Unpublished()
    ==> d == e
  }

  ghost predicate Dispatched(db: Db, j: Id) {
    j in db.jobs && (db.jobs[j].status.JobQueued? || db.jobs[j].status.JobProcessing?) ==> HasEvent(db, j)
  }

  ghost predicate Outbox(db: Db) {
    && (forall e {:trigger EventSound(db, e)} :: e in db.outbox ==> EventSound(db, e))
    && (forall d, e {:trigger OneUnpublished(db, d, e)} :: OneUnpublished(db, d, e))
    && (forall j {:trigger Dispatched(db, j)} :: Dispatched(db, j))
  }

  /** The ledger row of an organization is exactly the two sums it caches, within quota. */
  ghost predicate Balanced(db: Db, org: Id)
    requires org in db.usage
  {
    && db.usage[org].reserved == Reserved(db.sessions, org)
    && db.usage[org].stored == Stored(db.versions, org)
    && db.usage[org].reserved + db.usage[org].stored <= db.usage[org].quota
  }

  ghost predicate Ledger(db: Db) {
    forall o {:trigger Balanced(db, o)} :: o in db.usage ==> Balanced(db, o)
  }

  ghost predicate Coherent(db: Db, policy: Policy) {
    Sessions(db) && Versions(db) && Jobs(db, policy) && Assets(db) && Outbox(db)
  }

  // ------------------------------------------------------------------
  // One live job row changes; versions, sessions and assets stay.
  // ------------------------------------------------------------------

  lemma SessionsOfJobUpdate(db: Db, jobs: map<Id, Job>)
    requires Sessions(db)
    ensures Sessions(db.(jobs := jobs))
  {
    var after := db.(jobs := jobs);
    forall s | s in after.sessions ensures SessionSound(after, s) {
      assert SessionSound(db, s);
    }
    forall x, y ensures OneOpenUpload(after, x, y) {
      assert OneOpenUpload(db, x, y);
    }
    forall x, y ensures OneSessionPerKey(after, x, y) {
      assert OneSessionPerKey(db, x, y);
    }
  }

  lemma AssetsOfJobUpdate(db: Db, jobs: map<Id, Job>)
    requires Assets(db)
    ensures Assets(db.(jobs := jobs))
  {
    var after := db.(jobs := jobs);
    forall a | a in after.assets ensures AssetSound(after, a) {
      assert AssetSound(db, a);
    }
  }

  lemma VersionsOfJobUpdate(db: Db, j: Id, job: Job)
    requires Versions(db)
    requires j in db.jobs && job.version == db.jobs[j].version
    ensures Versions(db.(jobs := db.jobs[j := job]))
  {
    var after := db.(jobs := db.jobs[j := job]);
    forall v | v in after.versions ensures VersionSound(after, v) {
      assert VersionSound(db, v);
      var i :| i in db.jobs && db.jobs[i].version == v;
      assert i in after.jobs && after.jobs[i].version == v;
    }
    forall x, y ensures OneVersionPerUpload(after, x, y) {
      assert OneVersionPerUpload(db, x, y);
    }
  }

  lemma JobsOfJobUpdate(db: Db, policy: Policy, j: Id, job: Job)
    requires Jobs(db, policy)
    requires j in db.jobs && db.jobs[j].Live() && job.Live()
    requires job.org == db.jobs[j].org && job.asset == db.jobs[j].asset && job.version == db.jobs[j].version
    requires JobRowSound(policy, job)
    ensures Jobs(db.(jobs := db.jobs[j := job]), policy)
  {
    var after := db.(jobs := db.jobs[j := job]);
    forall i | i in after.jobs ensures JobSound(after, policy, i) {
      assert JobSound(db, policy, i);
    }
    forall x, y ensures OneJobPerVersion(after, x, y) {
      assert OneJobPerVersion(db, x, y);
    }
  }

  lemma OutboxOfJobUpdate(db: Db, j: Id, job: Job)
    requires Outbox(db)
    requires j in db.jobs
    requires job.status.JobQueued? || job.status.JobProcessing? ==> HasEvent(db, j)
    ensures Outbox(db.(jobs := db.jobs[j := job]))
  {
    var after := db.(jobs := db.jobs[j := job]);
    forall e | e in after.outbox ensures EventSound(after, e) {
      assert EventSound(db, e);
    }
    forall i ensures Dispatched(after, i) {
      assert Dispatched(db, i);
      if HasEvent(db, i) {
        var e :| e in db.outbox && db.outbox[e].job == i;
        assert e in after.outbox && after.outbox[e].job == i;
      }
    }
    forall x, y ensures OneUnpublished(after, x, y) {
      assert OneUnpublished(db, x, y);
    }
  }

  lemma LiveJobUpdate(db: Db, policy: Policy, j: Id, job: Job)
    requires Coherent(db, policy)
    requires j in db.jobs && db.jobs[j].Live() && job.Live()
    requires job.org == db.jobs[j].org && job.asset == db.jobs[j].asset && job.version == db.jobs[j].version
    requires JobRowSound(policy, job)
    requires job.status.JobQueued? || job.status.JobProcessing? ==> HasEvent(db, j)
    ensures Coherent(db.(jobs := db.jobs[j := job]), policy)
  {
    SessionsOfJobUpdate(db, db.jobs[j := job]);
    AssetsOfJobUpdate(db, db.jobs[j := job]);
    VersionsOfJobUpdate(db, j, job);
    JobsOfJobUpdate(db, policy, j, job);
    OutboxOfJobUpdate(db, j, job);
  }

  // ------------------------------------------------------------------
  // A leased job fails for good: version, pointer and job change together.
  // ------------------------------------------------------------------

  /** What `FailMediaVersion` does to a leased job of a coherent database. */
  function Failed(db: Db, j: Id, code: ErrorCode, now: Time): Db
    requires j in db.jobs && db.jobs[j].version in db.versions && db.jobs[j].asset in db.assets
  {
    var job := db.jobs[j];
    db.(versions := db.versions[job.version := db.versions[job.version].(status := VersionFailed, failedAt := Some(now))],
        assets := db.assets[job.asset := db.assets[job.asset].(pending := None)],
        jobs := db.jobs[j := job.(status := JobFailed, lease := None, lastError := Some(code))])
  }

  lemma FailIsFailed(db: Db, policy: Policy, j: Id, code: ErrorCode, now: Time)
    requires Jobs(db, policy)
    requires j in db.jobs && db.jobs[j].status.JobProcessing?
    ensures db.jobs[j].version in db.versions && db.jobs[j].asset in db.assets
    ensures db.versions[db.jobs[j].version].status.VersionPending?
    ensures FailMediaVersion(db, j, db.jobs[j].version, db.jobs[j].org, db.jobs[j].asset, code, now)
         == Failed(db, j, code, now)
  {
    assert JobSound(db, policy, j);
  }

  lemma SessionsOfFailure(db: Db, j: Id, code: ErrorCode, now: Time)
    requires Sessions(db)
    requires j in db.jobs && db.jobs[j].version in db.versions && db.jobs[j].asset in db.assets
    ensures Sessions(Failed(db, j, code, now))
  {
    var after := Failed(db, j, code, now);
    forall s | s in after.sessions ensures SessionSound(after, s) {
      assert SessionSound(db, s);
    }
    forall x, y ensures OneOpenUpload(after, x, y) {
      assert OneOpenUpload(db, x, y);
    }
    forall x, y ensures OneSessionPerKey(after, x, y) {
      assert OneSessionPerKey(db, x, y);
    }
  }

  lemma VersionsOfFailure(db: Db, j: Id, code: ErrorCode, now: Time)
    requires Versions(db)
    requires j in db.jobs && db.jobs[j].version in db.versions && db.jobs[j].asset in db.assets
    ensures Versions(Failed(db, j, code, now))
  {
    var after := Failed(db, j, code, now);
    forall v | v in after.versions ensures VersionSound(after, v) {
      assert VersionSound(db, v);
      var i :| i in db.jobs && db.jobs[i].version == v;
      assert i in after.jobs && after.jobs[i].version == v;
    }
    forall x, y ensures OneVersionPerUpload(after, x, y) {
      assert OneVersionPerUpload(db, x, y);
    }
  }

  lemma JobsOfFailure(db: Db, policy: Policy, j: Id, code: ErrorCode, now: Time)
    requires Jobs(db, policy)
    requires j in db.jobs && db.jobs[j].status.JobProcessing?
    requires db.jobs[j].version in db.versions && db.jobs[j].asset in db.assets
    ensures Jobs(Failed(db, j, code, now), policy)
  {
    var after := Failed(db, j, code, now);
    assert JobSound(db, policy, j);
    forall i | i in after.jobs ensures JobSound(after, policy, i) {
      assert JobSound(db, policy, i) && OneJobPerVersion(db, i, j);
    }
    forall x, y ensures OneJobPerVersion(after, x, y) {
      assert OneJobPerVersion(db, x, y);
    }
  }

  lemma AssetsOfFailure(db: Db, j: Id, code: ErrorCode, now: Time)
    requires Assets(db)
    requires j in db.jobs && db.jobs[j].version in db.versions && db.jobs[j].asset in db.assets
    requires db.versions[db.jobs[j].version].status.VersionPending?
    requires db.versions[db.jobs[j].version].asset == db.jobs[j].asset
    ensures Assets(Failed(db, j, code, now))
  {
    var after := Failed(db, j, code, now);
    forall a | a in after.assets ensures AssetSound(after, a) {
      assert AssetSound(db, a);
    }
  }

  lemma OutboxOfFailure(db: Db, j: Id, code: ErrorCode, now: Time)
    requires Outbox(db)
    requires j in db.jobs && db.jobs[j].version in db.versions && db.jobs[j].asset in db.assets
    ensures Outbox(Failed(db, j, code, now))
  {
    var after := Failed(db, j, code, now);
    forall e | e in after.outbox ensures EventSound(after, e) {
      assert EventSound(db, e);
    }
    forall i ensures Dispatched(after, i) {
      assert Dispatched(db, i);
      if HasEvent(db, i) {
        var e :| e in db.outbox && db.outbox[e].job == i;
        assert e in after.outbox && after.outbox[e].job == i;
      }
    }
    forall x, y ensures OneUnpublished(after, x, y) {
      assert OneUnpublished(db, x, y);
    }
  }

  lemma FailurePreserves(db: Db, policy: Policy, j: Id, code: ErrorCode, now: Time)
    requires Coherent(db, policy)
    requires j in db.jobs && db.jobs[j].status.JobProcessing?
    ensures db.jobs[j].version in db.versions && db.versions[db.jobs[j].version].status.VersionPending?
    ensures Coherent(FailMediaVersion(db, j, db.jobs[j].version, db.jobs[j].org, db.jobs[j].asset, code, now), policy)
  {
    FailIsFailed(db, policy, j, code, now);
    assert JobSound(db, policy, j);
    SessionsOfFailure(db, j, code, now);
    VersionsOfFailure(db, j, code, now);
    JobsOfFailure(db, policy, j, code, now);
    AssetsOfFailure(db, j, code, now);
    OutboxOfFailure(db, j, code, now);
  }

  // ------------------------------------------------------------------
  // Promotion: version completed, active pointer set, job completed.
  // ------------------------------------------------------------------

  lemma BothKinds(kinds: set<OutputKind>)
    requires |kinds| == |MANIFEST|
    ensures kinds == MANIFEST
  {
    assert kinds <= MANIFEST by {
      forall k | k in kinds ensures k in MANIFEST {
        assert k == Thumbnail || k == Web;
      }
    }
    var missing := MANIFEST - kinds;
    assert MANIFEST == kinds + missing && |MANIFEST| == |kinds| + |missing|;
    assert missing == {};
  }

  lemma SessionsOfPromotion(db: Db, c: Completion, outputs: map<OutputKind, ObjectKey>)
    requires Sessions(db)
    requires c.job in db.jobs && c.version in db.versions && c.asset in db.assets
    ensures Sessions(PromotedDb(db, c, outputs))
  {
    var after := PromotedDb(db, c, outputs);
    forall s | s in after.sessions ensures SessionSound(after, s) {
      assert SessionSound(db, s);
    }
    forall x, y ensures OneOpenUpload(after, x, y) {
      assert OneOpenUpload(db, x, y);
    }
    forall x, y ensures OneSessionPerKey(after, x, y) {
      assert OneSessionPerKey(db, x, y);
    }
  }

  lemma VersionsOfPromotion(db: Db, c: Completion, outputs: map<OutputKind, ObjectKey>)
    requires Versions(db)
    requires c.job in db.jobs && c.version in db.versions && c.asset in db.assets
    requires outputs.Keys == MANIFEST
    ensures Versions(PromotedDb(db, c, outputs))
  {
    var after := PromotedDb(db, c, outputs);
    forall v | v in after.versions ensures VersionSound(after, v) {
      assert VersionSound(db, v);
      var i :| i in db.jobs && db.jobs[i].version == v;
      assert i in after.jobs && after.jobs[i].version == v;
    }
    forall x, y ensures OneVersionPerUpload(after, x, y) {
      assert OneVersionPerUpload(db, x, y);
    }
  }

  /** The completion names the row its worker claimed. */
  predicate Describes(db: Db, c: Completion)
    requires c.job in db.jobs
  {
    var job := db.jobs[c.job];
    c.version == job.version && c.org == job.org && c.asset == job.asset
  }

  lemma JobsOfPromotion(db: Db, policy: Policy, c: Completion, outputs: map<OutputKind, ObjectKey>)
    requires Jobs(db, policy)
    requires c.job in db.jobs && c.version in db.versions && c.asset in db.assets && Describes(db, c)
    requires db.jobs[c.job].status.JobProcessing? && !db.assets[c.asset].deleted
    ensures Jobs(PromotedDb(db, c, outputs), policy)
    ensures db.versions[c.version].status.VersionPending? && db.versions[c.version].asset == c.asset
  {
    var after := PromotedDb(db, c, outputs);
    assert JobSound(db, policy, c.job);
    forall i | i in after.jobs ensures JobSound(after, policy, i) {
      assert JobSound(db, policy, i) && OneJobPerVersion(db, i, c.job);
    }
    forall x, y ensures OneJobPerVersion(after, x, y) {
      assert OneJobPerVersion(db, x, y);
    }
  }

  lemma AssetsOfPromotion(db: Db, c: Completion, outputs: map<OutputKind, ObjectKey>)
    requires Assets(db)
    requires c.job in db.jobs && c.version in db.versions && c.asset in db.assets
    requires db.versions[c.version].status.VersionPending? && db.versions[c.version].asset == c.asset
    requires db.versions[c.version].org == c.org && !db.assets[c.asset].deleted
    requires db.assets[c.asset].pending == Some(c.version)
    ensures Assets(PromotedDb(db, c, outputs))
  {
    var after := PromotedDb(db, c, outputs);
    forall a | a in after.assets ensures AssetSound(after, a) {
      assert AssetSound(db, a);
    }
  }

  lemma OutboxOfPromotion(db: Db, c: Completion, outputs: map<OutputKind, ObjectKey>)
    requires Outbox(db)
    requires c.job in db.jobs && c.version in db.versions && c.asset in db.assets
    ensures Outbox(PromotedDb(db, c, outputs))
  {
    var after := PromotedDb(db, c, outputs);
    forall e | e in after.outbox ensures EventSound(after, e) {
      assert EventSound(db, e);
    }
    forall i ensures Dispatched(after, i) {
      assert Dispatched(db, i);
      if HasEvent(db, i) {
        var e :| e in db.outbox && db.outbox[e].job == i;
        assert e in after.outbox && after.outbox[e].job == i;
      }
    }
    forall x, y ensures OneUnpublished(after, x, y) {
      assert OneUnpublished(db, x, y);
    }
  }

  lemma PromotionPreserves(db: Db, policy: Policy, now: Time, c: Completion, held: Lease)
    requires Coherent(db, policy)
    requires c.job in db.jobs ==> Describes(db, c)
    ensures var tx := CompleteAndPromote(db, now, c, held); tx.Commit? ==> Coherent(tx.db, policy)
  {
    var tx := CompleteAndPromote(db, now, c, held);
    if tx.Commit? && tx.value {
      var outputs := InsertOutputs(db.versions[c.version].outputs, c.outputs);
      BothKinds(outputs.Keys);
      assert JobSound(db, policy, c.job);
      SessionsOfPromotion(db, c, outputs);
      VersionsOfPromotion(db, c, outputs);
      JobsOfPromotion(db, policy, c, outputs);
      AssetsOfPromotion(db, c, outputs);
      OutboxOfPromotion(db, c, outputs);
    }
  }

  // ------------------------------------------------------------------
  // Outbox rows
  // ------------------------------------------------------------------

  lemma OutboxOnly(db: Db, policy: Policy, outbox: map<Id, Event>)
    requires Coherent(db, policy)
    requires Outbox(db.(outbox := outbox))
    ensures Coherent(db.(outbox := outbox), policy)
  {
    var after := db.(outbox := outbox);
    assert Sessions(after) by {
      forall s | s in after.sessions ensures SessionSound(after, s) { assert SessionSound(db, s); }
      forall s, t ensures OneOpenUpload(after, s, t) { assert OneOpenUpload(db, s, t); }
      forall s, t ensures OneSessionPerKey(after, s, t) {
        assert OneSessionPerKey(db, s, t);
      }
    }
    assert Assets(after) by {
      forall a | a in after.assets ensures AssetSound(after, a) { assert AssetSound(db, a); }
    }
    VersionsOfOutbox(db, outbox);
    JobsOfOutbox(db, policy, outbox);
  }

  lemma VersionsOfOutbox(db: Db, outbox: map<Id, Event>)
    requires Versions(db)
    ensures Versions(db.(outbox := outbox))
  {
    var after := db.(outbox := outbox);
    forall v | v in after.versions ensures VersionSound(after, v) {
      assert VersionSound(db, v);
      var i :| i in db.jobs && db.jobs[i].version == v;
      assert i in after.jobs && after.jobs[i].version == v;
    }
    forall x, y ensures OneVersionPerUpload(after, x, y) {
      assert OneVersionPerUpload(db, x, y);
    }
  }

  lemma JobsOfOutbox(db: Db, policy: Policy, outbox: map<Id, Event>)
    requires Jobs(db, policy)
    ensures Jobs(db.(outbox := outbox), policy)
  {
    var after := db.(outbox := outbox);
    forall i | i in after.jobs ensures JobSound(after, policy, i) {
      assert JobSound(db, policy, i);
    }
    forall x, y ensures OneJobPerVersion(after, x, y) {
      assert OneJobPerVersion(db, x, y);
    }
  }

  lemma InsertEventOutbox(db: Db, e: Id, j: Id, due: Time)
    requires Outbox(db)
    requires j in db.jobs
    ensures var tx := InsertEvent(db, e, j, due); tx.Commit? ==> Outbox(tx.db)
  {
    var tx := InsertEvent(db, e, j, due);
    if tx.Commit? {
      forall x, y ensures OneUnpublished(tx.db, x, y) {
        assert OneUnpublished(db, x, y);
      }
      forall d | d in tx.db.outbox ensures EventSound(tx.db, d) {
        if d != e { assert EventSound(db, d); }
      }
      forall i ensures Dispatched(tx.db, i) {
      assert Dispatched(db, i);
      if HasEvent(db, i) {
        var d :| d in db.outbox && db.outbox[d].job == i;
        assert d in tx.db.outbox && tx.db.outbox[d].job == i;
      }
    }
    }
  }

  lemma InsertEventPreserves(db: Db, policy: Policy, e: Id, j: Id, due: Time)
    requires Coherent(db, policy)
    requires j in db.jobs
    ensures var tx := InsertEvent(db, e, j, due); tx.Commit? ==> Coherent(tx.db, policy)
  {
    var tx := InsertEvent(db, e, j, due);
    if tx.Commit? {
      InsertEventOutbox(db, e, j, due);
      OutboxOnly(db, policy, tx.db.outbox);
    }
  }

  /** Rows keep their job; unpublished rows stay unpublished or leave with a publication time. */
  lemma OutboxRewrite(db: Db, outbox: map<Id, Event>)
    requires Outbox(db)
    requires outbox.Keys == db.outbox.Keys
    requires forall e :: e in outbox ==>
               && outbox[e].job == db.outbox[e].job
               && (outbox[e].Unpublished() ==> db.outbox[e].Unpublished())
               && (outbox[e].status.EventPublished? ==> outbox[e].publishedAt.Some?)
    ensures Outbox(db.(outbox := outbox))
  {
    var after := db.(outbox := outbox);
    forall e | e in after.outbox ensures EventSound(after, e) {
      assert EventSound(db, e);
    }
    forall i ensures Dispatched(after, i) {
      assert Dispatched(db, i);
      if HasEvent(db, i) {
        var e :| e in db.outbox && db.outbox[e].job == i;
        assert e in after.outbox && after.outbox[e].job == i;
      }
    }
    forall x, y ensures OneUnpublished(after, x, y) {
      assert OneUnpublished(db, x, y);
    }
  }

  lemma ClaimEventsPreserves(db: Db, policy: Policy, now: Time, ttl: nat, owner: string, chosen: set<Id>)
    requires Coherent(db, policy)
    ensures Coherent(ClaimEvents(db, now, ttl, owner, chosen), policy)
  {
    assert forall d :: d in db.outbox ==> EventSound(db, d);
    var claimed := ClaimEvents(db, now, ttl, owner, chosen).outbox;
    OutboxRewrite(db, claimed);
    OutboxOnly(db, policy, claimed);
  }

  lemma MarkPublishedPreserves(db: Db, policy: Policy, now: Time, e: Id, held: Lease, at: Time)
    requires Coherent(db, policy)
    ensures Coherent(MarkPublished(db, now, e, held, at), policy)
  {
    assert forall d :: d in db.outbox ==> EventSound(db, d);
    if HoldsEvent(db, now, e, held) {
      var marked := MarkPublished(db, now, e, held, at).outbox;
      OutboxRewrite(db, marked);
      OutboxOnly(db, policy, marked);
    }
  }

  lemma ReschedulePreserves(db: Db, policy: Policy, now: Time, e: Id, held: Lease, dueAt: Time, attempts: nat)
    requires Coherent(db, policy)
    ensures Coherent(RescheduleEvent(db, now, e, held, dueAt, attempts), policy)
  {
    assert forall d :: d in db.outbox ==> EventSound(db, d);
    if HoldsEvent(db, now, e, held) {
      var moved := RescheduleEvent(db, now, e, held, dueAt, attempts).outbox;
      OutboxRewrite(db, moved);
      OutboxOnly(db, policy, moved);
    }
  }

  lemma {:induction false} RedispatchPreserves(db: Db, policy: Policy, now: Time, picks: seq<Pick>)
    requires Coherent(db, policy)
    requires forall i :: 0 <= i < |picks| ==> picks[i].job in db.jobs
    ensures Coherent(Redispatch(db, now, picks), policy)
    ensures Redispatch(db, now, picks).jobs == db.jobs
    decreases |picks|
  {
    if picks != [] {
      var tx := InsertEvent(db, picks[0].event, picks[0].job, now);
      InsertEventPreserves(db, policy, picks[0].event, picks[0].job, now);
      RedispatchPreserves(if tx.Commit? then tx.db else db, policy, now, picks[1..]);
    }
  }

  // ------------------------------------------------------------------
  // The job transactions
  // ------------------------------------------------------------------

  lemma ClaimPreserves(db: Db, policy: Policy, now: Time, j: Id, owner: string)
    requires Coherent(db, policy)
    ensures var tx := ClaimJob(db, policy, now, j, owner); tx.Commit? ==> Coherent(tx.db, policy)
  {
    var tx := ClaimJob(db, policy, now, j, owner);
    if tx.Commit? {
      assert JobSound(db, policy, j);
      if tx.value.Claimed? {
        assert Dispatched(db, j);
        LiveJobUpdate(db, policy, j, ClaimedJob(db.jobs[j], policy, now, owner));
      } else {
        FailurePreserves(db, policy, j, ProcessingFailed, now);
      }
    }
  }

  lemma RenewPreserves(db: Db, policy: Policy, now: Time, j: Id, held: Lease)
    requires Coherent(db, policy)
    ensures var tx := RenewLease(db, policy, now, j, held); tx.Commit? ==> Coherent(tx.db, policy)
  {
    if HoldsLease(db, now, j, held) {
      assert JobSound(db, policy, j) && Dispatched(db, j);
      LiveJobUpdate(db, policy, j, db.jobs[j].(lease := Some(Lease(held.owner, now + policy.leaseTtl))));
    }
  }

  lemma SettlePreserves(db: Db, policy: Policy, now: Time, j: Id, claimed: Job, held: Lease, event: Id)
    requires Coherent(db, policy)
    ensures var tx := SettleExecutionFailure(db, policy, now, j, claimed, held, event);
            tx.Commit? ==> Coherent(tx.db, policy)
    ensures SettleExecutionFailure(db, policy, now, j, claimed, held, event) != Rollback(NoRetryDelay)
    ensures SettleExecutionFailure(db, policy, now, j, claimed, held, event) != Rollback(VersionNotFound)
  {
    if HoldsLease(db, now, j, held) {
      var job := db.jobs[j];
      assert JobSound(db, policy, j);
      if job.attempts >= policy.MaxAttempts() {
        FailurePreserves(db, policy, j, ProcessingFailed, now);
      } else {
        var due := now + policy.delays[job.attempts - 1];
        var queued := job.(status := JobQueued, nextAttemptAt := due, lease := None, lastError := Some(ProcessingFailed));
        assert Dispatched(db, j);
        LiveJobUpdate(db, policy, j, queued);
        InsertEventPreserves(db.(jobs := db.jobs[j := queued]), policy, event, j, due);
      }
    }
  }

  lemma IsolatePreserves(db: Db, policy: Policy, now: Time, j: Id)
    requires Coherent(db, policy)
    ensures Coherent(IsolateNotification(db, now, j), policy)
  {
    if IsolateNotification(db, now, j) != db {
      assert JobSound(db, policy, j);
      LiveJobUpdate(db, policy, j, IsolateNotification(db, now, j).jobs[j]);
    }
  }

  lemma RebuildPreserves(db: Db, policy: Policy, now: Time, j: Id, operatorKnown: bool, event: Id)
    requires Coherent(db, policy)
    ensures var tx := RebuildAndEnqueue(db, now, j, operatorKnown, event); tx.Commit? ==> Coherent(tx.db, policy)
    ensures RebuildAndEnqueue(db, now, j, operatorKnown, event) != Rollback(VersionNotFound)
  {
    if j in db.jobs && db.jobs[j].isolatedAt.Some? {
      var job := db.jobs[j];
      assert JobSound(db, policy, j);
      var queued := job.(status := JobQueued, lease := None, nextAttemptAt := now, lastError := None, isolatedAt := None);
      var tx := InsertEvent(db, event, j, now);
      InsertEventPreserves(db, policy, event, j, now);
      if tx.Commit? {
        assert tx.db.outbox[event].job == j;
        assert HasEvent(tx.db, j);
        LiveJobUpdate(tx.db, policy, j, queued);
        assert InsertEvent(db.(jobs := db.jobs[j := queued]), event, j, now).db == tx.db.(jobs := tx.db.jobs[j := queued]);
      }
    }
  }
}
