/** Coherence across the upload, commit, sweep and teardown transactions. */
module MediaUploads {
  import opened Wrappers
  import opened FiniteSums
  import opened MediaTables
  import opened MediaSteps
  import opened MediaInvariant

  // ------------------------------------------------------------------
  // Closing open sessions
  // ------------------------------------------------------------------

  /** `after` closes some of the created sessions of `before` and changes nothing else. */
  ghost predicate ClosesOne(before: map<Id, Session>, after: map<Id, Session>, s: Id)
    requires before.Keys == after.Keys
  {
    s in before ==>
      || after[s] == before[s]
      || (before[s].state.SessionCreated?
          && (after[s].state.SessionExpired? || after[s].state.SessionCancelled?)
          && after[s] == before[s].(state := after[s].state, endedAt := after[s].endedAt))
  }

  ghost predicate Closes(before: map<Id, Session>, after: map<Id, Session>) {
    && before.Keys == after.Keys
    && forall s {:trigger ClosesOne(before, after, s)} :: ClosesOne(before, after, s)
  }

  lemma SessionsOfClosing(db: Db, after: Db)
    requires Sessions(db)
    requires Closes(db.sessions, after.sessions) && after == db.(sessions := after.sessions, usage := after.usage)
    requires db.usage.Keys <= after.usage.Keys
    ensures Sessions(after)
  {
    forall s | s in after.sessions ensures SessionSound(after, s) {
      assert SessionSound(db, s) && ClosesOne(db.sessions, after.sessions, s);
    }
    forall s, t ensures OneOpenUpload(after, s, t) {
      assert OneOpenUpload(db, s, t);
      assert ClosesOne(db.sessions, after.sessions, s) && ClosesOne(db.sessions, after.sessions, t);
    }
    forall s, t ensures OneSessionPerKey(after, s, t) {
      assert OneSessionPerKey(db, s, t);
      assert ClosesOne(db.sessions, after.sessions, s) && ClosesOne(db.sessions, after.sessions, t);
    }
  }

  lemma VersionsOfClosing(db: Db, after: Db)
    requires Versions(db)
    requires Closes(db.sessions, after.sessions) && after == db.(sessions := after.sessions, usage := after.usage)
    ensures Versions(after)
  {
    forall v | v in after.versions ensures VersionSound(after, v) {
      assert VersionSound(db, v) && ClosesOne(db.sessions, after.sessions, db.versions[v].upload);
      var i :| i in db.jobs && db.jobs[i].version == v;
      assert i in after.jobs && after.jobs[i].version == v;
    }
    forall x, y ensures OneVersionPerUpload(after, x, y) {
      assert OneVersionPerUpload(db, x, y);
    }
  }

  /** Jobs, pointers and outbox do not read sessions or the ledger. */
  lemma RestOfSessionUpdate(db: Db, policy: Policy, after: Db)
    requires Jobs(db, policy) && Assets(db) && Outbox(db)
    requires after == db.(sessions := after.sessions, usage := after.usage)
    ensures Jobs(after, policy) && Assets(after) && Outbox(after)
  {
    forall i | i in after.jobs ensures JobSound(after, policy, i) { assert JobSound(db, policy, i); }
    forall x, y ensures OneJobPerVersion(after, x, y) { assert OneJobPerVersion(db, x, y); }
    forall a | a in after.assets ensures AssetSound(after, a) { assert AssetSound(db, a); }
    forall e | e in after.outbox ensures EventSound(after, e) { assert EventSound(db, e); }
    forall x, y ensures OneUnpublished(after, x, y) { assert OneUnpublished(db, x, y); }
    forall j ensures Dispatched(after, j) { EventKept(db, after, j); }
  }

  lemma EventKept(db: Db, after: Db, j: Id)
    requires Outbox(db)
    requires after == db.(sessions := after.sessions, usage := after.usage)
    ensures Dispatched(after, j)
  {
    assert Dispatched(db, j);
    if HasEvent(db, j) {
      var e :| e in db.outbox && db.outbox[e].job == j;
      assert e in after.outbox && after.outbox[e].job == j;
    }
  }

  lemma ClosingPreserves(db: Db, policy: Policy, after: Db)
    requires Coherent(db, policy)
    requires Closes(db.sessions, after.sessions) && after == db.(sessions := after.sessions, usage := after.usage)
    requires db.usage.Keys <= after.usage.Keys
    ensures Coherent(after, policy)
  {
    SessionsOfClosing(db, after);
    VersionsOfClosing(db, after);
    RestOfSessionUpdate(db, policy, after);
  }

  lemma CloseUploadPreserves(db: Db, policy: Policy, scope: Scope, expiring: bool, clock: Time)
    requires Coherent(db, policy)
    ensures var tx := CloseUploadSession(db, scope, expiring, clock); tx.Commit? ==> Coherent(tx.db, policy)
  {
    var tx := CloseUploadSession(db, scope, expiring, clock);
    if tx.Commit? && tx.db != db {
      forall s ensures ClosesOne(db.sessions, tx.db.sessions, s) {}
      ClosingPreserves(db, policy, tx.db);
    }
  }

  lemma ExpireUploadPreserves(db: Db, policy: Policy, now: Time, c: ExpiryCandidate)
    requires Coherent(db, policy)
    ensures var tx := ExpireUploadSession(db, now, c); tx.Commit? ==> Coherent(tx.db, policy)
  {
    var tx := ExpireUploadSession(db, now, c);
    if tx.Commit? && tx.db != db {
      forall s ensures ClosesOne(db.sessions, tx.db.sessions, s) {}
      ClosingPreserves(db, policy, tx.db);
    }
  }

  lemma ReclaimPreserves(db: Db, policy: Policy, org: Id, asset: Id, clock: Time)
    requires Coherent(db, policy)
    ensures Coherent(ReclaimExpiredSessions(db, org, asset, clock), policy)
    ensures ReclaimExpiredSessions(db, org, asset, clock).assets == db.assets
  {
    var after := ReclaimExpiredSessions(db, org, asset, clock);
    forall s ensures ClosesOne(db.sessions, after.sessions, s) {}
    ClosingPreserves(db, policy, after);
  }

  // ------------------------------------------------------------------
  // Admission
  // ------------------------------------------------------------------

  lemma SessionsOfAdmission(db: Db, request: UploadRequest, options: SessionOptions, usage: map<Id, Usage>)
    requires Sessions(db)
    requires AssetAvailable(db, request.org, request.asset) && db.assets[request.asset].pending.None?
    requires forall s :: !OpenOn(db, s, request.asset) && !IsReplay(db, s, request)
    requires request.org in usage && db.usage.Keys <= usage.Keys
    requires options.upload !in db.sessions && 1 <= request.size
    ensures Sessions(db.(usage := usage, sessions := db.sessions[options.upload := NewSession(request, options)]))
  {
    var after := db.(usage := usage, sessions := db.sessions[options.upload := NewSession(request, options)]);
    forall s | s in after.sessions ensures SessionSound(after, s) {
      if s != options.upload { assert SessionSound(db, s); }
    }
    forall s, t ensures OneOpenUpload(after, s, t) {
      assert OneOpenUpload(db, s, t);
      assert !OpenOn(db, s, request.asset) && !OpenOn(db, t, request.asset);
    }
    forall s, t ensures OneSessionPerKey(after, s, t) {
      assert OneSessionPerKey(db, s, t);
      assert !IsReplay(db, s, request) && !IsReplay(db, t, request);
    }
  }

  lemma VersionsOfAdmission(db: Db, request: UploadRequest, options: SessionOptions, usage: map<Id, Usage>)
    requires Versions(db)
    requires options.upload !in db.sessions && 0 <= request.size
    ensures Versions(db.(usage := usage, sessions := db.sessions[options.upload := NewSession(request, options)]))
  {
    var after := db.(usage := usage, sessions := db.sessions[options.upload := NewSession(request, options)]);
    forall v | v in after.versions ensures VersionSound(after, v) {
      assert VersionSound(db, v);
      var i :| i in db.jobs && db.jobs[i].version == v;
      assert i in after.jobs && after.jobs[i].version == v;
    }
    forall x, y ensures OneVersionPerUpload(after, x, y) {
      assert OneVersionPerUpload(db, x, y);
    }
  }

  lemma AdmissionPreserves(db: Db, policy: Policy, request: UploadRequest, options: SessionOptions)
    requires Coherent(db, policy)
    requires request.org in db.usage
    requires AssetAvailable(db, request.org, request.asset) && db.assets[request.asset].pending.None?
    requires forall s :: !OpenOn(db, s, request.asset) && !IsReplay(db, s, request)
    ensures var tx := AdmitSession(db, request, options); tx.Commit? ==> Coherent(tx.db, policy)
  {
    var tx := AdmitSession(db, request, options);
    if tx.Commit? {
      SessionsOfAdmission(db, request, options, tx.db.usage);
      VersionsOfAdmission(db, request, options, tx.db.usage);
      RestOfSessionUpdate(db, policy, tx.db);
    }
  }

  lemma EnsureUsagePreserves(db: Db, policy: Policy, org: Id, quota: nat)
    requires Coherent(db, policy)
    ensures Coherent(EnsureUsage(db, org, quota), policy)
  {
    var after := EnsureUsage(db, org, quota);
    forall s ensures ClosesOne(db.sessions, after.sessions, s) {}
    ClosingPreserves(db, policy, after);
  }

  lemma NoReplayAfterReclaim(db: Db, request: UploadRequest, clock: Time)
    requires forall s :: !IsReplay(db, s, request)
    ensures forall s :: !IsReplay(ReclaimExpiredSessions(db, request.org, request.asset, clock), s, request)
  {
    var after := ReclaimExpiredSessions(db, request.org, request.asset, clock);
    forall s ensures !IsReplay(after, s, request) {
      assert !IsReplay(db, s, request);
    }
  }

  lemma CreateUploadPreserves(db: Db, policy: Policy, request: UploadRequest, options: SessionOptions, clock: Time)
    requires Coherent(db, policy)
    ensures var tx := CreateUploadSession(db, request, options, clock); tx.Commit? ==> Coherent(tx.db, policy)
  {
    var tx := CreateUploadSession(db, request, options, clock);
    if tx.Commit? {
      var seated := EnsureUsage(db, request.org, options.defaultQuota);
      EnsureUsagePreserves(db, policy, request.org, options.defaultQuota);
      if !tx.value.replayed {
        var reclaimed := ReclaimExpiredSessions(seated, request.org, request.asset, clock);
        ReclaimPreserves(seated, policy, request.org, request.asset, clock);
        NoReplayAfterReclaim(seated, request, clock);
        AdmissionPreserves(reclaimed, policy, request, options);
      }
    }
  }

  // ------------------------------------------------------------------
  // Commit
  // ------------------------------------------------------------------

  ghost predicate Committable(db: Db, upload: Id, ids: CommitIds) {
    && upload in db.sessions
    && db.sessions[upload].state.SessionCreated?
    && db.sessions[upload].asset in db.assets
    && db.assets[db.sessions[upload].asset].pending.None?
    && IdsFree(db, ids)
  }

  lemma SessionsOfCommit(db: Db, upload: Id, ids: CommitIds, clock: Time)
    requires Sessions(db) && Committable(db, upload, ids)
    ensures Sessions(AcceptUpload(db, upload, ids, clock))
  {
    var after := AcceptUpload(db, upload, ids, clock);
    assert SessionSound(db, upload);
    forall s | s in after.sessions ensures SessionSound(after, s) {
      assert SessionSound(db, s) && OneOpenUpload(db, s, upload);
    }
    forall s, t ensures OneOpenUpload(after, s, t) {
      assert OneOpenUpload(db, s, t);
    }
    forall s, t ensures OneSessionPerKey(after, s, t) {
      assert OneSessionPerKey(db, s, t);
    }
  }

  lemma VersionsOfCommit(db: Db, upload: Id, ids: CommitIds, clock: Time)
    requires Sessions(db) && Versions(db) && Committable(db, upload, ids)
    requires !db.sessions[upload].purged
    ensures Versions(AcceptUpload(db, upload, ids, clock))
  {
    var after := AcceptUpload(db, upload, ids, clock);
    forall v | v in after.versions ensures VersionSound(after, v) {
      if v == ids.version {
        assert ids.job in after.jobs && after.jobs[ids.job].version == v;
      } else {
        assert VersionSound(db, v);
        var i :| i in db.jobs && db.jobs[i].version == v;
        assert i in after.jobs && after.jobs[i].version == v;
      }
    }
    forall x, y ensures OneVersionPerUpload(after, x, y) {
      assert OneVersionPerUpload(db, x, y);
      if x in db.versions { assert VersionSound(db, x); }
      if y in db.versions { assert VersionSound(db, y); }
    }
  }

  lemma JobsOfCommit(db: Db, policy: Policy, upload: Id, ids: CommitIds, clock: Time)
    requires Jobs(db, policy) && Committable(db, upload, ids)
    ensures Jobs(AcceptUpload(db, upload, ids, clock), policy)
  {
    var after := AcceptUpload(db, upload, ids, clock);
    forall i | i in after.jobs ensures JobSound(after, policy, i) {
      if i != ids.job { assert JobSound(db, policy, i); }
    }
    forall x, y ensures OneJobPerVersion(after, x, y) {
      assert OneJobPerVersion(db, x, y);
      if x in db.jobs { assert JobSound(db, policy, x); }
      if y in db.jobs { assert JobSound(db, policy, y); }
    }
  }

  lemma AssetsOfCommit(db: Db, upload: Id, ids: CommitIds, clock: Time)
    requires Assets(db) && Committable(db, upload, ids)
    ensures Assets(AcceptUpload(db, upload, ids, clock))
  {
    var after := AcceptUpload(db, upload, ids, clock);
    forall a | a in after.assets ensures AssetSound(after, a) {
      assert AssetSound(db, a);
    }
  }

  lemma OutboxOfCommit(db: Db, upload: Id, ids: CommitIds, clock: Time)
    requires Outbox(db) && Committable(db, upload, ids)
    ensures Outbox(AcceptUpload(db, upload, ids, clock))
  {
    var after := AcceptUpload(db, upload, ids, clock);
    forall e | e in after.outbox ensures EventSound(after, e) {
      if e != ids.event { assert EventSound(db, e); }
    }
    forall x, y ensures OneUnpublished(after, x, y) {
      assert OneUnpublished(db, x, y);
      if x in db.outbox { assert EventSound(db, x); }
      if y in db.outbox { assert EventSound(db, y); }
    }
    forall j ensures Dispatched(after, j) {
      if j == ids.job {
        assert ids.event in after.outbox && after.outbox[ids.event].job == j;
      } else {
        assert Dispatched(db, j);
        if HasEvent(db, j) {
          var e :| e in db.outbox && db.outbox[e].job == j;
          assert e in after.outbox && after.outbox[e].job == j;
        }
      }
    }
  }

  lemma CommitPreserves(db: Db, policy: Policy, scope: Scope, attributes: Attributes, ids: CommitIds, clock: Time)
    requires Coherent(db, policy)
    ensures var tx := CommitUpload(db, scope, attributes, ids, clock); tx.Commit? ==> Coherent(tx.db, policy)
  {
    var tx := CommitUpload(db, scope, attributes, ids, clock);
    if tx.Commit? && !tx.value {
      assert SessionSound(db, scope.upload);
      SessionsOfCommit(db, scope.upload, ids, clock);
      VersionsOfCommit(db, scope.upload, ids, clock);
      JobsOfCommit(db, policy, scope.upload, ids, clock);
      AssetsOfCommit(db, scope.upload, ids, clock);
      OutboxOfCommit(db, scope.upload, ids, clock);
    }
  }

  // ------------------------------------------------------------------
  // The purge sweep, from a possibly stale claim
  // ------------------------------------------------------------------

  /** What stays true of a claim however old the read it came from is. */
  ghost predicate ClaimSound(db: Db, c: PurgeClaim) {
    && (c.upload in db.sessions ==>
          && db.sessions[c.upload].org == c.org
          && !db.sessions[c.upload].state.SessionCreated?)
    && match c.version
       case None =>
         && c.storedBytes == 0
         && (c.upload in db.sessions ==> !db.sessions[c.upload].state.SessionCommitted?)
       case Some(v) =>
         && (v in db.versions <==> c.upload in db.sessions)
         && (v in db.versions ==>
               && db.versions[v].upload == c.upload
               && db.versions[v].status.VersionFailed?
               && db.versions[v].size == c.storedBytes)
  }

  /** A fresh read yields a sound claim. */
  lemma ListedClaimSound(db: Db, now: Time, quarantine: nat, c: PurgeClaim)
    requires Versions(db)
    requires PurgeListed(db, now, quarantine, c)
    ensures ClaimSound(db, c)
  {
    if c.version.Some? { assert VersionSound(db, c.version.value); }
  }

  lemma SessionsOfMark(db: Db, c: PurgeClaim, after: Db)
    requires Sessions(db) && ClaimSound(db, c) && c.upload in db.sessions
    requires after.sessions == db.sessions[c.upload := db.sessions[c.upload].(purged := true)]
    requires after.assets == db.assets && after.usage.Keys == db.usage.Keys
    ensures Sessions(after)
  {
    forall s | s in after.sessions ensures SessionSound(after, s) { assert SessionSound(db, s); }
    forall s, t ensures OneOpenUpload(after, s, t) { assert OneOpenUpload(db, s, t); }
    forall s, t ensures OneSessionPerKey(after, s, t) {
      assert OneSessionPerKey(db, s, t);
    }
  }

  lemma VersionsOfMark(db: Db, c: PurgeClaim)
    requires Versions(db) && ClaimSound(db, c)
    ensures var tx := MarkMediaObjectsPurged(db, c); tx.Commit? ==> Versions(tx.db)
  {
    var tx := MarkMediaObjectsPurged(db, c);
    if tx.Commit? && tx.value {
      var after := tx.db;
      forall v | v in after.versions ensures VersionSound(after, v) {
        assert VersionSound(db, v);
        if c.version.Some? { assert OneVersionPerUpload(db, v, c.version.value); }
        var i :| i in db.jobs && db.jobs[i].version == v;
        assert i in after.jobs && after.jobs[i].version == v;
      }
      forall x, y ensures OneVersionPerUpload(after, x, y) { assert OneVersionPerUpload(db, x, y); }
    }
  }

  /** Dropping the outputs of a failed version is invisible to jobs, pointers and outbox. */
  lemma RestOfMark(db: Db, policy: Policy, after: Db)
    requires Jobs(db, policy) && Assets(db) && Outbox(db)
    requires after.jobs == db.jobs && after.assets == db.assets && after.outbox == db.outbox
    requires after.versions.Keys == db.versions.Keys
    requires forall v :: v in db.versions ==>
               && after.versions[v].status == db.versions[v].status
               && after.versions[v].asset == db.versions[v].asset && after.versions[v].org == db.versions[v].org
    ensures Jobs(after, policy) && Assets(after) && Outbox(after)
  {
    forall i | i in after.jobs ensures JobSound(after, policy, i) { assert JobSound(db, policy, i); }
    forall x, y ensures OneJobPerVersion(after, x, y) { assert OneJobPerVersion(db, x, y); }
    forall a | a in after.assets ensures AssetSound(after, a) { assert AssetSound(db, a); }
    forall e | e in after.outbox ensures EventSound(after, e) { assert EventSound(db, e); }
    forall x, y ensures OneUnpublished(after, x, y) { assert OneUnpublished(db, x, y); }
    forall j ensures Dispatched(after, j) {
      assert Dispatched(db, j);
      if HasEvent(db, j) {
        var e :| e in db.outbox && db.outbox[e].job == j;
        assert e in after.outbox && after.outbox[e].job == j;
      }
    }
  }

  lemma MarkPurgedPreserves(db: Db, policy: Policy, c: PurgeClaim)
    requires Coherent(db, policy) && ClaimSound(db, c)
    ensures var tx := MarkMediaObjectsPurged(db, c); tx.Commit? ==> Coherent(tx.db, policy)
  {
    var tx := MarkMediaObjectsPurged(db, c);
    if tx.Commit? && tx.value {
      SessionsOfMark(db, c, tx.db);
      VersionsOfMark(db, c);
      RestOfMark(db, policy, tx.db);
    }
  }

  // ------------------------------------------------------------------
  // Teardown of one asset
  // ------------------------------------------------------------------

  lemma SessionsOfTeardown(db: Db, asset: Id, unit: Id, after: Db)
    requires Sessions(db)
    requires after == Teardown(db, asset, unit).(usage := after.usage) && after.usage.Keys == db.usage.Keys
    ensures Sessions(after)
  {
    forall s | s in after.sessions ensures SessionSound(after, s) { assert SessionSound(db, s); }
    forall s, t ensures OneOpenUpload(after, s, t) { assert OneOpenUpload(db, s, t); }
    forall s, t ensures OneSessionPerKey(after, s, t) {
      assert OneSessionPerKey(db, s, t);
    }
  }

  lemma VersionsOfTeardown(db: Db, policy: Policy, asset: Id, unit: Id, after: Db)
    requires Versions(db) && Jobs(db, policy)
    requires after == Teardown(db, asset, unit).(usage := after.usage)
    ensures Versions(after)
  {
    forall v | v in after.versions ensures VersionSound(after, v) {
      assert VersionSound(db, v);
      var i :| i in db.jobs && db.jobs[i].version == v;
      assert JobSound(db, policy, i);
      assert i in after.jobs && after.jobs[i].version == v;
    }
    forall x, y ensures OneVersionPerUpload(after, x, y) { assert OneVersionPerUpload(db, x, y); }
  }

  lemma JobsOfTeardown(db: Db, policy: Policy, asset: Id, unit: Id, after: Db)
    requires Jobs(db, policy)
    requires after == Teardown(db, asset, unit).(usage := after.usage)
    ensures Jobs(after, policy)
  {
    forall i | i in after.jobs ensures JobSound(after, policy, i) { assert JobSound(db, policy, i); }
    forall x, y ensures OneJobPerVersion(after, x, y) { assert OneJobPerVersion(db, x, y); }
  }

  lemma AssetsOfTeardown(db: Db, asset: Id, unit: Id, after: Db)
    requires Assets(db)
    requires after == Teardown(db, asset, unit).(usage := after.usage)
    ensures Assets(after)
  {
    forall a | a in after.assets ensures AssetSound(after, a) { assert AssetSound(db, a); }
  }

  lemma OutboxOfTeardown(db: Db, asset: Id, unit: Id, after: Db)
    requires Outbox(db)
    requires after == Teardown(db, asset, unit).(usage := after.usage)
    ensures Outbox(after)
  {
    forall e | e in after.outbox ensures EventSound(after, e) { assert EventSound(db, e); }
    forall x, y ensures OneUnpublished(after, x, y) { assert OneUnpublished(db, x, y); }
    forall j ensures Dispatched(after, j) {
      assert Dispatched(db, j);
      if HasEvent(db, j) {
        var e :| e in db.outbox && db.outbox[e].job == j;
        assert j in after.jobs ==> e in after.outbox && after.outbox[e].job == j;
      }
    }
  }

  lemma TeardownPreserves(db: Db, policy: Policy, org: Id, asset: Id, unit: Id)
    requires Coherent(db, policy)
    ensures var tx := FinalizePurgeAsset(db, org, asset, unit); tx.Commit? ==> Coherent(tx.db, policy)
  {
    var tx := FinalizePurgeAsset(db, org, asset, unit);
    if tx.Commit? {
      SessionsOfTeardown(db, asset, unit, tx.db);
      VersionsOfTeardown(db, policy, asset, unit, tx.db);
      JobsOfTeardown(db, policy, asset, unit, tx.db);
      AssetsOfTeardown(db, asset, unit, tx.db);
      OutboxOfTeardown(db, asset, unit, tx.db);
    }
  }

  // ------------------------------------------------------------------
  // Asset rows, written by the other repositories
  // ------------------------------------------------------------------

  /** Visibility columns move, a new asset may appear; pointers and organizations stay. */
  ghost predicate AssetKept(db: Db, assets: map<Id, Asset>, a: Id) {
    && (a in db.assets ==>
          && a in assets && assets[a].org == db.assets[a].org
          && assets[a].active == db.assets[a].active && assets[a].pending == db.assets[a].pending)
    && (a in assets && a !in db.assets ==> assets[a].active.None? && assets[a].pending.None?)
  }

  lemma AssetUpdatePreserves(db: Db, policy: Policy, assets: map<Id, Asset>)
    requires Coherent(db, policy)
    requires forall a {:trigger AssetKept(db, assets, a)} :: AssetKept(db, assets, a)
    ensures Coherent(db.(assets := assets), policy)
  {
    var after := db.(assets := assets);
    assert Sessions(after) by {
      forall s | s in after.sessions ensures SessionSound(after, s) {
        assert SessionSound(db, s) && AssetKept(db, assets, db.sessions[s].asset);
      }
      forall s, t ensures OneOpenUpload(after, s, t) { assert OneOpenUpload(db, s, t); }
      forall s, t ensures OneSessionPerKey(after, s, t) {
        assert OneSessionPerKey(db, s, t);
      }
    }
    JobsOfAssetUpdate(db, policy, assets);
    assert Assets(after) by {
      forall a | a in after.assets ensures AssetSound(after, a) {
        assert AssetKept(db, assets, a);
        if a in db.assets { assert AssetSound(db, a); }
      }
    }
    RestOfAssetUpdate(db, assets);
  }

  lemma JobsOfAssetUpdate(db: Db, policy: Policy, assets: map<Id, Asset>)
    requires Jobs(db, policy)
    requires forall a {:trigger AssetKept(db, assets, a)} :: AssetKept(db, assets, a)
    ensures Jobs(db.(assets := assets), policy)
  {
    var after := db.(assets := assets);
    forall i | i in after.jobs ensures JobSound(after, policy, i) {
      assert JobSound(db, policy, i) && AssetKept(db, assets, db.jobs[i].asset);
    }
    forall x, y ensures OneJobPerVersion(after, x, y) { assert OneJobPerVersion(db, x, y); }
  }

  lemma RestOfAssetUpdate(db: Db, assets: map<Id, Asset>)
    requires Versions(db) && Outbox(db)
    ensures Versions(db.(assets := assets)) && Outbox(db.(assets := assets))
  {
    var after := db.(assets := assets);
    forall v | v in after.versions ensures VersionSound(after, v) {
      assert VersionSound(db, v);
      var i :| i in db.jobs && db.jobs[i].version == v;
      assert i in after.jobs && after.jobs[i].version == v;
    }
    forall x, y ensures OneVersionPerUpload(after, x, y) { assert OneVersionPerUpload(db, x, y); }
    forall e | e in after.outbox ensures EventSound(after, e) { assert EventSound(db, e); }
    forall x, y ensures OneUnpublished(after, x, y) { assert OneUnpublished(db, x, y); }
    forall j ensures Dispatched(after, j) {
      assert Dispatched(db, j);
      if HasEvent(db, j) {
        var e :| e in db.outbox && db.outbox[e].job == j;
        assert e in after.outbox && after.outbox[e].job == j;
      }
    }
  }
}
