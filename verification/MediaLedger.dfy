module MediaLedger {
  // Quota conservation: after every transaction the ledger row of each
  // organization equals the sums it caches and stays within quota, and no
  // `GREATEST(..., 0)` ever changes a result.

  import opened Wrappers
  import opened FiniteSums
  import opened MediaTables
  import opened MediaSteps
  import opened MediaInvariant
  import opened MediaUploads

  // ---- transactions that do not touch the ledger ----

  /** Neither ledger nor sessions change, and every version keeps its weight. */
  lemma LedgerUntouched(db: Db, after: Db)
    requires Ledger(db)
    requires after.usage == db.usage && after.sessions == db.sessions && after.versions.Keys == db.versions.Keys
    requires forall v :: v in db.versions ==>
               && after.versions[v].retained == db.versions[v].retained
               && after.versions[v].org == db.versions[v].org && after.versions[v].size == db.versions[v].size
    ensures Ledger(after)
  {
    forall o | o in after.usage ensures Balanced(after, o) {
      assert Balanced(db, o);
      assert StoredWeights(after.versions, o) == StoredWeights(db.versions, o);
    }
  }

  // ---- sessions ----

  lemma EnsureUsageBalances(db: Db, policy: Policy, org: Id, quota: nat)
    requires Ledger(db) && Sessions(db) && Versions(db)
    ensures Ledger(EnsureUsage(db, org, quota))
  {
    var after := EnsureUsage(db, org, quota);
    forall o | o in after.usage ensures Balanced(after, o) {
      if o in db.usage {
        assert Balanced(db, o);
      } else {
        forall s | s in db.sessions ensures db.sessions[s].org != o { assert SessionSound(db, s); }
        forall v | v in db.versions ensures db.versions[v].org != o {
          assert VersionSound(db, v) && SessionSound(db, db.versions[v].upload);
        }
        TotalOfZeros(ReservedWeights(db.sessions, o));
        TotalOfZeros(StoredWeights(db.versions, o));
      }
    }
  }

  /** Closing one open session returns exactly its reservation; the clamp is idle. */
  lemma CloseBalances(db: Db, s: Id, closed: Session)
    requires Ledger(db)
    requires s in db.sessions && db.sessions[s].state.SessionCreated? && db.sessions[s].org in db.usage
    requires !closed.state.SessionCreated?
    ensures db.sessions[s].expectedSize <= db.usage[db.sessions[s].org].reserved
    ensures Ledger(ReleaseReservation(db.(sessions := db.sessions[s := closed]),
                                      db.sessions[s].org, db.sessions[s].expectedSize))
  {
    var open := db.sessions[s];
    assert Balanced(db, open.org);
    TotalBoundsRow(ReservedWeights(db.sessions, open.org), s);
    var after := ReleaseReservation(db.(sessions := db.sessions[s := closed]), open.org, open.expectedSize);
    forall o | o in after.usage ensures Balanced(after, o) {
      assert Balanced(db, o);
      ReservedUpdate(db.sessions, o, s, closed);
    }
  }

  /** Expiring a set of open sessions of one organization frees exactly the sum of their sizes. */
  lemma ReservedAfterExpiry(sessions: map<Id, Session>, lapsed: set<Id>, org: Id, clock: Time, o: Id)
    requires forall s :: s in lapsed ==> s in sessions && sessions[s].state.SessionCreated? && sessions[s].org == org
    ensures Reserved(sessions, o)
         == Reserved(Expire(sessions, lapsed, clock), o) + (if o == org then Total(SizesOf(sessions, lapsed)) else 0)
  {
    var before, after := ReservedWeights(sessions, o), ReservedWeights(Expire(sessions, lapsed, clock), o);
    TotalSplit(before, lapsed);
    TotalSplit(after, lapsed);
    assert before - lapsed == after - lapsed;
    var chosenBefore := map s | s in before && s in lapsed :: before[s];
    var chosenAfter := map s | s in after && s in lapsed :: after[s];
    TotalOfZeros(chosenAfter);
    if o == org {
      assert chosenBefore == SizesOf(sessions, lapsed);
    } else {
      TotalOfZeros(chosenBefore);
    }
  }

  lemma ReclaimBalances(db: Db, org: Id, asset: Id, clock: Time)
    requires Ledger(db) && org in db.usage
    ensures Total(SizesOf(db.sessions, Lapsed(db, org, asset, clock))) <= db.usage[org].reserved
    ensures Ledger(ReclaimExpiredSessions(db, org, asset, clock))
  {
    var lapsed := Lapsed(db, org, asset, clock);
    var after := ReclaimExpiredSessions(db, org, asset, clock);
    assert Balanced(db, org);
    ReservedAfterExpiry(db.sessions, lapsed, org, clock, org);
    forall o | o in after.usage ensures Balanced(after, o) {
      assert Balanced(db, o);
      ReservedAfterExpiry(db.sessions, lapsed, org, clock, o);
    }
  }

  lemma AdmitBalances(db: Db, request: UploadRequest, options: SessionOptions)
    requires Ledger(db) && request.org in db.usage
    ensures var tx := AdmitSession(db, request, options); tx.Commit? ==> Ledger(tx.db)
  {
    var tx := AdmitSession(db, request, options);
    if tx.Commit? {
      forall o | o in tx.db.usage ensures Balanced(tx.db, o) {
        assert Balanced(db, o);
        ReservedUpdate(db.sessions, o, options.upload, NewSession(request, options));
      }
    }
  }

  lemma CreateUploadBalances(db: Db, policy: Policy, request: UploadRequest, options: SessionOptions, clock: Time)
    requires Ledger(db) && Sessions(db) && Versions(db)
    ensures var tx := CreateUploadSession(db, request, options, clock); tx.Commit? ==> Ledger(tx.db)
  {
    var tx := CreateUploadSession(db, request, options, clock);
    if tx.Commit? {
      var seated := EnsureUsage(db, request.org, options.defaultQuota);
      EnsureUsageBalances(db, policy, request.org, options.defaultQuota);
      if !tx.value.replayed {
        ReclaimBalances(seated, request.org, request.asset, clock);
        AdmitBalances(ReclaimExpiredSessions(seated, request.org, request.asset, clock), request, options);
      }
    }
  }

  lemma CloseUploadBalances(db: Db, scope: Scope, expiring: bool, clock: Time)
    requires Ledger(db)
    ensures var tx := CloseUploadSession(db, scope, expiring, clock); tx.Commit? ==> Ledger(tx.db)
  {
    var tx := CloseUploadSession(db, scope, expiring, clock);
    if tx.Commit? && tx.db != db {
      var s := db.sessions[scope.upload];
      CloseBalances(db, scope.upload,
        s.(state := if expiring then SessionExpired else SessionCancelled, endedAt := Some(clock)));
    }
  }

  /** A sweep candidate, however stale, still carries the size its session reserved. */
  ghost predicate CandidateSound(db: Db, c: ExpiryCandidate) {
    c.upload in db.sessions ==> db.sessions[c.upload].org == c.org && db.sessions[c.upload].expectedSize == c.size
  }

  lemma ExpireUploadBalances(db: Db, now: Time, c: ExpiryCandidate)
    requires Ledger(db) && CandidateSound(db, c)
    ensures var tx := ExpireUploadSession(db, now, c); tx.Commit? ==> Ledger(tx.db)
  {
    var tx := ExpireUploadSession(db, now, c);
    if tx.Commit? && tx.value {
      CloseBalances(db, c.upload, db.sessions[c.upload].(state := SessionExpired, endedAt := Some(now)));
    }
  }

  // ---- commit ----

  /** A commit moves exactly the reservation to stored bytes; the clamp is idle. */
  lemma CommitBalances(db: Db, scope: Scope, attributes: Attributes, ids: CommitIds, clock: Time)
    requires Ledger(db)
    ensures var tx := CommitUpload(db, scope, attributes, ids, clock);
            tx.Commit? ==> Ledger(tx.db)
    ensures var tx := CommitUpload(db, scope, attributes, ids, clock);
            tx.Commit? && !tx.value ==> db.sessions[scope.upload].expectedSize <= db.usage[scope.org].reserved
  {
    var tx := CommitUpload(db, scope, attributes, ids, clock);
    if tx.Commit? && !tx.value {
      var s := db.sessions[scope.upload];
      assert Balanced(db, s.org);
      TotalBoundsRow(ReservedWeights(db.sessions, s.org), scope.upload);
      forall o | o in tx.db.usage ensures Balanced(tx.db, o) {
        assert Balanced(db, o);
        ReservedUpdate(db.sessions, o, scope.upload, tx.db.sessions[scope.upload]);
        StoredUpdate(db.versions, o, ids.version, tx.db.versions[ids.version]);
      }
    }
  }

  // ---- purge sweep ----

  /** A recorded purge gives back exactly the bytes its version still retained; the clamp is idle. */
  lemma MarkPurgedBalances(db: Db, c: PurgeClaim)
    requires Ledger(db) && Sessions(db) && Versions(db) && ClaimSound(db, c)
    ensures var tx := MarkMediaObjectsPurged(db, c);
            tx.Commit? ==> Ledger(tx.db) && (tx.value && c.storedBytes > 0 ==> c.storedBytes <= db.usage[c.org].stored)
  {
    var tx := MarkMediaObjectsPurged(db, c);
    if tx.Commit? && tx.value {
      var marked := db.sessions[c.upload].(purged := true);
      if c.version.Some? {
        var v := c.version.value;
        assert VersionSound(db, v) && SessionSound(db, c.upload);
        assert Balanced(db, c.org);
        TotalBoundsRow(StoredWeights(db.versions, c.org), v);
      }
      forall o | o in tx.db.usage ensures Balanced(tx.db, o) {
        assert Balanced(db, o);
        ReservedUpdate(db.sessions, o, c.upload, marked);
        if c.version.Some? {
          StoredUpdate(db.versions, o, c.version.value, tx.db.versions[c.version.value]);
        }
      }
    }
  }

  // ---- lifecycle teardown ----

  /** All media rows of the asset belong to the organization whose ledger is charged. */
  ghost predicate OwnedBy(db: Db, asset: Id, org: Id) {
    && (forall s :: s in SessionsOf(db, asset) ==> db.sessions[s].org == org)
    && (forall v :: v in VersionsOf(db, asset) ==> db.versions[v].org == org)
  }

  lemma ReservedAfterTeardown(db: Db, asset: Id, org: Id, unit: Id, o: Id)
    requires OwnedBy(db, asset, org)
    ensures Reserved(db.sessions, o)
         == Reserved(Teardown(db, asset, unit).sessions, o) + (if o == org then OpenBytes(db, org, asset) else 0)
  {
    var gone := SessionsOf(db, asset);
    var weights := ReservedWeights(db.sessions, o);
    TotalSplit(weights, gone);
    assert weights - gone == ReservedWeights(db.sessions - gone, o);
    var chosen := map s | s in weights && s in gone :: weights[s];
    if o == org {
      assert chosen == OpenRows(db, org, asset);
    } else {
      TotalOfZeros(chosen);
    }
  }

  lemma StoredAfterTeardown(db: Db, asset: Id, org: Id, unit: Id, o: Id)
    requires OwnedBy(db, asset, org)
    ensures Stored(db.versions, o)
         == Stored(Teardown(db, asset, unit).versions, o) + (if o == org then RetainedBytes(db, asset) else 0)
  {
    var gone := VersionsOf(db, asset);
    var weights := StoredWeights(db.versions, o);
    TotalSplit(weights, gone);
    assert weights - gone == StoredWeights(db.versions - gone, o);
    var chosen := map v | v in weights && v in gone :: weights[v];
    if o == org {
      assert chosen == RetainedRows(db, asset);
    } else {
      TotalOfZeros(chosen);
    }
  }

  /** Purging an asset gives back exactly its stored and reserved bytes; both clamps are idle. */
  lemma TeardownBalances(db: Db, org: Id, asset: Id, unit: Id)
    requires Ledger(db) && OwnedBy(db, asset, org)
    ensures var tx := FinalizePurgeAsset(db, org, asset, unit);
            tx.Commit? ==> Ledger(tx.db)
    ensures org in db.usage ==> OpenBytes(db, org, asset) <= db.usage[org].reserved
                                && RetainedBytes(db, asset) <= db.usage[org].stored
  {
    var tx := FinalizePurgeAsset(db, org, asset, unit);
    if org in db.usage {
      assert Balanced(db, org);
      ReservedAfterTeardown(db, asset, org, unit, org);
      StoredAfterTeardown(db, asset, org, unit, org);
    }
    if tx.Commit? {
      forall o | o in tx.db.usage ensures Balanced(tx.db, o) {
        assert Balanced(db, o);
        ReservedAfterTeardown(db, asset, org, unit, o);
        StoredAfterTeardown(db, asset, org, unit, o);
      }
    }
  }

  lemma OwnedByAssetOrg(db: Db, asset: Id, org: Id)
    requires Sessions(db) && Versions(db)
    requires asset in db.assets ==> db.assets[asset].org == org
    ensures OwnedBy(db, asset, org)
  {
    forall s | s in SessionsOf(db, asset) ensures db.sessions[s].org == org { assert SessionSound(db, s); }
    forall v | v in VersionsOf(db, asset) ensures db.versions[v].org == org {
      assert VersionSound(db, v) && SessionSound(db, db.versions[v].upload);
    }
  }
}
