module MediaConsequences {
  // What the invariant gives to one transaction: guards that can never fire, an
  // unguarded update that is safe, when promotion succeeds, and idempotent creation.

  import opened Wrappers
  import opened FiniteSums
  import opened MediaTables
  import opened MediaSteps
  import opened MediaInvariant
  import opened MediaUploads

  /** No session and no pending version share an asset; the pending check of a commit never fires. */
  lemma CommitNeverFindsPending(db: Db, scope: Scope, attributes: Attributes, ids: CommitIds, clock: Time)
    requires Sessions(db)
    ensures CommitUpload(db, scope, attributes, ids, clock) != Rollback(UploadInProgress)
    ensures InScope(db, scope) ==> scope.org in db.usage
  {
    if InScope(db, scope) {
      assert SessionSound(db, scope.upload);
    }
  }

  /** A leased job has a pending version, so the unguarded failure never downgrades a completed one. */
  lemma FailureHitsPendingVersion(db: Db, policy: Policy, j: Id)
    requires Jobs(db, policy)
    requires j in db.jobs && db.jobs[j].status.JobProcessing?
    ensures db.jobs[j].version in db.versions
    ensures db.versions[db.jobs[j].version].status.VersionPending?
    ensures db.jobs[j].asset in db.assets && db.assets[db.jobs[j].asset].pending == Some(db.jobs[j].version)
  {
    assert JobSound(db, policy, j);
  }

  // ---- promotion ----

  lemma {:induction false} InsertedKinds(stored: map<OutputKind, ObjectKey>, outputs: seq<Output>)
    ensures InsertOutputs(stored, outputs).Keys == stored.Keys + set i | 0 <= i < |outputs| :: outputs[i].kind
    decreases |outputs|
  {
    if outputs != [] {
      var first := outputs[0];
      var next := if first.kind in stored then stored else stored[first.kind := first.key];
      InsertedKinds(next, outputs[1..]);
      var rest := set i | 0 <= i < |outputs[1..]| :: outputs[1..][i].kind;
      var all := set i | 0 <= i < |outputs| :: outputs[i].kind;
      assert all == {first.kind} + rest by {
        forall k | k in all ensures k in {first.kind} + rest {
          var i :| 0 <= i < |outputs| && outputs[i].kind == k;
          if i > 0 { assert outputs[1..][i - 1].kind == k; }
        }
        forall k | k in rest ensures k in all {
          var i :| 0 <= i < |outputs[1..]| && outputs[1..][i].kind == k;
          assert outputs[i + 1].kind == k;
        }
      }
    }
  }

  /**
   Under a valid lease and with both renditions in hand, promotion succeeds
   exactly when the asset is not a tombstone; it then moves the version from
   pending to completed and the pointer from pending to active.
   */
  lemma PromotionDecided(db: Db, policy: Policy, now: Time, c: Completion, held: Lease)
    requires Jobs(db, policy)
    requires CompleteOutputSet(c.outputs) && HoldsLease(db, now, c.job, held) && Describes(db, c)
    ensures var tx := CompleteAndPromote(db, now, c, held);
            && (tx.Commit? <==> AssetActive(db, c.asset))
            && (tx.Rollback? ==> tx.error == VersionNotPending)
            && (tx.Commit? ==>
                  && tx.value
                  && db.versions[c.version].status.VersionPending?
                  && tx.db.versions[c.version].status.VersionCompleted?
                  && tx.db.versions[c.version].outputs.Keys == MANIFEST
                  && tx.db.assets[c.asset].active == Some(c.version) && tx.db.assets[c.asset].pending.None?
                  && tx.db.jobs[c.job].status.JobCompleted?)
  {
    assert JobSound(db, policy, c.job);
    var stored := db.versions[c.version].outputs;
    InsertedKinds(stored, c.outputs);
    var kinds := set i | 0 <= i < |c.outputs| :: c.outputs[i].kind;
    assert MANIFEST <= kinds;
    assert InsertOutputs(stored, c.outputs).Keys <= MANIFEST by {
      forall k | k in InsertOutputs(stored, c.outputs).Keys ensures k in MANIFEST {
        assert k == Thumbnail || k == Web;
      }
    }
    assert InsertOutputs(stored, c.outputs).Keys == MANIFEST;
  }

  // ---- idempotent creation ----

  /** `s` is the one published session of the request's idempotency key. */
  ghost predicate Admitted(db: Db, request: UploadRequest, s: Id) {
    && AssetAvailable(db, request.org, request.asset)
    && request.org in db.usage
    && IsReplay(db, s, request)
    && db.sessions[s].fingerprint == request.Digest()
    && db.sessions[s].state.IsPublished()
    && forall t :: IsReplay(db, t, request) ==> t == s
  }

  lemma FreshSessionAdmitted(db: Db, request: UploadRequest, options: SessionOptions)
    requires request.org in db.usage && AssetAvailable(db, request.org, request.asset)
    requires forall s :: !IsReplay(db, s, request)
    ensures var tx := AdmitSession(db, request, options); tx.Commit? ==> Admitted(tx.db, request, options.upload)
  {
    var tx := AdmitSession(db, request, options);
    if tx.Commit? {
      forall t | IsReplay(tx.db, t, request) ensures t == options.upload {
        assert !IsReplay(db, t, request);
      }
    }
  }

  lemma ReplayedSessionAdmitted(db: Db, request: UploadRequest, s: Id)
    requires Sessions(db) && AssetAvailable(db, request.org, request.asset) && request.org in db.usage
    requires IsReplay(db, s, request)
    requires db.sessions[s].fingerprint == request.Digest() && db.sessions[s].state.IsPublished()
    ensures Admitted(db, request, s)
  {
    forall t | IsReplay(db, t, request) ensures t == s {
      assert OneSessionPerKey(db, s, t);
    }
  }

  lemma CreateAdmits(db: Db, policy: Policy, request: UploadRequest, options: SessionOptions, clock: Time)
    requires Coherent(db, policy)
    ensures var tx := CreateUploadSession(db, request, options, clock);
            tx.Commit? ==> Admitted(tx.db, request, tx.value.session)
  {
    var tx := CreateUploadSession(db, request, options, clock);
    if tx.Commit? {
      var seated := EnsureUsage(db, request.org, options.defaultQuota);
      EnsureUsagePreserves(db, policy, request.org, options.defaultQuota);
      if tx.value.replayed {
        ReplayedSessionAdmitted(seated, request, tx.value.session);
      } else {
        NoReplayAfterReclaim(seated, request, clock);
        FreshSessionAdmitted(ReclaimExpiredSessions(seated, request.org, request.asset, clock), request, options);
      }
    }
  }

  lemma AdmittedReplays(db: Db, request: UploadRequest, s: Id, options: SessionOptions, clock: Time)
    requires Admitted(db, request, s) && 0 < options.defaultQuota
    ensures CreateUploadSession(db, request, options, clock) == Commit(db, Admission(s, true))
  {
  }

  /** Retrying an admitted request returns the same session and changes nothing. */
  lemma CreateIsIdempotent(db: Db, policy: Policy, request: UploadRequest, options: SessionOptions, clock: Time,
                           retryOptions: SessionOptions, retryClock: Time)
    requires Coherent(db, policy)
    requires 0 < retryOptions.defaultQuota
    ensures var tx := CreateUploadSession(db, request, options, clock);
            tx.Commit? ==>
              CreateUploadSession(tx.db, request, retryOptions, retryClock)
                == Commit(tx.db, Admission(tx.value.session, true))
  {
    var tx := CreateUploadSession(db, request, options, clock);
    if tx.Commit? {
      CreateAdmits(db, policy, request, options, clock);
      AdmittedReplays(tx.db, request, tx.value.session, retryOptions, retryClock);
    }
  }
}
