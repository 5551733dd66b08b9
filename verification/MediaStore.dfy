/**
 The media job store and repository in their own imperative form: tables that
 each transaction updates in place. Every method is proved to have exactly the
 effect and the answer of the transaction function it implements.
 */
module MediaStore {
  import opened Wrappers
  import opened FiniteSums
  import opened MediaTables
  import opened MediaSteps
  import opened MediaInvariant

  datatype Answer<+T> = Answered(value: T) | Refused(error: Error)

  ghost function AnswerOf<T>(tx: Tx<T>): Answer<T> {
    match tx
    case Commit(_, value) => Answered(value)
    case Rollback(error) => Refused(error)
  }

  /** The sweep over a list of candidates, one transaction each; a failed one is skipped. */
  function SweepAll(db: Db, now: Time, candidates: seq<ExpiryCandidate>): Db
    decreases |candidates|
  {
    if candidates == [] then db
    else SweepAll(DbAfter(db, ExpireUploadSession(db, now, candidates[0])), now, candidates[1..])
  }

  lemma OneReplay(db: Db, seated: Db, request: UploadRequest)
    requires forall s, t {:trigger OneSessionPerKey(db, s, t)} :: OneSessionPerKey(db, s, t)
    requires seated.sessions == db.sessions
    ensures forall s, t :: IsReplay(seated, s, request) && IsReplay(seated, t, request) ==> s == t
  {
    forall s, t | IsReplay(seated, s, request) && IsReplay(seated, t, request) ensures s == t {
      assert OneSessionPerKey(db, s, t);
    }
  }

  class Store {
    const policy: Policy
    var usage: map<Id, Usage>
    var sessions: map<Id, Session>
    var versions: map<Id, Version>
    var jobs: map<Id, Job>
    var outbox: map<Id, Event>
    var assets: map<Id, Asset>

    ghost function Snapshot(): Db
      reads this
    {
      Db(usage, sessions, versions, jobs, outbox, assets)
    }

    constructor (policy: Policy)
      ensures this.policy == policy && Snapshot() == EMPTY_DB
    {
      this.policy := policy;
      usage, sessions, versions, jobs, outbox, assets := map[], map[], map[], map[], map[], map[];
    }

    // ---- quota ----

    method ReleaseReservation(org: Id, bytes: nat)
      modifies this`usage
      ensures Snapshot() == MediaSteps.ReleaseReservation(old(Snapshot()), org, bytes)
    {
      if org in usage {
        var row := usage[org];
        usage := usage[org := row.(reserved := Floor(row.reserved - bytes))];
      }
    }

    /** Sums the returned sizes one by one, then releases them in one update. */
    method ReclaimExpiredSessions(org: Id, asset: Id, clock: Time)
      modifies this`usage, this`sessions
      ensures Snapshot() == MediaSteps.ReclaimExpiredSessions(old(Snapshot()), org, asset, clock)
    {
      var lapsed := set s | s in sessions && sessions[s].asset == asset && sessions[s].state.SessionCreated?
                            && sessions[s].org == org && sessions[s].expiresAt <= clock;
      var before := sessions;
      sessions := Expire(sessions, lapsed, clock);
      var returned, total := lapsed, 0;
      while returned != {}
        invariant returned <= lapsed
        invariant sessions == Expire(before, lapsed, clock) && usage == old(usage)
        invariant total + Total(SizesOf(before, returned)) == Total(SizesOf(before, lapsed))
        decreases returned
      {
        var s :| s in returned;
        TotalPeel(SizesOf(before, returned), s);
        assert SizesOf(before, returned) - {s} == SizesOf(before, returned - {s});
        total := total + before[s].expectedSize;
        returned := returned - {s};
      }
      assert SizesOf(before, returned) == map[];
      ghost var expired := Snapshot();
      if total != 0 {
        ReleaseReservation(org, total);
      } else {
        ghost var idle := MediaSteps.ReleaseReservation(Snapshot(), org, 0);
        assert idle.usage == usage;
      }
      assert Snapshot() == MediaSteps.ReleaseReservation(expired, org, total);
      assert lapsed == Lapsed(old(Snapshot()), org, asset, clock);
      assert expired == old(Snapshot()).(sessions := Expire(before, lapsed, clock));
    }

    // ---- upload sessions ----

    method CreateUploadSession(request: UploadRequest, options: SessionOptions, clock: Time)
      returns (r: Answer<Admission>)
      requires forall s, t {:trigger OneSessionPerKey(Snapshot(), s, t)} :: OneSessionPerKey(Snapshot(), s, t)
      modifies this`usage, this`sessions
      ensures var tx := MediaSteps.CreateUploadSession(old(Snapshot()), request, options, clock);
              Snapshot() == DbAfter(old(Snapshot()), tx) && r == AnswerOf(tx)
    {
      if options.defaultQuota <= 0 { return Refused(InvalidQuota); }
      var savedUsage, savedSessions := usage, sessions;
      if request.org !in usage {
        usage := usage[request.org := Usage(options.defaultQuota, 0, 0)];
      }
      ghost var seated := Snapshot();
      assert seated == EnsureUsage(old(Snapshot()), request.org, options.defaultQuota);
      if !AssetAvailable(Db(usage, sessions, versions, jobs, outbox, assets), request.org, request.asset) {
        usage := savedUsage;
        return Refused(AssetNotAvailable);
      }
      assert seated.sessions == old(Snapshot()).sessions;
      OneReplay(old(Snapshot()), seated, request);
      var replay := FindReplay(request);
      assert Snapshot() == seated;
      assert replay.None? ==> !exists s :: IsReplay(seated, s, request);
      if replay.Some? {
        var s := replay.value;
        if sessions[s].fingerprint != request.Digest() || !sessions[s].state.IsPublished() {
          usage := savedUsage;
          return Refused(IdempotencyConflict);
        }
        return Answered(Admission(s, true));
      }
      if assets[request.asset].pending.Some? {
        usage := savedUsage;
        return Refused(UploadInProgress);
      }
      ReclaimExpiredSessions(request.org, request.asset, clock);
      ghost var reclaimed := Snapshot();
      var open := HasOpenSession(request.asset);
      if open {
        usage, sessions := savedUsage, savedSessions;
        return Refused(UploadInProgress);
      }
      var admitted := InsertSession(request, options);
      r := admitted;
      if r.Refused? { usage, sessions := savedUsage, savedSessions; }
    }

    /** The lookup by idempotency key; the unique index leaves at most one row to find. */
    method FindReplay(request: UploadRequest) returns (found: Option<Id>)
      ensures found.Some? ==> IsReplay(Snapshot(), found.value, request)
      ensures found.None? ==> forall s :: !IsReplay(Snapshot(), s, request)
    {
      var replays := set s | s in sessions && IsReplay(Db(usage, sessions, versions, jobs, outbox, assets), s, request);
      if replays == {} {
        forall s ensures !IsReplay(Snapshot(), s, request) { assert s !in replays; }
        return None;
      }
      var s :| s in replays;
      found := Some(s);
    }

    method HasOpenSession(asset: Id) returns (open: bool)
      ensures open <==> exists s :: OpenOn(Snapshot(), s, asset)
    {
      var matching := set s | s in sessions && OpenOn(Db(usage, sessions, versions, jobs, outbox, assets), s, asset);
      open := matching != {};
      if open {
        ghost var s :| s in matching;
        assert OpenOn(Snapshot(), s, asset);
      } else {
        forall s ensures !OpenOn(Snapshot(), s, asset) { assert s !in matching; }
      }
    }

    method InsertSession(request: UploadRequest, options: SessionOptions) returns (r: Answer<Admission>)
      requires request.org in usage
      modifies this`usage, this`sessions
      ensures var tx := AdmitSession(old(Snapshot()), request, options);
              Snapshot() == DbAfter(old(Snapshot()), tx) && r == AnswerOf(tx)
    {
      var row := usage[request.org];
      if row.reserved + row.stored + request.size > row.quota { return Refused(QuotaExceeded); }
      if !(1 <= request.size <= MAX_UPLOAD_BYTES) { return Refused(ConstraintViolation); }
      if options.upload in sessions || exists s :: s in sessions && sessions[s].rawKey == options.rawKey {
        return Refused(UploadInProgress);
      }
      usage := usage[request.org := row.(reserved := row.reserved + request.size)];
      sessions := sessions[options.upload := NewSession(request, options)];
      r := Answered(Admission(options.upload, false));
    }

    method CloseUploadSession(scope: Scope, expiring: bool, clock: Time) returns (r: Answer<()>)
      modifies this`usage, this`sessions
      ensures var tx := MediaSteps.CloseUploadSession(old(Snapshot()), scope, expiring, clock);
              Snapshot() == DbAfter(old(Snapshot()), tx) && r == AnswerOf(tx)
    {
      if scope.org !in usage { return Refused(UploadNotFound); }
      if !InScope(Db(usage, sessions, versions, jobs, outbox, assets), scope) { return Refused(UploadNotFound); }
      var session := sessions[scope.upload];
      if session.state.SessionCommitted? {
        return if expiring then Answered(()) else Refused(UploadStateConflict);
      }
      if !session.state.SessionCreated? || (expiring && clock < session.expiresAt) { return Answered(()); }
      ReleaseReservation(session.org, session.expectedSize);
      var target := if expiring then SessionExpired else SessionCancelled;
      sessions := sessions[scope.upload := session.(state := target, endedAt := Some(clock))];
      r := Answered(());
    }

    method CommitUpload(scope: Scope, attributes: Attributes, ids: CommitIds, clock: Time) returns (r: Answer<bool>)
      modifies this
      ensures var tx := MediaSteps.CommitUpload(old(Snapshot()), scope, attributes, ids, clock);
              Snapshot() == DbAfter(old(Snapshot()), tx) && r == AnswerOf(tx)
    {
      var db := Db(usage, sessions, versions, jobs, outbox, assets);
      if scope.org !in usage { return Refused(LedgerMissing); }
      if !AssetAvailable(db, scope.org, scope.asset) { return Refused(AssetNotAvailable); }
      if !InScope(db, scope) { return Refused(UploadNotFound); }
      var s := sessions[scope.upload];
      if s.state.SessionCommitted? { return Answered(true); }
      if !s.state.SessionCreated? { return Refused(UploadStateConflict); }
      if s.expiresAt <= clock { return Refused(UploadSessionExpired); }
      if !Verified(s, attributes) { return Refused(ObjectMismatch); }
      if assets[scope.asset].pending.Some? { return Refused(UploadInProgress); }
      if !IdsFree(db, ids) { return Refused(ConstraintViolation); }
      versions := versions[ids.version :=
        Version(s.org, s.asset, scope.upload, VersionPending, s.rawKey, true, attributes.size, map[], None)];
      jobs := jobs[ids.job := Job(s.org, s.asset, ids.version, JobQueued, 0, clock, None, None, None)];
      assets := assets[s.asset := assets[s.asset].(pending := Some(ids.version))];
      var row := usage[s.org];
      usage := usage[s.org := row.(reserved := Floor(row.reserved - s.expectedSize), stored := row.stored + attributes.size)];
      sessions := sessions[scope.upload := s.(state := SessionCommitted)];
      outbox := outbox[ids.event := Event(ids.job, EventPending, 0, clock, None, None)];
      r := Answered(false);
    }

    // ---- jobs under leases ----

    method ClaimJob(now: Time, j: Id, owner: string) returns (r: Answer<ClaimResult>)
      modifies this`versions, this`assets, this`jobs
      ensures var tx := MediaSteps.ClaimJob(old(Snapshot()), policy, now, j, owner);
              Snapshot() == DbAfter(old(Snapshot()), tx) && r == AnswerOf(tx)
    {
      if owner == "" { return Refused(OwnerRequired); }
      if j !in jobs { return Refused(JobNotFound); }
      var job := jobs[j];
      var lapsed := job.lease.None? || job.lease.value.expiresAt <= now;
      var working := job.status.JobQueued? || job.status.JobProcessing?;
      if working && job.asset in assets && !assets[job.asset].deleted && job.nextAttemptAt <= now
         && job.isolatedAt.None? && job.attempts < policy.MaxAttempts() && lapsed {
        var lease := Lease(owner, now + policy.leaseTtl);
        job := job.(status := JobProcessing, attempts := job.attempts + 1, lease := Some(lease));
        jobs := jobs[j := job];
        return Answered(Claimed(job, lease));
      }
      if job.status.JobProcessing? && job.isolatedAt.None? && job.attempts >= policy.MaxAttempts() && lapsed {
        FailMediaVersion(j, job.version, job.org, job.asset, ProcessingFailed, now);
        return Answered(ClaimExhausted);
      }
      if job.isolatedAt.Some? { return Refused(JobIsolated); }
      if job.status.JobCompleted? || job.status.JobFailed? { return Refused(JobTerminal); }
      if !lapsed { return Refused(JobLeased); }
      if job.attempts >= policy.MaxAttempts() { return Refused(JobExhausted); }
      if now < job.nextAttemptAt { return Refused(JobNotDue); }
      return Refused(JobNotClaimed);
    }

    method FailMediaVersion(j: Id, version: Id, org: Id, asset: Id, code: ErrorCode, now: Time)
      requires j in jobs
      modifies this`versions, this`assets, this`jobs
      ensures Snapshot() == MediaSteps.FailMediaVersion(old(Snapshot()), j, version, org, asset, code, now)
    {
      if version in versions && versions[version].org == org {
        versions := versions[version := versions[version].(status := VersionFailed, failedAt := Some(now))];
      }
      if asset in assets && assets[asset].pending == Some(version) {
        assets := assets[asset := assets[asset].(pending := None)];
      }
      jobs := jobs[j := jobs[j].(status := JobFailed, lease := None, lastError := Some(code))];
    }

    method LockLeasedJob(now: Time, j: Id, held: Lease) returns (leased: bool)
      ensures leased == HoldsLease(Snapshot(), now, j, held)
    {
      leased := j in jobs && jobs[j].status.JobProcessing? && jobs[j].lease == Some(held) && now < held.expiresAt;
    }

    method RenewLease(now: Time, j: Id, held: Lease) returns (r: Answer<Lease>)
      modifies this`jobs
      ensures var tx := MediaSteps.RenewLease(old(Snapshot()), policy, now, j, held);
              Snapshot() == DbAfter(old(Snapshot()), tx) && r == AnswerOf(tx)
    {
      var leased := LockLeasedJob(now, j, held);
      if !leased { return Refused(LeaseNotHeld); }
      var renewed := Lease(held.owner, now + policy.leaseTtl);
      jobs := jobs[j := jobs[j].(lease := Some(renewed))];
      r := Answered(renewed);
    }

    method InsertEvent(event: Id, j: Id, dueAt: Time) returns (inserted: bool)
      modifies this`outbox
      ensures var tx := MediaSteps.InsertEvent(old(Snapshot()), event, j, dueAt);
              Snapshot() == DbAfter(old(Snapshot()), tx) && inserted == tx.Commit?
              && (tx.Rollback? ==> tx.error == ConstraintViolation)
    {
      inserted := event !in outbox && !exists e :: e in outbox && outbox[e].job == j && outbox[e].Unpublished();
      if inserted {
        outbox := outbox[event := Event(j, EventPending, 0, dueAt, None, None)];
      }
    }

    method SettleExecutionFailure(now: Time, j: Id, claimed: Job, held: Lease, event: Id) returns (r: Answer<bool>)
      modifies this`versions, this`assets, this`jobs, this`outbox
      ensures var tx := MediaSteps.SettleExecutionFailure(old(Snapshot()), policy, now, j, claimed, held, event);
              Snapshot() == DbAfter(old(Snapshot()), tx) && r == AnswerOf(tx)
    {
      var leased := LockLeasedJob(now, j, held);
      if !leased { return Answered(false); }
      var job := jobs[j];
      if job.org != claimed.org || job.asset != claimed.asset || job.version != claimed.version
         || job.attempts != claimed.attempts { return Refused(JobNotClaimed); }
      if job.attempts >= policy.MaxAttempts() {
        FailMediaVersion(j, job.version, job.org, job.asset, ProcessingFailed, now);
        return Answered(true);
      }
      if job.attempts == 0 || job.attempts - 1 >= |policy.delays| { return Refused(NoRetryDelay); }
      var due := now + policy.delays[job.attempts - 1];
      if job.version !in versions { return Refused(VersionNotFound); }
      jobs := jobs[j := job.(status := JobQueued, nextAttemptAt := due, lease := None, lastError := Some(ProcessingFailed))];
      var inserted := InsertEvent(event, j, due);
      if !inserted {
        jobs := jobs[j := job];
        assert jobs == old(jobs);
        return Refused(ConstraintViolation);
      }
      r := Answered(true);
    }

    /** `requireCompleteOutputSet`: no kind twice, none of the manifest missing. */
    static method RequireCompleteOutputSet(outputs: seq<Output>) returns (complete: bool)
      ensures complete == CompleteOutputSet(outputs)
    {
      var seen: set<OutputKind> := {};
      for i := 0 to |outputs|
        invariant seen == set k | 0 <= k < i :: outputs[k].kind
        invariant forall k, l :: 0 <= k < l < i ==> outputs[k].kind != outputs[l].kind
      {
        if outputs[i].kind in seen {
          var k :| 0 <= k < i && outputs[k].kind == outputs[i].kind;
          return false;
        }
        seen := seen + {outputs[i].kind};
      }
      complete := MANIFEST <= seen;
      if !complete {
        ghost var missing :| missing in MANIFEST && missing !in seen;
      }
    }

    method InsertOutputs(version: Id, outputs: seq<Output>)
      requires version in versions
      modifies this`versions
      ensures versions == old(versions)[version :=
                old(versions)[version].(outputs := MediaSteps.InsertOutputs(old(versions)[version].outputs, outputs))]
    {
      var stored := versions[version].outputs;
      ghost var first := stored;
      for i := 0 to |outputs|
        invariant MediaSteps.InsertOutputs(stored, outputs[i..]) == MediaSteps.InsertOutputs(first, outputs)
      {
        assert outputs[i..][1..] == outputs[i + 1..];
        if outputs[i].kind !in stored {
          stored := stored[outputs[i].kind := outputs[i].key];
        }
      }
      assert outputs[|outputs|..] == [];
      versions := versions[version := versions[version].(outputs := stored)];
    }

    /** The guarded update of the version row; it may match nothing. */
    method MarkCompleted(c: Completion)
      requires c.version in versions
      modifies this`versions
      ensures
        var version := old(versions)[c.version];
        versions == old(versions)[c.version :=
          if version.org == c.org && version.status.VersionPending? && AssetActive(old(Snapshot()), version.asset)
          then version.(status := VersionCompleted) else version]
    {
      var version := versions[c.version];
      if version.org == c.org && version.status.VersionPending? && version.asset in assets && !assets[version.asset].deleted {
        versions := versions[c.version := version.(status := VersionCompleted)];
      }
    }

    method CompleteAndPromote(now: Time, c: Completion, held: Lease) returns (r: Answer<bool>)
      modifies this`versions, this`assets, this`jobs
      ensures var tx := MediaSteps.CompleteAndPromote(old(Snapshot()), now, c, held);
              Snapshot() == DbAfter(old(Snapshot()), tx) && r == AnswerOf(tx)
    {
      var complete := RequireCompleteOutputSet(c.outputs);
      if !complete { return Refused(IncompleteOutputSet); }
      var leased := LockLeasedJob(now, c.job, held);
      if !leased { return Answered(false); }
      if c.version !in versions { return Refused(ConstraintViolation); }
      var saved := versions;
      InsertOutputs(c.version, c.outputs);
      if |versions[c.version].outputs.Keys| != |MANIFEST| {
        versions := saved;
        return Refused(IncompleteOutputSet);
      }
      MarkCompleted(c);
      if c.asset !in assets || assets[c.asset].pending != Some(c.version) || assets[c.asset].deleted {
        versions := saved;
        return Refused(VersionNotPending);
      }
      assets := assets[c.asset := assets[c.asset].(active := Some(c.version), pending := None)];
      jobs := jobs[c.job := jobs[c.job].(status := JobCompleted, lease := None)];
      r := Answered(true);
    }

    method FailVersion(now: Time, f: Failure, held: Lease) returns (r: Answer<bool>)
      modifies this`versions, this`assets, this`jobs
      ensures var tx := MediaSteps.FailVersion(old(Snapshot()), now, f, held);
              Snapshot() == DbAfter(old(Snapshot()), tx) && r == AnswerOf(tx)
    {
      var leased := LockLeasedJob(now, f.job, held);
      if leased { FailMediaVersion(f.job, f.version, f.org, f.asset, f.code, now); }
      r := Answered(leased);
    }

    // ---- dead letters, reconciliation, relay ----

    method IsolateNotification(now: Time, j: Id)
      modifies this`jobs
      ensures Snapshot() == MediaSteps.IsolateNotification(old(Snapshot()), now, j)
    {
      if j in jobs && (jobs[j].status.JobQueued? || jobs[j].status.JobProcessing?) && jobs[j].isolatedAt.None? {
        jobs := jobs[j := jobs[j].(status := JobFailed, lease := None, lastError := Some(NotificationIsolated),
                                   isolatedAt := Some(now))];
      }
    }

    method RebuildAndEnqueue(now: Time, j: Id, operatorKnown: bool, event: Id) returns (r: Answer<()>)
      modifies this`jobs, this`outbox
      ensures var tx := MediaSteps.RebuildAndEnqueue(old(Snapshot()), now, j, operatorKnown, event);
              Snapshot() == DbAfter(old(Snapshot()), tx) && r == AnswerOf(tx)
    {
      if j !in jobs { return Refused(NotIsolated); }
      var job := jobs[j];
      if job.isolatedAt.None? || job.lastError != Some(NotificationIsolated) { return Refused(NotIsolated); }
      if !operatorKnown { return Refused(OperatorUnknown); }
      if job.version !in versions || job.asset !in assets { return Refused(VersionNotFound); }
      jobs := jobs[j := job.(status := JobQueued, lease := None, nextAttemptAt := now, lastError := None,
                             isolatedAt := None)];
      var inserted := InsertEvent(event, j, now);
      if !inserted {
        jobs := jobs[j := job];
        assert jobs == old(jobs);
        return Refused(ConstraintViolation);
      }
      r := Answered(());
    }

    /** The loop over the selected candidates; counts the events that were really inserted. */
    method ReconcileStaleDispatches(now: Time, staleAfter: nat, picks: seq<Pick>) returns (inserted: nat)
      requires forall i :: 0 <= i < |picks| ==> Stale(Snapshot(), now, staleAfter, picks[i].job)
      modifies this`outbox
      ensures Snapshot() == Reconcile(old(Snapshot()), now, staleAfter, picks)
      ensures inserted <= |picks|
    {
      inserted := 0;
      for i := 0 to |picks|
        invariant inserted <= i
        invariant Redispatch(Snapshot(), now, picks[i..]) == Redispatch(old(Snapshot()), now, picks)
      {
        assert picks[i..][0] == picks[i] && picks[i..][1..] == picks[i + 1..];
        var created := InsertEvent(picks[i].event, picks[i].job, now);
        if created { inserted := inserted + 1; }
      }
      assert picks[|picks|..] == [];
    }

    method ClaimEvents(now: Time, ttl: nat, owner: string, chosen: set<Id>)
      modifies this`outbox
      ensures Snapshot() == MediaSteps.ClaimEvents(old(Snapshot()), now, ttl, owner, chosen)
    {
      outbox := map e | e in outbox ::
        if e in chosen && EventClaimable(outbox[e], now)
        then outbox[e].(status := EventPublishing, lease := Some(Lease(owner, now + ttl)))
        else outbox[e];
    }

    method MarkPublished(now: Time, e: Id, held: Lease, at: Time) returns (applied: bool)
      modifies this`outbox
      ensures Snapshot() == MediaSteps.MarkPublished(old(Snapshot()), now, e, held, at)
      ensures applied == HoldsEvent(old(Snapshot()), now, e, held)
    {
      applied := e in outbox && outbox[e].status.EventPublishing? && outbox[e].lease == Some(held) && now < held.expiresAt;
      if applied {
        outbox := outbox[e := outbox[e].(status := EventPublished, publishedAt := Some(at), lease := None)];
      }
    }

    method Reschedule(now: Time, e: Id, held: Lease, dueAt: Time, attempts: nat) returns (applied: bool)
      modifies this`outbox
      ensures Snapshot() == RescheduleEvent(old(Snapshot()), now, e, held, dueAt, attempts)
      ensures applied == HoldsEvent(old(Snapshot()), now, e, held)
    {
      applied := e in outbox && outbox[e].status.EventPublishing? && outbox[e].lease == Some(held) && now < held.expiresAt;
      if applied {
        outbox := outbox[e := outbox[e].(status := EventPending, nextAttemptAt := dueAt, attempts := attempts, lease := None)];
      }
    }

    // ---- sweeps ----

    method ExpireUploadSession(now: Time, c: ExpiryCandidate) returns (r: Answer<bool>)
      modifies this`usage, this`sessions
      ensures var tx := MediaSteps.ExpireUploadSession(old(Snapshot()), now, c);
              Snapshot() == DbAfter(old(Snapshot()), tx) && r == AnswerOf(tx)
    {
      if c.org !in usage { return Refused(LedgerMissing); }
      if c.upload in sessions && sessions[c.upload].org == c.org && sessions[c.upload].state.SessionCreated?
         && sessions[c.upload].expiresAt <= now {
        sessions := sessions[c.upload := sessions[c.upload].(state := SessionExpired, endedAt := Some(now))];
        ReleaseReservation(c.org, c.size);
        return Answered(true);
      }
      r := Answered(false);
    }

    /** One transaction per candidate; a failure is counted and the sweep goes on. */
    method ExpireUploadSessions(now: Time, candidates: seq<ExpiryCandidate>) returns (expired: nat, failed: nat)
      modifies this`usage, this`sessions
      ensures Snapshot() == SweepAll(old(Snapshot()), now, candidates)
      ensures expired + failed <= |candidates|
    {
      expired, failed := 0, 0;
      for i := 0 to |candidates|
        invariant expired + failed <= i
        invariant SweepAll(Snapshot(), now, candidates[i..]) == SweepAll(old(Snapshot()), now, candidates)
      {
        assert candidates[i..][0] == candidates[i] && candidates[i..][1..] == candidates[i + 1..];
        var r := ExpireUploadSession(now, candidates[i]);
        match r {
          case Answered(transitioned) => if transitioned { expired := expired + 1; }
          case Refused(_) => failed := failed + 1;
        }
      }
      assert candidates[|candidates|..] == [];
    }

    method MarkMediaObjectsPurged(c: PurgeClaim) returns (r: Answer<bool>)
      modifies this`usage, this`sessions, this`versions
      ensures var tx := MediaSteps.MarkMediaObjectsPurged(old(Snapshot()), c);
              Snapshot() == DbAfter(old(Snapshot()), tx) && r == AnswerOf(tx)
    {
      if c.storedBytes > 0 && c.org !in usage { return Refused(LedgerMissing); }
      if c.upload !in sessions || sessions[c.upload].org != c.org || sessions[c.upload].purged { return Answered(false); }
      sessions := sessions[c.upload := sessions[c.upload].(purged := true)];
      if c.version.Some? {
        var v := c.version.value;
        if v in versions { versions := versions[v := versions[v].(outputs := map[], retained := false)]; }
        if c.storedBytes > 0 {
          var row := usage[c.org];
          usage := usage[c.org := row.(stored := Floor(row.stored - c.storedBytes))];
        }
      }
      r := Answered(true);
    }

    /** `COALESCE(sum(weight), 0)` over a selection, row by row. */
    static method SumRows(rows: map<Id, nat>) returns (total: nat)
      ensures total == Total(rows)
    {
      var rest := rows;
      total := 0;
      while rest != map[]
        invariant total + Total(rest) == Total(rows)
        decreases |rest|
      {
        var k :| k in rest;
        TotalPeel(rest, k);
        CardinalityOfRemoval(rest, k);
        total := total + rest[k];
        rest := rest - {k};
      }
    }

    /** The foreign-key order of the teardown statements. */
    method TearDownRows(asset: Id, unit: Id)
      modifies this`sessions, this`versions, this`jobs, this`outbox, this`assets
      ensures Snapshot() == Teardown(old(Snapshot()), asset, unit)
    {
      var db := Db(usage, sessions, versions, jobs, outbox, assets);
      if asset in assets {
        assets := assets[asset := assets[asset].(active := None, pending := None)];
      }
      outbox := outbox - EventsOf(db, asset);
      jobs := jobs - JobsOf(db, asset);
      versions := versions - VersionsOf(db, asset);
      sessions := sessions - SessionsOf(db, asset);
      if asset in assets && assets[asset].unit == Some(unit) && assets[asset].deleted {
        assets := assets - {asset};
      }
      assert assets == Teardown(db, asset, unit).assets;
    }

    method FinalizePurgeAsset(org: Id, asset: Id, unit: Id) returns (r: Answer<()>)
      modifies this
      ensures var tx := MediaSteps.FinalizePurgeAsset(old(Snapshot()), org, asset, unit);
              Snapshot() == DbAfter(old(Snapshot()), tx) && r == AnswerOf(tx)
    {
      var db := Db(usage, sessions, versions, jobs, outbox, assets);
      var storedBytes := SumRows(RetainedRows(db, asset));
      var reservedBytes := SumRows(OpenRows(db, org, asset));
      if (storedBytes > 0 || reservedBytes > 0) && org !in usage { return Refused(LedgerMissing); }
      TearDownRows(asset, unit);
      if storedBytes > 0 || reservedBytes > 0 {
        var row := usage[org];
        usage := usage[org := row.(reserved := Floor(row.reserved - reservedBytes), stored := Floor(row.stored - storedBytes))];
      }
      r := Answered(());
    }
  }
}
