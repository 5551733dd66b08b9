/**
 Every media transaction as a function of the tables it runs on. A transaction
 commits a new database or rolls back with an error and changes nothing.
 `now` is the database's `statement_timestamp()`, `clock` the repository clock.
 */
module MediaSteps {
  import opened Wrappers
  import opened FiniteSums
  import opened MediaTables

  datatype Error =
    | InvalidQuota | AssetNotAvailable | IdempotencyConflict | UploadInProgress | QuotaExceeded
    | UploadNotFound | UploadStateConflict | UploadSessionExpired | ObjectMismatch | LedgerMissing
    | ConstraintViolation | OwnerRequired
    | JobNotFound | JobTerminal | JobIsolated | JobLeased | JobNotDue | JobExhausted | JobNotClaimed
    | LeaseNotHeld | NoRetryDelay | VersionNotFound | IncompleteOutputSet | VersionNotPending
    | NotIsolated | OperatorUnknown

  datatype Tx<+T> = Commit(db: Db, value: T) | Rollback(error: Error)

  /** A rolled-back transaction leaves the database as it was. */
  function DbAfter<T>(db: Db, tx: Tx<T>): Db {
    if tx.Commit? then tx.db else db
  }

  function Floor(n: int): nat { if n < 0 then 0 else n }

  // ------------------------------------------------------------------
  // Quota ledger
  // ------------------------------------------------------------------

  function EnsureUsage(db: Db, org: Id, defaultQuota: nat): Db {
    if org in db.usage then db else db.(usage := db.usage[org := Usage(defaultQuota, 0, 0)])
  }

  /** `GREATEST(reserved - bytes, 0)`; no row, no effect. */
  function ReleaseReservation(db: Db, org: Id, bytes: int): Db {
    if org !in db.usage then db
    else
      var u := db.usage[org];
      db.(usage := db.usage[org := u.(reserved := Floor(u.reserved - bytes))])
  }

  function ConvertReservation(db: Db, org: Id, reservedBytes: nat, actualBytes: nat): Db {
    if org !in db.usage then db
    else
      var u := db.usage[org];
      db.(usage := db.usage[org :=
            u.(reserved := Floor(u.reserved - reservedBytes), stored := u.stored + actualBytes)])
  }

  function ReleaseStored(db: Db, org: Id, bytes: nat): Db {
    if org !in db.usage then db
    else
      var u := db.usage[org];
      db.(usage := db.usage[org := u.(stored := Floor(u.stored - bytes))])
  }

  // ------------------------------------------------------------------
  // Upload sessions
  // ------------------------------------------------------------------

  datatype UploadRequest = UploadRequest(
    org: Id, asset: Id, requestedBy: Id, idempotencyKey: Id, filename: string, contentType: ContentType,
    size: int, checksum: Checksum)
  {
    function Digest(): Fingerprint { Fingerprint(asset, filename, contentType, size, checksum) }
  }

  datatype SessionOptions = SessionOptions(upload: Id, rawKey: ObjectKey, defaultQuota: int, expiresAt: Time)

  datatype Admission = Admission(session: Id, replayed: bool)

  predicate AssetAvailable(db: Db, org: Id, asset: Id) {
    && asset in db.assets
    && db.assets[asset].org == org
    && !db.assets[asset].deleted
    && !db.assets[asset].folderDeleted
  }

  predicate IsReplay(db: Db, s: Id, request: UploadRequest) {
    && s in db.sessions
    && db.sessions[s].org == request.org
    && db.sessions[s].asset == request.asset
    && db.sessions[s].requestedBy == request.requestedBy
    && db.sessions[s].idempotencyKey == request.idempotencyKey
  }

  predicate OpenOn(db: Db, s: Id, asset: Id) {
    s in db.sessions && db.sessions[s].asset == asset && db.sessions[s].state.SessionCreated?
  }

  /** The created sessions of one asset whose deadline has passed. */
  function Lapsed(db: Db, org: Id, asset: Id, clock: Time): set<Id> {
    set s | s in db.sessions && OpenOn(db, s, asset) && db.sessions[s].org == org && db.sessions[s].expiresAt <= clock
  }

  function Expire(sessions: map<Id, Session>, lapsed: set<Id>, clock: Time): map<Id, Session> {
    map s | s in sessions ::
      if s in lapsed then sessions[s].(state := SessionExpired, endedAt := Some(clock)) else sessions[s]
  }

  function SizesOf(sessions: map<Id, Session>, chosen: set<Id>): map<Id, nat> {
    map s | s in sessions && s in chosen :: sessions[s].expectedSize
  }

  ghost function ReclaimExpiredSessions(db: Db, org: Id, asset: Id, clock: Time): Db {
    var lapsed := Lapsed(db, org, asset, clock);
    ReleaseReservation(db.(sessions := Expire(db.sessions, lapsed, clock)), org, Total(SizesOf(db.sessions, lapsed)))
  }

  predicate KeysFree(db: Db, options: SessionOptions) {
    && options.upload !in db.sessions
    && forall s :: s in db.sessions ==> db.sessions[s].rawKey != options.rawKey
  }

  function NewSession(request: UploadRequest, options: SessionOptions): Session
    requires 0 <= request.size
  {
    Session(request.org, request.asset, request.requestedBy, request.idempotencyKey, request.Digest(),
            SessionCreated, request.contentType, request.size, request.checksum, options.rawKey,
            options.expiresAt, None, false)
  }

  /** The insert half of admission, after reclaiming and the in-progress checks. */
  ghost function AdmitSession(db: Db, request: UploadRequest, options: SessionOptions): Tx<Admission>
    requires request.org in db.usage
  {
    var u := db.usage[request.org];
    if u.reserved + u.stored + request.size > u.quota then Rollback(QuotaExceeded)
    else if !(1 <= request.size <= MAX_UPLOAD_BYTES) then Rollback(ConstraintViolation)
    else if !KeysFree(db, options) then Rollback(UploadInProgress)
    else
      Commit(
        db.(usage := db.usage[request.org := u.(reserved := u.reserved + request.size)],
            sessions := db.sessions[options.upload := NewSession(request, options)]),
        Admission(options.upload, false))
  }

  ghost function CreateUploadSession(db: Db, request: UploadRequest, options: SessionOptions, clock: Time): Tx<Admission>
  {
    if options.defaultQuota <= 0 then Rollback(InvalidQuota)
    else
      var seated := EnsureUsage(db, request.org, options.defaultQuota);
      if !AssetAvailable(seated, request.org, request.asset) then Rollback(AssetNotAvailable)
      else if exists s :: IsReplay(seated, s, request) then
        var s :| IsReplay(seated, s, request);
        if seated.sessions[s].fingerprint != request.Digest() || !seated.sessions[s].state.IsPublished()
        then Rollback(IdempotencyConflict)
        else Commit(seated, Admission(s, true))
      else if seated.assets[request.asset].pending.Some? then Rollback(UploadInProgress)
      else
        var reclaimed := ReclaimExpiredSessions(seated, request.org, request.asset, clock);
        if exists s :: OpenOn(reclaimed, s, request.asset) then Rollback(UploadInProgress)
        else AdmitSession(reclaimed, request, options)
  }

  datatype Scope = Scope(org: Id, asset: Id, upload: Id, requestedBy: Option<Id>)

  predicate InScope(db: Db, scope: Scope) {
    && scope.upload in db.sessions
    && db.sessions[scope.upload].org == scope.org
    && db.sessions[scope.upload].asset == scope.asset
    && (scope.requestedBy.Some? ==> db.sessions[scope.upload].requestedBy == scope.requestedBy.value)
  }

  /** Cancel (`expiring` false) or expire (`expiring` true) one open session. */
  function CloseUploadSession(db: Db, scope: Scope, expiring: bool, clock: Time): Tx<()> {
    if scope.org !in db.usage then Rollback(UploadNotFound)
    else if !InScope(db, scope) then Rollback(UploadNotFound)
    else
      var session := db.sessions[scope.upload];
      match session.state
      case SessionCancelled | SessionExpired | SessionFailed => Commit(db, ())
      case SessionCommitted => if expiring then Commit(db, ()) else Rollback(UploadStateConflict)
      case SessionCreated =>
        if expiring && clock < session.expiresAt then Commit(db, ())
        else
          var target := if expiring then SessionExpired else SessionCancelled;
          Commit(ReleaseReservation(
                   db.(sessions := db.sessions[scope.upload := session.(state := target, endedAt := Some(clock))]),
                   session.org, session.expectedSize), ())
  }

  datatype Attributes = Attributes(size: int, contentType: ContentType, checksum: Checksum)

  predicate Verified(session: Session, attributes: Attributes) {
    && attributes.size == session.expectedSize
    && attributes.contentType == session.contentType
    && attributes.checksum == session.checksum
  }

  datatype CommitIds = CommitIds(version: Id, job: Id, event: Id)

  predicate IdsFree(db: Db, ids: CommitIds) {
    ids.version !in db.versions && ids.job !in db.jobs && ids.event !in db.outbox
  }

  /** The accepted half of a commit: version, job, pointer, ledger, session and outbox row. */
  function AcceptUpload(db: Db, upload: Id, ids: CommitIds, clock: Time): Db
    requires upload in db.sessions && db.sessions[upload].asset in db.assets
  {
    var s := db.sessions[upload];
    var version := Version(s.org, s.asset, upload, VersionPending, s.rawKey, true, s.expectedSize, map[], None);
    var job := Job(s.org, s.asset, ids.version, JobQueued, 0, clock, None, None, None);
    ConvertReservation(
      db.(versions := db.versions[ids.version := version],
          jobs := db.jobs[ids.job := job],
          assets := db.assets[s.asset := db.assets[s.asset].(pending := Some(ids.version))],
          sessions := db.sessions[upload := s.(state := SessionCommitted)],
          outbox := db.outbox[ids.event := Event(ids.job, EventPending, 0, clock, None, None)]),
      s.org, s.expectedSize, s.expectedSize)
  }

  function CommitUpload(db: Db, scope: Scope, attributes: Attributes, ids: CommitIds, clock: Time): Tx<bool> {
    if scope.org !in db.usage then Rollback(LedgerMissing)
    else if !AssetAvailable(db, scope.org, scope.asset) then Rollback(AssetNotAvailable)
    else if !InScope(db, scope) then Rollback(UploadNotFound)
    else
      var s := db.sessions[scope.upload];
      if s.state.SessionCommitted? then Commit(db, true)
      else if !s.state.SessionCreated? then Rollback(UploadStateConflict)
      else if s.expiresAt <= clock then Rollback(UploadSessionExpired)
      else if !Verified(s, attributes) then Rollback(ObjectMismatch)
      else if db.assets[scope.asset].pending.Some? then Rollback(UploadInProgress)
      else if !IdsFree(db, ids) then Rollback(ConstraintViolation)
      else Commit(AcceptUpload(db, scope.upload, ids, clock), false)
  }

  // ------------------------------------------------------------------
  // Processing jobs under leases
  // ------------------------------------------------------------------

  predicate AssetActive(db: Db, asset: Id) {
    asset in db.assets && !db.assets[asset].deleted
  }

  predicate Claimable(db: Db, policy: Policy, now: Time, j: Id) {
    && j in db.jobs
    && var job := db.jobs[j];
       && (job.status.JobQueued? || job.status.JobProcessing?)
       && AssetActive(db, job.asset)
       && job.nextAttemptAt <= now
       && job.isolatedAt.None?
       && job.attempts < policy.MaxAttempts()
       && job.LeaseLapsed(now)
  }

  predicate ExhaustedClaim(db: Db, policy: Policy, now: Time, j: Id) {
    && j in db.jobs
    && var job := db.jobs[j];
       && job.status.JobProcessing?
       && job.isolatedAt.None?
       && job.attempts >= policy.MaxAttempts()
       && job.LeaseLapsed(now)
  }

  /** The unguarded terminal failure shared by three transactions. */
  function FailMediaVersion(db: Db, j: Id, version: Id, org: Id, asset: Id, code: ErrorCode, now: Time): Db
    requires j in db.jobs
  {
    db.(versions :=
          if version in db.versions && db.versions[version].org == org
          then db.versions[version := db.versions[version].(status := VersionFailed, failedAt := Some(now))]
          else db.versions,
        assets :=
          if asset in db.assets && db.assets[asset].pending == Some(version)
          then db.assets[asset := db.assets[asset].(pending := None)]
          else db.assets,
        jobs := db.jobs[j := db.jobs[j].(status := JobFailed, lease := None, lastError := Some(code))])
  }

  function FailExhausted(db: Db, j: Id, now: Time): Db
    requires j in db.jobs
  {
    var job := db.jobs[j];
    FailMediaVersion(db, j, job.version, job.org, job.asset, ProcessingFailed, now)
  }

  /** Why a claim that matched no row was refused. */
  function ExplainRefusal(db: Db, policy: Policy, now: Time, j: Id): Error {
    if j !in db.jobs then JobNotFound
    else
      var job := db.jobs[j];
      if job.isolatedAt.Some? then JobIsolated
      else if job.status.JobCompleted? || job.status.JobFailed? then JobTerminal
      else if job.lease.Some? && now < job.lease.value.expiresAt then JobLeased
      else if job.attempts >= policy.MaxAttempts() then JobExhausted
      else if now < job.nextAttemptAt then JobNotDue
      else JobNotClaimed
  }

  datatype ClaimResult = Claimed(job: Job, lease: Lease) | ClaimExhausted

  function ClaimedJob(job: Job, policy: Policy, now: Time, owner: string): Job {
    job.(status := JobProcessing, attempts := job.attempts + 1, lease := Some(Lease(owner, now + policy.leaseTtl)))
  }

  function ClaimJob(db: Db, policy: Policy, now: Time, j: Id, owner: string): Tx<ClaimResult> {
    if owner == "" then Rollback(OwnerRequired)
    else if Claimable(db, policy, now, j) then
      var claimed := ClaimedJob(db.jobs[j], policy, now, owner);
      Commit(db.(jobs := db.jobs[j := claimed]), Claimed(claimed, claimed.lease.value))
    else if ExhaustedClaim(db, policy, now, j) then Commit(FailExhausted(db, j, now), ClaimExhausted)
    else Rollback(ExplainRefusal(db, policy, now, j))
  }

  predicate HoldsLease(db: Db, now: Time, j: Id, held: Lease) {
    && j in db.jobs
    && db.jobs[j].status.JobProcessing?
    && db.jobs[j].lease == Some(held)
    && now < held.expiresAt
  }

  function RenewLease(db: Db, policy: Policy, now: Time, j: Id, held: Lease): Tx<Lease> {
    if !HoldsLease(db, now, j, held) then Rollback(LeaseNotHeld)
    else
      var renewed := Lease(held.owner, now + policy.leaseTtl);
      Commit(db.(jobs := db.jobs[j := db.jobs[j].(lease := Some(renewed))]), renewed)
  }

  predicate HasUnpublished(db: Db, j: Id) {
    exists e :: e in db.outbox && db.outbox[e].job == j && db.outbox[e].Unpublished()
  }

  /** Insert of an outbox row under the one-unpublished-event-per-job index. */
  function InsertEvent(db: Db, event: Id, j: Id, dueAt: Time): Tx<()> {
    if event in db.outbox || HasUnpublished(db, j) then Rollback(ConstraintViolation)
    else Commit(db.(outbox := db.outbox[event := Event(j, EventPending, 0, dueAt, None, None)]), ())
  }

  function SettleExecutionFailure(
    db: Db, policy: Policy, now: Time, j: Id, claimed: Job, held: Lease, event: Id): Tx<bool>
  {
    if !HoldsLease(db, now, j, held) then Commit(db, false)
    else
      var job := db.jobs[j];
      if job.org != claimed.org || job.asset != claimed.asset || job.version != claimed.version
         || job.attempts != claimed.attempts
      then Rollback(JobNotClaimed)
      else if job.attempts >= policy.MaxAttempts() then Commit(FailExhausted(db, j, now), true)
      else if job.attempts == 0 || job.attempts - 1 >= |policy.delays| then Rollback(NoRetryDelay)
      else
        var due := now + policy.delays[job.attempts - 1];
        var queued := job.(status := JobQueued, nextAttemptAt := due, lease := None,
                           lastError := Some(ProcessingFailed));
        if job.version !in db.versions then Rollback(VersionNotFound)
        else
          match InsertEvent(db.(jobs := db.jobs[j := queued]), event, j, due)
          case Rollback(error) => Rollback(error)
          case Commit(settled, _) => Commit(settled, true)
  }

  datatype Output = Output(kind: OutputKind, key: ObjectKey)

  datatype Completion = Completion(job: Id, version: Id, org: Id, asset: Id, outputs: seq<Output>)

  /** Exactly one output of each kind. */
  predicate CompleteOutputSet(outputs: seq<Output>) {
    && (forall i, k :: 0 <= i < k < |outputs| ==> outputs[i].kind != outputs[k].kind)
    && (forall kind :: kind in MANIFEST ==> exists i :: 0 <= i < |outputs| && outputs[i].kind == kind)
  }

  /** `ON CONFLICT (version_id, kind) DO NOTHING`, one output after another. */
  function InsertOutputs(stored: map<OutputKind, ObjectKey>, outputs: seq<Output>): map<OutputKind, ObjectKey>
    decreases |outputs|
  {
    if outputs == [] then stored
    else
      var first := outputs[0];
      InsertOutputs(if first.kind in stored then stored else stored[first.kind := first.key], outputs[1..])
  }

  function PromotedDb(db: Db, c: Completion, outputs: map<OutputKind, ObjectKey>): Db
    requires c.job in db.jobs && c.version in db.versions && c.asset in db.assets
  {
    var version := db.versions[c.version];
    var finished :=
      if version.org == c.org && version.status.VersionPending? && AssetActive(db, version.asset)
      then version.(status := VersionCompleted) else version;
    db.(versions := db.versions[c.version := finished.(outputs := outputs)],
        assets := db.assets[c.asset := db.assets[c.asset].(active := Some(c.version), pending := None)],
        jobs := db.jobs[c.job := db.jobs[c.job].(status := JobCompleted, lease := None)])
  }

  function CompleteAndPromote(db: Db, now: Time, c: Completion, held: Lease): Tx<bool> {
    if !CompleteOutputSet(c.outputs) then Rollback(IncompleteOutputSet)
    else if !HoldsLease(db, now, c.job, held) then Commit(db, false)
    else if c.version !in db.versions then Rollback(ConstraintViolation)
    else
      var outputs := InsertOutputs(db.versions[c.version].outputs, c.outputs);
      if |outputs.Keys| != |MANIFEST| then Rollback(IncompleteOutputSet)
      else if c.asset !in db.assets || db.assets[c.asset].pending != Some(c.version) || db.assets[c.asset].deleted
      then Rollback(VersionNotPending)
      else Commit(PromotedDb(db, c, outputs), true)
  }

  datatype Failure = Failure(job: Id, version: Id, org: Id, asset: Id, code: ErrorCode)

  function FailVersion(db: Db, now: Time, f: Failure, held: Lease): Tx<bool> {
    if !HoldsLease(db, now, f.job, held) then Commit(db, false)
    else Commit(FailMediaVersion(db, f.job, f.version, f.org, f.asset, f.code, now), true)
  }

  // ------------------------------------------------------------------
  // Dead letters, reconciliation and the outbox
  // ------------------------------------------------------------------

  function IsolateNotification(db: Db, now: Time, j: Id): Db {
    if j in db.jobs && (db.jobs[j].status.JobQueued? || db.jobs[j].status.JobProcessing?)
       && db.jobs[j].isolatedAt.None?
    then
      db.(jobs := db.jobs[j := db.jobs[j].(status := JobFailed, lease := None,
                                           lastError := Some(NotificationIsolated), isolatedAt := Some(now))])
    else db
  }

  function RebuildAndEnqueue(db: Db, now: Time, j: Id, operatorKnown: bool, event: Id): Tx<()> {
    if j !in db.jobs then Rollback(NotIsolated)
    else
      var job := db.jobs[j];
      if job.isolatedAt.None? || job.lastError != Some(NotificationIsolated) then Rollback(NotIsolated)
      else if !operatorKnown then Rollback(OperatorUnknown)
      else if job.version !in db.versions || job.asset !in db.assets then Rollback(VersionNotFound)
      else
        var queued := job.(status := JobQueued, lease := None, nextAttemptAt := now, lastError := None,
                           isolatedAt := None);
        InsertEvent(db.(jobs := db.jobs[j := queued]), event, j, now)
  }

  predicate Due(job: Job, now: Time) {
    || (job.status.JobQueued? && job.nextAttemptAt <= now)
    || (job.status.JobProcessing? && job.lease.Some? && job.lease.value.expiresAt <= now)
  }

  predicate PublishedBy(db: Db, j: Id, e: Id, latest: Time) {
    && e in db.outbox && db.outbox[e].job == j && db.outbox[e].status.EventPublished?
    && db.outbox[e].publishedAt.Some? && db.outbox[e].publishedAt.value <= latest
  }

  /** A due, non-isolated job whose every publication is stale and that has no event in flight. */
  predicate Stale(db: Db, now: Time, staleAfter: nat, j: Id) {
    && j in db.jobs
    && db.jobs[j].version in db.versions
    && db.jobs[j].isolatedAt.None?
    && Due(db.jobs[j], now)
    && (exists e :: e in db.outbox && PublishedBy(db, j, e, now - staleAfter))
    && (forall e :: e in db.outbox && db.outbox[e].job == j && db.outbox[e].status.EventPublished?
                    && db.outbox[e].publishedAt.Some?
          ==> db.outbox[e].publishedAt.value <= now - staleAfter)
    && !HasUnpublished(db, j)
  }

  datatype Pick = Pick(job: Id, event: Id)

  /** One pass of the loop over the selected candidates, `ON CONFLICT DO NOTHING`. */
  function Redispatch(db: Db, now: Time, picks: seq<Pick>): Db
    decreases |picks|
  {
    if picks == [] then db
    else
      var inserted := InsertEvent(db, picks[0].event, picks[0].job, now);
      Redispatch(if inserted.Commit? then inserted.db else db, now, picks[1..])
  }

  /** `picks` are the rows the scan returned: any of the stale jobs, each with a new event id. */
  function Reconcile(db: Db, now: Time, staleAfter: nat, picks: seq<Pick>): Db {
    if forall i :: 0 <= i < |picks| ==> Stale(db, now, staleAfter, picks[i].job)
    then Redispatch(db, now, picks) else db
  }

  predicate EventClaimable(e: Event, now: Time) {
    e.Unpublished() && e.nextAttemptAt <= now && (e.lease.None? || e.lease.value.expiresAt <= now)
  }

  /** The relay leases any of the claimable rows (`SKIP LOCKED`, `LIMIT`). */
  function ClaimEvents(db: Db, now: Time, ttl: nat, owner: string, chosen: set<Id>): Db {
    db.(outbox := map e | e in db.outbox ::
          if e in chosen && EventClaimable(db.outbox[e], now)
          then db.outbox[e].(status := EventPublishing, lease := Some(Lease(owner, now + ttl)))
          else db.outbox[e])
  }

  predicate HoldsEvent(db: Db, now: Time, e: Id, held: Lease) {
    && e in db.outbox
    && db.outbox[e].status.EventPublishing?
    && db.outbox[e].lease == Some(held)
    && now < held.expiresAt
  }

  function MarkPublished(db: Db, now: Time, e: Id, held: Lease, at: Time): Db {
    if !HoldsEvent(db, now, e, held) then db
    else db.(outbox := db.outbox[e := db.outbox[e].(status := EventPublished, publishedAt := Some(at), lease := None)])
  }

  function RescheduleEvent(db: Db, now: Time, e: Id, held: Lease, dueAt: Time, attempts: nat): Db {
    if !HoldsEvent(db, now, e, held) then db
    else
      db.(outbox := db.outbox[e := db.outbox[e].(status := EventPending, nextAttemptAt := dueAt,
                                                 attempts := attempts, lease := None)])
  }

  // ------------------------------------------------------------------
  // Sweeps, run from a worker's earlier, possibly stale, read
  // ------------------------------------------------------------------

  datatype ExpiryCandidate = ExpiryCandidate(upload: Id, org: Id, size: nat)

  predicate ExpiryListed(db: Db, now: Time, c: ExpiryCandidate) {
    && c.upload in db.sessions
    && var s := db.sessions[c.upload];
       s.state.SessionCreated? && s.expiresAt <= now && c.org == s.org && c.size == s.expectedSize
  }

  function ExpireUploadSession(db: Db, now: Time, c: ExpiryCandidate): Tx<bool> {
    if c.org !in db.usage then Rollback(LedgerMissing)
    else if c.upload in db.sessions && db.sessions[c.upload].org == c.org
            && db.sessions[c.upload].state.SessionCreated? && db.sessions[c.upload].expiresAt <= now
    then
      var s := db.sessions[c.upload];
      Commit(ReleaseReservation(
               db.(sessions := db.sessions[c.upload := s.(state := SessionExpired, endedAt := Some(now))]),
               c.org, c.size), true)
    else Commit(db, false)
  }

  datatype PurgeClaim = PurgeClaim(upload: Id, version: Option<Id>, org: Id, storedBytes: nat)

  predicate QuarantineOver(at: Option<Time>, now: Time, quarantine: nat) {
    at.Some? && at.value <= now - quarantine
  }

  /** A row the purge scan can return for session `c.upload`. */
  predicate PurgeListed(db: Db, now: Time, quarantine: nat, c: PurgeClaim) {
    && c.upload in db.sessions
    && var s := db.sessions[c.upload];
       && !s.purged
       && c.org == s.org
       && match c.version
          case None =>
            && (forall v :: v in db.versions ==> db.versions[v].upload != c.upload)
            && (s.state.SessionExpired? || s.state.SessionCancelled? || s.state.SessionFailed?)
            && QuarantineOver(s.endedAt, now, quarantine)
            && c.storedBytes == 0
          case Some(v) =>
            && v in db.versions
            && db.versions[v].upload == c.upload
            && db.versions[v].status.VersionFailed?
            && QuarantineOver(db.versions[v].failedAt, now, quarantine)
            && c.storedBytes == db.versions[v].size
  }

  function MarkMediaObjectsPurged(db: Db, c: PurgeClaim): Tx<bool> {
    if c.storedBytes > 0 && c.org !in db.usage then Rollback(LedgerMissing)
    else if c.upload !in db.sessions || db.sessions[c.upload].org != c.org || db.sessions[c.upload].purged
    then Commit(db, false)
    else
      var marked := db.(sessions := db.sessions[c.upload := db.sessions[c.upload].(purged := true)]);
      if c.version.None? then Commit(marked, true)
      else
        var v := c.version.value;
        var dropped :=
          if v in marked.versions
          then marked.(versions := marked.versions[v := marked.versions[v].(outputs := map[], retained := false)])
          else marked;
        Commit(if c.storedBytes > 0 then ReleaseStored(dropped, c.org, c.storedBytes) else dropped, true)
  }

  // ------------------------------------------------------------------
  // Lifecycle purge of one asset
  // ------------------------------------------------------------------

  function SessionsOf(db: Db, asset: Id): set<Id> { set s | s in db.sessions && db.sessions[s].asset == asset }
  function VersionsOf(db: Db, asset: Id): set<Id> { set v | v in db.versions && db.versions[v].asset == asset }
  function JobsOf(db: Db, asset: Id): set<Id> { set j | j in db.jobs && db.jobs[j].asset == asset }
  function EventsOf(db: Db, asset: Id): set<Id> {
    set e | e in db.outbox && db.outbox[e].job in db.jobs && db.jobs[db.outbox[e].job].asset == asset
  }

  function RetainedRows(db: Db, asset: Id): map<Id, nat> {
    map v | v in VersionsOf(db, asset) :: if db.versions[v].retained then db.versions[v].size else 0
  }

  function OpenRows(db: Db, org: Id, asset: Id): map<Id, nat> {
    map s | s in SessionsOf(db, asset) :: ReservedWeight(db.sessions[s], org)
  }

  ghost function RetainedBytes(db: Db, asset: Id): nat { Total(RetainedRows(db, asset)) }

  ghost function OpenBytes(db: Db, org: Id, asset: Id): nat { Total(OpenRows(db, org, asset)) }

  /** The row deletions of the teardown; the asset row goes only if it still is a tombstone of the unit. */
  function Teardown(db: Db, asset: Id, unit: Id): Db {
    db.(sessions := db.sessions - SessionsOf(db, asset),
        versions := db.versions - VersionsOf(db, asset),
        jobs := db.jobs - JobsOf(db, asset),
        outbox := db.outbox - EventsOf(db, asset),
        assets :=
          if asset !in db.assets then db.assets
          else if db.assets[asset].unit == Some(unit) && db.assets[asset].deleted then db.assets - {asset}
          else db.assets[asset := db.assets[asset].(active := None, pending := None)])
  }

  ghost function FinalizePurgeAsset(db: Db, org: Id, asset: Id, unit: Id): Tx<()> {
    var storedBytes := RetainedBytes(db, asset);
    var openBytes := OpenBytes(db, org, asset);
    if (storedBytes > 0 || openBytes > 0) && org !in db.usage then Rollback(LedgerMissing)
    else
      var torn := Teardown(db, asset, unit);
      Commit(
        if (storedBytes > 0 || openBytes > 0) && org in torn.usage
        then
          var u := torn.usage[org];
          torn.(usage := torn.usage[org := u.(reserved := Floor(u.reserved - openBytes),
                                              stored := Floor(u.stored - storedBytes))])
        else torn, ())
  }
}
