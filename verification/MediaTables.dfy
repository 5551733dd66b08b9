/**
 The media tables of Asset Core: quota ledger, upload sessions, media versions,
 processing jobs, the job outbox and the media columns of the asset row.
 Identifiers (uuids) are naturals, timestamps are integers, and a digest is
 the value it digests.
 */
module MediaTables {
  import opened Wrappers
  import opened FiniteSums

  type Id = nat
  type Time = int
  type Checksum = seq<nat>

  datatype ContentType = Jpeg | Png
  datatype OutputKind = Thumbnail | Web

  /** Storage keys are composed from the identities of the rows they belong to. */
  datatype ObjectKey =
    | RawKey(org: Id, asset: Id, upload: Id, contentType: ContentType)
    | ProcessedKey(org: Id, asset: Id, version: Id, kind: OutputKind, contentType: ContentType)

  /** Both kinds a completed version must have (`MediaOutputManifest`). */
  const MANIFEST: set<OutputKind> := {Thumbnail, Web}

  const MAX_UPLOAD_BYTES := 50_000_000

  datatype Usage = Usage(quota: nat, reserved: nat, stored: nat)

  datatype SessionState = SessionCreated | SessionCommitted | SessionExpired | SessionCancelled | SessionFailed {
    predicate IsPublished() { SessionCreated? || SessionCommitted? }
  }

  datatype Fingerprint =
    Fingerprint(asset: Id, filename: string, contentType: ContentType, size: int, checksum: Checksum)

  datatype Session = Session(
    org: Id, asset: Id, requestedBy: Id, idempotencyKey: Id, fingerprint: Fingerprint, state: SessionState,
    contentType: ContentType, expectedSize: nat, checksum: Checksum, rawKey: ObjectKey,
    expiresAt: Time, endedAt: Option<Time>, purged: bool)

  datatype VersionStatus = VersionPending | VersionCompleted | VersionFailed

  datatype Version = Version(
    org: Id, asset: Id, upload: Id, status: VersionStatus, rawKey: ObjectKey, retained: bool, size: nat,
    outputs: map<OutputKind, ObjectKey>, failedAt: Option<Time>)

  datatype Lease = Lease(owner: string, expiresAt: Time)

  datatype JobStatus = JobQueued | JobProcessing | JobCompleted | JobFailed

  datatype ErrorCode = ProcessingFailed | NotificationIsolated | Rejected(reason: string)

  datatype Job = Job(
    org: Id, asset: Id, version: Id, status: JobStatus, attempts: nat, nextAttemptAt: Time,
    lease: Option<Lease>, lastError: Option<ErrorCode>, isolatedAt: Option<Time>)
  {
    /** Neither completed nor failed for good: an isolated job can still be replayed. */
    predicate Live() { status.JobQueued? || status.JobProcessing? || isolatedAt.Some? }

    predicate LeaseLapsed(now: Time) { lease.None? || lease.value.expiresAt <= now }
  }

  datatype EventStatus = EventPending | EventPublishing | EventPublished

  datatype Event = Event(
    job: Id, status: EventStatus, attempts: nat, nextAttemptAt: Time, lease: Option<Lease>,
    publishedAt: Option<Time>)
  {
    predicate Unpublished() { !status.EventPublished? }
  }

  /** The media-relevant columns of a metadata item and of its folder. */
  datatype Asset = Asset(
    org: Id, deleted: bool, folderDeleted: bool, unit: Option<Id>, active: Option<Id>, pending: Option<Id>)

  datatype Db = Db(
    usage: map<Id, Usage>, sessions: map<Id, Session>, versions: map<Id, Version>,
    jobs: map<Id, Job>, outbox: map<Id, Event>, assets: map<Id, Asset>)

  const EMPTY_DB := Db(map[], map[], map[], map[], map[], map[])

  /** Lease and retry policies of the job store. */
  datatype Policy = Policy(leaseTtl: nat, delays: seq<nat>) {
    predicate Valid() { 0 < leaseTtl }
    function MaxAttempts(): nat { |delays| + 1 }
  }

  // ---- the two sums the quota ledger caches ----

  function ReservedWeight(s: Session, org: Id): nat {
    if s.state.SessionCreated? && s.org == org then s.expectedSize else 0
  }

  function ReservedWeights(sessions: map<Id, Session>, org: Id): map<Id, nat> {
    map s | s in sessions :: ReservedWeight(sessions[s], org)
  }

  /** `sum(expected_size_bytes)` over the created sessions of an organization. */
  ghost function Reserved(sessions: map<Id, Session>, org: Id): nat {
    Total(ReservedWeights(sessions, org))
  }

  function StoredWeight(v: Version, org: Id): nat {
    if v.retained && v.org == org then v.size else 0
  }

  function StoredWeights(versions: map<Id, Version>, org: Id): map<Id, nat> {
    map v | v in versions :: StoredWeight(versions[v], org)
  }

  /** `sum(original_size_bytes)` over the versions whose raw object is retained. */
  ghost function Stored(versions: map<Id, Version>, org: Id): nat {
    Total(StoredWeights(versions, org))
  }

  lemma ReservedUpdate(sessions: map<Id, Session>, org: Id, k: Id, s: Session)
    ensures Reserved(sessions[k := s], org)
         == Reserved(sessions, org) + ReservedWeight(s, org)
            - (if k in sessions then ReservedWeight(sessions[k], org) else 0)
  {
    assert ReservedWeights(sessions[k := s], org) == ReservedWeights(sessions, org)[k := ReservedWeight(s, org)];
    TotalUpdate(ReservedWeights(sessions, org), k, ReservedWeight(s, org));
  }

  lemma StoredUpdate(versions: map<Id, Version>, org: Id, k: Id, v: Version)
    ensures Stored(versions[k := v], org)
         == Stored(versions, org) + StoredWeight(v, org)
            - (if k in versions then StoredWeight(versions[k], org) else 0)
  {
    assert StoredWeights(versions[k := v], org) == StoredWeights(versions, org)[k := StoredWeight(v, org)];
    TotalUpdate(StoredWeights(versions, org), k, StoredWeight(v, org));
  }
}
