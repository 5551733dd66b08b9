module MediaWitness {
  // A run from the empty tables: an upload is committed, one worker stalls, another takes the
  // job over in its last attempt, and an operator replays the job after its notification was
  // isolated. In no continuation is the job claimed or settled, or the asset's upload finished.

  import opened Wrappers
  import opened FiniteSums
  import opened MediaTables
  import opened MediaSteps
  import opened MediaInvariant
  import opened MediaWorld
  import opened MediaRuns

  const POLICY := Policy(60, [10])

  // Organization 1, asset 2, upload 3, version 4, job 5, events 6 and 9.

  const RAW := RawKey(1, 2, 3, Jpeg)
  const REQUEST := UploadRequest(1, 2, 7, 8, "a.jpg", Jpeg, 10, [0])

  function Options(expires: Time): SessionOptions { SessionOptions(3, RAW, 1000, expires) }

  function SessionRow(state: SessionState, expires: Time): Session {
    Session(1, 2, 7, 8, REQUEST.Digest(), state, Jpeg, 10, [0], RAW, expires, None, false)
  }

  const PENDING := Version(1, 2, 3, VersionPending, RAW, true, 10, map[], None)

  function JobRow(status: JobStatus, attempts: nat, due: Time, lease: Option<Lease>): Job {
    Job(1, 2, 4, status, attempts, due, lease, None, None)
  }

  const ASSETS := map[2 := Asset(1, false, false, None, None, None)]
  const PENDING_ASSETS := map[2 := Asset(1, false, false, None, None, Some(4))]
  const WITH_ASSET := Db(map[], map[], map[], map[], map[], ASSETS)

  function Uploading(expires: Time): Db {
    Db(map[1 := Usage(1000, 10, 0)], map[3 := SessionRow(SessionCreated, expires)], map[], map[], map[], ASSETS)
  }

  /** The tables after the commit, with the job and outbox rows as given. */
  function Working(expires: Time, job: Job, outbox: map<Id, Event>): Db {
    Db(map[1 := Usage(1000, 0, 10)], map[3 := SessionRow(SessionCommitted, expires)], map[4 := PENDING], map[5 := job],
       outbox, PENDING_ASSETS)
  }

  function Queued(due: Time): Job { JobRow(JobQueued, 0, due, None) }

  function NewEvent(due: Time): Event { Event(5, EventPending, 0, due, None, None) }

  function Relayed(due: Time, until: Time): Event { Event(5, EventPublishing, 0, due, Some(Lease("relay", until)), None) }

  function Sent(due: Time, at: Time): Event { Event(5, EventPublished, 0, due, None, Some(at)) }

  // ---- the transactions ----

  lemma UploadCreated(expires: Time, clock: Time)
    ensures CreateUploadSession(WITH_ASSET, REQUEST, Options(expires), clock) == Commit(Uploading(expires), Admission(3, false))
  {
    var seated := EnsureUsage(WITH_ASSET, 1, 1000);
    assert Lapsed(seated, 1, 2, clock) == {};
    TotalOfZeros(SizesOf(seated.sessions, {}));
    assert Expire(seated.sessions, {}, clock) == map[];
    assert ReclaimExpiredSessions(seated, 1, 2, clock) == seated;
    assert AdmitSession(seated, REQUEST, Options(expires)) == Commit(Uploading(expires), Admission(3, false));
  }

  const SCOPE := Scope(1, 2, 3, Some(7))
  const STATED := Attributes(10, Jpeg, [0])
  const IDS := CommitIds(4, 5, 6)

  lemma UploadCommitted(expires: Time, clock: Time)
    requires clock < expires
    ensures CommitUpload(Uploading(expires), SCOPE, STATED, IDS, clock)
         == Commit(Working(expires, Queued(clock), map[6 := NewEvent(clock)]), false)
  {
  }

  lemma EventRelayed(expires: Time, job: Job, due: Time, now: Time)
    requires due <= now
    ensures ClaimEvents(Working(expires, job, map[6 := NewEvent(due)]), now, 30, "relay", {6})
         == Working(expires, job, map[6 := Relayed(due, now + 30)])
    ensures MarkPublished(Working(expires, job, map[6 := Relayed(due, now + 30)]), now, 6, Lease("relay", now + 30), now)
         == Working(expires, job, map[6 := Sent(due, now)])
  {
  }

  lemma JobClaimed(expires: Time, job: Job, outbox: map<Id, Event>, now: Time, owner: string)
    requires owner != "" && job.asset == 2 && (job.status.JobQueued? || job.status.JobProcessing?) && job.nextAttemptAt <= now
    requires job.isolatedAt.None? && job.attempts < 2 && job.LeaseLapsed(now)
    ensures ClaimJob(Working(expires, job, outbox), POLICY, now, 5, owner)
         == Commit(Working(expires, ClaimedJob(job, POLICY, now, owner), outbox),
                   Claimed(ClaimedJob(job, POLICY, now, owner), Lease(owner, now + 60)))
  {
  }

  function Isolated(job: Job, now: Time): Job {
    job.(status := JobFailed, lease := None, lastError := Some(NotificationIsolated), isolatedAt := Some(now))
  }

  lemma NoticeIsolated(expires: Time, job: Job, outbox: map<Id, Event>, now: Time)
    requires (job.status.JobQueued? || job.status.JobProcessing?) && job.isolatedAt.None?
    ensures IsolateNotification(Working(expires, job, outbox), now, 5) == Working(expires, Isolated(job, now), outbox)
  {
  }

  lemma JobReplayed(expires: Time, attempts: nat, due: Time, lease: Option<Lease>, sent: Event, isolated: Time, now: Time)
    requires sent.job == 5 && sent.status.EventPublished?
    ensures RebuildAndEnqueue(Working(expires, Isolated(JobRow(JobProcessing, attempts, due, lease), isolated), map[6 := sent]), now, 5, true, 9)
         == Commit(Working(expires, JobRow(JobQueued, attempts, now, None), map[6 := sent, 9 := NewEvent(now)]), ())
  {
    var queued := Working(expires, JobRow(JobQueued, attempts, now, None), map[6 := sent]);
    assert !HasUnpublished(queued, 5);
  }

  // ---- the run ----

  ghost predicate Leads(w: World, target: World) {
    exists trace {:trigger Valid(w, POLICY, trace)} :: Valid(w, POLICY, trace) && Run(w, POLICY, trace) == target
  }

  lemma LeadsInv(w: World, target: World)
    requires w == START && Leads(w, target)
    ensures WorldInv(target, POLICY)
  {
    var trace :| Valid(w, POLICY, trace) && Run(w, POLICY, trace) == target;
    StartInv(POLICY);
    RunInv(w, POLICY, trace);
  }

  lemma LeadsHere(w: World)
    ensures Leads(w, w)
  {
    assert Valid(w, POLICY, []);
  }

  lemma LeadsFirst(w: World, now: Time, step: Step, target: World)
    requires w.now < now && Enabled(w, step, now) && Leads(Next(w, POLICY, now, step), target)
    ensures Leads(w, target)
  {
    var rest :| Valid(Next(w, POLICY, now, step), POLICY, rest) && Run(Next(w, POLICY, now, step), POLICY, rest) == target;
    var trace := [Move(now, step)] + rest;
    assert trace[1..] == rest;
    assert Valid(w, POLICY, trace);
  }

  /** A step that spends no id and reads no list leads on from the tables it writes. */
  predicate Plain(step: Step) {
    !step.CreateSession? && !step.CommitSession? && !step.ListExpired? && !step.ListPurgeable?
  }

  lemma PlainNext(w: World, policy: Policy, now: Time, step: Step)
    requires Plain(step)
    ensures Next(w, policy, now, step) == w.(db := NextDb(w.db, policy, now, step), now := now)
  {
  }

  lemma LeadsPlain(w: World, now: Time, step: Step, db: Db, target: World)
    requires w.now < now && Enabled(w, step, now) && Plain(step) && NextDb(w.db, POLICY, now, step) == db
    requires Leads(w.(db := db, now := now), target)
    ensures Leads(w, target)
  {
    PlainNext(w, POLICY, now, step);
    LeadsFirst(w, now, step, target);
  }

  const OUTBOX := map[6 := Sent(5, 7)]
  const STALLED := JobRow(JobProcessing, 1, 5, Some(Lease("a", 70)))
  const TAKEN_OVER := JobRow(JobProcessing, 2, 5, Some(Lease("b", 160)))
  const REPLAYED := Working(900, JobRow(JobQueued, 2, 102, None), map[6 := Sent(5, 7), 9 := NewEvent(102)])

  /** From the commit on, no id is spent any more. */
  function Settled(db: Db, now: Time): World { World(db, now, {3}, {4}, {5}, {}, {}) }

  const STUCK := Settled(REPLAYED, 102)

  lemma TakenOverLeads()
    ensures Leads(Settled(Working(900, TAKEN_OVER, OUTBOX), 100), STUCK)
  {
    LeadsHere(STUCK);
    JobReplayed(900, 2, 5, Some(Lease("b", 160)), Sent(5, 7), 101, 102);
    LeadsPlain(Settled(Working(900, Isolated(TAKEN_OVER, 101), OUTBOX), 101), 102, Replay(5, true, 9), REPLAYED, STUCK);
    NoticeIsolated(900, TAKEN_OVER, OUTBOX, 101);
    LeadsPlain(Settled(Working(900, TAKEN_OVER, OUTBOX), 100), 101, Isolate(5), Working(900, Isolated(TAKEN_OVER, 101), OUTBOX), STUCK);
  }

  lemma PublishedLeads()
    ensures Leads(Settled(Working(900, Queued(5), OUTBOX), 7), STUCK)
  {
    TakenOverLeads();
    JobClaimed(900, STALLED, OUTBOX, 100, "b");
    LeadsPlain(Settled(Working(900, STALLED, OUTBOX), 10), 100, Claim(5, "b"), Working(900, TAKEN_OVER, OUTBOX), STUCK);
    JobClaimed(900, Queued(5), OUTBOX, 10, "a");
    LeadsPlain(Settled(Working(900, Queued(5), OUTBOX), 7), 10, Claim(5, "a"), Working(900, STALLED, OUTBOX), STUCK);
  }

  lemma EventSent(expires: Time, job: Job)
    ensures MarkPublished(Working(expires, job, map[6 := Relayed(5, 36)]), 7, 6, Lease("relay", 36), 7)
         == Working(expires, job, map[6 := Sent(5, 7)])
  {
  }

  lemma CommittedLeads()
    ensures Leads(Settled(Working(900, Queued(5), map[6 := NewEvent(5)]), 5), STUCK)
  {
    PublishedLeads();
    EventSent(900, Queued(5));
    LeadsPlain(Settled(Working(900, Queued(5), map[6 := Relayed(5, 36)]), 6), 7, RelayPublished(6, Lease("relay", 36), 7),
               Working(900, Queued(5), OUTBOX), STUCK);
    EventRelayed(900, Queued(5), 5, 6);
    LeadsPlain(Settled(Working(900, Queued(5), map[6 := NewEvent(5)]), 5), 6, RelayClaim(30, "relay", {6}),
               Working(900, Queued(5), map[6 := Relayed(5, 36)]), STUCK);
  }

  lemma UploadingLeads()
    ensures Leads(World(Uploading(900), 2, {3}, {}, {}, {}, {}), STUCK)
  {
    CommittedLeads();
    UploadCommitted(900, 5);
    assert Next(World(Uploading(900), 2, {3}, {}, {}, {}, {}), POLICY, 5, CommitSession(SCOPE, STATED, IDS, 5))
        == Settled(Working(900, Queued(5), map[6 := NewEvent(5)]), 5);
    LeadsFirst(World(Uploading(900), 2, {3}, {}, {}, {}, {}), 5, CommitSession(SCOPE, STATED, IDS, 5), STUCK);
  }

  lemma StartLeads()
    ensures Leads(START, STUCK)
  {
    UploadingLeads();
    UploadCreated(900, 2);
    assert Next(World(WITH_ASSET, 1, {}, {}, {}, {}, {}), POLICY, 2, CreateSession(REQUEST, Options(900), 2))
        == World(Uploading(900), 2, {3}, {}, {}, {}, {});
    LeadsFirst(World(WITH_ASSET, 1, {}, {}, {}, {}, {}), 2, CreateSession(REQUEST, Options(900), 2), STUCK);
    LeadsPlain(START, 1, NewAsset(2, 1), WITH_ASSET, STUCK);
  }

  /** Reached from the empty tables: a live job, its version pending, that nothing ever claims or settles. */
  lemma ReplayOfLastAttemptIsStuck(trace: Trace)
    requires Valid(STUCK, POLICY, trace)
    ensures Leads(START, STUCK)
    ensures 5 in REPLAYED.jobs && DeadEnd(Run(STUCK, POLICY, trace).db, POLICY, 5)
    ensures forall now, owner: string :: owner != "" ==> ClaimJob(REPLAYED, POLICY, now, 5, owner) == Rollback(JobExhausted)
  {
    StartLeads();
    LeadsInv(START, STUCK);
    UsedUpIsDeadEnd(STUCK, POLICY, trace, 5);
}
}
