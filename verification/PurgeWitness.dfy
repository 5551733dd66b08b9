module PurgeWitness {
  // Why both lifetimes must end within the retention. With longer upload credentials a raw
  // object, and with longer executions an output, is written again after the teardown: two
  // runs from the empty tables, for every configuration that is too long. It follows that a
  // configuration orphans nothing exactly if both lifetimes end within the retention.

  import opened Wrappers
  import opened MediaTables
  import opened MediaSteps
  import opened MediaInvariant
  import opened MediaWorld
  import opened MediaRuns
  import opened MediaKeys
  import opened PurgeManifest
  import opened PurgeRuns
  import opened MediaWitness

  /** Some run from the empty tables and the empty storage ends in `s`. */
  ghost predicate Reached(limits: Limits, s: State) {
    Continues(POLICY, Begin([], limits), s)
  }

  /** A media step that spends no id, starts no execution and leaves tombstones alone. */
  predicate Simple(m: Step) { Plain(m) && !m.Claim? && !m.TouchAsset? && !m.PurgeAsset? && !m.NewAsset? }

  function WithDb(s: State, db: Db): State { s.(world := s.world.(db := db)) }

  lemma SimpleReaches(limits: Limits, s: State, m: Step, db: Db)
    requires Reached(limits, s) && s.world.now == s.clock && Simple(m) && Enabled(s.world, m, s.clock)
    requires NextDb(s.world.db, POLICY, s.clock, m) == db
    ensures Reached(limits, WithDb(s, db))
  {
    PlainNext(s.world, POLICY, s.clock, m);
    ContinuesNext(POLICY, Begin([], limits), s, s.clock, Media(m), WithDb(s, db));
  }

  lemma ClaimReaches(limits: Limits, s: State, owner: string, db: Db)
    requires Reached(limits, s) && s.world.now == s.clock && 5 in s.world.db.jobs
    requires ClaimJob(s.world.db, POLICY, s.clock, 5, owner).Commit? && ClaimJob(s.world.db, POLICY, s.clock, 5, owner).value.Claimed?
    requires ClaimJob(s.world.db, POLICY, s.clock, 5, owner).db == db
    ensures
      var job := s.world.db.jobs[5];
      Reached(limits, WithDb(s, db).(running := s.running + {Execution(owner, job.asset, job.version, s.clock)}))
  {
    var job := s.world.db.jobs[5];
    PlainNext(s.world, POLICY, s.clock, Claim(5, owner));
    ContinuesNext(POLICY, Begin([], limits), s, s.clock, Media(Claim(5, owner)),
                  WithDb(s, db).(running := s.running + {Execution(owner, job.asset, job.version, s.clock)}));
  }

  function Tombstoned(s: State, asset: Id, unit: Id): State {
    WithDb(s, s.world.db.(assets := TouchedAssets(s.world.db, asset, true, false, Some(unit))))
      .(tombstonedAt := s.tombstonedAt[asset := s.clock])
  }

  lemma TombstoneReaches(limits: Limits, s: State, asset: Id, unit: Id)
    requires Reached(limits, s) && s.world.now == s.clock && AssetActive(s.world.db, asset)
    ensures Reached(limits, Tombstoned(s, asset, unit))
  {
    var m := TouchAsset(asset, true, false, Some(unit));
    PlainNext(s.world, POLICY, s.clock, m);
    ContinuesNext(POLICY, Begin([], limits), s, s.clock, Media(m), Tombstoned(s, asset, unit));
  }

  // ---- the upload, at time zero ----

  function Expires(limits: Limits): Time { limits.credentialTtl + 1 }

  function AtZero(limits: Limits, world: World, log: seq<ObjectEvent>, credentials: map<ObjectKey, Time>): State {
    Begin([], limits).(world := world, log := log, credentials := credentials)
  }

  function Opened(limits: Limits): World { World(Uploading(Expires(limits)), 0, {3}, {}, {}, {}, {}) }

  lemma SessionReached(limits: Limits)
    ensures Reached(limits, AtZero(limits, Opened(limits), [], map[]))
  {
    var start, asset := Begin([], limits), World(WITH_ASSET, 0, {}, {}, {}, {}, {});
    var create := CreateSession(REQUEST, Options(Expires(limits)), 0);
    ContinuesHere(POLICY, start);
    assert Next(START, POLICY, 0, NewAsset(2, 1)) == asset;
    ContinuesNext(POLICY, start, start, 0, Media(NewAsset(2, 1)), AtZero(limits, asset, [], map[]));
    UploadCreated(Expires(limits), 0);
    assert Next(asset, POLICY, 0, create) == Opened(limits);
    ContinuesNext(POLICY, start, AtZero(limits, asset, [], map[]), 0, Media(create), AtZero(limits, Opened(limits), [], map[]));
  }

  // A configuration that gives out no credential uploads nothing.

  function Credentials(limits: Limits): map<ObjectKey, Time> {
    if 0 < limits.credentialTtl then map[RAW := limits.credentialTtl] else map[]
  }

  function RawLog(limits: Limits): seq<ObjectEvent> { if 0 < limits.credentialTtl then [Put(RAW)] else [] }

  lemma UploadReached(limits: Limits)
    ensures Reached(limits, AtZero(limits, Opened(limits), RawLog(limits), Credentials(limits)))
  {
    var start := Begin([], limits);
    SessionReached(limits);
    if 0 < limits.credentialTtl {
      ContinuesNext(POLICY, start, AtZero(limits, Opened(limits), [], map[]), 0, IssueCredential(3, limits.credentialTtl),
                    AtZero(limits, Opened(limits), [], Credentials(limits)));
      ContinuesNext(POLICY, start, AtZero(limits, Opened(limits), [], Credentials(limits)), 0, PutRaw(RAW),
                    AtZero(limits, Opened(limits), [Put(RAW)], Credentials(limits)));
    }
  }

  // ---- a raw object written under a credential that outlives the retention ----

  const FINALIZE := FinalizeAsset("p", 1, 7)

  /** At the teardown of a tombstone that was not touched since. */
  lemma TeardownReached(limits: Limits, s: State, key: ObjectKey) returns (t: State)
    requires Reached(limits, s) && s.clock == 0 && 2 in s.world.db.assets && s.world.db.assets[2].deleted && s.world.db.assets[2].org == 1
    requires s.tombstonedAt == map[2 := 0] && s.leases == map[] && Records(s.world.db, 2, key)
    ensures Reached(limits, t) && OnlyPurged(s, t, RETENTION) && Allowed(t, RETENTION, FINALIZE)
    ensures Records(t.world.db, t.workers["p"].asset, key)
  {
    t := PurgeCompletes(POLICY, s, RETENTION, "p", 8, 2, 1, 7);
    ContinuesOn(POLICY, Begin([], limits), s, t);
  }

  /** The teardown changes neither credentials nor executions. */
  lemma TeardownLeavesLimits(t: State, key: ObjectKey)
    requires Allowed(t, RETENTION, FINALIZE) && t.clock == RETENTION && CanStillWrite(t, key)
    ensures CanStillWrite(After(t, POLICY, RETENTION, FINALIZE), key)
  {
    var u := After(t, POLICY, RETENTION, FINALIZE);
    assert u.credentials == t.credentials && u.running == t.running && u.limits == t.limits && u.clock == t.clock;
    if key.ProcessedKey? {
      var e :| e in t.running && MayPut(t, e, t.clock) && e.asset == key.asset && e.version == key.version;
      assert MayPut(u, e, u.clock);
    }
  }

  lemma OrphanMeans(limits: Limits, t: State, key: ObjectKey)
    requires Reached(limits, t) && Allowed(t, RETENTION, FINALIZE) && Records(t.world.db, t.workers["p"].asset, key)
    requires !GoneForGood(After(t, POLICY, RETENTION, FINALIZE), POLICY, key)
    ensures !NeverOrphans(limits)
  {
    var trace, moves :| Connects(trace, moves, POLICY, Begin([], limits), t);
    assert AtTeardown(limits, POLICY, trace, moves, RETENTION, FINALIZE, key);
  }

  lemma RawTombstone(limits: Limits) returns (s: State)
    ensures Reached(limits, s) && s.clock == 0 && 2 in s.world.db.assets && s.world.db.assets[2].deleted && s.world.db.assets[2].org == 1
    ensures s.tombstonedAt == map[2 := 0] && s.leases == map[] && Records(s.world.db, 2, RAW) && s.credentials == Credentials(limits)
  {
    UploadReached(limits);
    var uploaded := AtZero(limits, Opened(limits), RawLog(limits), Credentials(limits));
    TombstoneReaches(limits, uploaded, 2, 7);
    s := Tombstoned(uploaded, 2, 7);
    assert RecordsSession(s.world.db, 2, RAW, 3);
  }

  /** With credentials that outlive the retention, the raw object of a purged asset can be uploaded again. */
  lemma LateUploadSurvivesPurge(limits: Limits) returns (t: State)
    requires RETENTION < limits.credentialTtl
    ensures Reached(limits, t) && Allowed(t, RETENTION, FINALIZE) && Records(t.world.db, t.workers["p"].asset, RAW)
    ensures !GoneForGood(After(t, POLICY, RETENTION, FINALIZE), POLICY, RAW)
  {
    var s := RawTombstone(limits);
    t := TeardownReached(limits, s, RAW);
    TeardownLeavesLimits(t, RAW);
    LateWriteStores(After(t, POLICY, RETENTION, FINALIZE), POLICY, RAW);
  }

  // ---- two executions of one job ----

  const SENT := map[6 := Sent(0, 0)]
  const RESENT := map[6 := Sent(0, 0), 9 := NewEvent(0)]
  const JOB_OF_A := JobRow(JobProcessing, 1, 0, Some(Lease("a", 60)))
  const JOB_OF_B := JobRow(JobProcessing, 2, 0, Some(Lease("b", 60)))
  const STALLED_RUN := Execution("a", 2, 4, 0)
  const SECOND_RUN := Execution("b", 2, 4, 0)

  function Worked(limits: Limits, job: Job, outbox: map<Id, Event>): State {
    AtZero(limits, Settled(Working(Expires(limits), job, outbox), 0), RawLog(limits), Credentials(limits))
  }

  lemma CommitReached(limits: Limits)
    ensures Reached(limits, Worked(limits, Queued(0), map[6 := NewEvent(0)]))
  {
    UploadReached(limits);
    UploadCommitted(Expires(limits), 0);
    var commit := CommitSession(SCOPE, STATED, IDS, 0);
    assert Next(Opened(limits), POLICY, 0, commit) == Settled(Working(Expires(limits), Queued(0), map[6 := NewEvent(0)]), 0);
    ContinuesNext(POLICY, Begin([], limits), AtZero(limits, Opened(limits), RawLog(limits), Credentials(limits)), 0, Media(commit),
                  Worked(limits, Queued(0), map[6 := NewEvent(0)]));
  }

  lemma RelayReached(limits: Limits)
    ensures Reached(limits, Worked(limits, Queued(0), SENT))
  {
    CommitReached(limits);
    var e := Expires(limits);
    EventRelayed(e, Queued(0), 0, 0);
    SimpleReaches(limits, Worked(limits, Queued(0), map[6 := NewEvent(0)]), RelayClaim(30, "relay", {6}), Working(e, Queued(0), map[6 := Relayed(0, 30)]));
    SimpleReaches(limits, Worked(limits, Queued(0), map[6 := Relayed(0, 30)]), RelayPublished(6, Lease("relay", 30), 0), Working(e, Queued(0), SENT));
  }

  lemma StallReached(limits: Limits)
    ensures Reached(limits, Worked(limits, JOB_OF_A, SENT).(running := {STALLED_RUN}))
  {
    RelayReached(limits);
    JobClaimed(Expires(limits), Queued(0), SENT, 0, "a");
    assert {} + {STALLED_RUN} == {STALLED_RUN};
    ClaimReaches(limits, Worked(limits, Queued(0), SENT), "a", Working(Expires(limits), JOB_OF_A, SENT));
  }

  /** While the first worker renders, the job's notification is isolated, and an operator replays the job. */
  lemma ReplayReached(limits: Limits)
    ensures Reached(limits, Worked(limits, JobRow(JobQueued, 1, 0, None), RESENT).(running := {STALLED_RUN}))
  {
    StallReached(limits);
    var e := Expires(limits);
    NoticeIsolated(e, JOB_OF_A, SENT, 0);
    SimpleReaches(limits, Worked(limits, JOB_OF_A, SENT).(running := {STALLED_RUN}), Isolate(5), Working(e, Isolated(JOB_OF_A, 0), SENT));
    JobReplayed(e, 1, 0, Some(Lease("a", 60)), Sent(0, 0), 0, 0);
    SimpleReaches(limits, Worked(limits, Isolated(JOB_OF_A, 0), SENT).(running := {STALLED_RUN}), Replay(5, true, 9),
                  Working(e, JobRow(JobQueued, 1, 0, None), RESENT));
  }

  const BOTH := {STALLED_RUN, SECOND_RUN}
  const THUMB := ProcessedKey(1, 2, 4, Thumbnail, Jpeg)
  const WEB := ProcessedKey(1, 2, 4, Web, Jpeg)

  function Written(limits: Limits): seq<ObjectEvent> { RawLog(limits) + [Put(THUMB)] + [Put(WEB)] }

  lemma TakeoverReached(limits: Limits)
    ensures Reached(limits, Worked(limits, JOB_OF_B, RESENT).(running := BOTH))
  {
    ReplayReached(limits);
    var queued := JobRow(JobQueued, 1, 0, None);
    JobClaimed(Expires(limits), queued, RESENT, 0, "b");
    assert {STALLED_RUN} + {SECOND_RUN} == BOTH;
    ClaimReaches(limits, Worked(limits, queued, RESENT).(running := {STALLED_RUN}), "b", Working(Expires(limits), JOB_OF_B, RESENT));
  }

  lemma OutputsReached(limits: Limits)
    requires 0 < limits.deadline
    ensures Reached(limits, Worked(limits, JOB_OF_B, RESENT).(running := BOTH, log := Written(limits)))
  {
    TakeoverReached(limits);
    var s := Worked(limits, JOB_OF_B, RESENT).(running := BOTH);
    ContinuesNext(POLICY, Begin([], limits), s, 0, PutOutput(SECOND_RUN, THUMB), s.(log := RawLog(limits) + [Put(THUMB)]));
    ContinuesNext(POLICY, Begin([], limits), s.(log := RawLog(limits) + [Put(THUMB)]), 0, PutOutput(SECOND_RUN, WEB), s.(log := Written(limits)));
  }

  const COMPLETION := Completion(5, 4, 1, 2, [Output(Thumbnail, THUMB), Output(Web, WEB)])
  const PROMOTE := Promote(COMPLETION, Lease("b", 60))
  const OUTPUTS := map[Thumbnail := THUMB, Web := WEB]

  lemma BothOutputsInserted()
    ensures InsertOutputs(map[], COMPLETION.outputs) == OUTPUTS && CompleteOutputSet(COMPLETION.outputs)
  {
    assert COMPLETION.outputs[0].kind == Thumbnail && COMPLETION.outputs[1].kind == Web;
    assert COMPLETION.outputs[1..] == [Output(Web, WEB)];
    assert InsertOutputs(map[Thumbnail := THUMB], [Output(Web, WEB)]) == OUTPUTS;
  }

  lemma PromotedExactly(db: Db, now: Time, job: Job)
    requires db.jobs == map[5 := job] && job.status.JobProcessing? && job.lease == Some(Lease("b", 60)) && now < 60
    requires db.versions == map[4 := PENDING] && db.assets == PENDING_ASSETS
    ensures CompleteAndPromote(db, now, COMPLETION, Lease("b", 60)) == Commit(PromotedDb(db, COMPLETION, OUTPUTS), true)
  {
    BothOutputsInserted();
    assert OUTPUTS.Keys == MANIFEST;
  }

  function Promoted(limits: Limits): State {
    var s := Worked(limits, JOB_OF_B, RESENT).(running := BOTH, log := Written(limits));
    WithDb(s, PromotedDb(s.world.db, COMPLETION, OUTPUTS))
  }

  lemma PromotionReached(limits: Limits)
    requires 0 < limits.deadline
    ensures Reached(limits, Promoted(limits))
  {
    OutputsReached(limits);
    var s := Worked(limits, JOB_OF_B, RESENT).(running := BOTH, log := Written(limits));
    PromotedExactly(s.world.db, 0, JOB_OF_B);
    assert Describes(s.world.db, COMPLETION);
    SimpleReaches(limits, s, PROMOTE, PromotedDb(s.world.db, COMPLETION, OUTPUTS));
  }

  lemma OutputTombstone(limits: Limits) returns (s: State)
    requires 0 < limits.deadline
    ensures Reached(limits, s) && s.clock == 0 && 2 in s.world.db.assets && s.world.db.assets[2].deleted && s.world.db.assets[2].org == 1
    ensures s.tombstonedAt == map[2 := 0] && s.leases == map[] && Records(s.world.db, 2, THUMB)
    ensures STALLED_RUN in s.running && s.limits == limits
  {
    PromotionReached(limits);
    TombstoneReaches(limits, Promoted(limits), 2, 7);
    s := Tombstoned(Promoted(limits), 2, 7);
    assert OUTPUTS[Thumbnail] == THUMB;
    assert RecordsVersion(s.world.db, 2, THUMB, 4);
  }

  /**
   With a deadline that outlives the retention, a worker that stalls before its write stores an
   output of a version that another worker promoted and whose asset has been purged since.
   */
  lemma LateOutputSurvivesPurge(limits: Limits) returns (t: State)
    requires RETENTION < limits.deadline
    ensures Reached(limits, t) && Allowed(t, RETENTION, FINALIZE) && Records(t.world.db, t.workers["p"].asset, THUMB)
    ensures !GoneForGood(After(t, POLICY, RETENTION, FINALIZE), POLICY, THUMB)
  {
    var s := OutputTombstone(limits);
    t := TeardownReached(limits, s, THUMB);
    assert STALLED_RUN in t.running && MayPut(t, STALLED_RUN, t.clock);
    TeardownLeavesLimits(t, THUMB);
    LateWriteStores(After(t, POLICY, RETENTION, FINALIZE), POLICY, THUMB);
  }

  /**
   A configuration orphans nothing, in any run, exactly if credentials and executions end
   within the retention.
   */
  lemma NeverOrphansExactly(limits: Limits)
    ensures NeverOrphans(limits) <==> limits.credentialTtl <= RETENTION && limits.deadline <= RETENTION
  {
    if LimitsWithinRetention(limits) {
      BoundedNeverOrphans(limits);
    } else if RETENTION < limits.credentialTtl {
      var t := LateUploadSurvivesPurge(limits);
      OrphanMeans(limits, t, RAW);
    } else {
      var t := LateOutputSurvivesPurge(limits);
      OrphanMeans(limits, t, THUMB);
    }
  }
}
