module MediaWorker {
  // A media worker's run of one job: claim, keep the lease renewed while executing, and
  // promote, reject or settle with the lease as it stands at that moment.

  import opened Wrappers
  import opened MediaTables
  import opened MediaSteps
  import opened MediaInvariant
  import opened MediaConsequences
  import opened MediaStore

  /** The lease as it stands right now; each renewal replaces the token the database will accept. */
  class HeldLease {
    var current: Lease

    constructor (claimed: Lease)
      ensures current == claimed
    {
      current := claimed;
    }

    method Replace(renewed: Lease)
      modifies this
      ensures current == renewed
    {
      current := renewed;
    }
  }

  /** The job is running under exactly this token. */
  predicate RunsUnder(db: Db, j: Id, lease: Lease) {
    j in db.jobs && db.jobs[j].status.JobProcessing? && db.jobs[j].lease == Some(lease)
  }

  /** The expiry held before tick `i` when every earlier renewal succeeded. */
  function ExpiryAt(claimed: Time, ttl: nat, ticks: seq<Time>, i: nat): Time
    requires i <= |ticks|
  {
    if i == 0 then claimed else ticks[i - 1] + ttl
  }

  /** Some renewal comes too late: the lease it would renew has lapsed. */
  predicate LostDuring(expiresAt: Time, ttl: nat, ticks: seq<Time>) {
    exists i :: 0 <= i < |ticks| && ticks[i] >= ExpiryAt(expiresAt, ttl, ticks, i)
  }

  function LastExpiry(expiresAt: Time, ttl: nat, ticks: seq<Time>): Time { ExpiryAt(expiresAt, ttl, ticks, |ticks|) }

  /**
   One renewal per tick until one is refused. As long as none is, the held token is
   the one in the job row, whatever the ticks; the first refusal stops the loop.
   */
  method RenewUntilLost(store: Store, lease: HeldLease, j: Id, ticks: seq<Time>) returns (lost: bool)
    requires RunsUnder(store.Snapshot(), j, lease.current)
    modifies store`jobs, lease
    ensures RunsUnder(store.Snapshot(), j, lease.current)
    ensures j in old(store.jobs) && store.jobs == old(store.jobs)[j := old(store.jobs[j]).(lease := Some(lease.current))]
    ensures lease.current.owner == old(lease.current.owner)
    ensures lost <==> LostDuring(old(lease.current.expiresAt), store.policy.leaseTtl, ticks)
    ensures !lost ==> lease.current.expiresAt == LastExpiry(old(lease.current.expiresAt), store.policy.leaseTtl, ticks)
  {
    lost := false;
    for i := 0 to |ticks|
      invariant RunsUnder(store.Snapshot(), j, lease.current) && lease.current.owner == old(lease.current.owner)
      invariant store.jobs == old(store.jobs)[j := old(store.jobs[j]).(lease := Some(lease.current))]
      invariant !lost && lease.current.expiresAt == ExpiryAt(old(lease.current.expiresAt), store.policy.leaseTtl, ticks, i)
      invariant forall k :: 0 <= k < i ==> ticks[k] < ExpiryAt(old(lease.current.expiresAt), store.policy.leaseTtl, ticks, k)
    {
      var r := store.RenewLease(ticks[i], j, lease.current);
      if r.Refused? { return true; }
      lease.Replace(r.value);
    }
  }

  // ---- the execution ----

  /** What rendering came to: an error, a verdict on the source, or outputs. */
  datatype Execution = Breaks | Rejects(code: ErrorCode) | Renders(outputs: seq<Output>)

  /** The terminal transaction an execution ends with; without one nothing is written. */
  function Terminal(db: Db, at: Time, j: Id, job: Job, held: Lease, execution: Execution): Tx<bool> {
    match execution
    case Breaks => Commit(db, false)
    case Rejects(code) => FailVersion(db, at, Failure(j, job.version, job.org, job.asset, code), held)
    case Renders(outputs) => CompleteAndPromote(db, at, Completion(j, job.version, job.org, job.asset, outputs), held)
  }

  predicate Applied(tx: Tx<bool>) { tx.Commit? && tx.value }

  /** `Execute`: an error of the transaction, and a lease no longer held, both fail it. */
  method Execute(store: Store, at: Time, j: Id, job: Job, held: Lease, execution: Execution) returns (ok: bool)
    modifies store`versions, store`assets, store`jobs
    ensures
      var tx := Terminal(old(store.Snapshot()), at, j, job, held, execution);
      store.Snapshot() == DbAfter(old(store.Snapshot()), tx) && ok == Applied(tx)
  {
    match execution
    case Breaks => return false;
    case Rejects(code) =>
      var r := store.FailVersion(at, Failure(j, job.version, job.org, job.asset, code), held);
      return r == Answered(true);
    case Renders(outputs) =>
      var r := store.CompleteAndPromote(at, Completion(j, job.version, job.org, job.asset, outputs), held);
      return r == Answered(true);
  }

  /** An execution that was not applied leaves the tables as they were; one that was has given the lease up. */
  lemma TerminalEffect(db: Db, at: Time, j: Id, job: Job, held: Lease, execution: Execution)
    requires RunsUnder(db, j, held)
    ensures
      var tx := Terminal(db, at, j, job, held, execution);
      && (!Applied(tx) ==> DbAfter(db, tx) == db)
      && (Applied(tx) ==> j in tx.db.jobs && !tx.db.jobs[j].status.JobProcessing? && tx.db.jobs[j].lease.None?)
  {
  }

  // ---- the run ----

  datatype RunOutcome = Unclaimed(error: Error) | ExhaustedOnClaim | Abandoned | SettledFailure(answer: Answer<bool>) | Executed

  /** The tables with the job's lease as last renewed. */
  function HeldDb(db: Db, j: Id, lease: Lease): Db
    requires j in db.jobs
  {
    db.(jobs := db.jobs[j := db.jobs[j].(lease := Some(lease))])
  }

  /** What is left to do after a failed execution whose lease is still held. */
  ghost predicate SettledRun(
    held: Db, after: Db, policy: Policy, j: Id, job: Job, lease: Lease, settleAt: Time, event: Id, outcome: RunOutcome)
  {
    var tx := SettleExecutionFailure(held, policy, settleAt, j, job, lease, event);
    after == DbAfter(held, tx) && outcome == SettledFailure(AnswerOf(tx))
  }

  /**
   What follows the renewals before the terminal transaction; those after it are at `late`. An
   applied execution stands even if a late renewal then finds the lease given up and the run
   calls itself abandoned; a failed one is settled under the token that is current then.
   */
  ghost predicate HeldRun(
    db: Db, after: Db, policy: Policy, j: Id, job: Job, held: Lease, execution: Execution, at: Time, late: seq<Time>,
    settleAt: Time, event: Id, outcome: RunOutcome)
    requires j in db.jobs
  {
    var tx := Terminal(db, at, j, job, held, execution);
    if Applied(tx) then after == tx.db && outcome == if late == [] then Executed else Abandoned
    else if LostDuring(held.expiresAt, policy.leaseTtl, late) then outcome.Abandoned? && j in after.jobs && after.jobs[j].status.JobProcessing?
    else
      var last := Lease(held.owner, LastExpiry(held.expiresAt, policy.leaseTtl, late));
      SettledRun(HeldDb(db, j, last), after, policy, j, job, last, settleAt, event, outcome)
  }

  /** A run from the claimed tables `db`, with renewals at `ticks` while it executes. */
  ghost predicate ClaimedRun(
    db: Db, after: Db, policy: Policy, j: Id, job: Job, token: Lease, ticks: seq<Time>, execution: Execution, at: Time,
    late: seq<Time>, settleAt: Time, event: Id, outcome: RunOutcome)
    requires j in db.jobs
  {
    if LostDuring(token.expiresAt, policy.leaseTtl, ticks) then outcome.Abandoned? && j in after.jobs && after.jobs[j].status.JobProcessing?
    else
      var held := Lease(token.owner, LastExpiry(token.expiresAt, policy.leaseTtl, ticks));
      HeldRun(HeldDb(db, j, held), after, policy, j, job, held, execution, at, late, settleAt, event, outcome)
  }

  /** After the execution: renewals that were under way, the lost-lease check, and settlement. */
  method FinishRun(store: Store, lease: HeldLease, j: Id, job: Job, ok: bool, late: seq<Time>, settleAt: Time, event: Id)
    returns (outcome: RunOutcome)
    requires if ok then j in store.jobs && !store.jobs[j].status.JobProcessing? else RunsUnder(store.Snapshot(), j, lease.current)
    modifies store, lease
    ensures ok ==> store.Snapshot() == old(store.Snapshot()) && outcome == if late == [] then Executed else Abandoned
    ensures !ok && LostDuring(old(lease.current.expiresAt), store.policy.leaseTtl, late) ==>
      outcome.Abandoned? && j in store.jobs && store.jobs[j].status.JobProcessing?
    ensures !ok && !LostDuring(old(lease.current.expiresAt), store.policy.leaseTtl, late) ==>
      var last := Lease(old(lease.current.owner), LastExpiry(old(lease.current.expiresAt), store.policy.leaseTtl, late));
      SettledRun(HeldDb(old(store.Snapshot()), j, last), store.Snapshot(), store.policy, j, job, last, settleAt, event, outcome)
  {
    if ok {
      if late == [] { return Executed; }
      var r := store.RenewLease(late[0], j, lease.current);
      return Abandoned;
    }
    var lost := RenewUntilLost(store, lease, j, late);
    if lost { return Abandoned; }
    ghost var last := Lease(old(lease.current.owner), LastExpiry(old(lease.current.expiresAt), store.policy.leaseTtl, late));
    assert lease.current == last;
    assert store.Snapshot() == HeldDb(old(store.Snapshot()), j, last);
    var answer := store.SettleExecutionFailure(settleAt, j, job, lease.current, event);
    outcome := SettledFailure(answer);
  }

  method RunHeld(store: Store, lease: HeldLease, j: Id, job: Job, execution: Execution, at: Time, late: seq<Time>,
                 settleAt: Time, event: Id)
    returns (outcome: RunOutcome)
    requires RunsUnder(store.Snapshot(), j, lease.current)
    modifies store, lease
    ensures HeldRun(old(store.Snapshot()), store.Snapshot(), store.policy, j, job, old(lease.current), execution, at, late, settleAt, event, outcome)
  {
    TerminalEffect(store.Snapshot(), at, j, job, lease.current, execution);
    var ok := Execute(store, at, j, job, lease.current, execution);
    outcome := FinishRun(store, lease, j, job, ok, late, settleAt, event);
  }

  method RunClaimed(store: Store, j: Id, job: Job, token: Lease, ticks: seq<Time>, execution: Execution, at: Time, late: seq<Time>,
                    settleAt: Time, event: Id)
    returns (outcome: RunOutcome)
    requires RunsUnder(store.Snapshot(), j, token)
    modifies store
    ensures ClaimedRun(old(store.Snapshot()), store.Snapshot(), store.policy, j, job, token, ticks, execution, at, late, settleAt, event, outcome)
  {
    var lease := new HeldLease(token);
    var lost := RenewUntilLost(store, lease, j, ticks);
    if lost { return Abandoned; }
    assert store.Snapshot() == HeldDb(old(store.Snapshot()), j, lease.current);
    outcome := RunHeld(store, lease, j, job, execution, at, late, settleAt, event);
  }

  /** `RunJob` */
  method RunJob(store: Store, j: Id, owner: string, now: Time, ticks: seq<Time>, execution: Execution, at: Time, late: seq<Time>,
                settleAt: Time, event: Id)
    returns (outcome: RunOutcome)
    modifies store
    ensures
      match ClaimJob(old(store.Snapshot()), store.policy, now, j, owner)
      case Rollback(error) => outcome == Unclaimed(error) && store.Snapshot() == old(store.Snapshot())
      case Commit(db, ClaimExhausted) => outcome == ExhaustedOnClaim && store.Snapshot() == db
      case Commit(db, Claimed(job, token)) =>
        j in db.jobs && ClaimedRun(db, store.Snapshot(), store.policy, j, job, token, ticks, execution, at, late, settleAt, event, outcome)
  {
    var claimed := store.ClaimJob(now, j, owner);
    match claimed
    case Refused(error) => return Unclaimed(error);
    case Answered(ClaimExhausted) => return ExhaustedOnClaim;
    case Answered(Claimed(job, token)) =>
      outcome := RunClaimed(store, j, job, token, ticks, execution, at, late, settleAt, event);
  }

  // ---- what a run achieves ----

  lemma HeldJobs(db: Db, policy: Policy, now: Time, j: Id, owner: string, lease: Lease)
    requires Jobs(db, policy) && Claimable(db, policy, now, j) && owner != ""
    ensures Jobs(HeldDb(ClaimJob(db, policy, now, j, owner).db, j, lease), policy)
  {
    var held := HeldDb(ClaimJob(db, policy, now, j, owner).db, j, lease);
    forall i | i in held.jobs ensures JobSound(held, policy, i) { assert JobSound(db, policy, i); }
    forall i, k ensures OneJobPerVersion(held, i, k) { assert OneJobPerVersion(db, i, k); }
  }

  /**
   A complete rendering of a claimable job, with no other transaction in between, is promoted
   exactly if the lease, as last renewed, still runs at that moment.
   */
  lemma CompleteRenderingPromoted(
    db: Db, policy: Policy, now: Time, j: Id, owner: string, expiresAt: Time, at: Time, outputs: seq<Output>)
    requires Jobs(db, policy) && Claimable(db, policy, now, j) && owner != "" && CompleteOutputSet(outputs)
    ensures
      var claimed := ClaimJob(db, policy, now, j, owner);
      var job, lease := claimed.value.job, Lease(owner, expiresAt);
      var tx := Terminal(HeldDb(claimed.db, j, lease), at, j, job, lease, Renders(outputs));
      && (Applied(tx) <==> at < expiresAt)
      && (Applied(tx) ==>
            && tx.db.jobs[j].status.JobCompleted? && tx.db.versions[job.version].status.VersionCompleted?
            && tx.db.versions[job.version].outputs.Keys == MANIFEST && tx.db.assets[job.asset].active == Some(job.version))
  {
    var claimed := ClaimJob(db, policy, now, j, owner);
    var lease := Lease(owner, expiresAt);
    HeldJobs(db, policy, now, j, owner, lease);
    var job := claimed.value.job;
    if at < expiresAt {
      PromotionDecided(HeldDb(claimed.db, j, lease), policy, at, Completion(j, job.version, job.org, job.asset, outputs), lease);
    }
  }
}
