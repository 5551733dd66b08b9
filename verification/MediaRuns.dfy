module MediaRuns {
  // The invariant over whole runs, and what it gives: fencing, attempt accounting, no stranded job.

  import opened Wrappers
  import opened MediaTables
  import opened MediaSteps
  import opened MediaInvariant
  import opened MediaUploads
  import opened MediaLedger
  import opened MediaWorld

  ghost predicate CandidateKnown(w: World, c: ExpiryCandidate) {
    c in w.candidates ==> CandidateSound(w.db, c) && c.upload in w.spentUploads
  }

  ghost predicate ClaimKnown(w: World, c: PurgeClaim) {
    c in w.claims ==>
      && ClaimSound(w.db, c)
      && c.upload in w.spentUploads
      && (c.version.Some? ==> c.version.value in w.spentVersions)
  }

  ghost predicate Spent(w: World) {
    && w.db.sessions.Keys <= w.spentUploads
    && w.db.versions.Keys <= w.spentVersions
    && w.db.jobs.Keys <= w.spentJobs
  }

  ghost predicate Reads(w: World) {
    && (forall c {:trigger CandidateKnown(w, c)} :: CandidateKnown(w, c))
    && (forall c {:trigger ClaimKnown(w, c)} :: ClaimKnown(w, c))
  }

  ghost predicate WorldInv(w: World, policy: Policy) {
    Coherent(w.db, policy) && Ledger(w.db) && Spent(w) && Reads(w)
  }

  // ------------------------------------------------------------------
  // One step
  // ------------------------------------------------------------------

  lemma CoherentUploadStep(w: World, policy: Policy, now: Time, step: Step)
    requires Coherent(w.db, policy) && Reads(w) && Enabled(w, step, now)
    requires step.CreateSession? || step.CloseSession? || step.CommitSession? || step.SweepExpired? || step.SweepPurged? || step.PurgeAsset?
    ensures Coherent(NextDb(w.db, policy, now, step), policy)
  {
    var db := w.db;
    match step
    case CreateSession(request, options, clock) => CreateUploadPreserves(db, policy, request, options, clock);
    case CloseSession(scope, expiring, clock) => CloseUploadPreserves(db, policy, scope, expiring, clock);
    case CommitSession(scope, attributes, ids, clock) => CommitPreserves(db, policy, scope, attributes, ids, clock);
    case SweepExpired(c) => ExpireUploadPreserves(db, policy, now, c);
    case SweepPurged(c) => assert ClaimKnown(w, c); MarkPurgedPreserves(db, policy, c);
    case PurgeAsset(org, asset, unit) => TeardownPreserves(db, policy, org, asset, unit);
  }

  lemma CoherentAssetStep(db: Db, policy: Policy, now: Time, step: Step)
    requires Coherent(db, policy) && (step.NewAsset? || step.TouchAsset?)
    requires step.NewAsset? ==> step.asset !in db.assets
    ensures Coherent(NextDb(db, policy, now, step), policy)
  {
    var assets := NextDb(db, policy, now, step).assets;
    forall b ensures AssetKept(db, assets, b) {}
    AssetUpdatePreserves(db, policy, assets);
  }

  lemma CoherentWorkerStep(w: World, policy: Policy, now: Time, step: Step)
    requires Coherent(w.db, policy) && Enabled(w, step, now)
    requires step.Claim? || step.Renew? || step.Settle? || step.Promote? || step.Reject?
    ensures Coherent(NextDb(w.db, policy, now, step), policy)
  {
    var db := w.db;
    match step
    case Claim(j, owner) => ClaimPreserves(db, policy, now, j, owner);
    case Renew(j, held) => RenewPreserves(db, policy, now, j, held);
    case Settle(j, copy, held, event) => SettlePreserves(db, policy, now, j, copy, held, event);
    case Promote(c, held) => PromotionPreserves(db, policy, now, c, held);
    case Reject(f, held) =>
      if HoldsLease(db, now, f.job, held) { FailurePreserves(db, policy, f.job, f.code, now); }
  }

  lemma CoherentDispatchStep(w: World, policy: Policy, now: Time, step: Step)
    requires Coherent(w.db, policy) && Enabled(w, step, now)
    requires step.Isolate? || step.Replay? || step.ReconcilePass? || step.RelayClaim? || step.RelayPublished? || step.RelayReschedule?
    ensures Coherent(NextDb(w.db, policy, now, step), policy)
  {
    var db := w.db;
    match step
    case Isolate(j) => IsolatePreserves(db, policy, now, j);
    case Replay(j, known, event) => RebuildPreserves(db, policy, now, j, known, event);
    case ReconcilePass(staleAfter, picks) =>
      if forall i :: 0 <= i < |picks| ==> Stale(db, now, staleAfter, picks[i].job) {
        RedispatchPreserves(db, policy, now, picks);
      }
    case RelayClaim(ttl, owner, chosen) => ClaimEventsPreserves(db, policy, now, ttl, owner, chosen);
    case RelayPublished(e, held, at) => MarkPublishedPreserves(db, policy, now, e, held, at);
    case RelayReschedule(e, held, dueAt, attempts) => ReschedulePreserves(db, policy, now, e, held, dueAt, attempts);
  }

  lemma CoherentStep(w: World, policy: Policy, now: Time, step: Step)
    requires Coherent(w.db, policy) && Reads(w) && Enabled(w, step, now)
    ensures Coherent(NextDb(w.db, policy, now, step), policy)
  {
    if step.ListExpired? || step.ListPurgeable? {
    } else if step.NewAsset? || step.TouchAsset? {
      CoherentAssetStep(w.db, policy, now, step);
    } else if step.Claim? || step.Renew? || step.Settle? || step.Promote? || step.Reject? {
      CoherentWorkerStep(w, policy, now, step);
    } else if step.CreateSession? || step.CloseSession? || step.CommitSession? || step.SweepExpired? || step.SweepPurged?
              || step.PurgeAsset? {
      CoherentUploadStep(w, policy, now, step);
    } else {
      CoherentDispatchStep(w, policy, now, step);
    }
  }

  predicate ChargesLedger(step: Step) {
    || step.CreateSession? || step.CloseSession? || step.CommitSession?
    || step.SweepExpired? || step.SweepPurged? || step.PurgeAsset?
  }

  lemma ClaimKeepsLedger(db: Db, policy: Policy, now: Time, j: Id, owner: string)
    requires Ledger(db)
    ensures Ledger(DbAfter(db, ClaimJob(db, policy, now, j, owner)))
  {
    ClaimFrame(db, policy, now, j, owner);
    LedgerUntouched(db, DbAfter(db, ClaimJob(db, policy, now, j, owner)));
  }

  lemma RenewKeepsLedger(db: Db, policy: Policy, now: Time, j: Id, held: Lease)
    requires Ledger(db)
    ensures Ledger(DbAfter(db, RenewLease(db, policy, now, j, held)))
  {
    LedgerUntouched(db, DbAfter(db, RenewLease(db, policy, now, j, held)));
  }

  lemma SettleKeepsLedger(db: Db, policy: Policy, now: Time, j: Id, copy: Job, held: Lease, event: Id)
    requires Ledger(db)
    ensures Ledger(DbAfter(db, SettleExecutionFailure(db, policy, now, j, copy, held, event)))
  {
    SettleFrame(db, policy, now, j, copy, held, event);
    LedgerUntouched(db, DbAfter(db, SettleExecutionFailure(db, policy, now, j, copy, held, event)));
  }

  lemma TerminalStepKeepsLedger(db: Db, policy: Policy, now: Time, step: Step)
    requires Ledger(db)
    requires step.Promote? || step.Reject?
    ensures Ledger(NextDb(db, policy, now, step))
  {
    LedgerUntouched(db, NextDb(db, policy, now, step));
  }

  lemma OtherStepKeepsLedger(db: Db, policy: Policy, now: Time, step: Step)
    requires Ledger(db)
    requires !ChargesLedger(step)
    requires !(step.Claim? || step.Renew? || step.Settle? || step.Promote? || step.Reject?)
    ensures Ledger(NextDb(db, policy, now, step))
  {
    if step.ReconcilePass? { RedispatchKeepsRows(db, now, step.picks); }
    LedgerUntouched(db, NextDb(db, policy, now, step));
  }

  lemma LedgerStep(w: World, policy: Policy, now: Time, step: Step)
    requires Ledger(w.db) && Sessions(w.db) && Versions(w.db) && Reads(w) && Enabled(w, step, now)
    ensures Ledger(NextDb(w.db, policy, now, step))
  {
    var db := w.db;
    match step
    case CreateSession(request, options, clock) => CreateUploadBalances(db, policy, request, options, clock);
    case CloseSession(scope, expiring, clock) => CloseUploadBalances(db, scope, expiring, clock);
    case CommitSession(scope, attributes, ids, clock) => CommitBalances(db, scope, attributes, ids, clock);
    case SweepExpired(c) => assert CandidateKnown(w, c); ExpireUploadBalances(db, now, c);
    case SweepPurged(c) => assert ClaimKnown(w, c); MarkPurgedBalances(db, c);
    case PurgeAsset(org, asset, unit) => OwnedByAssetOrg(db, asset, org); TeardownBalances(db, org, asset, unit);
    case Claim(j, owner) => ClaimKeepsLedger(db, policy, now, j, owner);
    case Renew(j, held) => RenewKeepsLedger(db, policy, now, j, held);
    case Settle(j, copy, held, event) => SettleKeepsLedger(db, policy, now, j, copy, held, event);
    case Promote(_, _) => TerminalStepKeepsLedger(db, policy, now, step);
    case Reject(_, _) => TerminalStepKeepsLedger(db, policy, now, step);
    case _ => OtherStepKeepsLedger(db, policy, now, step);
  }

  lemma SpentStep(w: World, policy: Policy, now: Time, step: Step)
    requires Spent(w)
    requires Evolves(w.db, NextDb(w.db, policy, now, step), policy, now, step)
    ensures Spent(Next(w, policy, now, step))
  {
  }

  lemma ReadsStep(w: World, policy: Policy, now: Time, step: Step)
    requires Versions(w.db) && Spent(w) && Reads(w) && Enabled(w, step, now)
    requires Evolves(w.db, NextDb(w.db, policy, now, step), policy, now, step)
    ensures Reads(Next(w, policy, now, step))
  {
    var next := Next(w, policy, now, step);
    forall c ensures CandidateKnown(next, c) {
      assert CandidateKnown(w, c) && SessionEvolves(w.db, next.db, c.upload);
    }
    forall c ensures ClaimKnown(next, c) {
      assert ClaimKnown(w, c) && SessionEvolves(w.db, next.db, c.upload);
      if c.version.Some? { assert VersionEvolves(w.db, next.db, c.version.value); }
      if c in next.claims && c !in w.claims { ListedClaimSound(w.db, now, step.quarantine, c); }
    }
  }

  /** Every enabled step of every worker keeps the whole invariant. */
  lemma StepPreserves(w: World, policy: Policy, now: Time, step: Step)
    requires WorldInv(w, policy) && Enabled(w, step, now)
    ensures WorldInv(Next(w, policy, now, step), policy)
  {
    StepEvolves(w.db, policy, now, step);
    CoherentStep(w, policy, now, step);
    LedgerStep(w, policy, now, step);
    SpentStep(w, policy, now, step);
    ReadsStep(w, policy, now, step);
  }

  // ------------------------------------------------------------------
  // Runs
  // ------------------------------------------------------------------

  datatype Move = Move(now: Time, step: Step)

  type Trace = seq<Move>

  /** Each step is enabled and carries a later timestamp than the one before. */
  ghost predicate Valid(w: World, policy: Policy, trace: Trace)
    decreases |trace|
  {
    trace == [] ||
    (&& w.now < trace[0].now
     && Enabled(w, trace[0].step, trace[0].now)
     && Valid(Next(w, policy, trace[0].now, trace[0].step), policy, trace[1..]))
  }

  ghost function Run(w: World, policy: Policy, trace: Trace): World
    decreases |trace|
  {
    if trace == [] then w else Run(Next(w, policy, trace[0].now, trace[0].step), policy, trace[1..])
  }

  lemma StartInv(policy: Policy)
    ensures WorldInv(START, policy)
  {
  }

  /** Coherence and quota conservation hold in every reachable state. */
  lemma {:induction false} RunInv(w: World, policy: Policy, trace: Trace)
    requires WorldInv(w, policy) && Valid(w, policy, trace)
    ensures WorldInv(Run(w, policy, trace), policy)
    decreases |trace|
  {
    if trace != [] {
      StepPreserves(w, policy, trace[0].now, trace[0].step);
      RunInv(Next(w, policy, trace[0].now, trace[0].step), policy, trace[1..]);
    }
  }

  // ------------------------------------------------------------------
  // Lease fencing
  // ------------------------------------------------------------------

  /** Every lease the job will ever show expires no earlier than `bound`. */
  ghost predicate LeaseFloor(db: Db, j: Id, bound: Time) {
    j in db.jobs && db.jobs[j].lease.Some? ==> bound <= db.jobs[j].lease.value.expiresAt
  }

  lemma LeaseFloorStep(w: World, policy: Policy, m: Move, j: Id, bound: Time)
    requires WorldInv(w, policy) && Enabled(w, m.step, m.now) && w.now <= m.now
    requires LeaseFloor(w.db, j, bound) && bound <= w.now + policy.leaseTtl && j in w.spentJobs
    ensures LeaseFloor(Next(w, policy, m.now, m.step).db, j, bound)
  {
    StepEvolves(w.db, policy, m.now, m.step);
    assert JobEvolves(w.db, NextDb(w.db, policy, m.now, m.step), policy, m.now, m.step, j);
  }

  lemma {:induction false} LeaseFloorKept(w: World, policy: Policy, trace: Trace, j: Id, bound: Time)
    requires WorldInv(w, policy) && Valid(w, policy, trace)
    requires LeaseFloor(w.db, j, bound) && bound <= w.now + policy.leaseTtl && j in w.spentJobs
    ensures LeaseFloor(Run(w, policy, trace).db, j, bound)
    decreases |trace|
  {
    if trace != [] {
      var m := trace[0];
      LeaseFloorStep(w, policy, m, j, bound);
      StepPreserves(w, policy, m.now, m.step);
      LeaseFloorKept(Next(w, policy, m.now, m.step), policy, trace[1..], j, bound);
    }
  }

  /** The claim or renewal at `now` of job `j` that returned token `token`. */
  ghost predicate Issues(w: World, policy: Policy, m: Move, j: Id, token: Lease) {
    || (m.step.Claim? && m.step.job == j
        && var tx := ClaimJob(w.db, policy, m.now, j, m.step.owner);
           tx.Commit? && tx.value.Claimed? && tx.value.lease == token)
    || (m.step.Renew? && m.step.job == j && RenewLease(w.db, policy, m.now, j, m.step.held).Commit?
        && RenewLease(w.db, policy, m.now, j, m.step.held).value == token)
  }

  /**
   Once a later claim or renewal of the job has happened, a token issued before
   it is dead for good: promotion, rejection and failure settlement presented
   with it change nothing.
   */
  lemma StaleTokenIsDead(
    w: World, policy: Policy, older: Lease, issuedAt: Time, m: Move, newer: Lease, rest: Trace, j: Id, now: Time)
    requires WorldInv(w, policy) && Valid(w, policy, [m] + rest)
    requires older.expiresAt == issuedAt + policy.leaseTtl && issuedAt <= w.now
    requires Issues(w, policy, m, j, newer)
    ensures newer.expiresAt == m.now + policy.leaseTtl
    ensures var db := Run(w, policy, [m] + rest).db;
            && !HoldsLease(db, now, j, older)
            && (forall c: Completion :: c.job == j ==> DbAfter(db, CompleteAndPromote(db, now, c, older)) == db)
            && (forall f: Failure :: f.job == j ==> FailVersion(db, now, f, older) == Commit(db, false))
            && (forall copy, e :: SettleExecutionFailure(db, policy, now, j, copy, older, e) == Commit(db, false))
  {
    assert ([m] + rest)[1..] == rest;
    var next := Next(w, policy, m.now, m.step);
    StepPreserves(w, policy, m.now, m.step);
    assert next.db.jobs[j].lease == Some(newer);
    LeaseFloorKept(next, policy, rest, j, newer.expiresAt);
  }

  // ------------------------------------------------------------------
  // Attempt accounting over a whole run
  // ------------------------------------------------------------------

  ghost predicate IsClaim(w: World, policy: Policy, m: Move, j: Id) {
    m.step.Claim? && m.step.job == j
    && var tx := ClaimJob(w.db, policy, m.now, j, m.step.owner); tx.Commit? && tx.value.Claimed?
  }

  /** A terminal or retry write under the lease, or the recovery of a lapsed last attempt. */
  ghost predicate IsSettlement(w: World, policy: Policy, m: Move, j: Id) {
    match m.step
    case Promote(c, held) => c.job == j && CompleteAndPromote(w.db, m.now, c, held).Commit?
                             && HoldsLease(w.db, m.now, j, held)
    case Reject(f, held) => f.job == j && HoldsLease(w.db, m.now, j, held)
    case Settle(i, copy, held, event) =>
      i == j && HoldsLease(w.db, m.now, j, held)
      && SettleExecutionFailure(w.db, policy, m.now, j, copy, held, event).Commit?
    case Claim(i, owner) =>
      i == j && var tx := ClaimJob(w.db, policy, m.now, j, owner); tx.Commit? && tx.value.ClaimExhausted?
    case _ => false
  }

  ghost predicate IsPromotion(w: World, policy: Policy, m: Move, j: Id) {
    m.step.Promote? && IsSettlement(w, policy, m, j)
  }

  ghost function Claims(w: World, policy: Policy, trace: Trace, j: Id): nat
    decreases |trace|
  {
    if trace == [] then 0
    else (if IsClaim(w, policy, trace[0], j) then 1 else 0)
         + Claims(Next(w, policy, trace[0].now, trace[0].step), policy, trace[1..], j)
  }

  ghost function Settlements(w: World, policy: Policy, trace: Trace, j: Id): nat
    decreases |trace|
  {
    if trace == [] then 0
    else (if IsSettlement(w, policy, trace[0], j) then 1 else 0)
         + Settlements(Next(w, policy, trace[0].now, trace[0].step), policy, trace[1..], j)
  }

  ghost function Promotions(w: World, policy: Policy, trace: Trace, j: Id): nat
    decreases |trace|
  {
    if trace == [] then 0
    else (if IsPromotion(w, policy, trace[0], j) then 1 else 0)
         + Promotions(Next(w, policy, trace[0].now, trace[0].step), policy, trace[1..], j)
  }

  /** Attempts a job has left; none once its row is gone, all of them before it exists. */
  function AttemptsLeft(w: World, policy: Policy, j: Id): int {
    if j in w.db.jobs then policy.MaxAttempts() - w.db.jobs[j].attempts
    else if j in w.spentJobs then 0
    else policy.MaxAttempts()
  }

  lemma ClaimSpendsAttempt(w: World, policy: Policy, m: Move, j: Id)
    requires WorldInv(w, policy) && Enabled(w, m.step, m.now)
    ensures var left := AttemptsLeft(Next(w, policy, m.now, m.step), policy, j);
            0 <= left <= AttemptsLeft(w, policy, j) - (if IsClaim(w, policy, m, j) then 1 else 0)
  {
    var next := Next(w, policy, m.now, m.step);
    StepEvolves(w.db, policy, m.now, m.step);
    StepPreserves(w, policy, m.now, m.step);
    assert JobEvolves(w.db, next.db, policy, m.now, m.step, j);
    if j in next.db.jobs { assert JobSound(next.db, policy, j); }
    if j in w.db.jobs { assert JobSound(w.db, policy, j); }
  }

  /** Crash recovery and replay included, a job is claimed at most len(delays)+1 times. */
  lemma {:induction false} ClaimsBounded(w: World, policy: Policy, trace: Trace, j: Id)
    requires WorldInv(w, policy) && Valid(w, policy, trace)
    ensures Claims(w, policy, trace, j) <= AttemptsLeft(w, policy, j) <= |policy.delays| + 1
    decreases |trace|
  {
    if j in w.db.jobs { assert JobSound(w.db, policy, j); }
    if trace != [] {
      var m := trace[0];
      ClaimSpendsAttempt(w, policy, m, j);
      StepPreserves(w, policy, m.now, m.step);
      ClaimsBounded(Next(w, policy, m.now, m.step), policy, trace[1..], j);
    }
  }

  /** One while the job is leased out for processing. */
  function InHand(w: World, j: Id): nat {
    if j in w.db.jobs && w.db.jobs[j].status.JobProcessing? then 1 else 0
  }

  /** A settlement finds the job leased and ends that attempt. */
  lemma SettlementEndsAttempt(w: World, policy: Policy, m: Move, j: Id)
    requires Jobs(w.db, policy)
    requires IsSettlement(w, policy, m, j) && Enabled(w, m.step, m.now)
    ensures InHand(w, j) == 1 && j in NextDb(w.db, policy, m.now, m.step).jobs
    ensures !NextDb(w.db, policy, m.now, m.step).jobs[j].status.JobProcessing?
  {
    assert JobSound(w.db, policy, j);
  }

  lemma SettlementUsesClaim(w: World, policy: Policy, m: Move, j: Id)
    requires WorldInv(w, policy) && Enabled(w, m.step, m.now)
    ensures InHand(Next(w, policy, m.now, m.step), j) + (if IsSettlement(w, policy, m, j) then 1 else 0)
         <= InHand(w, j) + (if IsClaim(w, policy, m, j) then 1 else 0)
  {
    if IsSettlement(w, policy, m, j) {
      SettlementEndsAttempt(w, policy, m, j);
    } else {
      var after := NextDb(w.db, policy, m.now, m.step);
      if j in after.jobs && after.jobs[j].status.JobProcessing? { EntersByClaim(w.db, policy, m.now, m.step, j); }
    }
  }

  lemma EntersByClaim(db: Db, policy: Policy, now: Time, step: Step, j: Id)
    requires Versions(db) && Jobs(db, policy)
    requires step.Promote? ==> step.completion.job in db.jobs ==> Describes(db, step.completion)
    requires j in NextDb(db, policy, now, step).jobs && NextDb(db, policy, now, step).jobs[j].status.JobProcessing?
    ensures (j in db.jobs && db.jobs[j].status.JobProcessing?)
         || (step.Claim? && step.job == j && var tx := ClaimJob(db, policy, now, j, step.owner);
             tx.Commit? && tx.value.Claimed?)
  {
    StepEvolves(db, policy, now, step);
    assert JobEvolves(db, NextDb(db, policy, now, step), policy, now, step, j);
  }

  /** Each attempt settles at most once: settlements never outnumber claims. */
  lemma {:induction false} SettlementsBounded(w: World, policy: Policy, trace: Trace, j: Id)
    requires WorldInv(w, policy) && Valid(w, policy, trace)
    ensures Settlements(w, policy, trace, j) <= Claims(w, policy, trace, j) + InHand(w, j)
    decreases |trace|
  {
    if trace != [] {
      var m := trace[0];
      SettlementUsesClaim(w, policy, m, j);
      StepPreserves(w, policy, m.now, m.step);
      SettlementsBounded(Next(w, policy, m.now, m.step), policy, trace[1..], j);
    }
  }

  function Promotable(w: World, j: Id): nat {
    if j in w.db.jobs then (if w.db.jobs[j].status.JobCompleted? then 0 else 1)
    else if j in w.spentJobs then 0 else 1
  }

  lemma PromotableNeverGrows(w: World, policy: Policy, m: Move, j: Id)
    requires WorldInv(w, policy) && Enabled(w, m.step, m.now)
    ensures Promotable(Next(w, policy, m.now, m.step), j) <= Promotable(w, j)
  {
    StepEvolves(w.db, policy, m.now, m.step);
    assert JobEvolves(w.db, NextDb(w.db, policy, m.now, m.step), policy, m.now, m.step, j);
  }

  lemma PromotionCompletes(db: Db, policy: Policy, now: Time, c: Completion, held: Lease)
    requires Jobs(db, policy) && CompleteAndPromote(db, now, c, held).Commit? && HoldsLease(db, now, c.job, held)
    ensures c.job in db.jobs && !db.jobs[c.job].status.JobCompleted?
    ensures
      var after := DbAfter(db, CompleteAndPromote(db, now, c, held));
      c.job in after.jobs && after.jobs[c.job].status.JobCompleted?
  {
  }

  lemma PromotionIsFinal(w: World, policy: Policy, m: Move, j: Id)
    requires WorldInv(w, policy) && Enabled(w, m.step, m.now)
    ensures Promotable(Next(w, policy, m.now, m.step), j) + (if IsPromotion(w, policy, m, j) then 1 else 0)
         <= Promotable(w, j)
  {
    if IsPromotion(w, policy, m, j) {
      PromotionCompletes(w.db, policy, m.now, m.step.completion, m.step.held);
    } else {
      PromotableNeverGrows(w, policy, m, j);
    }
  }

  /** Each job is promoted at most once in its whole life. */
  lemma {:induction false} PromotedAtMostOnce(w: World, policy: Policy, trace: Trace, j: Id)
    requires WorldInv(w, policy) && Valid(w, policy, trace)
    ensures Promotions(w, policy, trace, j) <= Promotable(w, j) <= 1
    decreases |trace|
  {
    if trace != [] {
      var m := trace[0];
      PromotionIsFinal(w, policy, m, j);
      StepPreserves(w, policy, m.now, m.step);
      PromotedAtMostOnce(Next(w, policy, m.now, m.step), policy, trace[1..], j);
    }
  }

  // ------------------------------------------------------------------
  // When a claim runs out of attempts
  // ------------------------------------------------------------------

  /** `ErrJobExhausted` is returned exactly for a queued job that has no attempt left. */
  lemma ExhaustedExactly(db: Db, policy: Policy, now: Time, j: Id, owner: string)
    requires Jobs(db, policy) && owner != ""
    ensures ClaimJob(db, policy, now, j, owner) == Rollback(JobExhausted)
       <==> j in db.jobs && db.jobs[j].status.JobQueued? && db.jobs[j].attempts == policy.MaxAttempts()
  {
    if j in db.jobs { assert JobSound(db, policy, j); }
  }

  /** No job is isolated and every queued job has an attempt left. */
  ghost predicate Fresh(db: Db, policy: Policy, j: Id) {
    j in db.jobs ==>
      db.jobs[j].isolatedAt.None? && (db.jobs[j].status.JobQueued? ==> db.jobs[j].attempts < policy.MaxAttempts())
  }

  lemma FreshLease(db: Db, policy: Policy, now: Time, step: Step, j: Id)
    requires Jobs(db, policy) && Fresh(db, policy, j)
    requires step.Claim? || step.Renew?
    ensures Fresh(NextDb(db, policy, now, step), policy, j)
  {
    if j in db.jobs { assert JobSound(db, policy, j); }
  }

  lemma FreshSettle(db: Db, policy: Policy, now: Time, step: Step, j: Id)
    requires Jobs(db, policy) && Fresh(db, policy, j)
    requires step.Settle?
    ensures Fresh(NextDb(db, policy, now, step), policy, j)
  {
    if j in db.jobs { assert JobSound(db, policy, j); }
  }

  lemma FreshTerminal(db: Db, policy: Policy, now: Time, step: Step, j: Id)
    requires Jobs(db, policy) && Fresh(db, policy, j)
    requires step.Promote? || step.Reject? || step.Replay?
    ensures Fresh(NextDb(db, policy, now, step), policy, j)
  {
    if j in db.jobs { assert JobSound(db, policy, j); }
  }

  predicate TouchesJob(step: Step) {
    || step.Claim? || step.Renew? || step.Settle? || step.Promote? || step.Reject? || step.Replay?
    || step.Isolate?
  }

  /** Steps of the other tables keep a job row, delete it, or insert a new queued one. */
  lemma UntouchedJob(db: Db, policy: Policy, now: Time, step: Step, j: Id)
    requires !TouchesJob(step)
    requires j in NextDb(db, policy, now, step).jobs
    ensures var job := NextDb(db, policy, now, step).jobs[j];
            || (j in db.jobs && job == db.jobs[j])
            || (step.CommitSession? && job.status.JobQueued? && job.attempts == 0 && job.isolatedAt.None?)
  {
    if step.ReconcilePass? { RedispatchKeepsRows(db, now, step.picks); }
    if step.CreateSession? { CreateShape(db, step.request, step.options, step.clock); }
  }

  lemma FreshOther(db: Db, policy: Policy, now: Time, step: Step, j: Id)
    requires Jobs(db, policy) && Fresh(db, policy, j)
    requires !TouchesJob(step)
    ensures Fresh(NextDb(db, policy, now, step), policy, j)
  {
    if j in NextDb(db, policy, now, step).jobs { UntouchedJob(db, policy, now, step, j); }
  }

  lemma FreshStep(db: Db, policy: Policy, now: Time, step: Step, j: Id)
    requires Jobs(db, policy) && Fresh(db, policy, j) && !step.Isolate?
    ensures Fresh(NextDb(db, policy, now, step), policy, j)
  {
    match step
    case Claim(_, _) => FreshLease(db, policy, now, step, j);
    case Renew(_, _) => FreshLease(db, policy, now, step, j);
    case Settle(_, _, _, _) => FreshSettle(db, policy, now, step, j);
    case Promote(_, _) => FreshTerminal(db, policy, now, step, j);
    case Reject(_, _) => FreshTerminal(db, policy, now, step, j);
    case Replay(_, _, _) => FreshTerminal(db, policy, now, step, j);
    case _ => FreshOther(db, policy, now, step, j);
  }

  /** In a run without notification isolation `ErrJobExhausted` is unreachable. */
  lemma {:induction false} NeverExhaustedWithoutIsolation(
    w: World, policy: Policy, trace: Trace, j: Id, now: Time, owner: string)
    requires WorldInv(w, policy) && Valid(w, policy, trace)
    requires Fresh(w.db, policy, j)
    requires forall i :: 0 <= i < |trace| ==> !trace[i].step.Isolate?
    ensures ClaimJob(Run(w, policy, trace).db, policy, now, j, owner) != Rollback(JobExhausted)
    decreases |trace|
  {
    if trace == [] {
      if owner != "" { ExhaustedExactly(w.db, policy, now, j, owner); }
    } else {
      var m := trace[0];
      FreshStep(w.db, policy, m.now, m.step, j);
      StepPreserves(w, policy, m.now, m.step);
      NeverExhaustedWithoutIsolation(Next(w, policy, m.now, m.step), policy, trace[1..], j, now, owner);
    }
  }

  /**
   Replay keeps the attempt count: a replayed job is refused as exhausted exactly if it was
   isolated during, or after, its last attempt.
   */
  lemma IsolatedOnLastAttempt(
    db: Db, policy: Policy, j: Id, t0: Time, t1: Time, t2: Time, event: Id, owner: string)
    requires Jobs(db, policy) && j in db.jobs && db.jobs[j].isolatedAt.None? && owner != ""
    ensures var isolated := IsolateNotification(db, t0, j);
            var replayed := RebuildAndEnqueue(isolated, t1, j, true, event);
            replayed.Commit? ==>
              (ClaimJob(replayed.db, policy, t2, j, owner) == Rollback(JobExhausted) <==> db.jobs[j].attempts == policy.MaxAttempts())
  {
    assert JobSound(db, policy, j);
  }

  /** Its attempts used up, the job is queued, or isolated and may be queued again. */
  ghost predicate UsedUp(db: Db, policy: Policy, j: Id) {
    j in db.jobs ==>
      && db.jobs[j].attempts == policy.MaxAttempts() && (db.jobs[j].status.JobQueued? || db.jobs[j].isolatedAt.Some?)
  }

  lemma UsedUpLease(db: Db, policy: Policy, now: Time, step: Step, j: Id)
    requires Jobs(db, policy) && UsedUp(db, policy, j)
    requires step.Claim? || step.Renew? || step.Settle?
    ensures UsedUp(NextDb(db, policy, now, step), policy, j)
  {
    if j in db.jobs { assert JobSound(db, policy, j); }
  }

  lemma UsedUpTerminal(db: Db, policy: Policy, now: Time, step: Step, j: Id)
    requires Jobs(db, policy) && UsedUp(db, policy, j)
    requires step.Promote? || step.Reject? || step.Replay? || step.Isolate?
    ensures UsedUp(NextDb(db, policy, now, step), policy, j)
  {
    if j in db.jobs { assert JobSound(db, policy, j); }
  }

  lemma UsedUpStep(w: World, policy: Policy, now: Time, step: Step, j: Id)
    requires WorldInv(w, policy) && Enabled(w, step, now) && j in w.spentJobs && UsedUp(w.db, policy, j)
    ensures UsedUp(NextDb(w.db, policy, now, step), policy, j)
  {
    if step.Claim? || step.Renew? || step.Settle? {
      UsedUpLease(w.db, policy, now, step, j);
    } else if step.Promote? || step.Reject? || step.Replay? || step.Isolate? {
      UsedUpTerminal(w.db, policy, now, step, j);
    } else if j in NextDb(w.db, policy, now, step).jobs {
      UntouchedJob(w.db, policy, now, step, j);
      StepEvolves(w.db, policy, now, step);
    }
  }

  /** A queued job with its attempts used up, and no claim, settlement or verdict ever to come. */
  ghost predicate DeadEnd(db: Db, policy: Policy, j: Id) {
    j in db.jobs ==>
      && db.jobs[j].Live() && !db.jobs[j].status.JobProcessing?
      && db.jobs[j].version in db.versions && db.versions[db.jobs[j].version].status.VersionPending?
      && db.jobs[j].asset in db.assets && db.assets[db.jobs[j].asset].pending == Some(db.jobs[j].version)
      && (forall now, owner {:trigger ClaimJob(db, policy, now, j, owner)} :: ClaimJob(db, policy, now, j, owner).Rollback?)
      && (forall now, held {:trigger HoldsLease(db, now, j, held)} :: !HoldsLease(db, now, j, held))
  }

  lemma UsedUpNow(db: Db, policy: Policy, j: Id)
    requires Jobs(db, policy) && UsedUp(db, policy, j)
    ensures DeadEnd(db, policy, j)
  {
    if j in db.jobs { assert JobSound(db, policy, j); }
  }

  /**
   Whatever the run does afterwards, a queued job whose attempts are used up is never claimed,
   settled, promoted or rejected: until its asset is purged it stays live, its version pending,
   and the asset's pending pointer on that version.
   */
  lemma {:induction false} UsedUpIsDeadEnd(w: World, policy: Policy, trace: Trace, j: Id)
    requires WorldInv(w, policy) && Valid(w, policy, trace) && j in w.spentJobs && UsedUp(w.db, policy, j)
    ensures DeadEnd(Run(w, policy, trace).db, policy, j)
    decreases |trace|
  {
    if trace == [] {
      UsedUpNow(w.db, policy, j);
    } else {
      var m := trace[0];
      UsedUpStep(w, policy, m.now, m.step, j);
      StepPreserves(w, policy, m.now, m.step);
      UsedUpIsDeadEnd(Next(w, policy, m.now, m.step), policy, trace[1..], j);
    }
  }

  // ------------------------------------------------------------------
  // No stranded job
  // ------------------------------------------------------------------

  ghost predicate AllPublishedBy(db: Db, j: Id, latest: Time) {
    forall e :: e in db.outbox && db.outbox[e].job == j && db.outbox[e].publishedAt.Some?
                && db.outbox[e].status.EventPublished?
      ==> db.outbox[e].publishedAt.value <= latest
  }

  /**
   A queued or processing job either has an event in flight or is picked up by
   reconciliation exactly once it is due and its publications are stale.
   */
  lemma NeverStranded(db: Db, policy: Policy, j: Id, now: Time, staleAfter: nat)
    requires Coherent(db, policy)
    requires j in db.jobs && (db.jobs[j].status.JobQueued? || db.jobs[j].status.JobProcessing?)
    ensures HasUnpublished(db, j)
         || (Stale(db, now, staleAfter, j) <==> Due(db.jobs[j], now) && AllPublishedBy(db, j, now - staleAfter))
    ensures db.jobs[j].status.JobProcessing? ==> db.jobs[j].lease.Some?
  {
    assert JobSound(db, policy, j) && Dispatched(db, j);
    var e :| e in db.outbox && db.outbox[e].job == j;
    assert EventSound(db, e);
    if !HasUnpublished(db, j) {
      assert !db.outbox[e].Unpublished();
      if AllPublishedBy(db, j, now - staleAfter) {
        assert PublishedBy(db, j, e, now - staleAfter);
      }
    }
  }

  /** A pass with new event ids leaves an event in flight for every job it picked. */
  lemma {:induction false} RedispatchCovers(db: Db, now: Time, picks: seq<Pick>, i: nat)
    requires i < |picks|
    requires forall k :: 0 <= k < |picks| ==> picks[k].event !in db.outbox
    requires forall k, l :: 0 <= k < l < |picks| ==> picks[k].event != picks[l].event
    ensures HasUnpublished(Redispatch(db, now, picks), picks[i].job)
    decreases |picks|
  {
    var inserted := InsertEvent(db, picks[0].event, picks[0].job, now);
    var next := if inserted.Commit? then inserted.db else db;
    if i == 0 {
      assert HasUnpublished(next, picks[0].job) by {
        if inserted.Commit? { assert next.outbox[picks[0].event].Unpublished(); }
      }
      RedispatchKeepsUnpublished(next, now, picks[1..], picks[0].job);
    } else {
      RedispatchCovers(next, now, picks[1..], i - 1);
    }
  }

  lemma InsertKeepsUnpublished(db: Db, pick: Pick, now: Time, j: Id)
    requires HasUnpublished(db, j)
    ensures HasUnpublished(DbAfter(db, InsertEvent(db, pick.event, pick.job, now)), j)
  {
    var after := DbAfter(db, InsertEvent(db, pick.event, pick.job, now));
    var e :| e in db.outbox && db.outbox[e].job == j && db.outbox[e].Unpublished();
    assert e in after.outbox && after.outbox[e] == db.outbox[e];
  }

  lemma {:induction false} RedispatchKeepsUnpublished(db: Db, now: Time, picks: seq<Pick>, j: Id)
    requires HasUnpublished(db, j)
    ensures HasUnpublished(Redispatch(db, now, picks), j)
    decreases |picks|
  {
    if picks != [] {
      var inserted := InsertEvent(db, picks[0].event, picks[0].job, now);
      var next := if inserted.Commit? then inserted.db else db;
      InsertKeepsUnpublished(db, picks[0], now, j);
      RedispatchKeepsUnpublished(next, now, picks[1..], j);
    }
  }

  /** A second reconciliation pass over the jobs just re-dispatched inserts nothing. */
  lemma SecondPassInsertsNothing(
    db: Db, now: Time, staleAfter: nat, picks: seq<Pick>, later: Time, laterStale: nat, again: seq<Pick>)
    requires forall k :: 0 <= k < |picks| ==> picks[k].event !in db.outbox && Stale(db, now, staleAfter, picks[k].job)
    requires forall k, l :: 0 <= k < l < |picks| ==> picks[k].event != picks[l].event
    requires forall k :: 0 <= k < |again| ==> exists i :: 0 <= i < |picks| && picks[i].job == again[k].job
    ensures var once := Reconcile(db, now, staleAfter, picks);
            && Reconcile(once, later, laterStale, again) == once
            && Redispatch(once, later, again) == once
  {
    var once := Reconcile(db, now, staleAfter, picks);
    forall k | 0 <= k < |again| ensures HasUnpublished(once, again[k].job) {
      var i :| 0 <= i < |picks| && picks[i].job == again[k].job;
      RedispatchCovers(db, now, picks, i);
    }
    RedispatchIdle(once, later, again);
  }

  lemma {:induction false} RedispatchIdle(db: Db, now: Time, picks: seq<Pick>)
    requires forall k :: 0 <= k < |picks| ==> HasUnpublished(db, picks[k].job)
    ensures Redispatch(db, now, picks) == db
    decreases |picks|
  {
    if picks != [] { RedispatchIdle(db, now, picks[1..]); }
  }
}
