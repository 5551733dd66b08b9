module MediaKeys {
  // The object keys the media tables record for an asset: the raw key of every
  // upload session and version, and the key of every stored output.

  import opened Wrappers
  import opened MediaTables
  import opened MediaSteps
  import opened MediaInvariant
  import opened MediaWorld

  ghost predicate RecordsSession(db: Db, a: Id, key: ObjectKey, s: Id) {
    s in db.sessions && db.sessions[s].asset == a && db.sessions[s].rawKey == key
  }

  ghost predicate RecordsVersion(db: Db, a: Id, key: ObjectKey, v: Id) {
    v in db.versions && db.versions[v].asset == a
    && (db.versions[v].rawKey == key || key in db.versions[v].outputs.Values)
  }

  ghost predicate Records(db: Db, a: Id, key: ObjectKey) {
    (exists s :: RecordsSession(db, a, key, s)) || (exists v :: RecordsVersion(db, a, key, v))
  }

  /** The same keys as the set the three manifest inserts select. */
  function RecordedKeys(db: Db, a: Id): set<ObjectKey> {
    (set v | v in db.versions && db.versions[v].asset == a :: db.versions[v].rawKey)
    + (set v, kind | v in db.versions && db.versions[v].asset == a && kind in db.versions[v].outputs
         :: db.versions[v].outputs[kind])
    + (set s | s in db.sessions && db.sessions[s].asset == a :: db.sessions[s].rawKey)
  }

  lemma RecordedKeysAreRecords(db: Db, a: Id, key: ObjectKey)
    ensures key in RecordedKeys(db, a) <==> Records(db, a, key)
  {
    if key in RecordedKeys(db, a) {
      if s :| s in db.sessions && db.sessions[s].asset == a && db.sessions[s].rawKey == key {
        assert RecordsSession(db, a, key, s);
      } else if v :| v in db.versions && db.versions[v].asset == a && db.versions[v].rawKey == key {
        assert RecordsVersion(db, a, key, v);
      } else {
        var v, kind :| v in db.versions && db.versions[v].asset == a && kind in db.versions[v].outputs
                       && db.versions[v].outputs[kind] == key;
        assert RecordsVersion(db, a, key, v);
      }
    }
    if Records(db, a, key) {
      if s :| RecordsSession(db, a, key, s) {
      } else {
        var v :| RecordsVersion(db, a, key, v);
        if db.versions[v].rawKey != key {
          var kind :| kind in db.versions[v].outputs && db.versions[v].outputs[kind] == key;
        }
      }
    }
  }

  // ---- what one step does to the recorded keys ----

  /** A session row keeps its key and deadline; a new one belongs to an available asset and carries what it was given. */
  ghost predicate SessionKeyKept(db: Db, after: Db, step: Step, s: Id) {
    s in after.sessions ==>
      || (s in db.sessions && after.sessions[s].asset == db.sessions[s].asset
          && after.sessions[s].rawKey == db.sessions[s].rawKey && after.sessions[s].expiresAt == db.sessions[s].expiresAt)
      || (step.CreateSession? && s == step.options.upload
          && after.sessions[s].asset == step.request.asset && after.sessions[s].rawKey == step.options.rawKey
          && after.sessions[s].expiresAt == step.options.expiresAt
          && AssetActive(db, step.request.asset))
  }

  /** A version row keeps its keys or loses outputs; keys are added only by commit and promotion of an active asset. */
  ghost predicate VersionKeysKept(db: Db, after: Db, step: Step, v: Id) {
    v in after.versions ==>
      || (v in db.versions && after.versions[v].upload == db.versions[v].upload
          && after.versions[v].asset == db.versions[v].asset && after.versions[v].rawKey == db.versions[v].rawKey
          && after.versions[v].outputs.Values <= db.versions[v].outputs.Values)
      || (step.CommitSession?
          && step.scope.upload in db.sessions && after.versions[v].upload == step.scope.upload
          && after.versions[v].asset == db.sessions[step.scope.upload].asset
          && after.versions[v].rawKey == db.sessions[step.scope.upload].rawKey
          && after.versions[v].outputs == map[] && AssetActive(db, after.versions[v].asset))
      || (step.Promote? && v in db.versions && v == step.completion.version
          && after.versions[v].upload == db.versions[v].upload
          && after.versions[v].asset == db.versions[v].asset && after.versions[v].rawKey == db.versions[v].rawKey
          && after.versions[v].asset == step.completion.asset && AssetActive(db, step.completion.asset)
          && after.versions[v].outputs.Values
             <= db.versions[v].outputs.Values + set o | o in step.completion.outputs :: o.key)
  }

  ghost predicate KeysEvolve(db: Db, after: Db, step: Step) {
    && (forall s {:trigger SessionKeyKept(db, after, step, s)} :: SessionKeyKept(db, after, step, s))
    && (forall v {:trigger VersionKeysKept(db, after, step, v)} :: VersionKeysKept(db, after, step, v))
  }

  lemma CreateKeys(db: Db, policy: Policy, now: Time, step: Step)
    requires step.CreateSession?
    ensures KeysEvolve(db, NextDb(db, policy, now, step), step)
  {
    var after := NextDb(db, policy, now, step);
    CreateShape(db, step.request, step.options, step.clock);
    CreateNeedsActiveAsset(db, step.request, step.options, step.clock);
    forall s ensures SessionKeyKept(db, after, step, s) {}
    forall v ensures VersionKeysKept(db, after, step, v) {}
  }

  lemma CreateNeedsActiveAsset(db: Db, request: UploadRequest, options: SessionOptions, clock: Time)
    ensures CreateUploadSession(db, request, options, clock).Commit? ==> AssetActive(db, request.asset)
  {
  }

  lemma CloseKeys(db: Db, policy: Policy, now: Time, step: Step)
    requires step.CloseSession? || step.SweepExpired?
    ensures KeysEvolve(db, NextDb(db, policy, now, step), step)
  {
    var after := NextDb(db, policy, now, step);
    forall s ensures SessionKeyKept(db, after, step, s) {}
    forall v ensures VersionKeysKept(db, after, step, v) {}
  }

  lemma CommitKeys(db: Db, policy: Policy, now: Time, step: Step)
    requires step.CommitSession?
    ensures KeysEvolve(db, NextDb(db, policy, now, step), step)
  {
    var after := NextDb(db, policy, now, step);
    forall s ensures SessionKeyKept(db, after, step, s) {}
    forall v ensures VersionKeysKept(db, after, step, v) {}
  }

  lemma SweepKeys(db: Db, policy: Policy, now: Time, step: Step)
    requires step.SweepPurged?
    ensures KeysEvolve(db, NextDb(db, policy, now, step), step)
  {
    var after := NextDb(db, policy, now, step);
    SweepShape(db, step.claim);
    forall s ensures SessionKeyKept(db, after, step, s) {}
    forall v ensures VersionKeysKept(db, after, step, v) {}
  }

  lemma {:induction false} InsertedValues(stored: map<OutputKind, ObjectKey>, outputs: seq<Output>)
    ensures InsertOutputs(stored, outputs).Values <= stored.Values + set o | o in outputs :: o.key
    decreases |outputs|
  {
    if outputs != [] {
      var first := outputs[0];
      var next := if first.kind in stored then stored else stored[first.kind := first.key];
      InsertedValues(next, outputs[1..]);
      assert next.Values <= stored.Values + {first.key};
      assert (set o | o in outputs[1..] :: o.key) + {first.key} <= set o | o in outputs :: o.key;
    }
  }

  lemma PromoteKeys(db: Db, policy: Policy, now: Time, step: Step)
    requires Jobs(db, policy)
    requires step.Promote? && (step.completion.job in db.jobs ==> Describes(db, step.completion))
    ensures KeysEvolve(db, NextDb(db, policy, now, step), step)
  {
    var c := step.completion;
    var after := NextDb(db, policy, now, step);
    forall s ensures SessionKeyKept(db, after, step, s) {}
    if after != db {
      assert JobSound(db, policy, c.job);
      InsertedValues(db.versions[c.version].outputs, c.outputs);
    }
    forall v ensures VersionKeysKept(db, after, step, v) {}
  }

  /** Sessions stand still and versions keep their identity and outputs. */
  lemma IdentityKept(db: Db, after: Db, step: Step)
    requires after.sessions == db.sessions && after.versions.Keys == db.versions.Keys
    requires forall v :: v in db.versions ==>
      after.versions[v].asset == db.versions[v].asset && after.versions[v].rawKey == db.versions[v].rawKey
      && after.versions[v].upload == db.versions[v].upload && after.versions[v].outputs == db.versions[v].outputs
    ensures KeysEvolve(db, after, step)
  {
    forall s ensures SessionKeyKept(db, after, step, s) {}
    forall v ensures VersionKeysKept(db, after, step, v) {}
  }

  lemma ClaimKeys(db: Db, policy: Policy, now: Time, step: Step, j: Id, owner: string)
    ensures KeysEvolve(db, DbAfter(db, ClaimJob(db, policy, now, j, owner)), step)
  {
    ClaimFrame(db, policy, now, j, owner);
    IdentityKept(db, DbAfter(db, ClaimJob(db, policy, now, j, owner)), step);
  }

  lemma SettleKeys(db: Db, policy: Policy, now: Time, step: Step, j: Id, copy: Job, held: Lease, event: Id)
    ensures KeysEvolve(db, DbAfter(db, SettleExecutionFailure(db, policy, now, j, copy, held, event)), step)
  {
    SettleFrame(db, policy, now, j, copy, held, event);
    IdentityKept(db, DbAfter(db, SettleExecutionFailure(db, policy, now, j, copy, held, event)), step);
  }

  lemma RejectKeys(db: Db, now: Time, step: Step, f: Failure, held: Lease)
    ensures KeysEvolve(db, DbAfter(db, FailVersion(db, now, f, held)), step)
  {
    IdentityKept(db, DbAfter(db, FailVersion(db, now, f, held)), step);
  }

  lemma ParkKeys(db: Db, policy: Policy, now: Time, step: Step)
    requires step.Renew? || step.Isolate? || step.Replay?
    ensures KeysEvolve(db, NextDb(db, policy, now, step), step)
  {
    IdentityKept(db, NextDb(db, policy, now, step), step);
  }

  lemma RelayKeys(db: Db, policy: Policy, now: Time, step: Step)
    requires step.RelayClaim? || step.RelayPublished? || step.RelayReschedule?
      || step.ListExpired? || step.ListPurgeable? || step.NewAsset? || step.TouchAsset?
    ensures KeysEvolve(db, NextDb(db, policy, now, step), step)
  {
    IdentityKept(db, NextDb(db, policy, now, step), step);
  }

  lemma ReconcileKeys(db: Db, now: Time, staleAfter: nat, picks: seq<Pick>, step: Step)
    ensures KeysEvolve(db, Reconcile(db, now, staleAfter, picks), step)
  {
    RedispatchKeepsRows(db, now, picks);
    IdentityKept(db, Reconcile(db, now, staleAfter, picks), step);
  }

  lemma TeardownKeys(db: Db, org: Id, asset: Id, unit: Id, step: Step)
    ensures KeysEvolve(db, DbAfter(db, FinalizePurgeAsset(db, org, asset, unit)), step)
  {
    var after := DbAfter(db, FinalizePurgeAsset(db, org, asset, unit));
    forall s ensures SessionKeyKept(db, after, step, s) {}
    forall v ensures VersionKeysKept(db, after, step, v) {}
  }

  lemma StepKeys(db: Db, policy: Policy, now: Time, step: Step)
    requires Jobs(db, policy)
    requires step.Promote? ==> step.completion.job in db.jobs ==> Describes(db, step.completion)
    ensures KeysEvolve(db, NextDb(db, policy, now, step), step)
  {
    match step
    case CreateSession(_, _, _) => CreateKeys(db, policy, now, step);
    case CloseSession(_, _, _) => CloseKeys(db, policy, now, step);
    case SweepExpired(_) => CloseKeys(db, policy, now, step);
    case CommitSession(_, _, _, _) => CommitKeys(db, policy, now, step);
    case SweepPurged(_) => SweepKeys(db, policy, now, step);
    case Promote(_, _) => PromoteKeys(db, policy, now, step);
    case Claim(j, owner) => ClaimKeys(db, policy, now, step, j, owner);
    case Settle(j, copy, held, event) => SettleKeys(db, policy, now, step, j, copy, held, event);
    case Reject(f, held) => RejectKeys(db, now, step, f, held);
    case ReconcilePass(staleAfter, picks) => ReconcileKeys(db, now, staleAfter, picks, step);
    case PurgeAsset(org, asset, unit) => TeardownKeys(db, org, asset, unit, step);
    case Renew(_, _) => ParkKeys(db, policy, now, step);
    case Isolate(_) => ParkKeys(db, policy, now, step);
    case Replay(_, _, _) => ParkKeys(db, policy, now, step);
    case _ => RelayKeys(db, policy, now, step);
  }

  /** An asset that is tombstoned, or gone, gains no recorded key in any step. */
  lemma TombstonedGainsNoKey(db: Db, policy: Policy, now: Time, step: Step, a: Id, key: ObjectKey)
    requires Jobs(db, policy)
    requires step.Promote? ==> step.completion.job in db.jobs ==> Describes(db, step.completion)
    requires !AssetActive(db, a) && Records(NextDb(db, policy, now, step), a, key)
    ensures Records(db, a, key)
  {
    StepKeys(db, policy, now, step);
    EvolvedRecords(db, NextDb(db, policy, now, step), step, a, key);
  }

  lemma EvolvedRecords(db: Db, after: Db, step: Step, a: Id, key: ObjectKey)
    requires KeysEvolve(db, after, step) && !AssetActive(db, a) && Records(after, a, key)
    ensures Records(db, a, key)
  {
    if s :| RecordsSession(after, a, key, s) {
      assert SessionKeyKept(db, after, step, s);
      assert RecordsSession(db, a, key, s);
    } else {
      var v :| RecordsVersion(after, a, key, v);
      assert VersionKeysKept(db, after, step, v);
      assert RecordsVersion(db, a, key, v);
    }
  }

  // ---- every recorded key names its asset ----

  ghost predicate SessionOwnsKey(db: Db, s: Id) {
    s in db.sessions ==>
      db.sessions[s].rawKey.RawKey? && db.sessions[s].rawKey.asset == db.sessions[s].asset && db.sessions[s].rawKey.upload == s
  }

  ghost predicate VersionOwnsKeys(db: Db, v: Id) {
    v in db.versions ==>
      && db.versions[v].rawKey.RawKey? && db.versions[v].rawKey.asset == db.versions[v].asset
      && db.versions[v].rawKey.upload == db.versions[v].upload
      && forall key :: key in db.versions[v].outputs.Values ==> OutputOf(key, db.versions[v].asset, v)
  }

  ghost predicate KeysOwned(db: Db) {
    && (forall s {:trigger SessionOwnsKey(db, s)} :: SessionOwnsKey(db, s))
    && (forall v {:trigger VersionOwnsKeys(db, v)} :: VersionOwnsKeys(db, v))
  }

  lemma KeysOwnedStep(w: World, policy: Policy, now: Time, step: Step)
    requires Jobs(w.db, policy) && KeysOwned(w.db) && Enabled(w, step, now)
    ensures KeysOwned(NextDb(w.db, policy, now, step))
  {
    var db, after := w.db, NextDb(w.db, policy, now, step);
    StepKeys(db, policy, now, step);
    forall s ensures SessionOwnsKey(after, s) {
      assert SessionOwnsKey(db, s) && SessionKeyKept(db, after, step, s);
    }
    forall v ensures VersionOwnsKeys(after, v) {
      assert VersionOwnsKeys(db, v) && VersionKeysKept(db, after, step, v);
      if step.CommitSession? { assert SessionOwnsKey(db, step.scope.upload); }
    }
  }

  lemma OwnedKeyNamesAsset(db: Db, a: Id, key: ObjectKey)
    requires KeysOwned(db) && Records(db, a, key)
    ensures key.asset == a
  {
    if s :| RecordsSession(db, a, key, s) {
      assert SessionOwnsKey(db, s);
    } else {
      var v :| RecordsVersion(db, a, key, v);
      assert VersionOwnsKeys(db, v);
    }
  }
}
