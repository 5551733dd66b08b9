/**
 The cached decision. Processes share one cache; each coalesces identical work in
 flight. A decision's key carries the epochs read before its grants and ancestors were
 read, a grant change bumps its grantee's epoch after it has committed, and a move its
 organization's asset epoch. The key carries neither the ancestors nor `olpEnabled`.
 Ancestors are read through a second cache, whose keys carry the asset epoch alone.
 */
module DecisionCache {
  import opened Wrappers
  import opened Authorization

  type ProcessId = nat
  type RequestId = nat

  /** What the decision key says about a question: not the ancestors, and not the organization's `olpEnabled`. */
  datatype Asked = Asked(question: Question, resource: Id, roles: set<Id>)

  /** `epochUserKey`, `epochRoleKey` and `epochAssetKey`: one counter per organization and subject. */
  datatype Subject = OfGrantee(org: Id, grantee: Grantee) | OfAssets(org: Id)

  /** `decisionKey`: the epochs of the assets, the user and every role, the last two hashed in the code. */
  datatype Key = Key(asked: Asked, epochs: map<Subject, nat>)

  datatype Place = Place(org: Id, kind: ResourceKind, resource: Id)

  /** The grant rows, and the ancestors of every resource. */
  datatype Facts = Facts(grants: set<Grant>, ancestors: map<Place, seq<Id>>)

  /** A result, who computed it, and how many changes had committed when each query saw its facts. */
  datatype Decision = Decision(allowed: bool, evaluator: RequestId, directAt: nat, aboveAt: nat, treeAt: nat)

  datatype Phase =
    | ReadingEpochs(seen: map<Subject, nat>)
    | Keyed(key: Key)
    | Missed(key: Key)
    | Leading(key: Key, directAt: Option<nat>, treeAt: Option<nat>)
    | Waiting(key: Key, leader: RequestId)
    | Resolved(key: Key, decision: Decision)
    | Returned(key: Key, decision: Decision)

  /**
   `supplied` is `None` for `canDo`, which loads the ancestors itself, and otherwise says
   how old the ancestors are that the caller of `canDoWithKnownAncestors` brings along.
   `acknowledged`: the changes whose epoch bump was complete when the request began.
   */
  datatype Request = Request(
    process: ProcessId, asked: Asked, olpEnabled: bool, supplied: Option<nat>, acknowledged: set<nat>, phase: Phase)

  /** A committed grant change or move; `bumpedTo` is its subject's epoch after its bump. */
  datatype Change = Change(subject: Subject, bumpedTo: Option<nat>)

  datatype Flight = Flight(process: ProcessId, key: Key)

  /** `factFolderKey`, `factItemKey`: a place and the asset epoch of its organization. */
  datatype FactKey = FactKey(place: Place, epoch: nat)

  /** A read through the fact cache: for a decision in flight, or for anybody else. */
  datatype Reader = ForDecision(r: RequestId) | Other(n: nat)

  /** The key formed from the epoch read first; `at`: as of how many changes the ancestors found are. */
  datatype Lookup = Lookup(key: FactKey, at: Option<nat>)

  /** `facts[n]` are the facts after `n` changes; `stored` says as of how many changes each stored fact is. */
  datatype State = State(
    policy: Policy, facts: seq<Facts>, changes: seq<Change>, epochs: map<Subject, nat>,
    stored: map<FactKey, nat>, lookups: map<Reader, Lookup>,
    cache: map<Key, Decision>, inFlight: map<Flight, RequestId>, requests: map<RequestId, Request>)

  datatype Step =
    | CommitChange(subject: Subject, changed: Facts)
    | BumpEpoch(change: nat)
    | Begin(r: RequestId, process: ProcessId, asked: Asked, olpEnabled: bool, supplied: Option<nat>)
    | ReadEpoch(r: RequestId, subject: Subject)
    | FormKey(r: RequestId)
    | ReadCache(r: RequestId)
    | EnterFlight(r: RequestId)
    | QueryDirect(r: RequestId)
    | BeginLookup(reader: Reader, place: Place)
    | FindFact(reader: Reader, hit: bool)
    | StoreFact(reader: Reader)
    | ExpireFact(fact: FactKey)
    | LoadAncestors(r: RequestId)
    | QueryAbove(r: RequestId)
    | TakeLeadersResult(r: RequestId)
    | WriteCache(r: RequestId)
    | ExpireEntry(key: Key)

  function Epoch(s: State, g: Subject): nat {
    if g in s.epochs then s.epochs[g] else 0
  }

  /** The organization's assets, the user there, and every resolved role there. */
  predicate Covers(asked: Asked, g: Subject) {
    g.org == asked.question.org && (g.OfGrantee? ==> Concerns(g.grantee, asked.question.user, asked.roles))
  }

  function WithPhase(s: State, r: RequestId, phase: Phase): State
    requires r in s.requests
  {
    s.(requests := s.requests[r := s.requests[r].(phase := phase)])
  }

  function Acknowledged(s: State): set<nat> {
    set i | 0 <= i < |s.changes| && s.changes[i].bumpedTo.Some?
  }

  /** A grant change touches rows of one grantee in one organization, a move only places of its organization. */
  ghost predicate ChangesOnly(before: Facts, after: Facts, subject: Subject) {
    match subject
    case OfGrantee(org, grantee) =>
      && after.ancestors == before.ancestors
      && (forall g: Grant {:trigger g in before.grants} {:trigger g in after.grants} ::
            !(g.org == org && g.grantee == grantee) ==> (g in before.grants <==> g in after.grants))
    case OfAssets(org) =>
      && after.grants == before.grants
      && (forall p: Place {:trigger AncestorsAt(before, p)} {:trigger AncestorsAt(after, p)} ::
            p.org != org ==> AncestorsAt(after, p) == AncestorsAt(before, p))
  }

  function AncestorsAt(facts: Facts, p: Place): seq<Id> {
    if p in facts.ancestors then facts.ancestors[p] else []
  }

  function PlaceOf(asked: Asked): Place { Place(asked.question.org, asked.question.kind, asked.resource) }

  /** What the evaluation says when its queries see the facts of those moments. */
  predicate Answer(s: State, asked: Asked, olpEnabled: bool, directAt: nat, aboveAt: nat, treeAt: nat) {
    directAt < |s.facts| && aboveAt < |s.facts| && treeAt < |s.facts|
    && Allows(s.facts[directAt].grants, s.facts[aboveAt].grants, s.policy, ByRoles(asked.roles, olpEnabled), asked.question, asked.resource,
              Some(AncestorsAt(s.facts[treeAt], PlaceOf(asked))))
  }

  // ---- steps ----

  predicate AwaitsAncestors(phase: Phase) { phase.Leading? && phase.directAt.Some? && phase.treeAt.None? }

  ghost predicate Enabled(s: State, step: Step) {
    match step
    case CommitChange(subject, changed) => |s.facts| == |s.changes| + 1 && ChangesOnly(s.facts[|s.changes|], changed, subject)
    case BumpEpoch(i) => i < |s.changes| && s.changes[i].bumpedTo.None?
    case Begin(r, _, _, _, supplied) => r !in s.requests && (supplied.Some? ==> supplied.value <= |s.changes|)
    case ReadEpoch(r, g) => r in s.requests && s.requests[r].phase.ReadingEpochs? && Covers(s.requests[r].asked, g)
    case FormKey(r) =>
      && r in s.requests && s.requests[r].phase.ReadingEpochs?
      && (forall g {:trigger Covers(s.requests[r].asked, g)} :: Covers(s.requests[r].asked, g) ==> g in s.requests[r].phase.seen)
    case ReadCache(r) => r in s.requests && s.requests[r].phase.Keyed?
    case EnterFlight(r) => r in s.requests && s.requests[r].phase.Missed?
    case QueryDirect(r) => r in s.requests && s.requests[r].phase.Leading? && s.requests[r].phase.directAt.None?
    case BeginLookup(reader, place) =>
      reader !in s.lookups
      && (reader.ForDecision? ==>
            reader.r in s.requests && AwaitsAncestors(s.requests[reader.r].phase) && s.requests[reader.r].supplied.None?
            && place == PlaceOf(s.requests[reader.r].asked))
    case FindFact(reader, hit) => reader in s.lookups && s.lookups[reader].at.None? && (hit ==> s.lookups[reader].key in s.stored)
    case StoreFact(reader) => reader in s.lookups && s.lookups[reader].at.Some?
    case ExpireFact(_) => true
    case LoadAncestors(r) =>
      && r in s.requests && AwaitsAncestors(s.requests[r].phase)
      && if s.requests[r].supplied.Some? then s.requests[r].supplied.value <= |s.changes|
         else ForDecision(r) in s.lookups && s.lookups[ForDecision(r)].at.Some?
    case QueryAbove(r) =>
      r in s.requests && s.requests[r].phase.Leading? && s.requests[r].phase.directAt.Some? && s.requests[r].phase.treeAt.Some?
    case TakeLeadersResult(r) =>
      && r in s.requests && s.requests[r].phase.Waiting? && s.requests[r].phase.leader in s.requests
      && (s.requests[s.requests[r].phase.leader].phase.Resolved? || s.requests[s.requests[r].phase.leader].phase.Returned?)
    case WriteCache(r) => r in s.requests && s.requests[r].phase.Resolved?
    case ExpireEntry(_) => true
  }

  /** The state after a step; one that is not enabled changes nothing. */
  ghost function Next(s: State, step: Step): State {
    if !Enabled(s, step) then s else
    match step
    case CommitChange(subject, changed) => s.(facts := s.facts + [changed], changes := s.changes + [Change(subject, None)])
    case BumpEpoch(i) =>
      var g := s.changes[i].subject;
      var bumped := Epoch(s, g) + 1;
      s.(epochs := s.epochs[g := bumped], changes := s.changes[i := Change(g, Some(bumped))])
    case Begin(r, process, asked, olpEnabled, supplied) =>
      s.(requests := s.requests[r := Request(process, asked, olpEnabled, supplied, Acknowledged(s), ReadingEpochs(map[]))])
    case ReadEpoch(r, g) => WithPhase(s, r, ReadingEpochs(s.requests[r].phase.seen[g := Epoch(s, g)]))
    case FormKey(r) => WithPhase(s, r, Keyed(Key(s.requests[r].asked, s.requests[r].phase.seen)))
    case ReadCache(r) =>
      var key := s.requests[r].phase.key;
      WithPhase(s, r, if key in s.cache then Returned(key, s.cache[key]) else Missed(key))
    case EnterFlight(r) =>
      var key := s.requests[r].phase.key;
      var flight := Flight(s.requests[r].process, key);
      if flight in s.inFlight then WithPhase(s, r, Waiting(key, s.inFlight[flight]))
      else WithPhase(s, r, Leading(key, None, None)).(inFlight := s.inFlight[flight := r])
    case QueryDirect(r) => WithPhase(s, r, Leading(s.requests[r].phase.key, Some(|s.changes|), None))
    case BeginLookup(reader, place) =>
      s.(lookups := s.lookups[reader := Lookup(FactKey(place, Epoch(s, OfAssets(place.org))), None)])
    case FindFact(reader, hit) =>
      var l := s.lookups[reader];
      s.(lookups := s.lookups[reader := l.(at := Some(if hit then s.stored[l.key] else |s.changes|))])
    case StoreFact(reader) => s.(stored := s.stored[s.lookups[reader].key := s.lookups[reader].at.value])
    case ExpireFact(fact) => s.(stored := s.stored - {fact})
    case LoadAncestors(r) =>
      var request := s.requests[r];
      var at := if request.supplied.Some? then request.supplied else s.lookups[ForDecision(r)].at;
      WithPhase(s, r, Leading(request.phase.key, request.phase.directAt, at))
    case QueryAbove(r) =>
      var phase := s.requests[r].phase;
      var answer := Answer(s, phase.key.asked, s.requests[r].olpEnabled, phase.directAt.value, |s.changes|, phase.treeAt.value);
      WithPhase(s, r, Resolved(phase.key, Decision(answer, r, phase.directAt.value, |s.changes|, phase.treeAt.value)))
        .(inFlight := s.inFlight - {Flight(s.requests[r].process, phase.key)})
    case TakeLeadersResult(r) =>
      WithPhase(s, r, Resolved(s.requests[r].phase.key, s.requests[s.requests[r].phase.leader].phase.decision))
    case WriteCache(r) =>
      var phase := s.requests[r].phase;
      WithPhase(s, r, Returned(phase.key, phase.decision)).(cache := s.cache[phase.key := phase.decision])
    case ExpireEntry(key) => s.(cache := s.cache - {key})
  }

  // ---- the invariant ----

  /** The key's epoch of the change's subject was read after the change's bump. */
  predicate KeyKnows(s: State, key: Key, i: nat) {
    && i < |s.changes| && s.changes[i].bumpedTo.Some? && Covers(key.asked, s.changes[i].subject)
    && s.changes[i].subject in key.epochs && s.changes[i].bumpedTo.value <= key.epochs[s.changes[i].subject]
  }

  /** A query that ran after `at` changes sees every change the key knows of. */
  ghost predicate SeesKnown(s: State, key: Key, at: nat) {
    at <= |s.changes| && forall i: nat {:trigger KeyKnows(s, key, i)} :: KeyKnows(s, key, i) ==> i < at
  }

  /** Ancestors as they were after `at` changes reflect every move the key knows of. */
  ghost predicate SeesMoves(s: State, key: Key, at: nat) {
    at <= |s.changes| && forall i: nat {:trigger KeyKnows(s, key, i)} :: KeyKnows(s, key, i) && s.changes[i].subject.OfAssets? ==> i < at
  }

  /** The decision is the leader's own evaluation of the key's question. */
  predicate Evaluated(s: State, key: Key, d: Decision) {
    && d.evaluator in s.requests && s.requests[d.evaluator].asked == key.asked
    && d.allowed == Answer(s, key.asked, s.requests[d.evaluator].olpEnabled, d.directAt, d.aboveAt, d.treeAt)
  }

  /** Ancestors the evaluator loaded reflect every move its key knows of; supplied ones are as old as they were said to be. */
  ghost predicate TreeSound(s: State, key: Key, evaluator: RequestId, at: nat) {
    && evaluator in s.requests && at <= |s.changes|
    && if s.requests[evaluator].supplied.Some? then at == s.requests[evaluator].supplied.value else SeesMoves(s, key, at)
  }

  ghost predicate FreshFor(s: State, key: Key, d: Decision) {
    && SeesKnown(s, key, d.directAt) && SeesKnown(s, key, d.aboveAt)
    && TreeSound(s, key, d.evaluator, d.treeAt) && Evaluated(s, key, d)
  }

  /** Epochs only grow, so those in a key are at most the present ones. */
  predicate Past(s: State, seen: map<Subject, nat>) {
    forall g :: g in seen ==> seen[g] <= Epoch(s, g)
  }

  /** Epochs read by a request are at least those of the bumps it began after. */
  predicate AfterBumps(s: State, acknowledged: set<nat>, seen: map<Subject, nat>) {
    forall i :: i in acknowledged ==>
      i < |s.changes| && s.changes[i].bumpedTo.Some?
      && (s.changes[i].subject in seen ==> s.changes[i].bumpedTo.value <= seen[s.changes[i].subject])
  }

  ghost predicate KeySound(s: State, r: Request, key: Key) {
    && key.asked == r.asked && Past(s, key.epochs) && AfterBumps(s, r.acknowledged, key.epochs)
    && (forall g {:trigger Covers(key.asked, g)} :: Covers(key.asked, g) ==> g in key.epochs)
  }

  predicate Flying(phase: Phase) { phase.Leading? || phase.Resolved? || phase.Returned? }

  ghost predicate RequestSound(s: State, r: RequestId) {
    r in s.requests ==>
      var request := s.requests[r];
      match request.phase
      case ReadingEpochs(seen) => Past(s, seen) && AfterBumps(s, request.acknowledged, seen)
      case Keyed(key) => KeySound(s, request, key)
      case Missed(key) => KeySound(s, request, key)
      case Leading(key, directAt, treeAt) =>
        && KeySound(s, request, key) && (directAt.Some? ==> SeesKnown(s, key, directAt.value))
        && (treeAt.Some? ==> TreeSound(s, key, r, treeAt.value))
      case Waiting(key, leader) =>
        KeySound(s, request, key) && leader in s.requests && Flying(s.requests[leader].phase) && s.requests[leader].phase.key == key
      case Resolved(key, decision) => KeySound(s, request, key) && FreshFor(s, key, decision)
      case Returned(key, decision) => KeySound(s, request, key) && FreshFor(s, key, decision)
  }

  ghost predicate EntrySound(s: State, key: Key) {
    key in s.cache ==> Past(s, key.epochs) && FreshFor(s, key, s.cache[key])
  }

  // ---- the fact cache ----

  /** A move the fact key's epoch was read after. */
  predicate FactKnows(s: State, fact: FactKey, i: nat) {
    i < |s.changes| && s.changes[i].subject == OfAssets(fact.place.org) && s.changes[i].bumpedTo.Some? && s.changes[i].bumpedTo.value <= fact.epoch
  }

  ghost predicate FactFresh(s: State, fact: FactKey, at: nat) {
    && at <= |s.changes| && fact.epoch <= Epoch(s, OfAssets(fact.place.org))
    && forall i: nat {:trigger FactKnows(s, fact, i)} :: FactKnows(s, fact, i) ==> i < at
  }

  ghost predicate FactSound(s: State, fact: FactKey) {
    fact in s.stored ==> FactFresh(s, fact, s.stored[fact])
  }

  /** A decision's lookup is for its place, and read the asset epoch after the decision's key did. */
  predicate OwnLookup(s: State, r: RequestId, fact: FactKey) {
    && r in s.requests && Flying(s.requests[r].phase) && fact.place == PlaceOf(s.requests[r].asked)
    && OfAssets(fact.place.org) in s.requests[r].phase.key.epochs
    && s.requests[r].phase.key.epochs[OfAssets(fact.place.org)] <= fact.epoch
  }

  ghost predicate LookupSound(s: State, reader: Reader) {
    reader in s.lookups ==>
      var l := s.lookups[reader];
      && l.key.epoch <= Epoch(s, OfAssets(l.key.place.org))
      && (l.at.Some? ==> FactFresh(s, l.key, l.at.value))
      && (reader.ForDecision? ==> OwnLookup(s, reader.r, l.key))
  }

  ghost predicate FactsSound(s: State) {
    && (forall fact {:trigger FactSound(s, fact)} :: FactSound(s, fact))
    && (forall reader {:trigger LookupSound(s, reader)} :: LookupSound(s, reader))
  }

  predicate FlightSound(s: State, f: Flight) {
    f in s.inFlight ==>
      && s.inFlight[f] in s.requests && s.requests[s.inFlight[f]].phase.Leading? && s.requests[s.inFlight[f]].phase.key == f.key
      && s.requests[s.inFlight[f]].process == f.process
  }

  ghost predicate ChangeSound(s: State, i: nat) {
    i < |s.changes| ==>
      && |s.facts| == |s.changes| + 1
      && (s.changes[i].bumpedTo.Some? ==> s.changes[i].bumpedTo.value <= Epoch(s, s.changes[i].subject))
      && ChangesOnly(s.facts[i], s.facts[i + 1], s.changes[i].subject)
  }

  ghost predicate Sound(s: State) {
    && |s.facts| == |s.changes| + 1
    && (forall i: nat {:trigger ChangeSound(s, i)} :: ChangeSound(s, i))
    && (forall r {:trigger RequestSound(s, r)} :: RequestSound(s, r))
    && (forall key {:trigger EntrySound(s, key)} :: EntrySound(s, key))
    && (forall f {:trigger FlightSound(s, f)} :: FlightSound(s, f))
    && FactsSound(s)
  }

  // ---- what grows keeps decisions fresh ----

  /** A request keeps its question, the setting it was asked under, and the age of ancestors it brought along. */
  predicate SameQuestion(s: State, t: State, r: RequestId) {
    r in s.requests ==>
      && r in t.requests && t.requests[r].asked == s.requests[r].asked
      && t.requests[r].olpEnabled == s.requests[r].olpEnabled && t.requests[r].supplied == s.requests[r].supplied
  }

  /** History only grows, epochs only grow, and new bumps exceed every epoch already read. */
  ghost predicate Grows(s: State, t: State) {
    && t.policy == s.policy && |s.changes| <= |t.changes| && s.facts <= t.facts
    && (forall r {:trigger SameQuestion(s, t, r)} :: SameQuestion(s, t, r))
    && (forall g {:trigger Epoch(t, g)} :: Epoch(s, g) <= Epoch(t, g))
    && (forall i: nat {:trigger t.changes[i]} :: i < |s.changes| ==>
          t.changes[i].subject == s.changes[i].subject
          && (s.changes[i].bumpedTo.Some? ==> t.changes[i] == s.changes[i])
          && (s.changes[i].bumpedTo.None? && t.changes[i].bumpedTo.Some? ==> t.changes[i].bumpedTo.value > Epoch(s, s.changes[i].subject)))
    && (forall i: nat {:trigger t.changes[i]} :: |s.changes| <= i < |t.changes| ==> t.changes[i].bumpedTo.None?)
  }

  lemma PastGrows(s: State, t: State, seen: map<Subject, nat>)
    requires Grows(s, t) && Past(s, seen)
    ensures Past(t, seen)
  {
    forall g | g in seen ensures seen[g] <= Epoch(t, g) { assert Epoch(s, g) <= Epoch(t, g); }
  }

  lemma BumpsGrow(s: State, t: State, acknowledged: set<nat>, seen: map<Subject, nat>)
    requires Grows(s, t) && AfterBumps(s, acknowledged, seen)
    ensures AfterBumps(t, acknowledged, seen)
  {
    forall i | i in acknowledged
      ensures i < |t.changes| && t.changes[i].bumpedTo.Some?
      ensures t.changes[i].subject in seen ==> t.changes[i].bumpedTo.value <= seen[t.changes[i].subject]
    {
      assert t.changes[i] == s.changes[i];
    }
  }

  lemma KnownGrows(s: State, t: State, key: Key, at: nat)
    requires Grows(s, t) && Past(s, key.epochs) && SeesKnown(s, key, at)
    ensures SeesKnown(t, key, at)
  {
    forall i: nat | KeyKnows(t, key, i) ensures i < at {
      var c := t.changes[i];
      assert i < |s.changes|;
      assert KeyKnows(s, key, i);
    }
  }

  lemma MovesGrow(s: State, t: State, key: Key, at: nat)
    requires Grows(s, t) && Past(s, key.epochs) && SeesMoves(s, key, at)
    ensures SeesMoves(t, key, at)
  {
    forall i: nat | KeyKnows(t, key, i) && t.changes[i].subject.OfAssets? ensures i < at {
      var c := t.changes[i];
      assert i < |s.changes|;
      assert KeyKnows(s, key, i);
    }
  }

  lemma TreeGrows(s: State, t: State, key: Key, evaluator: RequestId, at: nat)
    requires Grows(s, t) && Past(s, key.epochs) && TreeSound(s, key, evaluator, at)
    ensures TreeSound(t, key, evaluator, at)
  {
    assert SameQuestion(s, t, evaluator);
    if s.requests[evaluator].supplied.None? { MovesGrow(s, t, key, at); }
  }

  lemma FreshGrows(s: State, t: State, key: Key, d: Decision)
    requires Grows(s, t) && |s.facts| == |s.changes| + 1 && Past(s, key.epochs) && FreshFor(s, key, d)
    ensures FreshFor(t, key, d)
  {
    KnownGrows(s, t, key, d.directAt);
    KnownGrows(s, t, key, d.aboveAt);
    TreeGrows(s, t, key, d.evaluator, d.treeAt);
    assert SameQuestion(s, t, d.evaluator);
    assert t.facts[d.directAt] == s.facts[d.directAt] && t.facts[d.aboveAt] == s.facts[d.aboveAt] && t.facts[d.treeAt] == s.facts[d.treeAt];
  }

  lemma FactGrows(s: State, t: State, fact: FactKey, at: nat)
    requires Grows(s, t) && FactFresh(s, fact, at)
    ensures FactFresh(t, fact, at)
  {
    assert Epoch(s, OfAssets(fact.place.org)) <= Epoch(t, OfAssets(fact.place.org));
    forall i: nat | FactKnows(t, fact, i) ensures i < at {
      var c := t.changes[i];
      assert i < |s.changes|;
      assert FactKnows(s, fact, i);
    }
  }

  lemma KeyGrows(s: State, t: State, r: Request, key: Key)
    requires Grows(s, t) && KeySound(s, r, key)
    ensures KeySound(t, r, key)
  {
    PastGrows(s, t, key.epochs);
    BumpsGrow(s, t, r.acknowledged, key.epochs);
  }

  /** A request whose own row and leader's row stand still stays sound. */
  lemma RequestGrows(s: State, t: State, r: RequestId)
    requires Grows(s, t) && Sound(s) && r in s.requests && r in t.requests && t.requests[r] == s.requests[r]
    requires s.requests[r].phase.Waiting? ==>
      var leader := s.requests[r].phase.leader;
      leader in t.requests && Flying(t.requests[leader].phase) && t.requests[leader].phase.key == s.requests[r].phase.key
    ensures RequestSound(t, r)
  {
    assert RequestSound(s, r);
    var request := s.requests[r];
    match request.phase
    case ReadingEpochs(seen) =>
      PastGrows(s, t, seen);
      BumpsGrow(s, t, request.acknowledged, seen);
    case Keyed(key) => KeyGrows(s, t, request, key);
    case Missed(key) => KeyGrows(s, t, request, key);
    case Leading(key, directAt, treeAt) =>
      KeyGrows(s, t, request, key);
      if directAt.Some? { KnownGrows(s, t, key, directAt.value); }
      if treeAt.Some? { TreeGrows(s, t, key, r, treeAt.value); }
    case Waiting(key, _) => KeyGrows(s, t, request, key);
    case Resolved(key, decision) =>
      KeyGrows(s, t, request, key);
      FreshGrows(s, t, key, decision);
    case Returned(key, decision) =>
      KeyGrows(s, t, request, key);
      FreshGrows(s, t, key, decision);
  }

  lemma EntryGrows(s: State, t: State, key: Key)
    requires Grows(s, t) && Sound(s) && key in s.cache && key in t.cache && t.cache[key] == s.cache[key]
    ensures EntrySound(t, key)
  {
    assert EntrySound(s, key);
    PastGrows(s, t, key.epochs);
    FreshGrows(s, t, key, s.cache[key]);
  }

  /** A request in flight, or already decided, keeps its key. */
  predicate StaysFlying(s: State, t: State, r: RequestId) {
    r in s.requests && Flying(s.requests[r].phase) ==>
      r in t.requests && Flying(t.requests[r].phase) && t.requests[r].phase.key == s.requests[r].phase.key
  }

  /** Stored facts and lookups outlive any change elsewhere. */
  lemma FactsKept(s: State, t: State)
    requires Sound(s) && Grows(s, t) && t.stored == s.stored && t.lookups == s.lookups
    requires forall r {:trigger StaysFlying(s, t, r)} :: StaysFlying(s, t, r)
    ensures FactsSound(t)
  {
    forall fact ensures FactSound(t, fact) {
      assert FactSound(s, fact);
      if fact in s.stored { FactGrows(s, t, fact, s.stored[fact]); }
    }
    forall reader ensures LookupSound(t, reader) {
      assert LookupSound(s, reader);
      if reader in s.lookups {
        var l := s.lookups[reader];
        assert Epoch(s, OfAssets(l.key.place.org)) <= Epoch(t, OfAssets(l.key.place.org));
        if l.at.Some? { FactGrows(s, t, l.key, l.at.value); }
        if reader.ForDecision? { assert StaysFlying(s, t, reader.r) && SameQuestion(s, t, reader.r); }
      }
    }
  }

  // ---- every step keeps the invariant ----

  lemma EnvironmentStep(s: State, t: State)
    requires Sound(s) && Grows(s, t) && t.requests == s.requests && t.cache == s.cache && t.inFlight == s.inFlight
    requires t.stored == s.stored && t.lookups == s.lookups
    requires |t.facts| == |t.changes| + 1
    requires forall i: nat {:trigger ChangeSound(t, i)} :: ChangeSound(t, i)
    ensures Sound(t)
  {
    forall r ensures RequestSound(t, r) {
      assert RequestSound(s, r);
      if r in s.requests { RequestGrows(s, t, r); }
    }
    forall key ensures EntrySound(t, key) {
      if key in s.cache { EntryGrows(s, t, key); }
    }
    forall f ensures FlightSound(t, f) { assert FlightSound(s, f); }
    forall r ensures StaysFlying(s, t, r) {}
    FactsKept(s, t);
  }

  lemma CommitSound(s: State, subject: Subject, changed: Facts)
    requires Sound(s) && Enabled(s, CommitChange(subject, changed))
    ensures Sound(Next(s, CommitChange(subject, changed)))
  {
    var t := Next(s, CommitChange(subject, changed));
    forall i: nat ensures ChangeSound(t, i) { assert ChangeSound(s, i); }
    EnvironmentStep(s, t);
  }

  /** The subject's epoch as a request has read it; 0 when it has not. */
  function EpochSeen(s: State, r: RequestId, g: Subject): nat {
    if r !in s.requests then 0
    else
      var seen := if s.requests[r].phase.ReadingEpochs? then s.requests[r].phase.seen else s.requests[r].phase.key.epochs;
      if g in seen then seen[g] else 0
  }

  /** A bump leaves every held decision sound, and its epoch exceeds every one that a request or a stored key has read. */
  lemma BumpSound(s: State, n: nat)
    requires Sound(s) && Enabled(s, BumpEpoch(n))
    ensures Sound(Next(s, BumpEpoch(n)))
    ensures
      var t, g := Next(s, BumpEpoch(n)), s.changes[n].subject;
      && t.changes[n].bumpedTo == Some(Epoch(t, g))
      && (forall r {:trigger EpochSeen(s, r, g)} :: EpochSeen(s, r, g) < Epoch(t, g))
      && (forall key :: key in s.cache && g in key.epochs ==> key.epochs[g] < Epoch(t, g))
  {
    var t, g := Next(s, BumpEpoch(n)), s.changes[n].subject;
    forall r ensures EpochSeen(s, r, g) < Epoch(t, g) { assert RequestSound(s, r); }
    forall key | key in s.cache && g in key.epochs ensures key.epochs[g] < Epoch(t, g) { assert EntrySound(s, key); }
    forall i: nat ensures ChangeSound(t, i) { assert ChangeSound(s, i); }
    EnvironmentStep(s, t);
  }

  /** The facts and epochs are as before, and every request keeps its question. */
  ghost predicate SameWorld(s: State, t: State) {
    && t.policy == s.policy && t.facts == s.facts && t.changes == s.changes && t.epochs == s.epochs
    && (forall r {:trigger SameQuestion(s, t, r)} :: SameQuestion(s, t, r))
  }

  lemma WorldSound(s: State, t: State)
    requires Sound(s) && SameWorld(s, t)
    ensures Grows(s, t) && |t.facts| == |t.changes| + 1
    ensures forall i: nat {:trigger ChangeSound(t, i)} :: ChangeSound(t, i)
  {
    forall i: nat ensures ChangeSound(t, i) { assert ChangeSound(s, i); }
  }

  /** One request moves on; whoever waits for it still finds it in flight under the same key. */
  lemma OneRequestMoves(s: State, t: State, r: RequestId)
    requires Sound(s) && SameWorld(s, t) && r in t.requests && t.requests == s.requests[r := t.requests[r]]
    requires RequestSound(t, r) && t.stored == s.stored && t.lookups == s.lookups
    requires r in s.requests && Flying(s.requests[r].phase) ==>
      Flying(t.requests[r].phase) && t.requests[r].phase.key == s.requests[r].phase.key
    ensures FactsSound(t)
    ensures forall x {:trigger RequestSound(t, x)} :: RequestSound(t, x)
  {
    WorldSound(s, t);
    forall x ensures StaysFlying(s, t, x) {}
    FactsKept(s, t);
    forall x ensures RequestSound(t, x) {
      assert RequestSound(s, x);
      if x != r && x in s.requests { RequestGrows(s, t, x); }
    }
  }

  lemma CacheKept(s: State, t: State)
    requires Sound(s) && SameWorld(s, t) && t.cache == s.cache
    ensures forall key {:trigger EntrySound(t, key)} :: EntrySound(t, key)
  {
    WorldSound(s, t);
    forall key ensures EntrySound(t, key) { if key in s.cache { EntryGrows(s, t, key); } }
  }

  /** No flight starts or ends, and no leader moves. */
  lemma FlightsKept(s: State, t: State, r: RequestId)
    requires Sound(s) && t.inFlight == s.inFlight && r in t.requests && t.requests == s.requests[r := t.requests[r]]
    requires r in s.requests && s.requests[r].phase.Leading? ==>
      t.requests[r].phase.Leading? && t.requests[r].phase.key == s.requests[r].phase.key && t.requests[r].process == s.requests[r].process
    ensures forall f {:trigger FlightSound(t, f)} :: FlightSound(t, f)
  {
    forall f ensures FlightSound(t, f) { assert FlightSound(s, f); }
  }

  lemma QuietMove(s: State, t: State, r: RequestId)
    requires Sound(s) && SameWorld(s, t) && t.cache == s.cache && t.inFlight == s.inFlight && t.stored == s.stored && t.lookups == s.lookups
    requires r in t.requests && t.requests == s.requests[r := t.requests[r]] && RequestSound(t, r)
    requires r in s.requests && Flying(s.requests[r].phase) ==>
      Flying(t.requests[r].phase) && t.requests[r].phase.key == s.requests[r].phase.key
    requires r in s.requests && s.requests[r].phase.Leading? ==>
      t.requests[r].phase.Leading? && t.requests[r].process == s.requests[r].process
    ensures Sound(t)
  {
    WorldSound(s, t);
    OneRequestMoves(s, t, r);
    CacheKept(s, t);
    FlightsKept(s, t, r);
  }

  /** A request that now holds a decision fresh for its key. */
  lemma SettledSound(s: State, t: State, r: RequestId, key: Key, d: Decision)
    requires Sound(s) && SameWorld(s, t) && r in t.requests
    requires t.requests[r].phase == Resolved(key, d) || t.requests[r].phase == Returned(key, d)
    requires KeySound(s, t.requests[r], key) && FreshFor(s, key, d)
    ensures RequestSound(t, r)
  {
    WorldSound(s, t);
    KeyGrows(s, t, t.requests[r], key);
    FreshGrows(s, t, key, d);
  }

  lemma BeginSound(s: State, r: RequestId, process: ProcessId, asked: Asked, olpEnabled: bool, supplied: Option<nat>)
    requires Sound(s) && Enabled(s, Begin(r, process, asked, olpEnabled, supplied))
    ensures Sound(Next(s, Begin(r, process, asked, olpEnabled, supplied)))
  {
    QuietMove(s, Next(s, Begin(r, process, asked, olpEnabled, supplied)), r);
  }

  lemma ReadEpochSound(s: State, r: RequestId, g: Subject)
    requires Sound(s) && Enabled(s, ReadEpoch(r, g))
    ensures Sound(Next(s, ReadEpoch(r, g)))
  {
    var t := Next(s, ReadEpoch(r, g));
    assert RequestSound(s, r);
    var seen := t.requests[r].phase.seen;
    forall i | i in t.requests[r].acknowledged && t.changes[i].subject in seen ensures t.changes[i].bumpedTo.value <= seen[t.changes[i].subject] {
      assert ChangeSound(s, i);
    }
    QuietMove(s, t, r);
  }

  lemma FormKeySound(s: State, r: RequestId)
    requires Sound(s) && Enabled(s, FormKey(r))
    ensures Sound(Next(s, FormKey(r)))
  {
    assert RequestSound(s, r);
    QuietMove(s, Next(s, FormKey(r)), r);
  }

  /** A hit returns a decision that is fresh for the key it is stored under. */
  lemma ReadCacheSound(s: State, r: RequestId)
    requires Sound(s) && Enabled(s, ReadCache(r))
    ensures Sound(Next(s, ReadCache(r)))
  {
    var t, key := Next(s, ReadCache(r)), s.requests[r].phase.key;
    assert RequestSound(s, r) && EntrySound(s, key);
    if key in s.cache { SettledSound(s, t, r, key, s.cache[key]); }
    QuietMove(s, t, r);
  }

  lemma EnterFlightSound(s: State, r: RequestId)
    requires Sound(s) && Enabled(s, EnterFlight(r))
    ensures Sound(Next(s, EnterFlight(r)))
  {
    var t := Next(s, EnterFlight(r));
    var flight := Flight(s.requests[r].process, s.requests[r].phase.key);
    if flight in s.inFlight {
      FlightJoined(s, t, r, flight);
    } else {
      FlightStarts(s, t, r, flight);
    }
  }

  /** A follower waits for the leader, who has the same key. */
  lemma FlightJoined(s: State, t: State, r: RequestId, flight: Flight)
    requires Sound(s) && r in s.requests && s.requests[r].phase.Missed? && flight in s.inFlight
    requires flight == Flight(s.requests[r].process, s.requests[r].phase.key)
    requires t == s.(requests := s.requests[r := s.requests[r].(phase := Waiting(flight.key, s.inFlight[flight]))])
    ensures Sound(t)
  {
    assert RequestSound(s, r) && FlightSound(s, flight);
    QuietMove(s, t, r);
  }

  /** A new leader takes its flight, which nobody held. */
  lemma FlightStarts(s: State, t: State, r: RequestId, flight: Flight)
    requires Sound(s) && SameWorld(s, t) && t.cache == s.cache && r in s.requests && s.requests[r].phase.Missed?
    requires flight == Flight(s.requests[r].process, s.requests[r].phase.key) && t.inFlight == s.inFlight[flight := r]
    requires t.requests == s.requests[r := s.requests[r].(phase := Leading(flight.key, None, None))]
    requires t.stored == s.stored && t.lookups == s.lookups
    ensures Sound(t)
  {
    assert RequestSound(s, r);
    WorldSound(s, t);
    KeyGrows(s, t, s.requests[r], flight.key);
    OneRequestMoves(s, t, r);
    CacheKept(s, t);
    forall f ensures FlightSound(t, f) { assert FlightSound(s, f); }
  }

  /** The queries run after the epochs in the key were read, so they see every change the key knows. */
  lemma QueryDirectSound(s: State, r: RequestId)
    requires Sound(s) && Enabled(s, QueryDirect(r))
    ensures Sound(Next(s, QueryDirect(r)))
  {
    assert RequestSound(s, r);
    QuietMove(s, Next(s, QueryDirect(r)), r);
  }

  /** A step of a lookup touches the fact cache alone. */
  lemma LookupStep(s: State, t: State)
    requires Sound(s) && SameWorld(s, t) && t.requests == s.requests && t.cache == s.cache && t.inFlight == s.inFlight && FactsSound(t)
    ensures Sound(t)
  {
    WorldSound(s, t);
    forall r ensures RequestSound(t, r) {
      assert RequestSound(s, r);
      if r in s.requests { RequestGrows(s, t, r); }
    }
    CacheKept(s, t);
    forall f ensures FlightSound(t, f) { assert FlightSound(s, f); }
  }

  /** A lookup reads the asset epoch after its decision's key was formed. */
  lemma BeginLookupSound(s: State, reader: Reader, place: Place)
    requires Sound(s) && Enabled(s, BeginLookup(reader, place))
    ensures Sound(Next(s, BeginLookup(reader, place)))
  {
    var t := Next(s, BeginLookup(reader, place));
    if reader.ForDecision? {
      assert RequestSound(s, reader.r);
      assert Covers(s.requests[reader.r].asked, OfAssets(place.org));
    }
    LookupKept(s, t, reader);
    LookupStep(s, t);
  }

  /** Facts of the other lookups, and those stored, are as fresh as before. */
  lemma LookupKept(s: State, t: State, reader: Reader)
    requires Sound(s) && SameWorld(s, t) && t.requests == s.requests && t.stored == s.stored
    requires reader in t.lookups && t.lookups == s.lookups[reader := t.lookups[reader]] && LookupSound(t, reader)
    ensures FactsSound(t)
  {
    WorldSound(s, t);
    var u := t.(lookups := s.lookups);
    forall r ensures StaysFlying(s, u, r) {}
    FactsKept(s, u);
    forall fact ensures FactSound(t, fact) { assert FactSound(u, fact); FactUnmoved(u, t, fact); }
    forall x ensures LookupSound(t, x) {
      if x != reader && x in s.lookups { assert LookupSound(u, x); LookupUnmoved(u, t, x); }
    }
  }

  lemma FreshUnmoved(s: State, t: State, fact: FactKey, at: nat)
    requires t.changes == s.changes && t.epochs == s.epochs && FactFresh(s, fact, at)
    ensures FactFresh(t, fact, at)
  {
    forall i: nat | FactKnows(t, fact, i) ensures i < at { assert FactKnows(s, fact, i); }
  }

  lemma FactUnmoved(s: State, t: State, fact: FactKey)
    requires t.changes == s.changes && t.epochs == s.epochs && t.stored == s.stored && FactSound(s, fact)
    ensures FactSound(t, fact)
  {
    if fact in s.stored { FreshUnmoved(s, t, fact, s.stored[fact]); }
  }

  lemma LookupUnmoved(s: State, t: State, reader: Reader)
    requires t.changes == s.changes && t.epochs == s.epochs && t.requests == s.requests
    requires reader in s.lookups && reader in t.lookups && t.lookups[reader] == s.lookups[reader] && LookupSound(s, reader)
    ensures LookupSound(t, reader)
  {
    var l := s.lookups[reader];
    if l.at.Some? { FreshUnmoved(s, t, l.key, l.at.value); }
  }

  /** A hit hands out a fact as fresh as its key; a miss reads the hierarchy now. */
  lemma FindFactSound(s: State, reader: Reader, hit: bool)
    requires Sound(s) && Enabled(s, FindFact(reader, hit))
    ensures Sound(Next(s, FindFact(reader, hit)))
  {
    var t, fact := Next(s, FindFact(reader, hit)), s.lookups[reader].key;
    assert LookupSound(s, reader) && FactSound(s, fact);
    assert FactFresh(s, fact, t.lookups[reader].at.value);
    FreshUnmoved(s, t, fact, t.lookups[reader].at.value);
    LookupKept(s, t, reader);
    LookupStep(s, t);
  }

  /** What is stored under an asset epoch reflects every move acknowledged by that epoch, however late it is stored. */
  lemma StoreFactSound(s: State, reader: Reader)
    requires Sound(s) && Enabled(s, StoreFact(reader))
    ensures Sound(Next(s, StoreFact(reader)))
  {
    var t := Next(s, StoreFact(reader));
    assert LookupSound(s, reader);
    forall fact ensures FactSound(t, fact) {
      assert FactSound(s, fact);
      if fact in t.stored { FreshUnmoved(s, t, fact, t.stored[fact]); }
    }
    forall x ensures LookupSound(t, x) {
      assert LookupSound(s, x);
      if x in s.lookups { LookupUnmoved(s, t, x); }
    }
    LookupStep(s, t);
  }

  lemma ExpireFactSound(s: State, gone: FactKey)
    requires Sound(s)
    ensures Sound(Next(s, ExpireFact(gone)))
  {
    var t := Next(s, ExpireFact(gone));
    forall fact ensures FactSound(t, fact) {
      assert FactSound(s, fact);
      if fact in t.stored { FreshUnmoved(s, t, fact, t.stored[fact]); }
    }
    forall x ensures LookupSound(t, x) {
      assert LookupSound(s, x);
      if x in s.lookups { LookupUnmoved(s, t, x); }
    }
    LookupStep(s, t);
  }

  /** Ancestors found by a decision's own lookup reflect every move its key knows of. */
  lemma LookupSeesMoves(s: State, r: RequestId)
    requires Sound(s) && r in s.requests && ForDecision(r) in s.lookups && s.lookups[ForDecision(r)].at.Some?
    requires Flying(s.requests[r].phase) && s.requests[r].phase.key.asked == s.requests[r].asked
    ensures SeesMoves(s, s.requests[r].phase.key, s.lookups[ForDecision(r)].at.value)
  {
    var key, l := s.requests[r].phase.key, s.lookups[ForDecision(r)];
    assert LookupSound(s, ForDecision(r));
    forall i: nat | KeyKnows(s, key, i) && s.changes[i].subject.OfAssets? ensures i < l.at.value {
      assert FactKnows(s, l.key, i);
    }
  }

  /** Loaded ancestors reflect every move the key knows of; supplied ones are taken as they are. */
  lemma LoadAncestorsSound(s: State, r: RequestId)
    requires Sound(s) && Enabled(s, LoadAncestors(r))
    ensures Sound(Next(s, LoadAncestors(r)))
  {
    var t, phase := Next(s, LoadAncestors(r)), s.requests[r].phase;
    assert RequestSound(s, r);
    if s.requests[r].supplied.None? { LookupSeesMoves(s, r); }
    assert TreeSound(s, phase.key, r, t.requests[r].phase.treeAt.value);
    WorldSound(s, t);
    KeyGrows(s, t, s.requests[r], phase.key);
    KnownGrows(s, t, phase.key, phase.directAt.value);
    TreeGrows(s, t, phase.key, r, t.requests[r].phase.treeAt.value);
    QuietMove(s, t, r);
  }

  lemma QueryAboveSound(s: State, r: RequestId)
    requires Sound(s) && Enabled(s, QueryAbove(r))
    ensures Sound(Next(s, QueryAbove(r)))
  {
    var t := Next(s, QueryAbove(r));
    assert RequestSound(s, r);
    SettledSound(s, t, r, s.requests[r].phase.key, t.requests[r].phase.decision);
    WorldSound(s, t);
    OneRequestMoves(s, t, r);
    CacheKept(s, t);
    forall f ensures FlightSound(t, f) { assert FlightSound(s, f); }
  }

  /** A follower takes over a decision made under its own key. */
  lemma TakeResultSound(s: State, r: RequestId)
    requires Sound(s) && Enabled(s, TakeLeadersResult(r))
    ensures Sound(Next(s, TakeLeadersResult(r)))
  {
    var t := Next(s, TakeLeadersResult(r));
    assert RequestSound(s, r) && RequestSound(s, s.requests[r].phase.leader);
    SettledSound(s, t, r, s.requests[r].phase.key, t.requests[r].phase.decision);
    QuietMove(s, t, r);
  }

  lemma WriteCacheSound(s: State, r: RequestId)
    requires Sound(s) && Enabled(s, WriteCache(r))
    ensures Sound(Next(s, WriteCache(r)))
  {
    var t, written, d := Next(s, WriteCache(r)), s.requests[r].phase.key, s.requests[r].phase.decision;
    assert RequestSound(s, r);
    SettledSound(s, t, r, written, d);
    WorldSound(s, t);
    OneRequestMoves(s, t, r);
    FlightsKept(s, t, r);
    FreshGrows(s, t, written, d);
    forall key ensures EntrySound(t, key) {
      if key != written && key in s.cache { EntryGrows(s, t, key); }
    }
  }

  lemma ExpireSound(s: State, gone: Key)
    requires Sound(s)
    ensures Sound(Next(s, ExpireEntry(gone)))
  {
    var t := Next(s, ExpireEntry(gone));
    WorldSound(s, t);
    forall r ensures RequestSound(t, r) {
      assert RequestSound(s, r);
      if r in s.requests { RequestGrows(s, t, r); }
    }
    forall key ensures EntrySound(t, key) { if key in t.cache { EntryGrows(s, t, key); } }
    forall f ensures FlightSound(t, f) { assert FlightSound(s, f); }
    forall r ensures StaysFlying(s, t, r) {}
    FactsKept(s, t);
  }

  lemma StepSound(s: State, step: Step)
    requires Sound(s) && Enabled(s, step)
    ensures Sound(Next(s, step))
  {
    match step
    case CommitChange(subject, changed) => CommitSound(s, subject, changed);
    case BumpEpoch(i) => BumpSound(s, i);
    case Begin(r, process, asked, olpEnabled, supplied) => BeginSound(s, r, process, asked, olpEnabled, supplied);
    case ReadEpoch(r, g) => ReadEpochSound(s, r, g);
    case FormKey(r) => FormKeySound(s, r);
    case ReadCache(r) => ReadCacheSound(s, r);
    case EnterFlight(r) => EnterFlightSound(s, r);
    case QueryDirect(r) => QueryDirectSound(s, r);
    case BeginLookup(reader, place) => BeginLookupSound(s, reader, place);
    case FindFact(reader, hit) => FindFactSound(s, reader, hit);
    case StoreFact(reader) => StoreFactSound(s, reader);
    case ExpireFact(fact) => ExpireFactSound(s, fact);
    case LoadAncestors(r) => LoadAncestorsSound(s, r);
    case QueryAbove(r) => QueryAboveSound(s, r);
    case TakeLeadersResult(r) => TakeResultSound(s, r);
    case WriteCache(r) => WriteCacheSound(s, r);
    case ExpireEntry(key) => ExpireSound(s, key);
  }
}
