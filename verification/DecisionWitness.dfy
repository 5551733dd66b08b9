module DecisionWitness {
  // Two runs in which a caller is served a decision that is not its own: after the
  // organization's setting was toggled, and after somebody supplied outdated ancestors.

  import opened Wrappers
  import opened Authorization
  import opened DecisionCache
  import opened DecisionFreshness

  ghost predicate LeadsTo(trace: seq<State>, steps: seq<Step>, s0: State, s: State) {
    Run(trace, steps) && trace[0] == s0 && trace[|trace| - 1] == s
  }

  ghost predicate Reachable(s0: State, s: State) {
    exists trace, steps {:trigger LeadsTo(trace, steps, s0, s)} :: LeadsTo(trace, steps, s0, s)
  }

  lemma ReachStart(s0: State)
    requires Sound(s0)
    ensures Reachable(s0, s0)
  {
    assert LeadsTo([s0], [], s0, s0);
  }

  lemma ReachNext(s0: State, s: State, step: Step, t: State)
    requires Reachable(s0, s) && Enabled(s, step) && Next(s, step) == t
    ensures Reachable(s0, t)
  {
    var trace, steps :| LeadsTo(trace, steps, s0, s);
    var longer, taken := trace + [t], steps + [step];
    forall i: nat | i < |taken| ensures StepsTo(longer, taken, i) {
      if i < |steps| { assert StepsTo(trace, steps, i); }
    }
    assert LeadsTo(longer, taken, s0, t);
  }

  lemma ReachableSound(s0: State, s: State)
    requires Reachable(s0, s)
    ensures Sound(s)
  {
    var trace, steps :| LeadsTo(trace, steps, s0, s);
    RunSound(trace, steps, |steps|);
  }

  // ---- one request computes, the next one is served ----

  const QUESTION := Question(5, 1, Read, FolderKind, false)
  const ASKED := Asked(QUESTION, 7, {})
  const USER := OfGrantee(1, UserGrantee(5))
  const ASSETS := OfAssets(1)

  function Seen(s: State): map<Subject, nat> { map[ASSETS := Epoch(s, ASSETS), USER := Epoch(s, USER)] }

  function KeyOf(s: State): Key { Key(ASKED, Seen(s)) }

  predicate Fresh(s: State) {
    s.requests == map[] && s.cache == map[] && s.inFlight == map[] && s.stored == map[] && s.lookups == map[]
  }

  function First(s: State, olp: bool, supplied: Option<nat>, phase: Phase): State {
    s.(requests := map[0 := Request(0, ASKED, olp, supplied, Acknowledged(s), phase)])
  }

  function Second(s: State, olp: bool, phase: Phase): State {
    s.(requests := s.requests[1 := Request(0, ASKED, olp, None, Acknowledged(s), phase)])
  }

  predicate Suppliable(s: State, supplied: Option<nat>) { supplied.Some? ==> supplied.value <= |s.changes| }

  lemma FirstBegins(s0: State, s: State, olp: bool, supplied: Option<nat>)
    requires Reachable(s0, s) && Fresh(s) && Suppliable(s, supplied)
    ensures Reachable(s0, First(s, olp, supplied, ReadingEpochs(map[ASSETS := Epoch(s, ASSETS)])))
  {
    var begun := First(s, olp, supplied, ReadingEpochs(map[]));
    ReachNext(s0, s, Begin(0, 0, ASKED, olp, supplied), begun);
    ReachNext(s0, begun, ReadEpoch(0, ASSETS), First(s, olp, supplied, ReadingEpochs(map[ASSETS := Epoch(s, ASSETS)])));
  }

  lemma FirstReads(s0: State, s: State, olp: bool, supplied: Option<nat>)
    requires Reachable(s0, s) && Fresh(s) && Suppliable(s, supplied)
    ensures Reachable(s0, First(s, olp, supplied, ReadingEpochs(Seen(s))))
  {
    FirstBegins(s0, s, olp, supplied);
    ReachNext(s0, First(s, olp, supplied, ReadingEpochs(map[ASSETS := Epoch(s, ASSETS)])), ReadEpoch(0, USER),
              First(s, olp, supplied, ReadingEpochs(Seen(s))));
  }

  /** The two subjects read are all that the question depends on. */
  lemma AllRead(s: State, g: Subject)
    requires Covers(ASKED, g)
    ensures g in Seen(s)
  {
  }

  lemma FirstKeyed(s0: State, s: State, olp: bool, supplied: Option<nat>)
    requires Reachable(s0, s) && Fresh(s) && Suppliable(s, supplied)
    ensures Reachable(s0, First(s, olp, supplied, Keyed(KeyOf(s))))
  {
    FirstReads(s0, s, olp, supplied);
    forall g | Covers(ASKED, g) ensures g in Seen(s) { AllRead(s, g); }
    ReachNext(s0, First(s, olp, supplied, ReadingEpochs(Seen(s))), FormKey(0), First(s, olp, supplied, Keyed(KeyOf(s))));
  }

  function Flights(s: State): map<Flight, RequestId> { map[Flight(0, KeyOf(s)) := 0] }

  lemma FirstMisses(s0: State, s: State, olp: bool, supplied: Option<nat>)
    requires Reachable(s0, s) && Fresh(s) && Suppliable(s, supplied)
    ensures Reachable(s0, First(s, olp, supplied, Missed(KeyOf(s))))
  {
    FirstKeyed(s0, s, olp, supplied);
    ReachNext(s0, First(s, olp, supplied, Keyed(KeyOf(s))), ReadCache(0), First(s, olp, supplied, Missed(KeyOf(s))));
  }

  function Leader(s: State, olp: bool, supplied: Option<nat>, directAt: Option<nat>, treeAt: Option<nat>): State {
    First(s, olp, supplied, Leading(KeyOf(s), directAt, treeAt)).(inFlight := Flights(s))
  }

  lemma FirstLeads(s0: State, s: State, olp: bool, supplied: Option<nat>)
    requires Reachable(s0, s) && Fresh(s) && Suppliable(s, supplied)
    ensures Reachable(s0, Leader(s, olp, supplied, None, None))
  {
    FirstMisses(s0, s, olp, supplied);
    ReachNext(s0, First(s, olp, supplied, Missed(KeyOf(s))), EnterFlight(0), Leader(s, olp, supplied, None, None));
  }

  lemma FirstQueries(s0: State, s: State, olp: bool, supplied: Option<nat>)
    requires Reachable(s0, s) && Fresh(s) && Suppliable(s, supplied)
    ensures Reachable(s0, Leader(s, olp, supplied, Some(|s.changes|), None))
  {
    FirstLeads(s0, s, olp, supplied);
    ReachNext(s0, Leader(s, olp, supplied, None, None), QueryDirect(0), Leader(s, olp, supplied, Some(|s.changes|), None));
  }

  /** What the first request computes with ancestors as of `at`. */
  function Computed(s: State, olp: bool, at: nat): Decision {
    Decision(Answer(s, ASKED, olp, |s.changes|, |s.changes|, at), 0, |s.changes|, |s.changes|, at)
  }

  const PLACE := Place(1, FolderKind, 7)

  /** A request that is supplied no ancestors reads them through the fact cache, which is empty. */
  function Looked(s: State, supplied: Option<nat>, at: Option<nat>): map<Reader, Lookup> {
    if supplied.Some? then map[] else map[ForDecision(0) := Lookup(FactKey(PLACE, Epoch(s, ASSETS)), at)]
  }

  function AncestorsOf(s: State, supplied: Option<nat>): nat { if supplied.Some? then supplied.value else |s.changes| }

  function Stored(s: State, olp: bool, supplied: Option<nat>): State {
    var at := AncestorsOf(s, supplied);
    First(s, olp, supplied, Returned(KeyOf(s), Computed(s, olp, at)))
      .(cache := map[KeyOf(s) := Computed(s, olp, at)], lookups := Looked(s, supplied, Some(at)))
  }

  lemma FirstLooks(s0: State, s: State, olp: bool, supplied: Option<nat>)
    requires Reachable(s0, s) && Fresh(s) && Suppliable(s, supplied)
    ensures Reachable(s0, Leader(s, olp, supplied, Some(|s.changes|), None).(lookups := Looked(s, supplied, Some(AncestorsOf(s, supplied)))))
  {
    FirstQueries(s0, s, olp, supplied);
    if supplied.None? {
      var led := Leader(s, olp, supplied, Some(|s.changes|), None);
      ReachNext(s0, led, BeginLookup(ForDecision(0), PLACE), led.(lookups := Looked(s, supplied, None)));
      ReachNext(s0, led.(lookups := Looked(s, supplied, None)), FindFact(ForDecision(0), false),
                led.(lookups := Looked(s, supplied, Some(|s.changes|))));
    }
  }

  lemma FirstLoads(s0: State, s: State, olp: bool, supplied: Option<nat>)
    requires Reachable(s0, s) && Fresh(s) && Suppliable(s, supplied)
    ensures
      var at := Some(AncestorsOf(s, supplied));
      Reachable(s0, Leader(s, olp, supplied, Some(|s.changes|), at).(lookups := Looked(s, supplied, at)))
  {
    FirstLooks(s0, s, olp, supplied);
    var at := Some(AncestorsOf(s, supplied));
    ReachNext(s0, Leader(s, olp, supplied, Some(|s.changes|), None).(lookups := Looked(s, supplied, at)), LoadAncestors(0),
              Leader(s, olp, supplied, Some(|s.changes|), at).(lookups := Looked(s, supplied, at)));
  }

  lemma FirstResolves(s0: State, s: State, olp: bool, supplied: Option<nat>)
    requires Reachable(s0, s) && Fresh(s) && Suppliable(s, supplied)
    ensures
      var at := AncestorsOf(s, supplied);
      Reachable(s0, First(s, olp, supplied, Resolved(KeyOf(s), Computed(s, olp, at))).(lookups := Looked(s, supplied, Some(at))))
  {
    FirstLoads(s0, s, olp, supplied);
    var at := AncestorsOf(s, supplied);
    assert Flights(s) - {Flight(0, KeyOf(s))} == map[];
    ReachNext(s0, Leader(s, olp, supplied, Some(|s.changes|), Some(at)).(lookups := Looked(s, supplied, Some(at))), QueryAbove(0),
              First(s, olp, supplied, Resolved(KeyOf(s), Computed(s, olp, at))).(lookups := Looked(s, supplied, Some(at))));
  }

  lemma FirstStores(s0: State, s: State, olp: bool, supplied: Option<nat>)
    requires Reachable(s0, s) && Fresh(s) && Suppliable(s, supplied)
    ensures Reachable(s0, Stored(s, olp, supplied))
  {
    FirstResolves(s0, s, olp, supplied);
    var at := AncestorsOf(s, supplied);
    ReachNext(s0, First(s, olp, supplied, Resolved(KeyOf(s), Computed(s, olp, at))).(lookups := Looked(s, supplied, Some(at))),
              WriteCache(0), Stored(s, olp, supplied));
  }

  /** A store that holds a decision for the question under the present epochs, and no second request yet. */
  predicate Holds(t: State) { 1 !in t.requests && KeyOf(t) in t.cache }

  lemma SecondStarts(s0: State, t: State, olp: bool)
    requires Reachable(s0, t) && Holds(t)
    ensures Reachable(s0, Second(t, olp, ReadingEpochs(map[])))
  {
    ReachNext(s0, t, Begin(1, 0, ASKED, olp, None), Second(t, olp, ReadingEpochs(map[])));
  }

  /** One step of the second request: only its phase changes. */
  lemma SecondMoves(s0: State, t: State, olp: bool, before: Phase, step: Step, after: Phase)
    requires Reachable(s0, Second(t, olp, before)) && Enabled(Second(t, olp, before), step)
    requires Next(Second(t, olp, before), step) == WithPhase(Second(t, olp, before), 1, after)
    ensures Reachable(s0, Second(t, olp, after))
  {
    var u := Second(t, olp, before);
    assert u.requests[1 := u.requests[1].(phase := after)] == Second(t, olp, after).requests;
    ReachNext(s0, u, step, Second(t, olp, after));
  }

  lemma SecondReads(s0: State, t: State, olp: bool)
    requires Reachable(s0, t) && Holds(t)
    ensures Reachable(s0, Second(t, olp, ReadingEpochs(Seen(t))))
  {
    SecondStarts(s0, t, olp);
    SecondMoves(s0, t, olp, ReadingEpochs(map[]), ReadEpoch(1, ASSETS), ReadingEpochs(map[ASSETS := Epoch(t, ASSETS)]));
    SecondMoves(s0, t, olp, ReadingEpochs(map[ASSETS := Epoch(t, ASSETS)]), ReadEpoch(1, USER), ReadingEpochs(Seen(t)));
  }

  lemma SecondKeyed(s0: State, t: State, olp: bool)
    requires Reachable(s0, t) && Holds(t)
    ensures Reachable(s0, Second(t, olp, Keyed(KeyOf(t))))
  {
    SecondReads(s0, t, olp);
    forall g | Covers(ASKED, g) ensures g in Seen(t) { AllRead(t, g); }
    SecondMoves(s0, t, olp, ReadingEpochs(Seen(t)), FormKey(1), Keyed(KeyOf(t)));
  }

  /** The next request under the same key is handed the stored decision, whatever its own setting. */
  lemma SecondServed(s0: State, t: State, olp: bool)
    requires Reachable(s0, t) && Holds(t)
    ensures Reachable(s0, Second(t, olp, Returned(KeyOf(t), t.cache[KeyOf(t)])))
  {
    SecondKeyed(s0, t, olp);
    SecondMoves(s0, t, olp, Keyed(KeyOf(t)), ReadCache(1), Returned(KeyOf(t), t.cache[KeyOf(t)]));
  }

  // ---- a toggled setting ----

  const POLICY := Policy({}, {Read, Write, ManagePermissions})
  const DIRECT_GRANT := Grant(1, FolderKind, 7, Read, UserGrantee(5))

  /** With the setting switched off and no role ceiling the user must be refused, but the stored decision allows. */
  lemma ToggleIsNotSeen() returns (s: State)
    ensures Reachable(Start(POLICY, Facts({DIRECT_GRANT}, map[])), s) && Sound(s)
    ensures 1 in s.requests && s.requests[1].phase.Returned? && !s.requests[1].olpEnabled && AllAcknowledged(s, 1)
    ensures Evaluator(s, 1).supplied.None? && Evaluator(s, 1).olpEnabled
    ensures s.requests[1].phase.decision.allowed && !PresentAnswer(s, ASKED, false)
  {
    var s0 := Start(POLICY, Facts({DIRECT_GRANT}, map[]));
    StartSound(POLICY, Facts({DIRECT_GRANT}, map[]));
    ReachStart(s0);
    FirstStores(s0, s0, true, None);
    SecondServed(s0, Stored(s0, true, None), false);
    s := Second(Stored(s0, true, None), false, Returned(KeyOf(s0), Computed(s0, true, 0)));
    ReachableSound(s0, s);
    assert HoldsGrant({DIRECT_GRANT}, QUESTION, {}, FolderKind, DirectCodes(POLICY, Read), 7) by {
      assert DIRECT_GRANT in {DIRECT_GRANT} && Reaches(DIRECT_GRANT, QUESTION, {});
    }
  }

  // ---- outdated ancestors ----

  const PARENT_GRANT := Grant(1, FolderKind, 3, Read, UserGrantee(5))
  const BEFORE_MOVE := Facts({PARENT_GRANT}, map[PLACE := [3]])
  const AFTER_MOVE := Facts({PARENT_GRANT}, map[PLACE := [4]])
  const MOVED := State(POLICY, [BEFORE_MOVE, AFTER_MOVE], [Change(ASSETS, Some(1))], map[ASSETS := 1], map[], map[], map[], map[], map[])

  lemma MovedReachable()
    ensures Reachable(Start(POLICY, BEFORE_MOVE), MOVED)
  {
    var s0 := Start(POLICY, BEFORE_MOVE);
    StartSound(POLICY, BEFORE_MOVE);
    ReachStart(s0);
    assert ChangesOnly(BEFORE_MOVE, AFTER_MOVE, ASSETS);
    var mid := s0.(facts := [BEFORE_MOVE, AFTER_MOVE], changes := [Change(ASSETS, None)]);
    ReachNext(s0, s0, CommitChange(ASSETS, AFTER_MOVE), mid);
    assert [Change(ASSETS, None)][0 := Change(ASSETS, Some(1))] == [Change(ASSETS, Some(1))];
    ReachNext(s0, mid, BumpEpoch(0), MOVED);
  }

  /** Ancestors from before an acknowledged move reach the cache, and a later `canDo` is allowed by the old parent's grant. */
  lemma OutdatedAncestorsSpread() returns (s: State)
    ensures Reachable(Start(POLICY, BEFORE_MOVE), s) && Sound(s)
    ensures 1 in s.requests && s.requests[1].phase.Returned? && s.requests[1].supplied.None? && AllAcknowledged(s, 1)
    ensures Evaluator(s, 1).olpEnabled == s.requests[1].olpEnabled && Evaluator(s, 1).supplied == Some(0)
    ensures s.requests[1].phase.decision.allowed && !PresentAnswer(s, ASKED, true)
  {
    MovedReachable();
    FirstStores(Start(POLICY, BEFORE_MOVE), MOVED, true, Some(0));
    SecondServed(Start(POLICY, BEFORE_MOVE), Stored(MOVED, true, Some(0)), true);
    s := Second(Stored(MOVED, true, Some(0)), true, Returned(KeyOf(MOVED), Computed(MOVED, true, 0)));
    ReachableSound(Start(POLICY, BEFORE_MOVE), s);
    assert Inherits({PARENT_GRANT}, QUESTION, {}, InheritedCodes(POLICY, Read), [3]) by {
      assert PARENT_GRANT in {PARENT_GRANT} && Reaches(PARENT_GRANT, QUESTION, {});
      assert HoldsGrant({PARENT_GRANT}, QUESTION, {}, FolderKind, InheritedCodes(POLICY, Read), 3);
      assert 3 in [3];
    }
  }
}
