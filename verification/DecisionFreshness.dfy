module DecisionFreshness {
  // What a caller of canDo gets, in every interleaving of processes: an answer whose grant
  // queries ran after every relevant change acknowledged before the call. Ancestors and the
  // organization's setting are not in the key; each answer says exactly what that costs it,
  // by the request that computed it.

  import opened Wrappers
  import opened Authorization
  import opened DecisionCache

  // ---- runs ----

  ghost predicate StepsTo(trace: seq<State>, steps: seq<Step>, i: nat) {
    i < |steps| && i + 1 < |trace| && Enabled(trace[i], steps[i]) && trace[i + 1] == Next(trace[i], steps[i])
  }

  /** Any interleaving of requests in any number of processes, changes, bumps and expiries. */
  ghost predicate Run(trace: seq<State>, steps: seq<Step>) {
    && |trace| == |steps| + 1 && Sound(trace[0])
    && forall i: nat {:trigger StepsTo(trace, steps, i)} :: i < |steps| ==> StepsTo(trace, steps, i)
  }

  lemma {:induction false} RunSound(trace: seq<State>, steps: seq<Step>, n: nat)
    requires Run(trace, steps) && n < |trace|
    ensures Sound(trace[n])
  {
    if n > 0 {
      RunSound(trace, steps, n - 1);
      assert StepsTo(trace, steps, n - 1);
      StepSound(trace[n - 1], steps[n - 1]);
    }
  }

  function Start(policy: Policy, facts: Facts): State {
    State(policy, [facts], [], map[], map[], map[], map[], map[], map[])
  }

  lemma StartSound(policy: Policy, facts: Facts)
    ensures Sound(Start(policy, facts))
  {
  }

  // ---- the answers ----

  /** The request that computed the answer `r` was given: `r` itself, its leader, or whoever filled the cache. */
  function Evaluator(s: State, r: RequestId): Request
    requires Sound(s) && r in s.requests && s.requests[r].phase.Returned?
  {
    assert RequestSound(s, r);
    s.requests[s.requests[r].phase.decision.evaluator]
  }

  /**
   Freshness. Every change that had committed and bumped its epoch before the request
   began, and that concerns the organization's user, one of the roles or the assets, had
   committed before either grant query behind the answer ran: through cache hits, single
   flight and several processes alike. Such a move is reflected in the ancestors exactly if
   the evaluator loaded them, or was supplied ones at least that new.
   */
  lemma AnswersAreFresh(trace: seq<State>, steps: seq<Step>, n: nat, r: RequestId, i: nat)
    requires Run(trace, steps) && n < |trace| && r in trace[n].requests && trace[n].requests[r].phase.Returned?
    requires i in trace[n].requests[r].acknowledged && i < |trace[n].changes|
    requires Covers(trace[n].requests[r].asked, trace[n].changes[i].subject)
    ensures Sound(trace[n])
    ensures i < trace[n].requests[r].phase.decision.directAt && i < trace[n].requests[r].phase.decision.aboveAt
    ensures
      var supplied := Evaluator(trace[n], r).supplied;
      trace[n].changes[i].subject.OfAssets? ==>
        (i < trace[n].requests[r].phase.decision.treeAt <==> supplied.None? || i < supplied.value)
  {
    RunSound(trace, steps, n);
    assert RequestSound(trace[n], r);
    assert KeyKnows(trace[n], trace[n].requests[r].phase.key, i);
  }

  /** The answer is the evaluator's own, of that very question, on the facts of those moments. */
  lemma AnswersAreEvaluations(trace: seq<State>, steps: seq<Step>, n: nat, r: RequestId)
    requires Run(trace, steps) && n < |trace| && r in trace[n].requests && trace[n].requests[r].phase.Returned?
    ensures
      var s, request, d := trace[n], trace[n].requests[r], trace[n].requests[r].phase.decision;
      && d.evaluator in s.requests && s.requests[d.evaluator].asked == request.asked
      && d.allowed == Answer(s, request.asked, s.requests[d.evaluator].olpEnabled, d.directAt, d.aboveAt, d.treeAt)
  {
    RunSound(trace, steps, n);
    assert RequestSound(trace[n], r);
  }

  /** Between two moments only unrelated subjects' facts changed. */
  lemma {:induction false} GrantsAgree(s: State, asked: Asked, from: nat, to: nat)
    requires Sound(s) && from <= to <= |s.changes|
    requires forall i :: from <= i < to ==> !Covers(asked, s.changes[i].subject)
    ensures AgreeOn(s.facts[from].grants, s.facts[to].grants, asked.question, asked.roles)
  {
    if from < to {
      GrantsAgree(s, asked, from, to - 1);
      assert ChangeSound(s, to - 1);
      var a, b, c := s.facts[from].grants, s.facts[to - 1].grants, s.facts[to].grants;
      forall g: Grant | g.org == asked.question.org && Concerns(g.grantee, asked.question.user, asked.roles) ensures g in a <==> g in c {
        assert !Covers(asked, s.changes[to - 1].subject);
        assert (g in a <==> g in b) && (g in b <==> g in c);
      }
    }
  }

  lemma {:induction false} AncestorsAgree(s: State, asked: Asked, from: nat, to: nat)
    requires Sound(s) && from <= to <= |s.changes|
    requires forall i :: from <= i < to ==> s.changes[i].subject != OfAssets(asked.question.org)
    ensures AncestorsAt(s.facts[from], PlaceOf(asked)) == AncestorsAt(s.facts[to], PlaceOf(asked))
  {
    if from < to {
      AncestorsAgree(s, asked, from, to - 1);
      assert ChangeSound(s, to - 1);
      assert s.changes[to - 1].subject != OfAssets(asked.question.org);
    }
  }

  /** Every change that concerns the question was acknowledged before the request began. */
  predicate AllAcknowledged(s: State, r: RequestId)
    requires r in s.requests
  {
    forall i: nat {:trigger s.changes[i]} ::
      (i < |s.changes| && Covers(s.requests[r].asked, s.changes[i].subject)) ==> i in s.requests[r].acknowledged
  }

  /** As of how many changes the evaluator's ancestors are, once every move concerned was acknowledged. */
  function AncestorsAsOf(s: State, evaluator: Request): nat {
    if evaluator.supplied.Some? then evaluator.supplied.value else |s.changes|
  }

  /**
   When every change that concerns the asker was acknowledged before the request began, a
   cached or shared answer is what an evaluation would say now on the present grants, under
   the evaluator's setting and on its ancestors: the present ones, unless it was supplied others.
   */
  lemma AnswersAreCurrent(trace: seq<State>, steps: seq<Step>, n: nat, r: RequestId)
    requires Run(trace, steps) && n < |trace| && r in trace[n].requests && trace[n].requests[r].phase.Returned?
    requires AllAcknowledged(trace[n], r)
    ensures Sound(trace[n])
    ensures
      var s, request := trace[n], trace[n].requests[r];
      var evaluator := Evaluator(s, r);
      && evaluator.asked == request.asked
      && request.phase.decision.allowed
         == Answer(s, request.asked, evaluator.olpEnabled, |s.changes|, |s.changes|, AncestorsAsOf(s, evaluator))
  {
    var s, request := trace[n], trace[n].requests[r];
    var d, asked, now := request.phase.decision, request.asked, |trace[n].changes|;
    RunSound(trace, steps, n);
    assert RequestSound(s, r);
    forall i | 0 <= i < now && Covers(asked, s.changes[i].subject)
      ensures i < d.directAt && i < d.aboveAt
      ensures s.changes[i].subject.OfAssets? && Evaluator(s, r).supplied.None? ==> i < d.treeAt
    {
      AnswersAreFresh(trace, steps, n, r, i);
    }
    GrantsAgree(s, asked, d.directAt, now);
    GrantsAgree(s, asked, d.aboveAt, now);
    if Evaluator(s, r).supplied.None? { AncestorsAgree(s, asked, d.treeAt, now); }
    OtherRowsAreIrrelevant(s.facts[d.directAt].grants, s.facts[now].grants, s.facts[d.aboveAt].grants, s.facts[now].grants, s.policy,
                           asked.roles, Evaluator(s, r).olpEnabled, asked.question, asked.resource,
                           Some(AncestorsAt(s.facts[d.treeAt], PlaceOf(asked))));
  }

  /** What an evaluation would say now on the present grants and ancestors. */
  predicate PresentAnswer(s: State, asked: Asked, olpEnabled: bool) {
    Answer(s, asked, olpEnabled, |s.changes|, |s.changes|, |s.changes|)
  }

  /** No move since `at` gave the asked resource other ancestors. */
  predicate SameAncestors(s: State, asked: Asked, at: nat)
    requires |s.facts| == |s.changes| + 1
  {
    at <= |s.changes| && AncestorsAt(s.facts[at], PlaceOf(asked)) == AncestorsAt(s.facts[|s.changes|], PlaceOf(asked))
  }

  /**
   A current answer by an evaluator with the present ancestors is the requester's own exactly
   if the two see one setting, or the setting makes no difference to the question.
   */
  lemma AnswersAreOnesOwn(trace: seq<State>, steps: seq<Step>, n: nat, r: RequestId)
    requires Run(trace, steps) && n < |trace| && r in trace[n].requests && trace[n].requests[r].phase.Returned?
    requires AllAcknowledged(trace[n], r)
    ensures Sound(trace[n])
    ensures
      var s, request := trace[n], trace[n].requests[r];
      var evaluator := Evaluator(s, r);
      SameAncestors(s, request.asked, AncestorsAsOf(s, evaluator)) ==>
        (request.phase.decision.allowed == PresentAnswer(s, request.asked, request.olpEnabled)
         <==> evaluator.olpEnabled == request.olpEnabled
              || PresentAnswer(s, request.asked, true) == PresentAnswer(s, request.asked, false))
  {
    AnswersAreCurrent(trace, steps, n, r);
  }

  /**
   Under one setting, an answer made on other than the present ancestors is the requester's own
   exactly if the old and the present ancestors inherit alike; without object permissions, or
   with a direct grant, they do not matter.
   */
  lemma OutdatedAncestorsMatter(trace: seq<State>, steps: seq<Step>, n: nat, r: RequestId)
    requires Run(trace, steps) && n < |trace| && r in trace[n].requests && trace[n].requests[r].phase.Returned?
    requires AllAcknowledged(trace[n], r)
    ensures Sound(trace[n])
    ensures
      var s, request := trace[n], trace[n].requests[r];
      var evaluator, q, grants := Evaluator(s, r), request.asked.question, s.facts[|s.changes|].grants;
      var at := AncestorsAsOf(s, evaluator);
      && at <= |s.changes|
      && (evaluator.olpEnabled == request.olpEnabled ==>
            (request.phase.decision.allowed == PresentAnswer(s, request.asked, request.olpEnabled)
             <==> q.rbacOnly || !request.olpEnabled
                  || HoldsGrant(grants, q, request.asked.roles, q.kind, DirectCodes(s.policy, q.action), request.asked.resource)
                  || InheritsAt(s, request.asked, at) == InheritsAt(s, request.asked, |s.changes|)))
  {
    AnswersAreCurrent(trace, steps, n, r);
    assert RequestSound(trace[n], r);
  }

  /** The asked action is inherited, on the present grants, from the ancestors as of `at`. */
  predicate InheritsAt(s: State, asked: Asked, at: nat)
    requires |s.facts| == |s.changes| + 1 && at <= |s.changes|
  {
    Inherits(s.facts[|s.changes|].grants, asked.question, asked.roles, InheritedCodes(s.policy, asked.question.action),
             AncestorsAt(s.facts[at], PlaceOf(asked)))
  }
}
