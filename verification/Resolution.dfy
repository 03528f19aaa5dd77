/** The whole loop once: evidence, decision, grant, dispatch, verification, resolution. */
module Resolution {
  import opened Words
  import opened Enums
  import opened Entities
  import opened Rules
  import opened Evaluate
  import opened Steps
  import opened Machine
  import opened Dispatching
  import opened Agreement
  import opened Effects

  /** Every budgeted family may act at least once. */
  predicate Affordable(b: ActionBudget) {
    && b.used == BudgetUse(0, 0, 0, 0, 0, 0)
    && b.maxPreemptionsPerWindow > 0 && b.maxMigrationsPerWindow > 0 && b.maxPlacementChangesPerWindow > 0
    && b.maxThrottlesPerWindow > 0 && b.maxCollectiveReschedulesPerWindow > 0
  }

  /** First evidence, good enough to act on, against workloads of which the authority knows one. */
  predicate Convincing(p: Policy, a: AuthorityContext, e: Evidence) {
    && EvidenceIsValid(e) && e.id == 0 && e.status == Current && Attributable(p, e)
    && (exists w | w in e.neighbors :: Known(a, w))
    && Degradation(e.metric, e.isolatedBaseline, e.coRunObservation) >= p.actionabilityThreshold
    && p.maxConsecutiveInterventionsPerWorkload > 0
  }

  /** Evidence about the same victim and domain that the degradation is gone. */
  predicate Relieved(p: Policy, e: Evidence, after: Evidence) {
    && EvidenceIsValid(after) && after.domain == e.domain && after.victim == e.victim
    && Degradation(after.metric, after.isolatedBaseline, after.coRunObservation) <= p.actionabilityThreshold
  }

  lemma NothingMatches(d: ResourceDomain, v: WorkloadId)
    ensures FindConflict(map[], d, v).None?
  {
    assert Matching(map[], d, v) == {};
  }

  lemma OnlyMatch(cs: map<ConflictId, Conflict>, k: ConflictId, d: ResourceDomain, v: WorkloadId)
    requires cs.Keys == {k} && cs[k].domain == d && cs[k].affected == [v]
    ensures FindConflict(cs, d, v) == Some(k)
  {
    assert Matching(cs, d, v) == {k};
  }

  lemma OnlyOpen(rs: map<InterventionId, InterventionRecord>, i: InterventionId, c: ConflictId)
    requires rs.Keys == {i} && rs[i].conflictId == c && IsOpen(rs[i].state)
    ensures FirstOpen(rs, c) == Some(i)
  {
    assert OpenOn(rs, c) == {i};
  }

  /** The one conflict and its one piece of evidence. */
  ghost predicate HarmFound(g: State, p: Policy, a: AuthorityContext, e: Evidence) {
    var n := g.engine;
    && n.policy == p && n.authority == a && n.interventions == map[] && n.fairness == map[]
    && n.evidence.Keys == {1} && Usable(n.evidence[1]) && Attributable(p, n.evidence[1])
    && n.conflicts.Keys == {1}
    && var c := n.conflicts[1];
    && c.id == 1 && c.evidenceIds == [1] && c.associated == e.neighbors && c.degradation >= p.actionabilityThreshold
    && c.domain == e.domain && c.affected == [e.victim]
    && g.nextInterventionId == 1 && g.nextAttemptId == 1 && g.nextConflictId == 2
  }

  lemma IngestFinds(p: Policy, a: AuthorityContext, e: Evidence)
    requires Convincing(p, a, e)
    ensures HarmFound(Ingest(Fresh(p, a), e), p, a, e)
  {
    hide FindConflict, Degradation, Improvement, AttributionOrd, ClassifySeverity, Known;
    NothingMatches(e.domain, e.victim);
  }

  lemma HarmIsDecided(g: State, p: Policy, a: AuthorityContext, e: Evidence)
    requires HarmFound(g, p, a, e) && Convincing(p, a, e)
    ensures DecisionOn(g, 1).Some? && DecisionOn(g, 1).value.target in e.neighbors
  {
    hide Evaluate.Evaluate, Attributable, StructurallyValid, Known, Degradation;
    OneIsUsable(g.engine, 1);
    var w :| w in e.neighbors && Known(a, w);
    assert w in g.engine.conflicts[1].associated && !AtCap(g.engine, w);
    DecisionExistsIff(g.engine, 1);
    DecisionPasses(g, 1);
  }

  /** The class may be used on any of the workloads. */
  predicate PermittedOnAll(p: Policy, ws: seq<WorkloadId>, cls: InterventionClass) {
    forall w | w in ws :: Permitted(p, WorkloadPolicyFor(p, w), cls)
  }

  /** What it takes for the first request to be granted: for the decision's class, or for one named. */
  predicate Grantable(p: Policy, e: Evidence, cls: InterventionClass) {
    if cls == NoAction then Affordable(p.budget)
    else PermittedOnAll(p, e.neighbors, cls) && !Exhausted(p.budget, cls)
  }

  lemma NamedIsGranted(g: State, p: Policy, a: AuthorityContext, e: Evidence, cls: InterventionClass, t: TimeMs)
    requires HarmFound(g, p, a, e) && Convincing(p, a, e) && cls != NoAction && Grantable(p, e, cls)
    ensures var d, r := DecisionOn(g, 1), Attempt(g, 1, cls, t);
            && r.Some? && d.Some? && r.value.cls == cls
            && r.value.target == d.value.target && d.value.target in e.neighbors
  {
    hide DecisionOn, Attempt, Convincing, Exhausted, FenceNow, Revalidate, Permitted, WorkloadPolicyFor, IsDisruptive;
    HarmIsDecided(g, p, a, e);
    DecisionPasses(g, 1);
    FeasiblePasses(g.engine, DecisionOn(g, 1).value.target, DecisionOn(g, 1).value.cls,
                   FenceNow(g.engine, 1, DecisionOn(g, 1).value.target));
    AttemptIs(g, 1, cls, t);
  }

  lemma HarmIsGranted(g: State, p: Policy, a: AuthorityContext, e: Evidence, cls: InterventionClass, t: TimeMs)
    requires HarmFound(g, p, a, e) && Convincing(p, a, e) && Grantable(p, e, cls)
    ensures var d, r := DecisionOn(g, 1), Attempt(g, 1, cls, t);
            && r.Some? && d.Some? && r.value.cls == (if cls == NoAction then d.value.cls else cls)
            && r.value.target == d.value.target && d.value.target in e.neighbors
  {
    hide DecisionOn, Attempt, Convincing, FamilyOf, IsDisruptive, PermittedOnAll;
    HarmIsDecided(g, p, a, e);
    if cls == NoAction {
      AuthorizeIff(g, 1, t);
    } else {
      NamedIsGranted(g, p, a, e, cls, t);
    }
  }

  lemma OneIsUsable(n: Engine, e: EvidenceId)
    requires e in n.evidence && Usable(n.evidence[e])
    ensures UsableEvidence(n, [e]) == [n.evidence[e]]
  {
    assert [e][..0] == [];
    assert UsableEvidence(n, []) == [];
  }

  /** The one intervention, of class cls and in state l. */
  ghost predicate Acting(g: State, p: Policy, e: Evidence, cls: InterventionClass, l: LifecycleState) {
    var n := g.engine;
    && n.policy.actionabilityThreshold == p.actionabilityThreshold
    && n.interventions.Keys == {1} && n.interventions[1].conflictId == 1 && n.interventions[1].cls == cls
    && n.interventions[1].target in e.neighbors && n.interventions[1].state == l
    && n.conflicts.Keys == {1} && n.conflicts[1].id == 1
    && n.conflicts[1].domain == e.domain && n.conflicts[1].affected == [e.victim]
    && n.interventions[1].attemptId == 1
    && g.nextInterventionId == 2 && g.nextAttemptId == 2 && g.nextConflictId == 2
  }

  lemma AuthorizeActs(g: State, p: Policy, a: AuthorityContext, e: Evidence, cls: InterventionClass, t: TimeMs)
    requires HarmFound(g, p, a, e)
    requires Attempt(g, 1, cls, t).Some? && Attempt(g, 1, cls, t).value.target in e.neighbors
    ensures var h := Authorize(g, 1, cls, t);
            && Acting(h, p, e, Attempt(g, 1, cls, t).value.cls, Authorized) && MayBegin(h, 1)
            && h.engine.conflicts[1].state == InterventionAuthorized
            && h.engine.interventions[1].target == Attempt(g, 1, cls, t).value.target
  {
    hide Attempt, Consumed, Touched, Revalidate, Usable, Attributable;
    GrantedFenceIsCurrent(g, 1, cls, t);
  }

  lemma SubmitResolves(g: State, p: Policy, e: Evidence, after: Evidence, cls: InterventionClass, l: LifecycleState)
    requires Acting(g, p, e, cls, l) && IsOpen(l) && Relieved(p, e, after)
    ensures Acting(Submit(g, after), p, e, cls, Effective)
    ensures Submit(g, after).engine.conflicts[1].state == ConflictResolved
  {
    hide FindConflict, FirstOpen, EvidenceIsValid, Degradation, Improvement, HarmedElsewhere, Absolved;
    var n := g.engine;
    OnlyMatch(n.conflicts, 1, e.domain, e.victim);
    OnlyOpen(n.interventions, 1, 1);
    NoOtherHarm(n.policy, n.conflicts[1 := Remeasured(n.conflicts[1], Identified(g, after))],
        n.interventions[1].target);
  }

  lemma SubmitLeaves(g: State, p: Policy, e: Evidence, after: Evidence, cls: InterventionClass, l: LifecycleState)
    requires Acting(g, p, e, cls, l) && !IsOpen(l) && Relieved(p, e, after)
    ensures Acting(Submit(g, after), p, e, cls, l)
    ensures Submit(g, after).engine.conflicts[1].state == g.engine.conflicts[1].state
  {
    hide FindConflict, FirstOpen, EvidenceIsValid, Degradation, Improvement, HarmedElsewhere, Absolved;
    OnlyMatch(g.engine.conflicts, 1, e.domain, e.victim);
    NoneOpen(g.engine.interventions, 1, 1);
  }

  lemma NoneOpen(rs: map<InterventionId, InterventionRecord>, i: InterventionId, c: ConflictId)
    requires rs.Keys == {i} && !IsOpen(rs[i].state)
    ensures FirstOpen(rs, c).None?
  {
    assert OpenOn(rs, c) == {};
  }

  lemma NoOtherHarm(p: Policy, cs: map<ConflictId, Conflict>, w: WorkloadId)
    requires cs.Keys == {1}
    ensures !HarmedElsewhere(p, cs, 1, w)
  {
    hide WorkloadPolicyFor;
  }

  // ----- The runs -----

  /** Evidence arrives, and what is asked for is granted. */
  function AfterGrant(p: Policy, a: AuthorityContext, e: Evidence, cls: InterventionClass, t: TimeMs): Sys {
    Run(Start(Fresh(p, a)), [EvidenceIngested(e), AuthorizeCalled(1, cls, t)])
  }

  lemma AfterGrantIs(p: Policy, a: AuthorityContext, e: Evidence, cls: InterventionClass, t: TimeMs)
    ensures AfterGrant(p, a, e, cls, t)
            == Apply(Apply(Start(Fresh(p, a)), EvidenceIngested(e)), AuthorizeCalled(1, cls, t))
  {
    hide Run, Apply;
    RunOnce(Start(Fresh(p, a)), EvidenceIngested(e));
    RunMore(Start(Fresh(p, a)), [EvidenceIngested(e)], AuthorizeCalled(1, cls, t));
    assert [EvidenceIngested(e)] + [AuthorizeCalled(1, cls, t)] == [EvidenceIngested(e), AuthorizeCalled(1, cls, t)];
  }

  /** The class granted: the one named, or else the decision's. */
  function GrantedClass(p: Policy, a: AuthorityContext, e: Evidence, cls: InterventionClass): InterventionClass {
    if cls != NoAction then cls
    else match DecisionOn(Ingest(Fresh(p, a), e), 1) case Some(d) => d.cls case None => NoAction
  }

  lemma GrantedRun(p: Policy, a: AuthorityContext, e: Evidence, cls: InterventionClass, t: TimeMs)
    requires Convincing(p, a, e) && Grantable(p, e, cls)
    ensures var y := AfterGrant(p, a, e, cls, t);
            && y.g == Authorize(Ingest(Fresh(p, a), e), 1, cls, t) && Quiet(y)
            && Acting(y.g, p, e, GrantedClass(p, a, e, cls), Authorized) && MayBegin(y.g, 1)
            && y.g.engine.conflicts[1].state == InterventionAuthorized
            && forall r | r in y.log :: !r.Calling?
  {
    hide Run, Convincing, Grantable, Ingest, Authorize, Attempt, Fresh, MayBegin, HarmFound, DecisionOn, AfterGrant;
    hide EvidenceIsValid, Identified;
    var g1 := Ingest(Fresh(p, a), e);
    IngestFinds(p, a, e);
    HarmIsGranted(g1, p, a, e, cls, t);
    AuthorizeActs(g1, p, a, e, cls, t);
    AfterGrantIs(p, a, e, cls, t);
  }

  /** A dispatch during which nothing else runs. */
  lemma DispatchActs(y: Sys, p: Policy, e: Evidence, cls: InterventionClass, c: Call)
    requires Acting(y.g, p, e, cls, Authorized) && MayBegin(y.g, 1) && Quiet(y) && c.WholeDispatch? && c.id == 1
    ensures var z := Perform(y, c);
            && Acting(z.g, p, e, cls, AnswerState(Reply(c.adapters, cls, c.answer, c.note).0)) && Quiet(z)
            && z.g.engine.conflicts == y.g.engine.conflicts
  {
    hide Revalidate, Unserved, Acting;
    WholeIsQuiet(y, c);
    WholeIsAlone(y, c);
    AloneActs(y.g, p, e, cls, c);
  }

  lemma AloneActs(g: State, p: Policy, e: Evidence, cls: InterventionClass, c: Call)
    requires Acting(g, p, e, cls, Authorized) && MayBegin(g, 1) && c.WholeDispatch? && c.id == 1
    ensures var h := DispatchAlone(g, 1, c.now, c.adapters, c.answer, c.note);
            && Acting(h, p, e, cls, AnswerState(Reply(c.adapters, cls, c.answer, c.note).0))
            && h.engine.conflicts == g.engine.conflicts
  {
    hide Revalidate, Reply;
  }

  /** The calls of the loop, each returning before the next. */
  function Loop(e: Evidence, after: Evidence, cls: InterventionClass, t: TimeMs, c: Call): seq<Call> {
    [Section(EvidenceIngested(e)), Section(AuthorizeCalled(1, cls, t)), c, Section(EvidenceSubmitted(after))]
  }

  lemma LoopIs(p: Policy, a: AuthorityContext, e: Evidence, after: Evidence, cls: InterventionClass, t: TimeMs, c: Call)
    ensures PerformAll(Start(Fresh(p, a)), Loop(e, after, cls, t, c))
            == Apply(Perform(AfterGrant(p, a, e, cls, t), c), EvidenceSubmitted(after))
  {
    hide Apply, AfterGrant, Fresh;
    AfterGrantIs(p, a, e, cls, t);
    var y, calls := Start(Fresh(p, a)), Loop(e, after, cls, t, c);
    assert calls[..3][..2] == calls[..2] && calls[..2][..1] == calls[..1] && calls[..1][..0] == [];
    assert PerformAll(y, calls[..1]) == Apply(y, EvidenceIngested(e));
    assert PerformAll(y, calls[..2]) == AfterGrant(p, a, e, cls, t);
    assert PerformAll(y, calls[..3]) == Perform(AfterGrant(p, a, e, cls, t), c);
  }

  /**
   Convincing evidence, a grant, one dispatch and post-action evidence of relief, under any policy: the
   intervention ends effective and the conflict resolved exactly when the class granted is a throttling
   one, a throttle adapter is registered and it accepts; otherwise the conflict stays as authorized.
   */
  lemma LoopClosesIff(p: Policy, a: AuthorityContext, e: Evidence, after: Evidence, cls: InterventionClass, t: TimeMs,
                      c: Call)
    requires Convincing(p, a, e) && Grantable(p, e, cls) && Relieved(p, e, after) && c.WholeDispatch? && c.id == 1
    ensures var y := PerformAll(Start(Fresh(p, a)), Loop(e, after, cls, t, c));
            var granted := GrantedClass(p, a, e, cls);
            var closes := IsThrottling(granted) && c.adapters.WithThrottle? && c.answer.Accepted?;
            && Quiet(y)
            && Acting(y.g, p, e, granted, if closes then Effective
                                          else AnswerState(Reply(c.adapters, granted, c.answer, c.note).0))
            && y.g.engine.conflicts[1].state == (if closes then ConflictResolved else InterventionAuthorized)
  {
    hide Convincing, Grantable, Relieved, MayBegin, Acting, Submit, AfterGrant, Perform, PerformAll, Loop, GrantedClass;
    hide Note, IsThrottling;
    GrantedRun(p, a, e, cls, t);
    var y, granted := AfterGrant(p, a, e, cls, t), GrantedClass(p, a, e, cls);
    var z := Perform(y, c);
    DispatchActs(y, p, e, granted, c);
    LoopIs(p, a, e, after, cls, t, c);
    ServedIff(c.adapters, granted);
    var l := AnswerState(Reply(c.adapters, granted, c.answer, c.note).0);
    if IsOpen(l) {
      SubmitResolves(z.g, p, e, after, granted, l);
    } else {
      SubmitLeaves(z.g, p, e, after, granted, l);
    }
  }

  lemma OtherUncalled(y: Sys, c: Call)
    requires Quiet(y) && c.WholeDispatch? && c.id == 1 && 1 in y.g.engine.interventions
    requires !IsThrottling(y.g.engine.interventions[1].cls)
    ensures Perform(y, c).log == y.log
    ensures Reply(c.adapters, y.g.engine.interventions[1].cls, c.answer, c.note).0.Unavailable?
  {
    hide Perform, DispatchAlone, IsThrottling;
    WholeIsAlone(y, c);
  }

  lemma FailedWhenDone(z: Sys, p: Policy, e: Evidence, cls: InterventionClass, n: nat)
    requires Acting(z.g, p, e, cls, FailedAction) && Quiet(z) && n < TWO_64 - 2
    ensures Numbered(z.g) && Room(z.g, n) && FailedAndOver(z, 1)
  {
  }

  /**
   A grant of any other class than the throttling ones, once dispatched, has called no adapter, registered
   or not, and is failed in every continuation, whatever is measured.
   */
  lemma OthersAreFailedForGood(p: Policy, a: AuthorityContext, e: Evidence, cls: InterventionClass, t: TimeMs, c: Call,
                               steps: seq<Step>)
    requires Convincing(p, a, e) && Grantable(p, e, cls) && !IsThrottling(GrantedClass(p, a, e, cls))
    requires c.WholeDispatch? && c.id == 1 && |steps| < TWO_64 - 2
    ensures var z := Perform(AfterGrant(p, a, e, cls, t), c);
            (forall r | r in z.log :: !r.Calling?) && FailedAndOver(Run(z, steps), 1)
  {
    hide Convincing, MayBegin, AfterGrant, Perform, GrantedClass, FailedAndOver, Run, Grantable, IsThrottling;
    var y := AfterGrant(p, a, e, cls, t);
    var z, granted := Perform(y, c), GrantedClass(p, a, e, cls);
    GrantedRun(p, a, e, cls, t);
    DispatchActs(y, p, e, granted, c);
    OtherUncalled(y, c);
    FailedForGood(z, steps, 1) by { FailedWhenDone(z, p, e, granted, |steps|); }
  }

  /** Left to the default, the class is such a one, migration, whenever some known workload named may be migrated. */
  lemma DefaultIsMigration(p: Policy, a: AuthorityContext, e: Evidence, w: WorkloadId)
    requires Convincing(p, a, e) && w in e.neighbors && Serves(Fresh(p, a).engine, RequestMigration, w)
    ensures GrantedClass(p, a, e, NoAction) == RequestMigration && !IsThrottling(RequestMigration)
  {
    hide Ingest, Convincing, Evaluate.Evaluate, Permitted, WorkloadPolicyFor;
    var g := Ingest(Fresh(p, a), e);
    IngestFinds(p, a, e);
    HarmIsDecided(g, p, a, e);
    MigrationFirst(g.engine, 1, DecisionOn(g, 1).value, w);
  }
}
