/** Runs from a fresh governor in which what the documentation promises does not hold, or a bound is attained. */
module Witnesses {
  import opened Words
  import opened Enums
  import opened Entities
  import opened Rules
  import opened Steps
  import opened IntegrityKept
  import opened Machine
  import opened Dispatching
  import opened Agreement
  import opened Budgets
  import opened Resolution
  import opened Replays
  import opened Quarantine
  import opened ClosedLoop
  import opened Effects
  import opened Divergence

  // ----- There are such governors -----

  /** The program's default policy but for two limits. */
  function SamplePolicy(throttles: u64, most: u64): Policy {
    ContentionPolicy(1, 1, 0.2, 0.1, 2, ControlledComparison, 0.6, 0.1, 1.0, 3, 0.0, 5000,
                     ActionBudget(1, 3, 2, 2, throttles, 2, most, 60000, 0, BudgetUse(0, 0, 0, 0, 0, 0)), map[],
                     true, true, true, true, true, true, true)
  }

  /** Workload 2 is known. */
  function SampleAuthority(): AuthorityContext {
    AuthorityContext(1, 1, 1, 1, 1, 1, 1, 1, 1, map[2 := 1], map[2 := 1])
  }

  /** Workload 2 halves the throughput of workload 1. */
  function SampleEvidence(): Evidence {
    InterferenceEvidence(0, 1, 1, [2], Cache, HigherIsBetter, 10.0, 5.0, 0.0, 0.0, DirectResourceEvidence, 1.0, 10, [],
                         Current, 1, 0, Real, [], [], 1, 1, 1, 1, 1, 1, 1, 0, 0)
  }

  lemma SampleQualifies(throttles: u64, most: u64)
    requires throttles > 0 && most > 0
    ensures var p, a, e := SamplePolicy(throttles, most), SampleAuthority(), SampleEvidence();
            && PolicyIsValid(p) && Affordable(p.budget) && Convincing(p, a, e)
            && p.maxConsecutiveInterventionsPerWorkload > 1
            && Grantable(p, e, NoAction) && Grantable(p, e, Throttle)
            && Serves(Fresh(p, a).engine, RequestMigration, 2)
            && Relieved(p, e, e.(coRunObservation := 10.0)) && StrictlyRelieved(p, e.(coRunObservation := 10.0))
  {
    assert 2 in SampleEvidence().neighbors && Known(SampleAuthority(), 2);
    assert SampleEvidence().neighbors[0] == 2;
  }

  // ----- Terminal states are not terminal -----

  /** A failure reported while the adapter call is out is overwritten by the call's acceptance. */
  lemma FailureIsOverwritten(p: Policy, a: AuthorityContext, e: Evidence, cls: InterventionClass, t1: TimeMs,
                             t2: TimeMs, note: Text)
    requires Convincing(p, a, e) && Grantable(p, e, cls) && IsThrottling(GrantedClass(p, a, e, cls))
    ensures var y := AfterGrant(p, a, e, cls, t1);
            var steps := [DispatchBegun(1, t2, WithThrottle), Failed(1, note), DispatchEnded(1, Accepted, note)];
            Settled(Run(y, steps[..2]).g, 1) && !Settled(Run(y, steps).g, 1)
  {
    hide Run, Grantable, Convincing, MayBegin, Settled, AfterGrant, GrantedClass, IsThrottling;
    GrantedRun(p, a, e, cls, t1);
    ServedIff(WithThrottle, GrantedClass(p, a, e, cls));
    FailureOverwritten(AfterGrant(p, a, e, cls, t1), 1, t2, note);
  }

  /** An effective intervention turns failed on a late report, with no call out and its conflict still resolved. */
  lemma EffectIsOverwritten(p: Policy, a: AuthorityContext, e: Evidence, after: Evidence, cls: InterventionClass,
                            t: TimeMs, c: Call, note: Text)
    requires Convincing(p, a, e) && Grantable(p, e, cls) && Relieved(p, e, after)
    requires IsThrottling(GrantedClass(p, a, e, cls))
    requires c.WholeDispatch? && c.id == 1 && c.adapters.WithThrottle? && c.answer.Accepted?
    ensures var y := PerformAll(Start(Fresh(p, a)), Loop(e, after, cls, t, c));
            var z := Perform(y, Section(Failed(1, note)));
            && Quiet(y) && Quiet(z)
            && 1 in y.g.engine.interventions && y.g.engine.interventions[1].state == Effective
            && 1 in z.g.engine.interventions && z.g.engine.interventions[1].state == FailedAction
            && 1 in z.g.engine.conflicts && z.g.engine.conflicts[1].state == ConflictResolved
  {
    hide PerformAll, Grantable, Convincing, Relieved, Loop, GrantedClass, IsThrottling;
    LoopClosesIff(p, a, e, after, cls, t, c);
  }

  lemma SubmissionCallsNone(g: State, e: Evidence)
    ensures Next(g, EvidenceSubmitted(e)) == Submit(g, e)
    ensures forall r | r in Note(g, EvidenceSubmitted(e)) :: !r.Calling?
  {
    hide Submit, EvidenceIsValid, Identified, VerdictOn, Recorded;
  }

  /** An intervention never dispatched, of any class, turns effective when relief is measured: nothing was done. */
  lemma NeverDispatchedIsEffective(p: Policy, a: AuthorityContext, e: Evidence, after: Evidence,
                                   cls: InterventionClass, t: TimeMs)
    requires Convincing(p, a, e) && Grantable(p, e, cls) && Relieved(p, e, after)
    ensures var z := Apply(AfterGrant(p, a, e, cls, t), EvidenceSubmitted(after));
            && (forall r | r in z.log :: !r.Calling?)
            && 1 in z.g.engine.interventions && z.g.engine.interventions[1].state == Effective
            && 1 in z.g.engine.conflicts && z.g.engine.conflicts[1].state == ConflictResolved
  {
    hide Grantable, Convincing, Relieved, AfterGrant, GrantedClass, Next, Note, MayBegin, Submit, Authorize, Ingest;
    var y := AfterGrant(p, a, e, cls, t);
    GrantedRun(p, a, e, cls, t);
    SubmitResolves(y.g, p, e, after, GrantedClass(p, a, e, cls), Authorized);
    SubmissionCallsNone(y.g, after);
  }

  // ----- Dispatch checks neither evidence nor the cap -----

  lemma OneEvidence(p: Policy, a: AuthorityContext, e: Evidence, cls: InterventionClass, t: TimeMs)
    requires Convincing(p, a, e)
    ensures AfterGrant(p, a, e, cls, t).g.engine.evidence.Keys == {1}
  {
    hide Convincing, Ingest, Attempt, AfterGrant, Note;
    IngestFinds(p, a, e);
    AfterGrantIs(p, a, e, cls, t);
    EvidenceAfter(Ingest(Fresh(p, a), e), AuthorizeCalled(1, cls, t));
  }

  lemma AuthorityKept(g: State, e: Evidence)
    ensures Next(g, EvidenceIngested(e)).engine.authority == g.engine.authority
  {
    hide FindConflict, EvidenceIsValid, Identified, Progressed, Updated, NewConflict;
  }

  lemma StaleIsValid(p: Policy, a: AuthorityContext, e: Evidence)
    requires Convincing(p, a, e)
    ensures EvidenceIsValid(e.(id := 1, status := Stale))
  {
  }

  lemma StaleAgain(g: State, e: Evidence)
    requires g.engine.evidence.Keys == {1} && EvidenceIsValid(e) && e.id == 1 && e.status == Stale
    ensures var h := Next(g, EvidenceIngested(e));
            && NoCurrentEvidence(h) && h.engine.interventions == g.engine.interventions
            && h.engine.authority == g.engine.authority
  {
    hide Next, EvidenceIsValid, Degradation, Improvement;
    EvidenceAfter(g, EvidenceIngested(e));
    RecordsAfterAre(g, EvidenceIngested(e));
    AuthorityKept(g, e);
  }

  lemma CalledOn(g: State, h: State, t: TimeMs)
    requires MayBegin(g, 1) && IsThrottling(g.engine.interventions[1].cls) && g.engine.interventions[1].attemptId == 1
    requires h.engine.interventions == g.engine.interventions && h.engine.authority == g.engine.authority
    ensures Note(h, DispatchBegun(1, t, WithThrottle)) == [Calling(1, 1)]
  {
    hide Revalidate, IsThrottling, Unserved;
    ServedIff(WithThrottle, g.engine.interventions[1].cls);
  }

  /**
   The evidence a grant rests on is withdrawn, reported again under its id as stale: nothing can be
   granted any more, and yet the intervention is handed to its adapter.
   */
  lemma DispatchedOnStaleEvidence(p: Policy, a: AuthorityContext, e: Evidence, cls: InterventionClass, t1: TimeMs,
                                  t2: TimeMs)
    requires Convincing(p, a, e) && Grantable(p, e, cls) && IsThrottling(GrantedClass(p, a, e, cls))
    ensures var y := Apply(AfterGrant(p, a, e, cls, t1), EvidenceIngested(e.(id := 1, status := Stale)));
            && NoCurrentEvidence(y.g) && (forall k, c, now :: Attempt(y.g, k, c, now).None?)
            && Note(y.g, DispatchBegun(1, t2, WithThrottle)) == [Calling(1, 1)]
  {
    hide Attempt, Grantable, Convincing, AfterGrant, GrantedClass, IsThrottling, Next, Note, MayBegin, EvidenceIsValid;
    hide NoCurrentEvidence;
    var x, again := AfterGrant(p, a, e, cls, t1), e.(id := 1, status := Stale);
    GrantedRun(p, a, e, cls, t1);
    OneEvidence(p, a, e, cls, t1);
    StaleIsValid(p, a, e);
    StaleAgain(x.g, again);
    var y := Apply(x, EvidenceIngested(again));
    CalledOn(x.g, y.g, t2);
    forall k, c, now
      ensures Attempt(y.g, k, c, now).None?
    {
      NoEvidenceNoGrant(y.g, k, c, now);
    }
  }

  /** With a cap of one the target is at the cap from the grant on, and the intervention is handed over all the same. */
  lemma DispatchedAtTheCap(p: Policy, a: AuthorityContext, e: Evidence, cls: InterventionClass, t1: TimeMs, t2: TimeMs)
    requires Convincing(p, a, e) && Grantable(p, e, cls) && IsThrottling(GrantedClass(p, a, e, cls))
    requires p.maxConsecutiveInterventionsPerWorkload == 1
    ensures var g := AfterGrant(p, a, e, cls, t1).g;
            && 1 in g.engine.interventions && AtCap(g.engine, g.engine.interventions[1].target)
            && Note(g, DispatchBegun(1, t2, WithThrottle)) == [Calling(1, 1)]
  {
    hide Attempt, Grantable, Convincing, AfterGrant, GrantedClass, Revalidate, IsThrottling, Ingest, Consumed;
    hide DecisionOn;
    var g := Ingest(Fresh(p, a), e);
    IngestFinds(p, a, e);
    HarmIsGranted(g, p, a, e, cls, t1);
    GrantedRun(p, a, e, cls, t1);
    ServedIff(WithThrottle, GrantedClass(p, a, e, cls));
    GrantKeepsInputs(g, 1, cls, t1, 1);
  }

  // ----- Replay diverges -----

  /** The degradation is gone altogether, not just down to the threshold. */
  predicate StrictlyRelieved(p: Policy, after: Evidence) {
    Degradation(after.metric, after.isolatedBaseline, after.coRunObservation) < p.actionabilityThreshold
  }

  lemma AfterGrantIsSound(p: Policy, a: AuthorityContext, e: Evidence, cls: InterventionClass, t: TimeMs)
    requires Convincing(p, a, e) && Grantable(p, e, cls)
    ensures var g := AfterGrant(p, a, e, cls, t).g; Sound(g) && Room(g, 1) && Selected(g.engine, 1) != {}
  {
    hide Convincing, Grantable, Sound, Selected, GrantedOn, Run, MayBegin, GrantedClass, Attempt, Ingest, DecisionOn;
    var steps := [EvidenceIngested(e), AuthorizeCalled(1, cls, t)];
    var g := Ingest(Fresh(p, a), e);
    GrantedRun(p, a, e, cls, t);
    IngestFinds(p, a, e);
    HarmIsGranted(g, p, a, e, cls, t);
    FreshIsSound(p, a, 1);
    SelectedIsLog(Fresh(p, a), steps, 1);
    SomeSelected(AfterGrant(p, a, e, cls, t).g, 1);
    GrantSelects(g, 1, cls, t);
    assert AfterGrant(p, a, e, cls, t).g.engine.conflicts[1].selectedIds != [];
  }

  lemma CapOfOne(g: State, p: Policy, a: AuthorityContext, e: Evidence, w: WorkloadId)
    requires HarmFound(g, p, a, e) && Convincing(p, a, e)
    ensures OneBelowCap(g, w) <==> p.maxConsecutiveInterventionsPerWorkload == 1
  {
  }

  lemma HarmIsTidy(p: Policy, a: AuthorityContext, e: Evidence)
    ensures Tidy(Ingest(Fresh(p, a), e))
    ensures var c := Ingest(Fresh(p, a), e).engine.conflicts; 1 in c ==> c[1].selectedIds == []
  {
    hide Ingest, Integrity, Numbered, Listed;
    FreshIsSound(p, a, 1);
    SoundStays(Start(Fresh(p, a)), EvidenceIngested(e));
    SelectionsAfter(Fresh(p, a), EvidenceIngested(e), 1);
  }

  /** Right after a first grant replay confirms it unless the cap is one. */
  lemma DivergesAtTheCap(p: Policy, a: AuthorityContext, e: Evidence, t: TimeMs)
    requires Convincing(p, a, e) && Affordable(p.budget)
    ensures Diverges(AfterGrant(p, a, e, NoAction, t).g.engine, 1) <==> p.maxConsecutiveInterventionsPerWorkload == 1
  {
    hide Convincing, Affordable, AfterGrant, Diverges, Attempt, Ingest, DecisionOn, MayBegin, AtCap, HarmFound, Tidy;
    hide Next, Fresh, OneBelowCap;
    var g := Ingest(Fresh(p, a), e);
    IngestFinds(p, a, e);
    HarmIsGranted(g, p, a, e, NoAction, t);
    GrantedRun(p, a, e, NoAction, t);
    HarmIsTidy(p, a, e);
    AttemptNeedsConflict(g, 1, NoAction, t);
    NextIsAuthorize(g, 1, t);
    FirstGrantDivergesIff(g, 1, t);
    CapOfOne(g, p, a, e, Attempt(g, 1, NoAction, t).value.target);
  }

  /** A grant and a restart: replay does not confirm it, whatever the cap. */
  lemma DivergesAfterRestart(p: Policy, a: AuthorityContext, e: Evidence, cls: InterventionClass, t: TimeMs)
    requires Convincing(p, a, e) && Grantable(p, e, cls)
    ensures Diverges(Apply(AfterGrant(p, a, e, cls, t), EpochAdvanced).g.engine, 1)
  {
    hide Convincing, Grantable, AfterGrant, Diverges, Sound, Selected, Apply;
    AfterGrantIsSound(p, a, e, cls, t);
    VerdictAfter(AfterGrant(p, a, e, cls, t), EpochAdvanced, 1);
  }

  lemma WholeIsSound(y: Sys, c: Call)
    requires Sound(y.g) && Room(y.g, 3) && c.WholeDispatch?
    ensures Sound(Perform(y, c).g)
  {
    hide Apply, Sound, Room;
    var y1 := Apply(y, DispatchBegun(c.id, c.now, c.adapters));
    var y2 := Apply(y1, DispatchEnded(c.id, c.answer, c.note));
    assert Numbered(y.g) by { SoundIsNumbered(y.g); }
    StepKeeps(y, DispatchBegun(c.id, c.now, c.adapters), c.id, 2);
    StepKeeps(y1, DispatchEnded(c.id, c.answer, c.note), c.id, 1);
    LessRoom(y.g, 3, 1);
    LessRoom(y1.g, 2, 1);
    SoundStays(y, DispatchBegun(c.id, c.now, c.adapters));
    SoundStays(y1, DispatchEnded(c.id, c.answer, c.note));
    SoundStays(y2, DispatchUnserved(c.id, Lack(y.g, c.id, c.adapters)));
  }

  lemma SoundIsNumbered(g: State)
    requires Sound(g)
    ensures Numbered(g)
  {
  }

  lemma ActingMeans(g: State, p: Policy, e: Evidence, cls: InterventionClass, l: LifecycleState)
    requires Acting(g, p, e, cls, l)
    ensures Room(g, 3) && Room(g, 1) && g.engine.policy.actionabilityThreshold == p.actionabilityThreshold
    ensures 1 in g.engine.conflicts && g.nextConflictId == 2
  {
  }

  /** The loop closes, the conflict is resolved, and replay does not confirm what resolved it. */
  lemma DivergesWhenResolved(p: Policy, a: AuthorityContext, e: Evidence, after: Evidence, cls: InterventionClass,
                             t: TimeMs, c: Call)
    requires Convincing(p, a, e) && Grantable(p, e, cls) && Relieved(p, e, after) && StrictlyRelieved(p, after)
    requires IsThrottling(GrantedClass(p, a, e, cls))
    requires c.WholeDispatch? && c.id == 1 && c.adapters.WithThrottle? && c.answer.Accepted?
    ensures var n := PerformAll(Start(Fresh(p, a)), Loop(e, after, cls, t, c)).g.engine;
            1 in n.conflicts && n.conflicts[1].state == ConflictResolved && Diverges(n, 1)
  {
    hide PerformAll, Loop, Grantable, Convincing, Diverges, GrantedClass, IsThrottling, AfterGrant, Perform, Sound;
    hide Next, Note, Acting, Room, Relieved, MayBegin, Machine.StepVerdict, FindConflict, Degradation, Selected;
    var y, granted := AfterGrant(p, a, e, cls, t), GrantedClass(p, a, e, cls);
    var z, step := Perform(y, c), EvidenceSubmitted(after);
    LoopClosesIff(p, a, e, after, cls, t, c);
    LoopIs(p, a, e, after, cls, t, c);
    GrantedRun(p, a, e, cls, t);
    AfterGrantIsSound(p, a, e, cls, t);
    ActingMeans(y.g, p, e, granted, Authorized);
    WholeIsSound(y, c);
    DispatchActs(y, p, e, granted, c);
    ActingMeans(z.g, p, e, granted, AnswerState(Reply(c.adapters, granted, c.answer, c.note).0));
    ActingMeans(Apply(z, step).g, p, e, granted, Effective);
    OnlyVerdictsResolve(z.g, step, 1);
    ResolvedDiverges(z, step, 1);
  }

  // ----- Budgets -----

  /** After the first grant of a named class, below the cap, work can still be protected at any time. */
  lemma FirstGrantLeaves(p: Policy, a: AuthorityContext, e: Evidence, cls: InterventionClass, t: TimeMs)
    requires Convincing(p, a, e) && cls != NoAction && Grantable(p, e, cls)
    requires p.maxConsecutiveInterventionsPerWorkload > 1
    ensures var y := AfterGrant(p, a, e, cls, t);
            && Budget(y.g) == Consumed(p.budget, cls, t)
            && DecisionOn(y.g, 1).Some?
            && forall now :: Attempt(y.g, 1, ProtectHighValueWork, now).Some?
  {
    hide AfterGrant, DecisionOn, Attempt, Convincing, Ingest, Fresh, Note, Grantable, Consumed, GrantedClass, MayBegin;
    var g := Ingest(Fresh(p, a), e);
    IngestFinds(p, a, e);
    HarmIsGranted(g, p, a, e, cls, t);
    GrantedRun(p, a, e, cls, t);
    BudgetAfter(g, AuthorizeCalled(1, cls, t));
    DecisionAfter(g, 1, cls, t, 1);
    var y := AfterGrant(p, a, e, cls, t);
    forall now
      ensures Attempt(y.g, 1, ProtectHighValueWork, now).Some?
    {
      ProtectionGranted(y.g, 1, now);
    }
  }

  /**
   A family with a limit of one, used once: its class is refused at every later time, also long after
   the window; and any grant of another class after the window makes it available again.
   */
  lemma RefusedUntilOthersAct(p: Policy, a: AuthorityContext, e: Evidence, cls: InterventionClass, t: TimeMs)
    requires Convincing(p, a, e) && cls != NoAction && PermittedOnAll(p, e.neighbors, cls)
    requires p.maxConsecutiveInterventionsPerWorkload > 1
    requires Unused(p.budget) && !FamilyOf(cls).Unbudgeted? && Limit(p.budget, FamilyOf(cls)) == 1
    ensures var y := AfterGrant(p, a, e, cls, t);
            && Exhausted(Budget(y.g), cls)
            && (forall now :: Attempt(y.g, 1, cls, now).None?)
            && forall now | Sub64(now, Budget(y.g).windowStart) > Budget(y.g).windowMs ::
                 !Exhausted(Budget(Apply(y, AuthorizeCalled(1, ProtectHighValueWork, now)).g), cls)
  {
    hide Run, DecisionOn, Attempt, Convincing, AfterGrant, PermittedOnAll, Next, Note, FamilyOf;
    OneUse(p.budget, cls, t);
    FirstGrantLeaves(p, a, e, cls, t);
    var y := AfterGrant(p, a, e, cls, t);
    forall now
      ensures Attempt(y.g, 1, cls, now).None?
    {
      ExhaustedRefused(y.g, 1, cls, now);
    }
    forall now | Sub64(now, Budget(y.g).windowStart) > Budget(y.g).windowMs
      ensures !Exhausted(Budget(Apply(y, AuthorizeCalled(1, ProtectHighValueWork, now)).g), cls)
    {
      ReliefIff(y.g, AuthorizeCalled(1, ProtectHighValueWork, now), cls);
    }
  }

  lemma OneUse(b: ActionBudget, cls: InterventionClass, t: TimeMs)
    requires Unused(b) && !FamilyOf(cls).Unbudgeted? && Limit(b, FamilyOf(cls)) == 1
    ensures !Exhausted(b, cls) && Exhausted(Consumed(b, cls, t), cls)
    ensures Limit(Consumed(b, cls, t), FamilyOf(cls)) == 1
  {
    hide FamilyOf;
  }

  /** Two grants at one moment under a limit of one in all: the total is past its limit. */
  lemma TotalPassesLimit(p: Policy, a: AuthorityContext, e: Evidence, t: TimeMs)
    requires Convincing(p, a, e) && p.maxConsecutiveInterventionsPerWorkload > 1
    requires Unused(p.budget) && p.budget.maxAnyPerWindow == 1
    ensures var y := Run(Start(Fresh(p, a)), [EvidenceIngested(e), AuthorizeCalled(1, ProtectHighValueWork, t),
                                              AuthorizeCalled(1, ProtectHighValueWork, t)]);
            Budget(y.g).used.all == 2 && Budget(y.g).maxAnyPerWindow == 1
  {
    hide Run, DecisionOn, Attempt, Convincing, Next, Note, AfterGrant, Consumed, PermittedOnAll;
    var again := AuthorizeCalled(1, ProtectHighValueWork, t);
    ProtectionAllowed(p, e.neighbors);
    FirstGrantLeaves(p, a, e, ProtectHighValueWork, t);
    var y := AfterGrant(p, a, e, ProtectHighValueWork, t);
    BudgetAfter(y.g, again);
    assert Attempt(y.g, 1, ProtectHighValueWork, t).Some?;
    ProtectionCharges(p.budget, Attempt(y.g, 1, ProtectHighValueWork, t).value.cls, t);
    FirstGrantMore(p, a, e, t, again);
  }

  lemma FirstGrantMore(p: Policy, a: AuthorityContext, e: Evidence, t: TimeMs, again: Step)
    ensures Run(Start(Fresh(p, a)), [EvidenceIngested(e), AuthorizeCalled(1, ProtectHighValueWork, t), again])
            == Apply(AfterGrant(p, a, e, ProtectHighValueWork, t), again)
  {
    hide Run, Apply;
    var front := [EvidenceIngested(e), AuthorizeCalled(1, ProtectHighValueWork, t)];
    RunMore(Start(Fresh(p, a)), front, again);
    assert front + [again] == [EvidenceIngested(e), AuthorizeCalled(1, ProtectHighValueWork, t), again];
  }

  lemma ProtectionAllowed(p: Policy, ws: seq<WorkloadId>)
    ensures PermittedOnAll(p, ws, ProtectHighValueWork) && !Exhausted(p.budget, ProtectHighValueWork)
  {
    hide WorkloadPolicyFor;
  }

  lemma ProtectionCharges(b: ActionBudget, cls: InterventionClass, t: TimeMs)
    requires Unused(b) && b.maxAnyPerWindow == 1
    ensures var c := Consumed(Consumed(b, ProtectHighValueWork, t), cls, t); c.used.all == 2 && c.maxAnyPerWindow == 1
  {
    hide FamilyOf;
  }
}
