/** An intervention counts as effective, and a conflict as resolved, only on what was measured afterwards. */
module ClosedLoop {
  import opened Words
  import opened Enums
  import opened Entities
  import opened Rules
  import opened Steps
  import opened Machine

  /** The lifecycle state of a judged intervention is backed by a reported verdict of that kind. */
  predicate Honest(r: InterventionRecord) {
    && (r.state.Effective? ==> r.verificationReported && r.result.Resolved?)
    && (r.state.PartiallyEffective? ==> r.verificationReported && r.result.PartiallyResolved?)
    && (r.state.Ineffective? ==>
        r.verificationReported
        && (r.result.NoEffect? || r.result.Worsened? || r.result.ShiftedContention?
            || r.result.CreatedSecondaryViolation?))
  }

  ghost predicate AllHonest(g: State) {
    forall i | i in g.engine.interventions :: Honest(g.engine.interventions[i])
  }

  lemma VerdictIsOneOfSix(t: State, e: Evidence)
    requires VerdictOn(t, e).Some?
    ensures var o := VerdictOn(t, e).value.outcome;
            o.Resolved? || o.PartiallyResolved? || o.NoEffect? || o.Worsened? || o.ShiftedContention?
                || o.CreatedSecondaryViolation?
  {
    hide FindConflict, FirstOpen, HarmedElsewhere;
  }

  lemma StepVerdictIsOneOfSix(g: State, step: Step)
    requires StepVerdict(g, step).Some?
    ensures LifecycleAfter(StepVerdict(g, step).value.outcome) in {Effective, PartiallyEffective, Ineffective}
    ensures forall r: InterventionRecord, at: TimeMs :: Honest(Verified(r, StepVerdict(g, step).value.outcome, at))
  {
    hide VerdictOn, Recorded, Identified, EvidenceIsValid;
    VerdictIsOneOfSix(Recorded(g, step.e), Identified(g, step.e));
  }

  lemma RecordStaysHonest(g: State, step: Step, i: InterventionId)
    requires i in g.engine.interventions ==> Honest(g.engine.interventions[i])
    ensures i in Next(g, step).engine.interventions ==> Honest(Next(g, step).engine.interventions[i])
  {
    hide Next, Attempt, MayBegin, StepVerdict, Verified;
    if !Touches(g, step, i) {
      OthersUntouched(g, step, i);
    } else {
      RecordsAfterAre(g, step);
      if StepVerdict(g, step).Some? {
        StepVerdictIsOneOfSix(g, step);
      }
    }
  }

  lemma HonestStays(y: Sys, step: Step)
    requires AllHonest(y.g)
    ensures AllHonest(Apply(y, step).g)
  {
    hide Next, Note, Honest;
    forall i | i in Next(y.g, step).engine.interventions
      ensures Honest(Next(y.g, step).engine.interventions[i])
    {
      RecordStaysHonest(y.g, step, i);
    }
  }

  /** In every run the judged states are honest, whatever overtakes whatever. */
  lemma {:induction false} HonestAlways(y: Sys, steps: seq<Step>)
    requires AllHonest(y.g)
    ensures AllHonest(Run(y, steps).g)
    decreases |steps|
  {
    hide Apply, AllHonest;
    if steps != [] {
      HonestAlways(y, steps[..|steps| - 1]);
      HonestStays(Run(y, steps[..|steps| - 1]), steps[|steps| - 1]);
    }
  }

  lemma OnlyVerdictsResolve(g: State, step: Step, k: ConflictId)
    requires Room(g, 1) && k in g.engine.conflicts && k < g.nextConflictId
            && !g.engine.conflicts[k].state.ConflictResolved?
    ensures k in Next(g, step).engine.conflicts
    ensures Next(g, step).engine.conflicts[k].state.ConflictResolved?
            <==> && StepVerdict(g, step).Some? && StepVerdict(g, step).value.outcome.Resolved?
                 && FindConflict(g.engine.conflicts, step.e.domain, step.e.victim) == Some(k)
  {
    hide Next, Attempt, FindConflict, VerdictOn, Recorded, Identified, EvidenceIsValid, ClassifySeverity;
    ConflictsAfterAre(g, step);
    if StepVerdict(g, step).Some? {
      VerdictHasConflict(Recorded(g, step.e), Identified(g, step.e));
      RecordedConflicts(g, step.e);
    }
  }

  lemma VerdictHasConflict(t: State, e: Evidence)
    requires VerdictOn(t, e).Some?
    ensures FindConflict(t.engine.conflicts, e.domain, e.victim).Some?
  {
  }

  lemma RecordedConflicts(g: State, input: Evidence)
    ensures Recorded(g, input).engine.conflicts == g.engine.conflicts
    ensures Identified(g, input).domain == input.domain && Identified(g, input).victim == input.victim
  {
    hide Degradation, Improvement;
  }

  /** The remeasured conflict is not among the others, so it does not matter to them. */
  lemma HarmIgnoresSelf(p: Policy, cs: map<ConflictId, Conflict>, k: ConflictId, c: Conflict, w: WorkloadId)
    requires k in cs
    ensures HarmedElsewhere(p, cs[k := c], k, w) == HarmedElsewhere(p, cs, k, w)
  {
    hide WorkloadPolicyFor;
    var ds := cs[k := c];
    if HarmedElsewhere(p, cs, k, w) {
      var j :| j in cs && HarmfulConflict(p, cs[j], j, k, w);
      assert j in ds && ds[j] == cs[j];
    }
    if HarmedElsewhere(p, ds, k, w) {
      var j :| j in ds && HarmfulConflict(p, ds[j], j, k, w);
      assert j in cs && ds[j] == cs[j];
    }
  }

  /**
   A conflict becomes resolved in a step exactly when the step reports valid post-action evidence on
   it, an intervention on it is open, its degradation is measured at or below the actionability
   threshold, and no other conflict holds the slowed workload beyond its hard service floor.
   */
  lemma ResolvedIff(y: Sys, step: Step, k: ConflictId)
    requires Integrity(y.g.engine) && Room(y.g, 1)
    requires k in y.g.engine.conflicts && k < y.g.nextConflictId && !y.g.engine.conflicts[k].state.ConflictResolved?
    ensures var n := y.g.engine;
            k in Apply(y, step).g.engine.conflicts
            && (Apply(y, step).g.engine.conflicts[k].state.ConflictResolved?
                <==> && step.EvidenceSubmitted? && EvidenceIsValid(step.e)
                     && FindConflict(n.conflicts, step.e.domain, step.e.victim) == Some(k)
                     && Degradation(step.e.metric, step.e.isolatedBaseline,
                         step.e.coRunObservation) <= n.policy.actionabilityThreshold
                     && var i := FirstOpen(n.interventions, k);
                     && i.Some?
                     && var w := n.interventions[i.value].target;
                        forall j | j in n.conflicts && j != k && w in n.conflicts[j].affected ::
                          n.conflicts[j].degradation <= 1.0 - WorkloadPolicyFor(n.policy, w).hardSloFloor)
  {
    hide Next, FindConflict, FirstOpen, EvidenceIsValid, Degradation, Improvement, HarmedElsewhere,
         WorkloadPolicyFor, Integrity;
    var n := y.g.engine;
    OnlyVerdictsResolve(y.g, step, k);
    if step.EvidenceSubmitted? && EvidenceIsValid(step.e)
       && FindConflict(n.conflicts, step.e.domain, step.e.victim) == Some(k) {
      IdIsKey(n, k);
      var i := FirstOpen(n.interventions, k);
      if i.Some? {
        var w := n.interventions[i.value].target;
        HarmIgnoresSelf(n.policy, n.conflicts, k, Remeasured(n.conflicts[k], Identified(y.g, step.e)), w);
        HarmedIff(n.policy, n.conflicts, k, w);
      }
    }
  }

  lemma IdIsKey(n: Engine, k: ConflictId)
    requires Integrity(n) && k in n.conflicts
    ensures n.conflicts[k].id == k
  {
    assert ConflictIntact(n, k);
  }

  lemma HarmedIff(p: Policy, cs: map<ConflictId, Conflict>, k: ConflictId, w: WorkloadId)
    ensures !HarmedElsewhere(p, cs, k, w)
            <==> forall j | j in cs && j != k && w in cs[j].affected ::
                cs[j].degradation <= 1.0 - WorkloadPolicyFor(p, w).hardSloFloor
  {
    hide WorkloadPolicyFor;
    forall j | j in cs
      ensures HarmfulConflict(p, cs[j], j, k, w)
              <==> j != k && w in cs[j].affected && !(cs[j].degradation <= 1.0 - WorkloadPolicyFor(p, w).hardSloFloor)
    {
    }
  }
}
