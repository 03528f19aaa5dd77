/** What policies forbid, switch by switch, and that nothing forbidden is ever proposed, decided on or granted. */
module Permissions {
  import opened Words
  import opened Enums
  import opened Entities
  import opened Rules
  import opened Ranking
  import opened Evaluate
  import opened Effects
  import opened Steps
  import opened Machine
  import opened Agreement

  const THROTTLING: set<InterventionClass> :=
    {Throttle, ReduceConcurrency, ReduceBatch, Serialize, TimeSlice, ReduceMemoryPressure}

  const EVICTING: set<InterventionClass> := {RequestPreemption, RequestReplacement, RequestMigration}

  // ----- Feasibility -----

  /** What a workload's own policy rules out: one line a switch. */
  predicate OwnPolicyForbids(o: WorkloadPolicy<real>, c: InterventionClass) {
    || (o.nonPreemptible && c in EVICTING)
    || (!o.preemptionAllowed && c in {RequestPreemption, RequestReplacement})
    || (!o.migrationAllowed && c in {RequestMigration})
    || (!o.throttlingAllowed && c in THROTTLING)
    || (o.hardSloFloor >= 0.999999999 && c in THROTTLING)
    || (!o.deferralAllowed && c in {DeferNewWork})
    || (!o.placementChangeAllowed && c in {ChangePlacement})
    || (!o.bandwidthRequestAllowed && c in {RequestBandwidthReallocation})
    || (!o.collectiveSchedulingAllowed && c in {RequestCollectiveReschedule})
  }

  /** What the policy rules out for all workloads. */
  predicate PolicyForbids(p: Policy, c: InterventionClass) {
    || (!p.preemptionAllowed && c in {RequestPreemption, RequestReplacement})
    || (!p.migrationAllowed && c in {RequestMigration})
    || (!p.throttleAllowed && c in THROTTLING)
    || (!p.admissionRestrictionAllowed && c in {DeferNewWork})
    || (!p.placementChangeAllowed && c in {ChangePlacement})
    || (!p.bandwidthRequestAllowed && c in {RequestBandwidthReallocation, RequestCommunicationReplan})
    || (!p.collectiveSchedulingAllowed && c in {RequestCollectiveReschedule})
  }

  /** A workload without a policy of its own forbids nothing. */
  predicate Forbidden(p: Policy, w: WorkloadId, c: InterventionClass) {
    PolicyForbids(p, c) || (w in p.workloads && OwnPolicyForbids(p.workloads[w], c))
  }

  predicate WornOut(n: Engine, w: WorkloadId) {
    w in n.fairness && n.fairness[w].consecutiveInterventions >= n.policy.maxConsecutiveInterventionsPerWorkload
  }

  lemma PermittedIff(p: Policy, w: WorkloadId, c: InterventionClass)
    ensures Permitted(p, WorkloadPolicyFor(p, w), c) <==> !Forbidden(p, w, c)
  {
    hide Permitted, OwnPolicyForbids, PolicyForbids;
    PermittedBoth(p, WorkloadPolicyFor(p, w), c);
    if w !in p.workloads {
      DefaultForbidsNothing(p, w, c);
    }
  }

  lemma PermittedBoth(p: Policy, o: WorkloadPolicy<real>, c: InterventionClass)
    ensures Permitted(p, o, c) <==> !PolicyForbids(p, c) && !OwnPolicyForbids(o, c)
  {
  }

  lemma DefaultForbidsNothing(p: Policy, w: WorkloadId, c: InterventionClass)
    requires w !in p.workloads
    ensures !OwnPolicyForbids(WorkloadPolicyFor(p, w), c)
  {
  }

  /** An action is feasible exactly when its fence is current, no switch forbids it and the target is not worn out. */
  lemma FeasibleIff(n: Engine, w: WorkloadId, c: InterventionClass, f: Fence)
    ensures Feasible(n, w, c, f)
            <==> && Known(n.authority, w) && !Forbidden(n.policy, w, c) && !WornOut(n, w)
                 && f == MakeFence(n.authority, f.conflictGeneration, f.evidenceGeneration, w, f.interventionGeneration)
  {
    hide Permitted, WorkloadPolicyFor, Forbidden, MakeFence, Revalidate, Known;
    PermittedIff(n.policy, w, c);
    RevalidateIff(n.authority, f, w);
  }

  // ----- Grants -----

  lemma AttemptAllowed(g: State, k: ConflictId, cls: InterventionClass, now: TimeMs)
    requires Attempt(g, k, cls, now).Some?
    ensures var n, a := g.engine, Attempt(g, k, cls, now).value;
            Known(n.authority, a.target) && !Forbidden(n.policy, a.target, a.cls) && !WornOut(n, a.target)
  {
    hide Evaluate.Evaluate, Feasible, Revalidate, MakeFence, Exhausted, CoolingDown, Picked, Forbidden, Known, WornOut;
    var a := Attempt(g, k, cls, now).value;
    FeasibleIff(g.engine, a.target, a.cls, a.fence);
  }

  /** Whatever step is taken after whatever run: a grant is on a known workload that is not worn out, and allowed. */
  lemma GrantsAreAllowed(y: Sys, step: Step, r: Record)
    requires r in Note(y.g, step) && r.Granting?
    ensures var n := y.g.engine;
            Known(n.authority, r.target) && !Forbidden(n.policy, r.target, r.cls) && !WornOut(n, r.target)
  {
    hide Note, Attempt, Forbidden, Known, WornOut;
    GrantNoted(y.g, step);
    AttemptAllowed(y.g, step.conflict, step.cls, step.now);
  }

  /**
   In every run no preemption, replacement or migration, decided on or named by the caller, is granted on
   a workload that is non-preemptible at the grant.
   */
  lemma NonPreemptibleSpared(g: State, steps: seq<Step>, step: Step, w: WorkloadId)
    requires var p := Run(Start(g), steps).g.engine.policy; w in p.workloads && p.workloads[w].nonPreemptible
    ensures forall r | r in Note(Run(Start(g), steps).g, step) && r.Granting? && r.target == w ::
              r.cls !in {RequestPreemption, RequestReplacement, RequestMigration}
  {
    hide Note, Run, Known, WornOut;
    forall r | r in Note(Run(Start(g), steps).g, step) && r.Granting?
      ensures !Forbidden(Run(Start(g), steps).g.engine.policy, r.target, r.cls)
    {
      GrantsAreAllowed(Run(Start(g), steps), step, r);
    }
  }

  lemma OwnPoliciesFixed(g: State, step: Step)
    requires !step.PolicySet?
    ensures Next(g, step).engine.policy.workloads == g.engine.policy.workloads
    ensures forall c :: PolicyForbids(Next(g, step).engine.policy, c) == PolicyForbids(g.engine.policy, c)
  {
    hide Next, Attempt, Consumed;
    PolicyAfterIs(g, step);
  }

  /** Under one policy no grant in the whole history is of a class forbidden on its target. */
  lemma {:induction false} NothingForbiddenGranted(g: State, steps: seq<Step>)
    requires PolicyFixed(steps)
    ensures var y := Run(Start(g), steps);
            && y.g.engine.policy.workloads == g.engine.policy.workloads
            && (forall c :: PolicyForbids(y.g.engine.policy, c) == PolicyForbids(g.engine.policy, c))
            && forall k | 0 <= k < |y.log| && y.log[k].Granting? ::
                 !Forbidden(g.engine.policy, y.log[k].target, y.log[k].cls)
    decreases |steps|
  {
    hide Next, Note, PolicyFixed, PolicyForbids, OwnPolicyForbids;
    if steps != [] {
      var front, step := steps[..|steps| - 1], steps[|steps| - 1];
      FrontRuns(steps, 0);
      NothingForbiddenGranted(g, front);
      var x := Run(Start(g), front);
      OwnPoliciesFixed(x.g, step);
      forall r | r in Note(x.g, step) && r.Granting?
        ensures !Forbidden(g.engine.policy, r.target, r.cls)
      {
        GrantsAreAllowed(x, step, r);
      }
    }
  }

  // ----- Proposals -----

  /** The classes the policy has switched off, so that no candidate is built for them. */
  predicate SwitchedOff(p: Policy, c: InterventionClass) {
    || (!p.throttleAllowed && c in THROTTLING)
    || (!p.admissionRestrictionAllowed && c in {DeferNewWork})
    || (!p.preemptionAllowed && c in {RequestPreemption})
    || (!p.migrationAllowed && c in {RequestMigration, RequestReplacement})
    || (!p.placementChangeAllowed && c in {ChangePlacement})
    || (!p.bandwidthRequestAllowed && !p.collectiveSchedulingAllowed
        && c in {RequestBandwidthReallocation, RequestCommunicationReplan, RequestCollectiveReschedule})
  }

  /** The classes that are never proposed. */
  const PASSIVE: set<InterventionClass> := {NoAction, ObserveMore, Escalate, ManualInterventionRequired}

  lemma EligibleIff(p: Policy, c: InterventionClass)
    ensures c in ELIGIBLE && ClassEligible(p, c) <==> c !in PASSIVE && !SwitchedOff(p, c)
  {
    hide ELIGIBLE, EFFECT_ORDER, THROTTLING;
    RankedAreEligible(c);
    SwitchedOffIff(p, c);
  }

  lemma SwitchedOffIff(p: Policy, c: InterventionClass)
    ensures ClassEligible(p, c) <==> !SwitchedOff(p, c)
    ensures EffectRank(c) < 17 <==> c !in PASSIVE
  {
    hide EFFECT_ORDER;
  }

  /** For a conflict that passes the gates a candidate is built for every associated workload and class not off. */
  lemma ProposedIff(n: Engine, k: ConflictId, w: WorkloadId, c: InterventionClass)
    requires k in n.conflicts && Refusal(n.policy, n.conflicts[k], UsableEvidence(n, n.conflicts[k].evidenceIds)).None?
    ensures (exists d :: d in Evaluate.Evaluate(n, k, n.authority).candidates && d.cls == c && d.target == w)
            <==> w in n.conflicts[k].associated && c !in PASSIVE && !SwitchedOff(n.policy, c)
    ensures forall d | d in Evaluate.Evaluate(n, k, n.authority).candidates ::
              d.feasible <==> Known(n.authority, d.target) && !Forbidden(n.policy, d.target, d.cls)
                              && !WornOut(n, d.target)
  {
    hide Choose, Refusal, UsableEvidence, AllCandidates, SortIds, ClassEligible, ELIGIBLE, SwitchedOff, Forbidden,
         Known, WornOut, DefaultEffect, MakeFence, Feasible, Rejections, PASSIVE;
    NotRefused(n.policy, n.conflicts[k], UsableEvidence(n, n.conflicts[k].evidenceIds));
    var o, ts := PrimaryOrigin(n, n.conflicts[k], n.authority), SortIds(n.conflicts[k].associated);
    var cs := AllCandidates(n, o, ts, ELIGIBLE);
    assert Evaluate.Evaluate(n, k, n.authority).candidates == cs;
    SortIdsKeeps(n.conflicts[k].associated);
    EligibleIff(n.policy, c);
    forall d
      ensures d in cs <==> IsCandidate(n, o, ts, ELIGIBLE, d)
    {
      AllCandidatesAre(n, o, ts, ELIGIBLE, d);
    }
    if w in ts && c !in PASSIVE && !SwitchedOff(n.policy, c) {
      assert Built(n, o, w, c) in cs;
    }
    forall d | d in cs
      ensures d.feasible <==> Known(n.authority, d.target) && !Forbidden(n.policy, d.target, d.cls)
                              && !WornOut(n, d.target)
    {
      BuiltIsFeasible(n, o, d.target, d.cls);
    }
  }

  lemma BuiltIsFeasible(n: Engine, o: Origin, w: WorkloadId, c: InterventionClass)
    requires o.ctx == n.authority
    ensures Built(n, o, w, c).feasible
            <==> Known(n.authority, w) && !Forbidden(n.policy, w, c) && !WornOut(n, w)
  {
    hide Forbidden, Known, WornOut, DefaultEffect, Feasible, MakeFence;
    var f := MakeFence(o.ctx, o.conflict, o.evidence, w, 1);
    FenceGenerations(o.ctx, o.conflict, o.evidence, w);
    FeasibleIff(n, w, c, f);
  }

  // ----- Decisions -----

  /** Evidence that counts: current, of a positive baseline, sampled, and with its figures in range. */
  predicate Counts(n: Engine, id: EvidenceId) {
    && id in n.evidence
    && var e := n.evidence[id];
    && e.status == Current && e.isolatedBaseline > 0.0 && e.sampleCount > 0
    && 0.0 <= e.confidence && e.confidence <= 1.0 && e.degradation >= 0.0
  }

  predicate FirstThatCounts(n: Engine, ids: seq<EvidenceId>, i: nat) {
    i < |ids| && Counts(n, ids[i]) && forall j | 0 <= j < i :: !Counts(n, ids[j])
  }

  lemma {:induction false} UsableAre(n: Engine, ids: seq<EvidenceId>)
    ensures UsableEvidence(n, ids) == [] <==> forall j | 0 <= j < |ids| :: !Counts(n, ids[j])
    ensures forall i | 0 <= i < |ids| && FirstThatCounts(n, ids, i) ::
              UsableEvidence(n, ids) != [] && UsableEvidence(n, ids)[0] == n.evidence[ids[i]]
    decreases |ids|
  {
    if ids != [] {
      var front := ids[..|ids| - 1];
      UsableAre(n, front);
      assert forall j | 0 <= j < |front| :: front[j] == ids[j];
      forall i | 0 <= i < |ids| && FirstThatCounts(n, ids, i)
        ensures UsableEvidence(n, ids) != [] && UsableEvidence(n, ids)[0] == n.evidence[ids[i]]
      {
        if i < |front| {
          assert FirstThatCounts(n, front, i);
        } else {
          assert UsableEvidence(n, front) == [];
        }
      }
    }
  }

  lemma {:induction false} SomeCounts(n: Engine, ids: seq<EvidenceId>)
    requires exists j :: 0 <= j < |ids| && Counts(n, ids[j])
    ensures exists i: nat :: FirstThatCounts(n, ids, i)
    decreases |ids|
  {
    var front := ids[..|ids| - 1];
    assert forall j | 0 <= j < |front| :: front[j] == ids[j];
    if j :| 0 <= j < |front| && Counts(n, front[j]) {
      SomeCounts(n, front);
      var i: nat :| FirstThatCounts(n, front, i);
      assert FirstThatCounts(n, ids, i);
    } else {
      assert FirstThatCounts(n, ids, |ids| - 1);
    }
  }

  /** Strong enough: at least the attribution and the confidence asked for, and nothing left to explain it. */
  predicate Strong(p: Policy, e: Evidence) {
    && AttributionOrd(p.minAttributionForDisruptive) <= AttributionOrd(e.attribution)
    && p.minConfidenceForDisruptive <= e.confidence && |e.unresolvedConfounders| == 0
  }

  /**
   A conflict has a decision exactly when it is as bad as the policy acts on, the first of its evidence that
   counts is strong, and some associated workload is known and not worn out.
   */
  lemma DecidesIff(n: Engine, k: ConflictId)
    ensures Evaluate.Evaluate(n, k, n.authority).decision.Some?
            <==> && k in n.conflicts
                 && var c := n.conflicts[k];
                 && n.policy.actionabilityThreshold <= c.degradation
                 && (exists i: nat :: FirstThatCounts(n, c.evidenceIds, i)
                                      && Strong(n.policy, n.evidence[c.evidenceIds[i]]))
                 && exists w | w in c.associated :: Known(n.authority, w) && !WornOut(n, w)
  {
    hide Evaluate.Evaluate, Known, UsableEvidence, AttributionOrd;
    DecisionExistsIff(n, k);
    forall w
      ensures WornOut(n, w) == AtCap(n, w)
    {
    }
    if k in n.conflicts {
      var c := n.conflicts[k];
      var usable := UsableEvidence(n, c.evidenceIds);
      UsableAre(n, c.evidenceIds);
      if usable != [] {
        SomeCounts(n, c.evidenceIds);
        var i: nat :| FirstThatCounts(n, c.evidenceIds, i);
        FirstIsOne(n, c.evidenceIds, i);
        assert usable[0] == n.evidence[c.evidenceIds[i]];
        assert Attributable(n.policy, usable[0]) == Strong(n.policy, usable[0]);
      }
    }
  }

  lemma FirstIsOne(n: Engine, ids: seq<EvidenceId>, i: nat)
    requires FirstThatCounts(n, ids, i)
    ensures forall j: nat :: FirstThatCounts(n, ids, j) ==> j == i
  {
    hide Counts;
  }

  /**
   The decision is on a pair that is not forbidden and not switched off; and no other such pair, on a known
   workload that is not worn out, is of a class earlier in the order of effects, nor, of the same class,
   on a workload of less value.
   */
  lemma DecisionIsAllowed(n: Engine, k: ConflictId)
    requires Evaluate.Evaluate(n, k, n.authority).decision.Some?
    ensures var d := Evaluate.Evaluate(n, k, n.authority).decision.value;
            && k in n.conflicts && d.target in n.conflicts[k].associated && Available(n, d.cls, d.target)
            && forall c, w | w in n.conflicts[k].associated && Available(n, c, w) ::
                 EffectRank(d.cls) < EffectRank(c)
                 || (d.cls == c && (d.target == w || Worth(n.policy, d.target) < Worth(n.policy, w)
                                    || (Worth(n.policy, d.target) == Worth(n.policy, w) && d.target < w)))
  {
    hide Evaluate.Evaluate, Refusal, UsableEvidence, EffectRank, Serves, Available, MakeCandidate;
    var d := Evaluate.Evaluate(n, k, n.authority).decision.value;
    DecisionIsBestPair(n, k, d);
    ServesIff(n, d.cls, d.target);
    forall c, w
      ensures Available(n, c, w) <==> EffectRank(c) < 17 && Serves(n, c, w)
    {
      ServesIff(n, c, w);
    }
    forall w
      ensures Worth(n.policy, w) == WorkloadPolicyFor(n.policy, w).value
    {
    }
  }

  /** What a workload is worth: nothing, if it has no policy of its own. */
  function Worth(p: Policy, w: WorkloadId): real { if w in p.workloads then p.workloads[w].value else 0.0 }

  /** The class may be proposed and used on the workload now. */
  predicate Available(n: Engine, c: InterventionClass, w: WorkloadId) {
    && c !in PASSIVE && !SwitchedOff(n.policy, c) && !Forbidden(n.policy, w, c)
    && Known(n.authority, w) && !WornOut(n, w)
  }

  lemma ServesIff(n: Engine, c: InterventionClass, w: WorkloadId)
    ensures Available(n, c, w) <==> EffectRank(c) < 17 && Serves(n, c, w)
  {
    hide Permitted, WorkloadPolicyFor, Forbidden, SwitchedOff, ClassEligible, EffectRank, ELIGIBLE, Known, PASSIVE;
    PermittedIff(n.policy, w, c);
    EligibleIff(n.policy, c);
    RankedAreEligible(c);
  }

  /** Enough evidence that counts, bad enough, against someone, and strong. */
  ghost predicate SomeCount(n: Engine, c: Conflict) {
    exists j | 0 <= j < |c.evidenceIds| :: Counts(n, c.evidenceIds[j])
  }

  ghost predicate StrongFirst(n: Engine, c: Conflict) {
    exists i: nat :: FirstThatCounts(n, c.evidenceIds, i) && Strong(n.policy, n.evidence[c.evidenceIds[i]])
  }

  /**
   What an evaluation reports: the code of the first thing missing, and the state that goes with it. Evidence
   or degradation missing leaves the state unknown; interferers, strength or a legal action, unresolved.
   */
  lemma EvaluationReports(n: Engine, k: ConflictId)
    ensures var ev := Evaluate.Evaluate(n, k, n.authority);
            && ev.conflictId == k
            && (k !in n.conflicts ==> ev.code == InvalidInput && ev.state == UnknownConflict)
            && (k in n.conflicts ==>
                  && var c := n.conflicts[k];
                     var short := !SomeCount(n, c) || c.degradation < n.policy.actionabilityThreshold;
                  && ev.degradation == c.degradation && ev.severity == c.severity && ev.binding == c.binding
                  && (ev.code == Ok <==> ev.decision.Some?)
                  && (ev.code == InsufficientEvidence
                      <==> short || (|c.associated| > 0 && !StrongFirst(n, c)))
                  && (ev.code == ConfoundedEvidence <==> !short && |c.associated| == 0)
                  && (ev.code == NoLegalIntervention
                      <==> !short && |c.associated| > 0 && StrongFirst(n, c) && ev.decision.None?)
                  && (ev.state == UnknownConflict <==> short) && (ev.state == Actionable <==> ev.decision.Some?)
                  && (ev.state == Unresolved <==> !short && ev.decision.None?))
  {
    hide Choose, AllCandidates, SortIds, ELIGIBLE, Rejections, UsableEvidence, Counts, AttributionOrd, FirstThatCounts;
    if k in n.conflicts {
      var c := n.conflicts[k];
      UsableAre(n, c.evidenceIds);
      StrengthIs(n, c);
    }
  }

  lemma StrengthIs(n: Engine, c: Conflict)
    ensures var usable := UsableEvidence(n, c.evidenceIds);
            && (usable != [] <==> SomeCount(n, c))
            && (usable != [] ==> (Attributable(n.policy, usable[0]) <==> StrongFirst(n, c)))
  {
    hide UsableEvidence, AttributionOrd;
    UsableAre(n, c.evidenceIds);
    if UsableEvidence(n, c.evidenceIds) != [] {
      SomeCounts(n, c.evidenceIds);
      var i: nat :| FirstThatCounts(n, c.evidenceIds, i);
      FirstIsOne(n, c.evidenceIds, i);
    }
  }

  // ----- Reasons and figures -----

  lemma {:induction false} RejectedAre(n: Engine, ids: seq<EvidenceId>, r: Rejection)
    ensures r in RejectedEvidence(n, ids)
            <==> && r.cls == NoAction
                 && exists j | 0 <= j < |ids| ::
                      && ids[j] in n.evidence && !Counts(n, ids[j])
                      && r.reason == if n.evidence[ids[j]].status == Current then InvalidStructure
                                     else NotCurrent(n.evidence[ids[j]].status)
    decreases |ids|
  {
    if ids != [] {
      var front, last := ids[..|ids| - 1], ids[|ids| - 1];
      RejectedAre(n, front, r);
      assert forall j | 0 <= j < |front| :: front[j] == ids[j];
      assert ids[|front|] == last;
    }
  }

  /** Evidence of that status is listed. */
  ghost predicate Listed(n: Engine, c: Conflict, s: EvidenceStatus) {
    exists j | 0 <= j < |c.evidenceIds| :: c.evidenceIds[j] in n.evidence && n.evidence[c.evidenceIds[j]].status == s
  }

  /** Evidence is listed that is current and does not count. */
  ghost predicate OutOfRange(n: Engine, c: Conflict) {
    exists j | 0 <= j < |c.evidenceIds| ::
      c.evidenceIds[j] in n.evidence && n.evidence[c.evidenceIds[j]].status == Current && !Counts(n, c.evidenceIds[j])
  }

  lemma RejectedOnEvidence(n: Engine, c: Conflict)
    ensures var rejected := RejectedEvidence(n, c.evidenceIds);
            && (forall s :: Rejection(NoAction, NotCurrent(s)) in rejected <==> s != Current && Listed(n, c, s))
            && (Rejection(NoAction, InvalidStructure) in rejected <==> OutOfRange(n, c))
            && forall r | r in rejected :: r.reason.NotCurrent? || r.reason.InvalidStructure?
  {
    hide RejectedEvidence;
    forall s
      ensures Rejection(NoAction, NotCurrent(s)) in RejectedEvidence(n, c.evidenceIds)
              <==> s != Current && Listed(n, c, s)
    {
      RejectedAre(n, c.evidenceIds, Rejection(NoAction, NotCurrent(s)));
    }
    RejectedAre(n, c.evidenceIds, Rejection(NoAction, InvalidStructure));
    forall r | r in RejectedEvidence(n, c.evidenceIds)
      ensures r.reason.NotCurrent? || r.reason.InvalidStructure?
    {
      RejectedAre(n, c.evidenceIds, r);
    }
  }

  lemma WeaknessReasons(p: Policy, e: Evidence)
    ensures forall r | r in Weaknesses(p, e) ::
              r.reason.WeakAttribution? || r.reason.LowConfidence? || r.reason.HasConfounders?
  {
    hide AttributionOrd;
  }

  lemma RejectedIs(n: Engine, k: ConflictId)
    requires k in n.conflicts
    ensures Evaluate.Evaluate(n, k, n.authority).rejected
            == Rejections(n, n.conflicts[k], UsableEvidence(n, n.conflicts[k].evidenceIds))
  {
    hide Choose, AllCandidates, SortIds, ELIGIBLE, Rejections, UsableEvidence, Refusal;
  }

  /** Why an evaluation of a conflict rejects: each reason is given exactly when it holds. */
  lemma RejectionsIff(n: Engine, k: ConflictId)
    requires k in n.conflicts
    ensures var c, rejected := n.conflicts[k], Evaluate.Evaluate(n, k, n.authority).rejected;
            && (forall s :: Rejection(NoAction, NotCurrent(s)) in rejected <==> s != Current && Listed(n, c, s))
            && (Rejection(NoAction, InvalidStructure) in rejected <==> OutOfRange(n, c))
            && (Rejection(NoAction, NothingUsable) in rejected <==> !SomeCount(n, c))
            && (Rejection(NoAction, BelowThreshold) in rejected
                <==> SomeCount(n, c) && c.degradation < n.policy.actionabilityThreshold)
            && (Rejection(ObserveMore, NoAssociated) in rejected
                <==> SomeCount(n, c) && c.degradation >= n.policy.actionabilityThreshold && |c.associated| == 0)
  {
    hide Evaluate.Evaluate, RejectedEvidence, UsableEvidence, Weaknesses, StrongFirst, SomeCount, Listed, OutOfRange;
    var c := n.conflicts[k];
    StrengthIs(n, c);
    RejectedIs(n, k);
    RejectedOnEvidence(n, c);
    if UsableEvidence(n, c.evidenceIds) != [] {
      WeaknessReasons(n.policy, UsableEvidence(n, c.evidenceIds)[0]);
    }
  }

  lemma WeaknessesAre(p: Policy, e: Evidence)
    ensures forall a :: Rejection(NoAction, WeakAttribution(a)) in Weaknesses(p, e)
              <==> e.attribution == a && AttributionOrd(a) < AttributionOrd(p.minAttributionForDisruptive)
    ensures Rejection(NoAction, LowConfidence) in Weaknesses(p, e) <==> e.confidence < p.minConfidenceForDisruptive
    ensures Rejection(NoAction, HasConfounders) in Weaknesses(p, e) <==> |e.unresolvedConfounders| > 0
  {
    hide AttributionOrd;
  }

  /** The first evidence that counts is too weak in each respect that is named, and in no other. */
  lemma WeaknessesIff(n: Engine, k: ConflictId, i: nat)
    requires k in n.conflicts && FirstThatCounts(n, n.conflicts[k].evidenceIds, i)
    ensures var e, p := n.evidence[n.conflicts[k].evidenceIds[i]], n.policy;
            var rejected := Evaluate.Evaluate(n, k, n.authority).rejected;
            && (forall a :: Rejection(NoAction, WeakAttribution(a)) in rejected
                  <==> e.attribution == a && AttributionOrd(a) < AttributionOrd(p.minAttributionForDisruptive))
            && (Rejection(NoAction, LowConfidence) in rejected <==> e.confidence < p.minConfidenceForDisruptive)
            && (Rejection(NoAction, HasConfounders) in rejected <==> |e.unresolvedConfounders| > 0)
  {
    hide Evaluate.Evaluate, RejectedEvidence, UsableEvidence, AttributionOrd, Weaknesses, Listed, OutOfRange;
    var c := n.conflicts[k];
    UsableAre(n, c.evidenceIds);
    RejectedIs(n, k);
    RejectedOnEvidence(n, c);
    WeaknessesAre(n.policy, n.evidence[c.evidenceIds[i]]);
  }

  /** In the order of effects, and in percent: the relief expected, the harm to neighbours, how far it can be undone. */
  const RELIEF: seq<nat> := [85, 80, 70, 60, 55, 55, 50, 50, 45, 40, 40, 35, 35, 30, 30, 20, 0]
  const HARM: seq<nat> := [5, 50, 10, 8, 5, 25, 5, 15, 35, 10, 20, 10, 12, 2, 10, 5, 0]
  const UNDOING: seq<nat> := [30, 10, 30, 80, 50, 90, 40, 90, 10, 80, 85, 80, 90, 90, 95, 60, 50]
  /** And how soon, in milliseconds. */
  const DELAY: seq<nat> := [500, 200, 300, 100, 150, 20, 200, 50, 120, 80, 100, 60, 50, 30, 40, 30, 0]

  /** What a candidate promises: by its class alone, at a tenth of the harm, and with recovery for preemption only. */
  lemma Promises(c: InterventionClass, w: WorkloadId, feasible: bool)
    requires c !in PASSIVE
    ensures EffectRank(c) < 17
    ensures var d, i := MakeCandidate(c, w, feasible), EffectRank(c);
            && d.cls == c && d.target == w && d.feasible == feasible && d.confidence == 0.5
            && 100.0 * d.expectedConflictReduction == RELIEF[i] as real
            && d.expectedTargetImprovement == d.expectedConflictReduction
            && 100.0 * d.expectedNeighborDegradation == HARM[i] as real
            && 10.0 * d.expectedCost == d.expectedNeighborDegradation
            && 100.0 * d.reversibility == UNDOING[i] as real && d.timeToEffect == DELAY[i]
            && d.expectedRecoveryCost == if c == RequestPreemption then 1.0 else 0.0
  {
    hide EFFECT_ORDER, Ascii;
  }
}
