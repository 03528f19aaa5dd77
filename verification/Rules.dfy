/** The rules a decision rests on: policy, evidence, authority fences and feasibility. Doubles are reals. */
module Rules {
  import opened Words
  import opened Enums
  import opened Entities

  type Policy = ContentionPolicy<real>
  type Evidence = InterferenceEvidence<real>
  type Conflict = ContentionConflict<real>
  type Engine = EngineState<real>

  predicate PolicyIsValid(p: Policy) {
    ValidPolicy(p, (x: real) => x < 0.0 || x > 1.0, (a: real, b: real) => a >= b, (x: real) => true)
  }

  function WorkloadPolicyFor(p: Policy, w: WorkloadId): WorkloadPolicy<real> {
    if w in p.workloads then p.workloads[w]
    else WorkloadPolicy(w, p.generation, false, false, 0.0, 0, 0.0, None, 0.0, 0.0, 0.0, 0.0, 0.0, 1.0, 0,
                        true, true, true, true, true, true, true, true)
  }

  predicate IsThrottling(c: InterventionClass) {
    c.Throttle? || c.ReduceConcurrency? || c.ReduceBatch? || c.Serialize? || c.TimeSlice? || c.ReduceMemoryPressure?
  }

  /** The classes a cooldown applies to. */
  predicate IsDisruptive(c: InterventionClass) {
    || IsThrottling(c)
    || c.RequestPreemption? || c.RequestMigration? || c.RequestReplacement? || c.ChangePlacement?
    || c.RequestBandwidthReallocation? || c.RequestCommunicationReplan? || c.RequestCollectiveReschedule?
    || c.ReleaseOptionalResidency? || c.ShedLowValueWork? || c.DeferNewWork?
  }

  predicate ClassEligible(p: Policy, c: InterventionClass) {
    match c
    case NoAction => true
    case ObserveMore => true
    case Escalate => true
    case ManualInterventionRequired => true
    case Throttle => p.throttleAllowed
    case ReduceConcurrency => p.throttleAllowed
    case ReduceBatch => p.throttleAllowed
    case Serialize => p.throttleAllowed
    case TimeSlice => p.throttleAllowed
    case ReduceMemoryPressure => p.throttleAllowed
    case DeferNewWork => p.admissionRestrictionAllowed
    case RequestPreemption => p.preemptionAllowed
    case RequestMigration => p.migrationAllowed
    case RequestReplacement => p.migrationAllowed
    case ChangePlacement => p.placementChangeAllowed
    case RequestBandwidthReallocation => p.bandwidthRequestAllowed || p.collectiveSchedulingAllowed
    case RequestCommunicationReplan => p.bandwidthRequestAllowed || p.collectiveSchedulingAllowed
    case RequestCollectiveReschedule => p.bandwidthRequestAllowed || p.collectiveSchedulingAllowed
    case ReleaseOptionalResidency => true
    case ShedLowValueWork => true
    case ProtectHighValueWork => true
  }

  // ----- Evidence -----

  function Degradation(d: MetricDirection, baseline: real, observation: real): (r: real)
    ensures r >= 0.0
  {
    if baseline <= 0.0 then 0.0
    else if d.HigherIsBetter? then
      if observation >= baseline then 0.0 else (baseline - observation) / baseline
    else if observation <= baseline then 0.0 else (observation - baseline) / baseline
  }

  function Improvement(d: MetricDirection, baseline: real, observation: real): (r: real)
    ensures r >= 0.0
  {
    if baseline <= 0.0 then 0.0
    else if d.HigherIsBetter? then
      if observation <= baseline then 0.0 else (observation - baseline) / baseline
    else if observation >= baseline then 0.0 else (baseline - observation) / baseline
  }

  predicate StructurallyValid(e: Evidence) {
    e.isolatedBaseline > 0.0 && 0.0 <= e.confidence <= 1.0 && e.degradation >= 0.0 && e.sampleCount != 0
  }

  predicate EvidenceIsValid(e: Evidence) { e.victim != 0 && StructurallyValid(e) }

  function ClassifySeverity(d: real): Severity {
    if d <= 0.0 then NoSeverity
    else if d < 0.10 then Minor
    else if d < 0.25 then Moderate
    else if d < 0.50 then Severe
    else Critical
  }

  // ----- Authority -----

  function MakeFence(a: AuthorityContext, conflictGeneration: Generation, evidenceGeneration: Generation,
                     target: WorkloadId, interventionGeneration: Generation): Fence {
    Fence(a.coordinatorEpoch, a.governorGeneration, a.policyGeneration, a.sloGeneration, a.valueGeneration,
          a.fairnessGeneration, a.resourceGeneration, a.placementGeneration, a.topologyGeneration,
          conflictGeneration, evidenceGeneration,
          if target in a.workloadBoots then a.workloadBoots[target] else 0,
          if target in a.workloadGenerations then a.workloadGenerations[target] else 0,
          interventionGeneration)
  }

  /** Ok, or the code of the first generation found out of date. */
  function Revalidate(a: AuthorityContext, f: Fence, target: WorkloadId): StatusCode {
    if f.coordinatorEpoch != a.coordinatorEpoch then StaleAuthority
    else if f.governorGeneration != a.governorGeneration then StaleAuthority
    else if f.policyGeneration != a.policyGeneration then PolicySuperseded
    else if f.sloGeneration != a.sloGeneration then StaleAuthority
    else if f.valueGeneration != a.valueGeneration then StaleAuthority
    else if f.fairnessGeneration != a.fairnessGeneration then StaleAuthority
    else if f.resourceGeneration != a.resourceGeneration then StaleAuthority
    else if f.placementGeneration != a.placementGeneration then StaleAuthority
    else if f.topologyGeneration != a.topologyGeneration then StaleAuthority
    else if target !in a.workloadGenerations || a.workloadGenerations[target] != f.workloadGeneration
        then StaleAuthority
    else if target !in a.workloadBoots || a.workloadBoots[target] != f.workerBoot then StaleAuthority
    else Ok
  }

  /** The authority has a generation and a boot on record for the workload. */
  predicate Known(a: AuthorityContext, w: WorkloadId) { w in a.workloadGenerations && w in a.workloadBoots }

  /**
   A fence passes exactly when it carries the nine global generations, the workload generation and
   the boot that a fence made now would carry, and the workload is known.
   */
  lemma RevalidateIff(a: AuthorityContext, f: Fence, target: WorkloadId)
    ensures Revalidate(a, f, target) == Ok
            <==> && Known(a, target)
                 && f == MakeFence(a, f.conflictGeneration, f.evidenceGeneration, target, f.interventionGeneration)
  {
  }

  // ----- Feasibility -----

  predicate Permitted(p: Policy, wp: WorkloadPolicy<real>, c: InterventionClass) {
    if IsThrottling(c) then wp.throttlingAllowed && p.throttleAllowed && wp.hardSloFloor < 1.0 - 0.000000001
    else match c
      case RequestPreemption => !wp.nonPreemptible && wp.preemptionAllowed && p.preemptionAllowed
      case RequestReplacement => !wp.nonPreemptible && wp.preemptionAllowed && p.preemptionAllowed
      case RequestMigration => !wp.nonPreemptible && wp.migrationAllowed && p.migrationAllowed
      case DeferNewWork => wp.deferralAllowed && p.admissionRestrictionAllowed
      case ChangePlacement => wp.placementChangeAllowed && p.placementChangeAllowed
      case RequestBandwidthReallocation => wp.bandwidthRequestAllowed && p.bandwidthRequestAllowed
      case RequestCommunicationReplan => p.bandwidthRequestAllowed
      case RequestCollectiveReschedule => wp.collectiveSchedulingAllowed && p.collectiveSchedulingAllowed
      case _ => true
  }

  /** The fairness cap: a workload intervened on this often in a row is not targeted again. */
  predicate AtCap(s: Engine, w: WorkloadId) {
    w in s.fairness && s.fairness[w].consecutiveInterventions >= s.policy.maxConsecutiveInterventionsPerWorkload
  }

  predicate Feasible(s: Engine, target: WorkloadId, c: InterventionClass, f: Fence) {
    && Revalidate(s.authority, f, target) == Ok
    && Permitted(s.policy, WorkloadPolicyFor(s.policy, target), c)
    && !AtCap(s, target)
  }
}
