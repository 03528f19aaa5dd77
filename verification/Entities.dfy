/**
 The governed state. Type parameter F is the type of the program's doubles: real numbers where
 decisions are made, 64-bit patterns where the state is stored.
 */
module Entities {
  import opened Words
  import opened Enums

  type Text = seq<byte>
  type WorkloadId = u64
  type ConflictId = u64
  type EvidenceId = u64
  type InterventionId = u64
  type Generation = u64
  type TimeMs = u64

  datatype Status = Status(code: StatusCode, message: Text)

  datatype WorkloadPolicy<F> = WorkloadPolicy(
    workload: WorkloadId,
    generation: Generation,
    nonPreemptible: bool,
    protectedWorkload: bool,
    value: F,
    priority: u32,
    hardSloFloor: F,
    softSloTarget: Option<F>,
    minServiceFloor: F,
    costCeiling: F,
    restartCost: F,
    preemptionCost: F,
    recoveryCost: F,
    maxDegradationTolerated: F,
    maxInterventionFrequencyPerWindow: u32,
    preemptionAllowed: bool,
    throttlingAllowed: bool,
    deferralAllowed: bool,
    admissionRestrictionAllowed: bool,
    placementChangeAllowed: bool,
    bandwidthRequestAllowed: bool,
    collectiveSchedulingAllowed: bool,
    migrationAllowed: bool)

  datatype BudgetUse = BudgetUse(
    preemptions: u64,
    migrations: u64,
    placementChanges: u64,
    throttles: u64,
    collectiveReschedules: u64,
    all: u64)

  datatype ActionBudget = ActionBudget(
    generation: Generation,
    maxPreemptionsPerWindow: u64,
    maxMigrationsPerWindow: u64,
    maxPlacementChangesPerWindow: u64,
    maxThrottlesPerWindow: u64,
    maxCollectiveReschedulesPerWindow: u64,
    maxAnyPerWindow: u64,
    windowMs: TimeMs,
    windowStart: TimeMs,
    used: BudgetUse)

  datatype ContentionPolicy<F> = ContentionPolicy(
    id: u64,
    generation: Generation,
    actionabilityThreshold: F,
    releaseThreshold: F,
    hysteresisEvidenceCount: u64,
    minAttributionForDisruptive: AttributionStrength,
    minConfidenceForDisruptive: F,
    fairnessFloor: F,
    fairnessWeight: F,
    maxConsecutiveInterventionsPerWorkload: u32,
    costCeiling: F,
    cooldownMs: TimeMs,
    budget: ActionBudget,
    workloads: map<WorkloadId, WorkloadPolicy<F>>,
    preemptionAllowed: bool,
    migrationAllowed: bool,
    placementChangeAllowed: bool,
    bandwidthRequestAllowed: bool,
    collectiveSchedulingAllowed: bool,
    admissionRestrictionAllowed: bool,
    throttleAllowed: bool)

  datatype AuthorityContext = AuthorityContext(
    coordinatorEpoch: u64,
    governorGeneration: Generation,
    policyGeneration: Generation,
    sloGeneration: Generation,
    valueGeneration: Generation,
    fairnessGeneration: Generation,
    resourceGeneration: Generation,
    placementGeneration: Generation,
    topologyGeneration: Generation,
    workloadGenerations: map<WorkloadId, Generation>,
    workloadBoots: map<WorkloadId, u64>)

  datatype Fence = Fence(
    coordinatorEpoch: u64,
    governorGeneration: Generation,
    policyGeneration: Generation,
    sloGeneration: Generation,
    valueGeneration: Generation,
    fairnessGeneration: Generation,
    resourceGeneration: Generation,
    placementGeneration: Generation,
    topologyGeneration: Generation,
    conflictGeneration: Generation,
    evidenceGeneration: Generation,
    workerBoot: u64,
    workloadGeneration: Generation,
    interventionGeneration: Generation)

  datatype InterferenceEvidence<F> = InterferenceEvidence(
    id: EvidenceId,
    generation: Generation,
    victim: WorkloadId,
    neighbors: seq<WorkloadId>,
    domain: ResourceDomain,
    metric: MetricDirection,
    isolatedBaseline: F,
    coRunObservation: F,
    degradation: F,
    improvement: F,
    attribution: AttributionStrength,
    confidence: F,
    sampleCount: u64,
    unresolvedConfounders: seq<Text>,
    status: EvidenceStatus,
    sampledAt: TimeMs,
    maxAgeMs: TimeMs,
    evidenceLabel: EvidenceLabel,
    sourceId: Text,
    sourceHealth: Text,
    workerBoot: u64,
    workloadGeneration: Generation,
    deviceGeneration: Generation,
    hostGeneration: Generation,
    topologyGeneration: Generation,
    resourceGeneration: Generation,
    placementGeneration: Generation,
    activeFrom: TimeMs,
    activeUntil: TimeMs)

  datatype InterventionRecord = InterventionRecord(
    id: InterventionId,
    generation: Generation,
    cls: InterventionClass,
    conflictId: ConflictId,
    target: WorkloadId,
    state: LifecycleState,
    fence: Fence,
    adapter: Text,
    authorizedAt: TimeMs,
    dispatchedAt: TimeMs,
    acknowledgedAt: TimeMs,
    completedAt: TimeMs,
    dispatchId: u64,
    attemptId: u64,
    ackNote: Text,
    interimStatus: Status,
    result: VerificationOutcome,
    trace: seq<Text>,
    verificationReported: bool)

  datatype ContentionConflict<F> = ContentionConflict(
    id: ConflictId,
    generation: Generation,
    affected: seq<WorkloadId>,
    associated: seq<WorkloadId>,
    domain: ResourceDomain,
    degradation: F,
    baseline: F,
    confidence: F,
    binding: BindingObjective,
    severity: Severity,
    evidenceIds: seq<EvidenceId>,
    state: ConflictState,
    firstDetectedAt: TimeMs,
    lastUpdatedAt: TimeMs,
    activeUntil: TimeMs,
    unresolvedConfounders: seq<Text>,
    blockers: seq<Text>,
    candidateClasses: seq<InterventionClass>,
    proposedIds: seq<InterventionId>,
    selectedIds: seq<InterventionId>,
    policyGeneration: Generation,
    sloGeneration: Generation,
    valueGeneration: Generation,
    fairnessGeneration: Generation,
    resourceGeneration: Generation,
    placementGeneration: Generation,
    coordinatorEpoch: u64,
    workerBoot: u64,
    groupEffectExplicit: bool,
    lastActionAt: TimeMs,
    inActionableState: bool)

  datatype FairnessRecord<F> = FairnessRecord(
    workload: WorkloadId,
    interventionCount: u64,
    consecutiveInterventions: u32,
    deprivationDebt: F,
    lastInterventionAt: TimeMs)

  datatype EngineState<F> = EngineState(
    policy: ContentionPolicy<F>,
    conflicts: map<ConflictId, ContentionConflict<F>>,
    evidence: map<EvidenceId, InterferenceEvidence<F>>,
    interventions: map<InterventionId, InterventionRecord>,
    fairness: map<WorkloadId, FairnessRecord<F>>,
    authority: AuthorityContext)

  datatype GovernorState<F> = GovernorState(
    engine: EngineState<F>,
    nextConflictId: u64,
    nextEvidenceId: u64,
    nextInterventionId: u64,
    nextDispatchId: u64,
    nextAttemptId: u64,
    nextVerificationId: u64,
    lastDigest: u64)

  /**
   A policy the program accepts. The tests on doubles come as parameters: `outside` is
   `x < 0.0 || x > 1.0`, `atLeast` is `>=`, `finite` is `std::isfinite`.
   */
  predicate ValidPolicy<F>(p: ContentionPolicy<F>, outside: F -> bool, atLeast: (F, F) -> bool, finite: F -> bool) {
    && !outside(p.actionabilityThreshold)
    && !outside(p.releaseThreshold)
    && !atLeast(p.releaseThreshold, p.actionabilityThreshold)
    && p.hysteresisEvidenceCount != 0
    && finite(p.minConfidenceForDisruptive) && !outside(p.minConfidenceForDisruptive)
    && !outside(p.fairnessFloor)
    && p.maxConsecutiveInterventionsPerWorkload != 0
    && p.budget.maxPreemptionsPerWindow != 0 && p.budget.maxMigrationsPerWindow != 0
    && p.budget.maxThrottlesPerWindow != 0 && p.budget.maxAnyPerWindow != 0
    && forall w | w in p.workloads ::
         && finite(p.workloads[w].value)
         && !outside(p.workloads[w].hardSloFloor)
         && !outside(p.workloads[w].minServiceFloor)
         && !outside(p.workloads[w].maxDegradationTolerated)
  }

  predicate IsLeast(k: u64, s: set<u64>) {
    k in s && forall j :: j in s ==> k <= j
  }

  lemma {:induction false} LeastExists(s: set<u64>)
    requires s != {}
    ensures exists k :: IsLeast(k, s)
    decreases |s|
  {
    var x :| x in s;
    var rest := s - {x};
    if rest == {} {
      assert s == {x};
      assert IsLeast(x, s);
    } else {
      LeastExists(rest);
      var k :| IsLeast(k, rest);
      assert s == rest + {x};
      assert IsLeast(if x <= k then x else k, s);
    }
  }

  function Least(s: set<u64>): (k: u64)
    requires s != {}
    ensures IsLeast(k, s)
  {
    LeastExists(s);
    var k :| IsLeast(k, s);
    k
  }

  ghost predicate Ascending(ks: seq<u64>) {
    forall i, j :: 0 <= i < j < |ks| ==> ks[i] < ks[j]
  }

  ghost predicate Lists(ks: seq<u64>, s: set<u64>) {
    |ks| == |s| && forall k :: k in ks <==> k in s
  }

  lemma ConsSorted(k: u64, rest: set<u64>, tail: seq<u64>)
    requires Ascending(tail) && Lists(tail, rest)
    requires forall j :: j in rest ==> k < j
    ensures Ascending([k] + tail) && Lists([k] + tail, {k} + rest)
  {
    var ks := [k] + tail;
    forall i, j | 0 <= i < j < |ks|
      ensures ks[i] < ks[j]
    {
      assert ks[j] == tail[j - 1] && tail[j - 1] in tail;
    }
  }

  /** The order in which a std::map is walked: the keys, ascending. */
  function SortedKeys(s: set<u64>): (ks: seq<u64>)
    ensures Ascending(ks) && Lists(ks, s)
    decreases |s|
  {
    if s == {} then []
    else
      var k := Least(s);
      var rest := s - {k};
      assert s == {k} + rest;
      ConsSorted(k, rest, SortedKeys(rest));
      [k] + SortedKeys(rest)
  }
}
