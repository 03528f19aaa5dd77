/** What a stored state means to the decisions: its bit patterns read as numbers. */
module Meaning {
  import opened Words
  import opened Enums
  import opened Entities
  import opened Rules
  import opened Evaluate
  import opened Steps
  import opened Agreement
  import BitXor
  import Doubles
  import Image

  type Bits = u64

  /** The number, where there is one. */
  function RealOf(x: Bits): real {
    match Doubles.Decode(x)
    case Finite(r) => r
    case _ => 0.0
  }

  function WorkloadOf(w: WorkloadPolicy<Bits>): WorkloadPolicy<real> {
    WorkloadPolicy(w.workload, w.generation, w.nonPreemptible, w.protectedWorkload, RealOf(w.value), w.priority,
                   RealOf(w.hardSloFloor), if w.softSloTarget.None? then None else Some(RealOf(w.softSloTarget.value)),
                   RealOf(w.minServiceFloor), RealOf(w.costCeiling), RealOf(w.restartCost), RealOf(w.preemptionCost),
                   RealOf(w.recoveryCost), RealOf(w.maxDegradationTolerated), w.maxInterventionFrequencyPerWindow,
                   w.preemptionAllowed, w.throttlingAllowed, w.deferralAllowed, w.admissionRestrictionAllowed,
                   w.placementChangeAllowed, w.bandwidthRequestAllowed, w.collectiveSchedulingAllowed,
                   w.migrationAllowed)
  }

  function PolicyOf(p: ContentionPolicy<Bits>): Policy {
    ContentionPolicy(p.id, p.generation, RealOf(p.actionabilityThreshold), RealOf(p.releaseThreshold),
                     p.hysteresisEvidenceCount, p.minAttributionForDisruptive, RealOf(p.minConfidenceForDisruptive),
                     RealOf(p.fairnessFloor), RealOf(p.fairnessWeight), p.maxConsecutiveInterventionsPerWorkload,
                     RealOf(p.costCeiling), p.cooldownMs, p.budget, map w | w in p.workloads ::
                         WorkloadOf(p.workloads[w]),
                     p.preemptionAllowed, p.migrationAllowed, p.placementChangeAllowed, p.bandwidthRequestAllowed,
                     p.collectiveSchedulingAllowed, p.admissionRestrictionAllowed, p.throttleAllowed)
  }

  function EvidenceOf(e: InterferenceEvidence<Bits>): Evidence {
    InterferenceEvidence(e.id, e.generation, e.victim, e.neighbors, e.domain, e.metric, RealOf(e.isolatedBaseline),
                         RealOf(e.coRunObservation), RealOf(e.degradation), RealOf(e.improvement), e.attribution,
                         RealOf(e.confidence), e.sampleCount, e.unresolvedConfounders, e.status, e.sampledAt,
                         e.maxAgeMs, e.evidenceLabel, e.sourceId, e.sourceHealth, e.workerBoot, e.workloadGeneration,
                         e.deviceGeneration, e.hostGeneration, e.topologyGeneration, e.resourceGeneration,
                         e.placementGeneration, e.activeFrom, e.activeUntil)
  }

  function ConflictOf(c: ContentionConflict<Bits>): Conflict {
    ContentionConflict(c.id, c.generation, c.affected, c.associated, c.domain, RealOf(c.degradation),
                       RealOf(c.baseline), RealOf(c.confidence), c.binding, c.severity, c.evidenceIds, c.state,
                       c.firstDetectedAt, c.lastUpdatedAt, c.activeUntil, c.unresolvedConfounders, c.blockers,
                       c.candidateClasses, c.proposedIds, c.selectedIds, c.policyGeneration, c.sloGeneration,
                       c.valueGeneration, c.fairnessGeneration, c.resourceGeneration, c.placementGeneration,
                       c.coordinatorEpoch, c.workerBoot, c.groupEffectExplicit, c.lastActionAt, c.inActionableState)
  }

  function FairnessOf(f: FairnessRecord<Bits>): FairnessRecord<real> {
    FairnessRecord(f.workload, f.interventionCount, f.consecutiveInterventions, RealOf(f.deprivationDebt),
                   f.lastInterventionAt)
  }

  function StateOf(s: GovernorState<Bits>): State {
    var n := s.engine;
    GovernorState(EngineState(PolicyOf(n.policy), map k | k in n.conflicts :: ConflictOf(n.conflicts[k]),
                              map k | k in n.evidence :: EvidenceOf(n.evidence[k]), n.interventions,
                              map w | w in n.fairness :: FairnessOf(n.fairness[w]), n.authority),
                  s.nextConflictId, s.nextEvidenceId, s.nextInterventionId, s.nextDispatchId, s.nextAttemptId,
                  s.nextVerificationId, s.lastDigest)
  }

  /** The doubles a policy is tested on are numbers. */
  predicate NumericPolicy(p: ContentionPolicy<Bits>) {
    && Doubles.IsFinite(p.actionabilityThreshold) && Doubles.IsFinite(p.releaseThreshold)
    && Doubles.IsFinite(p.minConfidenceForDisruptive) && Doubles.IsFinite(p.fairnessFloor)
    && forall w | w in p.workloads :: NumericWorkload(p.workloads[w])
  }

  predicate NumericWorkload(w: WorkloadPolicy<Bits>) {
    && Doubles.IsFinite(w.value) && Doubles.IsFinite(w.hardSloFloor) && Doubles.IsFinite(w.minServiceFloor)
    && Doubles.IsFinite(w.maxDegradationTolerated)
  }

  lemma TestsAgree(x: Bits, y: Bits)
    requires Doubles.IsFinite(x) && Doubles.IsFinite(y)
    ensures Doubles.Outside(x) == (RealOf(x) < 0.0 || RealOf(x) > 1.0)
    ensures Doubles.AtLeast(x, y) == (RealOf(x) >= RealOf(y))
  {
    hide Doubles.Decode;
  }

  lemma WorkloadTestsAgree(v: WorkloadPolicy<Bits>)
    requires NumericWorkload(v)
    ensures Doubles.Outside(v.hardSloFloor) == (WorkloadOf(v).hardSloFloor < 0.0 || WorkloadOf(v).hardSloFloor > 1.0)
    ensures Doubles.Outside(v.minServiceFloor)
            == (WorkloadOf(v).minServiceFloor < 0.0 || WorkloadOf(v).minServiceFloor > 1.0)
    ensures Doubles.Outside(v.maxDegradationTolerated)
            == (WorkloadOf(v).maxDegradationTolerated < 0.0 || WorkloadOf(v).maxDegradationTolerated > 1.0)
  {
    hide Doubles.Outside, Doubles.AtLeast, Doubles.IsFinite, RealOf;
    TestsAgree(v.hardSloFloor, v.minServiceFloor);
    TestsAgree(v.minServiceFloor, v.maxDegradationTolerated);
    TestsAgree(v.maxDegradationTolerated, v.hardSloFloor);
  }

  /** On numbers, the tests made on bit patterns when loading accept the policies that set_policy accepts. */
  lemma ValidityAgrees(p: ContentionPolicy<Bits>)
    requires NumericPolicy(p)
    ensures ValidPolicy(p, Doubles.Outside, Doubles.AtLeast, Doubles.IsFinite) <==> PolicyIsValid(PolicyOf(p))
  {
    hide Doubles.Outside, Doubles.AtLeast, Doubles.IsFinite, RealOf, WorkloadOf;
    TestsAgree(p.releaseThreshold, p.actionabilityThreshold);
    TestsAgree(p.actionabilityThreshold, p.minConfidenceForDisruptive);
    TestsAgree(p.minConfidenceForDisruptive, p.fairnessFloor);
    TestsAgree(p.fairnessFloor, p.fairnessFloor);
    var q := PolicyOf(p);
    forall w | w in p.workloads
      ensures && Doubles.IsFinite(p.workloads[w].value) && !Doubles.Outside(p.workloads[w].hardSloFloor)
              && !Doubles.Outside(p.workloads[w].minServiceFloor)
                  && !Doubles.Outside(p.workloads[w].maxDegradationTolerated)
              <==> && !(q.workloads[w].hardSloFloor < 0.0 || q.workloads[w].hardSloFloor > 1.0)
                   && !(q.workloads[w].minServiceFloor < 0.0 || q.workloads[w].minServiceFloor > 1.0)
                   && !(q.workloads[w].maxDegradationTolerated < 0.0 || q.workloads[w].maxDegradationTolerated > 1.0)
    {
      WorkloadTestsAgree(p.workloads[w]);
    }
  }

  /** Some patterns and what they stand for. */
  lemma KnownDoubles()
    ensures RealOf(0x3FF0_0000_0000_0000) == 1.0 && RealOf(0xBFF0_0000_0000_0000) == -1.0
    ensures RealOf(0x4000_0000_0000_0000) == 2.0 && RealOf(0x3FE8_0000_0000_0000) == 0.75
    ensures RealOf(0) == RealOf(0x8000_0000_0000_0000) == 0.0
    ensures Doubles.Decode(0x7FF0_0000_0000_0000) == Doubles.Infinite(false)
    ensures Doubles.Decode(0xFFF0_0000_0000_0000) == Doubles.Infinite(true)
    ensures Doubles.Decode(0x7FF8_0000_0000_0000).NaN? && Doubles.Decode(0x7FF0_0000_0000_0001).NaN?
  {
    hide BitXor.Pow2;
    PowersOfTwo();
    assert 0x3FF0_0000_0000_0000 / 0x10_0000_0000_0000 == 1023 && 0xBFF0_0000_0000_0000 / 0x10_0000_0000_0000 == 3071;
    assert 0x4000_0000_0000_0000 / 0x10_0000_0000_0000 == 1024 && 0x3FE8_0000_0000_0000 / 0x10_0000_0000_0000 == 1022;
  }

  lemma PowersOfTwo()
    ensures BitXor.Pow2(51) == 0x8_0000_0000_0000 && BitXor.Pow2(52) == 0x10_0000_0000_0000
    ensures BitXor.Pow2(53) == 0x20_0000_0000_0000
  {
    BitXor.Pow2Values();
    assert BitXor.Pow2(36) == 0x10_0000_0000;
    assert BitXor.Pow2(40) == 0x100_0000_0000;
    assert BitXor.Pow2(44) == 0x1000_0000_0000;
    assert BitXor.Pow2(48) == 0x1_0000_0000_0000;
  }

  /** What the tests leave in: numbers between 0 and 1, and, but for the confidence, what is no number at all. */
  lemma AcceptedOrNaN(p: ContentionPolicy<Bits>)
    requires ValidPolicy(p, Doubles.Outside, Doubles.AtLeast, Doubles.IsFinite)
    ensures forall x | x in [p.actionabilityThreshold, p.releaseThreshold, p.fairnessFloor] ::
              Doubles.Decode(x).NaN? || (Doubles.IsFinite(x) && 0.0 <= RealOf(x) <= 1.0)
    ensures Doubles.IsFinite(p.minConfidenceForDisruptive) && 0.0 <= RealOf(p.minConfidenceForDisruptive) <= 1.0
  {
    hide Doubles.Decode;
  }

  /** So a policy whose threshold is no number is accepted wherever a proper one is, and no degradation is below it. */
  lemma NaNThresholdAccepted(p: ContentionPolicy<Bits>, nan: Bits)
    requires ValidPolicy(p, Doubles.Outside, Doubles.AtLeast, Doubles.IsFinite) && Doubles.Decode(nan).NaN?
    ensures var q := p.(actionabilityThreshold := nan);
            && ValidPolicy(q, Doubles.Outside, Doubles.AtLeast, Doubles.IsFinite)
            && forall d :: !BelowBits(d, q.actionabilityThreshold)
  {
    hide Doubles.Decode;
  }

  // ----- The gates of evaluation, by the comparisons made on the stored doubles -----

  predicate BelowBits(x: Bits, y: Bits) { Doubles.Less(Doubles.Decode(x), Doubles.Decode(y)) }

  /** The pattern of 0.0. */
  const ZERO: Bits := 0

  predicate StructurallyValidBits(e: InterferenceEvidence<Bits>) {
    && Doubles.IsFinite(e.isolatedBaseline) && Doubles.IsFinite(e.coRunObservation)
    && !Doubles.AtLeast(ZERO, e.isolatedBaseline)
    && Doubles.IsFinite(e.confidence) && !Doubles.Outside(e.confidence)
    && Doubles.IsFinite(e.degradation) && !BelowBits(e.degradation, ZERO)
    && e.sampleCount != 0
  }

  predicate UsableBits(e: InterferenceEvidence<Bits>) { e.status == Current && StructurallyValidBits(e) }

  predicate NumericEvidence(e: InterferenceEvidence<Bits>) {
    && Doubles.IsFinite(e.isolatedBaseline) && Doubles.IsFinite(e.coRunObservation)
    && Doubles.IsFinite(e.confidence) && Doubles.IsFinite(e.degradation)
  }

  lemma ZeroIsZero()
    ensures Doubles.Decode(ZERO) == Doubles.Finite(0.0)
  {
    hide BitXor.Pow2;
  }

  /** Evidence with a double that is no number is refused; any other is usable as its numbers are. */
  lemma UsableAgrees(e: InterferenceEvidence<Bits>)
    ensures UsableBits(e) <==> NumericEvidence(e) && Usable(EvidenceOf(e))
  {
    hide Doubles.Decode;
    ZeroIsZero();
  }

  function UsableEvidenceBits(s: EngineState<Bits>, ids: seq<EvidenceId>): seq<InterferenceEvidence<Bits>> {
    if ids == [] then []
    else
      var last := ids[|ids| - 1];
      UsableEvidenceBits(s, ids[..|ids| - 1])
      + if last in s.evidence && UsableBits(s.evidence[last]) then [s.evidence[last]] else []
  }

  predicate AttributableBits(p: ContentionPolicy<Bits>, e: InterferenceEvidence<Bits>) {
    && AttributionOrd(e.attribution) >= AttributionOrd(p.minAttributionForDisruptive)
    && !BelowBits(e.confidence, p.minConfidenceForDisruptive)
    && e.unresolvedConfounders == []
  }

  function RefusalBits(p: ContentionPolicy<Bits>, c: ContentionConflict<Bits>,
                       usable: seq<InterferenceEvidence<Bits>>): Option<(ConflictState, StatusCode)> {
    if usable == [] then Some((UnknownConflict, InsufficientEvidence))
    else if BelowBits(c.degradation, p.actionabilityThreshold) then Some((UnknownConflict, InsufficientEvidence))
    else if c.associated == [] then Some((Unresolved, ConfoundedEvidence))
    else if !AttributableBits(p, usable[0]) then Some((Unresolved, InsufficientEvidence))
    else None
  }

  predicate AtCapBits(s: EngineState<Bits>, w: WorkloadId) {
    w in s.fairness && s.fairness[w].consecutiveInterventions >= s.policy.maxConsecutiveInterventionsPerWorkload
  }

  /** The doubles evaluation's gates read are numbers. */
  ghost predicate NumericState(s: GovernorState<Bits>) {
    && Doubles.IsFinite(s.engine.policy.actionabilityThreshold)
    && Doubles.IsFinite(s.engine.policy.minConfidenceForDisruptive)
    && (forall k | k in s.engine.conflicts :: Doubles.IsFinite(s.engine.conflicts[k].degradation))
    && (forall e | e in s.engine.evidence :: NumericEvidence(s.engine.evidence[e]))
  }

  lemma {:induction false} UsableEvidenceAgrees(s: GovernorState<Bits>, ids: seq<EvidenceId>)
    requires NumericState(s)
    ensures var us, vs := UsableEvidenceBits(s.engine, ids), UsableEvidence(StateOf(s).engine, ids);
            && |us| == |vs| && forall i | 0 <= i < |us| :: vs[i] == EvidenceOf(us[i]) && NumericEvidence(us[i])
    decreases |ids|
  {
    hide EvidenceOf, NumericEvidence, UsableBits, Usable, ConflictOf, PolicyOf, FairnessOf;
    if ids != [] {
      var last := ids[|ids| - 1];
      UsableEvidenceAgrees(s, ids[..|ids| - 1]);
      if last in s.engine.evidence {
        UsableAgrees(s.engine.evidence[last]);
      }
    }
  }

  lemma BelowAgrees(x: Bits, y: Bits)
    requires Doubles.IsFinite(x) && Doubles.IsFinite(y)
    ensures BelowBits(x, y) <==> RealOf(x) < RealOf(y)
  {
    hide Doubles.Decode;
  }

  lemma AttributableAgrees(p: ContentionPolicy<Bits>, e: InterferenceEvidence<Bits>)
    requires Doubles.IsFinite(p.minConfidenceForDisruptive) && NumericEvidence(e)
    ensures AttributableBits(p, e) <==> Attributable(PolicyOf(p), EvidenceOf(e))
  {
    hide Doubles.IsFinite, BelowBits, RealOf, AttributionOrd, WorkloadOf;
    BelowAgrees(e.confidence, p.minConfidenceForDisruptive);
  }

  /** On numbers the gates refuse what they refuse in the model's governor, for the same reason. */
  lemma GatesAgree(s: GovernorState<Bits>, k: ConflictId)
    requires NumericState(s) && k in s.engine.conflicts
    ensures var n, c := StateOf(s).engine, s.engine.conflicts[k];
            RefusalBits(s.engine.policy, c, UsableEvidenceBits(s.engine, c.evidenceIds))
            == Refusal(n.policy, n.conflicts[k], UsableEvidence(n, n.conflicts[k].evidenceIds))
  {
    hide Doubles.IsFinite, BelowBits, AttributableBits, Attributable, EvidenceOf, NumericEvidence, RealOf, WorkloadOf;
    var c := s.engine.conflicts[k];
    UsableEvidenceAgrees(s, c.evidenceIds);
    BelowAgrees(c.degradation, s.engine.policy.actionabilityThreshold);
    var us := UsableEvidenceBits(s.engine, c.evidenceIds);
    if us != [] {
      AttributableAgrees(s.engine.policy, us[0]);
    }
  }

  lemma CapAgrees(s: GovernorState<Bits>, w: WorkloadId)
    ensures AtCapBits(s.engine, w) <==> AtCap(StateOf(s).engine, w)
    ensures StateOf(s).engine.authority == s.engine.authority
  {
    hide ConflictOf, EvidenceOf, WorkloadOf;
  }

  lemma ConflictKept(s: GovernorState<Bits>, k: ConflictId)
    ensures k in s.engine.conflicts <==> k in StateOf(s).engine.conflicts
    ensures k in s.engine.conflicts
            ==> StateOf(s).engine.conflicts[k].associated == s.engine.conflicts[k].associated
  {
    hide PolicyOf, EvidenceOf, FairnessOf;
  }

  /**
   A governor decides on a conflict exactly when the one restored from its image, comparing the doubles it
   read back, lets the conflict pass the gates and knows an associated workload below the cap.
   */
  lemma RestoredDecidesIff(s: GovernorState<Bits>, k: ConflictId)
    requires Image.OkState(s) && Image.PolicyAccepted(s) && NumericState(s)
    ensures Image.Addressable(Image.Save(s)) && Image.Load(Image.Save(s)).Loaded?
    ensures var n := Image.Load(Image.Save(s)).state.engine;
            DecisionOn(StateOf(s), k).Some?
            <==> && k in n.conflicts
                 && RefusalBits(n.policy, n.conflicts[k], UsableEvidenceBits(n, n.conflicts[k].evidenceIds)).None?
                 && exists w :: w in n.conflicts[k].associated && Known(n.authority, w) && !AtCapBits(n, w)
  {
    hide Image.OkState, Image.PolicyAccepted, Image.Load, Image.Save, Image.Addressable, NumericState, StateOf;
    hide Evaluate.Evaluate, Refusal, RefusalBits, UsableEvidence, UsableEvidenceBits, Known, AtCapBits, AtCap;
    Image.SaveLoadRoundTrip(s);
    DecisionExistsIff(StateOf(s).engine, k);
    ConflictKept(s, k);
    if k in s.engine.conflicts {
      GatesAgree(s, k);
    }
    forall w
      ensures AtCapBits(s.engine, w) <==> AtCap(StateOf(s).engine, w)
      ensures StateOf(s).engine.authority == s.engine.authority
    {
      CapAgrees(s, w);
    }
  }
}
