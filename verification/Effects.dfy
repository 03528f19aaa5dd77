/** The decision in closed form: classes are ranked by their effects alone, targets by value and id. */
module Effects {
  import opened Words
  import opened Enums
  import opened Entities
  import opened Rules
  import opened Ranking
  import opened Evaluate

  /** Classes by expected reduction, the greatest first, then by the harm to neighbours, the least first. */
  const EFFECT_ORDER: seq<InterventionClass> :=
    [RequestMigration, RequestPreemption, ChangePlacement, RequestBandwidthReallocation, RequestCollectiveReschedule,
     Serialize, RequestCommunicationReplan, Throttle, ShedLowValueWork, ReduceMemoryPressure, ReduceConcurrency,
     ProtectHighValueWork, ReduceBatch, DeferNewWork, TimeSlice, ReleaseOptionalResidency, RequestReplacement]

  /** The class's place in that order; 17 for the classes no candidate is built for. */
  function EffectRank(c: InterventionClass): (n: nat)
    ensures n <= 17 && (n < 17 ==> EFFECT_ORDER[n] == c)
  {
    match c
    case RequestMigration => 0
    case RequestPreemption => 1
    case ChangePlacement => 2
    case RequestBandwidthReallocation => 3
    case RequestCollectiveReschedule => 4
    case Serialize => 5
    case RequestCommunicationReplan => 6
    case Throttle => 7
    case ShedLowValueWork => 8
    case ReduceMemoryPressure => 9
    case ReduceConcurrency => 10
    case ProtectHighValueWork => 11
    case ReduceBatch => 12
    case DeferNewWork => 13
    case TimeSlice => 14
    case ReleaseOptionalResidency => 15
    case RequestReplacement => 16
    case _ => 17
  }

  lemma RankedAreEligible(c: InterventionClass)
    ensures c in ELIGIBLE <==> EffectRank(c) < 17
  {
    if EffectRank(c) < 17 {
      assert ELIGIBLE[6] == RequestMigration && ELIGIBLE[5] == RequestPreemption && ELIGIBLE[8] == ChangePlacement;
      assert ELIGIBLE[9] == RequestBandwidthReallocation && ELIGIBLE[11] == RequestCollectiveReschedule;
      assert ELIGIBLE[3] == Serialize && ELIGIBLE[10] == RequestCommunicationReplan && ELIGIBLE[0] == Throttle;
      assert ELIGIBLE[15] == ShedLowValueWork && ELIGIBLE[13] == ReduceMemoryPressure;
      assert ELIGIBLE[1] == ReduceConcurrency && ELIGIBLE[16] == ProtectHighValueWork && ELIGIBLE[2] == ReduceBatch;
      assert ELIGIBLE[14] == DeferNewWork && ELIGIBLE[4] == TimeSlice && ELIGIBLE[12] == ReleaseOptionalResidency;
      assert ELIGIBLE[7] == RequestReplacement;
    }
  }

  lemma WorthFalls(a: InterventionClass, b: InterventionClass)
    requires EffectRank(a) < EffectRank(b) < 17
    ensures var x, y := DefaultEffect(a), DefaultEffect(b);
            x.reduction > y.reduction || (x.reduction == y.reduction && x.neighbor < y.neighbor)
  {
  }

  /** The workload is one the class can be used on now. */
  predicate Serves(s: Engine, c: InterventionClass, w: WorkloadId) {
    && Known(s.authority, w) && !AtCap(s, w)
    && ClassEligible(s.policy, c) && Permitted(s.policy, WorkloadPolicyFor(s.policy, w), c)
  }

  /** w is of less value than v, or of the same and first by id, or is v. */
  predicate NoLater(p: Policy, w: WorkloadId, v: WorkloadId) {
    var x, y := WorkloadPolicyFor(p, w).value, WorkloadPolicyFor(p, v).value;
    x < y || (x == y && w <= v)
  }

  /** The first class in effect order that serves any target, and the first target, by value and id, that it serves. */
  ghost predicate BestPair(s: Engine, targets: seq<WorkloadId>, c: InterventionClass, w: WorkloadId) {
    && EffectRank(c) < 17 && w in targets && Serves(s, c, w)
    && forall b, v | EffectRank(b) < 17 && v in targets && Serves(s, b, v) ::
         EffectRank(c) < EffectRank(b) || (c == b && NoLater(s.policy, w, v))
  }

  lemma BestPairIsUnique(s: Engine, targets: seq<WorkloadId>, c: InterventionClass, w: WorkloadId,
                         b: InterventionClass, v: WorkloadId)
    requires BestPair(s, targets, c, w) && BestPair(s, targets, b, v)
    ensures c == b && w == v
  {
    hide Serves, EffectRank, WorkloadPolicyFor;
  }

  lemma CandidateServes(s: Engine, o: Origin, c: InterventionClass, w: WorkloadId)
    requires o.ctx == s.authority
    ensures ClassEligible(s.policy, c) && Built(s, o, w, c).feasible <==> Serves(s, c, w)
  {
    hide DefaultEffect, AtCap, Revalidate, WorkloadPolicyFor, MakeFence, Permitted, ClassEligible;
    RevalidateIff(s.authority, MakeFence(o.ctx, o.conflict, o.evidence, w, 1), w);
    FenceGenerations(o.ctx, o.conflict, o.evidence, w);
  }

  /** Candidates compare by the rank of the class first, and then by value and id of the target. */
  lemma RankDecides(p: Policy, a: InterventionClass, w: WorkloadId, b: InterventionClass, v: WorkloadId)
    requires EffectRank(a) < 17 && EffectRank(b) < 17
    ensures Better(p, MakeCandidate(b, v, true), MakeCandidate(a, w, true))
            <==> !(EffectRank(a) < EffectRank(b) || (a == b && NoLater(p, w, v)))
  {
    hide ClassIndex, ClassOrd, WorkloadPolicyFor, DefaultEffect, EffectRank;
    var x, y := MakeCandidate(a, w, true), MakeCandidate(b, v, true);
    if EffectRank(a) < EffectRank(b) {
      WorthFalls(a, b);
    } else if EffectRank(b) < EffectRank(a) {
      WorthFalls(b, a);
    } else {
      assert EFFECT_ORDER[EffectRank(a)] == a && EFFECT_ORDER[EffectRank(b)] == b;
    }
  }

  lemma ServingCandidate(s: Engine, o: Origin, targets: seq<WorkloadId>, c: InterventionClass, w: WorkloadId)
    requires o.ctx == s.authority
    ensures (exists e :: IsCandidate(s, o, targets, ELIGIBLE, e) && e.feasible && e.cls == c && e.target == w)
            <==> EffectRank(c) < 17 && w in targets && Serves(s, c, w)
    ensures forall e | IsCandidate(s, o, targets, ELIGIBLE, e) && e.feasible && e.cls == c && e.target == w ::
              e == MakeCandidate(c, w, true)
  {
    hide ELIGIBLE, Serves, EffectRank, Feasible, MakeFence, DefaultEffect, ClassEligible;
    CandidateServes(s, o, c, w);
    RankedAreEligible(c);
    if EffectRank(c) < 17 && w in targets && Serves(s, c, w) {
      assert IsCandidate(s, o, targets, ELIGIBLE, Built(s, o, w, c));
    }
  }

  /** An unbeaten feasible candidate is the best pair. */
  lemma UnbeatenIsBest(s: Engine, o: Origin, targets: seq<WorkloadId>, d: Candidate)
    requires o.ctx == s.authority
    ensures (IsCandidate(s, o, targets, ELIGIBLE, d) && d.feasible
             && forall e :: IsCandidate(s, o, targets, ELIGIBLE, e) && e.feasible ==> !Better(s.policy, e, d))
            <==> BestPair(s, targets, d.cls, d.target) && d == MakeCandidate(d.cls, d.target, true)
  {
    hide IsCandidate, Better, Serves, EffectRank, MakeCandidate, NoLater, ELIGIBLE;
    ServingCandidate(s, o, targets, d.cls, d.target);
    forall e: Candidate
      ensures IsCandidate(s, o, targets, ELIGIBLE, e) && e.feasible
              ==> EffectRank(e.cls) < 17 && e.target in targets && Serves(s, e.cls, e.target)
                  && e == MakeCandidate(e.cls, e.target, true)
    {
      ServingCandidate(s, o, targets, e.cls, e.target);
    }
    forall b, v | EffectRank(b) < 17 && v in targets && Serves(s, b, v)
      ensures IsCandidate(s, o, targets, ELIGIBLE, MakeCandidate(b, v, true)) && MakeCandidate(b, v, true).feasible
      ensures EffectRank(d.cls) < 17
              ==> (Better(s.policy, MakeCandidate(b, v, true), MakeCandidate(d.cls, d.target, true))
                   <==> !(EffectRank(d.cls) < EffectRank(b) || (d.cls == b && NoLater(s.policy, d.target, v))))
    {
      ServingCandidate(s, o, targets, b, v);
      if EffectRank(d.cls) < 17 {
        RankDecides(s.policy, d.cls, d.target, b, v);
      }
    }
  }

  /**
   The decision in closed form: made exactly when the conflict passes the gates, on the first class in
   effect order that serves any associated workload and the workload of least value, then id, it serves.
   */
  lemma DecisionIsBestPair(s: Engine, id: ConflictId, d: Candidate)
    ensures Evaluate.Evaluate(s, id, s.authority).decision == Some(d)
            <==> && id in s.conflicts
                 && Refusal(s.policy, s.conflicts[id], UsableEvidence(s, s.conflicts[id].evidenceIds)).None?
                 && BestPair(s, s.conflicts[id].associated, d.cls, d.target)
                 && d == MakeCandidate(d.cls, d.target, true)
  {
    hide Evaluate.Evaluate, IsCandidate, Better, BestPair, MakeCandidate, UsableEvidence, Attributable, ELIGIBLE;
    DecisionIff(s, id, s.authority, d);
    if id in s.conflicts {
      var c := s.conflicts[id];
      if Refusal(s.policy, c, UsableEvidence(s, c.evidenceIds)).None? {
        UnbeatenIsBest(s, PrimaryOrigin(s, c, s.authority), c.associated, d);
      }
    }
  }

  /** So migration is decided on whenever some associated workload may be migrated. */
  lemma MigrationFirst(s: Engine, id: ConflictId, d: Candidate, w: WorkloadId)
    requires Evaluate.Evaluate(s, id, s.authority).decision == Some(d)
    requires w in s.conflicts[id].associated && Serves(s, RequestMigration, w)
    ensures d.cls == RequestMigration
  {
    hide Evaluate.Evaluate, Serves, MakeCandidate, NoLater, UsableEvidence, Refusal;
    DecisionIsBestPair(s, id, d);
  }
}
