/** How post-action evidence judges an intervention: one condition for each verdict, on what is stored and measured. */
module Outcomes {
  import opened Words
  import opened Enums
  import opened Entities
  import opened Rules
  import opened Steps
  import opened Machine
  import opened ClosedLoop
  import opened Measures

  /** The first intervention, by id, that is open on the conflict. */
  predicate FirstOpenOn(rs: map<InterventionId, InterventionRecord>, i: InterventionId, k: ConflictId) {
    && i in rs && rs[i].conflictId == k && Open(rs[i].state)
    && forall j | j in rs && rs[j].conflictId == k && Open(rs[j].state) :: i <= j
  }

  predicate Open(l: LifecycleState) { l in {Authorized, Dispatched, Acknowledged} }

  lemma OpenIsFirst(rs: map<InterventionId, InterventionRecord>, i: InterventionId, k: ConflictId)
    ensures FirstOpen(rs, k) == Some(i) <==> FirstOpenOn(rs, i, k)
  {
    var ks := OpenOn(rs, k);
    assert forall j :: j in ks <==> j in rs && rs[j].conflictId == k && Open(rs[j].state);
    if FirstOpenOn(rs, i, k) {
      assert Least(ks) <= i;
    }
  }

  lemma NothingOpen(rs: map<InterventionId, InterventionRecord>, k: ConflictId)
    ensures FirstOpen(rs, k).None? <==> forall j | j in rs && rs[j].conflictId == k :: !Open(rs[j].state)
  {
    assert forall j :: j in OpenOn(rs, k) <==> j in rs && rs[j].conflictId == k && Open(rs[j].state);
  }

  /** What part of its service the workload may lose; all of it if it has no policy of its own. */
  function MayLose(p: Policy, w: WorkloadId): real {
    if w in p.workloads then 1.0 - p.workloads[w].hardSloFloor else 1.0
  }

  /** Another conflict makes the workload lose more than it may. */
  ghost predicate HarmElsewhere(n: Engine, k: ConflictId, w: WorkloadId) {
    exists j | j in n.conflicts ::
      j != k && w in n.conflicts[j].affected && n.conflicts[j].degradation > MayLose(n.policy, w)
  }

  lemma HarmIs(n: Engine, k: ConflictId, c: Conflict, w: WorkloadId)
    requires k in n.conflicts
    ensures HarmedElsewhere(n.policy, n.conflicts[k := c], k, w) <==> HarmElsewhere(n, k, w)
  {
    hide HarmedElsewhere;
    HarmIgnoresSelf(n.policy, n.conflicts, k, c, w);
    HarmedIff(n.policy, n.conflicts, k, w);
  }

  /** The intervention judged, its conflict, and what the evidence measures against what stood before. */
  datatype Case = Case(harmed: bool, before: real, after: real, limit: real)

  /** Each verdict has its condition; exactly one of the six holds. */
  predicate JudgedBy(c: Case, r: InterventionRecord) {
    && (r.result.Resolved? <==> !c.harmed && c.after <= c.limit)
    && (r.result.PartiallyResolved? <==> !c.harmed && c.limit < c.after < c.before)
    && (r.result.Worsened? <==> !c.harmed && c.limit < c.after && c.before < c.after)
    && (r.result.NoEffect? <==> !c.harmed && c.limit < c.after == c.before)
    && (r.result.ShiftedContention? <==> c.harmed && c.after < c.limit)
    && (r.result.CreatedSecondaryViolation? <==> c.harmed && c.limit <= c.after)
  }

  /** The record's state. */
  predicate ClosedBy(c: Case, l: LifecycleState) {
    && (l.Effective? <==> !c.harmed && c.after <= c.limit)
    && (l.PartiallyEffective? <==> !c.harmed && c.limit < c.after < c.before)
    && (l.Ineffective? <==> c.harmed || (c.limit < c.after && c.before <= c.after))
  }

  /** The conflict's state. */
  predicate SettledBy(c: Case, s: ConflictState) {
    && (s.ConflictResolved? <==> !c.harmed && c.after <= c.limit)
    && (s.ConflictPartiallyResolved? <==> !c.harmed && c.limit < c.after < c.before)
    && (s.Unresolved? <==> c.harmed || (c.limit < c.after && c.before <= c.after))
  }

  lemma OutcomeFits(c: Case, r: InterventionRecord, at: TimeMs)
    ensures var o := OutcomeOf(c.harmed, c.before, c.after, c.limit); var v := Verified(r, o, at);
            && JudgedBy(c, v) && ClosedBy(c, v.state) && SettledBy(c, ConflictStateAfter(o))
            && v.completedAt == at && v.verificationReported
            && v == r.(result := v.result, state := v.state, completedAt := at, verificationReported := true)
            && (o.Resolved? <==> !c.harmed && c.after <= c.limit)
  {
  }

  lemma SubmitSplits(g: State, input: Evidence, k: ConflictId)
    requires Acceptable(input) && FindConflict(g.engine.conflicts, input.domain, input.victim) == Some(k)
    requires g.engine.conflicts[k].id == k
    ensures var h, e, n := Next(g, EvidenceSubmitted(input)), Identified(g, input), g.engine;
            var c := Remeasured(n.conflicts[k], e);
            && h.engine.evidence == n.evidence[e.id := e] && h.engine.policy == n.policy
            && match FirstOpen(n.interventions, k)
               case None => h.engine.conflicts == n.conflicts[k := c] && h.engine.interventions == n.interventions
                            && h.engine.fairness == n.fairness
               case Some(i) =>
                 var w := n.interventions[i].target;
                 var o := OutcomeOf(HarmedElsewhere(n.policy, n.conflicts[k := c], k, w),
                                    n.conflicts[k].degradation, e.degradation, n.policy.actionabilityThreshold);
                 && h.engine.conflicts == n.conflicts[k := c.(state := ConflictStateAfter(o))]
                 && h.engine.interventions == n.interventions[i := Verified(n.interventions[i], o, input.sampledAt)]
                 && h.engine.fairness == if o.Resolved? then Absolved(n.fairness, w) else n.fairness
  {
    hide FindConflict, FirstOpen, Degradation, Improvement, HarmedElsewhere, OutcomeOf, Verified, Absolved,
         ConflictStateAfter;
  }

  /**
   Valid post-action evidence about a conflict with an open intervention judges the first open one. Partly
   resolved exactly when the measure fell but is still above the threshold; worsened when it rose above
   both; without effect when it stayed, above the threshold; with another conflict made worse than the
   slowed workload's floor allows, shifted or a secondary violation as the measure is below the threshold
   or not; and each with the state of the record and of the conflict. Nothing else changes.
   */
  lemma VerdictIff(y: Sys, step: Step, k: ConflictId, i: InterventionId)
    requires Integrity(y.g.engine) && step.EvidenceSubmitted? && Acceptable(step.e)
    requires FirstAbout(y.g.engine.conflicts, k, step.e.domain, step.e.victim)
    requires FirstOpenOn(y.g.engine.interventions, i, k)
    ensures var n, m := y.g.engine, Apply(y, step).g.engine;
            var id, w := if step.e.id == 0 then y.g.nextEvidenceId else step.e.id, n.interventions[i].target;
            && id in m.evidence && k in m.conflicts && i in m.interventions
            && var b, c, r := n.conflicts[k], m.conflicts[k], m.interventions[i];
               var it := Case(HarmElsewhere(n, k, w), b.degradation, m.evidence[id].degradation,
                              n.policy.actionabilityThreshold);
            && JudgedBy(it, r) && ClosedBy(it, r.state) && SettledBy(it, c.state)
            && r == n.interventions[i].(result := r.result, state := r.state, completedAt := step.e.sampledAt,
                                        verificationReported := true)
            && c == b.(degradation := m.evidence[id].degradation, state := c.state,
                       evidenceIds := b.evidenceIds + [id], lastUpdatedAt := step.e.sampledAt)
            && m.interventions == n.interventions[i := r] && m.conflicts == n.conflicts[k := c]
            && m.fairness == if r.state.Effective? && w in n.fairness
                             then n.fairness[w := n.fairness[w].(consecutiveInterventions := 0)] else n.fairness
  {
    hide Next, Note, FindConflict, FirstOpen, Degradation, Improvement, HarmedElsewhere, OutcomeOf, Verified, Integrity;
    hide ConflictStateAfter, JudgedBy, ClosedBy, SettledBy, FirstAbout, FirstOpenOn, HarmElsewhere;
    var n, e := y.g.engine, Identified(y.g, step.e);
    FindIsFirst(n.conflicts, k, step.e.domain, step.e.victim);
    OpenIsFirst(n.interventions, i, k);
    IdIsKey(n, k);
    SubmitSplits(y.g, step.e, k);
    HarmIs(n, k, Remeasured(n.conflicts[k], e), n.interventions[i].target);
    var it := Case(HarmElsewhere(n, k, n.interventions[i].target), n.conflicts[k].degradation, e.degradation,
                   n.policy.actionabilityThreshold);
    OutcomeFits(it, n.interventions[i], step.e.sampledAt);
    EffectiveIs(it, Verified(n.interventions[i], OutcomeOf(it.harmed, it.before, it.after, it.limit),
                             step.e.sampledAt).state);
  }

  lemma EffectiveIs(c: Case, l: LifecycleState)
    requires ClosedBy(c, l)
    ensures l.Effective? <==> !c.harmed && c.after <= c.limit
  {
  }

  /** With no open intervention the conflict is measured again and keeps its state; nothing is judged. */
  lemma NothingJudged(y: Sys, step: Step, k: ConflictId)
    requires Integrity(y.g.engine) && step.EvidenceSubmitted? && Acceptable(step.e)
    requires FirstAbout(y.g.engine.conflicts, k, step.e.domain, step.e.victim)
    requires forall j | j in y.g.engine.interventions && y.g.engine.interventions[j].conflictId == k ::
               !Open(y.g.engine.interventions[j].state)
    ensures var n, m := y.g.engine, Apply(y, step).g.engine;
            var id := if step.e.id == 0 then y.g.nextEvidenceId else step.e.id;
            && id in m.evidence && k in m.conflicts
            && m.conflicts == n.conflicts[k := n.conflicts[k].(degradation := m.evidence[id].degradation,
                 evidenceIds := n.conflicts[k].evidenceIds + [id], lastUpdatedAt := step.e.sampledAt)]
            && m.interventions == n.interventions && m.fairness == n.fairness
  {
    hide Next, Note, FindConflict, FirstOpen, Degradation, Improvement, HarmedElsewhere, Integrity, FirstAbout;
    FindIsFirst(y.g.engine.conflicts, k, step.e.domain, step.e.victim);
    NothingOpen(y.g.engine.interventions, k);
    IdIsKey(y.g.engine, k);
    SubmitSplits(y.g, step.e, k);
  }

  /** Evidence about no conflict on record is kept, and that is all. */
  lemma NothingConcerned(y: Sys, step: Step)
    requires step.EvidenceSubmitted?
    requires forall k | k in y.g.engine.conflicts ::
               y.g.engine.conflicts[k].domain != step.e.domain || step.e.victim !in y.g.engine.conflicts[k].affected
    ensures var n, m := y.g.engine, Apply(y, step).g.engine;
            m.conflicts == n.conflicts && m.interventions == n.interventions && m.fairness == n.fairness
  {
    hide FindConflict, EvidenceIsValid, Degradation, Improvement, VerdictOn;
    FindIsNone(y.g.engine.conflicts, step.e.domain, step.e.victim);
  }
}
