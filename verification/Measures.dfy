/** What arriving evidence does to the tables, in terms of what was measured: baseline and observation alone. */
module Measures {
  import opened Words
  import opened Enums
  import opened Entities
  import opened Rules
  import opened Steps
  import opened Machine

  // ----- Harm and relief, without dividing -----

  /** The observation is worse than the baseline by at least the fraction x of it. */
  predicate WorseBy(e: Evidence, x: real) {
    if e.metric.HigherIsBetter? then e.coRunObservation <= e.isolatedBaseline * (1.0 - x)
    else e.coRunObservation >= e.isolatedBaseline * (1.0 + x)
  }

  predicate BetterBy(e: Evidence, x: real) {
    if e.metric.HigherIsBetter? then e.coRunObservation >= e.isolatedBaseline * (1.0 + x)
    else e.coRunObservation <= e.isolatedBaseline * (1.0 - x)
  }

  predicate NoWorse(e: Evidence) {
    if e.metric.HigherIsBetter? then e.coRunObservation >= e.isolatedBaseline
    else e.coRunObservation <= e.isolatedBaseline
  }

  predicate NoBetter(e: Evidence) {
    if e.metric.HigherIsBetter? then e.coRunObservation <= e.isolatedBaseline
    else e.coRunObservation >= e.isolatedBaseline
  }

  /** The evidence carries, as fractions of its baseline, how much worse and how much better it observed. */
  predicate Measured(e: Evidence) {
    && e.degradation >= 0.0 && e.improvement >= 0.0
    && (e.degradation == 0.0 <==> NoWorse(e)) && (e.improvement == 0.0 <==> NoBetter(e))
    && (e.metric.HigherIsBetter? && e.coRunObservation <= e.isolatedBaseline
        ==> e.coRunObservation == e.isolatedBaseline * (1.0 - e.degradation))
    && (e.metric.LowerIsBetter? && e.coRunObservation >= e.isolatedBaseline
        ==> e.coRunObservation == e.isolatedBaseline * (1.0 + e.degradation))
    && (e.metric.HigherIsBetter? && e.coRunObservation >= e.isolatedBaseline
        ==> e.coRunObservation == e.isolatedBaseline * (1.0 + e.improvement))
    && (e.metric.LowerIsBetter? && e.coRunObservation <= e.isolatedBaseline
        ==> e.coRunObservation == e.isolatedBaseline * (1.0 - e.improvement))
  }

  lemma Divided(a: real, b: real)
    requires b > 0.0
    ensures b * (a / b) == a && (a / b == 0.0 <==> a == 0.0) && (a / b > 0.0 <==> a > 0.0)
    ensures b * (1.0 - a / b) == b - a && b * (1.0 + a / b) == b + a
  {
  }

  lemma ScaleOrder(b: real, x: real, y: real)
    requires b > 0.0
    ensures x <= y <==> b * x <= b * y
  {
    if x <= y {
      assert b * (y - x) >= 0.0;
    } else {
      assert b * (x - y) > 0.0;
    }
  }

  lemma DerivedIsMeasured(e: Evidence)
    requires e.isolatedBaseline > 0.0
    requires e.degradation == Degradation(e.metric, e.isolatedBaseline, e.coRunObservation)
    requires e.improvement == Improvement(e.metric, e.isolatedBaseline, e.coRunObservation)
    ensures Measured(e)
  {
    Divided(e.isolatedBaseline - e.coRunObservation, e.isolatedBaseline);
    Divided(e.coRunObservation - e.isolatedBaseline, e.isolatedBaseline);
  }

  /** Where d is how far o lies above b, as a fraction of b, or zero, d reaches x exactly when o lies that far above. */
  lemma AboveBy(b: real, o: real, d: real, x: real)
    requires b > 0.0 && x > 0.0 && d >= 0.0
    requires d == 0.0 <==> o <= b
    requires o >= b ==> o == b * (1.0 + d)
    ensures d >= x <==> o >= b * (1.0 + x)
  {
    ScaleOrder(b, 1.0, 1.0 + x);
    ScaleOrder(b, 1.0 + x, 1.0 + d);
    ScaleOrder(b, 1.0 + x, 1.0);
  }

  lemma BelowBy(b: real, o: real, d: real, x: real)
    requires b > 0.0 && x > 0.0 && d >= 0.0
    requires d == 0.0 <==> o >= b
    requires o <= b ==> o == b * (1.0 - d)
    ensures d >= x <==> o <= b * (1.0 - x)
  {
    ScaleOrder(b, 1.0 - x, 1.0);
    ScaleOrder(b, 1.0 - d, 1.0 - x);
    ScaleOrder(b, 1.0, 1.0 - x);
  }

  /** A measured degradation reaches a positive fraction exactly when the observation is worse by that much. */
  lemma ReachesIff(e: Evidence, x: real)
    requires Measured(e) && e.isolatedBaseline > 0.0 && x > 0.0
    ensures e.degradation >= x <==> WorseBy(e, x)
    ensures e.improvement >= x <==> BetterBy(e, x)
  {
    var b, o := e.isolatedBaseline, e.coRunObservation;
    if e.metric.HigherIsBetter? {
      BelowBy(b, o, e.degradation, x);
      AboveBy(b, o, e.improvement, x);
    } else {
      AboveBy(b, o, e.degradation, x);
      BelowBy(b, o, e.improvement, x);
    }
  }

  // ----- What is accepted and kept -----

  /** What the program asks of evidence. */
  predicate Acceptable(e: Evidence) {
    && e.victim > 0 && e.isolatedBaseline > 0.0 && e.sampleCount > 0
    && 0.0 <= e.confidence && e.confidence <= 1.0 && 0.0 <= e.degradation
  }

  /** Apart from its derived measures and its id the evidence kept is the evidence given. */
  predicate KeptAs(input: Evidence, e: Evidence) {
    && e == input.(id := e.id, degradation := e.degradation, improvement := e.improvement)
    && (input.id != 0 ==> e.id == input.id)
  }

  /**
   Evidence is put on file by a step exactly when the step brings evidence that is acceptable: under its own
   id, or the counter's if it has none, measured, and otherwise as given.
   */
  lemma EvidenceKeptIff(g: State, input: Evidence, submitted: bool)
    ensures var h := Next(g, if submitted then EvidenceSubmitted(input) else EvidenceIngested(input));
            var id := if input.id == 0 then g.nextEvidenceId else input.id;
            && (Acceptable(input) ==> id in h.engine.evidence && KeptAs(input, h.engine.evidence[id]))
            && (Acceptable(input) ==> h.engine.evidence[id].id == id && Measured(h.engine.evidence[id]))
            && (Acceptable(input) ==> h.engine.evidence == g.engine.evidence[id := h.engine.evidence[id]])
            && (Acceptable(input)
                ==> h.nextEvidenceId == if input.id == 0 then Add64(g.nextEvidenceId, 1) else g.nextEvidenceId)
            && (!Acceptable(input) ==> h == g)
  {
    hide FindConflict, VerdictOn, Degradation, Improvement, Progressed, Updated, NewConflict, Verified, Remeasured;
    if Acceptable(input) {
      DerivedIsMeasured(Identified(g, input));
    }
  }

  // ----- Conflicts -----

  /** The conflict's degradation was, or the evidence shows, as much as the policy acts on. */
  predicate Reaches(g: State, before: real, e: Evidence) {
    var threshold := g.engine.policy.actionabilityThreshold;
    threshold <= 0.0 || before >= threshold || WorseBy(e, threshold)
  }

  lemma LargerReaches(g: State, before: real, e: Evidence)
    requires Measured(e) && e.isolatedBaseline > 0.0 && before >= 0.0
    ensures Larger(before, e.degradation) >= g.engine.policy.actionabilityThreshold <==> Reaches(g, before, e)
  {
    hide Measured, WorseBy;
    assert e.degradation >= 0.0 by { MeasuredIsPositive(e); }
    if g.engine.policy.actionabilityThreshold > 0.0 {
      ReachesIff(e, g.engine.policy.actionabilityThreshold);
    }
  }

  lemma MeasuredIsPositive(e: Evidence)
    requires Measured(e)
    ensures e.degradation >= 0.0
  {
  }

  /** The state evidence of this status leaves a conflict in. */
  predicate StateFollows(status: EvidenceStatus, reached: bool, before: Conflict, after: Conflict) {
    && (status == Current ==> after.state == if reached then Actionable else Validating)
    && (status == Confounded || status == Insufficient ==> after.state == Unresolved)
    && (status == NeedsRevalidation ==> after.state == RevalidationRequired)
    && (status !in {Current, Confounded, Insufficient, NeedsRevalidation} ==> after.state == before.state)
    && (after.inActionableState <==> (status == Current && reached) || before.inActionableState)
  }

  lemma ProgressFollows(c: Conflict, e: Evidence, threshold: real)
    ensures var p := Progressed(c, e, threshold);
            && StateFollows(e.status, c.degradation >= threshold, c, p)
            && p == c.(state := p.state, inActionableState := p.inActionableState)
  {
  }

  /** How severe a new conflict is, by how much worse than its baseline the victim fares. */
  predicate SeverityFits(e: Evidence, s: Severity) {
    && (s.NoSeverity? <==> NoWorse(e))
    && (s.Minor? <==> !NoWorse(e) && !WorseBy(e, 0.1))
    && (s.Moderate? <==> WorseBy(e, 0.1) && !WorseBy(e, 0.25))
    && (s.Severe? <==> WorseBy(e, 0.25) && !WorseBy(e, 0.5))
    && (s.Critical? <==> WorseBy(e, 0.5))
  }

  lemma SeverityIs(e: Evidence)
    requires Measured(e) && e.isolatedBaseline > 0.0
    ensures SeverityFits(e, ClassifySeverity(e.degradation))
  {
    hide WorseBy;
    ReachesIff(e, 0.1);
    ReachesIff(e, 0.25);
    ReachesIff(e, 0.5);
  }

  lemma FindIsNone(cs: map<ConflictId, Conflict>, d: ResourceDomain, v: WorkloadId)
    ensures FindConflict(cs, d, v).None? <==> forall k | k in cs :: cs[k].domain != d || v !in cs[k].affected
  {
    if FindConflict(cs, d, v).None? {
      forall k | k in cs
        ensures cs[k].domain != d || v !in cs[k].affected
      {
        assert k !in Matching(cs, d, v);
      }
    }
  }

  /** The first conflict, by id, about the victim in the domain. */
  predicate FirstAbout(cs: map<ConflictId, Conflict>, k: ConflictId, d: ResourceDomain, v: WorkloadId) {
    && k in cs && cs[k].domain == d && v in cs[k].affected
    && forall j | j in cs && cs[j].domain == d && v in cs[j].affected :: k <= j
  }

  lemma FindIsFirst(cs: map<ConflictId, Conflict>, k: ConflictId, d: ResourceDomain, v: WorkloadId)
    ensures FindConflict(cs, d, v) == Some(k) <==> FirstAbout(cs, k, d, v)
  {
    var ks := Matching(cs, d, v);
    assert forall j :: j in ks <==> j in cs && cs[j].domain == d && v in cs[j].affected;
    if FirstAbout(cs, k, d, v) {
      assert Least(ks) <= k;
    }
  }

  lemma IngestSplits(g: State, input: Evidence)
    requires Acceptable(input)
    ensures var h, e := Next(g, EvidenceIngested(input)), Identified(g, input);
            var cs, threshold := g.engine.conflicts, g.engine.policy.actionabilityThreshold;
            && h.engine.evidence == g.engine.evidence[e.id := e]
            && match FindConflict(cs, input.domain, input.victim)
               case Some(k) => h.engine.conflicts == cs[k := Progressed(Updated(cs[k], e), e, threshold)]
                               && h.nextConflictId == g.nextConflictId
               case None =>
                 && h.engine.conflicts == cs[g.nextConflictId := Progressed(NewConflict(g, e), e, threshold)]
                 && h.nextConflictId == Add64(g.nextConflictId, 1)
  {
    hide FindConflict, Degradation, Improvement, Progressed, Updated, ClassifySeverity;
  }

  /**
   The first evidence about a victim in a domain opens a conflict: between that victim and the neighbours
   named, as severe as was measured, at the generations of the moment, and to be acted on if the evidence
   is current and the observation worse than the baseline by the threshold.
   */
  lemma FirstEvidenceOpens(g: State, input: Evidence)
    requires Acceptable(input)
    requires forall k | k in g.engine.conflicts ::
               g.engine.conflicts[k].domain != input.domain || input.victim !in g.engine.conflicts[k].affected
    ensures var h, k, a := Next(g, EvidenceIngested(input)), g.nextConflictId, g.engine.authority;
            var id := if input.id == 0 then g.nextEvidenceId else input.id;
            && k in h.engine.conflicts && id in h.engine.evidence
            && h.engine.conflicts == g.engine.conflicts[k := h.engine.conflicts[k]]
            && h.nextConflictId == Add64(k, 1)
            && var c := h.engine.conflicts[k];
            && c.id == k && c.generation == 1 && c.affected == [input.victim] && c.associated == input.neighbors
            && c.domain == input.domain && c.baseline == input.isolatedBaseline && c.confidence == input.confidence
            && c.degradation == h.engine.evidence[id].degradation && SeverityFits(input, c.severity)
            && (c.binding.Throughput? <==> input.metric.HigherIsBetter?)
            && (c.binding.Latency? <==> input.metric.LowerIsBetter?)
            && c.evidenceIds == [id] && c.unresolvedConfounders == input.unresolvedConfounders
            && c.firstDetectedAt == c.lastUpdatedAt == input.sampledAt && c.activeUntil == input.activeUntil
            && c.selectedIds == [] && c.proposedIds == [] && c.blockers == [] && c.candidateClasses == []
            && c.policyGeneration == g.engine.policy.generation && c.sloGeneration == a.sloGeneration
            && c.valueGeneration == a.valueGeneration && c.fairnessGeneration == a.fairnessGeneration
            && c.resourceGeneration == a.resourceGeneration && c.placementGeneration == a.placementGeneration
            && c.coordinatorEpoch == a.coordinatorEpoch && c.workerBoot == input.workerBoot
            && !c.groupEffectExplicit && c.lastActionAt == 0
            && StateFollows(input.status, Reaches(g, 0.0, input), c.(state := Detected, inActionableState := false), c)
  {
    hide Next, Degradation, Improvement, Progressed, ClassifySeverity, FindConflict, Measured, SeverityFits, Reaches;
    hide WorseBy, StateFollows;
    FindIsNone(g.engine.conflicts, input.domain, input.victim);
    IngestSplits(g, input);
    EvidenceKeptIff(g, input, false);
    var e := Identified(g, input);
    DerivedIsMeasured(e);
    SeverityIs(e);
    SameMeasures(g, input, e);
    LargerReaches(g, 0.0, e);
    assert e.degradation >= 0.0 by { MeasuredIsPositive(e); }
    ProgressFollows(NewConflict(g, e), e, g.engine.policy.actionabilityThreshold);
    FollowsFrom(input.status, Reaches(g, 0.0, input), NewConflict(g, e),
                Progressed(NewConflict(g, e), e, g.engine.policy.actionabilityThreshold));
  }

  lemma FollowsFrom(status: EvidenceStatus, reached: bool, before: Conflict, after: Conflict)
    requires StateFollows(status, reached, before, after) && before.state == Detected && !before.inActionableState
    ensures StateFollows(status, reached, after.(state := Detected, inActionableState := false), after)
  {
  }

  /** The measures read the baseline, the observation and the direction only. */
  lemma SameMeasures(g: State, a: Evidence, b: Evidence)
    requires a.metric == b.metric && a.isolatedBaseline == b.isolatedBaseline
    requires a.coRunObservation == b.coRunObservation
    ensures forall x :: WorseBy(a, x) == WorseBy(b, x)
    ensures NoWorse(a) == NoWorse(b) && NoBetter(a) == NoBetter(b)
    ensures forall before :: Reaches(g, before, a) == Reaches(g, before, b)
    ensures forall s :: SeverityFits(a, s) == SeverityFits(b, s)
  {
  }

  /**
   Further evidence updates the first conflict about the victim in the domain: it is as bad as the worst
   measured, names the neighbours named last, lists the evidence, and is to be acted on if the evidence is
   current and the threshold was reached before or is now.
   */
  lemma MoreEvidenceUpdates(g: State, input: Evidence, k: ConflictId)
    requires Acceptable(input) && FirstAbout(g.engine.conflicts, k, input.domain, input.victim)
    requires g.engine.conflicts[k].degradation >= 0.0
    ensures var h, b := Next(g, EvidenceIngested(input)), g.engine.conflicts[k];
            var id := if input.id == 0 then g.nextEvidenceId else input.id;
            && k in h.engine.conflicts && id in h.engine.evidence
            && h.engine.conflicts == g.engine.conflicts[k := h.engine.conflicts[k]]
            && h.nextConflictId == g.nextConflictId
            && var c, d := h.engine.conflicts[k], h.engine.evidence[id].degradation;
            && c.degradation in {b.degradation, d} && c.degradation >= b.degradation && c.degradation >= d
            && c.confidence in {b.confidence, input.confidence}
            && c.confidence >= b.confidence && c.confidence >= input.confidence
            && c == b.(degradation := c.degradation, confidence := c.confidence, associated := input.neighbors,
                       evidenceIds := b.evidenceIds + [id], lastUpdatedAt := input.sampledAt,
                       unresolvedConfounders := input.unresolvedConfounders, state := c.state,
                       inActionableState := c.inActionableState)
            && StateFollows(input.status, Reaches(g, b.degradation, input), b, c)
  {
    hide Next, Degradation, Improvement, Progressed, FindConflict, Measured, Reaches, WorseBy, StateFollows, FirstAbout;
    FindIsFirst(g.engine.conflicts, k, input.domain, input.victim);
    IngestSplits(g, input);
    EvidenceKeptIff(g, input, false);
    var e, b := Identified(g, input), g.engine.conflicts[k];
    DerivedIsMeasured(e);
    SameMeasures(g, input, e);
    LargerReaches(g, b.degradation, e);
    ProgressFollows(Updated(b, e), e, g.engine.policy.actionabilityThreshold);
    FollowsFromUpdated(input.status, Reaches(g, b.degradation, input), b, Updated(b, e),
                       Progressed(Updated(b, e), e, g.engine.policy.actionabilityThreshold));
  }

  lemma FollowsFromUpdated(status: EvidenceStatus, reached: bool, b: Conflict, u: Conflict, after: Conflict)
    requires StateFollows(status, reached, u, after)
    requires u.state == b.state && u.inActionableState == b.inActionableState
    ensures StateFollows(status, reached, b, after)
  {
  }

  // ----- Over runs -----

  ghost predicate AllMeasured(g: State) {
    forall k | k in g.engine.evidence :: Measured(g.engine.evidence[k])
  }

  lemma MeasuredStays(y: Sys, step: Step)
    requires AllMeasured(y.g)
    ensures AllMeasured(Apply(y, step).g)
  {
    hide Next, Note, Acceptable;
    if step.EvidenceIngested? || step.EvidenceSubmitted? {
      EvidenceKeptIff(y.g, step.e, step.EvidenceSubmitted?);
    } else if step.EpochAdvanced? {
      RestartKeepsMeasures(y.g);
    } else {
      EvidenceUntouched(y.g, step);
    }
  }

  lemma RestartKeepsMeasures(g: State)
    requires AllMeasured(g)
    ensures AllMeasured(Next(g, EpochAdvanced))
  {
    hide Measured, ReopenedAll, AbandonedAll, ForgivenAll;
    forall k | k in g.engine.evidence
      ensures Measured(Quarantined(g.engine.evidence[k]))
    {
      StatusIsAside(g.engine.evidence[k]);
    }
  }

  lemma StatusIsAside(e: Evidence)
    requires Measured(e)
    ensures Measured(Quarantined(e))
  {
  }

  lemma EvidenceUntouched(g: State, step: Step)
    requires !step.EvidenceIngested? && !step.EvidenceSubmitted? && !step.EpochAdvanced?
    ensures Next(g, step).engine.evidence == g.engine.evidence
  {
    hide Attempt, PolicyIsValid, Revalidate, Answered, Consumed, Touched;
  }

  /** In every run all evidence on file carries what its baseline and observation amount to. */
  lemma {:induction false} MeasuredAlways(y: Sys, steps: seq<Step>)
    requires AllMeasured(y.g)
    ensures AllMeasured(Run(y, steps).g)
    decreases |steps|
  {
    hide Apply, AllMeasured;
    if steps != [] {
      MeasuredAlways(y, steps[..|steps| - 1]);
      MeasuredStays(Run(y, steps[..|steps| - 1]), steps[|steps| - 1]);
    }
  }
}
