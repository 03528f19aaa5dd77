/** What the steps of an intervention's life, and the settings, change: all of it, from the state before. */
module Lifecycles {
  import opened Words
  import opened Enums
  import opened Entities
  import opened Rules
  import opened Ranking
  import opened Steps
  import opened Machine

  // ----- Dispatch -----

  /** What the authority would have said had the fence been made now; the first difference decides the code. */
  predicate OutOfDate(a: AuthorityContext, f: Fence, w: WorkloadId) {
    || f.coordinatorEpoch != a.coordinatorEpoch || f.governorGeneration != a.governorGeneration
    || f.policyGeneration != a.policyGeneration || f.sloGeneration != a.sloGeneration
    || f.valueGeneration != a.valueGeneration || f.fairnessGeneration != a.fairnessGeneration
    || f.resourceGeneration != a.resourceGeneration || f.placementGeneration != a.placementGeneration
    || f.topologyGeneration != a.topologyGeneration
    || w !in a.workloadGenerations || a.workloadGenerations[w] != f.workloadGeneration
    || w !in a.workloadBoots || a.workloadBoots[w] != f.workerBoot
  }

  /** A fence out of date is refused for the policy if that is its first difference, and else for the authority. */
  lemma RefusalOfFence(a: AuthorityContext, f: Fence, w: WorkloadId)
    ensures Revalidate(a, f, w) in {Ok, PolicySuperseded, StaleAuthority}
    ensures Revalidate(a, f, w) == Ok <==> !OutOfDate(a, f, w)
    ensures Revalidate(a, f, w) == PolicySuperseded
            <==> && f.coordinatorEpoch == a.coordinatorEpoch && f.governorGeneration == a.governorGeneration
                 && f.policyGeneration != a.policyGeneration
  {
  }

  /** Only that record, and counters if so said, differ. */
  predicate OnlyRecord(g: State, h: State, i: InterventionId) {
    && i in h.engine.interventions
    && h.engine == g.engine.(interventions := g.engine.interventions[i := h.engine.interventions[i]])
  }

  /**
   The first section of a dispatch: an authorized record goes to dispatched, under the next dispatch id and
   at the time given, if its fence is up to date, and is superseded if it is not; any other is left alone.
   */
  lemma BeginningMoves(g: State, i: InterventionId, now: TimeMs, adapters: Adapters)
    requires i in g.engine.interventions
    ensures var h, r := Next(g, DispatchBegun(i, now, adapters)), g.engine.interventions[i];
            && OnlyRecord(g, h, i)
            && var late, s := OutOfDate(g.engine.authority, r.fence, r.target), h.engine.interventions[i];
            && (r.state != Authorized ==> s == r)
            && (r.state == Authorized && late ==> s == r.(state := SupersededAction))
            && (r.state == Authorized && !late
                ==> s == r.(state := Dispatched, dispatchId := g.nextDispatchId, dispatchedAt := now))
            && h.nextDispatchId
               == (if r.state == Authorized && !late then Add64(g.nextDispatchId, 1) else g.nextDispatchId)
            && h == g.(engine := h.engine, nextDispatchId := h.nextDispatchId)
  {
    hide Revalidate, OutOfDate;
    RefusalOfFence(g.engine.authority, g.engine.interventions[i].fence, g.engine.interventions[i].target);
    assert g.engine.interventions[i := g.engine.interventions[i]] == g.engine.interventions;
  }

  /**
   The second section: acceptance acknowledges with the adapter's note; an unknown answer leaves an unknown
   outcome; a rejection, or no adapter, fails the record with the note, or with words of its own if it is empty.
   */
  lemma AnswerMoves(g: State, i: InterventionId, answer: AdapterOutcome, note: Text)
    requires i in g.engine.interventions
    ensures var h, r := Next(g, DispatchEnded(i, answer, note)), g.engine.interventions[i];
            && OnlyRecord(g, h, i) && h == g.(engine := h.engine)
            && var s := h.engine.interventions[i];
            && (answer == Accepted ==> s == r.(state := Acknowledged, ackNote := note))
            && (answer == UnknownAnswer ==> s == r.(state := OutcomeUnknown))
            && (answer in {Rejected, Unavailable} && |note| > 0
                ==> s == r.(state := FailedAction, interimStatus := Status(InterventionFailed, note)))
            && (answer in {Rejected, Unavailable} && |note| == 0
                ==> s == r.(state := FailedAction,
                            interimStatus := Status(InterventionFailed, Ascii("adapter rejected"))))
    ensures Next(g, DispatchUnserved(i, note)) == Next(g, DispatchEnded(i, Unavailable, note))
  {
    hide Ascii;
  }

  /** Why there was no adapter is what the failed record says. */
  lemma LackIsNamed(c: InterventionClass)
    ensures Unserved(NoRegistry, c) == Some(Ascii("no adapter registry"))
    ensures c !in {Throttle, ReduceConcurrency, ReduceBatch, Serialize, TimeSlice, ReduceMemoryPressure}
            ==> Unserved(NoThrottle, c) == Unserved(WithThrottle, c) == Some(Ascii("no registered adapter for class"))
    ensures c in {Throttle, ReduceConcurrency, ReduceBatch, Serialize, TimeSlice, ReduceMemoryPressure}
            ==> Unserved(NoThrottle, c) == Some(Ascii("no throttle adapter")) && Unserved(WithThrottle, c).None?
  {
    hide Ascii;
  }

  /** An acknowledgement counts for a dispatched record only; a failure for any; unknown records are ignored. */
  lemma ReportsMove(g: State, i: InterventionId, now: TimeMs, note: Text)
    ensures i !in g.engine.interventions ==> Next(g, Acked(i, now)) == g && Next(g, Failed(i, note)) == g
    ensures i in g.engine.interventions ==>
              var a, f, r := Next(g, Acked(i, now)), Next(g, Failed(i, note)), g.engine.interventions[i];
              && OnlyRecord(g, a, i) && a == g.(engine := a.engine)
              && OnlyRecord(g, f, i) && f == g.(engine := f.engine)
              && a.engine.interventions[i]
                 == (if r.state == Dispatched then r.(state := Acknowledged, acknowledgedAt := now) else r)
              && f.engine.interventions[i]
                 == r.(state := FailedAction, interimStatus := Status(InterventionFailed, note))
  {
    if i in g.engine.interventions {
      assert g.engine.interventions[i := g.engine.interventions[i]] == g.engine.interventions;
    }
  }

  // ----- Settings -----

  /** What a policy must be like. */
  predicate Sane(p: Policy) {
    && 0.0 <= p.releaseThreshold < p.actionabilityThreshold <= 1.0
    && 0.0 <= p.minConfidenceForDisruptive <= 1.0 && 0.0 <= p.fairnessFloor <= 1.0
    && p.hysteresisEvidenceCount > 0 && p.maxConsecutiveInterventionsPerWorkload > 0
    && p.budget.maxPreemptionsPerWindow > 0 && p.budget.maxMigrationsPerWindow > 0
    && p.budget.maxThrottlesPerWindow > 0 && p.budget.maxAnyPerWindow > 0
    && forall w | w in p.workloads ::
         && 0.0 <= p.workloads[w].hardSloFloor <= 1.0 && 0.0 <= p.workloads[w].minServiceFloor <= 1.0
         && 0.0 <= p.workloads[w].maxDegradationTolerated <= 1.0
  }

  /** A policy is installed, and its generation with it, exactly if it is sane; otherwise nothing changes. */
  lemma PolicyInstalledIff(g: State, p: Policy)
    ensures Next(g, PolicySet(p))
            == if Sane(p) then g.(engine := g.engine.(
                 policy := p, authority := g.engine.authority.(policyGeneration := p.generation)))
               else g
  {
    assert PolicyIsValid(p) <==> Sane(p);
  }

  /** The other settings replace what they name. */
  lemma AuthoritySettings(g: State, a: AuthorityContext, w: WorkloadId, boot: u64, gen: Generation)
    ensures var o := g.engine.authority;
            && Next(g, AuthoritySet(a)) == g.(engine := g.engine.(authority := a))
            && Next(g, BootRecorded(w, boot))
               == g.(engine := g.engine.(authority := o.(workloadBoots := o.workloadBoots[w := boot])))
            && Next(g, GenerationRecorded(w, gen))
               == g.(engine := g.engine.(authority := o.(workloadGenerations := o.workloadGenerations[w := gen])))
  {
  }

  // ----- Orders -----

  /** Attribution grows from unknown to direct evidence. */
  lemma AttributionGrows()
    ensures AttributionOrd(UnknownAttribution) < AttributionOrd(TemporallyAssociated) < AttributionOrd(Correlated)
            < AttributionOrd(ControlledComparison) < AttributionOrd(StrongCounterfactual)
            < AttributionOrd(DirectResourceEvidence)
  {
  }
}
