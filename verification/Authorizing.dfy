/** Authorization in full: exactly when it grants, by switches, limits and times, and all that a grant changes. */
module Authorizing {
  import opened Words
  import opened Enums
  import opened Entities
  import opened Rules
  import opened Ranking
  import opened Evaluate
  import opened Steps
  import opened IntegrityKept
  import opened Machine
  import opened Agreement
  import opened Fairness
  import opened Budgets
  import opened Permissions

  // ----- When -----

  /** The limit the class counts against is used up. */
  predicate UsedUp(b: ActionBudget, c: InterventionClass) {
    || (c == RequestPreemption && b.used.preemptions >= b.maxPreemptionsPerWindow)
    || (c == RequestMigration && b.used.migrations >= b.maxMigrationsPerWindow)
    || (c == ChangePlacement && b.used.placementChanges >= b.maxPlacementChangesPerWindow)
    || (c == RequestCollectiveReschedule && b.used.collectiveReschedules >= b.maxCollectiveReschedulesPerWindow)
    || (c in THROTTLING && b.used.throttles >= b.maxThrottlesPerWindow)
  }

  lemma UsedUpIff(b: ActionBudget, c: InterventionClass)
    ensures UsedUp(b, c) <==> Exhausted(b, c)
  {
  }

  /** Less than the cooldown has passed since the last intervention on the workload; five classes need not wait. */
  predicate MustWait(n: Engine, c: InterventionClass, w: WorkloadId, now: TimeMs) {
    && c !in UNDISRUPTIVE
    && w in n.fairness && n.fairness[w].lastInterventionAt > 0
    && Sub64(now, n.fairness[w].lastInterventionAt) < n.policy.cooldownMs
  }

  lemma MustWaitIff(n: Engine, c: InterventionClass, w: WorkloadId, now: TimeMs)
    ensures MustWait(n, c, w, now) <==> CoolingDown(n, c, w, now)
  {
    hide IsDisruptive, UNDISRUPTIVE;
    DisruptiveIff(c);
  }

  /**
   A request is granted exactly when there is a decision and the class asked for, or else the decision's, is
   not forbidden on the decision's target, its limit is not used up and it need not wait. What is granted is
   that class on that target.
   */
  lemma GrantedIff(g: State, k: ConflictId, cls: InterventionClass, now: TimeMs)
    ensures Attempt(g, k, cls, now).Some?
            <==> && DecisionOn(g, k).Some?
                 && var n, d := g.engine, DecisionOn(g, k).value;
                    var c := if cls == NoAction then d.cls else cls;
                 && !Forbidden(n.policy, d.target, c) && !UsedUp(n.policy.budget, c)
                 && !MustWait(n, c, d.target, now)
    ensures Attempt(g, k, cls, now).Some?
            ==> && DecisionOn(g, k).Some?
                && var a, d := Attempt(g, k, cls, now).value, DecisionOn(g, k).value;
                   a.target == d.target && a.cls == if cls == NoAction then d.cls else cls
  {
    hide DecisionOn, Attempt, Forbidden, UsedUp, Exhausted, MustWait, CoolingDown, Feasible, FenceNow, MakeFence, Known;
    hide WornOut;
    AttemptIs(g, k, cls, now);
    if DecisionOn(g, k).Some? {
      var n, d := g.engine, DecisionOn(g, k).value;
      var c, f := if cls == NoAction then d.cls else cls, FenceNow(n, k, d.target);
      DecisionPasses(g, k);
      FeasibleIff(n, d.target, d.cls, f);
      FeasibleIff(n, d.target, c, f);
      UsedUpIff(n.policy.budget, c);
      MustWaitIff(n, c, d.target, now);
    }
  }

  /** So the cooldown refuses none of the five, and every grant of another class has waited. */
  lemma GrantHasWaited(g: State, k: ConflictId, cls: InterventionClass, now: TimeMs)
    requires Attempt(g, k, cls, now).Some?
    ensures var n, a := g.engine, Attempt(g, k, cls, now).value;
            && (a.cls !in {NoAction, ObserveMore, ProtectHighValueWork, Escalate, ManualInterventionRequired}
                && a.target in n.fairness && 0 < n.fairness[a.target].lastInterventionAt <= now
                ==> n.fairness[a.target].lastInterventionAt + n.policy.cooldownMs <= now)
            && (a.cls in {ObserveMore, ProtectHighValueWork, Escalate, ManualInterventionRequired}
                ==> forall t :: Attempt(g, k, cls, t).Some?)
  {
    hide DecisionOn, Attempt, Forbidden, UsedUp;
    GrantedIff(g, k, cls, now);
    forall t
      ensures Attempt(g, k, cls, now).value.cls in UNDISRUPTIVE ==> Attempt(g, k, cls, t).Some?
    {
      GrantedIff(g, k, cls, t);
    }
  }

  // ----- What a grant changes -----

  /** One more of what the class counts as, in a window begun anew if the old one is over; the limits stay. */
  predicate ChargedFor(b: ActionBudget, a: ActionBudget, c: InterventionClass, now: TimeMs) {
    var rolls := Sub64(now, b.windowStart) > b.windowMs;
    var was := (x: u64) => if rolls then 0 else x;
    && a == b.(windowStart := a.windowStart, used := a.used)
    && a.windowStart == (if rolls then now else b.windowStart)
    && a.used.preemptions == (if c == RequestPreemption then Add64(was(b.used.preemptions), 1)
                              else was(b.used.preemptions))
    && a.used.migrations == (if c == RequestMigration then Add64(was(b.used.migrations), 1) else was(b.used.migrations))
    && a.used.placementChanges == (if c == ChangePlacement then Add64(was(b.used.placementChanges), 1)
                                   else was(b.used.placementChanges))
    && a.used.throttles == (if c in THROTTLING then Add64(was(b.used.throttles), 1) else was(b.used.throttles))
    && a.used.collectiveReschedules == (if c == RequestCollectiveReschedule
                                        then Add64(was(b.used.collectiveReschedules), 1)
                                        else was(b.used.collectiveReschedules))
    && a.used.all == Add64(was(b.used.all), 1)
  }

  lemma ConsumedCharges(b: ActionBudget, c: InterventionClass, now: TimeMs)
    ensures ChargedFor(b, Consumed(b, c, now), c, now)
  {
    hide Add64, Sub64;
  }

  /** The fence names the authority's generations, the target's, the conflict's and its first evidence's. */
  predicate FencedBy(a: AuthorityContext, f: Fence, w: WorkloadId) {
    && f.coordinatorEpoch == a.coordinatorEpoch && f.governorGeneration == a.governorGeneration
    && f.policyGeneration == a.policyGeneration && f.sloGeneration == a.sloGeneration
    && f.valueGeneration == a.valueGeneration && f.fairnessGeneration == a.fairnessGeneration
    && f.resourceGeneration == a.resourceGeneration && f.placementGeneration == a.placementGeneration
    && f.topologyGeneration == a.topologyGeneration && f.interventionGeneration == 1
    && w in a.workloadGenerations && f.workloadGeneration == a.workloadGenerations[w]
    && w in a.workloadBoots && f.workerBoot == a.workloadBoots[w]
  }

  lemma FenceIs(n: Engine, k: ConflictId, w: WorkloadId)
    requires Integrity(n) && k in n.conflicts && Known(n.authority, w)
    ensures var f, c := FenceNow(n, k, w), n.conflicts[k];
            && FencedBy(n.authority, f, w) && f.conflictGeneration == c.generation
            && c.evidenceIds != [] && c.evidenceIds[0] in n.evidence
            && f.evidenceGeneration == n.evidence[c.evidenceIds[0]].generation
  {
    assert ConflictIntact(n, k);
    assert n.conflicts[k].evidenceIds[0] in n.conflicts[k].evidenceIds;
  }

  /** The workload's fairness record after one more intervention. */
  predicate OneMoreOn(n: Engine, r: FairnessRecord<real>, w: WorkloadId, now: TimeMs) {
    && r.lastInterventionAt == now
    && (w !in n.fairness ==> r == FairnessRecord(w, 1, 1, 0.0, now))
    && (w in n.fairness ==>
          && var b := n.fairness[w];
          && r.deprivationDebt == b.deprivationDebt && r.workload == (if b.workload == 0 then w else b.workload)
          && r.interventionCount == (if b.interventionCount < U64_MAX then b.interventionCount + 1 else U64_MAX)
          && r.consecutiveInterventions
             == if b.consecutiveInterventions < U32_MAX then b.consecutiveInterventions + 1 else U32_MAX)
  }

  lemma TouchedIs(n: Engine, w: WorkloadId, now: TimeMs)
    ensures OneMoreOn(n, Touched(n.fairness, w, now)[w], w, now)
    ensures Touched(n.fairness, w, now) == n.fairness[w := Touched(n.fairness, w, now)[w]]
  {
  }

  lemma GrantSplits(g: State, k: ConflictId, cls: InterventionClass, now: TimeMs)
    requires Attempt(g, k, cls, now).Some?
    ensures var n, h, a := g.engine, Next(g, AuthorizeCalled(k, cls, now)), Attempt(g, k, cls, now).value;
            && h == Granted(g, k, a, now) && k in n.conflicts
            && a.fence == FenceNow(n, k, a.target) && DecisionOn(g, k).Some?
            && a.adapter == DecisionOn(g, k).value.adapter && Known(n.authority, a.target)
  {
    hide Evaluate.Evaluate, Feasible, Revalidate, FenceNow, Exhausted, CoolingDown, Granted, DecisionOn, Known;
    AttemptNeedsConflict(g, k, cls, now);
    AttemptIs(g, k, cls, now);
    AttemptAllowed(g, k, cls, now);
  }

  /**
   A grant files a new intervention, authorized, under the counters' ids, fenced by the authority of the
   moment; charges the budget; counts it against the target; and selects it for the conflict. Nothing else
   changes.
   */
  lemma GrantFiles(g: State, k: ConflictId, cls: InterventionClass, now: TimeMs)
    requires Integrity(g.engine) && Attempt(g, k, cls, now).Some?
    ensures var n, h, a := g.engine, Next(g, AuthorizeCalled(k, cls, now)), Attempt(g, k, cls, now).value;
            var m, i, c := h.engine, g.nextInterventionId, n.conflicts[k];
            && k in n.conflicts && i in m.interventions && a.target in m.fairness
            && var r := m.interventions[i];
            && r.id == i && r.generation == 1 && r.cls == a.cls && r.conflictId == k && r.target == a.target
            && r.state == Authorized && r.authorizedAt == now && r.dispatchId == g.nextDispatchId
            && r.attemptId == g.nextAttemptId && r.dispatchedAt == r.acknowledgedAt == r.completedAt == 0
            && r.ackNote == [] && r.interimStatus == Status(Ok, []) && r.result == UnknownOutcome && r.trace == []
            && !r.verificationReported && DecisionOn(g, k).Some? && r.adapter == DecisionOn(g, k).value.adapter
            && FencedBy(n.authority, r.fence, r.target) && r.fence.conflictGeneration == c.generation
            && c.evidenceIds != [] && c.evidenceIds[0] in n.evidence
            && r.fence.evidenceGeneration == n.evidence[c.evidenceIds[0]].generation
            && ChargedFor(n.policy.budget, m.policy.budget, a.cls, now)
            && OneMoreOn(n, m.fairness[a.target], a.target, now)
            && h == g.(engine := n.(
                 policy := n.policy.(budget := m.policy.budget), interventions := n.interventions[i := r],
                 fairness := n.fairness[a.target := m.fairness[a.target]],
                 conflicts := n.conflicts[k := c.(state := InterventionAuthorized, lastActionAt := now,
                                                  selectedIds := c.selectedIds + [i])]),
                 nextInterventionId := Add64(i, 1), nextDispatchId := Add64(g.nextDispatchId, 1),
                 nextAttemptId := Add64(g.nextAttemptId, 1))
  {
    hide Next, Attempt, DecisionOn, Integrity, FenceNow, Consumed, Touched, ChargedFor, OneMoreOn, FencedBy, Known;
    var a := Attempt(g, k, cls, now).value;
    GrantSplits(g, k, cls, now);
    FenceIs(g.engine, k, a.target);
    ConsumedCharges(g.engine.policy.budget, a.cls, now);
    TouchedIs(g.engine, a.target, now);
  }

  /** The adapter a class is meant for. */
  lemma AdapterNames(c: InterventionClass, w: WorkloadId, feasible: bool)
    ensures var name := MakeCandidate(c, w, feasible).adapter;
            && (c in THROTTLING ==> name == Ascii("IThrottleAdapter"))
            && (c in {RequestPreemption, ProtectHighValueWork} ==> name == Ascii("IPreemptionAdapter"))
            && (c in {RequestMigration, ChangePlacement, ReleaseOptionalResidency}
                ==> name == Ascii("IPlacementAdapter"))
            && (c == RequestBandwidthReallocation ==> name == Ascii("IBandwidthAdapter"))
            && (c == RequestCommunicationReplan ==> name == Ascii("ICommunicationAdapter"))
            && (c == RequestCollectiveReschedule ==> name == Ascii("ICollectiveAdapter"))
            && (c in {DeferNewWork, ShedLowValueWork} ==> name == Ascii("IAdmissionAdapter"))
            && (c in PASSIVE || c == RequestReplacement ==> name == [])
  {
    hide Ascii;
    assert Ascii("") == [] by { NoText(); }
  }

  lemma NoText()
    ensures Ascii("") == []
  {
  }

  // ----- How often, in all -----

  /** The table counts every intervention there ever was on the workload, as far as the counter reaches. */
  lemma {:induction false} CountsAll(g: State, steps: seq<Step>, w: WorkloadId)
    requires w !in g.engine.fairness
    ensures var y := Run(Start(g), steps);
            Count(y.g, w) == if Grants(y.log, w) < U64_MAX then Grants(y.log, w) else U64_MAX
    decreases |steps|
  {
    hide Apply, Count, Grants;
    if steps == [] {
      assert Count(g, w) == 0 && Grants([], w) == 0 by { NoCount(g, w); }
    } else {
      CountsAll(g, steps[..|steps| - 1], w);
      CountStep(Run(Start(g), steps[..|steps| - 1]), steps[|steps| - 1], w);
    }
  }

  function Count(g: State, w: WorkloadId): nat {
    if w in g.engine.fairness then g.engine.fairness[w].interventionCount else 0
  }

  lemma NoCount(g: State, w: WorkloadId)
    requires w !in g.engine.fairness
    ensures Count(g, w) == 0 && Grants([], w) == 0
  {
  }

  lemma CountAfter(g: State, step: Step, w: WorkloadId)
    ensures Count(Next(g, step), w)
            == if Note(g, step) != [] && GrantsOn(Note(g, step)[0], w)
               then (if Count(g, w) < U64_MAX then Count(g, w) + 1 else U64_MAX) else Count(g, w)
  {
    hide Next, Attempt, VerdictOn, EvidenceIsValid, Identified, Recorded, MayBegin;
    FairnessAfterIs(g, step);
  }

  lemma CountStep(y: Sys, step: Step, w: WorkloadId)
    requires Count(y.g, w) == if Grants(y.log, w) < U64_MAX then Grants(y.log, w) else U64_MAX
    ensures var z := Apply(y, step);
            Count(z.g, w) == if Grants(z.log, w) < U64_MAX then Grants(z.log, w) else U64_MAX
  {
    hide Next, Note, Count, GrantsOn, Grants;
    var z := Apply(y, step);
    CountAfter(y.g, step, w);
    NoteIsShort(y.g, step);
    if z.log != y.log {
      assert z.log == y.log + [Note(y.g, step)[0]];
      CountsAppend(y.log, Note(y.g, step)[0], w);
    }
  }
}
