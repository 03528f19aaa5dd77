/**
 After a coordinator restart nothing is authorized until fresh evidence arrives, and nothing from
 before is dispatched.
 */
module Quarantine {
  import opened Words
  import opened Enums
  import opened Entities
  import opened Rules
  import opened Ranking
  import opened Evaluate
  import opened Steps
  import opened Machine
  import opened Dispatching

  ghost predicate NoCurrentEvidence(g: State) {
    forall e | e in g.engine.evidence :: g.engine.evidence[e].status != Current
  }

  lemma {:induction false} NothingUsable(n: Engine, ids: seq<EvidenceId>)
    requires forall e | e in n.evidence :: n.evidence[e].status != Current
    ensures UsableEvidence(n, ids) == []
    decreases |ids|
  {
    if ids != [] {
      NothingUsable(n, ids[..|ids| - 1]);
    }
  }

  /** Without current evidence every authorization is refused, whatever the conflict and the class asked for. */
  lemma NoEvidenceNoGrant(g: State, k: ConflictId, cls: InterventionClass, now: TimeMs)
    requires NoCurrentEvidence(g)
    ensures Attempt(g, k, cls, now).None?
  {
    hide UsableEvidence, Feasible, MakeFence, Revalidate, Exhausted, CoolingDown, AllCandidates, Choose;
    if k in g.engine.conflicts {
      NothingUsable(g.engine, g.engine.conflicts[k].evidenceIds);
    }
  }

  /** Current evidence must be validated again. */
  predicate EvidenceDoubted(a: Evidence, b: Evidence) {
    b == a.(status := b.status) && b.status == if a.status == Current then NeedsRevalidation else a.status
  }

  /** So must a conflict that is not resolved, suppressed or superseded. */
  predicate ConflictDoubted(a: Conflict, b: Conflict) {
    && b == a.(state := b.state)
    && b.state == if a.state in {ConflictResolved, Suppressed, ConflictSuperseded} then a.state
                  else RevalidationRequired
  }

  /** An intervention on its way has an unknown outcome. */
  predicate OutcomeDoubted(a: InterventionRecord, b: InterventionRecord) {
    && b == a.(state := b.state)
    && b.state == if a.state in {Proposed, Authorized, Dispatched, Acknowledged} then OutcomeUnknown else a.state
  }

  lemma DoubtsEvidence(e: Evidence)
    ensures EvidenceDoubted(e, Quarantined(e))
  {
  }

  lemma DoubtsConflict(c: Conflict)
    ensures ConflictDoubted(c, Reopened(c))
  {
  }

  lemma DoubtsOutcome(r: InterventionRecord)
    ensures OutcomeDoubted(r, Abandoned(r))
  {
  }

  /** A restart doubts every piece of evidence, conflict and intervention, and adds and drops none. */
  lemma RestartDoubts(g: State)
    ensures var n, m := g.engine, Next(g, EpochAdvanced).engine;
            && m.evidence.Keys == n.evidence.Keys && m.conflicts.Keys == n.conflicts.Keys
            && m.interventions.Keys == n.interventions.Keys
            && (forall e | e in n.evidence :: EvidenceDoubted(n.evidence[e], m.evidence[e]))
            && (forall k | k in n.conflicts :: ConflictDoubted(n.conflicts[k], m.conflicts[k]))
            && forall i | i in n.interventions :: OutcomeDoubted(n.interventions[i], m.interventions[i])
  {
    hide EvidenceDoubted, ConflictDoubted, OutcomeDoubted, Quarantined, Reopened, Abandoned, ForgivenAll;
    forall e: Evidence
      ensures EvidenceDoubted(e, Quarantined(e))
    {
      DoubtsEvidence(e);
    }
    forall c: Conflict
      ensures ConflictDoubted(c, Reopened(c))
    {
      DoubtsConflict(c);
    }
    forall r: InterventionRecord
      ensures OutcomeDoubted(r, Abandoned(r))
    {
      DoubtsOutcome(r);
    }
  }

  /** It forgives every streak and moves the epoch on, as far as its counter goes; and that is all. */
  lemma RestartForgives(g: State)
    ensures var n, m := g.engine, Next(g, EpochAdvanced).engine;
            && m.fairness.Keys == n.fairness.Keys
            && (forall w | w in n.fairness :: m.fairness[w] == n.fairness[w].(consecutiveInterventions := 0))
            && (m.authority.coordinatorEpoch == n.authority.coordinatorEpoch + 1
                || m.authority.coordinatorEpoch == n.authority.coordinatorEpoch == U64_MAX)
            && Next(g, EpochAdvanced)
               == g.(engine := n.(evidence := m.evidence, conflicts := m.conflicts, interventions := m.interventions,
                    fairness := m.fairness,
                    authority := n.authority.(coordinatorEpoch := m.authority.coordinatorEpoch)))
  {
    hide QuarantinedAll, ReopenedAll, AbandonedAll;
  }

  /** The step brings in evidence that is current. */
  predicate BringsCurrent(step: Step) {
    (step.EvidenceIngested? || step.EvidenceSubmitted?) && EvidenceIsValid(step.e) && step.e.status == Current
  }

  lemma EvidenceAfter(g: State, step: Step)
    ensures Next(g, step).engine.evidence
            == if step.EpochAdvanced? then QuarantinedAll(g.engine.evidence)
               else if (step.EvidenceIngested? || step.EvidenceSubmitted?) && EvidenceIsValid(step.e)
               then g.engine.evidence[Identified(g, step.e).id := Identified(g, step.e)]
               else g.engine.evidence
  {
    hide Attempt, FindConflict, VerdictOn, EvidenceIsValid, PolicyIsValid, Revalidate, Identified, Progressed, Updated,
         NewConflict, Answered, Consumed, Touched, QuarantinedAll, Remeasured;
  }

  lemma QuarantineStays(y: Sys, step: Step)
    requires NoCurrentEvidence(y.g) && !BringsCurrent(step)
    ensures NoCurrentEvidence(Apply(y, step).g)
  {
    hide Next, EvidenceIsValid, Degradation, Improvement;
    EvidenceAfter(y.g, step);
  }

  lemma AdvanceQuarantines(g: State)
    ensures NoCurrentEvidence(AdvanceEpoch(g))
  {
    hide Next;
    EvidenceAfter(g, EpochAdvanced);
    assert AdvanceEpoch(g).engine.evidence == QuarantinedAll(g.engine.evidence);
  }

  lemma {:induction false} QuarantineHolds(y: Sys, steps: seq<Step>)
    requires NoCurrentEvidence(y.g)
    requires forall k | 0 <= k < |steps| :: !BringsCurrent(steps[k])
    ensures NoCurrentEvidence(Run(y, steps).g)
    decreases |steps|
  {
    hide Apply, BringsCurrent, NoCurrentEvidence;
    if steps != [] {
      QuarantineHolds(y, steps[..|steps| - 1]);
      QuarantineStays(Run(y, steps[..|steps| - 1]), steps[|steps| - 1]);
    }
  }

  /** From a restart on, in every run that brings no current evidence, no authorization succeeds. */
  lemma NoGrantAfterRestart(y: Sys, steps: seq<Step>, k: ConflictId, cls: InterventionClass, now: TimeMs)
    requires forall j | 0 <= j < |steps| :: !BringsCurrent(steps[j])
    ensures Attempt(Run(Apply(y, EpochAdvanced), steps).g, k, cls, now).None?
  {
    hide Attempt, Run, NoCurrentEvidence, BringsCurrent, AdvanceEpoch;
    AdvanceQuarantines(y.g);
    QuarantineHolds(Apply(y, EpochAdvanced), steps);
    NoEvidenceNoGrant(Run(Apply(y, EpochAdvanced), steps).g, k, cls, now);
  }

  /** No intervention from before a restart is ever handed to an adapter after it. */
  lemma NothingOldIsDispatched(y: Sys, steps: seq<Step>, i: InterventionId)
    requires Numbered(y.g) && Room(y.g, |steps| + 1) && i in y.g.engine.interventions
    ensures !MayBegin(Run(Apply(y, EpochAdvanced), steps).g, i)
  {
    hide Run, Next, Numbered, Revalidate, StepVerdict;
    NumberedStays(y.g, EpochAdvanced);
    NextCounters(y.g, EpochAdvanced);
    var z := Apply(y, EpochAdvanced);
    assert i in z.g.engine.interventions && !z.g.engine.interventions[i].state.Authorized? by {
      RecordsAfterAre(y.g, EpochAdvanced);
    }
    assert Room(z.g, |steps|) by { RestartCounters(y.g); }
    RecordsStayAlways(z, steps, i);
  }

  /** A restart makes every fence that passed before it stale, unless the epoch counter is already at its end. */
  lemma RestartStalesFences(g: State, f: Fence, w: WorkloadId)
    requires Revalidate(g.engine.authority, f, w) == Ok
    ensures Revalidate(AdvanceEpoch(g).engine.authority, f, w) == Ok <==> g.engine.authority.coordinatorEpoch == U64_MAX
  {
    RevalidateIff(g.engine.authority, f, w);
    RevalidateIff(AdvanceEpoch(g).engine.authority, f, w);
  }

  lemma RestartCounters(g: State)
    ensures var h := Next(g, EpochAdvanced);
            && h.nextInterventionId == g.nextInterventionId
            && h.nextAttemptId == g.nextAttemptId && h.nextConflictId == g.nextConflictId
  {
  }
}
