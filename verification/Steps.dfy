/**
 What each section of the governor that runs under its lock does to the state, as a function of the
 state before. Class Governor computes these in place; the theorems about runs are about them.
 */
module Steps {
  import opened Words
  import opened Enums
  import opened Entities
  import opened Rules
  import opened Ranking
  import opened Evaluate

  type State = GovernorState<real>

  // ----- Policy and authority -----

  function SetPolicy(s: State, p: Policy): State {
    if PolicyIsValid(p) then
      s.(engine := s.engine.(policy := p, authority := s.engine.authority.(policyGeneration := p.generation)))
    else s
  }

  function SetAuthority(s: State, a: AuthorityContext): State { s.(engine := s.engine.(authority := a)) }

  function RecordBoot(s: State, w: WorkloadId, boot: u64): State {
    var a := s.engine.authority;
    SetAuthority(s, a.(workloadBoots := a.workloadBoots[w := boot]))
  }

  function RecordGeneration(s: State, w: WorkloadId, g: Generation): State {
    var a := s.engine.authority;
    SetAuthority(s, a.(workloadGenerations := a.workloadGenerations[w := g]))
  }

  // ----- A coordinator restart -----

  function Quarantined(e: Evidence): Evidence {
    if e.status == Current then e.(status := NeedsRevalidation) else e
  }

  function Reopened(c: Conflict): Conflict {
    if c.state == ConflictResolved || c.state == Suppressed || c.state == ConflictSuperseded then c
    else c.(state := RevalidationRequired)
  }

  /** Still on its way: proposed, authorized, dispatched or acknowledged. */
  predicate Unsettled(l: LifecycleState) { l.Proposed? || l.Authorized? || l.Dispatched? || l.Acknowledged? }

  function Abandoned(i: InterventionRecord): InterventionRecord {
    if Unsettled(i.state) then i.(state := OutcomeUnknown) else i
  }

  function Forgiven(f: FairnessRecord<real>): FairnessRecord<real> { f.(consecutiveInterventions := 0) }

  function QuarantinedAll(m: map<EvidenceId, Evidence>): map<EvidenceId,
                          Evidence> { map k | k in m :: Quarantined(m[k]) }

  function ReopenedAll(m: map<ConflictId, Conflict>): map<ConflictId, Conflict> { map k | k in m :: Reopened(m[k]) }

  function AbandonedAll(m: map<InterventionId, InterventionRecord>): map<InterventionId, InterventionRecord> {
    map k | k in m :: Abandoned(m[k])
  }

  function ForgivenAll(m: map<WorkloadId, FairnessRecord<real>>): map<WorkloadId, FairnessRecord<real>> {
    map k | k in m :: Forgiven(m[k])
  }

  function AdvanceEpoch(s: State): State {
    var n := s.engine;
    s.(engine := n.(
      authority := n.authority.(coordinatorEpoch :=
        if n.authority.coordinatorEpoch == U64_MAX then U64_MAX else n.authority.coordinatorEpoch + 1),
      evidence := QuarantinedAll(n.evidence),
      conflicts := ReopenedAll(n.conflicts),
      interventions := AbandonedAll(n.interventions),
      fairness := ForgivenAll(n.fairness)))
  }

  // ----- Evidence -----

  /** The evidence as it is stored: with its derived measures and an id. */
  function Identified(s: State, input: Evidence): Evidence {
    input.(degradation := Degradation(input.metric, input.isolatedBaseline, input.coRunObservation),
           improvement := Improvement(input.metric, input.isolatedBaseline, input.coRunObservation),
           id := if input.id == 0 then s.nextEvidenceId else input.id)
  }

  function Recorded(s: State, input: Evidence): State {
    var e := Identified(s, input);
    s.(engine := s.engine.(evidence := s.engine.evidence[e.id := e]),
       nextEvidenceId := if input.id == 0 then Add64(s.nextEvidenceId, 1) else s.nextEvidenceId)
  }

  function Matching(cs: map<ConflictId, Conflict>, domain: ResourceDomain, victim: WorkloadId): set<ConflictId> {
    set k | k in cs && cs[k].domain == domain && victim in cs[k].affected
  }

  /** The first conflict, in id order, of the victim in the domain. */
  function FindConflict(cs: map<ConflictId, Conflict>, domain: ResourceDomain,
                        victim: WorkloadId): (k: Option<ConflictId>)
    ensures k.Some? ==> k.value in cs && cs[k.value].domain == domain && victim in cs[k.value].affected
  {
    var ks := Matching(cs, domain, victim);
    if ks == {} then None else Some(Least(ks))
  }

  function Larger(a: real, b: real): real { if a < b then b else a }

  function NewConflict(s: State, e: Evidence): Conflict {
    var a := s.engine.authority;
    ContentionConflict(s.nextConflictId, 1, [e.victim], e.neighbors, e.domain, e.degradation, e.isolatedBaseline,
                       e.confidence, if e.metric.HigherIsBetter? then Throughput else Latency,
                       ClassifySeverity(e.degradation), [e.id], Detected, e.sampledAt, e.sampledAt, e.activeUntil,
                       e.unresolvedConfounders, [], [], [], [], s.engine.policy.generation, a.sloGeneration,
                       a.valueGeneration, a.fairnessGeneration, a.resourceGeneration, a.placementGeneration,
                       a.coordinatorEpoch, e.workerBoot, false, 0, false)
  }

  function Updated(c: Conflict, e: Evidence): Conflict {
    c.(associated := e.neighbors,
       degradation := Larger(c.degradation, e.degradation),
       confidence := Larger(c.confidence, e.confidence),
       evidenceIds := c.evidenceIds + [e.id],
       lastUpdatedAt := e.sampledAt,
       unresolvedConfounders := e.unresolvedConfounders)
  }

  function Progressed(c: Conflict, e: Evidence, threshold: real): Conflict {
    if e.status == Current && c.degradation >= threshold then c.(state := Actionable, inActionableState := true)
    else if e.status == Current then c.(state := Validating)
    else if e.status == Confounded || e.status == Insufficient then c.(state := Unresolved)
    else if e.status == NeedsRevalidation then c.(state := RevalidationRequired)
    else c
  }

  function Ingest(s: State, input: Evidence): State {
    if !EvidenceIsValid(input) then s
    else
      var e, t := Identified(s, input), Recorded(s, input);
      var threshold := t.engine.policy.actionabilityThreshold;
      var cs := t.engine.conflicts;
      match FindConflict(cs, e.domain, e.victim)
      case Some(k) => t.(engine := t.engine.(conflicts := cs[k := Progressed(Updated(cs[k], e), e, threshold)]))
      case None =>
        t.(engine := t.engine.(conflicts := cs[t.nextConflictId := Progressed(NewConflict(t, e), e, threshold)]),
           nextConflictId := Add64(t.nextConflictId, 1))
  }

  // ----- The action budget -----

  /** The classes that share a budget counter. */
  datatype Family = Preemptions | Migrations | Placements | Throttles | Collectives | Unbudgeted

  function FamilyOf(c: InterventionClass): Family {
    if IsThrottling(c) then Throttles
    else match c
      case RequestPreemption => Preemptions
      case RequestMigration => Migrations
      case ChangePlacement => Placements
      case RequestCollectiveReschedule => Collectives
      case _ => Unbudgeted
  }

  function Limit(b: ActionBudget, f: Family): u64
    requires !f.Unbudgeted?
  {
    match f
    case Preemptions => b.maxPreemptionsPerWindow
    case Migrations => b.maxMigrationsPerWindow
    case Placements => b.maxPlacementChangesPerWindow
    case Throttles => b.maxThrottlesPerWindow
    case Collectives => b.maxCollectiveReschedulesPerWindow
  }

  function Used(u: BudgetUse, f: Family): u64
    requires !f.Unbudgeted?
  {
    match f
    case Preemptions => u.preemptions
    case Migrations => u.migrations
    case Placements => u.placementChanges
    case Throttles => u.throttles
    case Collectives => u.collectiveReschedules
  }

  predicate Exhausted(b: ActionBudget, c: InterventionClass) {
    var f := FamilyOf(c);
    !f.Unbudgeted? && Used(b.used, f) >= Limit(b, f)
  }

  function Rolled(b: ActionBudget, now: TimeMs): ActionBudget {
    if Sub64(now, b.windowStart) > b.windowMs then b.(used := BudgetUse(0, 0, 0, 0, 0, 0), windowStart := now) else b
  }

  function Charged(u: BudgetUse, f: Family): BudgetUse {
    var v := match f
      case Preemptions => u.(preemptions := Add64(u.preemptions, 1))
      case Migrations => u.(migrations := Add64(u.migrations, 1))
      case Placements => u.(placementChanges := Add64(u.placementChanges, 1))
      case Throttles => u.(throttles := Add64(u.throttles, 1))
      case Collectives => u.(collectiveReschedules := Add64(u.collectiveReschedules, 1))
      case Unbudgeted => u;
    v.(all := Add64(u.all, 1))
  }

  function Consumed(b: ActionBudget, c: InterventionClass, now: TimeMs): ActionBudget {
    var r := Rolled(b, now);
    r.(used := Charged(r.used, FamilyOf(c)))
  }

  // ----- Authorization -----

  datatype Grant = Grant(cls: InterventionClass, target: WorkloadId, fence: Fence, adapter: Text)

  predicate CoolingDown(n: Engine, cls: InterventionClass, target: WorkloadId, now: TimeMs) {
    && IsDisruptive(cls)
    && target in n.fairness
    && n.fairness[target].lastInterventionAt != 0
    && Sub64(now, n.fairness[target].lastInterventionAt) < n.policy.cooldownMs
  }

  function FirstFeasible(cs: seq<Candidate>): Option<Candidate> {
    if cs == [] then None else if cs[0].feasible then Some(cs[0]) else FirstFeasible(cs[1..])
  }

  /** The generation of the conflict's first evidence. It is on record in every reachable state: see Integrity. */
  function FrontGeneration(n: Engine, c: Conflict): Generation {
    if c.evidenceIds != [] && c.evidenceIds[0] in n.evidence then n.evidence[c.evidenceIds[0]].generation else 0
  }

  function FenceNow(n: Engine, id: ConflictId, target: WorkloadId): Fence
    requires id in n.conflicts
  {
    MakeFence(n.authority, n.conflicts[id].generation, FrontGeneration(n, n.conflicts[id]), target, 1)
  }

  function Picked(ev: Evaluation): Option<Candidate> {
    if ev.decision.Some? then ev.decision else FirstFeasible(ev.candidates)
  }

  /** What authorize would grant at time now, if anything; a class other than NoAction replaces the chosen one. */
  function Attempt(s: State, id: ConflictId, cls: InterventionClass, now: TimeMs): Option<Grant> {
    var n := s.engine;
    var ev := Evaluate.Evaluate(n, id, n.authority);
    if id !in n.conflicts || Picked(ev).None? then None
    else
      var picked := Picked(ev).value;
      var chosen := if cls == NoAction then picked.cls else cls;
      var f := FenceNow(n, id, picked.target);
      if Revalidate(n.authority, f, picked.target) != Ok then None
      else if !Feasible(n, picked.target, chosen, f) then None
      else if Exhausted(n.policy.budget, chosen) then None
      else if CoolingDown(n, chosen, picked.target, now) then None
      else Some(Grant(chosen, picked.target, f, if ev.decision.Some? then ev.decision.value.adapter else []))
  }

  function Touched(f: map<WorkloadId, FairnessRecord<real>>, w: WorkloadId, now: TimeMs): map<WorkloadId,
                   FairnessRecord<real>> {
    var r := if w in f then f[w] else FairnessRecord(0, 0, 0, 0.0, 0);
    f[w := FairnessRecord(if r.workload == 0 then w else r.workload,
                          if r.interventionCount == U64_MAX then U64_MAX else r.interventionCount + 1,
                          if r.consecutiveInterventions == U32_MAX then U32_MAX else r.consecutiveInterventions + 1,
                          r.deprivationDebt, now)]
  }

  function NewIntervention(s: State, id: ConflictId, g: Grant, now: TimeMs): InterventionRecord {
    InterventionRecord(s.nextInterventionId, 1, g.cls, id, g.target, Authorized, g.fence, g.adapter, now, 0, 0, 0,
                       s.nextDispatchId, s.nextAttemptId, [], Status(Ok, []), UnknownOutcome, [], false)
  }

  function Granted(s: State, id: ConflictId, g: Grant, now: TimeMs): State
    requires id in s.engine.conflicts
  {
    var n, c, i := s.engine, s.engine.conflicts[id], s.nextInterventionId;
    s.(engine := n.(
         policy := n.policy.(budget := Consumed(n.policy.budget, g.cls, now)),
         fairness := Touched(n.fairness, g.target, now),
         interventions := n.interventions[i := NewIntervention(s, id, g, now)],
         conflicts := n.conflicts[id := c.(state := InterventionAuthorized, selectedIds := c.selectedIds + [i],
                                           lastActionAt := now)]),
       nextInterventionId := Add64(s.nextInterventionId, 1),
       nextDispatchId := Add64(s.nextDispatchId, 1),
       nextAttemptId := Add64(s.nextAttemptId, 1))
  }

  function Authorize(s: State, id: ConflictId, cls: InterventionClass, now: TimeMs): State {
    match Attempt(s, id, cls, now)
    case Some(g) => Granted(s, id, g, now)
    case None => s
  }

  // ----- Dispatch and lifecycle -----

  /** What an adapter answers. */
  datatype AdapterOutcome = Accepted | Rejected | Unavailable | UnknownAnswer

  /** What dispatch finds to hand an intervention to: no registry, one without a throttle adapter, or one with it. */
  datatype Adapters = NoRegistry | NoThrottle | WithThrottle

  /** Only the throttling classes have an adapter; why there is none for the class, if so. */
  function Unserved(adapters: Adapters, c: InterventionClass): Option<Text> {
    if adapters.NoRegistry? then Some(Ascii("no adapter registry"))
    else if !IsThrottling(c) then Some(Ascii("no registered adapter for class"))
    else if adapters.NoThrottle? then Some(Ascii("no throttle adapter"))
    else None
  }

  /** What dispatch takes for the answer: the adapter's, or that none is available. */
  function Reply(adapters: Adapters, c: InterventionClass, answer: AdapterOutcome, note: Text): (AdapterOutcome, Text) {
    match Unserved(adapters, c)
    case Some(why) => (Unavailable, why)
    case None => (answer, note)
  }

  predicate MayBegin(s: State, i: InterventionId) {
    && i in s.engine.interventions
    && var r := s.engine.interventions[i];
    && r.state == Authorized
    && Revalidate(s.engine.authority, r.fence, r.target) == Ok
  }

  /** What dispatch returns: the first test that fails, or Ok, whatever the adapter answers. */
  function DispatchCode(s: State, i: InterventionId): (code: StatusCode)
    ensures code == Ok <==> MayBegin(s, i)
  {
    if i !in s.engine.interventions then InvalidInput
    else
      var r := s.engine.interventions[i];
      if r.state != Authorized then StaleAuthority else Revalidate(s.engine.authority, r.fence, r.target)
  }

  function WithRecord(s: State, i: InterventionId, r: InterventionRecord): State {
    s.(engine := s.engine.(interventions := s.engine.interventions[i := r]))
  }

  /** The first section of a dispatch. What follows it, if MayBegin held before it, is the call of an adapter. */
  function DispatchBegin(s: State, i: InterventionId, now: TimeMs): State {
    if i !in s.engine.interventions || s.engine.interventions[i].state != Authorized then s
    else
      var r := s.engine.interventions[i];
      if Revalidate(s.engine.authority, r.fence, r.target) != Ok then WithRecord(s, i, r.(state := SupersededAction))
      else
        WithRecord(s, i, r.(state := Dispatched, dispatchId := s.nextDispatchId, dispatchedAt := now))
          .(nextDispatchId := Add64(s.nextDispatchId, 1))
  }

  function Answered(r: InterventionRecord, answer: AdapterOutcome, note: Text): InterventionRecord {
    match answer
    case Accepted => r.(state := Acknowledged, ackNote := note)
    case UnknownAnswer => r.(state := OutcomeUnknown)
    case _ => r.(state := FailedAction,
                 interimStatus := Status(InterventionFailed, if note == [] then Ascii("adapter rejected") else note))
  }

  /** The second section of a dispatch, run when the adapter has answered. */
  function DispatchEnd(s: State, i: InterventionId, answer: AdapterOutcome, note: Text): State {
    if i !in s.engine.interventions then s
    else WithRecord(s, i, Answered(s.engine.interventions[i], answer, note))
  }

  /** A dispatch during which nothing else runs. */
  function DispatchAlone(s: State, i: InterventionId, now: TimeMs, adapters: Adapters, answer: AdapterOutcome,
                       note: Text): State {
    if !MayBegin(s, i) then DispatchBegin(s, i, now)
    else
      var (a, n) := Reply(adapters, s.engine.interventions[i].cls, answer, note);
      DispatchEnd(DispatchBegin(s, i, now), i, a, n)
  }

  function Acknowledge(s: State, i: InterventionId, now: TimeMs): State {
    if i !in s.engine.interventions || s.engine.interventions[i].state != Dispatched then s
    else WithRecord(s, i, s.engine.interventions[i].(state := Acknowledged, acknowledgedAt := now))
  }

  function ActionFailed(s: State, i: InterventionId, note: Text): State {
    if i !in s.engine.interventions then s
    else WithRecord(s, i, s.engine.interventions[i].(state := FailedAction,
        interimStatus := Status(InterventionFailed, note)))
  }

  // ----- Verification -----

  predicate IsOpen(l: LifecycleState) { l.Dispatched? || l.Acknowledged? || l.Authorized? }

  function OpenOn(rs: map<InterventionId, InterventionRecord>, c: ConflictId): set<InterventionId> {
    set i | i in rs && rs[i].conflictId == c && IsOpen(rs[i].state)
  }

  function FirstOpen(rs: map<InterventionId, InterventionRecord>, c: ConflictId): (i: Option<InterventionId>)
    ensures i.Some? ==> i.value in rs && rs[i.value].conflictId == c && IsOpen(rs[i.value].state)
  {
    var ks := OpenOn(rs, c);
    if ks == {} then None else Some(Least(ks))
  }

  predicate HarmfulConflict(p: Policy, c: Conflict, k: ConflictId, self: ConflictId, w: WorkloadId) {
    k != self && w in c.affected && c.degradation > 1.0 - WorkloadPolicyFor(p, w).hardSloFloor
  }

  /** Some other conflict holds the workload beyond what its hard service floor allows. */
  predicate HarmedElsewhere(p: Policy, cs: map<ConflictId, Conflict>, self: ConflictId, w: WorkloadId) {
    exists k | k in cs :: HarmfulConflict(p, cs[k], k, self, w)
  }

  function OutcomeOf(harmed: bool, before: real, after: real, threshold: real): VerificationOutcome {
    if harmed then if after < threshold then ShiftedContention else CreatedSecondaryViolation
    else if after <= threshold then Resolved
    else if after < before then PartiallyResolved
    else if after > before then Worsened
    else NoEffect
  }

  function LifecycleAfter(o: VerificationOutcome): LifecycleState {
    match o
    case Resolved => Effective
    case PartiallyResolved => PartiallyEffective
    case NoEffect => Ineffective
    case Worsened => Ineffective
    case ShiftedContention => Ineffective
    case CreatedSecondaryViolation => Ineffective
    case CreatedFairnessViolation => Ineffective
    case _ => OutcomeUnknown
  }

  function ConflictStateAfter(o: VerificationOutcome): ConflictState {
    match o
    case Resolved => ConflictResolved
    case PartiallyResolved => ConflictPartiallyResolved
    case _ => Unresolved
  }

  function Remeasured(c: Conflict, e: Evidence): Conflict {
    c.(degradation := e.degradation, lastUpdatedAt := e.sampledAt, evidenceIds := c.evidenceIds + [e.id])
  }

  /** The verdict on an intervention: which one, on which workload, and how it turned out. */
  datatype Verdict = Verdict(id: InterventionId, target: WorkloadId, outcome: VerificationOutcome)

  /** The verdict the post-action evidence e gives in state t, where e is already recorded. */
  function VerdictOn(t: State, e: Evidence): (v: Option<Verdict>)
    ensures v.Some? ==> v.value.id in t.engine.interventions
    ensures v.Some? ==> FindConflict(t.engine.conflicts, e.domain, e.victim).Some?
  {
    var n := t.engine;
    match FindConflict(n.conflicts, e.domain, e.victim)
    case None => None
    case Some(k) =>
      var c := n.conflicts[k];
      match FirstOpen(n.interventions, c.id)
      case None => None
      case Some(i) =>
        var w := n.interventions[i].target;
        Some(Verdict(i, w, OutcomeOf(HarmedElsewhere(n.policy, n.conflicts[k := Remeasured(c, e)], c.id, w),
                                     c.degradation, e.degradation, n.policy.actionabilityThreshold)))
  }

  function Verified(r: InterventionRecord, o: VerificationOutcome, at: TimeMs): InterventionRecord {
    r.(result := o, completedAt := at, verificationReported := true, state := LifecycleAfter(o))
  }

  function Absolved(f: map<WorkloadId, FairnessRecord<real>>, w: WorkloadId): map<WorkloadId, FairnessRecord<real>> {
    if w in f then f[w := Forgiven(f[w])] else f
  }

  function Submit(s: State, input: Evidence): State {
    if !EvidenceIsValid(input) then s
    else
      var e, t := Identified(s, input), Recorded(s, input);
      var n := t.engine;
      match FindConflict(n.conflicts, e.domain, e.victim)
      case None => t
      case Some(k) =>
        var c := Remeasured(n.conflicts[k], e);
        match VerdictOn(t, e)
        case None => t.(engine := n.(conflicts := n.conflicts[k := c]))
        case Some(v) =>
          t.(engine := n.(
            conflicts := n.conflicts[k := c.(state := ConflictStateAfter(v.outcome))],
            interventions := n.interventions[v.id := Verified(n.interventions[v.id], v.outcome, e.sampledAt)],
            fairness := if v.outcome.Resolved? then Absolved(n.fairness, v.target) else n.fairness))
  }

  // ----- What ties the tables together -----

  ghost predicate ConflictIntact(n: Engine, k: ConflictId)
    requires k in n.conflicts
  {
    var c := n.conflicts[k];
    && c.id == k
    && c.evidenceIds != [] && (forall e :: e in c.evidenceIds ==> e in n.evidence)
    && (forall i :: i in c.selectedIds ==> i in n.interventions)
  }

  /** Every id a record names is on record. */
  ghost predicate Integrity(n: Engine) {
    && (forall k | k in n.conflicts :: ConflictIntact(n, k))
    && (forall i | i in n.interventions :: n.interventions[i].id == i && n.interventions[i].conflictId in n.conflicts)
    && (forall w | w in n.fairness :: n.fairness[w].workload == w)
  }
}
