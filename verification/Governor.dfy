/** The governor's state and the sections that change it under the lock, in place. */
module Governors {
  import opened Words
  import opened Enums
  import opened Entities
  import opened Rules
  import opened Ranking
  import opened Evaluate
  import opened Evaluator
  import opened Steps
  import opened IntegrityKept
  import opened Tables

  // ----- The action budget -----

  method BudgetExhausted(b: ActionBudget, cls: InterventionClass) returns (full: bool)
    ensures full == Exhausted(b, cls)
  {
    if cls.RequestPreemption? {
      full := b.used.preemptions >= b.maxPreemptionsPerWindow;
    } else if cls.RequestMigration? {
      full := b.used.migrations >= b.maxMigrationsPerWindow;
    } else if cls.ChangePlacement? {
      full := b.used.placementChanges >= b.maxPlacementChangesPerWindow;
    } else if IsThrottling(cls) {
      full := b.used.throttles >= b.maxThrottlesPerWindow;
    } else if cls.RequestCollectiveReschedule? {
      full := b.used.collectiveReschedules >= b.maxCollectiveReschedulesPerWindow;
    } else {
      full := false;
    }
  }

  method ConsumeBudget(budget: ActionBudget, cls: InterventionClass, now: TimeMs) returns (b: ActionBudget)
    ensures b == Consumed(budget, cls, now)
  {
    hide Add64;
    b := budget;
    if Sub64(now, b.windowStart) > b.windowMs {
      b := b.(used := BudgetUse(0, 0, 0, 0, 0, 0));
      b := b.(windowStart := now);
    }
    var u := b.used;
    if cls.RequestPreemption? {
      u := u.(preemptions := Add64(u.preemptions, 1));
    } else if cls.RequestMigration? {
      u := u.(migrations := Add64(u.migrations, 1));
    } else if cls.ChangePlacement? {
      u := u.(placementChanges := Add64(u.placementChanges, 1));
    } else if IsThrottling(cls) {
      u := u.(throttles := Add64(u.throttles, 1));
    } else if cls.RequestCollectiveReschedule? {
      u := u.(collectiveReschedules := Add64(u.collectiveReschedules, 1));
    }
    u := u.(all := Add64(u.all, 1));
    b := b.(used := u);
  }

  // ----- The adapter call -----

  /** What an adapter is called with. */
  datatype Order = Order(cls: InterventionClass, target: WorkloadId, attempt: u64)

  /** The switch on the class: only throttling has an adapter to call, if one is registered. */
  method CallAdapter(adapters: Adapters, cls: InterventionClass, answer: AdapterOutcome, note: Text)
    returns (outcome: AdapterOutcome, why: Text)
    ensures (outcome, why) == Reply(adapters, cls, answer, note)
  {
    hide Ascii;
    if adapters.NoRegistry? {
      return Unavailable, Ascii("no adapter registry");
    }
    if IsThrottling(cls) {
      if adapters.WithThrottle? {
        return answer, note;
      }
      return Unavailable, Ascii("no throttle adapter");
    }
    return Unavailable, Ascii("no registered adapter for class");
  }

  class Governor {
    var policy: Policy
    var conflicts: map<ConflictId, Conflict>
    var evidence: map<EvidenceId, Evidence>
    var interventions: map<InterventionId, InterventionRecord>
    var fairness: map<WorkloadId, FairnessRecord<real>>
    var authority: AuthorityContext
    var nextConflictId: u64
    var nextEvidenceId: u64
    var nextInterventionId: u64
    var nextDispatchId: u64
    var nextAttemptId: u64
    var nextVerificationId: u64
    var lastDigest: u64

    function Now(): State
      reads this
    {
      GovernorState(EngineState(policy, conflicts, evidence, interventions, fairness, authority),
                    nextConflictId, nextEvidenceId, nextInterventionId, nextDispatchId, nextAttemptId,
                    nextVerificationId, lastDigest)
    }

    ghost predicate Valid()
      reads this
    {
      Integrity(Now().engine)
    }

    constructor (p: Policy, a: AuthorityContext)
      ensures Now() == GovernorState(EngineState(p, map[], map[], map[], map[], a), 1, 1, 1, 1, 1, 1, 0)
      ensures Valid()
    {
      policy, authority := p, a;
      conflicts, evidence, interventions, fairness := map[], map[], map[], map[];
      nextConflictId, nextEvidenceId, nextInterventionId := 1, 1, 1;
      nextDispatchId, nextAttemptId, nextVerificationId := 1, 1, 1;
      lastDigest := 0;
    }

    // ----- Policy and authority -----

    method SetPolicy(p: Policy) returns (code: StatusCode)
      requires Valid()
      modifies `policy, `authority
      ensures Now() == Steps.SetPolicy(old(Now()), p)
      ensures code == if PolicyIsValid(p) then Ok else InvalidInput
      ensures Valid()
    {
      if !PolicyIsValid(p) {
        return InvalidInput;
      }
      policy := p;
      authority := authority.(policyGeneration := p.generation);
      code := Ok;
      IntegrityIgnores(old(Now()).engine, Now().engine);
    }

    method SetAuthority(a: AuthorityContext)
      requires Valid()
      modifies `authority
      ensures Now() == Steps.SetAuthority(old(Now()), a)
      ensures Valid()
    {
      authority := a;
      IntegrityIgnores(old(Now()).engine, Now().engine);
    }

    method RecordWorkerBoot(w: WorkloadId, boot: u64)
      requires Valid()
      modifies `authority
      ensures Now() == RecordBoot(old(Now()), w, boot)
      ensures Valid()
    {
      authority := authority.(workloadBoots := authority.workloadBoots[w := boot]);
      IntegrityIgnores(old(Now()).engine, Now().engine);
    }

    method RecordWorkloadGeneration(w: WorkloadId, g: Generation)
      requires Valid()
      modifies `authority
      ensures Now() == RecordGeneration(old(Now()), w, g)
      ensures Valid()
    {
      authority := authority.(workloadGenerations := authority.workloadGenerations[w := g]);
      IntegrityIgnores(old(Now()).engine, Now().engine);
    }

    // ----- A coordinator restart -----

    method QuarantineEvidence()
      modifies `evidence
      ensures evidence == QuarantinedAll(old(evidence))
    {
      hide RewrittenTo, Ascending, Lists;
      var ks := SortedKeys(evidence.Keys);
      ghost var was := evidence;
      RewriteStarts(ks, was, Quarantined);
      for i := 0 to |ks|
        invariant RewrittenTo(ks, i, was, evidence, Quarantined)
      {
        RewriteStep(ks, i, was, evidence, Quarantined);
        var e := evidence[ks[i]];
        if e.status == Current {
          evidence := evidence[ks[i] := e.(status := NeedsRevalidation)];
        } else {
          assert evidence == evidence[ks[i] := e];
        }
      }
      RewriteEnds(ks, was, evidence, Quarantined);
    }

    method ReopenConflicts()
      modifies `conflicts
      ensures conflicts == ReopenedAll(old(conflicts))
    {
      hide RewrittenTo, Ascending, Lists;
      var ks := SortedKeys(conflicts.Keys);
      ghost var was := conflicts;
      RewriteStarts(ks, was, Reopened);
      for i := 0 to |ks|
        invariant RewrittenTo(ks, i, was, conflicts, Reopened)
      {
        RewriteStep(ks, i, was, conflicts, Reopened);
        var c := conflicts[ks[i]];
        if c.state != ConflictResolved && c.state != Suppressed && c.state != ConflictSuperseded {
          conflicts := conflicts[ks[i] := c.(state := RevalidationRequired)];
        } else {
          assert conflicts == conflicts[ks[i] := c];
        }
      }
      RewriteEnds(ks, was, conflicts, Reopened);
    }

    method AbandonInterventions()
      modifies `interventions
      ensures interventions == AbandonedAll(old(interventions))
    {
      hide RewrittenTo, Ascending, Lists;
      var ks := SortedKeys(interventions.Keys);
      ghost var was := interventions;
      RewriteStarts(ks, was, Abandoned);
      for i := 0 to |ks|
        invariant RewrittenTo(ks, i, was, interventions, Abandoned)
      {
        RewriteStep(ks, i, was, interventions, Abandoned);
        var r := interventions[ks[i]];
        if r.state == Dispatched || r.state == Acknowledged || r.state == Authorized || r.state == Proposed {
          interventions := interventions[ks[i] := r.(state := OutcomeUnknown)];
        } else {
          assert interventions == interventions[ks[i] := r];
        }
      }
      RewriteEnds(ks, was, interventions, Abandoned);
    }

    method ForgiveWorkloads()
      modifies `fairness
      ensures fairness == ForgivenAll(old(fairness))
    {
      hide RewrittenTo, Ascending, Lists;
      var ks := SortedKeys(fairness.Keys);
      ghost var was := fairness;
      RewriteStarts(ks, was, Forgiven);
      for i := 0 to |ks|
        invariant RewrittenTo(ks, i, was, fairness, Forgiven)
      {
        RewriteStep(ks, i, was, fairness, Forgiven);
        fairness := fairness[ks[i] := fairness[ks[i]].(consecutiveInterventions := 0)];
      }
      RewriteEnds(ks, was, fairness, Forgiven);
    }

    method AdvanceEpoch()
      requires Valid()
      modifies this
      ensures Now() == Steps.AdvanceEpoch(old(Now()))
      ensures Valid()
    {
      hide Integrity, QuarantinedAll, ReopenedAll, AbandonedAll, ForgivenAll;
      if authority.coordinatorEpoch != U64_MAX {
        authority := authority.(coordinatorEpoch := authority.coordinatorEpoch + 1);
      }
      QuarantineEvidence();
      ReopenConflicts();
      AbandonInterventions();
      ForgiveWorkloads();
      AdvanceEpochKeeps(old(Now()));
    }

    // ----- Evidence -----

    method RecordEvidence(input: Evidence) returns (e: Evidence)
      modifies `evidence, `nextEvidenceId
      ensures e == Identified(old(Now()), input)
      ensures Now() == Recorded(old(Now()), input)
    {
      hide Degradation, Improvement;
      e := input.(degradation := Degradation(input.metric, input.isolatedBaseline, input.coRunObservation),
                  improvement := Improvement(input.metric, input.isolatedBaseline, input.coRunObservation));
      if e.id == 0 {
        e := e.(id := nextEvidenceId);
        nextEvidenceId := Add64(nextEvidenceId, 1);
      }
      evidence := evidence[e.id := e];
    }

    method LocateConflict(domain: ResourceDomain, victim: WorkloadId) returns (k: Option<ConflictId>)
      ensures k == FindConflict(conflicts, domain, victim)
    {
      hide Ascending, Lists;
      var ks := SortedKeys(conflicts.Keys);
      ghost var matching := Matching(conflicts, domain, victim);
      for i := 0 to |ks|
        invariant forall j :: 0 <= j < i ==> ks[j] !in matching
      {
        ListedIsKey(ks, conflicts.Keys, i);
        var c := conflicts[ks[i]];
        if c.domain == domain && victim in c.affected {
          FirstIsLeast(ks, conflicts.Keys, matching, i);
          return Some(ks[i]);
        }
      }
      NoneMatches(ks, conflicts.Keys, matching);
      return None;
    }

    /** The conflict's state follows the health of its latest evidence. */
    method ProgressConflict(k: ConflictId, e: Evidence)
      requires k in conflicts
      modifies `conflicts
      ensures conflicts == old(conflicts)[k := Progressed(old(conflicts)[k], e, policy.actionabilityThreshold)]
    {
      var c := conflicts[k];
      if e.status == Current && c.degradation >= policy.actionabilityThreshold {
        c := c.(state := Actionable);
        c := c.(inActionableState := true);
      } else if e.status == Current {
        c := c.(state := Validating);
      } else if e.status == Confounded || e.status == Insufficient {
        c := c.(state := Unresolved);
      } else if e.status == NeedsRevalidation {
        c := c.(state := RevalidationRequired);
      }
      conflicts := conflicts[k := c];
    }

    method IngestEvidence(input: Evidence) returns (code: StatusCode)
      requires Valid()
      modifies `evidence, `nextEvidenceId, `conflicts, `nextConflictId
      ensures Now() == Ingest(old(Now()), input)
      ensures code == if EvidenceIsValid(input) then Ok else InvalidInput
      ensures Valid()
    {
      hide Integrity, Identified, Recorded, Progressed, NewConflict, Updated, EvidenceIsValid, FindConflict;
      IngestKeeps(Now(), input);
      if !EvidenceIsValid(input) {
        return InvalidInput;
      }
      code := Ok;
      var e := RecordEvidence(input);
      var cid: ConflictId;
      var found := LocateConflict(e.domain, e.victim);
      if found.None? {
        cid := nextConflictId;
        var c := NewConflict(Now(), e);
        nextConflictId := Add64(nextConflictId, 1);
        conflicts := conflicts[cid := c];
      } else {
        cid := found.value;
        conflicts := conflicts[cid := Updated(conflicts[cid], e)];
      }
      ProgressConflict(cid, e);
    }

    // ----- Authorization -----

    method EvaluateNow(id: ConflictId) returns (ev: Evaluation)
      ensures ev == Evaluate.Evaluate(Now().engine, id, authority)
    {
      ev := EvaluateConflict(Now().engine, id, authority);
    }

    method PickCandidate(ev: Evaluation) returns (picked: Option<Candidate>)
      ensures picked == Picked(ev)
    {
      if ev.decision.Some? {
        return ev.decision;
      }
      for i := 0 to |ev.candidates|
        invariant FirstFeasible(ev.candidates) == FirstFeasible(ev.candidates[i..])
      {
        if ev.candidates[i].feasible {
          return Some(ev.candidates[i]);
        }
      }
      return None;
    }

    /** A fence of the present; the conflict's first evidence is looked up without a test. */
    method FenceFor(id: ConflictId, target: WorkloadId) returns (f: Fence)
      requires Valid() && id in conflicts
      ensures f == FenceNow(Now().engine, id, target)
    {
      hide Integrity, ConflictIntact;
      var c := conflicts[id];
      IntactOf(Now().engine, id);
      assert c.evidenceIds[0] in c.evidenceIds;
      f := MakeFence(authority, c.generation, evidence[c.evidenceIds[0]].generation, target, 1);
    }

    method InCooldown(cls: InterventionClass, target: WorkloadId, now: TimeMs) returns (wait: bool)
      ensures wait == CoolingDown(Now().engine, cls, target, now)
    {
      hide IsDisruptive;
      wait := false;
      if IsDisruptive(cls) {
        if target in fairness && fairness[target].lastInterventionAt != 0
           && Sub64(now, fairness[target].lastInterventionAt) < policy.cooldownMs {
          wait := true;
        }
      }
    }

    /** Everything authorize checks before it changes anything. */
    method TryAuthorize(id: ConflictId, cls: InterventionClass, now: TimeMs) returns (grant: Option<Grant>)
      requires Valid()
      ensures grant == Attempt(Now(), id, cls, now)
    {
      hide Evaluate.Evaluate, Feasible, Revalidate, FenceNow, Exhausted, CoolingDown, Integrity, Picked;
      if id !in conflicts {
        return None;
      }
      var ev := EvaluateNow(id);
      var p := PickCandidate(ev);
      if p.None? {
        return None;
      }
      var chosen, target := p.value.cls, p.value.target;
      if cls != NoAction {
        chosen := cls;
      }
      var f := FenceFor(id, target);
      if Revalidate(authority, f, target) != Ok {
        return None;
      }
      var ok := CheckFeasibility(Now().engine, target, chosen, f);
      if !ok {
        return None;
      }
      var full := BudgetExhausted(policy.budget, chosen);
      if full {
        return None;
      }
      var wait := InCooldown(chosen, target, now);
      if wait {
        return None;
      }
      return Some(Grant(chosen, target, f, if ev.decision.Some? then ev.decision.value.adapter else []));
    }

    method TouchFairness(target: WorkloadId, now: TimeMs)
      modifies `fairness
      ensures fairness == Touched(old(fairness), target, now)
    {
      var fr := if target in fairness then fairness[target] else FairnessRecord(0, 0, 0, 0.0, 0);
      if fr.workload == 0 {
        fr := fr.(workload := target);
      }
      if fr.interventionCount != U64_MAX {
        fr := fr.(interventionCount := fr.interventionCount + 1);
      }
      if fr.consecutiveInterventions != U32_MAX {
        fr := fr.(consecutiveInterventions := fr.consecutiveInterventions + 1);
      }
      fr := fr.(lastInterventionAt := now);
      fairness := fairness[target := fr];
    }

    method Authorize(id: ConflictId, cls: InterventionClass, now: TimeMs) returns (r: Option<InterventionId>)
      requires Valid()
      modifies this
      ensures Now() == Steps.Authorize(old(Now()), id, cls, now)
      ensures r == if Attempt(old(Now()), id, cls, now).Some? then Some(old(nextInterventionId)) else None
      ensures Valid()
    {
      hide Integrity, Attempt, Consumed, Touched;
      AuthorizeKeeps(Now(), id, cls, now);
      var g := TryAuthorize(id, cls, now);
      if g.None? {
        return None;
      }
      AttemptNeedsConflict(Now(), id, cls, now);
      var i := nextInterventionId;
      var ir := NewIntervention(Now(), id, g.value, now);
      nextInterventionId := Add64(nextInterventionId, 1);
      nextDispatchId := Add64(nextDispatchId, 1);
      nextAttemptId := Add64(nextAttemptId, 1);
      var budget := ConsumeBudget(policy.budget, g.value.cls, now);
      policy := policy.(budget := budget);
      TouchFairness(g.value.target, now);
      interventions := interventions[i := ir];
      var c := conflicts[id];
      c := c.(state := InterventionAuthorized);
      c := c.(selectedIds := c.selectedIds + [i]);
      c := c.(lastActionAt := now);
      conflicts := conflicts[id := c];
      return Some(i);
    }

    // ----- Dispatch -----

    /** The section before the adapter call, with what an adapter is called with. */
    method BeginDispatch(id: InterventionId, now: TimeMs) returns (code: StatusCode, order: Option<Order>)
      requires Valid()
      modifies `interventions, `nextDispatchId
      ensures Now() == DispatchBegin(old(Now()), id, now)
      ensures code == DispatchCode(old(Now()), id)
      ensures order == if !MayBegin(old(Now()), id) then None
                       else var r := old(interventions)[id]; Some(Order(r.cls, r.target, r.attemptId))
      ensures Valid()
    {
      hide Integrity, Revalidate;
      LifecycleKeeps(Now(), id, now, Accepted, []);
      if id !in interventions {
        return InvalidInput, None;
      }
      var r := interventions[id];
      if r.state != Authorized {
        return StaleAuthority, None;
      }
      code := Revalidate(authority, r.fence, r.target);
      if code != Ok {
        interventions := interventions[id := r.(state := SupersededAction)];
        return code, None;
      }
      r := r.(state := Dispatched);
      r := r.(dispatchId := nextDispatchId);
      nextDispatchId := Add64(nextDispatchId, 1);
      r := r.(dispatchedAt := now);
      interventions := interventions[id := r];
      return Ok, Some(Order(r.cls, r.target, r.attemptId));
    }

    /** The section after the adapter call. */
    method EndDispatch(id: InterventionId, answer: AdapterOutcome, note: Text) returns (code: StatusCode)
      requires Valid()
      modifies `interventions
      ensures Now() == DispatchEnd(old(Now()), id, answer, note)
      ensures code == if id in old(interventions) then Ok else InvalidInput
      ensures Valid()
    {
      hide Integrity;
      LifecycleKeeps(Now(), id, 0, answer, note);
      if id !in interventions {
        return InvalidInput;
      }
      var r := interventions[id];
      if answer == Accepted {
        r := r.(state := Acknowledged, ackNote := note);
      } else if answer == UnknownAnswer {
        r := r.(state := OutcomeUnknown);
      } else {
        r := r.(state := FailedAction,
                interimStatus := Status(InterventionFailed, if note == [] then Ascii("adapter rejected") else note));
      }
      interventions := interventions[id := r];
      return Ok;
    }

    /** A whole dispatch during which nothing else runs; answer and note are the adapter's, if there is one. */
    method Dispatch(id: InterventionId, now: TimeMs, adapters: Adapters, answer: AdapterOutcome, note: Text)
      returns (code: StatusCode)
      requires Valid()
      modifies `interventions, `nextDispatchId
      ensures Now() == DispatchAlone(old(Now()), id, now, adapters, answer, note)
      ensures code == DispatchCode(old(Now()), id)
      ensures Valid()
    {
      hide Integrity, Revalidate, Reply;
      var order: Option<Order>;
      code, order := BeginDispatch(id, now);
      if order.Some? {
        var outcome, why := CallAdapter(adapters, order.value.cls, answer, note);
        code := EndDispatch(id, outcome, why);
      }
    }

    method AuthorizeAndDispatch(id: ConflictId, cls: InterventionClass, now: TimeMs, later: TimeMs, adapters: Adapters,
                                answer: AdapterOutcome, note: Text) returns (code: StatusCode)
      requires Valid()
      modifies this
      ensures var before := old(Now());
              var full := cls != NoAction && Exhausted(before.engine.policy.budget, cls);
              if full || Attempt(before, id, cls, now).None? then
                Now() == before && code == if full then ActionBudgetExhausted else NoLegalIntervention
              else
                var s, i := Steps.Authorize(before, id, cls, now), before.nextInterventionId;
                code == DispatchCode(s, i) && Now() == DispatchAlone(s, i, later, adapters, answer, note)
      ensures Valid()
    {
      hide Integrity, Revalidate, Attempt, Exhausted, Granted, DispatchAlone, MayBegin;
      if cls != NoAction {
        var full := BudgetExhausted(policy.budget, cls);
        if full {
          return ActionBudgetExhausted;
        }
      }
      var i := Authorize(id, cls, now);
      if i.None? {
        return NoLegalIntervention;
      }
      code := Dispatch(i.value, later, adapters, answer, note);
    }

    // ----- Lifecycle callbacks -----

    method OnAcknowledge(id: InterventionId, now: TimeMs) returns (code: StatusCode)
      requires Valid()
      modifies `interventions
      ensures Now() == Acknowledge(old(Now()), id, now)
      ensures code == if id !in old(interventions) then InvalidInput
                      else if old(interventions)[id].state != Dispatched then StaleAuthority else Ok
      ensures Valid()
    {
      hide Integrity;
      LifecycleKeeps(Now(), id, now, Accepted, []);
      if id !in interventions {
        return InvalidInput;
      }
      if interventions[id].state != Dispatched {
        return StaleAuthority;
      }
      interventions := interventions[id := interventions[id].(state := Acknowledged, acknowledgedAt := now)];
      return Ok;
    }

    method OnActionFailed(id: InterventionId, note: Text) returns (code: StatusCode)
      requires Valid()
      modifies `interventions
      ensures Now() == ActionFailed(old(Now()), id, note)
      ensures code == if id in old(interventions) then Ok else InvalidInput
      ensures Valid()
    {
      hide Integrity;
      LifecycleKeeps(Now(), id, 0, Accepted, note);
      if id !in interventions {
        return InvalidInput;
      }
      interventions := interventions[id := interventions[id].(state := FailedAction,
                                                              interimStatus := Status(InterventionFailed, note))];
      return Ok;
    }

    // ----- Verification -----

    method LocateOpen(c: ConflictId) returns (i: Option<InterventionId>)
      ensures i == FirstOpen(interventions, c)
    {
      hide Ascending, Lists;
      var ks := SortedKeys(interventions.Keys);
      ghost var matching := OpenOn(interventions, c);
      for j := 0 to |ks|
        invariant forall k :: 0 <= k < j ==> ks[k] !in matching
      {
        ListedIsKey(ks, interventions.Keys, j);
        var r := interventions[ks[j]];
        if r.conflictId == c && (r.state == Dispatched || r.state == Acknowledged || r.state == Authorized) {
          FirstIsLeast(ks, interventions.Keys, matching, j);
          return Some(ks[j]);
        }
      }
      NoneMatches(ks, interventions.Keys, matching);
      return None;
    }

    method HoldsBeyond(c: Conflict, target: WorkloadId, allowed: real) returns (harmed: bool)
      ensures harmed == (target in c.affected && c.degradation > allowed)
    {
      harmed := false;
      for v := 0 to |c.affected|
        invariant harmed == (target in c.affected[..v] && c.degradation > allowed)
      {
        assert c.affected[..v + 1] == c.affected[..v] + [c.affected[v]];
        if c.affected[v] == target && c.degradation > allowed {
          harmed := true;
        }
      }
      assert c.affected[..|c.affected|] == c.affected;
    }

    method FindSecondaryHarm(self: ConflictId, target: WorkloadId) returns (harmed: bool)
      ensures harmed == HarmedElsewhere(policy, conflicts, self, target)
    {
      hide WorkloadPolicyFor, Ascending;
      var ks := SortedKeys(conflicts.Keys);
      harmed := false;
      for i := 0 to |ks|
        invariant harmed ==> HarmedElsewhere(policy, conflicts, self, target)
        invariant !harmed ==> forall j | 0 <= j < i && ks[j] in conflicts ::
                                !HarmfulConflict(policy, conflicts[ks[j]], ks[j], self, target)
      {
        assert ks[i] in ks;
        if ks[i] != self {
          var here := HoldsBeyond(conflicts[ks[i]], target, 1.0 - WorkloadPolicyFor(policy, target).hardSloFloor);
          if here {
            harmed := true;
          }
        }
      }
      assert forall k :: k in conflicts ==> k in ks;
    }

    method ClassifyOutcome(harmed: bool, before: real, after: real) returns (outcome: VerificationOutcome)
      ensures outcome == OutcomeOf(harmed, before, after, policy.actionabilityThreshold)
    {
      if harmed {
        outcome := if after < policy.actionabilityThreshold then ShiftedContention else CreatedSecondaryViolation;
      } else if after <= policy.actionabilityThreshold {
        outcome := Resolved;
      } else if after < before {
        outcome := PartiallyResolved;
      } else if after > before {
        outcome := Worsened;
      } else {
        outcome := NoEffect;
      }
    }

    /** The verdict on intervention i closes it and settles the state of conflict k. */
    method ReportOutcome(k: ConflictId, i: InterventionId, outcome: VerificationOutcome, at: TimeMs)
      requires k in conflicts && i in interventions
      modifies `conflicts, `interventions, `fairness
      ensures interventions == old(interventions)[i := Verified(old(interventions)[i], outcome, at)]
      ensures conflicts == old(conflicts)[k := old(conflicts)[k].(state := ConflictStateAfter(outcome))]
      ensures fairness == if outcome.Resolved? then Absolved(old(fairness), old(interventions)[i].target)
              else old(fairness)
    {
      var r := interventions[i].(result := outcome, completedAt := at, verificationReported := true);
      match outcome {
        case Resolved =>
          r := r.(state := Effective);
          conflicts := conflicts[k := conflicts[k].(state := ConflictResolved)];
          if r.target in fairness {
            fairness := fairness[r.target := fairness[r.target].(consecutiveInterventions := 0)];
          }
        case PartiallyResolved =>
          r := r.(state := PartiallyEffective);
          conflicts := conflicts[k := conflicts[k].(state := ConflictPartiallyResolved)];
        case NoEffect | Worsened | ShiftedContention | CreatedSecondaryViolation | CreatedFairnessViolation =>
          r := r.(state := Ineffective);
          conflicts := conflicts[k := conflicts[k].(state := Unresolved)];
        case _ =>
          r := r.(state := OutcomeUnknown);
          conflicts := conflicts[k := conflicts[k].(state := Unresolved)];
      }
      interventions := interventions[i := r];
    }

    method SubmitPostActionEvidence(input: Evidence) returns (code: StatusCode)
      requires Valid()
      modifies `evidence, `nextEvidenceId, `conflicts, `interventions, `fairness
      ensures Now() == Submit(old(Now()), input)
      ensures code == if EvidenceIsValid(input) then Ok else InvalidInput
      ensures Valid()
    {
      hide Integrity, Identified, Recorded, Verified, Absolved, OutcomeOf, ConflictStateAfter, EvidenceIsValid,
           FindConflict, FirstOpen, HarmedElsewhere;
      SubmitKeeps(Now(), input);
      if !EvidenceIsValid(input) {
        return InvalidInput;
      }
      code := Ok;
      var e := RecordEvidence(input);
      var found := LocateConflict(e.domain, e.victim);
      if found.None? {
        return;
      }
      var k := found.value;
      var before := conflicts[k].degradation;
      conflicts := conflicts[k := Remeasured(conflicts[k], e)];
      var open := LocateOpen(conflicts[k].id);
      if open.None? {
        return;
      }
      var harmed := FindSecondaryHarm(conflicts[k].id, interventions[open.value].target);
      var outcome := ClassifyOutcome(harmed, before, conflicts[k].degradation);
      ReportOutcome(k, open.value, outcome, e.sampledAt);
    }
  }
}
