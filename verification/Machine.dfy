/**
 The governor as a machine whose steps are the sections run under the lock, in any order, with any
 number of adapter calls out at a time, and the history of what happened.
 */
module Machine {
  import opened Words
  import opened Enums
  import opened Entities
  import opened Rules
  import opened Steps
  import opened IntegrityKept

  datatype Step =
    | PolicySet(policy: Policy)
    | AuthoritySet(authority: AuthorityContext)
    | BootRecorded(w: WorkloadId, boot: u64)
    | GenerationRecorded(w: WorkloadId, generation: Generation)
    | EpochAdvanced
    | EvidenceIngested(e: Evidence)
    | AuthorizeCalled(conflict: ConflictId, cls: InterventionClass, now: TimeMs)
    | DispatchBegun(id: InterventionId, now: TimeMs, adapters: Adapters)
    | DispatchEnded(id: InterventionId, answer: AdapterOutcome, note: Text)
    | DispatchUnserved(id: InterventionId, note: Text)
    | Acked(id: InterventionId, now: TimeMs)
    | Failed(id: InterventionId, note: Text)
    | EvidenceSubmitted(e: Evidence)

  /** What history keeps of a step. */
  datatype Record =
    | Granting(id: InterventionId, attempt: u64, conflict: ConflictId, cls: InterventionClass, target: WorkloadId,
               at: TimeMs)
    | Calling(id: InterventionId, attempt: u64)
    | Advancing
    | Ingesting(e: Evidence)
    | Reporting(e: Evidence, verdict: Option<Verdict>)

  /**
   The state, its history, the interventions whose adapter call has not returned, and those dispatched
   with no adapter to call, with the reason, whose dispatch has not come to its end either.
   */
  datatype Sys = Sys(g: State, log: seq<Record>, out: multiset<InterventionId>, bare: multiset<(InterventionId, Text)>)

  function Next(g: State, step: Step): State {
    match step
    case PolicySet(p) => SetPolicy(g, p)
    case AuthoritySet(a) => SetAuthority(g, a)
    case BootRecorded(w, boot) => RecordBoot(g, w, boot)
    case GenerationRecorded(w, gen) => RecordGeneration(g, w, gen)
    case EpochAdvanced => AdvanceEpoch(g)
    case EvidenceIngested(e) => Ingest(g, e)
    case AuthorizeCalled(k, cls, now) => Authorize(g, k, cls, now)
    case DispatchBegun(i, now, adapters) => DispatchBegin(g, i, now)
    case DispatchEnded(i, answer, note) => DispatchEnd(g, i, answer, note)
    case DispatchUnserved(i, note) => DispatchEnd(g, i, Unavailable, note)
    case Acked(i, now) => Acknowledge(g, i, now)
    case Failed(i, note) => ActionFailed(g, i, note)
    case EvidenceSubmitted(e) => Submit(g, e)
  }

  /** The dispatch begins and there is an adapter to hand the intervention to. */
  predicate HandsOver(g: State, i: InterventionId, adapters: Adapters) {
    MayBegin(g, i) && Unserved(adapters, g.engine.interventions[i].cls).None?
  }

  function Note(g: State, step: Step): seq<Record> {
    match step
    case EpochAdvanced => [Advancing]
    case EvidenceIngested(e) => if EvidenceIsValid(e) then [Ingesting(Identified(g, e))] else []
    case AuthorizeCalled(k, cls, now) =>
      (match Attempt(g, k, cls, now)
       case Some(a) => [Granting(g.nextInterventionId, g.nextAttemptId, k, a.cls, a.target, now)]
       case None => [])
    case DispatchBegun(i, now, adapters) =>
      if HandsOver(g, i, adapters) then [Calling(i, g.engine.interventions[i].attemptId)] else []
    case EvidenceSubmitted(e) =>
      if EvidenceIsValid(e) then [Reporting(Identified(g, e), VerdictOn(Recorded(g, e), Identified(g, e)))] else []
    case _ => []
  }

  /** The second section of a dispatch is due only once its first has run: with the adapter's answer, or without. */
  predicate Due(y: Sys, step: Step) {
    (step.DispatchEnded? ==> step.id in y.out) && (step.DispatchUnserved? ==> (step.id, step.note) in y.bare)
  }

  predicate EndsDispatch(step: Step) { step.DispatchEnded? || step.DispatchUnserved? }

  function OutAfter(y: Sys, step: Step): multiset<InterventionId> {
    if step.DispatchBegun? && HandsOver(y.g, step.id, step.adapters) then y.out + multiset{step.id}
    else if step.DispatchEnded? then y.out - multiset{step.id}
    else y.out
  }

  function BareAfter(y: Sys, step: Step): multiset<(InterventionId, Text)> {
    if step.DispatchBegun? && MayBegin(y.g, step.id) && !HandsOver(y.g, step.id, step.adapters)
    then y.bare + multiset{(step.id, Unserved(step.adapters, y.g.engine.interventions[step.id].cls).value)}
    else if step.DispatchUnserved? then y.bare - multiset{(step.id, step.note)}
    else y.bare
  }

  function Apply(y: Sys, step: Step): Sys {
    if !Due(y, step) then y
    else Sys(Next(y.g, step), y.log + Note(y.g, step), OutAfter(y, step), BareAfter(y, step))
  }

  function Run(y: Sys, steps: seq<Step>): Sys {
    if steps == [] then y else Apply(Run(y, steps[..|steps| - 1]), steps[|steps| - 1])
  }

  function Start(g: State): Sys { Sys(g, [], multiset{}, multiset{}) }

  /** A governor just constructed with policy p and authority a. */
  function Fresh(p: Policy, a: AuthorityContext): State {
    GovernorState(EngineState(p, map[], map[], map[], map[], a), 1, 1, 1, 1, 1, 1, 0)
  }

  lemma {:induction false} RunSplit(y: Sys, first: seq<Step>, second: seq<Step>)
    ensures Run(y, first + second) == Run(Run(y, first), second)
    decreases |second|
  {
    if second == [] {
      assert first + second == first;
    } else {
      var front := second[..|second| - 1];
      assert (first + second)[..|first + second| - 1] == first + front;
      RunSplit(y, first, front);
    }
  }

  lemma RunMore(y: Sys, steps: seq<Step>, step: Step)
    ensures Run(y, steps + [step]) == Apply(Run(y, steps), step)
  {
    hide Apply;
    assert (steps + [step])[..|steps|] == steps;
  }

  lemma RunOnce(y: Sys, step: Step)
    ensures Run(y, [step]) == Apply(y, step)
  {
    RunMore(y, [], step);
    assert [] + [step] == [step];
  }

  // ----- Ids do not come round again -----

  /** Counters that n more steps cannot wrap. */
  predicate Room(g: State, n: nat) {
    g.nextInterventionId + n < TWO_64 && g.nextAttemptId + n < TWO_64 && g.nextConflictId + n < TWO_64
  }

  lemma NextCounters(g: State, step: Step)
    requires Room(g, 1)
    ensures var h := Next(g, step);
            && g.nextInterventionId <= h.nextInterventionId <= g.nextInterventionId + 1
            && g.nextAttemptId <= h.nextAttemptId <= g.nextAttemptId + 1
            && g.nextConflictId <= h.nextConflictId <= g.nextConflictId + 1
  {
    hide Attempt, FindConflict, VerdictOn, EvidenceIsValid, PolicyIsValid, Revalidate, Identified, Progressed, Updated,
         NewConflict, Answered, Consumed, Touched;
  }

  lemma {:induction false} RoomLeft(y: Sys, steps: seq<Step>, n: nat)
    requires Room(y.g, |steps| + n)
    ensures Room(Run(y, steps).g, n)
    decreases |steps|
  {
    hide Next, Note;
    if steps != [] {
      var front := steps[..|steps| - 1];
      RoomLeft(y, front, n + 1);
      NextCounters(Run(y, front).g, steps[|steps| - 1]);
    }
  }

  // ----- What a step does to the records of interventions -----

  /** Every record was made before the counters' values, and no two carry one attempt id. */
  ghost predicate Numbered(g: State) {
    var rs := g.engine.interventions;
    && (forall i | i in rs :: i < g.nextInterventionId && rs[i].attemptId < g.nextAttemptId)
    && (forall i, j | i in rs && j in rs && i != j :: rs[i].attemptId != rs[j].attemptId)
  }

  /** What the order was does not change; only how it fares. */
  predicate SameOrder(a: InterventionRecord, b: InterventionRecord) {
    && a.id == b.id && a.cls == b.cls && a.conflictId == b.conflictId && a.target == b.target
    && a.fence == b.fence && a.authorizedAt == b.authorizedAt && a.attemptId == b.attemptId
  }

  /** The verdict a step gives, if it gives one. */
  function StepVerdict(g: State, step: Step): (v: Option<Verdict>)
    ensures v.Some? ==> v.value.id in g.engine.interventions && step.EvidenceSubmitted?
  {
    if step.EvidenceSubmitted? && EvidenceIsValid(step.e) then VerdictOn(Recorded(g, step.e), Identified(g, step.e))
    else None
  }

  /** The steps that change the record of intervention i. */
  predicate Touches(g: State, step: Step, i: InterventionId) {
    match step
    case EpochAdvanced => true
    case AuthorizeCalled(k, cls, now) => Attempt(g, k, cls, now).Some? && i == g.nextInterventionId
    case DispatchBegun(j, now, adapters) => i == j
    case DispatchEnded(j, answer, note) => i == j
    case DispatchUnserved(j, note) => i == j
    case Acked(j, now) => i == j
    case Failed(j, note) => i == j
    case EvidenceSubmitted(e) => StepVerdict(g, step).Some? && StepVerdict(g, step).value.id == i
    case _ => false
  }

  /** The records after a step, from the records before it. */
  function RecordsAfter(g: State, step: Step): map<InterventionId, InterventionRecord> {
    var rs := g.engine.interventions;
    match step
    case EpochAdvanced => AbandonedAll(rs)
    case AuthorizeCalled(k, cls, now) =>
      (match Attempt(g, k, cls, now)
       case Some(a) => rs[g.nextInterventionId := NewIntervention(g, k, a, now)]
       case None => rs)
    case DispatchBegun(i, now, adapters) =>
      if i !in rs || !rs[i].state.Authorized? then rs
      else if MayBegin(g, i) then
        rs[i := rs[i].(state := Dispatched, dispatchId := g.nextDispatchId, dispatchedAt := now)]
      else rs[i := rs[i].(state := SupersededAction)]
    case DispatchEnded(i, answer, note) => if i in rs then rs[i := Answered(rs[i], answer, note)] else rs
    case DispatchUnserved(i, note) => if i in rs then rs[i := Answered(rs[i], Unavailable, note)] else rs
    case Acked(i, now) =>
      if i in rs && rs[i].state.Dispatched? then rs[i := rs[i].(state := Acknowledged, acknowledgedAt := now)] else rs
    case Failed(i, note) =>
      if i in rs then rs[i := rs[i].(state := FailedAction, interimStatus := Status(InterventionFailed, note))] else rs
    case EvidenceSubmitted(e) =>
      (match StepVerdict(g, step)
       case Some(v) => rs[v.id := Verified(rs[v.id], v.outcome, e.sampledAt)]
       case None => rs)
    case _ => rs
  }

  lemma SubmitRecords(g: State, e: Evidence)
    ensures Submit(g, e).engine.interventions == RecordsAfter(g, EvidenceSubmitted(e))
    ensures Ingest(g, e).engine.interventions == g.engine.interventions
  {
    hide FindConflict, VerdictOn, EvidenceIsValid, Degradation, Improvement, Progressed, Updated, NewConflict, Verified,
         Remeasured, Absolved;
  }

  lemma RecordsAfterAre(g: State, step: Step)
    ensures Next(g, step).engine.interventions == RecordsAfter(g, step)
  {
    hide Attempt, Submit, Ingest, StepVerdict, EvidenceIsValid, PolicyIsValid, Revalidate, Answered, Consumed, Touched,
         NewIntervention, Verified, AbandonedAll;
    if step.EvidenceSubmitted? || step.EvidenceIngested? {
      SubmitRecords(g, step.e);
    }
  }

  /** The conflicts after a step, from the conflicts before it. */
  function ConflictsAfter(g: State, step: Step): map<ConflictId, Conflict> {
    var cs, threshold := g.engine.conflicts, g.engine.policy.actionabilityThreshold;
    match step
    case EpochAdvanced => ReopenedAll(cs)
    case EvidenceIngested(input) =>
      if !EvidenceIsValid(input) then cs
      else
        var e := Identified(g, input);
        (match FindConflict(cs, input.domain, input.victim)
         case Some(k) => cs[k := Progressed(Updated(cs[k], e), e, threshold)]
         case None => cs[g.nextConflictId := Progressed(NewConflict(g, e), e, threshold)])
    case AuthorizeCalled(k, cls, now) =>
      if k in cs && Attempt(g, k, cls, now).Some? then
        cs[k := cs[k].(state := InterventionAuthorized, selectedIds := cs[k].selectedIds + [g.nextInterventionId],
                       lastActionAt := now)]
      else cs
    case EvidenceSubmitted(input) =>
      if !EvidenceIsValid(input) then cs
      else
        var e := Identified(g, input);
        (match FindConflict(cs, input.domain, input.victim)
         case None => cs
         case Some(k) =>
           match StepVerdict(g, step)
           case None => cs[k := Remeasured(cs[k], e)]
           case Some(v) => cs[k := Remeasured(cs[k], e).(state := ConflictStateAfter(v.outcome))])
    case _ => cs
  }

  lemma ConflictsAfterAre(g: State, step: Step)
    ensures Next(g, step).engine.conflicts == ConflictsAfter(g, step)
  {
    hide Attempt, FindConflict, VerdictOn, EvidenceIsValid, PolicyIsValid, Revalidate, Degradation, Improvement,
         Progressed, Updated, Answered, Consumed, Touched, NewIntervention, Verified, ReopenedAll, Remeasured,
         ConflictStateAfter, ClassifySeverity;
    if step.AuthorizeCalled? && Attempt(g, step.conflict, step.cls, step.now).Some? {
      AttemptNeedsConflict(g, step.conflict, step.cls, step.now);
    }
  }

  function FairnessAfter(g: State, step: Step): map<WorkloadId, FairnessRecord<real>> {
    var f := g.engine.fairness;
    match step
    case EpochAdvanced => ForgivenAll(f)
    case AuthorizeCalled(k, cls, now) =>
      (match Attempt(g, k, cls, now)
       case Some(a) => Touched(f, a.target, now)
       case None => f)
    case EvidenceSubmitted(e) =>
      (match StepVerdict(g, step)
       case Some(v) => if v.outcome.Resolved? then Absolved(f, v.target) else f
       case None => f)
    case _ => f
  }

  lemma FairnessAfterIs(g: State, step: Step)
    ensures Next(g, step).engine.fairness == FairnessAfter(g, step)
  {
    hide Attempt, FindConflict, VerdictOn, EvidenceIsValid, PolicyIsValid, Revalidate, Identified, Progressed, Updated,
         NewConflict, Answered, Consumed, Touched, NewIntervention, Verified, ForgivenAll, Absolved, Remeasured;
  }

  function PolicyAfter(g: State, step: Step): Policy {
    match step
    case PolicySet(p) => if PolicyIsValid(p) then p else g.engine.policy
    case AuthorizeCalled(k, cls, now) =>
      (match Attempt(g, k, cls, now)
       case Some(a) => g.engine.policy.(budget := Consumed(g.engine.policy.budget, a.cls, now))
       case None => g.engine.policy)
    case _ => g.engine.policy
  }

  lemma PolicyAfterIs(g: State, step: Step)
    ensures Next(g, step).engine.policy == PolicyAfter(g, step)
  {
    hide Attempt, FindConflict, VerdictOn, EvidenceIsValid, PolicyIsValid, Revalidate, Identified, Progressed, Updated,
         NewConflict, Answered, Consumed, Touched, NewIntervention, Verified, Remeasured;
  }

  lemma NoteIsShort(g: State, step: Step)
    ensures |Note(g, step)| <= 1
  {
    hide Attempt, EvidenceIsValid, Identified, VerdictOn, Recorded, MayBegin;
  }

  /** A grant is noted exactly when an authorization succeeds. */
  lemma GrantNoted(g: State, step: Step)
    ensures step.AuthorizeCalled? && Attempt(g, step.conflict, step.cls, step.now).Some?
            ==> var a := Attempt(g, step.conflict, step.cls, step.now).value;
                Note(g, step)
                == [Granting(g.nextInterventionId, g.nextAttemptId, step.conflict, a.cls, a.target, step.now)]
    ensures !(step.AuthorizeCalled? && Attempt(g, step.conflict, step.cls, step.now).Some?)
            ==> forall r :: r in Note(g, step) ==> !r.Granting?
  {
    hide Attempt, EvidenceIsValid, Identified, VerdictOn, Recorded, MayBegin;
  }

  // ----- Runs under one policy, by a clock that does not go back -----

  predicate PolicyFixed(steps: seq<Step>) {
    forall k | 0 <= k < |steps| :: !steps[k].PolicySet?
  }

  /** The authorizations are at or after `from`, in order. */
  predicate ClockRuns(steps: seq<Step>, from: TimeMs) {
    && (forall k | 0 <= k < |steps| && steps[k].AuthorizeCalled? :: from <= steps[k].now)
    && (forall j, k | 0 <= j < k < |steps| && steps[j].AuthorizeCalled?
        && steps[k].AuthorizeCalled? :: steps[j].now <= steps[k].now)
  }

  lemma FrontRuns(steps: seq<Step>, from: TimeMs)
    requires steps != []
    ensures PolicyFixed(steps) ==> PolicyFixed(steps[..|steps| - 1]) && !steps[|steps| - 1].PolicySet?
    ensures ClockRuns(steps, from) ==> ClockRuns(steps[..|steps| - 1], from)
  {
    assert forall k | 0 <= k < |steps| - 1 :: steps[..|steps| - 1][k] == steps[k];
  }

  lemma {:induction false} LogIsNoLonger(g: State, steps: seq<Step>)
    ensures |Run(Start(g), steps).log| <= |steps|
    decreases |steps|
  {
    hide Next, Note;
    if steps != [] {
      var front := steps[..|steps| - 1];
      LogIsNoLonger(g, front);
      NoteIsShort(Run(Start(g), front).g, steps[|steps| - 1]);
    }
  }

  /** No grant is later than the latest authorization. */
  lemma {:induction false} GrantsNoLater(g: State, steps: seq<Step>, t: TimeMs)
    requires forall k | 0 <= k < |steps| && steps[k].AuthorizeCalled? :: steps[k].now <= t
    ensures forall k | 0 <= k < |Run(Start(g), steps).log| && Run(Start(g), steps).log[k].Granting? ::
              Run(Start(g), steps).log[k].at <= t
    decreases |steps|
  {
    hide Next, Note, Attempt;
    if steps != [] {
      var front := steps[..|steps| - 1];
      GrantsNoLater(g, front, t);
      GrantNoted(Run(Start(g), front).g, steps[|steps| - 1]);
    }
  }

  lemma OthersUntouched(g: State, step: Step, i: InterventionId)
    requires !Touches(g, step, i)
    ensures i in Next(g, step).engine.interventions <==> i in g.engine.interventions
    ensures i in g.engine.interventions ==> Next(g, step).engine.interventions[i] == g.engine.interventions[i]
  {
    hide Next, Attempt, StepVerdict, MayBegin, Answered, NewIntervention, Verified, AbandonedAll;
    RecordsAfterAre(g, step);
  }

  /** A grant adds a record in state Authorized; nothing else adds one. */
  lemma OnlyGrantsAdd(g: State, step: Step, i: InterventionId)
    requires i !in g.engine.interventions
    ensures i in Next(g, step).engine.interventions
            <==> && step.AuthorizeCalled? && Attempt(g, step.conflict, step.cls, step.now).Some?
                 && i == g.nextInterventionId
    ensures i in Next(g, step).engine.interventions
            ==> Next(g, step).engine.interventions[i]
                == NewIntervention(g, step.conflict, Attempt(g, step.conflict, step.cls, step.now).value, step.now)
  {
    hide Next, Attempt, StepVerdict, MayBegin, Answered, NewIntervention, Verified, Abandoned;
    RecordsAfterAre(g, step);
  }

  /** A record stays, names the same order, and once it has left Authorized (or Proposed) is never back. */
  lemma RecordsStay(g: State, step: Step, i: InterventionId)
    requires i in g.engine.interventions && i != g.nextInterventionId
    ensures i in Next(g, step).engine.interventions
    ensures var a, b := g.engine.interventions[i], Next(g, step).engine.interventions[i];
            && SameOrder(a, b)
            && (b.state.Authorized? ==> a.state.Authorized?)
            && (b.state.Proposed? ==> a.state.Proposed?)
  {
    hide Next, Attempt, StepVerdict, MayBegin, NewIntervention;
    RecordsAfterAre(g, step);
  }

  lemma NumberedStays(g: State, step: Step)
    requires Numbered(g) && Room(g, 1)
    ensures Numbered(Next(g, step))
  {
    hide Next;
    NextCounters(g, step);
    var rs, ts := g.engine.interventions, Next(g, step).engine.interventions;
    forall i | i in ts
      ensures i in rs ==> ts[i].attemptId == rs[i].attemptId
      ensures i !in rs ==> i == g.nextInterventionId && ts[i].attemptId == g.nextAttemptId
      ensures i !in rs ==> Next(g, step).nextInterventionId == g.nextInterventionId + 1
      ensures i !in rs ==> Next(g, step).nextAttemptId == g.nextAttemptId + 1
    {
      if i in rs {
        RecordsStay(g, step, i);
      } else {
        OnlyGrantsAdd(g, step, i);
        GrantCounters(g, step);
      }
    }
  }

  lemma GrantCounters(g: State, step: Step)
    requires step.AuthorizeCalled? && Attempt(g, step.conflict, step.cls, step.now).Some? && Room(g, 1)
    ensures Next(g, step).nextInterventionId == g.nextInterventionId + 1
    ensures Next(g, step).nextAttemptId == g.nextAttemptId + 1
    ensures NewIntervention(g, step.conflict, Attempt(g, step.conflict, step.cls, step.now).value, step.now).attemptId
            == g.nextAttemptId
  {
    hide Attempt, Consumed, Touched;
  }

  lemma {:induction false} NumberedAlways(y: Sys, steps: seq<Step>)
    requires Numbered(y.g) && Room(y.g, |steps|)
    ensures Numbered(Run(y, steps).g)
    decreases |steps|
  {
    hide Next, Note, Numbered;
    if steps != [] {
      var front := steps[..|steps| - 1];
      NumberedAlways(y, front);
      RoomLeft(y, front, 1);
      NumberedStays(Run(y, front).g, steps[|steps| - 1]);
    }
  }
}
