/** Dispatch in every interleaving: at most once, only under the authority it was granted by, and settled for good. */
module Dispatching {
  import opened Words
  import opened Enums
  import opened Entities
  import opened Rules
  import opened Steps
  import opened Machine

  // ----- At most once -----

  /** The intervention handed to an adapter is on record under that attempt and can no longer be dispatched. */
  ghost predicate Spent(g: State, c: Record)
    requires c.Calling?
  {
    && c.id in g.engine.interventions
    && var r := g.engine.interventions[c.id];
       r.attemptId == c.attempt && !r.state.Authorized?
  }

  ghost predicate CallsSpent(y: Sys) {
    && Numbered(y.g)
    && (forall k | 0 <= k < |y.log| && y.log[k].Calling? :: Spent(y.g, y.log[k]))
    && (forall j, k | 0 <= j < k < |y.log| && y.log[j].Calling? && y.log[k].Calling? :: y.log[j].id != y.log[k].id)
  }

  /**
   When an adapter is called: there is a throttle adapter, the class is a throttling one, the record is
   Authorized and its fence is what a fence made now would be.
   */
  lemma CallIff(y: Sys, step: Step, c: Record)
    requires c.Calling?
    ensures Note(y.g, step) == [c]
            <==> && step.DispatchBegun? && step.id == c.id && c.id in y.g.engine.interventions
                 && step.adapters.WithThrottle?
                 && var r := y.g.engine.interventions[c.id];
                 && r.attemptId == c.attempt && IsThrottling(r.cls) && r.state.Authorized?
                 && Known(y.g.engine.authority, r.target)
                 && r.fence == MakeFence(y.g.engine.authority, r.fence.conflictGeneration, r.fence.evidenceGeneration,
                                         r.target, r.fence.interventionGeneration)
    ensures c in Note(y.g, step) ==> Note(y.g, step) == [c]
    ensures c in Note(y.g, step) ==> Next(y.g, step).engine.interventions[c.id].state.Dispatched?
  {
    hide Revalidate, MakeFence, Attempt, EvidenceIsValid, Identified, VerdictOn, Recorded, Unserved;
    if c.id in y.g.engine.interventions {
      var r := y.g.engine.interventions[c.id];
      RevalidateIff(y.g.engine.authority, r.fence, r.target);
      if step.DispatchBegun? {
        ServedIff(step.adapters, r.cls);
      }
    }
  }

  lemma ServedIff(adapters: Adapters, c: InterventionClass)
    ensures Unserved(adapters, c).None? <==> adapters.WithThrottle? && IsThrottling(c)
  {
  }

  lemma SpentStays(g: State, step: Step, c: Record)
    requires c.Calling? && Spent(g, c) && Numbered(g)
    ensures Spent(Next(g, step), c)
  {
    hide Next;
    RecordsStay(g, step, c.id);
  }

  lemma CallsSpentStays(y: Sys, step: Step)
    requires CallsSpent(y) && Room(y.g, 1)
    ensures CallsSpent(Apply(y, step))
  {
    hide Next, Note, Numbered, Spent;
    var z := Apply(y, step);
    if !Due(y, step) {
      return;
    }
    NumberedStays(y.g, step);
    NoteIsShort(y.g, step);
    forall k | 0 <= k < |z.log| && z.log[k].Calling?
      ensures Spent(z.g, z.log[k])
      ensures forall j | 0 <= j < k && z.log[j].Calling? :: z.log[j].id != z.log[k].id
    {
      if k < |y.log| {
        SpentStays(y.g, step, y.log[k]);
      } else {
        FirstCall(y, step, z.log[k]);
      }
    }
  }

  lemma FirstCall(y: Sys, step: Step, c: Record)
    requires c.Calling? && c in Note(y.g, step) && CallsSpent(y)
    ensures Spent(Next(y.g, step), c)
    ensures forall k | 0 <= k < |y.log| && y.log[k].Calling? :: y.log[k].id != c.id
  {
    hide Next, Note, MakeFence, Numbered;
    CallIff(y, step, c);
    assert c.id != y.g.nextInterventionId by { NumberedBelow(y.g, c.id); }
    RecordsStay(y.g, step, c.id);
  }

  lemma NumberedBelow(g: State, i: InterventionId)
    requires Numbered(g) && i in g.engine.interventions
    ensures i < g.nextInterventionId
  {
  }

  lemma {:induction false} CallsSpentAlways(g: State, steps: seq<Step>)
    requires Numbered(g) && Room(g, |steps|)
    ensures CallsSpent(Run(Start(g), steps))
    decreases |steps|
  {
    hide Apply, Numbered, Spent;
    if steps != [] {
      var front := steps[..|steps| - 1];
      CallsSpentAlways(g, front);
      RoomLeft(Start(g), front, 1);
      CallsSpentStays(Run(Start(g), front), steps[|steps| - 1]);
    }
  }

  /** In every run no intervention is handed to an adapter twice, and no attempt id is used twice. */
  lemma AtMostOnce(g: State, steps: seq<Step>, j: nat, k: nat)
    requires Numbered(g) && Room(g, |steps|)
    requires var log := Run(Start(g), steps).log; j < k < |log| && log[j].Calling? && log[k].Calling?
    ensures var log := Run(Start(g), steps).log;
            log[j].id != log[k].id && log[j].attempt != log[k].attempt
  {
    hide Run;
    CallsSpentAlways(g, steps);
    var y := Run(Start(g), steps);
    assert Spent(y.g, y.log[j]) && Spent(y.g, y.log[k]);
  }

  // ----- Over runs -----

  lemma {:induction false} RecordsStayAlways(y: Sys, steps: seq<Step>, i: InterventionId)
    requires Numbered(y.g) && Room(y.g, |steps|) && i in y.g.engine.interventions
    ensures i in Run(y, steps).g.engine.interventions
    ensures var a, b := y.g.engine.interventions[i], Run(y, steps).g.engine.interventions[i];
            && SameOrder(a, b)
            && (b.state.Authorized? ==> a.state.Authorized?) && (b.state.Proposed? ==> a.state.Proposed?)
    decreases |steps|
  {
    hide Next, Note, Numbered;
    if steps != [] {
      var front := steps[..|steps| - 1];
      RecordsStayAlways(y, front, i);
      NumberedAlways(y, front);
      NumberedBelow(Run(y, front).g, i);
      RecordsStay(Run(y, front).g, steps[|steps| - 1], i);
    }
  }

  /** The nine global generations agree, and so do the workload's generation and boot. */
  predicate SameAuthorityOver(a: AuthorityContext, b: AuthorityContext, w: WorkloadId) {
    && a.coordinatorEpoch == b.coordinatorEpoch && a.governorGeneration == b.governorGeneration
    && a.policyGeneration == b.policyGeneration && a.sloGeneration == b.sloGeneration
    && a.valueGeneration == b.valueGeneration && a.fairnessGeneration == b.fairnessGeneration
    && a.resourceGeneration == b.resourceGeneration && a.placementGeneration == b.placementGeneration
    && a.topologyGeneration == b.topologyGeneration
    && Known(a, w) && Known(b, w)
    && a.workloadGenerations[w] == b.workloadGenerations[w] && a.workloadBoots[w] == b.workloadBoots[w]
  }

  /**
   Whatever runs between, an intervention granted under one authority is called only under an
   authority that agrees with it on everything the fence covers.
   */
  lemma CalledUnderGrantingAuthority(y: Sys, k: ConflictId, cls: InterventionClass, now: TimeMs, between: seq<Step>)
    requires Numbered(y.g) && Room(y.g, |between| + 1)
    requires Attempt(y.g, k, cls, now).Some?
    requires MayBegin(Run(Apply(y, AuthorizeCalled(k, cls, now)), between).g, y.g.nextInterventionId)
    ensures var later := Run(Apply(y, AuthorizeCalled(k, cls, now)), between).g.engine.authority;
            SameAuthorityOver(y.g.engine.authority, later, Attempt(y.g, k, cls, now).value.target)
  {
    hide Run, Attempt, Numbered, Consumed, Touched, Revalidate;
    var a := Attempt(y.g, k, cls, now).value;
    var step := AuthorizeCalled(k, cls, now);
    var z, i := Apply(y, step), y.g.nextInterventionId;
    NumberedStays(y.g, step);
    NextCounters(y.g, step);
    assert i in z.g.engine.interventions && z.g.engine.interventions[i].fence == a.fence
           && z.g.engine.interventions[i].target == a.target;
    RecordsStayAlways(z, between, i);
    var later := Run(z, between).g.engine;
    var r := later.interventions[i];
    GrantedFenceIsCurrent(y.g, k, cls, now);
    RevalidateIff(y.g.engine.authority, a.fence, a.target);
    RevalidateIff(later.authority, r.fence, r.target);
  }

  lemma GrantedFenceIsCurrent(g: State, k: ConflictId, cls: InterventionClass, now: TimeMs)
    requires Attempt(g, k, cls, now).Some?
    ensures var a := Attempt(g, k, cls, now).value; Revalidate(g.engine.authority, a.fence, a.target) == Ok
  {
  }

  // ----- Dispatches under way -----

  type Records = map<InterventionId, InterventionRecord>

  /** Begun and not to be begun again. */
  predicate Begun(rs: Records, i: InterventionId) { i in rs && !rs[i].state.Authorized? }

  /** An adapter is at work on the intervention only once, and only if its class is a throttling one. */
  ghost predicate OutOnce(rs: Records, out: multiset<InterventionId>) {
    forall i | i in out :: Begun(rs, i) && IsThrottling(rs[i].cls) && out[i] == 1
  }

  /** A dispatch without an adapter is under way only once, for one reason, and with no adapter at work. */
  ghost predicate BareOnce(rs: Records, out: multiset<InterventionId>, bare: multiset<(InterventionId, Text)>) {
    && (forall i, n | (i, n) in bare :: Begun(rs, i) && bare[(i, n)] == 1 && i !in out)
    && (forall i, m, n | (i, m) in bare && (i, n) in bare :: m == n)
  }

  ghost predicate UnderWayOnce(y: Sys) {
    OutOnce(y.g.engine.interventions, y.out) && BareOnce(y.g.engine.interventions, y.out, y.bare)
  }

  /** Records stay begun and keep their class. */
  ghost predicate CarriedOn(rs: Records, ts: Records) {
    forall i | i in rs :: i in ts && ts[i].cls == rs[i].cls && (Begun(rs, i) ==> Begun(ts, i))
  }

  lemma OnceCarriedOn(rs: Records, ts: Records, out: multiset<InterventionId>, bare: multiset<(InterventionId, Text)>)
    requires CarriedOn(rs, ts) && OutOnce(rs, out) && BareOnce(rs, out, bare)
    ensures OutOnce(ts, out) && BareOnce(ts, out, bare)
  {
    hide IsThrottling;
  }

  lemma OutEnds(rs: Records, out: multiset<InterventionId>, bare: multiset<(InterventionId, Text)>, i: InterventionId)
    requires OutOnce(rs, out) && BareOnce(rs, out, bare)
    ensures OutOnce(rs, out - multiset{i}) && BareOnce(rs, out - multiset{i}, bare)
  {
    hide IsThrottling, Begun;
    assert forall j :: j in out - multiset{i} ==> j in out;
  }

  lemma BareEnds(rs: Records, out: multiset<InterventionId>, bare: multiset<(InterventionId, Text)>,
                 p: (InterventionId, Text))
    requires BareOnce(rs, out, bare)
    ensures BareOnce(rs, out, bare - multiset{p})
  {
    hide Begun;
    assert forall q :: q in bare - multiset{p} ==> q in bare;
  }

  lemma OutBegins(rs: Records, out: multiset<InterventionId>, bare: multiset<(InterventionId, Text)>, i: InterventionId)
    requires OutOnce(rs, out) && BareOnce(rs, out, bare)
    requires Begun(rs, i) && IsThrottling(rs[i].cls) && i !in out && forall n :: (i, n) !in bare
    ensures OutOnce(rs, out + multiset{i}) && BareOnce(rs, out + multiset{i}, bare)
  {
    hide IsThrottling, Begun;
  }

  lemma BareBegins(rs: Records, out: multiset<InterventionId>, bare: multiset<(InterventionId, Text)>,
                   i: InterventionId, why: Text)
    requires BareOnce(rs, out, bare) && Begun(rs, i) && i !in out && forall n :: (i, n) !in bare
    ensures BareOnce(rs, out, bare + multiset{(i, why)})
  {
    hide Begun;
    var more := bare + multiset{(i, why)};
    assert forall q :: q in more ==> q in bare || q == (i, why);
  }

  lemma AuthorizedIsNotUnderWay(y: Sys, i: InterventionId)
    requires UnderWayOnce(y) && i in y.g.engine.interventions && y.g.engine.interventions[i].state.Authorized?
    ensures i !in y.out && forall n :: (i, n) !in y.bare
  {
    hide IsThrottling;
  }

  lemma StepCarriesOn(g: State, step: Step)
    requires Numbered(g)
    ensures CarriedOn(g.engine.interventions, Next(g, step).engine.interventions)
  {
    hide Next, Numbered;
    forall i | i in g.engine.interventions
      ensures && i in Next(g, step).engine.interventions
              && Next(g, step).engine.interventions[i].cls == g.engine.interventions[i].cls
              && (Begun(g.engine.interventions, i) ==> Begun(Next(g, step).engine.interventions, i))
    {
      NumberedBelow(g, i);
      RecordsStay(g, step, i);
    }
  }

  lemma UnderWayStays(y: Sys, step: Step)
    requires UnderWayOnce(y) && Numbered(y.g)
    ensures UnderWayOnce(Apply(y, step))
  {
    hide Next, Note, Numbered, Revalidate, Unserved, IsThrottling, OutOnce, BareOnce, CarriedOn;
    if !Due(y, step) {
      return;
    }
    var rs, ts := y.g.engine.interventions, Next(y.g, step).engine.interventions;
    StepCarriesOn(y.g, step);
    OnceCarriedOn(rs, ts, y.out, y.bare);
    if step.DispatchBegun? && MayBegin(y.g, step.id) {
      var i := step.id;
      AuthorizedIsNotUnderWay(y, i);
      BegunIsDispatched(y.g, step);
      ServedIff(step.adapters, rs[i].cls);
      if HandsOver(y.g, i, step.adapters) {
        OutBegins(ts, y.out, y.bare, i);
      } else {
        BareBegins(ts, y.out, y.bare, i, Unserved(step.adapters, rs[i].cls).value);
      }
    } else if step.DispatchEnded? {
      OutEnds(ts, y.out, y.bare, step.id);
    } else if step.DispatchUnserved? {
      BareEnds(ts, y.out, y.bare, (step.id, step.note));
    }
  }

  lemma BegunIsDispatched(g: State, step: Step)
    requires step.DispatchBegun? && MayBegin(g, step.id)
    ensures step.id in Next(g, step).engine.interventions
    ensures Next(g, step).engine.interventions[step.id].state.Dispatched?
    ensures Next(g, step).engine.interventions[step.id].cls == g.engine.interventions[step.id].cls
  {
    hide Revalidate;
  }

  lemma {:induction false} UnderWayAlways(y: Sys, steps: seq<Step>)
    requires UnderWayOnce(y) && Numbered(y.g) && Room(y.g, |steps|)
    ensures UnderWayOnce(Run(y, steps))
    decreases |steps|
  {
    hide Apply, UnderWayOnce, Numbered;
    if steps != [] {
      var front := steps[..|steps| - 1];
      UnderWayAlways(y, front);
      NumberedAlways(y, front);
      UnderWayStays(Run(y, front), steps[|steps| - 1]);
    }
  }

  lemma NothingUnderWay(g: State)
    ensures UnderWayOnce(Start(g))
  {
  }

  // ----- Classes without an adapter -----

  /** In every run an intervention of another class than the throttling ones is handed to no adapter. */
  lemma {:induction false} OthersNeverCalled(y: Sys, steps: seq<Step>, i: InterventionId)
    requires Numbered(y.g) && Room(y.g, |steps|)
    requires i in y.g.engine.interventions && !IsThrottling(y.g.engine.interventions[i].cls)
    ensures y.log <= Run(y, steps).log
    ensures forall k | |y.log| <= k < |Run(y, steps).log| ::
              !(Run(y, steps).log[k].Calling? && Run(y, steps).log[k].id == i)
    decreases |steps|
  {
    hide Next, Note, Numbered, IsThrottling;
    if steps != [] {
      var front, step := steps[..|steps| - 1], steps[|steps| - 1];
      OthersNeverCalled(y, front, i);
      RecordsStayAlways(y, front, i);
      var x := Run(y, front);
      forall c | c in Note(x.g, step) && c.Calling?
        ensures c.id != i
      {
        CallIff(x, step, c);
      }
    }
  }

  /** A dispatch that finds no adapter: nothing is called. */
  lemma UnservedBegins(y: Sys, i: InterventionId, now: TimeMs, adapters: Adapters)
    requires MayBegin(y.g, i) && Unserved(adapters, y.g.engine.interventions[i].cls).Some?
    ensures var x := Apply(y, DispatchBegun(i, now, adapters));
            && x.log == y.log && x.out == y.out
            && x.bare == y.bare + multiset{(i, Unserved(adapters, y.g.engine.interventions[i].cls).value)}
            && i in x.g.engine.interventions
  {
    hide Revalidate, Unserved;
  }

  /** Its second section fails the record, whatever state it is in by then. */
  lemma UnservedEnds(y: Sys, i: InterventionId, why: Text)
    requires (i, why) in y.bare && i in y.g.engine.interventions
    ensures var z := Apply(y, DispatchUnserved(i, why));
            && z.log == y.log && z.out == y.out && z.bare == y.bare - multiset{(i, why)}
            && i in z.g.engine.interventions && z.g.engine.interventions[i].state.FailedAction?
  {
  }

  /** So a dispatch without an adapter calls none and fails the record, whatever runs between its sections. */
  lemma UnservedDispatchFails(y: Sys, i: InterventionId, now: TimeMs, adapters: Adapters, between: seq<Step>)
    requires MayBegin(y.g, i) && Unserved(adapters, y.g.engine.interventions[i].cls).Some?
    requires Numbered(y.g) && Room(y.g, |between| + 1)
    ensures var why := Unserved(adapters, y.g.engine.interventions[i].cls).value;
            var x := Apply(y, DispatchBegun(i, now, adapters));
            && x.log == y.log && x.out == y.out && (i, why) in x.bare
            && ((i, why) in Run(x, between).bare ==>
                  var z := Apply(Run(x, between), DispatchUnserved(i, why));
                  i in z.g.engine.interventions && z.g.engine.interventions[i].state.FailedAction?)
  {
    hide Run, Apply, Numbered, Revalidate, Unserved, Room;
    var step := DispatchBegun(i, now, adapters);
    var why, x := Unserved(adapters, y.g.engine.interventions[i].cls).value, Apply(y, step);
    UnservedBegins(y, i, now, adapters);
    StepKeeps(y, step, i, |between|);
    RecordsStayAlways(x, between, i);
    if (i, why) in Run(x, between).bare {
      UnservedEnds(Run(x, between), i, why);
    }
  }

  /** A failed record whose dispatch is over is failed for good. */
  ghost predicate FailedAndOver(y: Sys, i: InterventionId) {
    && i in y.g.engine.interventions && y.g.engine.interventions[i].state.FailedAction?
    && i !in y.out && forall n :: (i, n) !in y.bare
  }

  lemma FailedStep(y: Sys, step: Step, i: InterventionId)
    requires FailedAndOver(y, i) && i < y.g.nextInterventionId
    ensures FailedAndOver(Apply(y, step), i)
  {
    hide Next, Note, Revalidate, Unserved;
    SettledStateChangesIff(y, step, i);
  }

  lemma {:induction false} FailedForGood(y: Sys, steps: seq<Step>, i: InterventionId)
    requires Numbered(y.g) && Room(y.g, |steps|) && FailedAndOver(y, i)
    ensures FailedAndOver(Run(y, steps), i)
    decreases |steps|
  {
    hide Apply, Numbered, FailedAndOver;
    if steps != [] {
      var front := steps[..|steps| - 1];
      FailedForGood(y, front, i);
      NumberedAlways(y, front);
      assert i < Run(y, front).g.nextInterventionId by { FailedBelow(Run(y, front), i); }
      FailedStep(Run(y, front), steps[|steps| - 1], i);
    }
  }

  lemma FailedBelow(y: Sys, i: InterventionId)
    requires Numbered(y.g) && FailedAndOver(y, i)
    ensures i < y.g.nextInterventionId
  {
  }

  /** So once a dispatch without an adapter is over, its intervention is failed in every continuation. */
  lemma UnservedIsFailedForGood(y: Sys, i: InterventionId, why: Text, steps: seq<Step>)
    requires UnderWayOnce(y) && Numbered(y.g) && Room(y.g, |steps| + 1) && (i, why) in y.bare
    ensures FailedAndOver(Run(Apply(y, DispatchUnserved(i, why)), steps), i)
  {
    hide Run, Apply, Numbered, Room, OutOnce;
    StepKeeps(y, DispatchUnserved(i, why), i, |steps|);
    UnservedEnds(y, i, why);
    BareIsLast(y, i, why);
    FailedForGood(Apply(y, DispatchUnserved(i, why)), steps, i);
  }

  lemma BareIsLast(y: Sys, i: InterventionId, why: Text)
    requires UnderWayOnce(y) && (i, why) in y.bare
    ensures i in y.g.engine.interventions && i !in y.out
    ensures forall n :: (i, n) !in y.bare - multiset{(i, why)}
  {
    hide OutOnce;
    forall n: Text
      ensures (i, n) !in y.bare - multiset{(i, why)}
    {
      assert (i, n) in y.bare ==> n == why;
    }
  }

  // ----- Settled records -----

  predicate Settled(g: State, i: InterventionId) {
    i in g.engine.interventions && !Unsettled(g.engine.interventions[i].state)
  }

  lemma UnsettledByAcceptance(y: Sys, step: Step, i: InterventionId)
    requires Settled(y.g, i) && i < y.g.nextInterventionId
    ensures !Settled(Apply(y, step).g, i)
            <==> step.DispatchEnded? && step.id == i && step.answer.Accepted? && i in y.out
  {
    hide Next, Note, Attempt, StepVerdict, NewIntervention, MayBegin, OutAfter, BareAfter;
    RecordsAfterAre(y.g, step);
  }

  lemma OutIsThrottling(y: Sys, i: InterventionId)
    requires UnderWayOnce(y) && i in y.out
    ensures i in y.g.engine.interventions && IsThrottling(y.g.engine.interventions[i].cls)
  {
  }

  /**
   What unsettles a settled record: an adapter's acceptance that arrives after it was settled, and
   nothing else; so in every run only a record of a throttling class.
   */
  lemma UnsettledIff(y: Sys, step: Step, i: InterventionId)
    requires Settled(y.g, i) && i < y.g.nextInterventionId
    ensures !Settled(Apply(y, step).g, i)
            <==> step.DispatchEnded? && step.id == i && step.answer.Accepted? && i in y.out
    ensures UnderWayOnce(y) && !Settled(Apply(y, step).g, i) ==> IsThrottling(y.g.engine.interventions[i].cls)
  {
    hide Apply, UnderWayOnce, IsThrottling;
    UnsettledByAcceptance(y, step, i);
    if UnderWayOnce(y) && i in y.out {
      OutIsThrottling(y, i);
    }
  }

  /** The state an adapter's answer puts a record in. */
  function AnswerState(answer: AdapterOutcome): LifecycleState {
    match answer
    case Accepted => Acknowledged
    case UnknownAnswer => OutcomeUnknown
    case _ => FailedAction
  }

  /**
   What changes the state of a settled record: a failure reported on one that is not failed, call or no
   call; an answer to its own call still out that gives another state; and the end of its own dispatch
   without an adapter, if it is not failed. Nothing else does.
   */
  lemma SettledStateChangesIff(y: Sys, step: Step, i: InterventionId)
    requires Settled(y.g, i) && i < y.g.nextInterventionId
    ensures i in Apply(y, step).g.engine.interventions
    ensures var l := y.g.engine.interventions[i].state;
            Apply(y, step).g.engine.interventions[i].state != l
            <==> || (step.Failed? && step.id == i && !l.FailedAction?)
                 || (step.DispatchEnded? && step.id == i && i in y.out && AnswerState(step.answer) != l)
                 || (step.DispatchUnserved? && step.id == i && (i, step.note) in y.bare && !l.FailedAction?)
  {
    hide Next, Attempt, StepVerdict, NewIntervention, MayBegin, Verified, Note, OutAfter, BareAfter;
    RecordsAfterAre(y.g, step);
    if !Touches(y.g, step, i) {
      OthersUntouched(y.g, step, i);
    }
    if StepVerdict(y.g, step).Some? {
      VerdictIsOnOpen(y.g, step);
    }
  }

  lemma VerdictIsOnOpen(g: State, step: Step)
    requires StepVerdict(g, step).Some?
    ensures IsOpen(g.engine.interventions[StepVerdict(g, step).value.id].state)
  {
    hide FindConflict, OutcomeOf, EvidenceIsValid, Degradation, Improvement;
  }

  lemma SettledStep(y: Sys, step: Step, i: InterventionId)
    requires Settled(y.g, i) && i < y.g.nextInterventionId && i !in y.out
    ensures Settled(Apply(y, step).g, i) && i !in Apply(y, step).out
  {
    hide Next, Note, Revalidate;
    UnsettledIff(y, step, i);
  }

  /** A settled record with no adapter call out stays settled whatever follows. */
  lemma {:induction false} SettledStays(y: Sys, steps: seq<Step>, i: InterventionId)
    requires Numbered(y.g) && Room(y.g, |steps|)
    requires Settled(y.g, i) && i !in y.out
    ensures Settled(Run(y, steps).g, i) && i !in Run(y, steps).out
    decreases |steps|
  {
    hide Apply, Numbered, Settled;
    if steps != [] {
      var front := steps[..|steps| - 1];
      SettledStays(y, front, i);
      NumberedAlways(y, front);
      assert i < Run(y, front).g.nextInterventionId by { SettledBelow(Run(y, front).g, i); }
      SettledStep(Run(y, front), steps[|steps| - 1], i);
    }
  }

  lemma SettledBelow(g: State, i: InterventionId)
    requires Numbered(g) && Settled(g, i)
    ensures i < g.nextInterventionId
  {
  }

  /** The call's own answer can overwrite a failure reported meanwhile: "failed" becomes "acknowledged". */
  lemma FailureOverwritten(y: Sys, i: InterventionId, now: TimeMs, note: Text)
    requires HandsOver(y.g, i, WithThrottle)
    ensures var steps := [DispatchBegun(i, now, WithThrottle), Failed(i, note), DispatchEnded(i, Accepted, note)];
            Settled(Run(y, steps[..2]).g, i) && !Settled(Run(y, steps).g, i)
  {
    hide Next, Note, Run, Revalidate, Unserved;
    var steps := [DispatchBegun(i, now, WithThrottle), Failed(i, note), DispatchEnded(i, Accepted, note)];
    var x := Apply(y, steps[0]);
    var failed := Apply(x, steps[1]);
    RecordsAfterAre(y.g, steps[0]);
    RecordsAfterAre(x.g, steps[1]);
    RecordsAfterAre(failed.g, steps[2]);
    RunOnce(y, steps[0]);
    RunMore(y, [steps[0]], steps[1]);
    RunMore(y, steps[..2], steps[2]);
    assert [steps[0]] + [steps[1]] == steps[..2] && steps[..2] + [steps[2]] == steps;
  }

  // ----- One call at a time -----

  /** A caller's whole call: one section, or a dispatch that returns before anything else runs. */
  datatype Call =
    | Section(step: Step)
    | WholeDispatch(id: InterventionId, now: TimeMs, adapters: Adapters, answer: AdapterOutcome, note: Text)

  predicate IsHalf(step: Step) { step.DispatchBegun? || step.DispatchEnded? || step.DispatchUnserved? }

  /** Why the dispatch of i finds no adapter, if so. */
  function Lack(g: State, i: InterventionId, adapters: Adapters): Text {
    if i in g.engine.interventions then
      match Unserved(adapters, g.engine.interventions[i].cls) case Some(why) => why case None => []
    else []
  }

  function Perform(y: Sys, c: Call): Sys {
    match c
    case Section(step) => if IsHalf(step) then y else Apply(y, step)
    case WholeDispatch(i, now, adapters, answer, note) =>
      Apply(Apply(Apply(y, DispatchBegun(i, now, adapters)), DispatchEnded(i, answer, note)),
            DispatchUnserved(i, Lack(y.g, i, adapters)))
  }

  function PerformAll(y: Sys, calls: seq<Call>): Sys {
    if calls == [] then y else Perform(PerformAll(y, calls[..|calls| - 1]), calls[|calls| - 1])
  }

  /** No dispatch is under way. */
  predicate Quiet(y: Sys) { y.out == multiset{} && y.bare == multiset{} }

  lemma ServedBegins(y: Sys, i: InterventionId, now: TimeMs, adapters: Adapters)
    requires HandsOver(y.g, i, adapters)
    ensures var x := Apply(y, DispatchBegun(i, now, adapters)); x.out == y.out + multiset{i} && x.bare == y.bare
  {
    hide Next, Note, HandsOver;
  }

  lemma NothingBegins(y: Sys, i: InterventionId, now: TimeMs, adapters: Adapters)
    requires !MayBegin(y.g, i)
    ensures var x := Apply(y, DispatchBegun(i, now, adapters)); x.out == y.out && x.bare == y.bare
  {
    hide Next, Note, MayBegin;
  }

  /** The two ends of a dispatch, run one after the other, leave nothing of either kind out. */
  lemma EndsQuiet(y: Sys, i: InterventionId, answer: AdapterOutcome, note: Text, why: Text)
    requires || Quiet(y)
             || (y.out == multiset{i} && y.bare == multiset{})
             || (y.out == multiset{} && y.bare == multiset{(i, why)})
    ensures Quiet(Apply(Apply(y, DispatchEnded(i, answer, note)), DispatchUnserved(i, why)))
  {
    hide Next, Note;
    assert multiset{i} - multiset{i} == multiset{};
    assert multiset{(i, why)} - multiset{(i, why)} == multiset{};
    var z := Apply(y, DispatchEnded(i, answer, note));
    assert z.out == multiset{} && z.bare == y.bare;
  }

  lemma WholeIsQuiet(y: Sys, c: Call)
    requires Quiet(y) && c.WholeDispatch?
    ensures Quiet(Perform(y, c))
  {
    hide Apply, Revalidate, Unserved;
    var i, why := c.id, Lack(y.g, c.id, c.adapters);
    if !MayBegin(y.g, i) {
      NothingBegins(y, i, c.now, c.adapters);
    } else if HandsOver(y.g, i, c.adapters) {
      ServedBegins(y, i, c.now, c.adapters);
      assert multiset{} + multiset{i} == multiset{i};
    } else {
      UnservedBegins(y, i, c.now, c.adapters);
      assert multiset{} + multiset{(i, why)} == multiset{(i, why)};
    }
    EndsQuiet(Apply(y, DispatchBegun(i, c.now, c.adapters)), i, c.answer, c.note, why);
  }

  lemma AloneWhenServed(y: Sys, c: Call)
    requires Quiet(y) && c.WholeDispatch? && HandsOver(y.g, c.id, c.adapters)
    ensures Perform(y, c).g == DispatchEnd(DispatchBegin(y.g, c.id, c.now), c.id, c.answer, c.note)
    ensures Perform(y, c).log == y.log + [Calling(c.id, y.g.engine.interventions[c.id].attemptId)]
  {
    hide Next, Note, HandsOver, Quiet;
    assert y.out + multiset{c.id} == multiset{c.id} && y.bare == multiset{} by { QuietIs(y); }
    var x := Apply(y, DispatchBegun(c.id, c.now, c.adapters));
    ServedBegins(y, c.id, c.now, c.adapters);
    ServedBegun(y.g, c.id, c.now, c.adapters);
    EndsServed(x, c.id, c.answer, c.note, Lack(y.g, c.id, c.adapters));
  }

  lemma QuietIs(y: Sys)
    requires Quiet(y)
    ensures y.out == multiset{} && y.bare == multiset{}
  {
  }

  lemma ServedBegun(g: State, i: InterventionId, now: TimeMs, adapters: Adapters)
    requires HandsOver(g, i, adapters)
    ensures Next(g, DispatchBegun(i, now, adapters)) == DispatchBegin(g, i, now)
    ensures Note(g, DispatchBegun(i, now, adapters)) == [Calling(i, g.engine.interventions[i].attemptId)]
  {
    hide DispatchBegin, Revalidate, Unserved;
  }

  lemma EndsServed(y: Sys, i: InterventionId, answer: AdapterOutcome, note: Text, why: Text)
    requires y.out == multiset{i} && y.bare == multiset{}
    ensures var z := Apply(Apply(y, DispatchEnded(i, answer, note)), DispatchUnserved(i, why));
            z.g == DispatchEnd(y.g, i, answer, note) && z.log == y.log
  {
    hide DispatchEnd;
  }

  lemma AloneWhenUnserved(y: Sys, c: Call)
    requires Quiet(y) && c.WholeDispatch? && MayBegin(y.g, c.id) && !HandsOver(y.g, c.id, c.adapters)
    ensures Perform(y, c).g
            == DispatchEnd(DispatchBegin(y.g, c.id, c.now), c.id, Unavailable, Lack(y.g, c.id, c.adapters))
    ensures Perform(y, c).log == y.log
  {
    hide DispatchBegin, DispatchEnd, Revalidate, Unserved;
    assert y.bare + multiset{(c.id, Lack(y.g, c.id, c.adapters))} == multiset{(c.id, Lack(y.g, c.id, c.adapters))};
  }

  lemma AloneWhenRefused(y: Sys, c: Call)
    requires Quiet(y) && c.WholeDispatch? && !MayBegin(y.g, c.id)
    ensures Perform(y, c).g == DispatchBegin(y.g, c.id, c.now) && Perform(y, c).log == y.log
  {
    hide DispatchBegin, DispatchEnd, MayBegin;
  }

  /** A dispatch during which nothing else runs does what the method does, and calls an adapter if it finds one. */
  lemma WholeIsAlone(y: Sys, c: Call)
    requires Quiet(y) && c.WholeDispatch?
    ensures Perform(y, c).g == DispatchAlone(y.g, c.id, c.now, c.adapters, c.answer, c.note)
    ensures Perform(y, c).log == y.log + if HandsOver(y.g, c.id, c.adapters)
                                         then [Calling(c.id, y.g.engine.interventions[c.id].attemptId)] else []
  {
    hide Perform, Quiet, DispatchBegin, DispatchEnd, Revalidate, Unserved;
    if !MayBegin(y.g, c.id) {
      AloneWhenRefused(y, c);
    } else if HandsOver(y.g, c.id, c.adapters) {
      AloneWhenServed(y, c);
    } else {
      AloneWhenUnserved(y, c);
    }
  }

  lemma PerformIsQuiet(y: Sys, c: Call)
    requires Quiet(y)
    ensures Quiet(Perform(y, c))
  {
    hide Next, Note, MayBegin, Unserved;
    if c.WholeDispatch? {
      WholeIsQuiet(y, c);
    }
  }

  /** What keeps a step from unsettling i. */
  lemma StepKeeps(y: Sys, step: Step, i: InterventionId, n: nat)
    requires Numbered(y.g) && Room(y.g, 1 + n)
    ensures Numbered(Apply(y, step).g) && Room(Apply(y, step).g, n)
    ensures Settled(y.g, i) && i !in y.out ==> Settled(Apply(y, step).g, i) && i !in Apply(y, step).out
  {
    hide Next, Note, Numbered, Settled, Room, OutAfter, BareAfter;
    LessRoom(y.g, 1 + n, 1);
    LessRoom(y.g, 1 + n, n);
    NumberedStays(y.g, step);
    AfterOne(y.g, step, n);
    if Settled(y.g, i) && i !in y.out {
      SettledBelow(y.g, i);
      SettledStep(y, step, i);
    }
  }

  lemma PerformKeeps(y: Sys, c: Call, i: InterventionId, n: nat)
    requires Numbered(y.g) && Room(y.g, 3 + n) && Quiet(y)
    ensures var z := Perform(y, c); Numbered(z.g) && Room(z.g, n) && Quiet(z)
    ensures Settled(y.g, i) ==> Settled(Perform(y, c).g, i)
  {
    hide Apply, Numbered, Settled, Room, Quiet;
    PerformIsQuiet(y, c);
    assert i !in y.out by { QuietMeans(y, i); }
    LessRoom(y.g, 3 + n, n);
    match c
    case Section(step) =>
      StepKeeps(y, step, i, 2 + n);
      LessRoom(Apply(y, step).g, 2 + n, n);
    case WholeDispatch(j, now, adapters, answer, note) =>
      var y1 := Apply(y, DispatchBegun(j, now, adapters));
      var y2 := Apply(y1, DispatchEnded(j, answer, note));
      StepKeeps(y, DispatchBegun(j, now, adapters), i, 2 + n);
      StepKeeps(y1, DispatchEnded(j, answer, note), i, 1 + n);
      StepKeeps(y2, DispatchUnserved(j, Lack(y.g, j, adapters)), i, n);
  }

  lemma QuietMeans(y: Sys, i: InterventionId)
    requires Quiet(y)
    ensures i !in y.out
  {
  }

  lemma AfterOne(g: State, step: Step, n: nat)
    requires Room(g, 1 + n)
    ensures Room(Next(g, step), n)
  {
    hide Next;
    NextCounters(g, step);
  }

  lemma LessRoom(g: State, m: nat, n: nat)
    requires Room(g, m) && n <= m
    ensures Room(g, n)
  {
  }

  /** When every dispatch returns before the next call, what is settled is settled for good. */
  lemma {:induction false} SettledForGood(y: Sys, calls: seq<Call>, i: InterventionId, n: nat)
    requires Numbered(y.g) && Room(y.g, 3 * |calls| + n) && Quiet(y)
    ensures var z := PerformAll(y, calls); Numbered(z.g) && Room(z.g, n) && Quiet(z)
    ensures Settled(y.g, i) ==> Settled(PerformAll(y, calls).g, i)
    decreases |calls|
  {
    hide Perform, Numbered, Settled, Room, Quiet;
    if calls != [] {
      var front := calls[..|calls| - 1];
      SettledForGood(y, front, i, 3 + n);
      PerformKeeps(PerformAll(y, front), calls[|calls| - 1], i, n);
    } else {
      LessRoom(y.g, 3 * |calls| + n, n);
    }
  }
}
