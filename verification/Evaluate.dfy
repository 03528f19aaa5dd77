/** The decision on one conflict: which intervention, if any, on which workload. */
module Evaluate {
  import opened Words
  import opened Enums
  import opened Entities
  import opened Rules
  import opened Ranking

  datatype Evaluation = Evaluation(
    conflictId: ConflictId,
    state: ConflictState,
    binding: BindingObjective,
    degradation: real,
    severity: Severity,
    candidates: seq<Candidate>,
    rejected: seq<Rejection>,
    decision: Option<Candidate>,
    code: StatusCode)

  /** Why something was ruled out. */
  datatype Reason =
    | NotCurrent(status: EvidenceStatus)
    | InvalidStructure
    | NothingUsable
    | WeakAttribution(attribution: AttributionStrength)
    | LowConfidence
    | HasConfounders
    | BelowThreshold
    | NoAssociated

  datatype Rejection = Rejection(cls: InterventionClass, reason: Reason)

  /** The classes candidates are built for, in the order they are tried. */
  const ELIGIBLE: seq<InterventionClass> :=
    [Throttle, ReduceConcurrency, ReduceBatch, Serialize, TimeSlice, RequestPreemption, RequestMigration,
     RequestReplacement, ChangePlacement, RequestBandwidthReallocation, RequestCommunicationReplan,
     RequestCollectiveReschedule, ReleaseOptionalResidency, ReduceMemoryPressure, DeferNewWork,
     ShedLowValueWork, ProtectHighValueWork]

  // ----- Gates -----

  predicate Usable(e: Evidence) { e.status == Current && StructurallyValid(e) }

  function UsableEvidence(s: Engine, ids: seq<EvidenceId>): seq<Evidence> {
    if ids == [] then []
    else
      var last := ids[|ids| - 1];
      UsableEvidence(s, ids[..|ids| - 1])
      + if last in s.evidence && Usable(s.evidence[last]) then [s.evidence[last]] else []
  }

  /** Evidence strong enough for an intervention. */
  predicate Attributable(p: Policy, e: Evidence) {
    && AttributionOrd(e.attribution) >= AttributionOrd(p.minAttributionForDisruptive)
    && e.confidence >= p.minConfidenceForDisruptive
    && e.unresolvedConfounders == []
  }

  /** Why no candidate is built, if so. */
  function Refusal(p: Policy, c: Conflict, usable: seq<Evidence>): Option<(ConflictState, StatusCode)> {
    if usable == [] then Some((UnknownConflict, InsufficientEvidence))
    else if c.degradation < p.actionabilityThreshold then Some((UnknownConflict, InsufficientEvidence))
    else if c.associated == [] then Some((Unresolved, ConfoundedEvidence))
    else if !Attributable(p, usable[0]) then Some((Unresolved, InsufficientEvidence))
    else None
  }

  /** One entry for each piece of evidence on record that cannot be used. */
  function RejectedEvidence(s: Engine, ids: seq<EvidenceId>): seq<Rejection> {
    if ids == [] then []
    else
      var last := ids[|ids| - 1];
      RejectedEvidence(s, ids[..|ids| - 1])
      + if last !in s.evidence || Usable(s.evidence[last]) then []
        else [Rejection(NoAction, if s.evidence[last].status != Current then NotCurrent(s.evidence[last].status)
                                  else InvalidStructure)]
  }

  /** One entry for each way the evidence is too weak. */
  function Weaknesses(p: Policy, e: Evidence): seq<Rejection> {
    (if AttributionOrd(e.attribution) < AttributionOrd(p.minAttributionForDisruptive)
     then [Rejection(NoAction, WeakAttribution(e.attribution))] else [])
    + (if e.confidence < p.minConfidenceForDisruptive then [Rejection(NoAction, LowConfidence)] else [])
    + (if e.unresolvedConfounders != [] then [Rejection(NoAction, HasConfounders)] else [])
  }

  function Rejections(s: Engine, c: Conflict, usable: seq<Evidence>): seq<Rejection> {
    RejectedEvidence(s, c.evidenceIds)
    + if usable == [] then [Rejection(NoAction, NothingUsable)]
      else
        Weaknesses(s.policy, usable[0])
        + if c.degradation < s.policy.actionabilityThreshold then [Rejection(NoAction, BelowThreshold)]
          else if c.associated == [] then [Rejection(ObserveMore, NoAssociated)]
          else []
  }

  // ----- Candidates -----

  /** The generations a candidate's fence is made with. */
  datatype Origin = Origin(ctx: AuthorityContext, conflict: Generation, evidence: Generation)

  function Built(s: Engine, o: Origin, target: WorkloadId, cls: InterventionClass): Candidate {
    MakeCandidate(cls, target, Feasible(s, target, cls, MakeFence(o.ctx, o.conflict, o.evidence, target, 1)))
  }

  function CandidatesFor(s: Engine, o: Origin, target: WorkloadId, classes: seq<InterventionClass>): seq<Candidate> {
    if classes == [] then []
    else
      var last := classes[|classes| - 1];
      CandidatesFor(s, o, target, classes[..|classes| - 1])
      + if ClassEligible(s.policy, last) then [Built(s, o, target, last)] else []
  }

  function AllCandidates(s: Engine, o: Origin, targets: seq<WorkloadId>,
                         classes: seq<InterventionClass>): seq<Candidate> {
    if targets == [] then []
    else
      AllCandidates(s, o, targets[..|targets| - 1], classes)
      + CandidatesFor(s, o, targets[|targets| - 1], classes)
  }

  function FeasibleOnes(cs: seq<Candidate>): seq<Candidate> {
    if cs == [] then []
    else
      var last := cs[|cs| - 1];
      FeasibleOnes(cs[..|cs| - 1]) + if last.feasible then [last] else []
  }

  function Choose(p: Policy, cs: seq<Candidate>): Option<Candidate> {
    var fs := FeasibleOnes(cs);
    if fs == [] then None else Some(Best(p, fs))
  }

  // ----- The targets in ascending order -----

  function Insert(x: WorkloadId, xs: seq<WorkloadId>): seq<WorkloadId> {
    if xs == [] then [x]
    else if xs[|xs| - 1] <= x then xs + [x]
    else Insert(x, xs[..|xs| - 1]) + [xs[|xs| - 1]]
  }

  function SortIds(xs: seq<WorkloadId>): seq<WorkloadId> {
    if xs == [] then [] else Insert(xs[|xs| - 1], SortIds(xs[..|xs| - 1]))
  }

  ghost predicate NonDecreasing(xs: seq<WorkloadId>) {
    forall i, j :: 0 <= i < j < |xs| ==> xs[i] <= xs[j]
  }

  lemma NonDecreasingAppend(xs: seq<WorkloadId>, y: WorkloadId)
    requires NonDecreasing(xs)
    requires forall x :: x in xs ==> x <= y
    ensures NonDecreasing(xs + [y])
  {
    forall i, j | 0 <= i < j < |xs| + 1
      ensures (xs + [y])[i] <= (xs + [y])[j]
    {
      assert xs[i] in xs;
    }
  }

  lemma {:induction false} InsertSorts(x: WorkloadId, xs: seq<WorkloadId>)
    requires NonDecreasing(xs)
    ensures NonDecreasing(Insert(x, xs))
    ensures multiset(Insert(x, xs)) == multiset(xs) + multiset{x}
    decreases |xs|
  {
    if xs != [] {
      hide NonDecreasing;
      var front, last := xs[..|xs| - 1], xs[|xs| - 1];
      assert xs == front + [last];
      FrontBelowLast(front, last);
      if last <= x {
        NonDecreasingAppend(xs, x);
      } else {
        InsertSorts(x, front);
        var ys := Insert(x, front);
        forall y | y in ys
          ensures y <= last
        {
          assert y in multiset(ys);
          assert y in front || y == x;
        }
        NonDecreasingAppend(ys, last);
      }
    }
  }

  lemma FrontBelowLast(front: seq<WorkloadId>, last: WorkloadId)
    requires NonDecreasing(front + [last])
    ensures NonDecreasing(front)
    ensures forall y :: y in front ==> y <= last
  {
    var xs := front + [last];
    forall i, j | 0 <= i < j < |front|
      ensures front[i] <= front[j]
    {
      assert xs[i] <= xs[j];
    }
    forall i | 0 <= i < |front|
      ensures front[i] <= last
    {
      assert xs[i] <= xs[|front|];
    }
  }

  lemma {:induction false} SortIdsSorts(xs: seq<WorkloadId>)
    ensures NonDecreasing(SortIds(xs))
    ensures multiset(SortIds(xs)) == multiset(xs)
    decreases |xs|
  {
    if xs != [] {
      assert xs == xs[..|xs| - 1] + [xs[|xs| - 1]];
      SortIdsSorts(xs[..|xs| - 1]);
      InsertSorts(xs[|xs| - 1], SortIds(xs[..|xs| - 1]));
    }
  }

  lemma SortIdsKeeps(xs: seq<WorkloadId>)
    ensures forall x :: x in SortIds(xs) <==> x in xs
    ensures |SortIds(xs)| == |xs|
  {
    hide SortIds;
    SortIdsSorts(xs);
    forall x
      ensures x in SortIds(xs) <==> x in xs
    {
      assert x in SortIds(xs) <==> x in multiset(SortIds(xs));
      assert x in xs <==> x in multiset(xs);
    }
    assert |SortIds(xs)| == |multiset(SortIds(xs))|;
  }

  // ----- Evaluation -----

  function Evaluate(s: Engine, id: ConflictId, ctx: AuthorityContext): Evaluation {
    if id !in s.conflicts then
      Evaluation(id, UnknownConflict, UnknownObjective, 0.0, UnknownSeverity, [], [], None, InvalidInput)
    else
      var c := s.conflicts[id];
      var usable := UsableEvidence(s, c.evidenceIds);
      var rejected := Rejections(s, c, usable);
      var blank := Evaluation(id, c.state, c.binding, c.degradation, c.severity, [], rejected, None, Ok);
      match Refusal(s.policy, c, usable)
      case Some(why) => blank.(state := why.0, code := why.1)
      case None =>
        var o := Origin(ctx, c.generation, usable[0].generation);
        var cs := AllCandidates(s, o, SortIds(c.associated), ELIGIBLE);
        match Choose(s.policy, cs)
        case Some(d) => blank.(state := Actionable, candidates := cs, decision := Some(d))
        case None => blank.(state := Unresolved, candidates := cs, code := NoLegalIntervention)
  }

  // ----- What the candidates are -----

  /** A candidate, whatever order targets and classes are gone through in. */
  predicate IsCandidate(s: Engine, o: Origin, targets: seq<WorkloadId>, classes: seq<InterventionClass>, c: Candidate) {
    c.target in targets && c.cls in classes && ClassEligible(s.policy, c.cls) && c == Built(s, o, c.target, c.cls)
  }

  lemma {:induction false} CandidatesForAre(s: Engine, o: Origin, target: WorkloadId,
                                            classes: seq<InterventionClass>, c: Candidate)
    ensures c in CandidatesFor(s, o, target, classes) <==> IsCandidate(s, o, [target], classes, c)
    decreases |classes|
  {
    hide ClassEligible, Feasible, DefaultEffect, MakeFence;
    if classes != [] {
      var front, last := classes[..|classes| - 1], classes[|classes| - 1];
      assert classes == front + [last];
      CandidatesForAre(s, o, target, front, c);
      assert c.cls in classes <==> c.cls in front || c.cls == last;
    }
  }

  lemma {:induction false} AllCandidatesAre(s: Engine, o: Origin, targets: seq<WorkloadId>,
                                            classes: seq<InterventionClass>, c: Candidate)
    ensures c in AllCandidates(s, o, targets, classes) <==> IsCandidate(s, o, targets, classes, c)
    decreases |targets|
  {
    hide ClassEligible, Built, CandidatesFor;
    if targets != [] {
      var front, last := targets[..|targets| - 1], targets[|targets| - 1];
      assert targets == front + [last];
      AllCandidatesAre(s, o, front, classes, c);
      CandidatesForAre(s, o, last, classes, c);
      assert c.target in targets <==> c.target in front || c.target == last;
    }
  }

  lemma {:induction false} FeasibleOnesAre(cs: seq<Candidate>, c: Candidate)
    ensures c in FeasibleOnes(cs) <==> c in cs && c.feasible
    decreases |cs|
  {
    if cs != [] {
      assert cs == cs[..|cs| - 1] + [cs[|cs| - 1]];
      FeasibleOnesAre(cs[..|cs| - 1], c);
    }
  }

  /** Feasible candidates are told apart by class and target. */
  lemma FeasibleOnesCoherent(s: Engine, o: Origin, targets: seq<WorkloadId>, classes: seq<InterventionClass>)
    ensures Coherent(set c | c in FeasibleOnes(AllCandidates(s, o, targets, classes)))
  {
    hide AllCandidates, FeasibleOnes, Built, ClassEligible;
    var cs := AllCandidates(s, o, targets, classes);
    forall a, b | a in FeasibleOnes(cs) && b in FeasibleOnes(cs) && a.cls == b.cls && a.target == b.target
      ensures a == b
    {
      FeasibleOnesAre(cs, a);
      FeasibleOnesAre(cs, b);
      AllCandidatesAre(s, o, targets, classes, a);
      AllCandidatesAre(s, o, targets, classes, b);
    }
  }

  // ----- What the decision is -----

  /**
   The choice is a feasible candidate that no feasible candidate is ranked before, and there is no
   other; none is chosen exactly when no candidate is feasible.
   */
  lemma ChoiceIff(s: Engine, o: Origin, targets: seq<WorkloadId>, classes: seq<InterventionClass>, d: Candidate)
    ensures Choose(s.policy, AllCandidates(s, o, targets, classes)) == Some(d)
            <==> && IsCandidate(s, o, targets, classes, d) && d.feasible
                 && forall c :: IsCandidate(s, o, targets, classes, c) && c.feasible ==> !Better(s.policy, c, d)
    ensures Choose(s.policy, AllCandidates(s, o, targets, classes)).None?
            <==> forall c :: IsCandidate(s, o, targets, classes, c) ==> !c.feasible
  {
    hide AllCandidates, FeasibleOnes, IsCandidate, Better, Best;
    var cs := AllCandidates(s, o, targets, classes);
    var fs := FeasibleOnes(cs);
    forall c
      ensures c in fs <==> IsCandidate(s, o, targets, classes, c) && c.feasible
    {
      FeasibleOnesAre(cs, c);
      AllCandidatesAre(s, o, targets, classes, c);
    }
    if fs != [] {
      FeasibleOnesCoherent(s, o, targets, classes);
      BestIsUnbeaten(s.policy, fs);
      if d in fs && forall c :: c in fs ==> !Better(s.policy, c, d) {
        BestIsUnique(s.policy, fs, d);
      }
      assert fs[0] in fs;
    }
  }

  /** All a decision on the conflict reads, the budget and the order and repetition of its workloads aside. */
  ghost predicate SameInputs(s: Engine, t: Engine, id: ConflictId) {
    && s.policy.(budget := t.policy.budget) == t.policy
    && s.evidence == t.evidence && s.authority == t.authority
    && (id in s.conflicts <==> id in t.conflicts)
    && (id in s.conflicts ==>
         && var c, d := s.conflicts[id], t.conflicts[id];
         && c.generation == d.generation && c.degradation == d.degradation && c.evidenceIds == d.evidenceIds
         && (forall w :: w in c.associated <==> w in d.associated)
         && (forall w :: w in c.associated ==> AtCap(s, w) == AtCap(t, w)))
  }

  lemma {:induction false} UsableEvidenceDependsOn(s: Engine, t: Engine, ids: seq<EvidenceId>)
    requires s.evidence == t.evidence
    ensures UsableEvidence(s, ids) == UsableEvidence(t, ids)
    decreases |ids|
  {
    if ids != [] {
      UsableEvidenceDependsOn(s, t, ids[..|ids| - 1]);
    }
  }

  lemma BuiltDependsOn(s: Engine, t: Engine, o: Origin, w: WorkloadId, cls: InterventionClass)
    requires s.policy.(budget := t.policy.budget) == t.policy && s.authority == t.authority
    requires AtCap(s, w) == AtCap(t, w)
    ensures Built(s, o, w, cls) == Built(t, o, w, cls)
    ensures ClassEligible(s.policy, cls) == ClassEligible(t.policy, cls)
  {
    hide MakeCandidate, MakeFence, Revalidate, AtCap, Permitted;
    assert WorkloadPolicyFor(s.policy, w) == WorkloadPolicyFor(t.policy, w);
    PermittedIgnoresBudget(s.policy, t.policy, WorkloadPolicyFor(s.policy, w), cls);
  }

  lemma PermittedIgnoresBudget(p: Policy, q: Policy, wp: WorkloadPolicy<real>, cls: InterventionClass)
    requires p.(budget := q.budget) == q
    ensures Permitted(p, wp, cls) == Permitted(q, wp, cls)
    ensures ClassEligible(p, cls) == ClassEligible(q, cls)
  {
    hide IsThrottling;
  }

  /** The choice does not depend on the order, or the repetition, of targets or classes. */
  lemma ChoiceIgnoresOrder(s: Engine, t: Engine, o: Origin, us: seq<WorkloadId>, vs: seq<WorkloadId>,
                           cs: seq<InterventionClass>, ds: seq<InterventionClass>)
    requires s.policy.(budget := t.policy.budget) == t.policy && s.authority == t.authority
    requires forall w :: w in us <==> w in vs
    requires forall w :: w in us ==> AtCap(s, w) == AtCap(t, w)
    requires forall c :: c in cs <==> c in ds
    ensures Choose(s.policy, AllCandidates(s, o, us, cs)) == Choose(t.policy, AllCandidates(t, o, vs, ds))
  {
    hide Choose, AllCandidates, Built, ClassEligible, AtCap, Better;
    forall c
      ensures IsCandidate(s, o, us, cs, c) == IsCandidate(t, o, vs, ds, c)
    {
      if c.target in us {
        BuiltDependsOn(s, t, o, c.target, c.cls);
      }
    }
    forall a, b
      ensures Better(s.policy, a, b) == Better(t.policy, a, b)
    {
      BetterIgnoresBudget(s.policy, t.policy, a, b);
    }
    match Choose(s.policy, AllCandidates(s, o, us, cs))
    case Some(d) =>
      ChoiceIff(s, o, us, cs, d);
      ChoiceIff(t, o, vs, ds, d);
    case None =>
      ChoiceIff(s, o, us, cs, MakeCandidate(NoAction, 0, false));
      ChoiceIff(t, o, vs, ds, MakeCandidate(NoAction, 0, false));
  }

  lemma BetterIgnoresBudget(p: Policy, q: Policy, a: Candidate, b: Candidate)
    requires p.(budget := q.budget) == q
    ensures Better(p, a, b) == Better(q, a, b)
  {
    hide ClassIndex, ClassOrd;
    assert WorkloadPolicyFor(p, a.target) == WorkloadPolicyFor(q, a.target);
    assert WorkloadPolicyFor(p, b.target) == WorkloadPolicyFor(q, b.target);
  }

  /** The decision depends on nothing else: not on the order or repetition of the conflict's associated workloads. */
  lemma DecisionDependsOn(s: Engine, t: Engine, id: ConflictId, ctx: AuthorityContext)
    requires SameInputs(s, t, id)
    ensures Evaluate(s, id, ctx).decision == Evaluate(t, id, ctx).decision
  {
    hide UsableEvidence, Rejections, AllCandidates, Choose, SortIds, AtCap, ELIGIBLE;
    if id in s.conflicts {
      var c, d := s.conflicts[id], t.conflicts[id];
      var usable := UsableEvidence(s, c.evidenceIds);
      UsableEvidenceDependsOn(s, t, c.evidenceIds);
      SortIdsKeeps(c.associated);
      SortIdsKeeps(d.associated);
      SameGate(s.policy, c, t.policy, d, usable);
      if usable != [] {
        ChoiceIgnoresOrder(s, t, Origin(ctx, c.generation, usable[0].generation),
                           SortIds(c.associated), SortIds(d.associated), ELIGIBLE, ELIGIBLE);
      }
    }
  }

  lemma SameGate(p: Policy, c: Conflict, q: Policy, d: Conflict, usable: seq<Evidence>)
    requires p.(budget := q.budget) == q && c.degradation == d.degradation
    requires forall w :: w in c.associated <==> w in d.associated
    ensures Refusal(p, c, usable) == Refusal(q, d, usable)
  {
    assert c.associated == [] <==> d.associated == [] by {
      if c.associated != [] { assert c.associated[0] in d.associated; }
      if d.associated != [] { assert d.associated[0] in c.associated; }
    }
  }

  /** Nothing chosen means nothing feasible: looking for another feasible candidate then finds none. */
  lemma NoDecisionNoFeasible(s: Engine, id: ConflictId, ctx: AuthorityContext)
    requires Evaluate(s, id, ctx).decision.None?
    ensures forall c :: c in Evaluate(s, id, ctx).candidates ==> !c.feasible
  {
    hide UsableEvidence, Rejections, AllCandidates, FeasibleOnes, SortIds, Refusal, ELIGIBLE;
    var cs := Evaluate(s, id, ctx).candidates;
    forall c | c in cs
      ensures !c.feasible
    {
      FeasibleOnesAre(cs, c);
    }
  }

  /** The first usable evidence of the conflict, which its candidates' fences name. */
  function PrimaryOrigin(s: Engine, c: Conflict, ctx: AuthorityContext): Origin
    requires UsableEvidence(s, c.evidenceIds) != []
  {
    Origin(ctx, c.generation, UsableEvidence(s, c.evidenceIds)[0].generation)
  }

  /**
   The whole decision: one is made exactly when the conflict passes every gate and some associated
   workload admits some class, and it is then the feasible pair no other is ranked before.
   */
  lemma DecisionIff(s: Engine, id: ConflictId, ctx: AuthorityContext, d: Candidate)
    ensures Evaluate(s, id, ctx).decision == Some(d)
            <==> && id in s.conflicts
                 && var c := s.conflicts[id];
                 && Refusal(s.policy, c, UsableEvidence(s, c.evidenceIds)).None?
                 && var o := PrimaryOrigin(s, c, ctx);
                 && IsCandidate(s, o, c.associated, ELIGIBLE, d) && d.feasible
                 && forall e :: IsCandidate(s, o, c.associated, ELIGIBLE, e) && e.feasible ==> !Better(s.policy, e, d)
  {
    hide UsableEvidence, Rejections, AllCandidates, Choose, SortIds, Attributable, ELIGIBLE, Built, ClassEligible,
        Better;
    if id in s.conflicts {
      var c := s.conflicts[id];
      var usable := UsableEvidence(s, c.evidenceIds);
      if Refusal(s.policy, c, usable).None? {
        var o := PrimaryOrigin(s, c, ctx);
        SortIdsKeeps(c.associated);
        ChoiceIff(s, o, SortIds(c.associated), ELIGIBLE, d);
        forall e
          ensures IsCandidate(s, o, c.associated, ELIGIBLE, e) == IsCandidate(s, o, SortIds(c.associated), ELIGIBLE, e)
        {
        }
      }
    }
  }

  /** Among the targets on which the chosen class is feasible, the chosen one has least value, then least id. */
  lemma ChosenTargetIsLeast(s: Engine, id: ConflictId, ctx: AuthorityContext, d: Candidate, w: WorkloadId)
    requires Evaluate(s, id, ctx).decision == Some(d)
    requires w in s.conflicts[id].associated
    requires Built(s, PrimaryOrigin(s, s.conflicts[id], ctx), w, d.cls).feasible
    ensures var v := (x: WorkloadId) => WorkloadPolicyFor(s.policy, x).value;
            v(d.target) < v(w) || (v(d.target) == v(w) && d.target <= w)
  {
    hide UsableEvidence, Evaluate, Feasible, Attributable, MakeFence, WorkloadPolicyFor, DefaultEffect, ELIGIBLE,
         ClassEligible, ClassIndex, ClassOrd;
    DecisionIff(s, id, ctx, d);
    var o := PrimaryOrigin(s, s.conflicts[id], ctx);
    var e := Built(s, o, w, d.cls);
    assert IsCandidate(s, o, s.conflicts[id].associated, ELIGIBLE, e);
    assert !Better(s.policy, e, d);
  }

  /**
   Releasing optional residency is always eligible and permitted, so a conflict that passes the gates
   lacks a decision only when every associated workload is unknown to the authority or at the cap.
   */
  lemma DecisionExistsIff(s: Engine, id: ConflictId)
    ensures Evaluate(s, id, s.authority).decision.Some?
            <==> && id in s.conflicts
                 && Refusal(s.policy, s.conflicts[id], UsableEvidence(s, s.conflicts[id].evidenceIds)).None?
                 && exists w :: w in s.conflicts[id].associated && Known(s.authority, w) && !AtCap(s, w)
  {
    hide UsableEvidence, Rejections, AllCandidates, Choose, SortIds, Attributable, ELIGIBLE, AtCap, Known, IsCandidate;
    if id in s.conflicts {
      var c := s.conflicts[id];
      var usable := UsableEvidence(s, c.evidenceIds);
      if Refusal(s.policy, c, usable).None? {
        var o := PrimaryOrigin(s, c, s.authority);
        SortIdsKeeps(c.associated);
        ChoiceIff(s, o, SortIds(c.associated), ELIGIBLE, MakeCandidate(NoAction, 0, false));
        SomeTargetServes(s, o, SortIds(c.associated));
      }
    }
  }

  /** Some candidate is feasible exactly when some target is known and below the cap. */
  lemma SomeTargetServes(s: Engine, o: Origin, targets: seq<WorkloadId>)
    requires o.ctx == s.authority
    ensures (exists c :: IsCandidate(s, o, targets, ELIGIBLE, c) && c.feasible)
            <==> exists w :: w in targets && Known(s.authority, w) && !AtCap(s, w)
  {
    hide DefaultEffect, AtCap, Known, ELIGIBLE;
    forall w, cls
      ensures Built(s, o, w, cls).feasible ==> Known(s.authority, w) && !AtCap(s, w)
      ensures Known(s.authority, w) && !AtCap(s, w) ==> Built(s, o, w, ReleaseOptionalResidency).feasible
    {
      ServesIff(s, o, w, cls);
    }
    ReleaseIsTried();
    if w :| w in targets && Known(s.authority, w) && !AtCap(s, w) {
      assert IsCandidate(s, o, targets, ELIGIBLE, Built(s, o, w, ReleaseOptionalResidency));
    }
  }

  lemma ReleaseIsTried()
    ensures ReleaseOptionalResidency in ELIGIBLE
  {
    assert ELIGIBLE[12] == ReleaseOptionalResidency;
  }

  lemma ServesIff(s: Engine, o: Origin, w: WorkloadId, cls: InterventionClass)
    requires o.ctx == s.authority
    ensures Built(s, o, w, cls).feasible ==> Known(s.authority, w) && !AtCap(s, w)
    ensures Known(s.authority, w) && !AtCap(s, w) ==> Built(s, o, w, ReleaseOptionalResidency).feasible
  {
    hide DefaultEffect, AtCap, Revalidate, WorkloadPolicyFor, MakeFence;
    RevalidateIff(s.authority, MakeFence(o.ctx, o.conflict, o.evidence, w, 1), w);
    FenceGenerations(o.ctx, o.conflict, o.evidence, w);
  }

  lemma FenceGenerations(a: AuthorityContext, c: Generation, e: Generation, w: WorkloadId)
    ensures var f := MakeFence(a, c, e, w, 1);
            f.conflictGeneration == c && f.evidenceGeneration == e && f.interventionGeneration == 1
  {
  }
}
