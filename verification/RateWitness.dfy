/** A run from a fresh governor in which a window's length holds twice the limit: the rate bound is attained. */
module RateWitness {
  import opened Words
  import opened Enums
  import opened Entities
  import opened Rules
  import opened Ranking
  import opened Evaluate
  import opened Steps
  import opened IntegrityKept
  import opened Machine
  import opened Agreement
  import opened Fairness
  import opened Budgets
  import opened Resolution
  import opened Witnesses

  /** Conflict 1 is decided on d, after n grants on its target in a row, under policy p but for the budget's use. */
  ghost predicate Decided(g: State, p: Policy, d: Candidate, n: nat) {
    && g.engine.policy.(budget := p.budget) == p
    && DecisionOn(g, 1) == Some(d) && Streak(g, d.target) == n
  }

  lemma PermittedStill(q: Policy, p: Policy, w: WorkloadId, cls: InterventionClass)
    requires q.(budget := p.budget) == p
    ensures Permitted(q, WorkloadPolicyFor(q, w), cls) == Permitted(p, WorkloadPolicyFor(p, w), cls)
  {
    hide Permitted;
    assert WorkloadPolicyFor(q, w) == WorkloadPolicyFor(p, w);
    PermittedIgnoresBudget(q, p, WorkloadPolicyFor(p, w), cls);
  }

  lemma NotCooling(n: Engine, cls: InterventionClass, w: WorkloadId, t: TimeMs)
    requires n.policy.cooldownMs == 0
    ensures !CoolingDown(n, cls, w, t)
  {
    hide IsDisruptive;
  }

  /** Without a cooldown a permitted class whose budget is not exhausted is granted. */
  lemma GrantedNow(g: State, p: Policy, d: Candidate, n: nat, cls: InterventionClass, t: TimeMs)
    requires Decided(g, p, d, n) && p.cooldownMs == 0 && cls != NoAction && !Exhausted(Budget(g), cls)
    requires Permitted(p, WorkloadPolicyFor(p, d.target), cls)
    ensures var a := Attempt(g, 1, cls, t); a.Some? && a.value.cls == cls && a.value.target == d.target
  {
    hide DecisionOn, Attempt, FenceNow, Revalidate, Permitted, WorkloadPolicyFor, Exhausted, AtCap, CoolingDown;
    DecisionPasses(g, 1);
    FeasiblePasses(g.engine, d.target, d.cls, FenceNow(g.engine, 1, d.target));
    AttemptIs(g, 1, cls, t);
    PermittedStill(g.engine.policy, p, d.target, cls);
    NotCooling(g.engine, cls, d.target, t);
  }

  lemma AfterMore(g: State, p: Policy, d: Candidate, n: nat, cls: InterventionClass, t: TimeMs)
    requires Decided(g, p, d, n) && n + 1 < p.maxConsecutiveInterventionsPerWorkload
    requires var a := Attempt(g, 1, cls, t); a.Some? && a.value.cls == cls && a.value.target == d.target
    ensures Decided(Next(g, AuthorizeCalled(1, cls, t)), p, d, n + 1)
    ensures Budget(Next(g, AuthorizeCalled(1, cls, t))) == Consumed(Budget(g), cls, t)
  {
    hide Next, DecisionOn, Attempt, Consumed;
    var step := AuthorizeCalled(1, cls, t);
    DecisionAfter(g, 1, cls, t, 1);
    FairnessAfterIs(g, step);
    PolicyAfterIs(g, step);
    BudgetAfter(g, step);
  }

  /** One more grant below the cap. */
  lemma GrantMore(y: Sys, p: Policy, d: Candidate, n: nat, cls: InterventionClass, t: TimeMs)
    requires Decided(y.g, p, d, n) && n + 1 < p.maxConsecutiveInterventionsPerWorkload && p.cooldownMs == 0
    requires cls != NoAction && Permitted(p, WorkloadPolicyFor(p, d.target), cls) && !Exhausted(Budget(y.g), cls)
    ensures var z := Apply(y, AuthorizeCalled(1, cls, t));
            && Decided(z.g, p, d, n + 1) && Budget(z.g) == Consumed(Budget(y.g), cls, t)
            && forall f: Family, lo: int, hi: int ::
                 Charges(z.log, f, lo, hi)
                 == Charges(y.log, f, lo, hi) + if FamilyOf(cls) == f && lo <= t <= hi then 1 else 0
  {
    hide Decided, Next, Note, Attempt, Permitted, WorkloadPolicyFor, Exhausted, Budget, Charges, FamilyOf, Consumed;
    GrantedNow(y.g, p, d, n, cls, t);
    AfterMore(y.g, p, d, n, cls, t);
    GrantNoted(y.g, AuthorizeCalled(1, cls, t));
    var r := Granting(y.g.nextInterventionId, y.g.nextAttemptId, 1, cls, d.target, t);
    forall f: Family, lo: int, hi: int
      ensures Charges(y.log + [r], f, lo, hi) == Charges(y.log, f, lo, hi)
                                                 + if FamilyOf(cls) == f && lo <= t <= hi then 1 else 0
    {
      ChargesAppend(y.log, r, f, lo, hi);
    }
  }

  // ----- The budget along the run -----

  /** Inside the window, u of the family's limit used. */
  predicate Filling(b: ActionBudget, p: Policy, f: Family, u: nat, start: TimeMs)
    requires !f.Unbudgeted?
  {
    && b.windowStart == start && b.windowMs == p.budget.windowMs
    && Limit(b, f) == Limit(p.budget, f) && Used(b.used, f) == u
  }

  lemma FillsMore(b: ActionBudget, p: Policy, cls: InterventionClass, u: nat, start: TimeMs, t: TimeMs)
    requires !FamilyOf(cls).Unbudgeted? && Filling(b, p, FamilyOf(cls), u, start) && u < Limit(p.budget, FamilyOf(cls))
    requires start <= t <= start + p.budget.windowMs
    ensures !Exhausted(b, cls) && Filling(Consumed(b, cls, t), p, FamilyOf(cls), u + 1, start)
  {
    hide FamilyOf;
  }

  lemma RollsOver(b: ActionBudget, p: Policy, f: Family, u: nat, start: TimeMs, t: TimeMs)
    requires !f.Unbudgeted? && Filling(b, p, f, u, start) && t > start + p.budget.windowMs
    ensures !Exhausted(b, ProtectHighValueWork) && Filling(Consumed(b, ProtectHighValueWork, t), p, f, 0, t)
  {
  }

  /** The class asked for k times at time t. */
  function Repeats(cls: InterventionClass, t: TimeMs, k: nat): (steps: seq<Step>)
    ensures |steps| == k && forall i | 0 <= i < k :: steps[i] == AuthorizeCalled(1, cls, t)
  {
    if k == 0 then [] else Repeats(cls, t, k - 1) + [AuthorizeCalled(1, cls, t)]
  }

  /** As often as the limit allows, inside the window. */
  lemma {:induction false} FillUp(y: Sys, p: Policy, d: Candidate, n: nat, cls: InterventionClass, start: TimeMs,
                                  t: TimeMs, k: nat)
    requires Decided(y.g, p, d, n) && n + k < p.maxConsecutiveInterventionsPerWorkload && p.cooldownMs == 0
    requires !FamilyOf(cls).Unbudgeted? && Permitted(p, WorkloadPolicyFor(p, d.target), cls)
    requires Filling(Budget(y.g), p, FamilyOf(cls), 0, start) && k <= Limit(p.budget, FamilyOf(cls))
    requires start <= t <= start + p.budget.windowMs
    ensures var z, f := Run(y, Repeats(cls, t, k)), FamilyOf(cls);
            && Decided(z.g, p, d, n + k) && Filling(Budget(z.g), p, f, k, start)
            && forall lo: int, hi: int :: lo <= t <= hi ==>
                 Charges(z.log, f, lo, hi) == Charges(y.log, f, lo, hi) + k
    decreases k
  {
    hide Decided, Apply, Permitted, WorkloadPolicyFor, Exhausted, Budget, Charges, Consumed, Filling, Run;
    if k == 0 {
      assert Run(y, []) == y by { RunNone(y); }
    } else {
      var front, step := Repeats(cls, t, k - 1), AuthorizeCalled(1, cls, t);
      FillUp(y, p, d, n, cls, start, t, k - 1);
      var x := Run(y, front);
      FillsMore(Budget(x.g), p, cls, k - 1, start, t);
      GrantMore(x, p, d, n + k - 1, cls, t);
      RunMore(y, front, step);
    }
  }

  lemma RunNone(y: Sys)
    ensures Run(y, []) == y
  {
  }

  // ----- The run -----

  /** A family used up as its window ends, an unbudgeted grant that rolls the window, and the family used up again. */
  function TwiceTheLimit(e: Evidence, cls: InterventionClass, end: TimeMs, limit: nat): seq<Step>
    requires end < U64_MAX
  {
    [EvidenceIngested(e)] + Repeats(cls, end, limit)
    + ([AuthorizeCalled(1, ProtectHighValueWork, end + 1)] + Repeats(cls, end + 1, limit))
  }

  lemma TwiceIsOrderly(e: Evidence, cls: InterventionClass, end: TimeMs, limit: nat, start: TimeMs)
    requires start <= end < U64_MAX
    ensures PolicyFixed(TwiceTheLimit(e, cls, end, limit)) && ClockRuns(TwiceTheLimit(e, cls, end, limit), start)
  {
    var steps := TwiceTheLimit(e, cls, end, limit);
    assert |steps| == 2 * limit + 2 && steps[0] == EvidenceIngested(e);
    forall i | 0 < i < |steps|
      ensures steps[i].AuthorizeCalled? && steps[i].now == if i <= limit then end else end + 1
    {
      if i <= limit {
        assert steps[i] == Repeats(cls, end, limit)[i - 1];
      } else if i > limit + 1 {
        assert steps[i] == Repeats(cls, end + 1, limit)[i - limit - 2];
      }
    }
  }

  lemma BeginsDecided(p: Policy, a: AuthorityContext, e: Evidence)
    requires Convincing(p, a, e)
    ensures var y, d := Apply(Start(Fresh(p, a)), EvidenceIngested(e)), DecisionOn(Ingest(Fresh(p, a), e), 1);
            && d.Some? && d.value.target in e.neighbors && Decided(y.g, p, d.value, 0)
            && Budget(y.g) == p.budget && (forall f: Family, lo: int, hi: int :: Charges(y.log, f, lo, hi) == 0)
  {
    hide Ingest, Convincing, DecisionOn, EvidenceIsValid, Identified, FamilyOf;
    IngestFinds(p, a, e);
    HarmIsDecided(Ingest(Fresh(p, a), e), p, a, e);
  }

  lemma ProtectionPermitted(p: Policy, w: WorkloadId)
    ensures Permitted(p, WorkloadPolicyFor(p, w), ProtectHighValueWork) && FamilyOf(ProtectHighValueWork).Unbudgeted?
  {
    hide WorkloadPolicyFor;
  }

  /**
   Twice the limit inside a window's length, for every budgeted family: a policy without a cooldown and
   with a cap that is high enough lets the second of two windows begin one moment after the first is used up.
   */
  lemma RateAttained(p: Policy, a: AuthorityContext, e: Evidence, cls: InterventionClass)
    requires Convincing(p, a, e) && PermittedOnAll(p, e.neighbors, cls) && Unused(p.budget)
    requires !FamilyOf(cls).Unbudgeted? && p.cooldownMs == 0
    requires 2 * Limit(p.budget, FamilyOf(cls)) + 1 < p.maxConsecutiveInterventionsPerWorkload
    requires p.budget.windowMs > 0 && p.budget.windowStart + p.budget.windowMs < U64_MAX
    ensures var end, f := p.budget.windowStart + p.budget.windowMs, FamilyOf(cls);
            var limit := Limit(p.budget, f);
            var steps := TwiceTheLimit(e, cls, end, limit);
            && PolicyFixed(steps) && ClockRuns(steps, p.budget.windowStart)
            && Charges(Run(Start(Fresh(p, a)), steps).log, f, end, end + p.budget.windowMs) == 2 * limit
  {
    hide Convincing, Run, Apply, Decided, Filling, Charges, Budget, Consumed, FamilyOf, Ingest, DecisionOn, Limit;
    hide PolicyFixed, ClockRuns, WorkloadPolicyFor, Permitted, Fresh, Exhausted;
    var start, end, f := p.budget.windowStart, p.budget.windowStart + p.budget.windowMs, FamilyOf(cls);
    BeginsDecided(p, a, e);
    var limit, d := Limit(p.budget, f), DecisionOn(Ingest(Fresh(p, a), e), 1).value;
    TwiceIsOrderly(e, cls, end, limit, start);
    ProtectionPermitted(p, d.target);
    var first, roll := Repeats(cls, end, limit), AuthorizeCalled(1, ProtectHighValueWork, end + 1);
    var y1 := Apply(Start(Fresh(p, a)), EvidenceIngested(e));
    assert Filling(Budget(y1.g), p, f, 0, start) by { UnusedFills(p, f); }
    FillUp(y1, p, d, 0, cls, start, end, limit);
    var y2 := Run(y1, first);
    RollsOver(Budget(y2.g), p, f, limit, start, end + 1);
    GrantMore(y2, p, d, limit, ProtectHighValueWork, end + 1);
    var y3 := Apply(y2, roll);
    FillUp(y3, p, d, limit + 1, cls, end + 1, end + 1, limit);
    TwiceRuns(Start(Fresh(p, a)), e, cls, end, limit);
  }

  lemma UnusedFills(p: Policy, f: Family)
    requires Unused(p.budget) && !f.Unbudgeted?
    ensures Filling(p.budget, p, f, 0, p.budget.windowStart)
  {
  }

  lemma TwiceRuns(y: Sys, e: Evidence, cls: InterventionClass, end: TimeMs, limit: nat)
    requires end < U64_MAX
    ensures Run(y, TwiceTheLimit(e, cls, end, limit))
            == Run(Apply(Run(Apply(y, EvidenceIngested(e)), Repeats(cls, end, limit)),
                         AuthorizeCalled(1, ProtectHighValueWork, end + 1)), Repeats(cls, end + 1, limit))
  {
    hide Run, Apply, Repeats;
    var roll := AuthorizeCalled(1, ProtectHighValueWork, end + 1);
    var first, second := Repeats(cls, end, limit), Repeats(cls, end + 1, limit);
    RunOnce(y, EvidenceIngested(e));
    RunSplit(y, [EvidenceIngested(e)], first);
    var x := Run(y, [EvidenceIngested(e)] + first);
    RunSplit(y, [EvidenceIngested(e)] + first, [roll] + second);
    RunSplit(x, [roll], second);
    RunOnce(x, roll);
  }

  /** There are such policies. */
  lemma RateSampleQualifies()
    ensures var p := SamplePolicy(1, 8).(cooldownMs := 0, maxConsecutiveInterventionsPerWorkload := 4);
            && PolicyIsValid(p) && Convincing(p, SampleAuthority(), SampleEvidence()) && Unused(p.budget)
            && PermittedOnAll(p, SampleEvidence().neighbors, Throttle) && Limit(p.budget, FamilyOf(Throttle)) == 1
            && p.budget.windowMs > 0 && p.budget.windowStart + p.budget.windowMs < U64_MAX
  {
    assert 2 in SampleEvidence().neighbors && Known(SampleAuthority(), 2);
    assert SampleEvidence().neighbors[0] == 2;
  }
}
