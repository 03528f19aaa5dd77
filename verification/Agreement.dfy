/** Authorization does what evaluation decides, and replay confirms it as long as the fairness cap is not reached. */
module Agreement {
  import opened Words
  import opened Enums
  import opened Entities
  import opened Rules
  import opened Ranking
  import opened Evaluate
  import opened Steps
  import opened IntegrityKept
  import opened Machine
  import opened Replays

  function DecisionOn(g: State, k: ConflictId): Option<Candidate> {
    Evaluate.Evaluate(g.engine, k, g.engine.authority).decision
  }

  /** Fences are checked without their conflict, evidence and intervention generations. */
  lemma FeasibleIgnores(n: Engine, w: WorkloadId, cls: InterventionClass, a: AuthorityContext, c: Generation,
                        e: Generation, f: Generation)
    ensures Revalidate(n.authority, MakeFence(a, c, e, w, 1), w) == Revalidate(n.authority, MakeFence(a, c, f, w, 1), w)
    ensures Feasible(n, w, cls, MakeFence(a, c, e, w, 1)) == Feasible(n, w, cls, MakeFence(a, c, f, w, 1))
  {
    hide Permitted, WorkloadPolicyFor, AtCap;
  }

  /** What evaluation decided passes authorize's own fence and feasibility checks. */
  lemma DecisionPasses(g: State, k: ConflictId)
    requires DecisionOn(g, k).Some?
    ensures k in g.engine.conflicts
    ensures var n, d := g.engine, DecisionOn(g, k).value; var f := FenceNow(n, k, d.target);
            Revalidate(n.authority, f, d.target) == Ok && Feasible(n, d.target, d.cls, f)
            && d.target in n.conflicts[k].associated
  {
    hide Evaluate.Evaluate, Refusal, IsCandidate, Better, Permitted, WorkloadPolicyFor, AtCap, UsableEvidence, ELIGIBLE;
    var n, d := g.engine, DecisionOn(g, k).value;
    DecisionIff(n, k, n.authority, d);
    var c := n.conflicts[k];
    assert UsableEvidence(n, c.evidenceIds) != [] by { NotRefused(n.policy, c, UsableEvidence(n, c.evidenceIds)); }
    var o := PrimaryOrigin(n, c, n.authority);
    CandidateFeasible(n, o, c.associated, ELIGIBLE, d);
    FeasibleIgnores(n, d.target, d.cls, n.authority, c.generation, o.evidence, FrontGeneration(n, c));
    FeasiblePasses(n, d.target, d.cls, MakeFence(n.authority, c.generation, o.evidence, d.target, 1));
  }

  lemma NotRefused(p: Policy, c: Conflict, usable: seq<Evidence>)
    requires Refusal(p, c, usable).None?
    ensures usable != []
  {
  }

  lemma CandidateFeasible(n: Engine, o: Origin, targets: seq<WorkloadId>, classes: seq<InterventionClass>, d: Candidate)
    requires IsCandidate(n, o, targets, classes, d) && d.feasible
    ensures Feasible(n, d.target, d.cls, MakeFence(o.ctx, o.conflict, o.evidence, d.target, 1)) && d.target in targets
  {
    hide Feasible, MakeFence, DefaultEffect, ClassEligible;
  }

  lemma FeasiblePasses(n: Engine, w: WorkloadId, cls: InterventionClass, f: Fence)
    requires Feasible(n, w, cls, f)
    ensures Revalidate(n.authority, f, w) == Ok && !AtCap(n, w)
  {
    hide Revalidate, AtCap, Permitted, WorkloadPolicyFor;
  }

  lemma {:induction false} NothingFeasible(cs: seq<Candidate>)
    requires forall c :: c in cs ==> !c.feasible
    ensures FirstFeasible(cs).None?
    decreases |cs|
  {
    if cs != [] {
      assert cs[0] in cs;
      NothingFeasible(cs[1..]);
    }
  }

  /** Without a decision authorize finds nothing else to pick. */
  lemma PickedIsDecision(g: State, k: ConflictId)
    ensures Picked(Evaluate.Evaluate(g.engine, k, g.engine.authority)) == DecisionOn(g, k)
  {
    hide Evaluate.Evaluate;
    if DecisionOn(g, k).None? {
      NoDecisionNoFeasible(g.engine, k, g.engine.authority);
      NothingFeasible(Evaluate.Evaluate(g.engine, k, g.engine.authority).candidates);
    }
  }

  /**
   Asked for no class in particular, authorize refuses exactly when there is no decision, the
   decision's budget is exhausted or its target is cooling down; otherwise it grants the decision.
   */
  lemma AuthorizeIff(g: State, k: ConflictId, now: TimeMs)
    ensures var d, a := DecisionOn(g, k), Attempt(g, k, NoAction, now);
            && (a.None? <==> d.None? || Exhausted(g.engine.policy.budget, d.value.cls)
                             || CoolingDown(g.engine, d.value.cls, d.value.target, now))
            && (a.Some? ==> a.value.cls == d.value.cls)
            && (a.Some? ==> a.value.target == d.value.target && a.value.adapter == d.value.adapter)
  {
    hide Evaluate.Evaluate, Feasible, Revalidate, MakeFence, Exhausted, CoolingDown, Picked, FenceNow;
    PickedIsDecision(g, k);
    if DecisionOn(g, k).Some? {
      DecisionPasses(g, k);
    }
  }

  /**
   Whatever class is asked for, the target is the decision's, and the class asked for is not checked
   for eligibility.
   */
  lemma OverrideKeepsTarget(g: State, k: ConflictId, cls: InterventionClass, now: TimeMs)
    requires cls != NoAction && Attempt(g, k, cls, now).Some?
    ensures DecisionOn(g, k).Some?
    ensures Attempt(g, k, cls, now).value.target == DecisionOn(g, k).value.target
            && Attempt(g, k, cls, now).value.cls == cls
  {
    hide Evaluate.Evaluate, Feasible, Revalidate, MakeFence, Exhausted, CoolingDown, Picked, FenceNow;
    PickedIsDecision(g, k);
  }

  /** What authorize grants on a decision. */
  function GrantOf(n: Engine, k: ConflictId, cls: InterventionClass, d: Candidate, now: TimeMs): Option<Grant>
    requires k in n.conflicts
  {
    var chosen, f := if cls == NoAction then d.cls else cls, FenceNow(n, k, d.target);
    if Feasible(n, d.target, chosen, f) && !Exhausted(n.policy.budget, chosen) && !CoolingDown(n, chosen, d.target, now)
    then Some(Grant(chosen, d.target, f, d.adapter))
    else None
  }

  lemma AttemptIs(g: State, k: ConflictId, cls: InterventionClass, now: TimeMs)
    ensures DecisionOn(g, k).Some? ==> k in g.engine.conflicts
    ensures Attempt(g, k, cls, now)
            == if DecisionOn(g, k).None? then None else GrantOf(g.engine, k, cls, DecisionOn(g, k).value, now)
  {
    hide Evaluate.Evaluate, Feasible, Revalidate, Exhausted, CoolingDown, Picked, FenceNow;
    PickedIsDecision(g, k);
    if DecisionOn(g, k).Some? {
      DecisionPasses(g, k);
    }
  }

  /**
   Protecting work is always permitted, budgeted nowhere and never cools down: where there is a
   decision it is granted.
   */
  lemma ProtectionGranted(g: State, k: ConflictId, now: TimeMs)
    requires DecisionOn(g, k).Some?
    ensures var a := Attempt(g, k, ProtectHighValueWork, now);
            a.Some? && a.value.cls == ProtectHighValueWork && a.value.target == DecisionOn(g, k).value.target
  {
    hide Attempt, DecisionOn, Revalidate, FenceNow, WorkloadPolicyFor, AtCap;
    var n, d := g.engine, DecisionOn(g, k).value;
    DecisionPasses(g, k);
    AttemptIs(g, k, ProtectHighValueWork, now);
    FeasiblePasses(n, d.target, d.cls, FenceNow(n, k, d.target));
  }

  function WithTotal(g: State, all: u64, most: u64): State {
    var n := g.engine;
    var b := n.policy.budget;
    g.(engine := n.(policy := n.policy.(budget := b.(maxAnyPerWindow := most, used := b.used.(all := all)))))
  }

  lemma GrantIgnoresTotal(g: State, all: u64, most: u64, k: ConflictId, cls: InterventionClass, d: Candidate,
                          now: TimeMs)
    requires k in g.engine.conflicts
    ensures GrantOf(g.engine, k, cls, d, now) == GrantOf(WithTotal(g, all, most).engine, k, cls, d, now)
  {
    hide Revalidate, MakeFence, IsDisruptive, Permitted, FamilyOf;
    var p, q := g.engine.policy, WithTotal(g, all, most).engine.policy;
    var chosen := if cls == NoAction then d.cls else cls;
    assert WorkloadPolicyFor(p, d.target) == WorkloadPolicyFor(q, d.target);
    PermittedIgnoresBudget(p, q, WorkloadPolicyFor(p, d.target), chosen);
  }

  /**
   The total is counted but compared with nothing: neither it nor its limit makes a difference to any
   authorization.
   */
  lemma TotalIsNotChecked(g: State, all: u64, most: u64, k: ConflictId, cls: InterventionClass, now: TimeMs)
    ensures Attempt(g, k, cls, now) == Attempt(WithTotal(g, all, most), k, cls, now)
  {
    hide Attempt, DecisionOn, GrantOf;
    var h := WithTotal(g, all, most);
    SameDecision(g, h, k);
    AttemptIs(g, k, cls, now);
    AttemptIs(h, k, cls, now);
    if DecisionOn(g, k).Some? {
      GrantIgnoresTotal(g, all, most, k, cls, DecisionOn(g, k).value, now);
    }
  }

  // ----- What a grant does to decisions -----

  ghost predicate Tidy(g: State) { Integrity(g.engine) && Numbered(g) }

  /** The workloads other than w. */
  function Others(ws: seq<WorkloadId>, w: WorkloadId): (us: seq<WorkloadId>)
    ensures forall u :: u in us <==> u in ws && u != w
  {
    if ws == [] then []
    else
      var us := Others(ws[..|ws| - 1], w);
      var last := ws[|ws| - 1];
      assert ws == ws[..|ws| - 1] + [last];
      if last == w then us else us + [last]
  }

  function WithoutTarget(n: Engine, j: ConflictId, w: WorkloadId): Engine
    requires j in n.conflicts
  {
    var c := n.conflicts[j];
    n.(conflicts := n.conflicts[j := c.(associated := Others(c.associated, w))])
  }

  /** The best feasible pair of conflict j that is not on workload w, if there is one. */
  function DecisionOff(g: State, j: ConflictId, w: WorkloadId): Option<Candidate> {
    if j !in g.engine.conflicts then None
    else Evaluate.Evaluate(WithoutTarget(g.engine, j, w), j, g.engine.authority).decision
  }

  /** All that conflict j's decision reads is the same, but workload w has come to the cap. */
  ghost predicate SameButCapped(n: Engine, m: Engine, j: ConflictId, w: WorkloadId) {
    && n.policy.(budget := m.policy.budget) == m.policy && n.evidence == m.evidence && n.authority == m.authority
    && j in n.conflicts && j in m.conflicts
    && var c, d := n.conflicts[j], m.conflicts[j];
    && c.generation == d.generation && c.degradation == d.degradation && c.evidenceIds == d.evidenceIds
    && c.associated == d.associated
    && AtCap(m, w) && (forall v :: v != w ==> AtCap(n, v) == AtCap(m, v))
  }

  lemma FeasibleOffTarget(n: Engine, m: Engine, j: ConflictId, w: WorkloadId, o: Origin,
      classes: seq<InterventionClass>, e: Candidate)
    requires SameButCapped(n, m, j, w)
    ensures (IsCandidate(m, o, m.conflicts[j].associated, classes, e) && e.feasible)
            == (IsCandidate(WithoutTarget(n, j, w), o, Others(n.conflicts[j].associated, w), classes, e) && e.feasible)
  {
    hide Others, DefaultEffect, MakeFence, ClassEligible, Permitted, Revalidate, WorkloadPolicyFor;
    var n' := WithoutTarget(n, j, w);
    if e.target != w {
      assert AtCap(n', e.target) == AtCap(n, e.target) == AtCap(m, e.target);
      BuiltDependsOn(n', m, o, e.target, e.cls);
    }
  }

  lemma CappedDecision(n: Engine, m: Engine, j: ConflictId, w: WorkloadId, d: Candidate)
    requires SameButCapped(n, m, j, w)
    ensures Evaluate.Evaluate(m, j, m.authority).decision == Some(d)
            <==> Evaluate.Evaluate(WithoutTarget(n, j, w), j, n.authority).decision == Some(d)
  {
    hide Evaluate.Evaluate, IsCandidate, Better, UsableEvidence, ELIGIBLE, AtCap, AttributionOrd, Others;
    var n' := WithoutTarget(n, j, w);
    var us, vs := m.conflicts[j].associated, n'.conflicts[j].associated;
    DecisionIff(m, j, m.authority, d);
    DecisionIff(n', j, n.authority, d);
    UsableEvidenceDependsOn(m, n', m.conflicts[j].evidenceIds);
    var usable := UsableEvidence(m, m.conflicts[j].evidenceIds);
    if usable != [] {
      var o := PrimaryOrigin(m, m.conflicts[j], m.authority);
      forall e
        ensures (IsCandidate(m, o, us, ELIGIBLE, e) && e.feasible) == (IsCandidate(n', o, vs, ELIGIBLE, e)
                && e.feasible)
        ensures Better(m.policy, e, d) == Better(n'.policy, e, d)
      {
        FeasibleOffTarget(n, m, j, w, o, ELIGIBLE, e);
        BetterIgnoresBudget(n'.policy, m.policy, e, d);
      }
      if IsCandidate(m, o, us, ELIGIBLE, d) && d.feasible {
        TargetListed(m, o, us, ELIGIBLE, d);
        TargetListed(n', o, vs, ELIGIBLE, d);
      }
    }
  }

  lemma TargetListed(n: Engine, o: Origin, targets: seq<WorkloadId>, classes: seq<InterventionClass>, d: Candidate)
    requires IsCandidate(n, o, targets, classes, d)
    ensures d.target in targets && targets != []
  {
    hide Built, ClassEligible;
  }

  lemma SameDecision(g: State, h: State, j: ConflictId)
    requires SameInputs(g.engine, h.engine, j)
    ensures DecisionOn(g, j) == DecisionOn(h, j)
  {
    hide Evaluate.Evaluate;
    DecisionDependsOn(g.engine, h.engine, j, g.engine.authority);
  }

  lemma DecisionNeedsConflict(g: State, j: ConflictId, w: WorkloadId)
    requires j !in g.engine.conflicts
    ensures DecisionOn(g, j).None? && DecisionOff(g, j, w).None?
  {
  }

  /** Without a decision there is none off w either. */
  lemma NoneOff(g: State, j: ConflictId, w: WorkloadId)
    requires j in g.engine.conflicts && DecisionOn(g, j).None?
    ensures DecisionOff(g, j, w).None?
  {
    hide Evaluate.Evaluate, UsableEvidence, AtCap, Attributable, Known, Others;
    var n, n' := g.engine, WithoutTarget(g.engine, j, w);
    UsableEvidenceDependsOn(n, n', n.conflicts[j].evidenceIds);
    DecisionExistsIff(n, j);
    DecisionExistsIff(n', j);
    CapIgnoresConflicts(n, n');
    if v :| v in n'.conflicts[j].associated && Known(n'.authority, v) && !AtCap(n', v) {
      assert v in n.conflicts[j].associated && Known(n.authority, v) && !AtCap(n, v);
    }
  }

  /** A decision on another workload is still the best without w. */
  lemma SomeOff(g: State, j: ConflictId, w: WorkloadId)
    requires DecisionOn(g, j).Some? && DecisionOn(g, j).value.target != w
    ensures DecisionOff(g, j, w) == DecisionOn(g, j)
  {
    hide Evaluate.Evaluate, IsCandidate, Better, UsableEvidence, ELIGIBLE, Attributable, Others;
    DecisionPasses(g, j);
    var n, n', d := g.engine, WithoutTarget(g.engine, j, w), DecisionOn(g, j).value;
    UsableEvidenceDependsOn(n, n', n.conflicts[j].evidenceIds);
    DecisionIff(n, j, n.authority, d);
    DecisionIff(n', j, n.authority, d);
    var o := PrimaryOrigin(n, n.conflicts[j], n.authority);
    forall e
      ensures IsCandidate(n', o, n'.conflicts[j].associated, ELIGIBLE, e)
              <==> IsCandidate(n, o, n.conflicts[j].associated, ELIGIBLE, e) && e.target != w
    {
      CandidateOff(n, j, w, o, e);
    }
    TargetListed(n', o, n'.conflicts[j].associated, ELIGIBLE, d);
  }

  lemma OffIsSame(g: State, j: ConflictId, w: WorkloadId)
    requires DecisionOn(g, j).None? || DecisionOn(g, j).value.target != w
    ensures DecisionOff(g, j, w) == DecisionOn(g, j)
  {
    hide DecisionOn, DecisionOff;
    if j !in g.engine.conflicts {
      DecisionNeedsConflict(g, j, w);
    } else if DecisionOn(g, j).None? {
      NoneOff(g, j, w);
    } else {
      SomeOff(g, j, w);
    }
  }

  lemma CapIgnoresConflicts(n: Engine, m: Engine)
    requires n.fairness == m.fairness && n.policy == m.policy
    ensures forall v :: AtCap(n, v) == AtCap(m, v)
  {
  }

  lemma CandidateOff(n: Engine, j: ConflictId, w: WorkloadId, o: Origin, e: Candidate)
    requires j in n.conflicts
    ensures IsCandidate(WithoutTarget(n, j, w), o, Others(n.conflicts[j].associated, w), ELIGIBLE, e)
            <==> IsCandidate(n, o, n.conflicts[j].associated, ELIGIBLE, e) && e.target != w
  {
    hide ELIGIBLE, Others, AtCap;
    CapIgnoresConflicts(n, WithoutTarget(n, j, w));
    BuiltDependsOn(n, WithoutTarget(n, j, w), o, e.target, e.cls);
  }

  // ----- What a grant does to replay -----

  function Choice(k: ConflictId, now: TimeMs): Step { AuthorizeCalled(k, NoAction, now) }

  /** One more grant takes w to the cap. */
  predicate OneBelowCap(g: State, w: WorkloadId) {
    (if w in g.engine.fairness then g.engine.fairness[w].consecutiveInterventions else 0) + 1
    >= g.engine.policy.maxConsecutiveInterventionsPerWorkload
  }

  /** The target was below the cap before. */
  lemma TargetBelowCap(g: State, k: ConflictId, cls: InterventionClass, now: TimeMs)
    requires Attempt(g, k, cls, now).Some?
    ensures !AtCap(g.engine, Attempt(g, k, cls, now).value.target)
  {
    hide Evaluate.Evaluate, Revalidate, MakeFence, Exhausted, CoolingDown, Permitted, WorkloadPolicyFor;
  }

  /** A grant changes nothing a decision reads but whether its target is at the cap. */
  lemma GrantKeepsInputs(g: State, k: ConflictId, cls: InterventionClass, now: TimeMs, j: ConflictId)
    requires Attempt(g, k, cls, now).Some?
    ensures var n, m, w := g.engine, Next(g, AuthorizeCalled(k, cls, now)).engine, Attempt(g, k, cls, now).value.target;
            && AtCap(m, w) == OneBelowCap(g, w) && (j in n.conflicts <==> j in m.conflicts)
            && (!AtCap(m, w) ==> SameInputs(n, m, j))
            && (AtCap(m, w) && j in n.conflicts ==> SameButCapped(n, m, j, w))
  {
    hide Attempt, Consumed, Rolled, Charged;
    AttemptNeedsConflict(g, k, cls, now);
    TargetBelowCap(g, k, cls, now);
  }

  /** The selections and records of a grant. */
  lemma GrantSelects(g: State, k: ConflictId, cls: InterventionClass, now: TimeMs)
    requires Attempt(g, k, cls, now).Some?
    ensures var n, m := g.engine, Next(g, AuthorizeCalled(k, cls, now)).engine;
            var i, a := g.nextInterventionId, Attempt(g, k, cls, now).value;
            && k in n.conflicts && m.conflicts.Keys == n.conflicts.Keys
            && m.conflicts[k].selectedIds == n.conflicts[k].selectedIds + [i]
            && (forall j | j in n.conflicts && j != k :: m.conflicts[j] == n.conflicts[j])
            && i in m.interventions && m.interventions[i].cls == a.cls && m.interventions[i].target == a.target
            && (forall j | j in n.interventions && j != i ::
                  j in m.interventions && m.interventions[j] == n.interventions[j])
            && (forall j | j in m.interventions && j != i :: j in n.interventions)
  {
    hide Attempt, Consumed, Touched;
    AttemptNeedsConflict(g, k, cls, now);
  }

  lemma MatchesDependsOn(n: Engine, m: Engine, selected: seq<InterventionId>, d: Candidate)
    requires forall i | i in selected ::
               i in n.interventions && i in m.interventions && n.interventions[i] == m.interventions[i]
    ensures Matches(n, selected, d) == Matches(m, selected, d)
  {
  }

  lemma MatchesAppend(n: Engine, selected: seq<InterventionId>, i: InterventionId, d: Candidate)
    requires i in n.interventions
    ensures Matches(n, selected + [i], d)
            == (Matches(n, selected, d) || (n.interventions[i].cls == d.cls && n.interventions[i].target == d.target))
  {
    assert forall x :: x in selected + [i] <==> x in selected || x == i;
  }

  lemma OldSelections(g: State, h: State, j: ConflictId)
    requires Tidy(g) && j in g.engine.conflicts
    requires forall i | i in g.engine.interventions && i != g.nextInterventionId ::
               i in h.engine.interventions && h.engine.interventions[i] == g.engine.interventions[i]
    ensures forall i | i in g.engine.conflicts[j].selectedIds ::
              i in g.engine.interventions && i in h.engine.interventions
              && h.engine.interventions[i] == g.engine.interventions[i]
  {
    assert ConflictIntact(g.engine, j);
  }

  /** Some selection of j, or the one grant a on k just added, has the class and target of d. */
  predicate Confirmed(g: State, k: ConflictId, a: Grant, j: ConflictId, d: Candidate)
    requires j in g.engine.conflicts
  {
    Matches(g.engine, g.engine.conflicts[j].selectedIds, d) || (j == k && a.cls == d.cls && a.target == d.target)
  }

  /** What replay will say of j after grant a on k: judged by the decision, off the target if it comes to the cap. */
  predicate DivergesAfter(g: State, k: ConflictId, a: Grant, j: ConflictId) {
    && j in g.engine.conflicts
    && (j == k || g.engine.conflicts[j].selectedIds != [])
    && var d := if OneBelowCap(g, a.target) then DecisionOff(g, j, a.target) else DecisionOn(g, j);
       d.None? || !Confirmed(g, k, a, j, d.value)
  }

  lemma DecisionAfter(g: State, k: ConflictId, cls: InterventionClass, now: TimeMs, j: ConflictId)
    requires Attempt(g, k, cls, now).Some?
    ensures var w := Attempt(g, k, cls, now).value.target;
            DecisionOn(Next(g, AuthorizeCalled(k, cls, now)), j)
            == if OneBelowCap(g, w) then DecisionOff(g, j, w) else DecisionOn(g, j)
  {
    hide Next, Attempt, Evaluate.Evaluate, AtCap, OneBelowCap, SameInputs, SameButCapped, Others;
    var h, w := Next(g, AuthorizeCalled(k, cls, now)), Attempt(g, k, cls, now).value.target;
    GrantKeepsInputs(g, k, cls, now, j);
    if !OneBelowCap(g, w) {
      SameDecision(g, h, j);
    } else if j in g.engine.conflicts {
      SameAuthority(g.engine, h.engine, j, w);
      if DecisionOn(h, j).Some? {
        CappedDecision(g.engine, h.engine, j, w, DecisionOn(h, j).value);
      }
      if DecisionOff(g, j, w).Some? {
        CappedDecision(g.engine, h.engine, j, w, DecisionOff(g, j, w).value);
      }
    } else {
      DecisionNeedsConflict(h, j, w);
    }
  }

  lemma SameAuthority(n: Engine, m: Engine, j: ConflictId, w: WorkloadId)
    requires SameButCapped(n, m, j, w)
    ensures n.authority == m.authority
  {
    hide AtCap;
  }

  /**
   Replay after a grant, for every conflict and whatever was selected before: exactly what
   DivergesAfter foretells. Another conflict's verdict is as it was unless the grant takes its target
   to the cap and that conflict's own decision was on this target; and if no class was asked for and
   the target stays below the cap, the conflict granted on is confirmed.
   */
  lemma GrantVerdict(g: State, k: ConflictId, cls: InterventionClass, now: TimeMs, j: ConflictId)
    requires Tidy(g) && Attempt(g, k, cls, now).Some?
    ensures var h, a := Next(g, AuthorizeCalled(k, cls, now)), Attempt(g, k, cls, now).value;
            && (Diverges(h.engine, j) <==> DivergesAfter(g, k, a, j))
            && (j != k && (!OneBelowCap(g, a.target) || DecisionOn(g, j).None?
                || DecisionOn(g, j).value.target != a.target)
                ==> (Diverges(h.engine, j) <==> Diverges(g.engine, j)))
            && (j == k && cls == NoAction && !OneBelowCap(g, a.target) ==> !Diverges(h.engine, j))
  {
    hide Next, Attempt, Evaluate.Evaluate, OneBelowCap, Matches, Numbered, Integrity, Others, DecisionOff;
    var h, a := Next(g, AuthorizeCalled(k, cls, now)), Attempt(g, k, cls, now).value;
    GrantSelects(g, k, cls, now);
    DecisionAfter(g, k, cls, now, j);
    if DecisionOn(g, j).None? || DecisionOn(g, j).value.target != a.target {
      OffIsSame(g, j, a.target);
    }
    if j in g.engine.conflicts {
      OldSelections(g, h, j);
      if DecisionOn(h, j).Some? {
        var d := DecisionOn(h, j).value;
        MatchesDependsOn(g.engine, h.engine, g.engine.conflicts[j].selectedIds, d);
        MatchesAppend(h.engine, g.engine.conflicts[j].selectedIds, g.nextInterventionId, d);
      }
    }
    if cls == NoAction {
      AuthorizeIff(g, k, now);
    }
  }

  /**
   Right after a conflict's first selection replay reports it diverged exactly when the grant takes
   its target to the cap.
   */
  lemma FirstGrantDivergesIff(g: State, k: ConflictId, now: TimeMs)
    requires Tidy(g) && Attempt(g, k, NoAction, now).Some? && g.engine.conflicts[k].selectedIds == []
    ensures var h, w := Next(g, Choice(k, now)).engine, Attempt(g, k, NoAction, now).value.target;
            (Diverges(h, k) <==> AtCap(h, w)) && AtCap(h, w) == OneBelowCap(g, w)
  {
    hide Next, Attempt, Evaluate.Evaluate, AtCap, OneBelowCap, Numbered, Integrity, Others;
    GrantVerdict(g, k, NoAction, now, k);
    GrantKeepsInputs(g, k, NoAction, now, k);
    var w := Attempt(g, k, NoAction, now).value.target;
    AttemptNeedsConflict(g, k, NoAction, now);
    if DecisionOff(g, k, w).Some? {
      OffIsOff(g, k, w);
    }
  }

  lemma OffIsOff(g: State, j: ConflictId, w: WorkloadId)
    requires DecisionOff(g, j, w).Some?
    ensures DecisionOff(g, j, w).value.target != w
  {
    hide Evaluate.Evaluate, IsCandidate, Better, UsableEvidence, ELIGIBLE, Refusal, Others;
    var n', d := WithoutTarget(g.engine, j, w), DecisionOff(g, j, w).value;
    DecisionIff(n', j, g.engine.authority, d);
    NotRefused(n'.policy, n'.conflicts[j], UsableEvidence(n', n'.conflicts[j].evidenceIds));
    TargetListed(n', PrimaryOrigin(n', n'.conflicts[j], g.engine.authority), n'.conflicts[j].associated, ELIGIBLE, d);
  }

  // ----- Successive authorizations, none asking for a class in particular -----

  datatype Act = Act(conflict: ConflictId, now: TimeMs)

  function GrantAll(g: State, acts: seq<Act>): State {
    if acts == [] then g
    else
      var last := acts[|acts| - 1];
      Next(GrantAll(g, acts[..|acts| - 1]), Choice(last.conflict, last.now))
  }

  ghost predicate AllGranted(g: State, acts: seq<Act>) {
    forall i | 0 <= i < |acts| :: Attempt(GrantAll(g, acts[..i]), acts[i].conflict, NoAction, acts[i].now).Some?
  }

  /** The target of the i-th grant. */
  function TargetAt(g: State, acts: seq<Act>, i: nat): WorkloadId
    requires i < |acts| && Attempt(GrantAll(g, acts[..i]), acts[i].conflict, NoAction, acts[i].now).Some?
  {
    Attempt(GrantAll(g, acts[..i]), acts[i].conflict, NoAction, acts[i].now).value.target
  }

  /** No grant that takes its target to the cap is one of j, or one on the workload j's decision is on. */
  ghost predicate Spared(g: State, acts: seq<Act>, j: ConflictId)
    requires AllGranted(g, acts)
  {
    forall i | 0 <= i < |acts| && OneBelowCap(GrantAll(g, acts[..i]), TargetAt(g, acts, i)) ::
      && acts[i].conflict != j
      && var d := DecisionOn(GrantAll(g, acts[..i]), j);
         d.None? || d.value.target != TargetAt(g, acts, i)
  }

  lemma {:induction false} TidyStays(g: State, acts: seq<Act>, n: nat)
    requires Tidy(g) && Room(g, |acts| + n)
    ensures Tidy(GrantAll(g, acts)) && Room(GrantAll(g, acts), n)
    decreases |acts|
  {
    hide Next, Integrity, Numbered;
    if acts != [] {
      var front, last := acts[..|acts| - 1], acts[|acts| - 1];
      TidyStays(g, front, n + 1);
      var x := GrantAll(g, front);
      NextCounters(x, Choice(last.conflict, last.now));
      NumberedStays(x, Choice(last.conflict, last.now));
      AuthorizeKeeps(x, last.conflict, NoAction, last.now);
      NextIsAuthorize(x, last.conflict, last.now);
    }
  }

  lemma NextIsAuthorize(g: State, k: ConflictId, now: TimeMs)
    ensures Next(g, Choice(k, now)) == Authorize(g, k, NoAction, now)
  {
    hide Authorize;
  }

  lemma FrontGranted(g: State, acts: seq<Act>, j: ConflictId)
    requires acts != [] && AllGranted(g, acts) && Spared(g, acts, j)
    ensures AllGranted(g, acts[..|acts| - 1]) && Spared(g, acts[..|acts| - 1], j)
  {
    hide GrantAll, Attempt, OneBelowCap, DecisionOn;
    var front := acts[..|acts| - 1];
    forall i | 0 <= i < |front|
      ensures front[..i] == acts[..i] && front[i] == acts[i]
    {
    }
  }

  /**
   After any successful authorizations none of which takes to the cap the workload conflict j's
   decision is on, or is one of j that takes its target there, replay reports j diverged exactly if it
   did before and j was not authorized.
   */
  lemma {:induction false} ReplayAgrees(g: State, acts: seq<Act>, j: ConflictId)
    requires Tidy(g) && Room(g, |acts|) && AllGranted(g, acts) && Spared(g, acts, j)
    ensures Diverges(GrantAll(g, acts).engine, j)
            <==> Diverges(g.engine, j) && forall i | 0 <= i < |acts| :: acts[i].conflict != j
    decreases |acts|
  {
    hide Next, Attempt, Diverges, Tidy, OneBelowCap, DecisionOn;
    if acts != [] {
      var front, last := acts[..|acts| - 1], acts[|acts| - 1];
      FrontGranted(g, acts, j);
      var x := GrantAll(g, front);
      TidyStays(g, front, 1);
      GrantVerdict(x, last.conflict, NoAction, last.now, j);
      ReplayAgrees(g, front, j);
    }
  }

  /** A workload once at the cap stays there under grants. */
  lemma CapStays(g: State, k: ConflictId, now: TimeMs, w: WorkloadId)
    requires Attempt(g, k, NoAction, now).Some? && AtCap(g.engine, w)
    ensures AtCap(Next(g, Choice(k, now)).engine, w)
  {
    hide Next, Attempt, Consumed;
    FairnessAfterIs(g, Choice(k, now));
    PolicyAfterIs(g, Choice(k, now));
  }

  lemma {:induction false} CapStaysAlong(g: State, acts: seq<Act>, i: nat, w: WorkloadId)
    requires i <= |acts| && AllGranted(g, acts) && AtCap(GrantAll(g, acts[..i]).engine, w)
    ensures AtCap(GrantAll(g, acts).engine, w)
    decreases |acts|
  {
    hide Next, Attempt, AtCap;
    if i == |acts| {
      assert acts[..i] == acts;
    } else {
      var front, last := acts[..|acts| - 1], acts[|acts| - 1];
      assert forall m | 0 <= m <= |front| :: front[..m] == acts[..m];
      CapStaysAlong(g, front, i, w);
      CapStays(GrantAll(g, front), last.conflict, last.now, w);
    }
  }

  /** In particular nothing else changes when the workloads granted on, at least, end below the cap. */
  lemma ReplayAgreesBelowCap(g: State, acts: seq<Act>, j: ConflictId)
    requires Tidy(g) && Room(g, |acts|) && AllGranted(g, acts)
    requires forall i | 0 <= i < |acts| :: !AtCap(GrantAll(g, acts).engine, TargetAt(g, acts, i))
    ensures Diverges(GrantAll(g, acts).engine, j)
            <==> Diverges(g.engine, j) && forall i | 0 <= i < |acts| :: acts[i].conflict != j
  {
    hide Next, Attempt, Diverges, Tidy, OneBelowCap, DecisionOn, AtCap;
    forall i | 0 <= i < |acts|
      ensures !OneBelowCap(GrantAll(g, acts[..i]), TargetAt(g, acts, i))
    {
      var x := GrantAll(g, acts[..i]);
      GrantKeepsInputs(x, acts[i].conflict, NoAction, acts[i].now, j);
      assert acts[..i + 1][..i] == acts[..i];
      assert GrantAll(g, acts[..i + 1]) == Next(x, Choice(acts[i].conflict, acts[i].now));
      if AtCap(GrantAll(g, acts[..i + 1]).engine, TargetAt(g, acts, i)) {
        CapStaysAlong(g, acts, i + 1, TargetAt(g, acts, i));
      }
    }
    ReplayAgrees(g, acts, j);
  }
}
