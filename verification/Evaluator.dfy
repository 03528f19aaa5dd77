/** The evaluation of a conflict, run step by step. */
module Evaluator {
  import opened Words
  import opened Enums
  import opened Entities
  import opened Rules
  import opened Ranking
  import opened Evaluate

  /** Stands for std::sort on ids. */
  method SortTargets(xs: seq<WorkloadId>) returns (ys: seq<WorkloadId>)
    ensures NonDecreasing(ys) && multiset(ys) == multiset(xs)
    ensures ys == SortIds(xs)
  {
    hide Insert;
    ys := [];
    for i := 0 to |xs|
      invariant ys == SortIds(xs[..i])
    {
      ys := Insert(xs[i], ys);
      assert xs[..i + 1][..i] == xs[..i];
    }
    assert xs[..|xs|] == xs;
    SortIdsSorts(xs);
  }

  /** Sorted by the ranking: no candidate is ranked before one that stands earlier. */
  ghost predicate Ranked(p: Policy, cs: seq<Candidate>) {
    forall i, j :: 0 <= i < j < |cs| ==> !Better(p, cs[j], cs[i])
  }

  predicate Tied(p: Policy, a: Candidate, b: Candidate) { !Better(p, a, b) && !Better(p, b, a) }

  /** Those tied with d, in order. */
  function Ties(p: Policy, cs: seq<Candidate>, d: Candidate): seq<Candidate> {
    if cs == [] then []
    else Ties(p, cs[..|cs| - 1], d) + if Tied(p, cs[|cs| - 1], d) then [cs[|cs| - 1]] else []
  }

  lemma {:induction false} TiesAppend(p: Policy, a: seq<Candidate>, b: seq<Candidate>, d: Candidate)
    ensures Ties(p, a + b, d) == Ties(p, a, d) + Ties(p, b, d)
    decreases |b|
  {
    hide Tied;
    if b == [] {
      assert a + b == a;
    } else {
      assert (a + b)[..|a + b| - 1] == a + b[..|b| - 1];
      TiesAppend(p, a, b[..|b| - 1], d);
    }
  }

  lemma {:induction false} NoTies(p: Policy, cs: seq<Candidate>, d: Candidate)
    requires forall i :: 0 <= i < |cs| ==> !Tied(p, cs[i], d)
    ensures Ties(p, cs, d) == []
    decreases |cs|
  {
    hide Tied;
    if cs != [] {
      NoTies(p, cs[..|cs| - 1], d);
    }
  }

  /** Putting c in front of those it is ranked before leaves it behind all it is tied with. */
  lemma InsertKeepsTies(p: Policy, cs: seq<Candidate>, k: nat, c: Candidate, d: Candidate)
    requires k <= |cs|
    requires forall j :: k <= j < |cs| ==> Better(p, c, cs[j])
    ensures Ties(p, cs[..k] + [c] + cs[k..], d) == Ties(p, cs, d) + Ties(p, [c], d)
  {
    hide Better, Ties;
    assert cs == cs[..k] + cs[k..];
    TiesAppend(p, cs[..k], cs[k..], d);
    TiesAppend(p, cs[..k] + [c], cs[k..], d);
    TiesAppend(p, cs[..k], [c], d);
    if Tied(p, c, d) {
      forall i | 0 <= i < |cs[k..]|
        ensures !Tied(p, cs[k..][i], d)
      {
        if Tied(p, cs[k + i], d) {
          NotBetterTransitive(p, c, d, cs[k + i]);
        }
      }
      NoTies(p, cs[k..], d);
    } else {
      OneTie(p, c, d);
    }
  }

  lemma OneTie(p: Policy, c: Candidate, d: Candidate)
    ensures Ties(p, [c], d) == if Tied(p, c, d) then [c] else []
  {
    hide Tied;
    assert [c][..0] == [];
  }

  /** Behind the last candidate that c is not ranked before. */
  method FindPlace(p: Policy, sorted: seq<Candidate>, c: Candidate) returns (k: nat)
    ensures k <= |sorted|
    ensures forall j :: k <= j < |sorted| ==> Better(p, c, sorted[j])
    ensures k > 0 ==> !Better(p, c, sorted[k - 1])
  {
    hide Better;
    k := |sorted|;
    while k > 0 && Better(p, c, sorted[k - 1])
      invariant k <= |sorted|
      invariant forall j :: k <= j < |sorted| ==> Better(p, c, sorted[j])
    {
      k := k - 1;
    }
  }

  ghost predicate SameTies(p: Policy, a: seq<Candidate>, b: seq<Candidate>) {
    forall d :: Ties(p, a, d) == Ties(p, b, d)
  }

  lemma InsertIsStable(p: Policy, sorted: seq<Candidate>, k: nat, c: Candidate, cs: seq<Candidate>)
    requires SameTies(p, sorted, cs) && multiset(sorted) == multiset(cs) && k <= |sorted|
    requires forall j :: k <= j < |sorted| ==> Better(p, c, sorted[j])
    ensures SameTies(p, sorted[..k] + [c] + sorted[k..], cs + [c])
    ensures multiset(sorted[..k] + [c] + sorted[k..]) == multiset(cs + [c])
  {
    hide Better, Ties;
    forall d
      ensures Ties(p, sorted[..k] + [c] + sorted[k..], d) == Ties(p, cs + [c], d)
    {
      InsertKeepsTies(p, sorted, k, c, d);
      TiesAppend(p, cs, [c], d);
    }
    assert sorted == sorted[..k] + sorted[k..];
  }

  /** Stands for std::stable_sort with the ranking: ranked, the same candidates, and ties left in their order. */
  method StableSort(p: Policy, cs: seq<Candidate>) returns (sorted: seq<Candidate>)
    ensures multiset(sorted) == multiset(cs) && Ranked(p, sorted)
    ensures forall d :: Ties(p, sorted, d) == Ties(p, cs, d)
  {
    hide Better, Ties, Ranked, SameTies;
    sorted := [];
    assert Ranked(p, []) && SameTies(p, [], []) by { NothingIsSorted(p); }
    for i := 0 to |cs|
      invariant multiset(sorted) == multiset(cs[..i]) && Ranked(p, sorted) && SameTies(p, sorted, cs[..i])
    {
      var k := FindPlace(p, sorted, cs[i]);
      InsertRanked(p, sorted, k, cs[i]);
      InsertIsStable(p, sorted, k, cs[i], cs[..i]);
      assert cs[..i + 1] == cs[..i] + [cs[i]];
      sorted := sorted[..k] + [cs[i]] + sorted[k..];
    }
    assert cs[..|cs|] == cs;
    TiesOf(p, sorted, cs);
  }

  lemma NothingIsSorted(p: Policy)
    ensures Ranked(p, []) && SameTies(p, [], [])
  {
  }

  lemma TiesOf(p: Policy, a: seq<Candidate>, b: seq<Candidate>)
    requires SameTies(p, a, b)
    ensures forall d :: Ties(p, a, d) == Ties(p, b, d)
  {
  }

  lemma InsertRanked(p: Policy, cs: seq<Candidate>, k: nat, c: Candidate)
    requires Ranked(p, cs) && k <= |cs|
    requires forall j :: k <= j < |cs| ==> Better(p, c, cs[j])
    requires k > 0 ==> !Better(p, c, cs[k - 1])
    ensures Ranked(p, cs[..k] + [c] + cs[k..])
  {
    hide Better;
    var ds := cs[..k] + [c] + cs[k..];
    forall i, j | 0 <= i < j < |ds|
      ensures !Better(p, ds[j], ds[i])
    {
      if j == k {
        if i < k - 1 {
          NotBetterTransitive(p, c, cs[k - 1], cs[i]);
        }
      } else if i == k {
        RankingIsStrictTotalOrder(p, c, ds[j], c);
      }
    }
  }

  lemma NotBetterTransitive(p: Policy, a: Candidate, b: Candidate, c: Candidate)
    requires !Better(p, a, b) && !Better(p, b, c)
    ensures !Better(p, a, c)
  {
    hide Better, LexLess, Key;
    BetterIsLex(p, a, b);
    BetterIsLex(p, b, c);
    BetterIsLex(p, a, c);
    LexTotal(Key(p, a), Key(p, b));
    LexTotal(Key(p, b), Key(p, c));
    if Key(p, a) != Key(p, b) && Key(p, b) != Key(p, c) {
      LexTransitive(Key(p, c), Key(p, b), Key(p, a));
      LexTotal(Key(p, c), Key(p, a));
    }
  }

  /** The class's rule: each part of it can turn the answer to no. */
  method CheckClass(p: Policy, wp: WorkloadPolicy<real>, cls: InterventionClass) returns (ok: bool)
    ensures ok == Permitted(p, wp, cls)
  {
    ok := true;
    if IsThrottling(cls) {
      if !wp.throttlingAllowed || !p.throttleAllowed { ok := false; }
      if wp.hardSloFloor >= 1.0 - 0.000000001 { ok := false; }
    } else if cls.RequestPreemption? || cls.RequestReplacement? {
      if wp.nonPreemptible { ok := false; }
      if !wp.preemptionAllowed || !p.preemptionAllowed { ok := false; }
    } else if cls.RequestMigration? {
      if wp.nonPreemptible { ok := false; }
      if !wp.migrationAllowed || !p.migrationAllowed { ok := false; }
    } else if cls.DeferNewWork? {
      if !wp.deferralAllowed || !p.admissionRestrictionAllowed { ok := false; }
    } else if cls.ChangePlacement? {
      if !wp.placementChangeAllowed || !p.placementChangeAllowed { ok := false; }
    } else if cls.RequestBandwidthReallocation? {
      if !wp.bandwidthRequestAllowed || !p.bandwidthRequestAllowed { ok := false; }
    } else if cls.RequestCommunicationReplan? {
      if !p.bandwidthRequestAllowed { ok := false; }
    } else if cls.RequestCollectiveReschedule? {
      if !wp.collectiveSchedulingAllowed || !p.collectiveSchedulingAllowed { ok := false; }
    }
  }

  method CheckFeasibility(s: Engine, target: WorkloadId, cls: InterventionClass, f: Fence) returns (feasible: bool)
    ensures feasible == Feasible(s, target, cls, f)
  {
    hide Revalidate, WorkloadPolicyFor, Permitted;
    if Revalidate(s.authority, f, target) != Ok {
      return false;
    }
    feasible := CheckClass(s.policy, WorkloadPolicyFor(s.policy, target), cls);
    if target in s.fairness
       && s.fairness[target].consecutiveInterventions >= s.policy.maxConsecutiveInterventionsPerWorkload {
      feasible := false;
    }
  }

  lemma CandidatesForStep(s: Engine, o: Origin, target: WorkloadId, classes: seq<InterventionClass>, j: nat)
    requires j < |classes|
    ensures CandidatesFor(s, o, target, classes[..j + 1])
            == CandidatesFor(s, o, target, classes[..j])
               + if ClassEligible(s.policy, classes[j]) then [Built(s, o, target, classes[j])] else []
  {
    hide Built, ClassEligible;
    assert classes[..j + 1][..j] == classes[..j];
  }

  lemma FeasibleOnesStep(cs: seq<Candidate>, c: Candidate)
    ensures FeasibleOnes(cs + [c]) == FeasibleOnes(cs) + if c.feasible then [c] else []
  {
    assert (cs + [c])[..|cs|] == cs;
  }

  lemma NoCandidates(s: Engine, o: Origin, classes: seq<InterventionClass>)
    ensures FeasibleOnes([]) == [] && classes[..0] == []
    ensures forall target :: CandidatesFor(s, o, target, []) == []
  {
  }

  /** The candidates for every target and class, and the feasible ones among them. */
  method BuildCandidates(s: Engine, o: Origin, targets: seq<WorkloadId>, classes: seq<InterventionClass>)
    returns (all: seq<Candidate>, feasible: seq<Candidate>)
    ensures all == AllCandidates(s, o, targets, classes)
    ensures feasible == FeasibleOnes(all)
  {
    hide Feasible, MakeFence, DefaultEffect, ClassEligible, CandidatesFor, FeasibleOnes;
    all, feasible := [], [];
    NoCandidates(s, o, classes);
    for i := 0 to |targets|
      invariant all == AllCandidates(s, o, targets[..i], classes)
      invariant feasible == FeasibleOnes(all)
    {
      ghost var before := all;
      for j := 0 to |classes|
        invariant all == before + CandidatesFor(s, o, targets[i], classes[..j])
        invariant feasible == FeasibleOnes(all)
      {
        var cls := classes[j];
        CandidatesForStep(s, o, targets[i], classes, j);
        if ClassEligible(s.policy, cls) {
          var f := MakeFence(o.ctx, o.conflict, o.evidence, targets[i], 1);
          var ok := CheckFeasibility(s, targets[i], cls, f);
          var cand := MakeCandidate(cls, targets[i], ok);
          FeasibleOnesStep(all, cand);
          all := all + [cand];
          if ok {
            feasible := feasible + [cand];
          }
        }
      }
      assert classes[..|classes|] == classes;
      assert targets[..i + 1][..i] == targets[..i];
    }
    assert targets[..|targets|] == targets;
  }

  /** The evidence that can be used, and an entry for each that cannot. */
  method SiftEvidence(s: Engine, ids: seq<EvidenceId>) returns (usable: seq<Evidence>, rejected: seq<Rejection>)
    ensures usable == UsableEvidence(s, ids) && rejected == RejectedEvidence(s, ids)
  {
    hide StructurallyValid;
    usable, rejected := [], [];
    for i := 0 to |ids|
      invariant usable == UsableEvidence(s, ids[..i]) && rejected == RejectedEvidence(s, ids[..i])
    {
      assert ids[..i + 1][..i] == ids[..i];
      if ids[i] in s.evidence {
        var e := s.evidence[ids[i]];
        if e.status != Current {
          rejected := rejected + [Rejection(NoAction, NotCurrent(e.status))];
        } else if !StructurallyValid(e) {
          rejected := rejected + [Rejection(NoAction, InvalidStructure)];
        } else {
          usable := usable + [e];
        }
      }
    }
    assert ids[..|ids|] == ids;
  }

  /** Whether the evidence is strong enough, and an entry for each way it is not. */
  method WeighEvidence(p: Policy, e: Evidence) returns (strong: bool, rejected: seq<Rejection>)
    ensures strong == Attributable(p, e) && rejected == Weaknesses(p, e)
  {
    hide AttributionOrd;
    strong, rejected := true, [];
    if AttributionOrd(e.attribution) < AttributionOrd(p.minAttributionForDisruptive) {
      strong := false;
      rejected := rejected + [Rejection(NoAction, WeakAttribution(e.attribution))];
    }
    if e.confidence < p.minConfidenceForDisruptive {
      strong := false;
      rejected := rejected + [Rejection(NoAction, LowConfidence)];
    }
    if e.unresolvedConfounders != [] {
      strong := false;
      rejected := rejected + [Rejection(NoAction, HasConfounders)];
    }
  }

  method EvaluateConflict(s: Engine, id: ConflictId, ctx: AuthorityContext) returns (ev: Evaluation)
    ensures ev == Evaluate.Evaluate(s, id, ctx)
  {
    hide AllCandidates, FeasibleOnes, SortIds, Best, ELIGIBLE, Better, Attributable, Weaknesses, UsableEvidence,
         RejectedEvidence, Ties, NonDecreasing;
    if id !in s.conflicts {
      return Evaluation(id, UnknownConflict, UnknownObjective, 0.0, UnknownSeverity, [], [], None, InvalidInput);
    }
    var c := s.conflicts[id];
    var usable, rejected := SiftEvidence(s, c.evidenceIds);
    ev := Evaluation(id, c.state, c.binding, c.degradation, c.severity, [], rejected, None, Ok);
    if usable == [] {
      return ev.(rejected := ev.rejected + [Rejection(NoAction, NothingUsable)], state := UnknownConflict,
                 code := InsufficientEvidence);
    }
    var primary := usable[0];
    var strong, weaknesses := WeighEvidence(s.policy, primary);
    ev := ev.(rejected := ev.rejected + weaknesses);
    if c.degradation < s.policy.actionabilityThreshold {
      return ev.(rejected := ev.rejected + [Rejection(NoAction, BelowThreshold)], state := UnknownConflict,
                 code := InsufficientEvidence);
    }
    var targets := SortTargets(c.associated);
    SortIdsKeeps(c.associated);
    if targets == [] {
      return ev.(rejected := ev.rejected + [Rejection(ObserveMore, NoAssociated)], state := Unresolved,
                 code := ConfoundedEvidence);
    }
    if !strong {
      return ev.(state := Unresolved, code := InsufficientEvidence);
    }

    var o := Origin(ctx, c.generation, primary.generation);
    var all, feasible := BuildCandidates(s, o, targets, ELIGIBLE);
    ev := ev.(candidates := all);
    if feasible != [] {
      var sorted := StableSort(s.policy, feasible);
      FeasibleOnesCoherent(s, o, targets, ELIGIBLE);
      FrontOfSortIsBest(s.policy, feasible, sorted);
      ev := ev.(decision := Some(sorted[0]), state := Actionable);
    } else {
      ev := ev.(state := Unresolved, code := NoLegalIntervention);
    }
  }
}
