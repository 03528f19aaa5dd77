/** Candidate interventions, the order they are ranked in, and the best of a list. */
module Ranking {
  import opened Words
  import opened Enums
  import opened Entities
  import opened Rules

  const CLASS_ORDER: seq<InterventionClass> :=
    [Throttle, ReduceConcurrency, ReduceBatch, Serialize, TimeSlice, RequestPreemption, RequestMigration,
     RequestReplacement, ChangePlacement, RequestBandwidthReallocation, RequestCommunicationReplan,
     RequestCollectiveReschedule, ReleaseOptionalResidency, ReduceMemoryPressure, ShedLowValueWork,
     ProtectHighValueWork, DeferNewWork, Escalate, NoAction, ObserveMore, ManualInterventionRequired]

  /** The first position of x in xs, or |xs|. */
  function IndexOf<T(==)>(xs: seq<T>, x: T): (i: nat)
    ensures i <= |xs| && (i < |xs| ==> xs[i] == x)
    ensures forall j :: 0 <= j < i ==> xs[j] != x
  {
    if xs == [] then 0 else if xs[0] == x then 0 else 1 + IndexOf(xs[1..], x)
  }

  function ClassIndex(c: InterventionClass): nat { IndexOf(CLASS_ORDER, c) }

  method FindIndex<T(==)>(xs: seq<T>, x: T) returns (i: nat)
    ensures i == IndexOf(xs, x)
  {
    hide IndexOf;
    for k := 0 to |xs|
      invariant forall j :: 0 <= j < k ==> xs[j] != x
    {
      if xs[k] == x {
        return k;
      }
    }
    return |xs|;
  }

  method FindClassIndex(c: InterventionClass) returns (i: nat)
    ensures i == ClassIndex(c)
  {
    hide IndexOf;
    i := FindIndex(CLASS_ORDER, c);
  }

  datatype Candidate = Candidate(
    cls: InterventionClass,
    target: WorkloadId,
    expectedConflictReduction: real,
    expectedTargetImprovement: real,
    expectedNeighborDegradation: real,
    expectedCost: real,
    expectedRecoveryCost: real,
    confidence: real,
    reversibility: real,
    timeToEffect: TimeMs,
    feasible: bool,
    adapter: Text)

  function Ascii(s: string): Text { seq(|s|, i requires 0 <= i < |s| => (s[i] as int) % 256) }

  /** Reduction, neighbour degradation, reversibility, time to effect, adapter. */
  datatype Effect = Effect(reduction: real, neighbor: real, reversibility: real, time: TimeMs, adapter: string)

  function DefaultEffect(c: InterventionClass): Effect {
    match c
    case Throttle => Effect(0.5, 0.15, 0.9, 50, "IThrottleAdapter")
    case ReduceConcurrency => Effect(0.4, 0.20, 0.85, 100, "IThrottleAdapter")
    case ReduceBatch => Effect(0.35, 0.12, 0.9, 50, "IThrottleAdapter")
    case Serialize => Effect(0.55, 0.25, 0.9, 20, "IThrottleAdapter")
    case TimeSlice => Effect(0.3, 0.1, 0.95, 40, "IThrottleAdapter")
    case RequestPreemption => Effect(0.8, 0.5, 0.1, 200, "IPreemptionAdapter")
    case RequestMigration => Effect(0.85, 0.05, 0.3, 500, "IPlacementAdapter")
    case ChangePlacement => Effect(0.7, 0.1, 0.3, 300, "IPlacementAdapter")
    case RequestBandwidthReallocation => Effect(0.6, 0.08, 0.8, 100, "IBandwidthAdapter")
    case RequestCommunicationReplan => Effect(0.5, 0.05, 0.4, 200, "ICommunicationAdapter")
    case RequestCollectiveReschedule => Effect(0.55, 0.05, 0.5, 150, "ICollectiveAdapter")
    case ReleaseOptionalResidency => Effect(0.2, 0.05, 0.6, 30, "IPlacementAdapter")
    case ReduceMemoryPressure => Effect(0.4, 0.1, 0.8, 80, "IThrottleAdapter")
    case DeferNewWork => Effect(0.3, 0.02, 0.9, 30, "IAdmissionAdapter")
    case ShedLowValueWork => Effect(0.45, 0.35, 0.1, 120, "IAdmissionAdapter")
    case ProtectHighValueWork => Effect(0.35, 0.1, 0.8, 60, "IPreemptionAdapter")
    case _ => Effect(0.0, 0.0, 0.5, 0, "")
  }

  function Clamp01(x: real): real { if x < 0.0 then 0.0 else if x > 1.0 then 1.0 else x }

  function MakeCandidate(c: InterventionClass, target: WorkloadId, feasible: bool): Candidate {
    var e := DefaultEffect(c);
    Candidate(c, target, e.reduction, Clamp01(e.reduction), e.neighbor, 0.1 * e.neighbor,
              if c == RequestPreemption then 1.0 else 0.0, 0.5, e.reversibility, e.time, feasible,
              Ascii(e.adapter))
  }

  /** The comparison candidates are sorted with. */
  predicate Better(p: Policy, a: Candidate, b: Candidate) {
    if a.expectedConflictReduction != b.expectedConflictReduction then
      a.expectedConflictReduction > b.expectedConflictReduction
    else if a.expectedNeighborDegradation != b.expectedNeighborDegradation then
      a.expectedNeighborDegradation < b.expectedNeighborDegradation
    else
      var va, vb := WorkloadPolicyFor(p, a.target).value, WorkloadPolicyFor(p, b.target).value;
      if va != vb then va < vb
      else if a.expectedCost != b.expectedCost then a.expectedCost < b.expectedCost
      else if a.reversibility != b.reversibility then a.reversibility > b.reversibility
      else
        var ia, ib := ClassIndex(a.cls), ClassIndex(b.cls);
        if ia != ib then ia < ib
        else if a.target != b.target then a.target < b.target
        else ClassOrd(a.cls) < ClassOrd(b.cls)
  }

  /** What is compared, in order, smaller being better. */
  function Key(p: Policy, c: Candidate): (k: seq<real>)
    ensures |k| == 8
  {
    [-c.expectedConflictReduction, c.expectedNeighborDegradation, WorkloadPolicyFor(p, c.target).value,
     c.expectedCost, -c.reversibility, ClassIndex(c.cls) as real, c.target as real, ClassOrd(c.cls) as real]
  }

  predicate LexLess(a: seq<real>, b: seq<real>)
    requires |a| == |b|
  {
    if a == [] then false
    else if a[0] != b[0] then a[0] < b[0]
    else LexLess(a[1..], b[1..])
  }

  lemma {:induction false} LexTotal(a: seq<real>, b: seq<real>)
    requires |a| == |b|
    ensures !(LexLess(a, b) && LexLess(b, a))
    ensures a != b ==> LexLess(a, b) || LexLess(b, a)
    ensures a == b ==> !LexLess(a, b)
    decreases |a|
  {
    if a != [] {
      assert a == [a[0]] + a[1..] && b == [b[0]] + b[1..];
      LexTotal(a[1..], b[1..]);
    }
  }

  lemma {:induction false} LexTransitive(a: seq<real>, b: seq<real>, c: seq<real>)
    requires |a| == |b| == |c| && LexLess(a, b) && LexLess(b, c)
    ensures LexLess(a, c)
    decreases |a|
  {
    if a[0] == b[0] == c[0] {
      LexTransitive(a[1..], b[1..], c[1..]);
    }
  }

  lemma BetterIsLex(p: Policy, a: Candidate, b: Candidate)
    ensures Better(p, a, b) == LexLess(Key(p, a), Key(p, b))
  {
    hide WorkloadPolicyFor, ClassIndex, ClassOrd;
    var k, l := Key(p, a), Key(p, b);
    LexUnfold(k, l);
    LexUnfold(k[1..], l[1..]);
    LexUnfold(k[2..], l[2..]);
    LexUnfold(k[3..], l[3..]);
    LexUnfold(k[4..], l[4..]);
    LexUnfold(k[5..], l[5..]);
    LexUnfold(k[6..], l[6..]);
    LexUnfold(k[7..], l[7..]);
    assert k[8..] == [] && l[8..] == [];
  }

  lemma LexUnfold(a: seq<real>, b: seq<real>)
    requires |a| == |b| > 0
    ensures LexLess(a, b) == if a[0] != b[0] then a[0] < b[0] else LexLess(a[1..], b[1..])
  {
  }

  lemma ClassIndexInjective(a: InterventionClass, b: InterventionClass)
    requires ClassOrd(a) == ClassOrd(b)
    ensures a == b
  {
    assert CLASSES[ClassOrd(a)] == a && CLASSES[ClassOrd(b)] == b;
  }

  /** Two candidates with the same class and target are ranked the same; any others are told apart. */
  lemma RankingIsStrictTotalOrder(p: Policy, a: Candidate, b: Candidate, c: Candidate)
    ensures !Better(p, a, a)
    ensures !(Better(p, a, b) && Better(p, b, a))
    ensures Better(p, a, b) && Better(p, b, c) ==> Better(p, a, c)
    ensures (a.cls, a.target) != (b.cls, b.target) ==> Better(p, a, b) || Better(p, b, a)
  {
    hide Better, LexLess, WorkloadPolicyFor, ClassIndex, ClassOrd;
    BetterIsLex(p, a, a);
    BetterIsLex(p, a, b);
    BetterIsLex(p, b, a);
    BetterIsLex(p, b, c);
    BetterIsLex(p, a, c);
    LexTotal(Key(p, a), Key(p, a));
    LexTotal(Key(p, a), Key(p, b));
    if Better(p, a, b) && Better(p, b, c) {
      LexTransitive(Key(p, a), Key(p, b), Key(p, c));
    }
    if Key(p, a) == Key(p, b) {
      assert Key(p, a)[6] == Key(p, b)[6] && Key(p, a)[7] == Key(p, b)[7];
      ClassIndexInjective(a.cls, b.cls);
    }
  }

  /** The first candidate that no later one beats on the way. */
  function Best(p: Policy, cs: seq<Candidate>): (b: Candidate)
    requires cs != []
    ensures b in cs
  {
    if |cs| == 1 then cs[0]
    else
      var init, last := cs[..|cs| - 1], cs[|cs| - 1];
      var b := Best(p, init);
      assert b in cs by { assert b in init; }
      if Better(p, last, b) then last else b
  }

  lemma {:induction false} BestIsUnbeaten(p: Policy, cs: seq<Candidate>)
    requires cs != []
    ensures forall c :: c in cs ==> !Better(p, c, Best(p, cs))
    decreases |cs|
  {
    hide Better;
    var last := cs[|cs| - 1];
    if |cs| == 1 {
      RankingIsStrictTotalOrder(p, last, last, last);
    } else {
      var init := cs[..|cs| - 1];
      var b := Best(p, init);
      BestIsUnbeaten(p, init);
      forall c | c in cs
        ensures !Better(p, c, Best(p, cs))
      {
        RankingIsStrictTotalOrder(p, c, last, b);
        RankingIsStrictTotalOrder(p, last, last, last);
        assert c in init || c == last;
      }
    }
  }

  /** Candidates are fixed by class and target, as those built for one evaluation are. */
  ghost predicate Coherent(cs: set<Candidate>) {
    forall a, b :: a in cs && b in cs && a.cls == b.cls && a.target == b.target ==> a == b
  }

  /** There is only one unbeaten candidate, so any list of the same candidates has the same best. */
  lemma BestIsUnique(p: Policy, cs: seq<Candidate>, b: Candidate)
    requires cs != [] && b in cs && Coherent(set c | c in cs)
    requires forall c :: c in cs ==> !Better(p, c, b)
    ensures b == Best(p, cs)
  {
    hide Better, Best;
    BestIsUnbeaten(p, cs);
    RankingIsStrictTotalOrder(p, b, Best(p, cs), b);
  }

  /** The front of any sorted arrangement is the best: what sorting and taking the front gives. */
  lemma FrontOfSortIsBest(p: Policy, cs: seq<Candidate>, sorted: seq<Candidate>)
    requires cs != [] && Coherent(set c | c in cs)
    requires multiset(sorted) == multiset(cs)
    requires forall i, j :: 0 <= i < j < |sorted| ==> !Better(p, sorted[j], sorted[i])
    ensures sorted != [] && sorted[0] == Best(p, cs)
  {
    hide Better, Best;
    assert |sorted| == |cs| by { assert |multiset(sorted)| == |multiset(cs)|; }
    forall c | c in cs
      ensures !Better(p, c, sorted[0])
    {
      assert c in multiset(sorted);
      var i :| 0 <= i < |sorted| && sorted[i] == c;
      RankingIsStrictTotalOrder(p, c, c, c);
    }
    assert sorted[0] in multiset(cs);
    BestIsUnique(p, cs, sorted[0]);
  }
}
