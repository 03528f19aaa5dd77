/** How much a run can take from one workload, and how often. */
module Fairness {
  import opened Words
  import opened Enums
  import opened Entities
  import opened Rules
  import opened Steps
  import opened Machine

  // ----- Bounded deprivation -----

  predicate GrantsOn(r: Record, w: WorkloadId) { r.Granting? && r.target == w }

  predicate ResolvedOn(r: Record, w: WorkloadId) {
    r.Reporting? && r.verdict.Some? && r.verdict.value.outcome.Resolved? && r.verdict.value.target == w
  }

  function Grants(log: seq<Record>, w: WorkloadId): nat {
    if log == [] then 0 else Grants(log[..|log| - 1], w) + if GrantsOn(log[|log| - 1], w) then 1 else 0
  }

  /** The epoch advances, and the verifications that found an intervention on w to have resolved its conflict. */
  function Releases(log: seq<Record>, w: WorkloadId): nat {
    if log == [] then 0
    else Releases(log[..|log| - 1], w) + if log[|log| - 1].Advancing? || ResolvedOn(log[|log| - 1], w) then 1 else 0
  }

  function Streak(g: State, w: WorkloadId): nat {
    if w in g.engine.fairness then g.engine.fairness[w].consecutiveInterventions else 0
  }

  function Cap(g: State): nat { g.engine.policy.maxConsecutiveInterventionsPerWorkload }

  /** The streak grows by one with a grant on w, falls to nothing with a release, and else stays. */
  lemma StreakAfter(g: State, step: Step, w: WorkloadId)
    requires Streak(g, w) <= Cap(g) && 1 <= Cap(g) && !step.PolicySet?
    ensures Cap(Next(g, step)) == Cap(g) && Streak(Next(g, step), w) <= Cap(g)
    ensures |Note(g, step)| <= 1
    ensures Note(g, step) != [] && GrantsOn(Note(g, step)[0], w) ==> Streak(Next(g, step), w) == Streak(g, w) + 1
    ensures Note(g, step) != [] && (Note(g, step)[0].Advancing? || ResolvedOn(Note(g, step)[0], w))
            ==> Streak(Next(g, step), w) == 0
    ensures Note(g, step) == [] || !(GrantsOn(Note(g, step)[0], w) || Note(g, step)[0].Advancing?
            || ResolvedOn(Note(g, step)[0], w))
            ==> Streak(Next(g, step), w) == Streak(g, w)
  {
    hide Next, Attempt, Consumed, VerdictOn, EvidenceIsValid, Identified, Recorded, MayBegin;
    FairnessAfterIs(g, step);
    PolicyAfterIs(g, step);
    if step.AuthorizeCalled? && Attempt(g, step.conflict, step.cls, step.now).Some? {
      GrantBelowCap(g, step.conflict, step.cls, step.now);
    }
  }

  lemma GrantBelowCap(g: State, k: ConflictId, cls: InterventionClass, now: TimeMs)
    requires Attempt(g, k, cls, now).Some? && 1 <= Cap(g)
    ensures Streak(g, Attempt(g, k, cls, now).value.target) < Cap(g)
  {
    hide Evaluate.Evaluate, Revalidate, MakeFence, Exhausted, CoolingDown, Permitted, WorkloadPolicyFor;
  }

  /** The balance of grants against releases. */
  ghost predicate Balanced(y: Sys, w: WorkloadId, cap: nat, first: nat) {
    && Cap(y.g) == cap && Streak(y.g, w) <= cap
    && Grants(y.log, w) + first <= cap * Releases(y.log, w) + Streak(y.g, w)
  }

  lemma BalanceStep(y: Sys, step: Step, w: WorkloadId, cap: nat, first: nat)
    requires Balanced(y, w, cap, first) && 1 <= cap && !step.PolicySet?
    ensures Balanced(Apply(y, step), w, cap, first)
  {
    hide Next, Note, Streak, Cap, GrantsOn, ResolvedOn, Grants, Releases;
    var z := Apply(y, step);
    StreakAfter(y.g, step, w);
    if z.log != y.log {
      var r := Note(y.g, step)[0];
      assert z.log == y.log + [r];
      NoteDisjoint(y.g, step, w);
      CountsAppend(y.log, r, w);
      Distribute(cap, Releases(y.log, w));
    }
  }

  lemma CountsAppend(log: seq<Record>, r: Record, w: WorkloadId)
    ensures Grants(log + [r], w) == Grants(log, w) + if GrantsOn(r, w) then 1 else 0
    ensures Releases(log + [r], w) == Releases(log, w) + if r.Advancing? || ResolvedOn(r, w) then 1 else 0
  {
    hide GrantsOn, ResolvedOn;
    assert (log + [r])[..|log|] == log;
  }

  lemma {:induction false} BalancedAlways(g: State, steps: seq<Step>, w: WorkloadId)
    requires PolicyFixed(steps) && Streak(g, w) <= Cap(g) && 1 <= Cap(g)
    ensures Balanced(Run(Start(g), steps), w, Cap(g), Streak(g, w))
    decreases |steps|
  {
    hide Apply, Balanced, Streak, Cap;
    if steps != [] {
      BalancedAlways(g, steps[..|steps| - 1], w);
      BalanceStep(Run(Start(g), steps[..|steps| - 1]), steps[|steps| - 1], w, Cap(g), Streak(g, w));
    } else {
      BalancedAtStart(g, w);
    }
  }

  lemma BalancedAtStart(g: State, w: WorkloadId)
    requires Streak(g, w) <= Cap(g)
    ensures Balanced(Start(g), w, Cap(g), Streak(g, w))
  {
    assert Cap(g) * 0 == 0;
  }

  lemma NoteDisjoint(g: State, step: Step, w: WorkloadId)
    ensures forall r :: r in Note(g, step) ==> !(GrantsOn(r, w) && (r.Advancing? || ResolvedOn(r, w)))
  {
  }

  lemma Distribute(a: nat, b: nat)
    ensures a * (b + 1) == a * b + a
  {
  }

  /**
   In every run under one policy, whose cap is positive as in every valid policy, a workload is never
   intervened on more often in a row than the cap, and in all at most cap times one more than its
   releases.
   */
  lemma BoundedDeprivation(g: State, steps: seq<Step>, w: WorkloadId)
    requires PolicyFixed(steps) && Streak(g, w) <= Cap(g) && 1 <= Cap(g)
    ensures var y := Run(Start(g), steps);
            && Streak(y.g, w) <= Cap(g)
            && Grants(y.log, w) <= Cap(g) * (1 + Releases(y.log, w))
  {
    hide Run, Streak, Cap, Grants, Releases;
    BalancedAlways(g, steps, w);
    Distribute(Cap(g), Releases(Run(Start(g), steps).log, w));
  }

  // ----- Cooldown -----

  /** The time of the last grant on w. */
  function LastGrant(log: seq<Record>, w: WorkloadId): Option<TimeMs> {
    if log == [] then None
    else if GrantsOn(log[|log| - 1], w) then Some(log[|log| - 1].at)
    else LastGrant(log[..|log| - 1], w)
  }

  /** What the fairness table says of w's last intervention. */
  function LastRecorded(g: State, w: WorkloadId): Option<TimeMs> {
    if w in g.engine.fairness then Some(g.engine.fairness[w].lastInterventionAt) else None
  }

  lemma LastRecordedAfter(g: State, step: Step, w: WorkloadId)
    ensures LastRecorded(Next(g, step), w)
            == if Note(g, step) != [] && GrantsOn(Note(g, step)[0], w) then Some(Note(g, step)[0].at)
                else LastRecorded(g, w)
  {
    hide Next, Attempt, Consumed, VerdictOn, EvidenceIsValid, Identified, Recorded, MayBegin;
    FairnessAfterIs(g, step);
  }

  lemma LastStep(y: Sys, step: Step, w: WorkloadId)
    requires LastRecorded(y.g, w) == LastGrant(y.log, w)
    ensures LastRecorded(Apply(y, step).g, w) == LastGrant(Apply(y, step).log, w)
  {
    hide Next, Note, GrantsOn, LastRecorded;
    var z := Apply(y, step);
    LastRecordedAfter(y.g, step, w);
    NoteIsShort(y.g, step);
    if z.log != y.log {
      assert z.log == y.log + [Note(y.g, step)[0]];
      assert z.log[..|z.log| - 1] == y.log;
    }
  }

  /** In every run the table records exactly the last grant, whatever the clock did. */
  lemma {:induction false} LastInterventionIsLast(g: State, steps: seq<Step>, w: WorkloadId)
    requires w !in g.engine.fairness
    ensures LastRecorded(Run(Start(g), steps).g, w) == LastGrant(Run(Start(g), steps).log, w)
    decreases |steps|
  {
    hide Apply, LastGrant, LastRecorded;
    if steps != [] {
      var front, step := steps[..|steps| - 1], steps[|steps| - 1];
      LastInterventionIsLast(g, front, w);
      LastStep(Run(Start(g), front), step, w);
    } else {
      assert LastRecorded(g, w) == None by { NothingRecorded(g, w); }
      assert LastGrant([], w) == None by { NoLastGrant(w); }
    }
  }

  lemma NoLastGrant(w: WorkloadId)
    ensures LastGrant([], w) == None
  {
  }

  lemma NothingRecorded(g: State, w: WorkloadId)
    requires w !in g.engine.fairness
    ensures LastRecorded(g, w) == None
  {
  }

  /** The classes that never have to wait. */
  const UNDISRUPTIVE: set<InterventionClass> :=
    {NoAction, ObserveMore, ProtectHighValueWork, Escalate, ManualInterventionRequired}

  lemma DisruptiveIff(c: InterventionClass)
    ensures IsDisruptive(c) <==> c !in UNDISRUPTIVE
  {
  }

  predicate DisruptsOn(r: Record, w: WorkloadId) { GrantsOn(r, w) && r.cls !in UNDISRUPTIVE }

  /** Each grant on w, but of those five classes, comes at least cd after every earlier grant on w. */
  ghost predicate Spaced(log: seq<Record>, w: WorkloadId, cd: nat) {
    forall i, j | 0 <= i < j < |log| && GrantsOn(log[i], w) && DisruptsOn(log[j], w) :: log[i].at + cd <= log[j].at
  }

  lemma {:induction false} NoneIsNone(log: seq<Record>, w: WorkloadId)
    requires LastGrant(log, w).None?
    ensures forall i | 0 <= i < |log| :: !GrantsOn(log[i], w)
    decreases |log|
  {
    hide GrantsOn;
    if log != [] {
      NoneIsNone(log[..|log| - 1], w);
      assert forall i | 0 <= i < |log| - 1 :: log[i] == log[..|log| - 1][i];
    }
  }

  lemma {:induction false} SomeIsOne(log: seq<Record>, w: WorkloadId)
    requires LastGrant(log, w).Some?
    ensures exists i | 0 <= i < |log| :: GrantsOn(log[i], w) && log[i].at == LastGrant(log, w).value
    decreases |log|
  {
    var n := |log| - 1;
    if GrantsOn(log[n], w) {
      assert log[n].at == LastGrant(log, w).value;
    } else {
      SomeIsOne(log[..n], w);
      var i :| 0 <= i < n && GrantsOn(log[..n][i], w) && log[..n][i].at == LastGrant(log, w).value;
      assert log[i] == log[..n][i];
    }
  }

  /** The last grant on w is the latest. */
  ghost predicate LastIsLatest(log: seq<Record>, w: WorkloadId) {
    forall i | 0 <= i < |log| && GrantsOn(log[i], w) :: LastGrant(log, w).Some? && log[i].at <= LastGrant(log, w).value
  }

  lemma LatestAppend(log: seq<Record>, r: Record, w: WorkloadId)
    requires LastIsLatest(log, w)
    requires GrantsOn(r, w) ==> forall i | 0 <= i < |log| && GrantsOn(log[i], w) :: log[i].at <= r.at
    ensures LastIsLatest(log + [r], w)
  {
    hide GrantsOn;
    assert (log + [r])[..|log|] == log;
  }

  lemma SpacedAppend(log: seq<Record>, r: Record, w: WorkloadId, cd: nat)
    requires Spaced(log, w, cd) && LastIsLatest(log, w)
    requires DisruptsOn(r, w) && LastGrant(log, w).Some? ==> LastGrant(log, w).value + cd <= r.at
    ensures Spaced(log + [r], w, cd)
  {
    hide GrantsOn, UNDISRUPTIVE;
  }

  lemma DisruptionWaits(g: State, step: Step, w: WorkloadId)
    requires step.AuthorizeCalled?
    requires Note(g, step) != [] && DisruptsOn(Note(g, step)[0], w)
    requires LastRecorded(g, w).Some? && 1 <= LastRecorded(g, w).value <= step.now
    ensures LastRecorded(g, w).value + g.engine.policy.cooldownMs <= step.now
  {
    hide Evaluate.Evaluate, Revalidate, MakeFence, Exhausted, Feasible, IsDisruptive, UNDISRUPTIVE;
    DisruptiveIff(Note(g, step)[0].cls);
  }

  lemma CooldownFixed(g: State, step: Step)
    requires !step.PolicySet?
    ensures Next(g, step).engine.policy.cooldownMs == g.engine.policy.cooldownMs
  {
    hide Next, Attempt, Rolled;
    PolicyAfterIs(g, step);
  }

  lemma {:induction false} GrantsFrom(g: State, steps: seq<Step>, t: TimeMs)
    requires ClockRuns(steps, t)
    ensures forall k | 0 <= k < |Run(Start(g), steps).log| && Run(Start(g), steps).log[k].Granting? ::
              t <= Run(Start(g), steps).log[k].at
    decreases |steps|
  {
    hide Next, Note, Attempt;
    if steps != [] {
      var front := steps[..|steps| - 1];
      assert forall k | 0 <= k < |front| :: front[k] == steps[k];
      GrantsFrom(g, front, t);
      GrantNoted(Run(Start(g), front).g, steps[|steps| - 1]);
    }
  }

  /**
   By a positive clock that does not go back, grants on a workload, but of those five classes, keep the
   cooldown from all earlier ones.
   */
  lemma {:induction false} DisruptionsAreSpaced(g: State, steps: seq<Step>, w: WorkloadId)
    requires w !in g.engine.fairness && PolicyFixed(steps) && ClockRuns(steps, 1)
    ensures var y := Run(Start(g), steps);
            && y.g.engine.policy.cooldownMs == g.engine.policy.cooldownMs
            && LastIsLatest(y.log, w)
            && Spaced(y.log, w, g.engine.policy.cooldownMs)
    decreases |steps|
  {
    hide Next, Note, PolicyFixed, ClockRuns, LastIsLatest, Spaced;
    if steps == [] {
      EmptyIsSpaced(w, g.engine.policy.cooldownMs);
    } else {
      var front, step := steps[..|steps| - 1], steps[|steps| - 1];
      FrontRuns(steps, 1);
      assert steps == front + [step];
      DisruptionsAreSpaced(g, front, w);
      var y := Run(Start(g), front);
      CooldownFixed(y.g, step);
      NoteIsShort(y.g, step);
      if Apply(y, step).log != y.log {
        SpacedStep(g, front, step, w);
        assert Apply(y, step).log == y.log + [Note(y.g, step)[0]];
      }
    }
  }

  lemma EmptyIsSpaced(w: WorkloadId, cd: nat)
    ensures LastIsLatest([], w) && Spaced([], w, cd)
  {
  }

  lemma ClockPrefix(front: seq<Step>, step: Step, from: TimeMs)
    requires ClockRuns(front + [step], from)
    ensures ClockRuns(front, from)
  {
    assert forall k | 0 <= k < |front| :: (front + [step])[k] == front[k];
  }

  lemma SpacedStep(g: State, front: seq<Step>, step: Step, w: WorkloadId)
    requires w !in g.engine.fairness && ClockRuns(front + [step], 1)
    requires var y := Run(Start(g), front);
             && y.g.engine.policy.cooldownMs == g.engine.policy.cooldownMs
             && LastIsLatest(y.log, w) && Spaced(y.log, w, g.engine.policy.cooldownMs)
             && Note(y.g, step) != []
    ensures var y := Run(Start(g), front);
            && LastIsLatest(y.log + [Note(y.g, step)[0]], w)
            && Spaced(y.log + [Note(y.g, step)[0]], w, g.engine.policy.cooldownMs)
  {
    hide Run, Next, Note, Attempt, UNDISRUPTIVE, LastIsLatest, Spaced, LastRecorded;
    var y := Run(Start(g), front);
    var r := Note(y.g, step)[0];
    GrantNoted(y.g, step);
    if GrantsOn(r, w) {
      assert step.AuthorizeCalled? && r.at == step.now;
      forall k | 0 <= k < |front| && front[k].AuthorizeCalled?
        ensures front[k].now <= step.now && 1 <= front[k].now
      {
        assert (front + [step])[k] == front[k] && (front + [step])[|front|] == step;
      }
      GrantsNoLater(g, front, step.now);
      assert ClockRuns(front, 1) by { ClockPrefix(front, step, 1); }
      GrantsFrom(g, front, 1);
      LastInterventionIsLast(g, front, w);
      if LastGrant(y.log, w).Some? {
        SomeIsOne(y.log, w);
        if DisruptsOn(r, w) {
          DisruptionWaits(y.g, step, w);
        }
      }
    }
    LatestAppend(y.log, r, w);
    SpacedAppend(y.log, r, w, g.engine.policy.cooldownMs);
  }

  function Disruptions(log: seq<Record>, w: WorkloadId, lo: int, hi: int): nat {
    if log == [] then 0
    else
      var r := log[|log| - 1];
      Disruptions(log[..|log| - 1], w, lo, hi) + if DisruptsOn(r, w) && lo <= r.at <= hi then 1 else 0
  }

  lemma {:induction false} NoneLater(log: seq<Record>, w: WorkloadId, lo: int, mid: int, hi: int)
    requires forall i | 0 <= i < |log| && DisruptsOn(log[i], w) :: log[i].at <= mid
    requires mid <= hi
    ensures Disruptions(log, w, lo, hi) == Disruptions(log, w, lo, mid)
    decreases |log|
  {
    hide DisruptsOn;
    if log != [] {
      assert forall i | 0 <= i < |log| - 1 :: log[i] == log[..|log| - 1][i];
      NoneLater(log[..|log| - 1], w, lo, mid, hi);
    }
  }

  lemma OneMore(n: nat, cd: nat)
    ensures n * cd == if n >= 1 then (n - 1) * cd + cd else 0
  {
  }

  lemma {:induction false} SpacedIsSparse(log: seq<Record>, w: WorkloadId, cd: nat, lo: int, hi: int)
    requires Spaced(log, w, cd)
    ensures Disruptions(log, w, lo, hi) >= 1 ==> (Disruptions(log, w, lo, hi) - 1) * cd <= hi - lo
    decreases |log|
  {
    hide UNDISRUPTIVE;
    if log != [] {
      var front, r := log[..|log| - 1], log[|log| - 1];
      assert forall i | 0 <= i < |front| :: front[i] == log[i];
      if DisruptsOn(r, w) && lo <= r.at <= hi {
        NoneLater(front, w, lo, r.at - cd, hi);
        SpacedIsSparse(front, w, cd, lo, r.at - cd);
        OneMore(Disruptions(front, w, lo, hi), cd);
      } else {
        SpacedIsSparse(front, w, cd, lo, hi);
      }
    }
  }

  lemma QuotientBound(n: nat, cd: nat, length: nat)
    requires cd > 0 && (n >= 1 ==> (n - 1) * cd <= length)
    ensures n <= length / cd + 1
  {
    if n > length / cd + 1 {
      MulMonotone(cd, length / cd + 1, n - 1);
    }
  }

  /** In an interval of length T a workload is disrupted at most T / cooldown + 1 times. */
  lemma DisruptionRate(g: State, steps: seq<Step>, w: WorkloadId, lo: nat, length: nat)
    requires w !in g.engine.fairness && PolicyFixed(steps) && ClockRuns(steps, 1)
    requires g.engine.policy.cooldownMs > 0
    ensures Disruptions(Run(Start(g), steps).log, w, lo, lo + length) <= length / g.engine.policy.cooldownMs + 1
  {
    hide *;
    var log, cd := Run(Start(g), steps).log, g.engine.policy.cooldownMs;
    DisruptionsAreSpaced(g, steps, w);
    SpacedIsSparse(log, w, cd, lo, lo + length);
    QuotientBound(Disruptions(log, w, lo, lo + length), cd, length);
  }
}
