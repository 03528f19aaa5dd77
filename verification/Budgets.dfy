/** What the action budget guarantees over time. */
module Budgets {
  import opened Words
  import opened Enums
  import opened Entities
  import opened Rules
  import opened Steps
  import opened Machine
  import opened Agreement

  predicate ChargedAt(r: Record, f: Family, lo: int, hi: int) {
    r.Granting? && FamilyOf(r.cls) == f && lo <= r.at <= hi
  }

  /** The grants of the family from time lo to time hi. */
  function Charges(log: seq<Record>, f: Family, lo: int, hi: int): nat {
    if log == [] then 0 else Charges(log[..|log| - 1], f, lo, hi) + if ChargedAt(log[|log| - 1], f, lo, hi)
        then 1 else 0
  }

  function AllCharges(log: seq<Record>, lo: int, hi: int): nat {
    if log == [] then 0
    else
      var r := log[|log| - 1];
      AllCharges(log[..|log| - 1], lo, hi) + if r.Granting? && lo <= r.at <= hi then 1 else 0
  }

  lemma {:induction false} ChargesSplit(log: seq<Record>, f: Family, lo: int, mid: int, hi: int)
    requires lo <= mid <= hi + 1
    ensures Charges(log, f, lo, hi) == Charges(log, f, lo, mid - 1) + Charges(log, f, mid, hi)
    decreases |log|
  {
    hide FamilyOf;
    if log != [] {
      ChargesSplit(log[..|log| - 1], f, lo, mid, hi);
    }
  }

  lemma {:induction false} ChargesGrow(log: seq<Record>, f: Family, lo: int, hi: int, lo': int, hi': int)
    requires lo' <= lo && hi <= hi'
    ensures Charges(log, f, lo, hi) <= Charges(log, f, lo', hi')
    decreases |log|
  {
    hide FamilyOf;
    if log != [] {
      ChargesGrow(log[..|log| - 1], f, lo, hi, lo', hi');
    }
  }

  ghost predicate NoneAfter(log: seq<Record>, t: int) {
    forall k | 0 <= k < |log| && log[k].Granting? :: log[k].at <= t
  }

  lemma {:induction false} NoCharges(log: seq<Record>, f: Family, lo: int, hi: int, t: int)
    requires NoneAfter(log, t) && t < lo
    ensures Charges(log, f, lo, hi) == 0 && AllCharges(log, lo, hi) == 0
    decreases |log|
  {
    hide FamilyOf;
    if log != [] {
      assert forall k | 0 <= k < |log| - 1 :: log[k] == log[..|log| - 1][k];
      NoCharges(log[..|log| - 1], f, lo, hi, t);
    }
  }

  lemma {:induction false} ChargesAtMost(log: seq<Record>, f: Family, lo: int, hi: int)
    ensures Charges(log, f, lo, hi) <= |log| && AllCharges(log, lo, hi) <= |log|
    decreases |log|
  {
    hide FamilyOf;
    if log != [] {
      ChargesAtMost(log[..|log| - 1], f, lo, hi);
    }
  }

  lemma ChargesAppend(log: seq<Record>, r: Record, f: Family, lo: int, hi: int)
    ensures Charges(log + [r], f, lo, hi) == Charges(log, f, lo, hi) + if ChargedAt(r, f, lo, hi) then 1 else 0
    ensures AllCharges(log + [r], lo, hi) == AllCharges(log, lo, hi) + if r.Granting? && lo <= r.at <= hi then 1 else 0
  {
    hide ChargedAt;
    assert (log + [r])[..|log|] == log;
  }

  /** Every grant is of one family. */
  lemma {:induction false} FamiliesPartition(log: seq<Record>, lo: int, hi: int)
    ensures AllCharges(log, lo, hi)
            == Charges(log, Preemptions, lo, hi) + Charges(log, Migrations, lo, hi) + Charges(log, Placements, lo, hi)
               + Charges(log, Throttles, lo, hi) + Charges(log, Collectives, lo, hi) + Charges(log, Unbudgeted, lo, hi)
    decreases |log|
  {
    hide FamilyOf;
    if log != [] {
      FamiliesPartition(log[..|log| - 1], lo, hi);
    }
  }

  // ----- Counters -----

  /** A budget apart from its window and use. */
  function Limits(b: ActionBudget): ActionBudget { b.(windowStart := 0, used := BudgetUse(0, 0, 0, 0, 0, 0)) }

  /** The counters are the grants since the window began, and within the limit. */
  ghost predicate Exact(b: ActionBudget, log: seq<Record>, f: Family)
    requires !f.Unbudgeted?
  {
    var ws, max := b.windowStart, U64_MAX;
    && NoneAfter(log, ws + b.windowMs)
    && Used(b.used, f) == Charges(log, f, ws, max) <= Limit(b, f)
    && b.used.all == AllCharges(log, ws, max)
  }

  /**
   The interval of a window's length from lo on holds at most twice the limit and, if it reaches into
   the current window, at most the limit before that window.
   */
  ghost predicate Sparse(b: ActionBudget, log: seq<Record>, f: Family, lo: int)
    requires !f.Unbudgeted?
  {
    && Charges(log, f, lo, lo + b.windowMs) <= 2 * Limit(b, f)
    && (lo + b.windowMs >= b.windowStart ==> Charges(log, f, lo, b.windowStart - 1) <= Limit(b, f))
  }

  lemma ChargedCounts(u: BudgetUse, f: Family, g: Family)
    requires !f.Unbudgeted?
    requires Used(u, f) < U64_MAX && u.all < U64_MAX
    ensures Used(Charged(u, g), f) == Used(u, f) + if f == g then 1 else 0
    ensures Charged(u, g).all == u.all + 1
  {
  }

  lemma ConsumedKeepsExact(b: ActionBudget, log: seq<Record>, f: Family, r: Record)
    requires !f.Unbudgeted? && r.Granting? && |log| < U64_MAX
    requires Exact(b, log, f) && !Exhausted(b, r.cls) && b.windowStart <= r.at
    ensures Exact(Consumed(b, r.cls, r.at), log + [r], f)
  {
    hide NoneAfter, FamilyOf, Charged, Limit, Used;
    var c := Consumed(b, r.cls, r.at);
    var max := U64_MAX;
    ChargesAtMost(log, f, b.windowStart, max);
    ChargesAppend(log, r, f, c.windowStart, max);
    LimitFixed(b, r.cls, r.at, f);
    assert Sub64(r.at, b.windowStart) == r.at - b.windowStart;
    if r.at - b.windowStart > b.windowMs {
      NoCharges(log, f, r.at, max, b.windowStart + b.windowMs);
      ZeroUse(f);
      ChargedCounts(BudgetUse(0, 0, 0, 0, 0, 0), f, FamilyOf(r.cls));
      NoneAfterAppend(log, r, b.windowStart + b.windowMs, r.at + b.windowMs);
    } else {
      ChargedCounts(b.used, f, FamilyOf(r.cls));
      NoneAfterAppend(log, r, b.windowStart + b.windowMs, b.windowStart + b.windowMs);
    }
  }

  lemma ZeroUse(f: Family)
    requires !f.Unbudgeted?
    ensures Used(BudgetUse(0, 0, 0, 0, 0, 0), f) == 0
  {
  }

  lemma NoneAfterAppend(log: seq<Record>, r: Record, t: int, u: int)
    requires NoneAfter(log, t) && t <= u && (r.Granting? ==> r.at <= u)
    ensures NoneAfter(log + [r], u)
  {
  }

  lemma LimitFixed(b: ActionBudget, cls: InterventionClass, now: TimeMs, f: Family)
    requires !f.Unbudgeted?
    ensures Limit(Consumed(b, cls, now), f) == Limit(b, f)
    ensures Limits(Consumed(b, cls, now)) == Limits(b)
  {
    hide FamilyOf;
  }

  lemma ConsumedKeepsSparse(b: ActionBudget, log: seq<Record>, f: Family, r: Record, lo: int)
    requires !f.Unbudgeted? && r.Granting? && |log| < U64_MAX
    requires Exact(b, log, f) && !Exhausted(b, r.cls) && b.windowStart <= r.at && Sparse(b, log, f, lo)
    ensures Sparse(Consumed(b, r.cls, r.at), log + [r], f, lo)
  {
    hide NoneAfter, FamilyOf, Charged, Limit, Used;
    var c := Consumed(b, r.cls, r.at);
    var w, max, hi := b.windowMs, U64_MAX, lo + b.windowMs;
    ConsumedKeepsExact(b, log, f, r);
    LimitFixed(b, r.cls, r.at, f);
    ChargesAppend(log, r, f, lo, hi);
    ChargesAppend(log, r, f, lo, c.windowStart - 1);
    assert Sub64(r.at, b.windowStart) == r.at - b.windowStart;
    if lo <= r.at <= hi {
      if r.at - b.windowStart > w {
        // The interval begins inside the old window, which held no more than the limit.
        SplitAtEnd(log, f, lo, hi, b.windowStart, b.windowStart + w);
        if FamilyOf(r.cls) == f {
          LimitPositive(b, log, f, r);
        }
      } else {
        SplitAt(log + [r], f, lo, hi, b.windowStart);
        ChargesAppend(log, r, f, lo, b.windowStart - 1);
      }
    }
    if c.windowStart != b.windowStart && hi >= c.windowStart {
      SplitAtEnd(log, f, lo, c.windowStart - 1, b.windowStart, b.windowStart + w);
    }
  }

  /** An interval that begins in the current window holds no more than the window. */
  lemma SplitAtEnd(log: seq<Record>, f: Family, lo: int, hi: int, ws: int, end: int)
    requires ws <= lo && NoneAfter(log, end)
    ensures Charges(log, f, lo, hi) <= Charges(log, f, ws, U64_MAX)
  {
    hide NoneAfter;
    if hi <= U64_MAX {
      ChargesGrow(log, f, lo, hi, ws, U64_MAX);
    } else {
      TimesAreWords(log, f, lo, hi);
      ChargesGrow(log, f, lo, U64_MAX, ws, U64_MAX);
    }
  }

  lemma {:induction false} TimesAreWords(log: seq<Record>, f: Family, lo: int, hi: int)
    requires hi >= U64_MAX
    ensures Charges(log, f, lo, hi) == Charges(log, f, lo, U64_MAX)
    decreases |log|
  {
    hide FamilyOf;
    if log != [] {
      TimesAreWords(log[..|log| - 1], f, lo, hi);
    }
  }

  /** What an interval holds: its part before the window, and at most the window's count. */
  lemma SplitAt(log: seq<Record>, f: Family, lo: int, hi: int, ws: int)
    ensures Charges(log, f, lo, hi) <= Charges(log, f, lo, ws - 1) + Charges(log, f, ws, U64_MAX)
  {
    if lo <= ws <= hi + 1 {
      ChargesSplit(log, f, lo, ws, hi);
      ChargesUpTo(log, f, ws, hi);
    } else if ws < lo {
      ChargesUpTo(log, f, lo, hi);
      ChargesGrow(log, f, lo, U64_MAX, ws, U64_MAX);
    } else {
      ChargesGrow(log, f, lo, hi, lo, ws - 1);
    }
  }

  lemma ChargesUpTo(log: seq<Record>, f: Family, lo: int, hi: int)
    ensures Charges(log, f, lo, hi) <= Charges(log, f, lo, U64_MAX)
  {
    if hi <= U64_MAX {
      ChargesGrow(log, f, lo, hi, lo, U64_MAX);
    } else {
      TimesAreWords(log, f, lo, hi);
    }
  }

  lemma LimitPositive(b: ActionBudget, log: seq<Record>, f: Family, r: Record)
    requires !f.Unbudgeted? && r.Granting? && !Exhausted(b, r.cls) && FamilyOf(r.cls) == f
    ensures Limit(b, f) >= 1
  {
  }

  // ----- Over runs -----

  function Budget(g: State): ActionBudget { g.engine.policy.budget }

  lemma BudgetAfter(g: State, step: Step)
    requires !step.PolicySet?
    ensures Budget(Next(g, step))
            == if step.AuthorizeCalled? && Attempt(g, step.conflict, step.cls, step.now).Some?
               then Consumed(Budget(g), Attempt(g, step.conflict, step.cls, step.now).value.cls, step.now)
               else Budget(g)
    ensures step.AuthorizeCalled? && Attempt(g, step.conflict, step.cls, step.now).Some?
            ==> !Exhausted(Budget(g), Attempt(g, step.conflict, step.cls, step.now).value.cls)
  {
    hide Next, Consumed, Evaluate.Evaluate, Feasible, Exhausted, CoolingDown, Revalidate, MakeFence;
    PolicyAfterIs(g, step);
  }

  lemma BudgetStep(y: Sys, step: Step, f: Family, lo: int)
    requires !f.Unbudgeted? && !step.PolicySet? && |y.log| < U64_MAX
    requires step.AuthorizeCalled? ==> Budget(y.g).windowStart <= step.now
    requires Exact(Budget(y.g), y.log, f) && Sparse(Budget(y.g), y.log, f, lo)
    ensures var z := Apply(y, step);
            Exact(Budget(z.g), z.log, f) && Sparse(Budget(z.g), z.log, f, lo)
                && Limits(Budget(z.g)) == Limits(Budget(y.g))
  {
    hide Next, Note, Attempt, Exact, Sparse, Consumed, Exhausted, Limits, Budget;
    BudgetAfter(y.g, step);
    GrantNoted(y.g, step);
    NoteIsShort(y.g, step);
    var z := Apply(y, step);
    if step.AuthorizeCalled? && Attempt(y.g, step.conflict, step.cls, step.now).Some? {
      var r := Note(y.g, step)[0];
      ConsumedKeepsExact(Budget(y.g), y.log, f, r);
      ConsumedKeepsSparse(Budget(y.g), y.log, f, r, lo);
      LimitFixed(Budget(y.g), r.cls, r.at, f);
    } else if z.log != y.log {
      OtherRecord(Budget(y.g), y.log, f, lo, Note(y.g, step)[0]);
      assert z.log == y.log + [Note(y.g, step)[0]];
    }
  }

  lemma OtherRecord(b: ActionBudget, log: seq<Record>, f: Family, lo: int, r: Record)
    requires !f.Unbudgeted? && !r.Granting? && Exact(b, log, f) && Sparse(b, log, f, lo)
    ensures Exact(b, log + [r], f) && Sparse(b, log + [r], f, lo)
  {
    hide NoneAfter;
    NoneAfterAppend(log, r, b.windowStart + b.windowMs, b.windowStart + b.windowMs);
    ChargesAppend(log, r, f, b.windowStart, U64_MAX);
    ChargesAppend(log, r, f, lo, lo + b.windowMs);
    ChargesAppend(log, r, f, lo, b.windowStart - 1);
  }

  lemma {:induction false} WindowBeganBy(g: State, steps: seq<Step>, t: TimeMs)
    requires PolicyFixed(steps) && Budget(g).windowStart <= t
    requires forall k | 0 <= k < |steps| && steps[k].AuthorizeCalled? :: steps[k].now <= t
    ensures Budget(Run(Start(g), steps).g).windowStart <= t
    decreases |steps|
  {
    hide Next, Note, Attempt, Budget, FamilyOf, Charged;
    if steps != [] {
      var front := steps[..|steps| - 1];
      WindowBeganBy(g, front, t);
      BudgetAfter(Run(Start(g), front).g, steps[|steps| - 1]);
    }
  }

  /** An unused budget, its window begun. */
  predicate Unused(b: ActionBudget) { b.used == BudgetUse(0, 0, 0, 0, 0, 0) }

  lemma {:induction false} BudgetAlways(g: State, steps: seq<Step>, f: Family, lo: int)
    requires !f.Unbudgeted? && PolicyFixed(steps) && ClockRuns(steps, Budget(g).windowStart) && |steps| < TWO_64
    requires Unused(Budget(g))
    ensures var y := Run(Start(g), steps);
            Exact(Budget(y.g), y.log, f) && Sparse(Budget(y.g), y.log, f, lo)
                && Limits(Budget(y.g)) == Limits(Budget(g))
    decreases |steps|
  {
    hide Apply, Exact, Sparse, Limits, Budget;
    if steps == [] {
      UnusedIsExact(Budget(g), f, lo);
    } else {
      var front, step := steps[..|steps| - 1], steps[|steps| - 1];
      assert forall k | 0 <= k < |front| :: front[k] == steps[k];
      BudgetAlways(g, front, f, lo);
      if step.AuthorizeCalled? {
        WindowBeganBy(g, front, step.now);
      }
      LogIsNoLonger(g, front);
      BudgetStep(Run(Start(g), front), step, f, lo);
    }
  }

  lemma UnusedIsExact(b: ActionBudget, f: Family, lo: int)
    requires !f.Unbudgeted? && Unused(b)
    ensures Exact(b, [], f) && Sparse(b, [], f, lo)
  {
  }

  /**
   In every run under one policy, by a clock that does not go back: each counter is the number of
   grants of its family since the window began, and within the limit; the counters and the grants
   no counter is kept for add up to the total.
   */
  lemma BudgetIsExact(g: State, steps: seq<Step>, f: Family)
    requires PolicyFixed(steps) && ClockRuns(steps, Budget(g).windowStart) && |steps| < TWO_64 && Unused(Budget(g))
    ensures var y := Run(Start(g), steps);
            var b, since := Budget(y.g), (h: Family) => Charges(y.log, h, Budget(y.g).windowStart, U64_MAX);
            && (!f.Unbudgeted? ==> Used(b.used, f) == since(f) <= Limit(Budget(g), f))
            && b.used.preemptions + b.used.migrations + b.used.placementChanges + b.used.throttles
               + b.used.collectiveReschedules + since(Unbudgeted) == b.used.all
  {
    hide Run, Charges, AllCharges, NoneAfter, Sparse;
    var y := Run(Start(g), steps);
    var b := Budget(y.g);
    BudgetAlways(g, steps, Preemptions, 0);
    BudgetAlways(g, steps, Migrations, 0);
    BudgetAlways(g, steps, Placements, 0);
    BudgetAlways(g, steps, Throttles, 0);
    BudgetAlways(g, steps, Collectives, 0);
    FamiliesPartition(y.log, b.windowStart, U64_MAX);
  }

  /** Any interval as long as the window holds at most twice the family's limit of grants. */
  lemma RateBound(g: State, steps: seq<Step>, f: Family, lo: int)
    requires PolicyFixed(steps) && ClockRuns(steps, Budget(g).windowStart) && |steps| < TWO_64 && Unused(Budget(g))
    requires !f.Unbudgeted?
    ensures Charges(Run(Start(g), steps).log, f, lo, lo + Budget(g).windowMs) <= 2 * Limit(Budget(g), f)
  {
    hide Run, Charges, AllCharges, NoneAfter, Exact;
    BudgetAlways(g, steps, f, lo);
  }

  // ----- The counters are the records on file -----

  predicate FiledAt(r: InterventionRecord, f: Family, lo: int, hi: int) {
    FamilyOf(r.cls) == f && lo <= r.authorizedAt <= hi
  }

  /** The interventions on file of the family that were authorized from lo to hi. */
  function Filed(rs: map<InterventionId, InterventionRecord>, f: Family, lo: int, hi: int): set<InterventionId> {
    set i | i in rs && FiledAt(rs[i], f, lo, hi)
  }

  /** The records are as they were, in class and time, but for a new one under key k if one is granted. */
  ghost predicate Carried(rs: map<InterventionId, InterventionRecord>, ts: map<InterventionId, InterventionRecord>,
                          k: InterventionId, granted: bool) {
    && k !in rs && (granted <==> k in ts) && (forall i | i in ts && i != k :: i in rs)
    && forall i | i in rs :: i in ts && ts[i].cls == rs[i].cls && ts[i].authorizedAt == rs[i].authorizedAt
  }

  lemma CarriedCount(rs: map<InterventionId, InterventionRecord>, ts: map<InterventionId, InterventionRecord>,
                     k: InterventionId, granted: bool, f: Family, lo: int, hi: int)
    requires Carried(rs, ts, k, granted)
    ensures |Filed(ts, f, lo, hi)| == |Filed(rs, f, lo, hi)| + if granted && FiledAt(ts[k], f, lo, hi) then 1 else 0
  {
    hide FiledAt, Filed, Carried;
    CarriedFiled(rs, ts, k, granted, f, lo, hi, k);
    var more := if granted && FiledAt(ts[k], f, lo, hi) then {k} else {};
    forall i: InterventionId
      ensures i in Filed(ts, f, lo, hi) <==> i in Filed(rs, f, lo, hi) || i in more
    {
      CarriedFiled(rs, ts, k, granted, f, lo, hi, i);
    }
    assert Filed(ts, f, lo, hi) == Filed(rs, f, lo, hi) + more;
  }

  lemma CarriedFiled(rs: map<InterventionId, InterventionRecord>, ts: map<InterventionId, InterventionRecord>,
                     k: InterventionId, granted: bool, f: Family, lo: int, hi: int, i: InterventionId)
    requires Carried(rs, ts, k, granted)
    ensures i in Filed(ts, f, lo, hi) <==> i in Filed(rs, f, lo, hi) || (i == k && k in ts && FiledAt(ts[k], f, lo, hi))
    ensures k !in Filed(rs, f, lo, hi) && (granted <==> k in ts)
  {
    hide FamilyOf;
  }

  lemma RecordsCarried(g: State, step: Step)
    requires Numbered(g)
    ensures Carried(g.engine.interventions, Next(g, step).engine.interventions, g.nextInterventionId,
                    step.AuthorizeCalled? && Attempt(g, step.conflict, step.cls, step.now).Some?)
  {
    hide Next, Attempt, Numbered;
    var rs, ts := g.engine.interventions, Next(g, step).engine.interventions;
    forall i
      ensures i in rs ==> i != g.nextInterventionId && i in ts && ts[i].cls == rs[i].cls
                          && ts[i].authorizedAt == rs[i].authorizedAt
      ensures i !in rs ==> (i in ts <==> step.AuthorizeCalled? && Attempt(g, step.conflict, step.cls, step.now).Some?
                                         && i == g.nextInterventionId)
    {
      if i in rs {
        BelowCounter(g, i);
        RecordsStay(g, step, i);
      } else {
        OnlyGrantsAdd(g, step, i);
      }
    }
  }

  lemma FiledStep(y: Sys, step: Step, f: Family, lo: int, hi: int)
    requires Numbered(y.g) && |Filed(y.g.engine.interventions, f, lo, hi)| == Charges(y.log, f, lo, hi)
    ensures var z := Apply(y, step);
            |Filed(z.g.engine.interventions, f, lo, hi)| == Charges(z.log, f, lo, hi)
  {
    hide Next, Note, Attempt, FamilyOf, Numbered, Charges, Filed, Carried;
    if !Due(y, step) {
      return;
    }
    var granted := step.AuthorizeCalled? && Attempt(y.g, step.conflict, step.cls, step.now).Some?;
    RecordsCarried(y.g, step);
    CarriedCount(y.g.engine.interventions, Next(y.g, step).engine.interventions, y.g.nextInterventionId, granted,
                 f, lo, hi);
    GrantNoted(y.g, step);
    NoteIsShort(y.g, step);
    var z := Apply(y, step);
    if granted {
      GrantRecord(y.g, step);
    }
    if z.log != y.log {
      ChargesAppend(y.log, Note(y.g, step)[0], f, lo, hi);
      assert z.log == y.log + [Note(y.g, step)[0]];
    }
  }

  lemma BelowCounter(g: State, i: InterventionId)
    requires Numbered(g) && i in g.engine.interventions
    ensures i < g.nextInterventionId
  {
  }

  lemma GrantRecord(g: State, step: Step)
    requires Numbered(g) && step.AuthorizeCalled? && Attempt(g, step.conflict, step.cls, step.now).Some?
    ensures var a, ts := Attempt(g, step.conflict, step.cls, step.now).value, Next(g, step).engine.interventions;
            && g.nextInterventionId in ts
            && ts[g.nextInterventionId].cls == a.cls && ts[g.nextInterventionId].authorizedAt == step.now
  {
    hide Next, Attempt;
    OnlyGrantsAdd(g, step, g.nextInterventionId);
  }

  lemma {:induction false} FiledAlways(g: State, steps: seq<Step>, f: Family, lo: int, hi: int)
    requires g.engine.interventions == map[] && Room(g, |steps|)
    ensures var y := Run(Start(g), steps);
            |Filed(y.g.engine.interventions, f, lo, hi)| == Charges(y.log, f, lo, hi)
    decreases |steps|
  {
    hide Apply, Filed, Numbered, Room;
    if steps == [] {
      NoneFiled(f, lo, hi);
    } else {
      var front := steps[..|steps| - 1];
      assert Numbered(g) by { NothingNumbered(g); }
      assert Room(g, |front|) by { LessRoomNeeded(g, |steps|, |front|); }
      FiledAlways(g, front, f, lo, hi);
      NumberedAlways(Start(g), front);
      FiledStep(Run(Start(g), front), steps[|steps| - 1], f, lo, hi);
    }
  }

  lemma NoneFiled(f: Family, lo: int, hi: int)
    ensures |Filed(map[], f, lo, hi)| == 0
  {
    assert Filed(map[], f, lo, hi) == {};
  }

  lemma NothingNumbered(g: State)
    requires g.engine.interventions == map[]
    ensures Numbered(g)
  {
  }

  lemma LessRoomNeeded(g: State, m: nat, n: nat)
    requires Room(g, m) && n <= m
    ensures Room(g, n)
  {
  }

  /** In every run from an empty table each counter is the number of records on file since the window began. */
  lemma CountersCountRecords(g: State, steps: seq<Step>, f: Family)
    requires PolicyFixed(steps) && ClockRuns(steps, Budget(g).windowStart) && |steps| < TWO_64 && Unused(Budget(g))
    requires g.engine.interventions == map[] && Room(g, |steps|) && !f.Unbudgeted?
    ensures var y := Run(Start(g), steps);
            Used(Budget(y.g).used, f) == |Filed(y.g.engine.interventions, f, Budget(y.g).windowStart, U64_MAX)|
  {
    hide Run, Charges, AllCharges, NoneAfter, Filed, Room;
    BudgetAlways(g, steps, f, 0);
    FiledAlways(g, steps, f, Budget(Run(Start(g), steps).g).windowStart, U64_MAX);
  }

  // ----- The counters are not rolled when they are checked -----

  lemma ExhaustedRefused(g: State, k: ConflictId, cls: InterventionClass, now: TimeMs)
    requires cls != NoAction && Exhausted(Budget(g), cls)
    ensures Attempt(g, k, cls, now).None?
  {
    hide Evaluate.Evaluate, Feasible, Exhausted, CoolingDown, Revalidate, MakeFence;
  }

  /** The step grants something, of whatever class, when the window is over; and the family may act at all. */
  predicate Relieves(g: State, step: Step, cls: InterventionClass)
    requires !FamilyOf(cls).Unbudgeted?
  {
    && step.AuthorizeCalled?
    && Attempt(g, step.conflict, step.cls, step.now).Some?
    && Sub64(step.now, Budget(g).windowStart) > Budget(g).windowMs
    && Limit(Budget(g), FamilyOf(cls)) > 0
  }

  /** An exhausted family is relieved by exactly these steps: not by time, nor by a grant inside the window. */
  lemma ReliefIff(g: State, step: Step, cls: InterventionClass)
    requires Exhausted(Budget(g), cls) && !step.PolicySet?
    ensures !Exhausted(Budget(Next(g, step)), cls) <==> Relieves(g, step, cls)
  {
    hide Next, Attempt;
    BudgetAfter(g, step);
  }

  lemma BudgetOfApply(y: Sys, step: Step)
    ensures EndsDispatch(step) || Apply(y, step).g == Next(y.g, step)
    ensures EndsDispatch(step) ==> Budget(Apply(y, step).g) == Budget(y.g)
  {
    hide Next, Note;
    if EndsDispatch(step) {
      BudgetAfter(y.g, step);
    }
  }

  /** At every point of the run. */
  predicate ExhaustedThroughout(y: Sys, steps: seq<Step>, cls: InterventionClass) {
    && Exhausted(Budget(Run(y, steps).g), cls)
    && (steps == [] || ExhaustedThroughout(y, steps[..|steps| - 1], cls))
  }

  /** By no step of the run. */
  predicate NeverRelieved(y: Sys, steps: seq<Step>, cls: InterventionClass)
    requires !FamilyOf(cls).Unbudgeted?
  {
    steps == []
    || (NeverRelieved(y, steps[..|steps| - 1], cls)
        && !Relieves(Run(y, steps[..|steps| - 1]).g, steps[|steps| - 1], cls))
  }

  /** In a run under one policy a family exhausted at the start stays so throughout exactly if no step relieves it. */
  lemma {:induction false} StaysExhaustedIff(y: Sys, steps: seq<Step>, cls: InterventionClass)
    requires Exhausted(Budget(y.g), cls) && PolicyFixed(steps)
    ensures ExhaustedThroughout(y, steps, cls) <==> NeverRelieved(y, steps, cls)
    decreases |steps|
  {
    hide Apply, Exhausted, Relieves, Budget;
    if steps != [] {
      var front, step := steps[..|steps| - 1], steps[|steps| - 1];
      assert forall i | 0 <= i < |front| :: front[i] == steps[i];
      StaysExhaustedIff(y, front, cls);
      var x := Run(y, front);
      if ExhaustedThroughout(y, front, cls) {
        BudgetOfApply(x, step);
        ReliefIff(x.g, step, cls);
        if EndsDispatch(step) {
          OnlyGrantsRelieve(x.g, step, cls);
        }
      }
    }
  }

  lemma OnlyGrantsRelieve(g: State, step: Step, cls: InterventionClass)
    requires Exhausted(Budget(g), cls) && !step.AuthorizeCalled?
    ensures !Relieves(g, step, cls)
  {
  }

  /**
   Each authorization names a class whose family is exhausted at the start, or leaves the choice to
   such a decision.
   */
  ghost predicate AsksForExhausted(y: Sys, steps: seq<Step>) {
    forall i | 0 <= i < |steps| && steps[i].AuthorizeCalled? ::
      if steps[i].cls != NoAction then Exhausted(Budget(y.g), steps[i].cls)
      else
        var d := DecisionOn(Run(y, steps[..i]).g, steps[i].conflict);
        d.None? || Exhausted(Budget(y.g), d.value.cls)
  }

  lemma RefusedStep(x: Sys, step: Step)
    requires !step.PolicySet?
    requires step.AuthorizeCalled? ==>
               if step.cls != NoAction then Exhausted(Budget(x.g), step.cls)
               else var d := DecisionOn(x.g, step.conflict); d.None? || Exhausted(Budget(x.g), d.value.cls)
    ensures Budget(Apply(x, step).g) == Budget(x.g) && forall r | r in Note(x.g, step) :: !r.Granting?
  {
    hide Next, Note, Attempt, Exhausted, Budget, DecisionOn;
    if step.AuthorizeCalled? {
      if step.cls != NoAction {
        ExhaustedRefused(x.g, step.conflict, step.cls, step.now);
      } else {
        AuthorizeIff(x.g, step.conflict, step.now);
        assert x.g.engine.policy.budget == Budget(x.g) by { BudgetIs(x.g); }
      }
    }
    BudgetAfter(x.g, step);
    BudgetOfApply(x, step);
    GrantNoted(x.g, step);
  }

  lemma BudgetIs(g: State)
    ensures Budget(g) == g.engine.policy.budget
  {
  }

  /**
   Whatever the clock says: when every authorization asks for, or decides on, an exhausted family, none
   is ever granted, the budget stays as it is, and the next one is refused too.
   */
  lemma {:induction false} TimeAloneGivesNoRelief(y: Sys, steps: seq<Step>)
    requires PolicyFixed(steps) && AsksForExhausted(y, steps)
    ensures Budget(Run(y, steps).g) == Budget(y.g)
    ensures y.log <= Run(y, steps).log
    ensures forall k | |y.log| <= k < |Run(y, steps).log| :: !Run(y, steps).log[k].Granting?
    ensures forall cls, k, now | cls != NoAction && Exhausted(Budget(y.g), cls) ::
              Attempt(Run(y, steps).g, k, cls, now).None?
    decreases |steps|
  {
    hide Next, Note, Attempt, Exhausted, Budget, DecisionOn;
    if steps != [] {
      var front, step := steps[..|steps| - 1], steps[|steps| - 1];
      assert forall i | 0 <= i < |front| :: front[i] == steps[i] && front[..i] == steps[..i];
      assert steps[|front|] == step && steps[..|front|] == front;
      TimeAloneGivesNoRelief(y, front);
      RefusedStep(Run(y, front), step);
    }
    forall cls, k, now | cls != NoAction && Exhausted(Budget(y.g), cls)
      ensures Attempt(Run(y, steps).g, k, cls, now).None?
    {
      ExhaustedRefused(Run(y, steps).g, k, cls, now);
    }
  }

  // ----- The total is not held to its limit -----

  /** A grant that finds the total already at its limit, inside the window. */
  predicate Overruns(g: State, step: Step) {
    && step.AuthorizeCalled?
    && Attempt(g, step.conflict, step.cls, step.now).Some?
    && Budget(g).used.all >= Budget(g).maxAnyPerWindow
    && Sub64(step.now, Budget(g).windowStart) <= Budget(g).windowMs
  }

  /** A charge takes the total past its limit exactly when it finds it there already and the window is not over. */
  lemma OverrunIff(b: ActionBudget, cls: InterventionClass, now: TimeMs)
    requires b.maxAnyPerWindow > 0 && b.used.all < U64_MAX
    ensures var c := Consumed(b, cls, now);
            && c.maxAnyPerWindow == b.maxAnyPerWindow
            && (c.used.all > c.maxAnyPerWindow
                <==> b.used.all >= b.maxAnyPerWindow && Sub64(now, b.windowStart) <= b.windowMs)
  {
    hide FamilyOf;
  }

  predicate TotalKept(g: State) { Budget(g).used.all <= Budget(g).maxAnyPerWindow }

  lemma OverrunStep(y: Sys, step: Step)
    requires !step.PolicySet? && Budget(y.g).maxAnyPerWindow > 0 && Budget(y.g).used.all < U64_MAX && TotalKept(y.g)
    ensures TotalKept(Apply(y, step).g) <==> !Overruns(y.g, step)
  {
    hide Next, Note, Attempt, Consumed;
    BudgetAfter(y.g, step);
    BudgetOfApply(y, step);
    if step.AuthorizeCalled? && Attempt(y.g, step.conflict, step.cls, step.now).Some? {
      OverrunIff(Budget(y.g), Attempt(y.g, step.conflict, step.cls, step.now).value.cls, step.now);
    }
  }

  predicate TotalKeptThroughout(y: Sys, steps: seq<Step>) {
    TotalKept(Run(y, steps).g) && (steps == [] || TotalKeptThroughout(y, steps[..|steps| - 1]))
  }

  predicate NeverOverrun(y: Sys, steps: seq<Step>) {
    steps == []
    || (NeverOverrun(y, steps[..|steps| - 1]) && !Overruns(Run(y, steps[..|steps| - 1]).g, steps[|steps| - 1]))
  }

  /**
   In a run under one policy from an unused budget, by a clock that does not go back, the total is the
   number of grants since the window began, and it is held to its limit throughout exactly if no grant
   comes when it is already there, inside the window.
   */
  lemma {:induction false} TotalKeptIff(g: State, steps: seq<Step>)
    requires PolicyFixed(steps) && ClockRuns(steps, Budget(g).windowStart) && |steps| < TWO_64 && Unused(Budget(g))
    requires Budget(g).maxAnyPerWindow > 0
    ensures var y := Run(Start(g), steps);
            && Budget(y.g).used.all == AllCharges(y.log, Budget(y.g).windowStart, U64_MAX)
            && Budget(y.g).maxAnyPerWindow == Budget(g).maxAnyPerWindow
    ensures TotalKeptThroughout(Start(g), steps) <==> NeverOverrun(Start(g), steps)
    decreases |steps|
  {
    hide Apply, TotalKept, Overruns, Budget, Charges, AllCharges, PolicyFixed, ClockRuns, Unused;
    TotalIsCharges(g, steps);
    if steps == [] {
      UnusedIsKept(g);
    } else {
      var front, step := steps[..|steps| - 1], steps[|steps| - 1];
      FrontRuns(steps, Budget(g).windowStart);
      TotalKeptIff(g, front);
      var x := Run(Start(g), front);
      LogIsNoLonger(g, front);
      ChargesAtMost(x.log, Unbudgeted, Budget(x.g).windowStart, U64_MAX);
      if TotalKept(x.g) {
        OverrunStep(x, step);
      }
    }
  }

  lemma UnusedIsKept(g: State)
    requires Unused(Budget(g))
    ensures TotalKept(g)
  {
  }

  lemma TotalIsCharges(g: State, steps: seq<Step>)
    requires PolicyFixed(steps) && ClockRuns(steps, Budget(g).windowStart) && |steps| < TWO_64 && Unused(Budget(g))
    ensures var y := Run(Start(g), steps);
            && Budget(y.g).used.all == AllCharges(y.log, Budget(y.g).windowStart, U64_MAX)
            && Budget(y.g).maxAnyPerWindow == Budget(g).maxAnyPerWindow
  {
    hide Run, Charges, AllCharges, NoneAfter, Sparse;
    BudgetAlways(g, steps, Throttles, 0);
  }
}
