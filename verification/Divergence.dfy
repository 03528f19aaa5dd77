/** When replay fails to confirm a selection: for every state, every step and every run. */
module Divergence {
  import opened Words
  import opened Enums
  import opened Entities
  import opened Rules
  import opened Ranking
  import opened Evaluate
  import opened Effects
  import opened Steps
  import opened IntegrityKept
  import opened Machine
  import opened Dispatching
  import opened Agreement
  import opened Replays
  import opened Quarantine
  import opened EvidenceLog

  /** A class on a workload. */
  type Pair = (InterventionClass, WorkloadId)

  /** What was selected for conflict j. */
  ghost function Selected(n: Engine, j: ConflictId): set<Pair> {
    if j in n.conflicts then
      set i | i in n.conflicts[j].selectedIds && i in n.interventions ::
        (n.interventions[i].cls, n.interventions[i].target)
    else {}
  }

  /** The conflict passes the gates, and the best pair for it is one of these. */
  ghost predicate Upheld(n: Engine, j: ConflictId, pairs: set<Pair>) {
    && j in n.conflicts
    && Refusal(n.policy, n.conflicts[j], UsableEvidence(n, n.conflicts[j].evidenceIds)).None?
    && exists p | p in pairs :: BestPair(n, n.conflicts[j].associated, p.0, p.1)
  }

  lemma MatchesIsSelected(n: Engine, j: ConflictId, d: Candidate)
    requires j in n.conflicts
    ensures Matches(n, n.conflicts[j].selectedIds, d) <==> (d.cls, d.target) in Selected(n, j)
  {
  }

  lemma DecisionUpholds(n: Engine, j: ConflictId, d: Candidate, pairs: set<Pair>)
    requires Evaluate.Evaluate(n, j, n.authority).decision == Some(d)
    ensures Upheld(n, j, pairs) <==> (d.cls, d.target) in pairs
  {
    hide Evaluate.Evaluate, Refusal, BestPair, UsableEvidence, MakeCandidate;
    DecisionIsBestPair(n, j, d);
    if Upheld(n, j, pairs) {
      var p :| p in pairs && BestPair(n, n.conflicts[j].associated, p.0, p.1);
      BestPairIsUnique(n, n.conflicts[j].associated, d.cls, d.target, p.0, p.1);
    }
    if (d.cls, d.target) in pairs {
      var p := (d.cls, d.target);
      assert BestPair(n, n.conflicts[j].associated, p.0, p.1);
    }
  }

  lemma NoneUpheld(n: Engine, j: ConflictId, pairs: set<Pair>)
    requires Evaluate.Evaluate(n, j, n.authority).decision.None?
    ensures !Upheld(n, j, pairs)
  {
    hide Evaluate.Evaluate, Refusal, BestPair, UsableEvidence;
    if Upheld(n, j, pairs) {
      var p :| p in pairs && BestPair(n, n.conflicts[j].associated, p.0, p.1);
      DecisionIsBestPair(n, j, MakeCandidate(p.0, p.1, true));
    }
  }

  /**
   Replay reports a conflict diverged exactly when something was selected for it and either it no longer
   passes the gates or the best pair for it, as things stand, is not among what was selected.
   */
  lemma DivergesIff(n: Engine, j: ConflictId)
    ensures Diverges(n, j)
            <==> j in n.conflicts && n.conflicts[j].selectedIds != [] && !Upheld(n, j, Selected(n, j))
  {
    hide Evaluate.Evaluate, Upheld, Selected, Matches;
    if j in n.conflicts {
      match Evaluate.Evaluate(n, j, n.authority).decision
      case None => NoneUpheld(n, j, Selected(n, j));
      case Some(d) =>
        MatchesIsSelected(n, j, d);
        DecisionUpholds(n, j, d, Selected(n, j));
    }
  }

  // ----- Steps -----

  /** Every record is among the selections of its conflict. */
  ghost predicate Listed(n: Engine) {
    forall i | i in n.interventions ::
      && n.interventions[i].conflictId in n.conflicts
      && i in n.conflicts[n.interventions[i].conflictId].selectedIds
  }

  ghost predicate Sound(g: State) {
    Tidy(g) && Listed(g.engine) && forall k | k in g.engine.conflicts :: k < g.nextConflictId
  }

  predicate Grants(g: State, step: Step) {
    step.AuthorizeCalled? && Attempt(g, step.conflict, step.cls, step.now).Some?
  }

  /** What the step selects for conflict j. */
  function Chosen(g: State, step: Step, j: ConflictId): set<Pair> {
    if Grants(g, step) && step.conflict == j then
      var a := Attempt(g, step.conflict, step.cls, step.now).value; {(a.cls, a.target)}
    else {}
  }

  function NewlySelected(g: State, step: Step, j: ConflictId): seq<InterventionId> {
    if Grants(g, step) && step.conflict == j then [g.nextInterventionId] else []
  }

  lemma SelectionsAfter(g: State, step: Step, j: ConflictId)
    requires j in g.engine.conflicts ==> j < g.nextConflictId
    ensures var cs, ds := g.engine.conflicts, Next(g, step).engine.conflicts;
            && (j in cs ==> j in ds)
            && (j in cs ==> ds[j].selectedIds == cs[j].selectedIds + NewlySelected(g, step, j))
            && (j in ds && j !in cs ==> ds[j].selectedIds == [])
    ensures Grants(g, step) ==> step.conflict in g.engine.conflicts
  {
    hide Next, Attempt, FindConflict, EvidenceIsValid, Identified, Machine.StepVerdict, ConflictStateAfter,
         ClassifySeverity;
    ConflictsAfterAre(g, step);
    if Grants(g, step) {
      AttemptNeedsConflict(g, step.conflict, step.cls, step.now);
    }
  }

  lemma SelectedAfter(g: State, step: Step, j: ConflictId)
    requires Sound(g) && Room(g, 1)
    ensures Selected(Next(g, step).engine, j) == Selected(g.engine, j) + Chosen(g, step, j)
  {
    hide Next, Attempt, Numbered, Integrity, Listed;
    var n, m := g.engine, Next(g, step).engine;
    SelectionsAfter(g, step, j);
    if j in n.conflicts {
      forall i | i in n.conflicts[j].selectedIds
        ensures i in n.interventions && i in m.interventions && m.interventions[i].cls == n.interventions[i].cls
                && m.interventions[i].target == n.interventions[i].target
      {
        IntactOf(n, j);
        NumberedBelow(g, i);
        RecordsStay(g, step, i);
      }
      if Grants(g, step) {
        GrantSelects(g, step.conflict, step.cls, step.now);
      }
    }
  }

  lemma ListedStays(g: State, step: Step)
    requires Sound(g) && Room(g, 1)
    ensures Listed(Next(g, step).engine)
  {
    hide Next, Attempt, Numbered, Integrity;
    var n, m := g.engine, Next(g, step).engine;
    forall i | i in m.interventions
      ensures var k := m.interventions[i].conflictId; k in m.conflicts && i in m.conflicts[k].selectedIds
    {
      if i in n.interventions {
        NumberedBelow(g, i);
        RecordsStay(g, step, i);
        SelectionsAfter(g, step, n.interventions[i].conflictId);
      } else {
        OnlyGrantsAdd(g, step, i);
        SelectionsAfter(g, step, step.conflict);
      }
    }
  }

  lemma SoundStays(y: Sys, step: Step)
    requires Sound(y.g) && Room(y.g, 1)
    ensures Sound(Apply(y, step).g)
  {
    hide Next, Note, Numbered, Integrity, Listed;
    if Due(y, step) {
      NumberedStays(y.g, step);
      IntegrityStep(y, step);
      ListedStays(y.g, step);
      KeysBelow(y.g, step);
    }
  }

  lemma SomeSelected(g: State, j: ConflictId)
    requires Sound(g)
    ensures Selected(g.engine, j) != {} <==> j in g.engine.conflicts && g.engine.conflicts[j].selectedIds != []
  {
    hide Numbered, Integrity, Listed;
    if j in g.engine.conflicts && g.engine.conflicts[j].selectedIds != [] {
      IntactOf(g.engine, j);
      var i := g.engine.conflicts[j].selectedIds[0];
      assert (g.engine.interventions[i].cls, g.engine.interventions[i].target) in Selected(g.engine, j);
    }
  }

  /** In every reachable state the verdict is about what was selected. */
  lemma SoundDivergesIff(g: State, j: ConflictId)
    requires Sound(g)
    ensures Diverges(g.engine, j) <==> Selected(g.engine, j) != {} && !Upheld(g.engine, j, Selected(g.engine, j))
  {
    hide Diverges, Upheld, Selected, Sound;
    DivergesIff(g.engine, j);
    SomeSelected(g, j);
  }

  /** The steps that change nothing a decision reads: the lifecycle of interventions, and what is refused. */
  predicate LeavesDecisions(g: State, step: Step) {
    || step.DispatchBegun? || step.DispatchEnded? || step.DispatchUnserved? || step.Acked? || step.Failed?
    || (step.AuthorizeCalled? && !Grants(g, step))
    || (step.PolicySet? && !PolicyIsValid(step.policy))
    || ((step.EvidenceIngested? || step.EvidenceSubmitted?) && !EvidenceIsValid(step.e))
  }

  lemma OnlyRecordsChange(g: State, step: Step)
    requires LeavesDecisions(g, step)
    ensures Next(g, step).engine.(interventions := g.engine.interventions) == g.engine
  {
    hide Attempt, EvidenceIsValid, PolicyIsValid, Revalidate, Answered;
  }

  lemma DecisionLeft(g: State, step: Step, j: ConflictId)
    requires LeavesDecisions(g, step)
    ensures SameInputs(g.engine, Next(g, step).engine, j)
    ensures Chosen(g, step, j) == {}
  {
    hide Next, Attempt, EvidenceIsValid, PolicyIsValid, AtCap;
    OnlyRecordsChange(g, step);
    CapIgnoresConflicts(g.engine, Next(g, step).engine);
  }

  lemma UpheldAlike(g: State, h: State, j: ConflictId, pairs: set<Pair>)
    requires SameInputs(g.engine, h.engine, j)
    ensures Upheld(g.engine, j, pairs) <==> Upheld(h.engine, j, pairs)
  {
    hide Evaluate.Evaluate, Upheld, SameInputs;
    SameDecision(g, h, j);
    match DecisionOn(g, j)
    case None =>
      NoneUpheld(g.engine, j, pairs);
      NoneUpheld(h.engine, j, pairs);
    case Some(d) =>
      DecisionUpholds(g.engine, j, d, pairs);
      DecisionUpholds(h.engine, j, d, pairs);
  }

  lemma RestartUpholdsNothing(g: State, j: ConflictId, pairs: set<Pair>)
    ensures !Upheld(AdvanceEpoch(g).engine, j, pairs)
  {
    hide AdvanceEpoch, BestPair;
    var n := AdvanceEpoch(g).engine;
    AdvanceQuarantines(g);
    if j in n.conflicts {
      Quarantine.NothingUsable(n, n.conflicts[j].evidenceIds);
    }
  }

  /**
   Replay after any step: the conflict is reported diverged exactly when something is selected for it,
   the step's own grant included, that the state after the step does not uphold. So the lifecycle and
   refused requests leave every verdict, and after a restart every conflict with a selection is diverged.
   */
  lemma VerdictAfter(y: Sys, step: Step, j: ConflictId)
    requires Sound(y.g) && Room(y.g, 1)
    ensures var m, pairs := Apply(y, step).g.engine, Selected(y.g.engine, j) + Chosen(y.g, step, j);
            Diverges(m, j) <==> pairs != {} && !Upheld(m, j, pairs)
    ensures LeavesDecisions(y.g, step) ==> (Diverges(Apply(y, step).g.engine, j) <==> Diverges(y.g.engine, j))
    ensures step.EpochAdvanced? ==> (Diverges(Apply(y, step).g.engine, j) <==> Selected(y.g.engine, j) != {})
  {
    hide Next, Note, Attempt, Diverges, Upheld, Selected, Sound, LeavesDecisions, SameInputs, Room;
    var z := Apply(y, step);
    SoundStays(y, step);
    SoundDivergesIff(y.g, j);
    SoundDivergesIff(z.g, j);
    var none: set<Pair> := {};
    assert Selected(y.g.engine, j) + none == Selected(y.g.engine, j);
    if Due(y, step) {
      SelectedAfter(y.g, step, j);
      if LeavesDecisions(y.g, step) {
        DecisionLeft(y.g, step, j);
        UpheldAlike(y.g, z.g, j, Selected(y.g.engine, j));
      }
      if step.EpochAdvanced? {
        RestartUpholdsNothing(y.g, j, Selected(y.g.engine, j));
        assert Next(y.g, step) == AdvanceEpoch(y.g) by { NextIsRestart(y.g); }
      }
    }
  }

  lemma NextIsRestart(g: State)
    ensures Next(g, EpochAdvanced) == AdvanceEpoch(g)
  {
    hide AdvanceEpoch;
  }

  /** A conflict verified as resolved, with a degradation below the threshold, is reported diverged at once. */
  lemma ResolvedDiverges(y: Sys, step: Step, k: ConflictId)
    requires Sound(y.g) && Room(y.g, 1)
    requires Machine.StepVerdict(y.g, step).Some? && Machine.StepVerdict(y.g, step).value.outcome.Resolved?
    requires FindConflict(y.g.engine.conflicts, step.e.domain, step.e.victim) == Some(k)
    requires Degradation(step.e.metric, step.e.isolatedBaseline, step.e.coRunObservation)
             < y.g.engine.policy.actionabilityThreshold
    ensures Diverges(Apply(y, step).g.engine, k)
  {
    hide Next, Note, Diverges, Upheld, Selected, Sound, Room, Machine.StepVerdict, FindConflict, Degradation, Attempt;
    VerdictAfter(y, step, k);
    VerdictIsSelected(y.g, step, k);
    RemeasuredBelow(y.g, step, k);
    BelowUpholdsNothing(Apply(y, step).g.engine, k, Selected(y.g.engine, k) + Chosen(y.g, step, k));
  }

  lemma BelowUpholdsNothing(n: Engine, k: ConflictId, pairs: set<Pair>)
    requires k in n.conflicts ==> n.conflicts[k].degradation < n.policy.actionabilityThreshold
    ensures !Upheld(n, k, pairs)
  {
    hide BestPair, UsableEvidence, Attributable;
  }

  lemma VerdictIsSelected(g: State, step: Step, k: ConflictId)
    requires Sound(g) && Machine.StepVerdict(g, step).Some?
    requires FindConflict(g.engine.conflicts, step.e.domain, step.e.victim) == Some(k)
    ensures Selected(g.engine, k) != {}
  {
    hide FindConflict, Degradation, Improvement, EvidenceIsValid, OutcomeOf, Numbered, Selected, HarmedElsewhere;
    var n := g.engine;
    IntactOf(n, k);
    var i := FirstOpen(n.interventions, k);
    SomeSelected(g, k);
    assert i.Some?;
  }

  lemma RemeasuredBelow(g: State, step: Step, k: ConflictId)
    requires Machine.StepVerdict(g, step).Some?
    requires FindConflict(g.engine.conflicts, step.e.domain, step.e.victim) == Some(k)
    ensures var m := Next(g, step).engine;
            && k in m.conflicts && m.policy == g.engine.policy
            && m.conflicts[k].degradation
               == Degradation(step.e.metric, step.e.isolatedBaseline, step.e.coRunObservation)
  {
    hide Next, FindConflict, Degradation, VerdictOn, Attempt;
    ConflictsAfterAre(g, step);
    PolicyAfterIs(g, step);
  }

  // ----- Runs -----

  /** What the history grants for conflict j. */
  ghost function GrantedOn(log: seq<Record>, j: ConflictId): set<Pair> {
    set r | r in log && r.Granting? && r.conflict == j :: (r.cls, r.target)
  }

  lemma GrantedOnAppend(log: seq<Record>, more: seq<Record>, j: ConflictId)
    ensures GrantedOn(log + more, j) == GrantedOn(log, j) + GrantedOn(more, j)
  {
    forall p
      ensures p in GrantedOn(log + more, j) <==> p in GrantedOn(log, j) || p in GrantedOn(more, j)
    {
      if p in GrantedOn(log, j) {
        var r :| r in log && r.Granting? && r.conflict == j && p == (r.cls, r.target);
        assert r in log + more;
      }
      if p in GrantedOn(more, j) {
        var r :| r in more && r.Granting? && r.conflict == j && p == (r.cls, r.target);
        assert r in log + more;
      }
    }
  }

  lemma NoteGrants(g: State, step: Step, j: ConflictId)
    ensures GrantedOn(Note(g, step), j) == Chosen(g, step, j)
  {
    hide Note, Attempt;
    GrantNoted(g, step);
    if Grants(g, step) {
      var r := Note(g, step)[0];
      assert r in Note(g, step);
      assert forall q :: q in Note(g, step) ==> q == r;
      if step.conflict == j {
        assert (r.cls, r.target) in GrantedOn(Note(g, step), j);
      }
    }
  }

  /** In every run what is selected for a conflict is what was before and what the history grants for it. */
  lemma {:induction false} SelectedIsLog(g: State, steps: seq<Step>, j: ConflictId)
    requires Sound(g) && Room(g, |steps|)
    ensures var y := Run(Start(g), steps);
            Sound(y.g) && Selected(y.g.engine, j) == Selected(g.engine, j) + GrantedOn(y.log, j)
    decreases |steps|
  {
    hide Next, Note, Attempt, Selected, Sound, GrantedOn, Chosen;
    if steps == [] {
      assert GrantedOn([], j) == {} by { NothingGranted(j); }
    } else {
      var front, step := steps[..|steps| - 1], steps[|steps| - 1];
      SelectedIsLog(g, front, j);
      RoomLeft(Start(g), front, 1);
      var x := Run(Start(g), front);
      SoundStays(x, step);
      SelectedAfter(x.g, step, j);
      GrantedOnAppend(x.log, Note(x.g, step), j);
      NoteGrants(x.g, step, j);
    }
  }

  lemma NothingGranted(j: ConflictId)
    ensures GrantedOn([], j) == {}
  {
  }

  /**
   In every run: replay reports a conflict diverged exactly when something was granted for it and the
   conflict no longer passes the gates, or the best pair for it now is none of those granted.
   */
  lemma ReplayInRuns(g: State, steps: seq<Step>, j: ConflictId)
    requires Sound(g) && Room(g, |steps|) && Selected(g.engine, j) == {}
    ensures var y := Run(Start(g), steps);
            Diverges(y.g.engine, j) <==> GrantedOn(y.log, j) != {} && !Upheld(y.g.engine, j, GrantedOn(y.log, j))
  {
    hide Run, Diverges, Upheld, Selected, Sound, GrantedOn;
    SelectedIsLog(g, steps, j);
    assert {} + GrantedOn(Run(Start(g), steps).log, j) == GrantedOn(Run(Start(g), steps).log, j);
    SoundDivergesIff(Run(Start(g), steps).g, j);
  }

  lemma FreshIsSound(p: Policy, a: AuthorityContext, j: ConflictId)
    ensures Sound(Fresh(p, a)) && Selected(Fresh(p, a).engine, j) == {}
  {
  }
}
