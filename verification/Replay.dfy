/** Replay: evaluating every conflict again and comparing with what was recorded as selected. */
module Replays {
  import opened Words
  import opened Enums
  import opened Entities
  import opened Rules
  import opened Ranking
  import opened Evaluate
  import opened Evaluator
  import opened Steps

  datatype ReplayReport = ReplayReport(conflictsEvaluated: nat, candidatesBuilt: nat, diverged: seq<ConflictId>,
                                       code: StatusCode)

  /** Some selected intervention has the class and the target of d. */
  predicate Matches(n: Engine, selected: seq<InterventionId>, d: Candidate) {
    exists i | i in selected ::
      i in n.interventions && n.interventions[i].cls == d.cls && n.interventions[i].target == d.target
  }

  /** The conflict has selections and the decision made now matches none of them. */
  predicate Diverges(n: Engine, k: ConflictId) {
    && k in n.conflicts
    && n.conflicts[k].selectedIds != []
    && var d := Evaluate.Evaluate(n, k, n.authority).decision;
       d.None? || !Matches(n, n.conflicts[k].selectedIds, d.value)
  }

  function CandidateCount(n: Engine, ks: seq<ConflictId>): nat {
    if ks == [] then 0
    else CandidateCount(n, ks[..|ks| - 1]) + |Evaluate.Evaluate(n, ks[|ks| - 1], n.authority).candidates|
  }

  function Divergent(n: Engine, ks: seq<ConflictId>): seq<ConflictId> {
    if ks == [] then []
    else Divergent(n, ks[..|ks| - 1]) + if Diverges(n, ks[|ks| - 1]) then [ks[|ks| - 1]] else []
  }

  lemma {:induction false} DivergentAre(n: Engine, ks: seq<ConflictId>)
    requires Ascending(ks)
    ensures Ascending(Divergent(n, ks))
    ensures forall k :: k in Divergent(n, ks) <==> k in ks && Diverges(n, k)
    decreases |ks|
  {
    hide Diverges;
    if ks != [] {
      var front, last := ks[..|ks| - 1], ks[|ks| - 1];
      assert ks == front + [last];
      assert Ascending(front);
      DivergentAre(n, front);
      forall k | k in Divergent(n, front)
        ensures k < last
      {
        assert k in front;
      }
      AscendingAppend(Divergent(n, front), last);
    }
  }

  lemma AscendingAppend(ks: seq<u64>, k: u64)
    requires Ascending(ks) && forall j :: j in ks ==> j < k
    ensures Ascending(ks + [k])
  {
    forall i, j | 0 <= i < j < |ks| + 1
      ensures (ks + [k])[i] < (ks + [k])[j]
    {
      assert ks[i] in ks;
    }
  }

  /** Re-evaluates the conflicts in id order and lists those whose recorded selection it does not confirm. */
  method Replay(s: State) returns (report: ReplayReport)
    ensures report.conflictsEvaluated == |s.engine.conflicts|
    ensures report.candidatesBuilt == CandidateCount(s.engine, SortedKeys(s.engine.conflicts.Keys))
    ensures Ascending(report.diverged)
    ensures forall k :: k in report.diverged <==> Diverges(s.engine, k)
    ensures report.code == Ok <==> report.diverged == []
  {
    hide Evaluate.Evaluate, Diverges, Ascending;
    var n := s.engine;
    var ks := SortedKeys(n.conflicts.Keys);
    var evaluated, built, diverged := 0, 0, [];
    for i := 0 to |ks|
      invariant evaluated == i
      invariant built == CandidateCount(n, ks[..i])
      invariant diverged == Divergent(n, ks[..i])
    {
      var cid := ks[i];
      assert cid in ks;
      assert ks[..i + 1][..i] == ks[..i];
      evaluated := evaluated + 1;
      var ev := EvaluateConflict(n, cid, n.authority);
      built := built + |ev.candidates|;
      var ok := Compare(n, cid, ev);
      if !ok {
        diverged := diverged + [cid];
      }
    }
    assert ks[..|ks|] == ks;
    DivergentAre(n, ks);
    forall k | Diverges(n, k)
      ensures k in ks
    {
      DivergesOnRecord(n, k);
    }
    report := ReplayReport(evaluated, built, diverged, if diverged == [] then Ok else InvalidInput);
  }

  lemma DivergesOnRecord(n: Engine, k: ConflictId)
    requires Diverges(n, k)
    ensures k in n.conflicts
  {
  }

  /** One conflict's comparison. */
  method Compare(n: Engine, cid: ConflictId, ev: Evaluation) returns (ok: bool)
    requires cid in n.conflicts && ev == Evaluate.Evaluate(n, cid, n.authority)
    ensures ok == !Diverges(n, cid)
  {
    hide Evaluate.Evaluate;
    var selected := n.conflicts[cid].selectedIds;
    if selected == [] {
      return true;
    }
    if ev.decision.None? {
      return false;
    }
    var cls, target := ev.decision.value.cls, ev.decision.value.target;
    var matched := false;
    for i := 0 to |selected|
      invariant matched == Matches(n, selected[..i], ev.decision.value)
    {
      assert selected[..i + 1] == selected[..i] + [selected[i]];
      if selected[i] in n.interventions && n.interventions[selected[i]].cls == cls
         && n.interventions[selected[i]].target == target {
        matched := true;
      }
    }
    assert selected[..|selected|] == selected;
    return matched;
  }
}
