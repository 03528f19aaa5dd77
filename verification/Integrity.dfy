/** Every section keeps the tables tied together, so that the one unchecked look-up is safe. */
module IntegrityKept {
  import opened Words
  import opened Enums
  import opened Entities
  import opened Rules
  import opened Evaluate
  import opened Steps

  lemma AdvanceEpochKeeps(s: State)
    requires Integrity(s.engine)
    ensures Integrity(AdvanceEpoch(s).engine)
  {
    var n, m := s.engine, AdvanceEpoch(s).engine;
    forall k | k in m.conflicts
      ensures ConflictIntact(m, k)
    {
      assert ConflictIntact(n, k);
    }
  }

  lemma RecordedKeeps(s: State, input: Evidence)
    requires Integrity(s.engine)
    ensures Integrity(Recorded(s, input).engine)
    ensures Identified(s, input).id in Recorded(s, input).engine.evidence
  {
    hide Degradation, Improvement;
    var n, m := s.engine, Recorded(s, input).engine;
    forall k | k in m.conflicts
      ensures ConflictIntact(m, k)
    {
      assert ConflictIntact(n, k);
    }
  }

  /** Replacing one conflict by an intact one leaves the others intact. */
  lemma PuttingConflictKeeps(n: Engine, k: ConflictId, c: Conflict)
    requires Integrity(n)
    requires c.id == k && c.evidenceIds != []
    requires forall e :: e in c.evidenceIds ==> e in n.evidence
    requires forall i :: i in c.selectedIds ==> i in n.interventions
    ensures Integrity(n.(conflicts := n.conflicts[k := c]))
  {
    var m := n.(conflicts := n.conflicts[k := c]);
    forall j | j in m.conflicts
      ensures ConflictIntact(m, j)
    {
      if j != k { assert ConflictIntact(n, j); }
    }
  }

  lemma IngestKeeps(s: State, input: Evidence)
    requires Integrity(s.engine)
    ensures Integrity(Ingest(s, input).engine)
  {
    hide EvidenceIsValid, Identified, Recorded, ConflictIntact, Integrity, ClassifySeverity;
    if EvidenceIsValid(input) {
      var e, t := Identified(s, input), Recorded(s, input);
      RecordedKeeps(s, input);
      var cs, threshold := t.engine.conflicts, t.engine.policy.actionabilityThreshold;
      match FindConflict(cs, e.domain, e.victim)
      case Some(k) =>
        IntactOf(t.engine, k);
        PuttingConflictKeeps(t.engine, k, Progressed(Updated(cs[k], e), e, threshold));
      case None =>
        PuttingConflictKeeps(t.engine, t.nextConflictId, Progressed(NewConflict(t, e), e, threshold));
    }
  }

  lemma IntactOf(n: Engine, k: ConflictId)
    requires Integrity(n) && k in n.conflicts
    ensures ConflictIntact(n, k)
    ensures n.conflicts[k].id == k && n.conflicts[k].evidenceIds != []
    ensures forall e :: e in n.conflicts[k].evidenceIds ==> e in n.evidence
    ensures forall i :: i in n.conflicts[k].selectedIds ==> i in n.interventions
  {
  }

  /** Adding or replacing an intervention of a conflict on record. */
  lemma PuttingRecordKeeps(n: Engine, i: InterventionId, r: InterventionRecord)
    requires Integrity(n) && r.id == i && r.conflictId in n.conflicts
    ensures Integrity(n.(interventions := n.interventions[i := r]))
  {
    var m := n.(interventions := n.interventions[i := r]);
    forall k | k in m.conflicts
      ensures ConflictIntact(m, k)
    {
      assert ConflictIntact(n, k);
    }
  }

  lemma IntegrityIgnores(n: Engine, m: Engine)
    requires Integrity(n)
    requires m.conflicts == n.conflicts && m.evidence == n.evidence && m.interventions == n.interventions
    requires forall w :: w in m.fairness ==> m.fairness[w].workload == w
    ensures Integrity(m)
  {
    forall k | k in m.conflicts
      ensures ConflictIntact(m, k)
    {
      assert ConflictIntact(n, k);
    }
  }

  lemma AuthorizeKeeps(s: State, id: ConflictId, cls: InterventionClass, now: TimeMs)
    requires Integrity(s.engine)
    ensures Integrity(Authorize(s, id, cls, now).engine)
  {
    hide Attempt, Consumed, Integrity, ConflictIntact;
    match Attempt(s, id, cls, now)
    case None =>
    case Some(g) =>
      var n, i := s.engine, s.nextInterventionId;
      assert id in n.conflicts by { AttemptNeedsConflict(s, id, cls, now); }
      var a := n.(interventions := n.interventions[i := NewIntervention(s, id, g, now)]);
      PuttingRecordKeeps(n, i, NewIntervention(s, id, g, now));
      IntactOf(a, id);
      var m := Granted(s, id, g, now).engine;
      PuttingConflictKeeps(a, id, m.conflicts[id]);
      var b := a.(conflicts := a.conflicts[id := m.conflicts[id]]);
      assert b.conflicts == m.conflicts;
      FairnessKeyed(n);
      IntegrityIgnores(b, m);
  }

  lemma FairnessKeyed(n: Engine)
    requires Integrity(n)
    ensures forall w :: w in n.fairness ==> n.fairness[w].workload == w
  {
  }

  lemma AttemptNeedsConflict(s: State, id: ConflictId, cls: InterventionClass, now: TimeMs)
    requires Attempt(s, id, cls, now).Some?
    ensures id in s.engine.conflicts
  {
  }

  lemma WithRecordKeeps(s: State, i: InterventionId, r: InterventionRecord)
    requires Integrity(s.engine) && r.id == i && r.conflictId in s.engine.conflicts
    ensures Integrity(WithRecord(s, i, r).engine)
  {
    PuttingRecordKeeps(s.engine, i, r);
  }

  lemma RecordOf(n: Engine, i: InterventionId)
    requires Integrity(n) && i in n.interventions
    ensures n.interventions[i].id == i && n.interventions[i].conflictId in n.conflicts
  {
  }

  lemma LifecycleKeeps(s: State, i: InterventionId, now: TimeMs, answer: AdapterOutcome, note: Text)
    requires Integrity(s.engine)
    ensures Integrity(DispatchBegin(s, i, now).engine)
    ensures Integrity(DispatchEnd(s, i, answer, note).engine)
    ensures Integrity(Acknowledge(s, i, now).engine)
    ensures Integrity(ActionFailed(s, i, note).engine)
  {
    hide Integrity, Revalidate;
    if i in s.engine.interventions {
      var r := s.engine.interventions[i];
      RecordOf(s.engine, i);
      WithRecordKeeps(s, i, r.(state := SupersededAction));
      WithRecordKeeps(s, i, r.(state := Dispatched, dispatchId := s.nextDispatchId, dispatchedAt := now));
      WithRecordKeeps(s, i, Answered(r, answer, note));
      WithRecordKeeps(s, i, r.(state := Acknowledged, acknowledgedAt := now));
      WithRecordKeeps(s, i, r.(state := FailedAction, interimStatus := Status(InterventionFailed, note)));
    }
  }

  lemma SubmitKeeps(s: State, input: Evidence)
    requires Integrity(s.engine)
    ensures Integrity(Submit(s, input).engine)
  {
    hide EvidenceIsValid, Identified, Recorded, ConflictIntact, Integrity, VerdictOn;
    if EvidenceIsValid(input) {
      var e, t := Identified(s, input), Recorded(s, input);
      RecordedKeeps(s, input);
      var n := t.engine;
      match FindConflict(n.conflicts, e.domain, e.victim)
      case None =>
      case Some(k) =>
        IntactOf(n, k);
        var m := Submit(s, input).engine;
        var a := n.(conflicts := m.conflicts);
        PuttingConflictKeeps(n, k, m.conflicts[k]);
        assert m.conflicts == n.conflicts[k := m.conflicts[k]];
        match VerdictOn(t, e)
        case None =>
        case Some(v) =>
          RecordOf(a, v.id);
          PuttingRecordKeeps(a, v.id, m.interventions[v.id]);
          FairnessKeyed(n);
          IntegrityIgnores(a.(interventions := m.interventions), m);
    }
  }
}
