/** The byte writer, the serializers that drive it, and saving a whole state. */
module Saving {
  import opened Words
  import opened Enums
  import opened Entities
  import opened Formats
  import opened StateFormat
  import opened Checksum
  import opened Crc32c
  import opened Image

  lemma Regroup(a: seq<byte>, x: seq<byte>, rest: seq<byte>)
    ensures a + x + rest == a + (x + rest)
  {
  }

  lemma EntriesStep<T>(put: (T, seq<byte>) -> seq<byte>, m: map<u64, T>, ks: seq<u64>, i: nat, rest: seq<byte>)
    requires i < |ks| && forall k :: k in ks ==> k in m
    ensures PutEntries(put, m, ks[i..], rest)
            == PutU64(ks[i], put(m[ks[i]], PutEntries(put, m, ks[i + 1..], rest)))
  {
    hide PutU64;
    assert ks[i..][1..] == ks[i + 1..];
  }

  /** What has been written so far, with the entries still to write behind it, is the whole map. */
  ghost predicate Writing<T(!new)>(put: (T, seq<byte>) -> seq<byte>, m: map<u64, T>, ks: seq<u64>, i: nat,
                                   sized: seq<byte>, b: seq<byte>)
    requires i <= |ks| && forall k :: k in ks ==> k in m
  {
    forall rest :: b + PutEntries(put, m, ks[i..], rest) == sized + PutEntries(put, m, ks, rest)
  }

  lemma WritingStarts<T(!new)>(put: (T, seq<byte>) -> seq<byte>, m: map<u64, T>, ks: seq<u64>, b: seq<byte>)
    requires forall k :: k in ks ==> k in m
    ensures Writing(put, m, ks, 0, b, b)
  {
    assert ks[0..] == ks;
  }

  lemma WritingGoesOn<T(!new)>(put: (T, seq<byte>) -> seq<byte>, m: map<u64, T>, ks: seq<u64>, i: nat, sized: seq<byte>,
                               before: seq<byte>, keyed: seq<byte>, after: seq<byte>)
    requires i < |ks| && forall k :: k in ks ==> k in m
    requires Writing(put, m, ks, i, sized, before)
    requires forall rest :: keyed + rest == before + PutU64(ks[i], rest)
    requires forall rest :: after + rest == keyed + put(m[ks[i]], rest)
    ensures Writing(put, m, ks, i + 1, sized, after)
  {
    hide PutEntries, PutU64;
    forall rest
      ensures after + PutEntries(put, m, ks[i + 1..], rest) == sized + PutEntries(put, m, ks, rest)
    {
      var tail := PutEntries(put, m, ks[i + 1..], rest);
      assert after + tail == keyed + put(m[ks[i]], tail);
      assert keyed + put(m[ks[i]], tail) == before + PutU64(ks[i], put(m[ks[i]], tail));
      EntriesStep(put, m, ks, i, rest);
    }
  }

  lemma WritingEnds<T(!new)>(put: (T, seq<byte>) -> seq<byte>, m: map<u64, T>, ks: seq<u64>,
                             start: seq<byte>, sized: seq<byte>, b: seq<byte>)
    requires ks == SortedKeys(m.Keys)
    requires Writing(put, m, ks, |ks|, sized, b)
    requires forall rest :: sized + rest == start + PutU64(|m| % TWO_64, rest)
    ensures forall rest :: b + rest == start + PutMap(put, m, rest)
  {
    hide PutU64, SortedKeys;
    forall rest
      ensures b + rest == start + PutMap(put, m, rest)
    {
      assert ks[|ks|..] == [];
      assert PutEntries(put, m, ks[|ks|..], rest) == rest;
      assert sized + PutEntries(put, m, ks, rest) == start + PutU64(|m| % TWO_64, PutEntries(put, m, ks, rest));
    }
  }

  /** Appends to b. Each method promises that whatever is appended later follows its own bytes. */
  class Writer {
    var b: seq<byte>

    constructor ()
      ensures b == []
    {
      b := [];
    }

    method U8(v: byte)
      modifies this
      ensures forall rest :: b + rest == old(b) + PutU8(v, rest)
    {
      b := b + [v];
      forall rest { Regroup(old(b), [v], rest); }
    }

    /** The word's bytes from the low end. */
    method Bytes(v: nat, n: nat)
      modifies this
      ensures b == old(b) + LE(v, n)
    {
      hide LE;
      for i := 0 to n
        invariant b == old(b) + LE(v, n)[..i]
      {
        LEAt(v, n, i);
        assert LE(v, n)[..i + 1] == LE(v, n)[..i] + [LE(v, n)[i]];
        b := b + [(v / Pow256(i)) % 256];
      }
      assert LE(v, n)[..n] == LE(v, n);
    }

    method U32(v: u32)
      modifies this
      ensures forall rest :: b + rest == old(b) + PutU32(v, rest)
    {
      hide LE;
      Bytes(v, 4);
      forall rest { Regroup(old(b), LE(v, 4), rest); }
    }

    method U64(v: u64)
      modifies this
      ensures forall rest :: b + rest == old(b) + PutU64(v, rest)
    {
      hide LE;
      Bytes(v, 8);
      forall rest { Regroup(old(b), LE(v, 8), rest); }
    }

    method Flag(x: bool)
      modifies this
      ensures forall rest :: b + rest == old(b) + PutFlag(x, rest)
    {
      hide PutU8;
      U8(if x then 1 else 0);
    }

    method Enum<T>(all: seq<T>, n: byte)
      requires n < |all|
      modifies this
      ensures forall rest :: b + rest == old(b) + PutEnum(all, n, rest)
    {
      hide PutU8;
      U8(n);
    }

    method Str(s: Text)
      modifies this
      ensures forall rest :: b + rest == old(b) + PutText(s, rest)
    {
      hide PutU64;
      U64(|s| % TWO_64);
      ghost var sized := b;
      b := b + s;
      forall rest
        ensures b + rest == old(b) + PutText(s, rest)
      {
        Regroup(sized, s, rest);
      }
    }

    method Words(ws: seq<u64>)
      modifies this
      ensures forall rest :: b + rest == old(b) + PutWords(ws, rest)
    {
      hide PutU64;
      assert ws[0..] == ws;
      for i := 0 to |ws|
        invariant forall rest :: b + PutWords(ws[i..], rest) == old(b) + PutWords(ws, rest)
      {
        assert ws[i..][1..] == ws[i + 1..];
        U64(ws[i]);
      }
      assert ws[|ws|..] == [];
    }

    method Flags(xs: seq<bool>)
      modifies this
      ensures forall rest :: b + rest == old(b) + PutFlags(xs, rest)
    {
      hide PutFlag;
      assert xs[0..] == xs;
      for i := 0 to |xs|
        invariant forall rest :: b + PutFlags(xs[i..], rest) == old(b) + PutFlags(xs, rest)
      {
        assert xs[i..][1..] == xs[i + 1..];
        Flag(xs[i]);
      }
      assert xs[|xs|..] == [];
    }

    method Ids(xs: seq<u64>)
      modifies this
      ensures forall rest :: b + rest == old(b) + PutIds(xs, rest)
    {
      hide PutU64, PutWords;
      U64(|xs| % TWO_64);
      Words(xs);
    }

    method Texts(xs: seq<Text>)
      modifies this
      ensures forall rest :: b + rest == old(b) + PutTexts(xs, rest)
    {
      hide PutU64, PutText;
      U64(|xs| % TWO_64);
      ghost var sized := b;
      assert xs[0..] == xs;
      for i := 0 to |xs|
        invariant forall rest :: b + PutMany(PutText, xs[i..], rest) == sized + PutMany(PutText, xs, rest)
      {
        assert xs[i..][1..] == xs[i + 1..];
        Str(xs[i]);
      }
      assert xs[|xs|..] == [];
    }

    method Classes(xs: seq<InterventionClass>)
      modifies this
      ensures forall rest :: b + rest == old(b) + PutClasses(xs, rest)
    {
      hide PutU64, PutEnum, ClassOrd;
      U64(|xs| % TWO_64);
      ghost var sized := b;
      assert xs[0..] == xs;
      for i := 0 to |xs|
        invariant forall rest :: b + PutMany(PutClass, xs[i..], rest) == sized + PutMany(PutClass, xs, rest)
      {
        assert xs[i..][1..] == xs[i + 1..];
        ClassByte(xs[i]);
      }
      assert xs[|xs|..] == [];
    }

    method ClassByte(c: InterventionClass)
      modifies this
      ensures forall rest :: b + rest == old(b) + PutClass(c, rest)
    {
      hide PutU8, ClassOrd;
      U8(ClassOrd(c));
    }

    method WordMap(m: map<u64, u64>)
      modifies this
      ensures forall rest :: b + rest == old(b) + PutMap(PutU64, m, rest)
    {
      hide PutMap, PutU64, PutEntries, SortedKeys, Writing;
      U64(|m| % TWO_64);
      ghost var sized := b;
      var ks := SortedKeys(m.Keys);
      WritingStarts(PutU64, m, ks, b);
      for i := 0 to |ks|
        invariant Writing(PutU64, m, ks, i, sized, b)
      {
        ghost var before := b;
        U64(ks[i]);
        ghost var keyed := b;
        U64(m[ks[i]]);
        WritingGoesOn(PutU64, m, ks, i, sized, before, keyed, b);
      }
      WritingEnds(PutU64, m, ks, old(b), sized, b);
    }
  }

  method SerializeOptional(w: Writer, o: Option<Double>)
    modifies w
    ensures forall rest :: w.b + rest == old(w.b) + PutOptional(o, rest)
  {
    hide PutFlag, PutU64;
    w.Flag(o.Some?);
    if o.Some? {
      w.U64(o.value);
    }
  }

  method SerializeWorkload(w: Writer, wp: WorkloadPolicy<Double>)
    modifies w
    ensures forall rest :: w.b + rest == old(w.b) + PutWorkload(wp, rest)
  {
    hide PutWords, PutFlags, PutU32, PutOptional;
    w.Words([wp.workload, wp.generation]);
    w.Flags([wp.nonPreemptible, wp.protectedWorkload]);
    w.Words([wp.value]);
    w.U32(wp.priority);
    w.Words([wp.hardSloFloor]);
    SerializeOptional(w, wp.softSloTarget);
    w.Words([wp.minServiceFloor, wp.costCeiling, wp.restartCost, wp.preemptionCost, wp.recoveryCost,
             wp.maxDegradationTolerated]);
    w.U32(wp.maxInterventionFrequencyPerWindow);
    w.Flags([wp.preemptionAllowed, wp.throttlingAllowed, wp.deferralAllowed, wp.admissionRestrictionAllowed,
             wp.placementChangeAllowed, wp.bandwidthRequestAllowed, wp.collectiveSchedulingAllowed,
             wp.migrationAllowed]);
  }

  method SerializeWorkloads(w: Writer, m: map<WorkloadId, WorkloadPolicy<Double>>)
    modifies w
    ensures forall rest :: w.b + rest == old(w.b) + PutMap(PutWorkload, m, rest)
  {
    hide PutMap, PutU64, PutWorkload, PutEntries, SortedKeys, Writing;
    w.U64(|m| % TWO_64);
    ghost var sized := w.b;
    var ks := SortedKeys(m.Keys);
    WritingStarts(PutWorkload, m, ks, w.b);
    for i := 0 to |ks|
      invariant Writing(PutWorkload, m, ks, i, sized, w.b)
    {
      ghost var before := w.b;
      w.U64(ks[i]);
      ghost var keyed := w.b;
      SerializeWorkload(w, m[ks[i]]);
      WritingGoesOn(PutWorkload, m, ks, i, sized, before, keyed, w.b);
    }
    WritingEnds(PutWorkload, m, ks, old(w.b), sized, w.b);
  }

  method SerializePolicy(w: Writer, p: ContentionPolicy<Double>)
    modifies w
    ensures forall rest :: w.b + rest == old(w.b) + PutPolicy(p, rest)
  {
    hide PutWords, PutFlags, PutU32, PutEnum, PutMap, AttributionOrd;
    var b, u := p.budget, p.budget.used;
    w.Words([p.id, p.generation, p.actionabilityThreshold, p.releaseThreshold, p.hysteresisEvidenceCount]);
    w.Enum(ATTRIBUTIONS, AttributionOrd(p.minAttributionForDisruptive));
    w.Words([p.minConfidenceForDisruptive, p.fairnessFloor, p.fairnessWeight]);
    w.U32(p.maxConsecutiveInterventionsPerWorkload);
    w.Words([p.costCeiling, p.cooldownMs, b.generation, b.maxPreemptionsPerWindow, b.maxMigrationsPerWindow,
             b.maxPlacementChangesPerWindow, b.maxThrottlesPerWindow, b.maxCollectiveReschedulesPerWindow,
             b.maxAnyPerWindow, b.windowMs, b.windowStart, u.preemptions, u.migrations, u.placementChanges,
             u.throttles, u.collectiveReschedules, u.all]);
    SerializeWorkloads(w, p.workloads);
    w.Flags([p.preemptionAllowed, p.migrationAllowed, p.placementChangeAllowed, p.bandwidthRequestAllowed,
             p.collectiveSchedulingAllowed, p.admissionRestrictionAllowed, p.throttleAllowed]);
  }

  method SerializeAuthority(w: Writer, a: AuthorityContext)
    modifies w
    ensures forall rest :: w.b + rest == old(w.b) + PutAuthority(a, rest)
  {
    hide PutWords, PutMap;
    w.Words([a.coordinatorEpoch, a.governorGeneration, a.policyGeneration, a.sloGeneration, a.valueGeneration,
             a.fairnessGeneration, a.resourceGeneration, a.placementGeneration, a.topologyGeneration]);
    w.WordMap(a.workloadGenerations);
    w.WordMap(a.workloadBoots);
  }

  method SerializeEvidence(w: Writer, e: InterferenceEvidence<Double>)
    modifies w
    ensures forall rest :: w.b + rest == old(w.b) + PutEvidence(e, rest)
  {
    hide PutWords, PutIds, PutEnum, PutU8, PutTexts, PutText;
    hide DomainOrd, MetricOrd, AttributionOrd, EvidenceStatusOrd, LabelOrd;
    w.Words([e.id, e.generation, e.victim]);
    w.Ids(e.neighbors);
    w.Enum(DOMAINS, DomainOrd(e.domain));
    w.Enum(METRICS, MetricOrd(e.metric));
    w.Words([e.isolatedBaseline, e.coRunObservation, e.degradation, e.improvement]);
    w.U8(AttributionOrd(e.attribution));
    w.Words([e.confidence, e.sampleCount]);
    w.Texts(e.unresolvedConfounders);
    w.Enum(EVIDENCE_STATUSES, EvidenceStatusOrd(e.status));
    w.Words([e.sampledAt, e.maxAgeMs]);
    w.Enum(LABELS, LabelOrd(e.evidenceLabel));
    w.Str(e.sourceId);
    w.Str(e.sourceHealth);
    w.Words([e.workerBoot, e.workloadGeneration, e.deviceGeneration, e.hostGeneration, e.topologyGeneration,
             e.resourceGeneration, e.placementGeneration, e.activeFrom, e.activeUntil]);
  }

  method SerializeFence(w: Writer, f: Fence)
    modifies w
    ensures forall rest :: w.b + rest == old(w.b) + PutFence(f, rest)
  {
    hide PutWords;
    w.Words([f.coordinatorEpoch, f.governorGeneration, f.policyGeneration, f.sloGeneration, f.valueGeneration,
             f.fairnessGeneration, f.resourceGeneration, f.placementGeneration, f.topologyGeneration,
             f.conflictGeneration, f.evidenceGeneration, f.workerBoot, f.workloadGeneration,
             f.interventionGeneration]);
  }

  method SerializeIntervention(w: Writer, i: InterventionRecord)
    modifies w
    ensures forall rest :: w.b + rest == old(w.b) + PutIntervention(i, rest)
  {
    hide PutWords, PutEnum, PutFence, PutText, PutTexts, PutFlag, ClassOrd, LifecycleOrd, StatusOrd, OutcomeOrd;
    w.Words([i.id, i.generation]);
    w.Enum(CLASSES, ClassOrd(i.cls));
    w.Words([i.conflictId, i.target]);
    w.Enum(LIFECYCLES, LifecycleOrd(i.state));
    SerializeFence(w, i.fence);
    w.Str(i.adapter);
    w.Words([i.authorizedAt, i.dispatchedAt, i.acknowledgedAt, i.completedAt, i.dispatchId, i.attemptId]);
    w.Str(i.ackNote);
    w.Enum(STATUS_CODES, StatusOrd(i.interimStatus.code));
    w.Str(i.interimStatus.message);
    w.Enum(OUTCOMES, OutcomeOrd(i.result));
    w.Texts(i.trace);
    w.Flag(i.verificationReported);
  }

  method SerializeContention(w: Writer, c: ContentionConflict<Double>)
    modifies w
    ensures forall rest :: w.b + rest == old(w.b) + PutContention(c, rest)
  {
    hide PutWords, PutIds, PutEnum, DomainOrd, ObjectiveOrd, SeverityOrd;
    w.Words([c.id, c.generation]);
    w.Ids(c.affected);
    w.Ids(c.associated);
    w.Enum(DOMAINS, DomainOrd(c.domain));
    w.Words([c.degradation, c.baseline, c.confidence]);
    w.Enum(OBJECTIVES, ObjectiveOrd(c.binding));
    w.Enum(SEVERITIES, SeverityOrd(c.severity));
  }

  method SerializeFindings(w: Writer, c: ContentionConflict<Double>)
    modifies w
    ensures forall rest :: w.b + rest == old(w.b) + PutFindings(c, rest)
  {
    hide PutWords, PutIds, PutEnum, PutTexts, PutClasses, ConflictStateOrd;
    w.Ids(c.evidenceIds);
    w.Enum(CONFLICT_STATES, ConflictStateOrd(c.state));
    w.Words([c.firstDetectedAt, c.lastUpdatedAt, c.activeUntil]);
    w.Texts(c.unresolvedConfounders);
    w.Texts(c.blockers);
    w.Classes(c.candidateClasses);
  }

  method SerializeDecisions(w: Writer, c: ContentionConflict<Double>)
    modifies w
    ensures forall rest :: w.b + rest == old(w.b) + PutDecisions(c, rest)
  {
    hide PutWords, PutIds, PutFlag;
    w.Ids(c.proposedIds);
    w.Ids(c.selectedIds);
    w.Words([c.policyGeneration, c.sloGeneration, c.valueGeneration, c.fairnessGeneration,
             c.resourceGeneration, c.placementGeneration, c.coordinatorEpoch, c.workerBoot]);
    w.Flag(c.groupEffectExplicit);
    w.Words([c.lastActionAt]);
    w.Flag(c.inActionableState);
  }

  method SerializeConflict(w: Writer, c: ContentionConflict<Double>)
    modifies w
    ensures forall rest :: w.b + rest == old(w.b) + PutConflict(c, rest)
  {
    hide PutContention, PutFindings, PutDecisions;
    SerializeContention(w, c);
    SerializeFindings(w, c);
    SerializeDecisions(w, c);
  }

  method SerializeFairness(w: Writer, f: FairnessRecord<Double>)
    modifies w
    ensures forall rest :: w.b + rest == old(w.b) + PutFairness(f, rest)
  {
    hide PutWords, PutU32;
    w.Words([f.workload, f.interventionCount]);
    w.U32(f.consecutiveInterventions);
    w.Words([f.deprivationDebt, f.lastInterventionAt]);
  }

  method SerializeConflicts(w: Writer, m: map<ConflictId, ContentionConflict<Double>>)
    modifies w
    ensures forall rest :: w.b + rest == old(w.b) + PutMap(PutConflict, m, rest)
  {
    hide PutMap, PutU64, PutConflict, PutEntries, SortedKeys, Writing;
    w.U64(|m| % TWO_64);
    ghost var sized := w.b;
    var ks := SortedKeys(m.Keys);
    WritingStarts(PutConflict, m, ks, w.b);
    for i := 0 to |ks|
      invariant Writing(PutConflict, m, ks, i, sized, w.b)
    {
      ghost var before := w.b;
      w.U64(ks[i]);
      ghost var keyed := w.b;
      SerializeConflict(w, m[ks[i]]);
      WritingGoesOn(PutConflict, m, ks, i, sized, before, keyed, w.b);
    }
    WritingEnds(PutConflict, m, ks, old(w.b), sized, w.b);
  }

  method SerializeAllEvidence(w: Writer, m: map<EvidenceId, InterferenceEvidence<Double>>)
    modifies w
    ensures forall rest :: w.b + rest == old(w.b) + PutMap(PutEvidence, m, rest)
  {
    hide PutMap, PutU64, PutEvidence, PutEntries, SortedKeys, Writing;
    w.U64(|m| % TWO_64);
    ghost var sized := w.b;
    var ks := SortedKeys(m.Keys);
    WritingStarts(PutEvidence, m, ks, w.b);
    for i := 0 to |ks|
      invariant Writing(PutEvidence, m, ks, i, sized, w.b)
    {
      ghost var before := w.b;
      w.U64(ks[i]);
      ghost var keyed := w.b;
      SerializeEvidence(w, m[ks[i]]);
      WritingGoesOn(PutEvidence, m, ks, i, sized, before, keyed, w.b);
    }
    WritingEnds(PutEvidence, m, ks, old(w.b), sized, w.b);
  }

  method SerializeInterventions(w: Writer, m: map<InterventionId, InterventionRecord>)
    modifies w
    ensures forall rest :: w.b + rest == old(w.b) + PutMap(PutIntervention, m, rest)
  {
    hide PutMap, PutU64, PutIntervention, PutEntries, SortedKeys, Writing;
    w.U64(|m| % TWO_64);
    ghost var sized := w.b;
    var ks := SortedKeys(m.Keys);
    WritingStarts(PutIntervention, m, ks, w.b);
    for i := 0 to |ks|
      invariant Writing(PutIntervention, m, ks, i, sized, w.b)
    {
      ghost var before := w.b;
      w.U64(ks[i]);
      ghost var keyed := w.b;
      SerializeIntervention(w, m[ks[i]]);
      WritingGoesOn(PutIntervention, m, ks, i, sized, before, keyed, w.b);
    }
    WritingEnds(PutIntervention, m, ks, old(w.b), sized, w.b);
  }

  method SerializeAllFairness(w: Writer, m: map<WorkloadId, FairnessRecord<Double>>)
    modifies w
    ensures forall rest :: w.b + rest == old(w.b) + PutMap(PutFairness, m, rest)
  {
    hide PutMap, PutU64, PutFairness, PutEntries, SortedKeys, Writing;
    w.U64(|m| % TWO_64);
    ghost var sized := w.b;
    var ks := SortedKeys(m.Keys);
    WritingStarts(PutFairness, m, ks, w.b);
    for i := 0 to |ks|
      invariant Writing(PutFairness, m, ks, i, sized, w.b)
    {
      ghost var before := w.b;
      w.U64(ks[i]);
      ghost var keyed := w.b;
      SerializeFairness(w, m[ks[i]]);
      WritingGoesOn(PutFairness, m, ks, i, sized, before, keyed, w.b);
    }
    WritingEnds(PutFairness, m, ks, old(w.b), sized, w.b);
  }

  method SerializeState(w: Writer, s: State)
    modifies w
    ensures forall rest :: w.b + rest == old(w.b) + PutState(s, rest)
  {
    hide PutPolicy, PutAuthority, PutMap, PutWords;
    SerializePolicy(w, s.engine.policy);
    SerializeAuthority(w, s.engine.authority);
    SerializeConflicts(w, s.engine.conflicts);
    SerializeAllEvidence(w, s.engine.evidence);
    SerializeInterventions(w, s.engine.interventions);
    SerializeAllFairness(w, s.engine.fairness);
    w.Words([s.nextConflictId, s.nextEvidenceId, s.nextInterventionId, s.nextDispatchId, s.nextAttemptId,
             s.nextVerificationId, s.lastDigest]);
  }

  method SaveToBytes(table: array<u32>, s: State) returns (out: seq<byte>)
    requires IsTable(table[..])
    ensures out == Save(s)
  {
    hide IsTable, Crc, LE, PutState;
    var w := new Writer();
    SerializeState(w, s);
    var payload := w.b;
    assert payload + [] == [] + PutState(s, []);
    assert payload + [] == payload && [] + PutState(s, []) == PutState(s, []);
    var h := new Writer();
    h.b := MAGIC;
    h.Bytes(VERSION, 4);
    h.Bytes(|payload| % TWO_64, 8);
    h.b := h.b + payload;
    var crc := ComputeCrc(table, payload);
    h.Bytes(crc, 4);
    out := h.b;
  }
}
