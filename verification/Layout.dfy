/**
 Where each field of a saved state stands: at which byte, counted from the front of the record or of the
 image, in terms of the lengths of the lists and strings before it.
 */
module Layout {
  import opened Words
  import opened Crc32c
  import opened Enums
  import opened Entities
  import opened Formats
  import opened StateFormat
  import opened Image

  // ----- What stands at a byte -----

  /** The 64-bit words, low byte first, one after the other. */
  ghost predicate WordsAt(b: seq<byte>, at: nat, ws: seq<u64>) {
    at + 8 * |ws| <= |b| && forall i | 0 <= i < |ws| :: FromLE(b[at + 8 * i..at + 8 * i + 8]) == ws[i]
  }

  ghost predicate HalfWordAt(b: seq<byte>, at: nat, w: u32) { at + 4 <= |b| && FromLE(b[at..at + 4]) == w }

  /** One byte each. */
  ghost predicate BytesAt(b: seq<byte>, at: nat, xs: seq<byte>) { at + |xs| <= |b| && b[at..at + |xs|] == xs }

  ghost predicate FlagsAt(b: seq<byte>, at: nat, xs: seq<bool>) {
    at + |xs| <= |b| && forall i | 0 <= i < |xs| :: b[at + i] == if xs[i] then 1 else 0
  }

  /** A length and that many words. */
  ghost predicate IdsAt(b: seq<byte>, at: nat, xs: seq<u64>) {
    WordsAt(b, at, [|xs| % TWO_64]) && WordsAt(b, at + 8, xs)
  }

  /** A length and that many bytes. */
  ghost predicate TextAt(b: seq<byte>, at: nat, s: Text) {
    WordsAt(b, at, [|s| % TWO_64]) && BytesAt(b, at + 8, s)
  }

  lemma {:induction false} WordsStand(b: seq<byte>, at: nat, ws: seq<u64>, rest: seq<byte>)
    requires at <= |b| && b[at..] == PutWords(ws, rest)
    ensures WordsAt(b, at, ws) && b[at + 8 * |ws|..] == rest
    decreases |ws|
  {
    hide FromLE, PutU64, GetWords, GetU64;
    if ws != [] {
      WordStands(b, at, ws[0], PutWords(ws[1..], rest));
      WordsStand(b, at + 8, ws[1..], rest);
      forall i | 0 <= i < |ws|
        ensures FromLE(b[at + 8 * i..at + 8 * i + 8]) == ws[i]
      {
        if i > 0 {
          assert at + 8 * i == at + 8 + 8 * (i - 1) && ws[i] == ws[1..][i - 1];
        }
      }
    }
  }

  lemma WordStands(b: seq<byte>, at: nat, w: u64, rest: seq<byte>)
    requires at <= |b| && b[at..] == PutU64(w, rest)
    ensures at + 8 <= |b| && FromLE(b[at..at + 8]) == w && b[at + 8..] == rest
  {
    hide FromLE, PutU64;
    assert b[at..][..8] == b[at..at + 8] && b[at..][8..] == b[at + 8..];
  }

  lemma HalfStands(b: seq<byte>, at: nat, w: u32, rest: seq<byte>)
    requires at <= |b| && b[at..] == PutU32(w, rest)
    ensures HalfWordAt(b, at, w) && b[at + 4..] == rest
  {
    hide FromLE, PutU32;
    assert b[at..][..4] == b[at..at + 4] && b[at..][4..] == b[at + 4..];
  }

  lemma ByteStands(b: seq<byte>, at: nat, x: byte, rest: seq<byte>)
    requires at <= |b| && b[at..] == PutU8(x, rest)
    ensures BytesAt(b, at, [x]) && b[at + 1..] == rest
  {
    assert b[at..][1..] == b[at + 1..];
  }

  lemma EnumStands<T>(b: seq<byte>, at: nat, all: seq<T>, n: byte, rest: seq<byte>)
    requires at <= |b| && n < |all| && b[at..] == PutEnum(all, n, rest)
    ensures BytesAt(b, at, [n]) && b[at + 1..] == rest
  {
    ByteStands(b, at, n, rest);
  }

  lemma {:induction false} FlagsStand(b: seq<byte>, at: nat, xs: seq<bool>, rest: seq<byte>)
    requires at <= |b| && b[at..] == PutFlags(xs, rest)
    ensures FlagsAt(b, at, xs) && b[at + |xs|..] == rest
    decreases |xs|
  {
    hide GetFlags, GetFlag, GetU8;
    if xs != [] {
      ByteStands(b, at, if xs[0] then 1 else 0, PutFlags(xs[1..], rest));
      FlagsStand(b, at + 1, xs[1..], rest);
      assert b[at] == b[at..at + 1][0];
      forall i | 0 < i < |xs|
        ensures b[at + i] == if xs[i] then 1 else 0
      {
        assert xs[i] == xs[1..][i - 1];
      }
    }
  }

  lemma IdsStand(b: seq<byte>, at: nat, xs: seq<u64>, rest: seq<byte>)
    requires at <= |b| && b[at..] == PutIds(xs, rest)
    ensures IdsAt(b, at, xs) && b[at + 8 + 8 * |xs|..] == rest
  {
    hide FromLE, PutU64, PutWords;
    WordStands(b, at, |xs| % TWO_64, PutWords(xs, rest));
    WordsStand(b, at + 8, xs, rest);
  }

  lemma TextStands(b: seq<byte>, at: nat, s: Text, rest: seq<byte>)
    requires at <= |b| && b[at..] == PutText(s, rest)
    ensures TextAt(b, at, s) && b[at + SizeText(s)..] == rest
  {
    hide FromLE, PutU64;
    WordStands(b, at, |s| % TWO_64, s + rest);
    assert b[at + 8..][..|s|] == b[at + 8..at + 8 + |s|] && b[at + 8..][|s|..] == b[at + 8 + |s|..];
  }

  lemma {:induction false} ManyTextsStand(b: seq<byte>, at: nat, xs: seq<Text>, rest: seq<byte>)
    requires at <= |b| && b[at..] == PutMany(PutText, xs, rest)
    ensures at + Total(SizeText, xs) <= |b| && b[at + Total(SizeText, xs)..] == rest
    decreases |xs|
  {
    hide PutText, TextAt;
    if xs != [] {
      TextStands(b, at, xs[0], PutMany(PutText, xs[1..], rest));
      SizeFits(b, at, xs[0], PutMany(PutText, xs[1..], rest));
      ManyTextsStand(b, at + SizeText(xs[0]), xs[1..], rest);
    }
  }

  lemma SizeFits(b: seq<byte>, at: nat, s: Text, rest: seq<byte>)
    requires at <= |b| && b[at..] == PutText(s, rest)
    ensures at + SizeText(s) <= |b|
  {
  }

  /** A number of strings, each with its length; what follows them comes next. */
  lemma TextsStand(b: seq<byte>, at: nat, xs: seq<Text>, rest: seq<byte>)
    requires at <= |b| && b[at..] == PutTexts(xs, rest)
    ensures WordsAt(b, at, [|xs| % TWO_64]) && at + SizeTexts(xs) <= |b| && b[at + SizeTexts(xs)..] == rest
  {
    hide PutU64, PutMany, PutText, FromLE;
    WordStands(b, at, |xs| % TWO_64, PutMany(PutText, xs, rest));
    ManyTextsStand(b, at + 8, xs, rest);
  }

  // ----- Records -----

  function HeadWords(p: ContentionPolicy<Double>): seq<u64> {
    [p.id, p.generation, p.actionabilityThreshold, p.releaseThreshold, p.hysteresisEvidenceCount]
  }

  /** The policy: its fixed part, the table of the workloads' own policies, and the switches. */
  lemma PolicyStands(b: seq<byte>, at: nat, p: ContentionPolicy<Double>, rest: seq<byte>)
    requires at <= |b| && b[at..] == PutPolicy(p, rest)
    ensures WordsAt(b, at, HeadWords(p))
    ensures BytesAt(b, at + 40, [AttributionOrd(p.minAttributionForDisruptive)])
    ensures WordsAt(b, at + 41, [p.minConfidenceForDisruptive, p.fairnessFloor, p.fairnessWeight])
    ensures HalfWordAt(b, at + 65, p.maxConsecutiveInterventionsPerWorkload)
    ensures at + 69 <= |b| && b[at + 69..] == PutLimits(p, rest)
  {
    hide WordsAt, HalfWordAt, BytesAt, PutWords, PutU8, PutU32, PutFlags, PutMap, AttributionOrd;
    hide PutEnum, GetWords, GetIds, GetU8, GetU32, GetU64, GetEnum, GetText, GetTexts, GetFlag, GetFlags;
    hide GetOptional, GetFence;
    var b3 := PutU32(p.maxConsecutiveInterventionsPerWorkload, PutLimits(p, rest));
    var b2 := PutWords([p.minConfidenceForDisruptive, p.fairnessFloor, p.fairnessWeight], b3);
    var b1 := PutEnum(ATTRIBUTIONS, AttributionOrd(p.minAttributionForDisruptive), b2);
    WordsStand(b, at, HeadWords(p), b1);
    EnumStands(b, at + 40, ATTRIBUTIONS, AttributionOrd(p.minAttributionForDisruptive), b2);
    WordsStand(b, at + 41, [p.minConfidenceForDisruptive, p.fairnessFloor, p.fairnessWeight], b3);
    HalfStands(b, at + 65, p.maxConsecutiveInterventionsPerWorkload, PutLimits(p, rest));
  }

  /** What of a policy follows its first 69 bytes. */
  function PutLimits(p: ContentionPolicy<Double>, rest: seq<byte>): seq<byte> {
    PutWords(LimitWords(p), PutMap(PutWorkload, p.workloads, PutSwitches(p, rest)))
  }

  function LimitWords(p: ContentionPolicy<Double>): seq<u64> {
    var l, u := p.budget, p.budget.used;
    [p.costCeiling, p.cooldownMs, l.generation, l.maxPreemptionsPerWindow, l.maxMigrationsPerWindow,
     l.maxPlacementChangesPerWindow, l.maxThrottlesPerWindow, l.maxCollectiveReschedulesPerWindow, l.maxAnyPerWindow,
     l.windowMs, l.windowStart, u.preemptions, u.migrations, u.placementChanges, u.throttles,
     u.collectiveReschedules, u.all]
  }

  function PutSwitches(p: ContentionPolicy<Double>, rest: seq<byte>): seq<byte> {
    PutFlags([p.preemptionAllowed, p.migrationAllowed, p.placementChangeAllowed, p.bandwidthRequestAllowed,
              p.collectiveSchedulingAllowed, p.admissionRestrictionAllowed, p.throttleAllowed], rest)
  }

  /** Its limits and uses, and the switches after the workloads. */
  lemma LimitsStand(b: seq<byte>, at: nat, p: ContentionPolicy<Double>, rest: seq<byte>)
    requires at <= |b| && b[at..] == PutPolicy(p, rest)
    ensures WordsAt(b, at + 69, LimitWords(p)) && at + 205 <= |b|
    ensures b[at + 205..] == PutMap(PutWorkload, p.workloads, PutSwitches(p, rest))
  {
    hide WordsAt, HalfWordAt, BytesAt, PutPolicy, PutWords, PutMap, AttributionOrd, PutSwitches, LimitWords;
    hide PutEnum, GetWords, GetIds, GetU8, GetU32, GetU64, GetEnum, GetText, GetTexts, GetFlag, GetFlags;
    hide GetOptional, GetFence;
    assert |LimitWords(p)| == 17 by { SeventeenWords(p); }
    PolicyStands(b, at, p, rest);
    var table := PutMap(PutWorkload, p.workloads, PutSwitches(p, rest));
    WordsStand(b, at + 69, LimitWords(p), table);
    WordsFit(b, at + 69, LimitWords(p));
  }

  lemma SeventeenWords(p: ContentionPolicy<Double>)
    ensures |LimitWords(p)| == 17
  {
  }

  lemma WordsFit(b: seq<byte>, at: nat, ws: seq<u64>)
    requires WordsAt(b, at, ws)
    ensures at + 8 * |ws| <= |b|
  {
    hide FromLE;
  }

  /** A workload's own policy. */
  lemma WorkloadStands(b: seq<byte>, at: nat, w: WorkloadPolicy<Double>, rest: seq<byte>)
    requires at <= |b| && b[at..] == PutWorkload(w, rest)
    ensures WordsAt(b, at, [w.workload, w.generation]) && FlagsAt(b, at + 16, [w.nonPreemptible, w.protectedWorkload])
    ensures WordsAt(b, at + 18, [w.value]) && HalfWordAt(b, at + 26, w.priority)
    ensures WordsAt(b, at + 30, [w.hardSloFloor])
    ensures at + 38 <= |b| && b[at + 38..] == PutOptional(w.softSloTarget, PutCosts(w, rest))
  {
    hide WordsAt, HalfWordAt, FlagsAt, PutWords, PutU32, PutFlags, PutOptional;
    hide PutEnum, GetWords, GetIds, GetU8, GetU32, GetU64, GetEnum, GetText, GetTexts, GetFlag, GetFlags;
    hide GetOptional, GetFence;
    var b4 := PutOptional(w.softSloTarget, PutCosts(w, rest));
    var b3 := PutWords([w.hardSloFloor], b4);
    var b2 := PutU32(w.priority, b3);
    var b1 := PutWords([w.value], b2);
    var b0 := PutFlags([w.nonPreemptible, w.protectedWorkload], b1);
    WordsStand(b, at, [w.workload, w.generation], b0);
    FlagsStand(b, at + 16, [w.nonPreemptible, w.protectedWorkload], b1);
    WordsStand(b, at + 18, [w.value], b2);
    HalfStands(b, at + 26, w.priority, b3);
    WordsStand(b, at + 30, [w.hardSloFloor], b4);
  }

  function PutCosts(w: WorkloadPolicy<Double>, rest: seq<byte>): seq<byte> {
    PutWords([w.minServiceFloor, w.costCeiling, w.restartCost, w.preemptionCost, w.recoveryCost,
              w.maxDegradationTolerated],
    PutU32(w.maxInterventionFrequencyPerWindow,
    PutFlags([w.preemptionAllowed, w.throttlingAllowed, w.deferralAllowed, w.admissionRestrictionAllowed,
              w.placementChangeAllowed, w.bandwidthRequestAllowed, w.collectiveSchedulingAllowed,
              w.migrationAllowed], rest)))
  }

  /** After a flag, and a word if it is set, its costs and switches. */
  lemma CostsStand(b: seq<byte>, at: nat, w: WorkloadPolicy<Double>, rest: seq<byte>)
    requires at <= |b| && b[at..] == PutOptional(w.softSloTarget, PutCosts(w, rest))
    ensures FlagsAt(b, at, [w.softSloTarget.Some?])
    ensures w.softSloTarget.Some? ==> WordsAt(b, at + 1, [w.softSloTarget.value])
    ensures var o := at + SizeOptional(w.softSloTarget);
            && WordsAt(b, o, [w.minServiceFloor, w.costCeiling, w.restartCost, w.preemptionCost, w.recoveryCost,
                              w.maxDegradationTolerated])
            && HalfWordAt(b, o + 48, w.maxInterventionFrequencyPerWindow)
            && FlagsAt(b, o + 52, [w.preemptionAllowed, w.throttlingAllowed, w.deferralAllowed,
                 w.admissionRestrictionAllowed, w.placementChangeAllowed, w.bandwidthRequestAllowed,
                 w.collectiveSchedulingAllowed, w.migrationAllowed])
            && b[o + 60..] == rest
  {
    hide WordsAt, HalfWordAt, FlagsAt, PutWords, PutU32, PutFlags, PutFlag, PutU64;
    hide PutEnum, GetWords, GetIds, GetU8, GetU32, GetU64, GetEnum, GetText, GetTexts, GetFlag, GetFlags;
    hide GetOptional, GetFence;
    OptionalStands(b, at, w.softSloTarget, PutCosts(w, rest));
    var o := at + SizeOptional(w.softSloTarget);
    var flags := [w.preemptionAllowed, w.throttlingAllowed, w.deferralAllowed, w.admissionRestrictionAllowed,
                  w.placementChangeAllowed, w.bandwidthRequestAllowed, w.collectiveSchedulingAllowed,
                  w.migrationAllowed];
    var b1 := PutU32(w.maxInterventionFrequencyPerWindow, PutFlags(flags, rest));
    WordsStand(b, o, [w.minServiceFloor, w.costCeiling, w.restartCost, w.preemptionCost, w.recoveryCost,
                      w.maxDegradationTolerated], b1);
    HalfStands(b, o + 48, w.maxInterventionFrequencyPerWindow, PutFlags(flags, rest));
    FlagsStand(b, o + 52, flags, rest);
  }

  lemma OptionalStands(b: seq<byte>, at: nat, x: Option<Double>, rest: seq<byte>)
    requires at <= |b| && b[at..] == PutOptional(x, rest)
    ensures FlagsAt(b, at, [x.Some?]) && (x.Some? ==> WordsAt(b, at + 1, [x.value]))
    ensures at + SizeOptional(x) <= |b| && b[at + SizeOptional(x)..] == rest
  {
    hide PutU64, FromLE;
    if x.Some? {
      ByteStands(b, at, 1, PutU64(x.value, rest));
      WordStands(b, at + 1, x.value, rest);
    } else {
      ByteStands(b, at, 0, rest);
    }
    assert b[at] == b[at..at + 1][0];
  }

  lemma AuthorityStands(b: seq<byte>, at: nat, a: AuthorityContext, rest: seq<byte>)
    requires at <= |b| && b[at..] == PutAuthority(a, rest)
    ensures WordsAt(b, at, [a.coordinatorEpoch, a.governorGeneration, a.policyGeneration, a.sloGeneration,
              a.valueGeneration, a.fairnessGeneration, a.resourceGeneration, a.placementGeneration,
              a.topologyGeneration])
    ensures at + 72 <= |b|
    ensures b[at + 72..] == PutMap(PutU64, a.workloadGenerations, PutMap(PutU64, a.workloadBoots, rest))
  {
    hide WordsAt, PutWords, PutMap;
    hide PutEnum, GetWords, GetIds, GetU8, GetU32, GetU64, GetEnum, GetText, GetTexts, GetFlag, GetFlags;
    hide GetOptional, GetFence;
    WordsStand(b, at, [a.coordinatorEpoch, a.governorGeneration, a.policyGeneration, a.sloGeneration,
                       a.valueGeneration, a.fairnessGeneration, a.resourceGeneration, a.placementGeneration,
                       a.topologyGeneration],
               PutMap(PutU64, a.workloadGenerations, PutMap(PutU64, a.workloadBoots, rest)));
  }

  /** What was observed: evidence up to its sample count. */
  lemma ObservationStands(b: seq<byte>, at: nat, e: InterferenceEvidence<Double>, rest: seq<byte>)
    requires at <= |b| && b[at..] == PutObservation(e, rest)
    ensures WordsAt(b, at, [e.id, e.generation, e.victim]) && IdsAt(b, at + 24, e.neighbors)
    ensures var o := at + 32 + 8 * |e.neighbors|;
            && BytesAt(b, o, [DomainOrd(e.domain)]) && BytesAt(b, o + 1, [MetricOrd(e.metric)])
            && WordsAt(b, o + 2, [e.isolatedBaseline, e.coRunObservation, e.degradation, e.improvement])
            && BytesAt(b, o + 34, [AttributionOrd(e.attribution)])
            && WordsAt(b, o + 35, [e.confidence, e.sampleCount])
            && o + 51 <= |b| && b[o + 51..] == rest
  {
    hide WordsAt, IdsAt, BytesAt, PutWords, PutIds, PutU8, DomainOrd, MetricOrd, AttributionOrd;
    hide PutEnum, GetWords, GetIds, GetU8, GetU32, GetU64, GetEnum, GetText, GetTexts, GetFlag, GetFlags;
    hide GetOptional, GetFence;
    var o := at + 32 + 8 * |e.neighbors|;
    var b5 := PutWords([e.confidence, e.sampleCount], rest);
    var b4 := PutU8(AttributionOrd(e.attribution), b5);
    var b3 := PutWords([e.isolatedBaseline, e.coRunObservation, e.degradation, e.improvement], b4);
    var b2 := PutEnum(METRICS, MetricOrd(e.metric), b3);
    var b1 := PutEnum(DOMAINS, DomainOrd(e.domain), b2);
    WordsStand(b, at, [e.id, e.generation, e.victim], PutIds(e.neighbors, b1));
    IdsStand(b, at + 24, e.neighbors, b1);
    EnumStands(b, o, DOMAINS, DomainOrd(e.domain), b2);
    EnumStands(b, o + 1, METRICS, MetricOrd(e.metric), b3);
    WordsStand(b, o + 2, [e.isolatedBaseline, e.coRunObservation, e.degradation, e.improvement], b4);
    ByteStands(b, o + 34, AttributionOrd(e.attribution), b5);
    WordsStand(b, o + 35, [e.confidence, e.sampleCount], rest);
  }

  /** Who reported it, the last part of evidence. */
  function PutSource(e: InterferenceEvidence<Double>, rest: seq<byte>): seq<byte> {
    PutText(e.sourceId, PutText(e.sourceHealth,
    PutWords([e.workerBoot, e.workloadGeneration, e.deviceGeneration, e.hostGeneration, e.topologyGeneration,
              e.resourceGeneration, e.placementGeneration, e.activeFrom, e.activeUntil], rest)))
  }

  /** Where it came from: the rest of the evidence. */
  lemma ProvenanceStands(b: seq<byte>, at: nat, e: InterferenceEvidence<Double>, rest: seq<byte>)
    requires at <= |b| && b[at..] == PutProvenance(e, rest)
    ensures WordsAt(b, at, [|e.unresolvedConfounders| % TWO_64])
    ensures var o := at + SizeTexts(e.unresolvedConfounders);
            && BytesAt(b, o, [EvidenceStatusOrd(e.status)]) && WordsAt(b, o + 1, [e.sampledAt, e.maxAgeMs])
            && BytesAt(b, o + 17, [LabelOrd(e.evidenceLabel)]) && o + 18 <= |b| && b[o + 18..] == PutSource(e, rest)
  {
    hide WordsAt, TextAt, BytesAt, PutWords, PutTexts, PutText, EvidenceStatusOrd, LabelOrd, SizeText, SizeTexts;
    hide PutEnum, GetWords, GetIds, GetU8, GetU32, GetU64, GetEnum, GetText, GetTexts, GetFlag, GetFlags;
    hide GetOptional, GetFence;
    var o := at + SizeTexts(e.unresolvedConfounders);
    var b2 := PutEnum(LABELS, LabelOrd(e.evidenceLabel), PutSource(e, rest));
    var b1 := PutWords([e.sampledAt, e.maxAgeMs], b2);
    TextsStand(b, at, e.unresolvedConfounders, PutEnum(EVIDENCE_STATUSES, EvidenceStatusOrd(e.status), b1));
    EnumStands(b, o, EVIDENCE_STATUSES, EvidenceStatusOrd(e.status), b1);
    WordsStand(b, o + 1, [e.sampledAt, e.maxAgeMs], b2);
    EnumStands(b, o + 17, LABELS, LabelOrd(e.evidenceLabel), PutSource(e, rest));
  }

  lemma SourceStands(b: seq<byte>, at: nat, e: InterferenceEvidence<Double>, rest: seq<byte>)
    requires at <= |b| && b[at..] == PutSource(e, rest)
    ensures TextAt(b, at, e.sourceId) && TextAt(b, at + SizeText(e.sourceId), e.sourceHealth)
    ensures var o := at + SizeText(e.sourceId) + SizeText(e.sourceHealth);
            && WordsAt(b, o, [e.workerBoot, e.workloadGeneration, e.deviceGeneration, e.hostGeneration,
                 e.topologyGeneration, e.resourceGeneration, e.placementGeneration, e.activeFrom, e.activeUntil])
            && b[o + 72..] == rest
  {
    hide WordsAt, TextAt, PutWords, PutText, SizeText;
    hide PutEnum, GetWords, GetIds, GetU8, GetU32, GetU64, GetEnum, GetText, GetTexts, GetFlag, GetFlags;
    hide GetOptional, GetFence;
    var tail := [e.workerBoot, e.workloadGeneration, e.deviceGeneration, e.hostGeneration, e.topologyGeneration,
                 e.resourceGeneration, e.placementGeneration, e.activeFrom, e.activeUntil];
    TextStands(b, at, e.sourceId, PutText(e.sourceHealth, PutWords(tail, rest)));
    TextStands(b, at + SizeText(e.sourceId), e.sourceHealth, PutWords(tail, rest));
    WordsStand(b, at + SizeText(e.sourceId) + SizeText(e.sourceHealth), tail, rest);
  }

  /** What was ordered: an intervention up to its adapter. */
  lemma ActionStands(b: seq<byte>, at: nat, i: InterventionRecord, rest: seq<byte>)
    requires at <= |b| && b[at..] == PutAction(i, rest)
    ensures WordsAt(b, at, [i.id, i.generation]) && BytesAt(b, at + 16, [ClassOrd(i.cls)])
    ensures WordsAt(b, at + 17, [i.conflictId, i.target]) && BytesAt(b, at + 33, [LifecycleOrd(i.state)])
    ensures var f := i.fence;
            WordsAt(b, at + 34, [f.coordinatorEpoch, f.governorGeneration, f.policyGeneration, f.sloGeneration,
              f.valueGeneration, f.fairnessGeneration, f.resourceGeneration, f.placementGeneration,
              f.topologyGeneration, f.conflictGeneration, f.evidenceGeneration, f.workerBoot, f.workloadGeneration,
              f.interventionGeneration])
    ensures TextAt(b, at + 146, i.adapter) && b[at + 146 + SizeText(i.adapter)..] == rest
  {
    hide WordsAt, TextAt, BytesAt, PutWords, PutText, PutU8, ClassOrd, LifecycleOrd, SizeText;
    hide PutEnum, GetWords, GetIds, GetU8, GetU32, GetU64, GetEnum, GetText, GetTexts, GetFlag, GetFlags;
    hide GetOptional, GetFence;
    var b4 := PutText(i.adapter, rest);
    var b3 := PutFence(i.fence, b4);
    var b2 := PutEnum(LIFECYCLES, LifecycleOrd(i.state), b3);
    var b1 := PutWords([i.conflictId, i.target], b2);
    WordsStand(b, at, [i.id, i.generation], PutEnum(CLASSES, ClassOrd(i.cls), b1));
    EnumStands(b, at + 16, CLASSES, ClassOrd(i.cls), b1);
    WordsStand(b, at + 17, [i.conflictId, i.target], b2);
    EnumStands(b, at + 33, LIFECYCLES, LifecycleOrd(i.state), b3);
    FenceStands(b, at + 34, i.fence, b4);
    TextStands(b, at + 146, i.adapter, rest);
  }

  lemma FenceStands(b: seq<byte>, at: nat, f: Fence, rest: seq<byte>)
    requires at <= |b| && b[at..] == PutFence(f, rest)
    ensures WordsAt(b, at, [f.coordinatorEpoch, f.governorGeneration, f.policyGeneration, f.sloGeneration,
              f.valueGeneration, f.fairnessGeneration, f.resourceGeneration, f.placementGeneration,
              f.topologyGeneration, f.conflictGeneration, f.evidenceGeneration, f.workerBoot, f.workloadGeneration,
              f.interventionGeneration])
    ensures b[at + 112..] == rest
  {
    hide WordsAt, PutWords;
    hide PutEnum, GetWords, GetIds, GetU8, GetU32, GetU64, GetEnum, GetText, GetTexts, GetFlag, GetFlags;
    hide GetOptional, GetFence;
    WordsStand(b, at, [f.coordinatorEpoch, f.governorGeneration, f.policyGeneration, f.sloGeneration,
                       f.valueGeneration, f.fairnessGeneration, f.resourceGeneration, f.placementGeneration,
                       f.topologyGeneration, f.conflictGeneration, f.evidenceGeneration, f.workerBoot,
                       f.workloadGeneration, f.interventionGeneration], rest);
  }

  /** What came of it, the last part of an intervention. */
  function PutResult(i: InterventionRecord, rest: seq<byte>): seq<byte> {
    PutEnum(OUTCOMES, OutcomeOrd(i.result), PutTexts(i.trace, PutFlag(i.verificationReported, rest)))
  }

  function PutReport(i: InterventionRecord, rest: seq<byte>): seq<byte> {
    PutEnum(STATUS_CODES, StatusOrd(i.interimStatus.code), PutText(i.interimStatus.message, PutResult(i, rest)))
  }

  /** How it fared: the rest of the intervention. */
  lemma ProgressStands(b: seq<byte>, at: nat, i: InterventionRecord, rest: seq<byte>)
    requires at <= |b| && b[at..] == PutProgress(i, rest)
    ensures WordsAt(b, at, [i.authorizedAt, i.dispatchedAt, i.acknowledgedAt, i.completedAt, i.dispatchId, i.attemptId])
    ensures TextAt(b, at + 48, i.ackNote) && at + 48 + SizeText(i.ackNote) <= |b|
    ensures b[at + 48 + SizeText(i.ackNote)..] == PutReport(i, rest)
  {
    hide WordsAt, TextAt, PutWords, PutTexts, PutText, PutFlag, StatusOrd, OutcomeOrd, SizeText, SizeTexts;
    hide PutEnum, GetWords, GetIds, GetU8, GetU32, GetU64, GetEnum, GetText, GetTexts, GetFlag, GetFlags;
    hide GetOptional, GetFence;
    WordsStand(b, at, [i.authorizedAt, i.dispatchedAt, i.acknowledgedAt, i.completedAt, i.dispatchId, i.attemptId],
               PutText(i.ackNote, PutReport(i, rest)));
    TextStands(b, at + 48, i.ackNote, PutReport(i, rest));
  }

  lemma ReportStands(b: seq<byte>, at: nat, i: InterventionRecord, rest: seq<byte>)
    requires at <= |b| && b[at..] == PutReport(i, rest)
    ensures BytesAt(b, at, [StatusOrd(i.interimStatus.code)]) && TextAt(b, at + 1, i.interimStatus.message)
    ensures at + 1 + SizeText(i.interimStatus.message) <= |b|
    ensures b[at + 1 + SizeText(i.interimStatus.message)..] == PutResult(i, rest)
  {
    hide TextAt, BytesAt, PutText, StatusOrd, SizeText, PutResult;
    hide PutEnum, GetWords, GetIds, GetU8, GetU32, GetU64, GetEnum, GetText, GetTexts, GetFlag, GetFlags;
    hide GetOptional, GetFence;
    var b1 := PutText(i.interimStatus.message, PutResult(i, rest));
    EnumStands(b, at, STATUS_CODES, StatusOrd(i.interimStatus.code), b1);
    TextStands(b, at + 1, i.interimStatus.message, PutResult(i, rest));
  }

  lemma ResultStands(b: seq<byte>, at: nat, i: InterventionRecord, rest: seq<byte>)
    requires at <= |b| && b[at..] == PutResult(i, rest)
    ensures BytesAt(b, at, [OutcomeOrd(i.result)]) && WordsAt(b, at + 1, [|i.trace| % TWO_64])
    ensures FlagsAt(b, at + 1 + SizeTexts(i.trace), [i.verificationReported])
    ensures b[at + 2 + SizeTexts(i.trace)..] == rest
  {
    hide WordsAt, TextAt, BytesAt, FlagsAt, PutTexts, PutFlag, OutcomeOrd, SizeTexts;
    hide PutEnum, GetWords, GetIds, GetU8, GetU32, GetU64, GetEnum, GetText, GetTexts, GetFlag, GetFlags;
    hide GetOptional, GetFence;
    var b1 := PutTexts(i.trace, PutFlag(i.verificationReported, rest));
    EnumStands(b, at, OUTCOMES, OutcomeOrd(i.result), b1);
    TextsStand(b, at + 1, i.trace, PutFlag(i.verificationReported, rest));
    FlagStands(b, at + 1 + SizeTexts(i.trace), i.verificationReported, rest);
  }

  lemma FlagStands(b: seq<byte>, at: nat, x: bool, rest: seq<byte>)
    requires at <= |b| && b[at..] == PutFlag(x, rest)
    ensures FlagsAt(b, at, [x]) && b[at + 1..] == rest
  {
    ByteStands(b, at, if x then 1 else 0, rest);
    assert b[at] == b[at..at + 1][0];
  }

  /** How much it matters, the last part of what a conflict is about. */
  function PutExtent(c: ContentionConflict<Double>, rest: seq<byte>): seq<byte> {
    PutEnum(DOMAINS, DomainOrd(c.domain), PutWords([c.degradation, c.baseline, c.confidence],
    PutEnum(OBJECTIVES, ObjectiveOrd(c.binding), PutEnum(SEVERITIES, SeverityOrd(c.severity), rest))))
  }

  /** Who contends: a conflict up to its severity. */
  lemma ContentionStands(b: seq<byte>, at: nat, c: ContentionConflict<Double>, rest: seq<byte>)
    requires at <= |b| && b[at..] == PutContention(c, rest)
    ensures WordsAt(b, at, [c.id, c.generation]) && IdsAt(b, at + 16, c.affected)
    ensures IdsAt(b, at + 24 + 8 * |c.affected|, c.associated)
    ensures var o := at + 32 + 8 * |c.affected| + 8 * |c.associated|; o <= |b| && b[o..] == PutExtent(c, rest)
  {
    hide WordsAt, IdsAt, PutWords, PutIds, DomainOrd, ObjectiveOrd, SeverityOrd;
    hide PutEnum, GetWords, GetIds, GetU8, GetU32, GetU64, GetEnum, GetText, GetTexts, GetFlag, GetFlags;
    hide GetOptional, GetFence;
    var q := at + 24 + 8 * |c.affected|;
    WordsStand(b, at, [c.id, c.generation], PutIds(c.affected, PutIds(c.associated, PutExtent(c, rest))));
    IdsStand(b, at + 16, c.affected, PutIds(c.associated, PutExtent(c, rest)));
    IdsStand(b, q, c.associated, PutExtent(c, rest));
  }

  lemma ExtentStands(b: seq<byte>, at: nat, c: ContentionConflict<Double>, rest: seq<byte>)
    requires at <= |b| && b[at..] == PutExtent(c, rest)
    ensures BytesAt(b, at, [DomainOrd(c.domain)]) && WordsAt(b, at + 1, [c.degradation, c.baseline, c.confidence])
    ensures BytesAt(b, at + 25, [ObjectiveOrd(c.binding)]) && BytesAt(b, at + 26, [SeverityOrd(c.severity)])
    ensures b[at + 27..] == rest
  {
    hide WordsAt, BytesAt, PutWords, DomainOrd, ObjectiveOrd, SeverityOrd;
    hide PutEnum, GetWords, GetIds, GetU8, GetU32, GetU64, GetEnum, GetText, GetTexts, GetFlag, GetFlags;
    hide GetOptional, GetFence;
    var b2 := PutEnum(SEVERITIES, SeverityOrd(c.severity), rest);
    var b1 := PutEnum(OBJECTIVES, ObjectiveOrd(c.binding), b2);
    EnumStands(b, at, DOMAINS, DomainOrd(c.domain), PutWords([c.degradation, c.baseline, c.confidence], b1));
    WordsStand(b, at + 1, [c.degradation, c.baseline, c.confidence], b1);
    EnumStands(b, at + 25, OBJECTIVES, ObjectiveOrd(c.binding), b2);
    EnumStands(b, at + 26, SEVERITIES, SeverityOrd(c.severity), rest);
  }

  /** What was found: its evidence, state and times, and then two lists of strings and the classes. */
  lemma FindingsStand(b: seq<byte>, at: nat, c: ContentionConflict<Double>, rest: seq<byte>)
    requires at <= |b| && b[at..] == PutFindings(c, rest)
    ensures IdsAt(b, at, c.evidenceIds)
    ensures var o := at + 8 + 8 * |c.evidenceIds|;
            var p := o + 25 + SizeTexts(c.unresolvedConfounders);
            && BytesAt(b, o, [ConflictStateOrd(c.state)])
            && WordsAt(b, o + 1, [c.firstDetectedAt, c.lastUpdatedAt, c.activeUntil])
            && WordsAt(b, o + 25, [|c.unresolvedConfounders| % TWO_64]) && WordsAt(b, p, [|c.blockers| % TWO_64])
            && p + SizeTexts(c.blockers) <= |b|
            && b[p + SizeTexts(c.blockers)..] == PutClasses(c.candidateClasses, rest)
  {
    hide WordsAt, IdsAt, BytesAt, PutWords, PutIds, PutU8, PutTexts, PutClasses, ConflictStateOrd, SizeTexts;
    hide PutEnum, GetWords, GetIds, GetU8, GetU32, GetU64, GetEnum, GetText, GetTexts, GetFlag, GetFlags;
    hide GetOptional, GetFence;
    var o := at + 8 + 8 * |c.evidenceIds|;
    var b4 := PutClasses(c.candidateClasses, rest);
    var b3 := PutTexts(c.blockers, b4);
    var b2 := PutTexts(c.unresolvedConfounders, b3);
    var b1 := PutWords([c.firstDetectedAt, c.lastUpdatedAt, c.activeUntil], b2);
    IdsStand(b, at, c.evidenceIds, PutEnum(CONFLICT_STATES, ConflictStateOrd(c.state), b1));
    EnumStands(b, o, CONFLICT_STATES, ConflictStateOrd(c.state), b1);
    WordsStand(b, o + 1, [c.firstDetectedAt, c.lastUpdatedAt, c.activeUntil], b2);
    TextsStand(b, o + 25, c.unresolvedConfounders, b3);
    TextsStand(b, o + 25 + SizeTexts(c.unresolvedConfounders), c.blockers, b4);
  }

  /** What was decided: the rest of the conflict. */
  lemma DecisionsStand(b: seq<byte>, at: nat, c: ContentionConflict<Double>, rest: seq<byte>)
    requires at <= |b| && b[at..] == PutDecisions(c, rest)
    ensures IdsAt(b, at, c.proposedIds) && IdsAt(b, at + 8 + 8 * |c.proposedIds|, c.selectedIds)
    ensures var o := at + 16 + 8 * |c.proposedIds| + 8 * |c.selectedIds|;
            && WordsAt(b, o, [c.policyGeneration, c.sloGeneration, c.valueGeneration, c.fairnessGeneration,
                              c.resourceGeneration, c.placementGeneration, c.coordinatorEpoch, c.workerBoot])
            && FlagsAt(b, o + 64, [c.groupEffectExplicit]) && WordsAt(b, o + 65, [c.lastActionAt])
            && FlagsAt(b, o + 73, [c.inActionableState]) && b[o + 74..] == rest
  {
    hide WordsAt, IdsAt, FlagsAt, PutWords, PutIds, PutFlag;
    hide PutEnum, GetWords, GetIds, GetU8, GetU32, GetU64, GetEnum, GetText, GetTexts, GetFlag, GetFlags;
    hide GetOptional, GetFence;
    var q := at + 8 + 8 * |c.proposedIds|;
    var o := q + 8 + 8 * |c.selectedIds|;
    var b3 := PutFlag(c.inActionableState, rest);
    var b2 := PutWords([c.lastActionAt], b3);
    var b1 := PutFlag(c.groupEffectExplicit, b2);
    var generations := [c.policyGeneration, c.sloGeneration, c.valueGeneration, c.fairnessGeneration,
                        c.resourceGeneration, c.placementGeneration, c.coordinatorEpoch, c.workerBoot];
    IdsStand(b, at, c.proposedIds, PutIds(c.selectedIds, PutWords(generations, b1)));
    IdsStand(b, q, c.selectedIds, PutWords(generations, b1));
    WordsStand(b, o, generations, b1);
    FlagStands(b, o + 64, c.groupEffectExplicit, b2);
    WordsStand(b, o + 65, [c.lastActionAt], b3);
    FlagStands(b, o + 73, c.inActionableState, rest);
  }

  lemma FairnessStands(b: seq<byte>, at: nat, f: FairnessRecord<Double>, rest: seq<byte>)
    requires at <= |b| && b[at..] == PutFairness(f, rest)
    ensures WordsAt(b, at, [f.workload, f.interventionCount]) && HalfWordAt(b, at + 16, f.consecutiveInterventions)
    ensures WordsAt(b, at + 20, [f.deprivationDebt, f.lastInterventionAt]) && b[at + 36..] == rest
  {
    hide WordsAt, HalfWordAt, PutWords, PutU32;
    hide PutEnum, GetWords, GetIds, GetU8, GetU32, GetU64, GetEnum, GetText, GetTexts, GetFlag, GetFlags;
    hide GetOptional, GetFence;
    var b2 := PutWords([f.deprivationDebt, f.lastInterventionAt], rest);
    WordsStand(b, at, [f.workload, f.interventionCount], PutU32(f.consecutiveInterventions, b2));
    HalfStands(b, at + 16, f.consecutiveInterventions, b2);
    WordsStand(b, at + 20, [f.deprivationDebt, f.lastInterventionAt], rest);
  }

  // ----- The image -----

  /** A saved image, from its name to its checksum: the policy's thresholds are words 16 and 24 bytes into it. */
  lemma ImageStands(s: State)
    requires |PutState(s, [])| + 24 <= U64_MAX
    ensures var b, p, n := Save(s), s.engine.policy, |PutState(s, [])|;
            && BytesAt(b, 0, [0x43, 0x47, 0x4F, 0x56, 0x01, 0x00, 0x00, 0x00]) && HalfWordAt(b, 8, 1)
            && WordsAt(b, 12, [n]) && |b| == n + 24 && HalfWordAt(b, 20 + n, Crc(b[20..20 + n]))
            && WordsAt(b, 20, [p.id, p.generation]) && WordsAt(b, 36, [p.actionabilityThreshold, p.releaseThreshold])
  {
    hide Save, PutState, Wrap, FromLE, Crc, WordsAt, HalfWordAt, BytesAt;
    var b, payload, p := Save(s), PutState(s, []), s.engine.policy;
    SaveIs(s);
    EnvelopeStands(payload, Crc(payload));
    ThresholdsStand(s);
    WordsShift(b, payload, 0, [p.id, p.generation]);
    WordsShift(b, payload, 16, [p.actionabilityThreshold, p.releaseThreshold]);
  }

  lemma SaveIs(s: State)
    ensures Save(s) == Wrap(PutState(s, []), Crc(PutState(s, [])))
  {
    hide PutState, Wrap, Crc;
  }

  lemma ThresholdsStand(s: State)
    ensures var b, p := PutState(s, []), s.engine.policy;
            WordsAt(b, 0, [p.id, p.generation]) && WordsAt(b, 16, [p.actionabilityThreshold, p.releaseThreshold])
  {
    hide PutState, PutPolicy, PutAuthority, PutTables, WordsAt, HalfWordAt, BytesAt, PutLimits;
    var b := PutState(s, []);
    assert b[0..] == b;
    PolicyFirst(s);
    PolicyStands(b, 0, s.engine.policy, PutAuthority(s.engine.authority, PutTables(s, [])));
    FirstWords(b, s.engine.policy);
  }

  lemma EnvelopeStands(payload: seq<byte>, crc: u32)
    requires |payload| + 24 <= U64_MAX
    ensures var b, n := Wrap(payload, crc), |payload|;
            && BytesAt(b, 0, [0x43, 0x47, 0x4F, 0x56, 0x01, 0x00, 0x00, 0x00]) && HalfWordAt(b, 8, 1)
            && WordsAt(b, 12, [n]) && |b| == n + 24 && b[20..20 + n] == payload && HalfWordAt(b, 20 + n, crc)
  {
    hide LE, FromLE;
    WrapFields(payload, crc);
    var b := Wrap(payload, crc);
    assert b[|b| - 4..] == b[20 + |payload|..20 + |payload| + 4];
  }

  lemma FirstWords(b: seq<byte>, p: ContentionPolicy<Double>)
    requires WordsAt(b, 0, HeadWords(p))
    ensures WordsAt(b, 0, [p.id, p.generation]) && WordsAt(b, 16, [p.actionabilityThreshold, p.releaseThreshold])
  {
    hide FromLE;
    var ws := HeadWords(p);
    assert ws[2] == p.actionabilityThreshold && ws[3] == p.releaseThreshold;
    assert FromLE(b[0 + 8 * 2..0 + 8 * 2 + 8]) == ws[2] && FromLE(b[0 + 8 * 3..0 + 8 * 3 + 8]) == ws[3];
    assert FromLE(b[0 + 8 * 0..0 + 8 * 0 + 8]) == ws[0] && FromLE(b[0 + 8 * 1..0 + 8 * 1 + 8]) == ws[1];
  }

  lemma SliceShift(b: seq<byte>, n: nat, x: nat)
    requires x + 8 <= n && 20 + n <= |b|
    ensures b[20..20 + n][x..x + 8] == b[20 + x..20 + x + 8]
  {
    var inner, outer := b[20..20 + n][x..x + 8], b[20 + x..20 + x + 8];
    forall i | 0 <= i < 8
      ensures inner[i] == outer[i]
    {
      assert inner[i] == b[20..20 + n][x + i] == b[20 + (x + i)];
    }
    assert |inner| == |outer| == 8;
  }

  lemma WordsShift(b: seq<byte>, payload: seq<byte>, at: nat, ws: seq<u64>)
    requires |b| >= 20 + |payload| && b[20..20 + |payload|] == payload && WordsAt(payload, at, ws)
    ensures WordsAt(b, 20 + at, ws)
  {
    hide FromLE;
    forall i | 0 <= i < |ws|
      ensures FromLE(b[20 + at + 8 * i..20 + at + 8 * i + 8]) == ws[i]
    {
      var x := at + 8 * i;
      SliceShift(b, |payload|, x);
    }
  }

  /** The policy, the authority, the four tables and the counters, in this order. */
  lemma PolicyFirst(s: State)
    ensures PutState(s, []) == PutPolicy(s.engine.policy, PutAuthority(s.engine.authority, PutTables(s, [])))
    ensures PutTables(s, []) == PutMap(PutConflict, s.engine.conflicts, PutMap(PutEvidence, s.engine.evidence,
                                  PutMap(PutIntervention, s.engine.interventions,
                                    PutMap(PutFairness, s.engine.fairness, PutCounters(s, [])))))
  {
    hide PutPolicy, PutAuthority, PutMap, PutCounters;
  }

  lemma CountersStand(b: seq<byte>, at: nat, s: State, rest: seq<byte>)
    requires at <= |b| && b[at..] == PutCounters(s, rest)
    ensures WordsAt(b, at, [s.nextConflictId, s.nextEvidenceId, s.nextInterventionId, s.nextDispatchId,
                            s.nextAttemptId, s.nextVerificationId, s.lastDigest])
    ensures b[at + 56..] == rest
  {
    hide WordsAt, PutWords;
    hide PutEnum, GetWords, GetIds, GetU8, GetU32, GetU64, GetEnum, GetText, GetTexts, GetFlag, GetFlags;
    hide GetOptional, GetFence;
    WordsStand(b, at, [s.nextConflictId, s.nextEvidenceId, s.nextInterventionId, s.nextDispatchId, s.nextAttemptId,
                       s.nextVerificationId, s.lastDigest], rest);
  }

  // ----- The byte each enumerator is stored as -----

  lemma ResourceDomainNumbers()
    ensures [DomainOrd(Compute), DomainOrd(Cache), DomainOrd(MemoryBandwidth), DomainOrd(MemoryCapacity),
             DomainOrd(Pcie), DomainOrd(Transfer), DomainOrd(Collective), DomainOrd(Network), DomainOrd(Numa),
             DomainOrd(Storage), DomainOrd(HostCpu), DomainOrd(Residency), DomainOrd(SharedEngine),
             DomainOrd(UnknownDomain)]
            == [0, 1, 2, 3, 4, 5, 6, 7, 8, 9, 10, 11, 12, 13]
  {
  }

  lemma MetricDirectionNumbers()
    ensures [MetricOrd(HigherIsBetter), MetricOrd(LowerIsBetter)]
            == [0, 1]
  {
  }

  lemma ConflictStateNumbers()
    ensures [ConflictStateOrd(Detected), ConflictStateOrd(Validating), ConflictStateOrd(Actionable),
             ConflictStateOrd(InterventionAuthorized), ConflictStateOrd(InterventionInFlight),
             ConflictStateOrd(Verifying), ConflictStateOrd(ConflictResolved),
             ConflictStateOrd(ConflictPartiallyResolved), ConflictStateOrd(Unresolved),
             ConflictStateOrd(Suppressed), ConflictStateOrd(RevalidationRequired),
             ConflictStateOrd(ConflictSuperseded), ConflictStateOrd(UnknownConflict)]
            == [0, 1, 2, 3, 4, 5, 6, 7, 8, 9, 10, 11, 12]
  {
  }

  lemma EvidenceStatusNumbers()
    ensures [EvidenceStatusOrd(Current), EvidenceStatusOrd(Stale), EvidenceStatusOrd(ExpiredEvidence),
             EvidenceStatusOrd(NeedsRevalidation), EvidenceStatusOrd(UnsupportedEvidence),
             EvidenceStatusOrd(UnknownEvidence), EvidenceStatusOrd(Confounded), EvidenceStatusOrd(Insufficient)]
            == [0, 1, 2, 3, 4, 5, 6, 7]
  {
  }

  lemma AttributionStrengthNumbers()
    ensures [AttributionOrd(UnknownAttribution), AttributionOrd(TemporallyAssociated),
             AttributionOrd(Correlated), AttributionOrd(ControlledComparison),
             AttributionOrd(StrongCounterfactual), AttributionOrd(DirectResourceEvidence),
             AttributionOrd(Attribution6)]
            == [0, 1, 2, 3, 4, 5, 6]
  {
  }

  lemma BindingObjectiveNumbers()
    ensures [ObjectiveOrd(Latency), ObjectiveOrd(TailLatency), ObjectiveOrd(Throughput),
             ObjectiveOrd(Deadline), ObjectiveOrd(Availability), ObjectiveOrd(Recovery), ObjectiveOrd(Cost),
             ObjectiveOrd(Fairness), ObjectiveOrd(ResourceMinimum), ObjectiveOrd(ValueProtection),
             ObjectiveOrd(Multiple), ObjectiveOrd(UnknownObjective)]
            == [0, 1, 2, 3, 4, 5, 6, 7, 8, 9, 10, 11]
  {
  }

  lemma InterventionClassNumbers()
    ensures [ClassOrd(NoAction), ClassOrd(ObserveMore), ClassOrd(Throttle), ClassOrd(DeferNewWork),
             ClassOrd(ReduceConcurrency), ClassOrd(ReduceBatch), ClassOrd(Serialize), ClassOrd(TimeSlice),
             ClassOrd(RequestPreemption), ClassOrd(RequestMigration), ClassOrd(RequestReplacement),
             ClassOrd(ChangePlacement), ClassOrd(RequestBandwidthReallocation),
             ClassOrd(RequestCommunicationReplan), ClassOrd(RequestCollectiveReschedule),
             ClassOrd(ReleaseOptionalResidency), ClassOrd(ReduceMemoryPressure), ClassOrd(ShedLowValueWork),
             ClassOrd(ProtectHighValueWork), ClassOrd(Escalate), ClassOrd(ManualInterventionRequired)]
            == [0, 1, 2, 3, 4, 5, 6, 7, 8, 9, 10, 11, 12, 13, 14, 15, 16, 17, 18, 19, 20]
  {
  }

  lemma LifecycleStateNumbers()
    ensures [LifecycleOrd(Proposed), LifecycleOrd(Authorized), LifecycleOrd(Dispatched),
             LifecycleOrd(Acknowledged), LifecycleOrd(Effective), LifecycleOrd(PartiallyEffective),
             LifecycleOrd(Ineffective), LifecycleOrd(FailedAction), LifecycleOrd(Cancelled),
             LifecycleOrd(SupersededAction), LifecycleOrd(ExpiredAction), LifecycleOrd(OutcomeUnknown)]
            == [0, 1, 2, 3, 4, 5, 6, 7, 8, 9, 10, 11]
  {
  }

  lemma VerificationOutcomeNumbers()
    ensures [OutcomeOrd(Resolved), OutcomeOrd(PartiallyResolved), OutcomeOrd(NoEffect), OutcomeOrd(Worsened),
             OutcomeOrd(ShiftedContention), OutcomeOrd(CreatedSecondaryViolation),
             OutcomeOrd(CreatedFairnessViolation), OutcomeOrd(InsufficientPostActionEvidence),
             OutcomeOrd(UnknownOutcome)]
            == [0, 1, 2, 3, 4, 5, 6, 7, 8]
  {
  }

  lemma EvidenceLabelNumbers()
    ensures [LabelOrd(Real), LabelOrd(Controlled), LabelOrd(Derived), LabelOrd(PolicyLabel),
             LabelOrd(Synthetic), LabelOrd(UnsupportedLabel)]
            == [0, 1, 2, 3, 4, 5]
  {
  }

  lemma SeverityNumbers()
    ensures [SeverityOrd(NoSeverity), SeverityOrd(Minor), SeverityOrd(Moderate), SeverityOrd(Severe),
             SeverityOrd(Critical), SeverityOrd(UnknownSeverity)]
            == [0, 1, 2, 3, 4, 5]
  {
  }

  lemma StatusCodeNumbers()
    ensures [StatusOrd(Ok), StatusOrd(InvalidInput), StatusOrd(InsufficientEvidence),
             StatusOrd(ConfoundedEvidence), StatusOrd(StaleEvidence), StatusOrd(StaleAuthority),
             StatusOrd(PolicySuperseded), StatusOrd(ConflictIsResolved), StatusOrd(NoLegalIntervention),
             StatusOrd(HardConstraintViolation), StatusOrd(FairnessLimit), StatusOrd(ActionBudgetExhausted),
             StatusOrd(InterventionFailed), StatusOrd(OutcomeIsUnknown), StatusOrd(PersistenceCorrupt),
             StatusOrd(ProtocolError), StatusOrd(ArithmeticOverflow), StatusOrd(ResourceExhausted),
             StatusOrd(IsCancelled), StatusOrd(ShuttingDown), StatusOrd(Status20)]
            == [0, 1, 2, 3, 4, 5, 6, 7, 8, 9, 10, 11, 12, 13, 14, 15, 16, 17, 18, 19, 20]
  {
  }

  // ----- What is too long -----

  /** A string is read back exactly if it has at most 1048576 bytes, and a list exactly if it has as many entries. */
  lemma LengthsReadBack(s: Text, ids: seq<u64>, rest: seq<byte>)
    requires |s| < TWO_64 && |ids| < TWO_64
    ensures GetText(PutText(s, rest)).Some? <==> |s| <= 1048576
    ensures GetIds(PutIds(ids, rest)).Some? <==> |ids| <= 1048576
  {
    hide PutWords, GetWords;
  }
}
