/** The stored form of each entity, field by field in the program's order; doubles are bit patterns. */
module StateFormat {
  import opened Words
  import opened Enums
  import opened Entities
  import opened Formats

  type Double = u64

  // ----- Workload policy -----

  function PutOptional(o: Option<Double>, rest: seq<byte>): (b: seq<byte>)
    ensures GetOptional(b) == Some(Got(o, rest))
    ensures |b| == SizeOptional(o) + |rest|
  {
    match o
    case None => PutFlag(false, rest)
    case Some(d) => PutFlag(true, PutU64(d, rest))
  }

  function GetOptional(b: seq<byte>): (g: Option<Got<Option<Double>>>)
    ensures g.Some? ==> |b| == SizeOptional(g.value.value) + |g.value.rest|
  {
    var present :- GetFlag(b);
    if !present.value then Some(Got(None, present.rest))
    else
      var d :- GetU64(present.rest);
      Some(Got(Some(d.value), d.rest))
  }

  function SizeOptional(o: Option<Double>): nat { if o.None? then 1 else 9 }

  function PutWorkload(w: WorkloadPolicy<Double>, rest: seq<byte>): seq<byte> {
    PutWords([w.workload, w.generation],
    PutFlags([w.nonPreemptible, w.protectedWorkload],
    PutWords([w.value],
    PutU32(w.priority,
    PutWords([w.hardSloFloor],
    PutOptional(w.softSloTarget,
    PutWords([w.minServiceFloor, w.costCeiling, w.restartCost, w.preemptionCost, w.recoveryCost,
              w.maxDegradationTolerated],
    PutU32(w.maxInterventionFrequencyPerWindow,
    PutFlags([w.preemptionAllowed, w.throttlingAllowed, w.deferralAllowed, w.admissionRestrictionAllowed,
              w.placementChangeAllowed, w.bandwidthRequestAllowed, w.collectiveSchedulingAllowed,
              w.migrationAllowed], rest)))))))))
  }

  function GetWorkload(b: seq<byte>): Option<Got<WorkloadPolicy<Double>>> {
    var ids :- GetWords(2, b);
    var kinds :- GetFlags(2, ids.rest);
    var value :- GetWords(1, kinds.rest);
    var priority :- GetU32(value.rest);
    var floor :- GetWords(1, priority.rest);
    var soft :- GetOptional(floor.rest);
    var costs :- GetWords(6, soft.rest);
    var frequency :- GetU32(costs.rest);
    var allowed :- GetFlags(8, frequency.rest);
    var a, c := allowed.value, costs.value;
    Some(Got(WorkloadPolicy(ids.value[0], ids.value[1], kinds.value[0], kinds.value[1], value.value[0],
                            priority.value, floor.value[0], soft.value, c[0], c[1], c[2], c[3], c[4], c[5],
                            frequency.value, a[0], a[1], a[2], a[3], a[4], a[5], a[6], a[7]),
             allowed.rest))
  }

  predicate OkWorkload(w: WorkloadPolicy<Double>) { true }

  function SizeWorkload(w: WorkloadPolicy<Double>): nat { 98 + SizeOptional(w.softSloTarget) }

  lemma WorkloadRoundTrip(w: WorkloadPolicy<Double>, rest: seq<byte>)
    ensures GetWorkload(PutWorkload(w, rest)) == Some(Got(w, rest))
    ensures |PutWorkload(w, rest)| == SizeWorkload(w) + |rest|
  {
    hide PutWords, GetWords, PutFlags, GetFlags, PutU32, GetU32, PutOptional, GetOptional;
  }

  lemma WorkloadShrinks(b: seq<byte>)
    requires GetWorkload(b).Some?
    ensures var g := GetWorkload(b).value; OkWorkload(g.value) && |b| >= SizeWorkload(g.value) + |g.rest|
  {
    hide GetWords, GetFlags, GetU32, GetOptional;
  }

  lemma WorkloadPaired()
    ensures Paired(PutWorkload, GetWorkload, OkWorkload, SizeWorkload)
  {
    hide PutWorkload, GetWorkload, SizeWorkload;
    forall w, rest { WorkloadRoundTrip(w, rest); }
    forall b | GetWorkload(b).Some? { WorkloadShrinks(b); }
  }

  // ----- Policy -----

  function PutPolicy(p: ContentionPolicy<Double>, rest: seq<byte>): seq<byte> {
    var b, u := p.budget, p.budget.used;
    PutWords([p.id, p.generation, p.actionabilityThreshold, p.releaseThreshold, p.hysteresisEvidenceCount],
    PutEnum(ATTRIBUTIONS, AttributionOrd(p.minAttributionForDisruptive),
    PutWords([p.minConfidenceForDisruptive, p.fairnessFloor, p.fairnessWeight],
    PutU32(p.maxConsecutiveInterventionsPerWorkload,
    PutWords([p.costCeiling, p.cooldownMs, b.generation, b.maxPreemptionsPerWindow, b.maxMigrationsPerWindow,
              b.maxPlacementChangesPerWindow, b.maxThrottlesPerWindow, b.maxCollectiveReschedulesPerWindow,
              b.maxAnyPerWindow, b.windowMs, b.windowStart, u.preemptions, u.migrations, u.placementChanges,
              u.throttles, u.collectiveReschedules, u.all],
    PutMap(PutWorkload, p.workloads,
    PutFlags([p.preemptionAllowed, p.migrationAllowed, p.placementChangeAllowed, p.bandwidthRequestAllowed,
              p.collectiveSchedulingAllowed, p.admissionRestrictionAllowed, p.throttleAllowed], rest)))))))
  }

  /** The attribution byte is accepted up to 6, one more than the last named strength. */
  function GetPolicy(b: seq<byte>): Option<Got<ContentionPolicy<Double>>> {
    var head :- GetWords(5, b);
    var attribution :- GetEnum(ATTRIBUTIONS, head.rest);
    var mid :- GetWords(3, attribution.rest);
    var cap :- GetU32(mid.rest);
    var tail :- GetWords(17, cap.rest);
    var workloads :- GetMap(GetWorkload, tail.rest);
    var allowed :- GetFlags(7, workloads.rest);
    var h, m, t, a := head.value, mid.value, tail.value, allowed.value;
    var used := BudgetUse(t[11], t[12], t[13], t[14], t[15], t[16]);
    var budget := ActionBudget(t[2], t[3], t[4], t[5], t[6], t[7], t[8], t[9], t[10], used);
    Some(Got(ContentionPolicy(h[0], h[1], h[2], h[3], h[4], attribution.value, m[0], m[1], m[2], cap.value,
                              t[0], t[1], budget, workloads.value, a[0], a[1], a[2], a[3], a[4], a[5], a[6]),
             allowed.rest))
  }

  predicate OkPolicy(p: ContentionPolicy<Double>) { OkMap(OkWorkload, p.workloads) }

  function SizePolicy(p: ContentionPolicy<Double>): nat { 212 + SizeMap(SizeWorkload, p.workloads) }

  lemma PolicyRoundTrip(p: ContentionPolicy<Double>, rest: seq<byte>)
    ensures OkPolicy(p) ==> GetPolicy(PutPolicy(p, rest)) == Some(Got(p, rest))
    ensures |PutPolicy(p, rest)| == SizePolicy(p) + |rest|
  {
    hide PutWords, GetWords, PutFlags, GetFlags, PutU32, GetU32, PutEnum, GetEnum;
    hide PutMap, GetMap, SizeMap, OkMap, Paired;
    WorkloadPaired();
    var flags := PutFlags([p.preemptionAllowed, p.migrationAllowed, p.placementChangeAllowed,
                           p.bandwidthRequestAllowed, p.collectiveSchedulingAllowed,
                           p.admissionRestrictionAllowed, p.throttleAllowed], rest);
    MapRoundTrip(PutWorkload, GetWorkload, OkWorkload, SizeWorkload, p.workloads, flags);
  }

  lemma PolicyShrinks(b: seq<byte>)
    requires GetPolicy(b).Some?
    ensures var g := GetPolicy(b).value; OkPolicy(g.value) && |b| >= SizePolicy(g.value) + |g.rest|
  {
    hide GetWords, GetFlags, GetU32, GetEnum, GetMap, SizeMap, OkMap, Paired;
    WorkloadPaired();
    var head := GetWords(5, b).value;
    var attribution := GetEnum(ATTRIBUTIONS, head.rest).value;
    var mid := GetWords(3, attribution.rest).value;
    var cap := GetU32(mid.rest).value;
    var tail := GetWords(17, cap.rest).value;
    MapShrinks(PutWorkload, GetWorkload, OkWorkload, SizeWorkload, tail.rest);
  }

  // ----- Authority -----

  predicate OkWord(w: u64) { true }

  function SizeWord(w: u64): nat { 8 }

  lemma WordPaired()
    ensures Paired(PutU64, GetU64, OkWord, SizeWord)
  {
    hide PutU64, GetU64;
  }

  function PutAuthority(a: AuthorityContext, rest: seq<byte>): seq<byte> {
    PutWords([a.coordinatorEpoch, a.governorGeneration, a.policyGeneration, a.sloGeneration, a.valueGeneration,
              a.fairnessGeneration, a.resourceGeneration, a.placementGeneration, a.topologyGeneration],
    PutMap(PutU64, a.workloadGenerations,
    PutMap(PutU64, a.workloadBoots, rest)))
  }

  function GetAuthority(b: seq<byte>): Option<Got<AuthorityContext>> {
    var w :- GetWords(9, b);
    var generations :- GetMap(GetU64, w.rest);
    var boots :- GetMap(GetU64, generations.rest);
    var v := w.value;
    Some(Got(AuthorityContext(v[0], v[1], v[2], v[3], v[4], v[5], v[6], v[7], v[8],
                              generations.value, boots.value),
             boots.rest))
  }

  predicate OkAuthority(a: AuthorityContext) {
    OkMap(OkWord, a.workloadGenerations) && OkMap(OkWord, a.workloadBoots)
  }

  function SizeAuthority(a: AuthorityContext): nat {
    72 + SizeMap(SizeWord, a.workloadGenerations) + SizeMap(SizeWord, a.workloadBoots)
  }

  lemma AuthorityRoundTrip(a: AuthorityContext, rest: seq<byte>)
    ensures OkAuthority(a) ==> GetAuthority(PutAuthority(a, rest)) == Some(Got(a, rest))
    ensures |PutAuthority(a, rest)| == SizeAuthority(a) + |rest|
  {
    hide PutWords, GetWords, PutMap, GetMap, SizeMap, OkMap, Paired, PutU64, GetU64;
    WordPaired();
    MapRoundTrip(PutU64, GetU64, OkWord, SizeWord, a.workloadBoots, rest);
    MapRoundTrip(PutU64, GetU64, OkWord, SizeWord, a.workloadGenerations, PutMap(PutU64, a.workloadBoots, rest));
  }

  lemma AuthorityShrinks(b: seq<byte>)
    requires GetAuthority(b).Some?
    ensures var g := GetAuthority(b).value; OkAuthority(g.value) && |b| >= SizeAuthority(g.value) + |g.rest|
  {
    hide GetWords, GetMap, SizeMap, OkMap, Paired, PutU64, GetU64;
    WordPaired();
    var w := GetWords(9, b).value;
    MapShrinks(PutU64, GetU64, OkWord, SizeWord, w.rest);
    MapShrinks(PutU64, GetU64, OkWord, SizeWord, GetMap(GetU64, w.rest).value.rest);
  }

  // ----- Evidence -----

  function PutEvidence(e: InterferenceEvidence<Double>, rest: seq<byte>): seq<byte> {
    PutObservation(e, PutProvenance(e, rest))
  }

  function PutObservation(e: InterferenceEvidence<Double>, rest: seq<byte>): seq<byte> {
    PutWords([e.id, e.generation, e.victim],
    PutIds(e.neighbors,
    PutEnum(DOMAINS, DomainOrd(e.domain),
    PutEnum(METRICS, MetricOrd(e.metric),
    PutWords([e.isolatedBaseline, e.coRunObservation, e.degradation, e.improvement],
    PutU8(AttributionOrd(e.attribution),
    PutWords([e.confidence, e.sampleCount], rest)))))))
  }

  function PutProvenance(e: InterferenceEvidence<Double>, rest: seq<byte>): seq<byte> {
    PutTexts(e.unresolvedConfounders,
    PutEnum(EVIDENCE_STATUSES, EvidenceStatusOrd(e.status),
    PutWords([e.sampledAt, e.maxAgeMs],
    PutEnum(LABELS, LabelOrd(e.evidenceLabel),
    PutText(e.sourceId,
    PutText(e.sourceHealth,
    PutWords([e.workerBoot, e.workloadGeneration, e.deviceGeneration, e.hostGeneration, e.topologyGeneration,
              e.resourceGeneration, e.placementGeneration, e.activeFrom, e.activeUntil], rest)))))))
  }

  /** Read in two parts: what was observed, then where it came from; the second part completes the first. */
  function GetEvidence(b: seq<byte>): Option<Got<InterferenceEvidence<Double>>> {
    var observed :- GetObservation(b);
    GetProvenance(observed.value, observed.rest)
  }

  function GetObservation(b: seq<byte>): Option<Got<InterferenceEvidence<Double>>> {
    var head :- GetWords(3, b);
    var neighbors :- GetIds(head.rest);
    var domain :- GetEnum(DOMAINS, neighbors.rest);
    var metric :- GetEnum(METRICS, domain.rest);
    var measured :- GetWords(4, metric.rest);
    var attribution :- GetEnum(ATTRIBUTIONS[..6], measured.rest);
    var sampled :- GetWords(2, attribution.rest);
    var h, m, s := head.value, measured.value, sampled.value;
    Some(Got(InterferenceEvidence(h[0], h[1], h[2], neighbors.value, domain.value, metric.value,
                                  m[0], m[1], m[2], m[3], attribution.value, s[0], s[1], [],
                                  UnknownEvidence, 0, 0, Synthetic, [], [], 0, 0, 0, 0, 0, 0, 0, 0, 0),
             sampled.rest))
  }

  function GetProvenance(e: InterferenceEvidence<Double>, b: seq<byte>): Option<Got<InterferenceEvidence<Double>>> {
    var confounders :- GetTexts(b);
    var status :- GetEnum(EVIDENCE_STATUSES, confounders.rest);
    var ages :- GetWords(2, status.rest);
    var kind :- GetEnum(LABELS, ages.rest);
    var source :- GetText(kind.rest);
    var health :- GetText(source.rest);
    var tail :- GetWords(9, health.rest);
    var t := tail.value;
    Some(Got(e.(unresolvedConfounders := confounders.value, status := status.value, sampledAt := ages.value[0],
                maxAgeMs := ages.value[1], evidenceLabel := kind.value, sourceId := source.value,
                sourceHealth := health.value, workerBoot := t[0], workloadGeneration := t[1],
                deviceGeneration := t[2], hostGeneration := t[3], topologyGeneration := t[4],
                resourceGeneration := t[5], placementGeneration := t[6], activeFrom := t[7], activeUntil := t[8]),
             tail.rest))
  }

  predicate OkEvidence(e: InterferenceEvidence<Double>) {
    && |e.neighbors| <= MAX_COLLECTION && e.attribution != Attribution6
    && OkTexts(e.unresolvedConfounders) && OkText(e.sourceId) && OkText(e.sourceHealth)
  }

  function SizeEvidence(e: InterferenceEvidence<Double>): nat {
    173 + 8 * |e.neighbors| + SizeTexts(e.unresolvedConfounders) + SizeText(e.sourceId) + SizeText(e.sourceHealth)
  }

  lemma ObservationRoundTrip(e: InterferenceEvidence<Double>, rest: seq<byte>)
    ensures |PutObservation(e, rest)| == 83 + 8 * |e.neighbors| + |rest|
    ensures OkEvidence(e) ==>
              && GetObservation(PutObservation(e, rest)).Some?
              && var g := GetObservation(PutObservation(e, rest)).value;
                 && g.rest == rest
                 && e == g.value.(unresolvedConfounders := e.unresolvedConfounders, status := e.status,
                      sampledAt := e.sampledAt, maxAgeMs := e.maxAgeMs, evidenceLabel := e.evidenceLabel,
                      sourceId := e.sourceId, sourceHealth := e.sourceHealth, workerBoot := e.workerBoot,
                      workloadGeneration := e.workloadGeneration, deviceGeneration := e.deviceGeneration,
                      hostGeneration := e.hostGeneration, topologyGeneration := e.topologyGeneration,
                      resourceGeneration := e.resourceGeneration, placementGeneration := e.placementGeneration,
                      activeFrom := e.activeFrom, activeUntil := e.activeUntil)
  {
    hide PutWords, GetWords, PutU8, GetU8, PutEnum, PutIds, GetIds, GetTexts, GetText, OkText, OkTexts;
    hide DomainOrd, MetricOrd;
    var strength := AttributionOrd(e.attribution);
    assert e.attribution != Attribution6 ==> strength < 6 && ATTRIBUTIONS[..6][strength] == e.attribution;
  }

  lemma ProvenanceRoundTrip(g: InterferenceEvidence<Double>, e: InterferenceEvidence<Double>, rest: seq<byte>)
    ensures |PutProvenance(e, rest)| == 90 + SizeTexts(e.unresolvedConfounders) + SizeText(e.sourceId)
                                        + SizeText(e.sourceHealth) + |rest|
    ensures OkEvidence(e) ==>
              GetProvenance(g, PutProvenance(e, rest))
              == Some(Got(g.(unresolvedConfounders := e.unresolvedConfounders, status := e.status,
                             sampledAt := e.sampledAt, maxAgeMs := e.maxAgeMs, evidenceLabel := e.evidenceLabel,
                             sourceId := e.sourceId, sourceHealth := e.sourceHealth, workerBoot := e.workerBoot,
                             workloadGeneration := e.workloadGeneration, deviceGeneration := e.deviceGeneration,
                             hostGeneration := e.hostGeneration, topologyGeneration := e.topologyGeneration,
                             resourceGeneration := e.resourceGeneration,
                             placementGeneration := e.placementGeneration,
                             activeFrom := e.activeFrom, activeUntil := e.activeUntil), rest))
  {
    hide PutWords, GetWords, PutEnum, GetEnum, PutText, GetText, PutTexts, GetTexts;
    hide OkText, OkTexts, SizeText, SizeTexts, EvidenceStatusOrd, LabelOrd;
  }

  lemma EvidenceRoundTrip(e: InterferenceEvidence<Double>, rest: seq<byte>)
    ensures OkEvidence(e) ==> GetEvidence(PutEvidence(e, rest)) == Some(Got(e, rest))
    ensures |PutEvidence(e, rest)| == SizeEvidence(e) + |rest|
  {
    hide PutObservation, GetObservation, PutProvenance, GetProvenance, OkEvidence, SizeText, SizeTexts;
    var b := PutProvenance(e, rest);
    ObservationRoundTrip(e, b);
    ProvenanceRoundTrip(if OkEvidence(e) then GetObservation(PutObservation(e, b)).value.value else e, e, rest);
  }

  lemma EvidenceShrinks(b: seq<byte>)
    requires GetEvidence(b).Some?
    ensures var g := GetEvidence(b).value; OkEvidence(g.value) && |b| >= SizeEvidence(g.value) + |g.rest|
  {
    hide GetWords, GetEnum, GetIds, GetText, GetTexts, OkText, OkTexts, SizeText, SizeTexts;
  }

  lemma EvidencePaired()
    ensures Paired(PutEvidence, GetEvidence, OkEvidence, SizeEvidence)
  {
    hide PutEvidence, GetEvidence, OkEvidence, SizeEvidence;
    forall e, rest { EvidenceRoundTrip(e, rest); }
    forall b | GetEvidence(b).Some? { EvidenceShrinks(b); }
  }

  // ----- Interventions -----

  function PutFence(f: Fence, rest: seq<byte>): (b: seq<byte>)
    ensures GetFence(b) == Some(Got(f, rest))
    ensures |b| == 112 + |rest|
  {
    PutWords([f.coordinatorEpoch, f.governorGeneration, f.policyGeneration, f.sloGeneration, f.valueGeneration,
              f.fairnessGeneration, f.resourceGeneration, f.placementGeneration, f.topologyGeneration,
              f.conflictGeneration, f.evidenceGeneration, f.workerBoot, f.workloadGeneration,
              f.interventionGeneration], rest)
  }

  function GetFence(b: seq<byte>): (g: Option<Got<Fence>>)
    ensures g.Some? ==> |b| == 112 + |g.value.rest|
  {
    var w :- GetWords(14, b);
    var v := w.value;
    Some(Got(Fence(v[0], v[1], v[2], v[3], v[4], v[5], v[6], v[7], v[8], v[9], v[10], v[11], v[12], v[13]), w.rest))
  }

  function PutIntervention(i: InterventionRecord, rest: seq<byte>): seq<byte> {
    PutAction(i, PutProgress(i, rest))
  }

  function PutAction(i: InterventionRecord, rest: seq<byte>): seq<byte> {
    PutWords([i.id, i.generation],
    PutEnum(CLASSES, ClassOrd(i.cls),
    PutWords([i.conflictId, i.target],
    PutEnum(LIFECYCLES, LifecycleOrd(i.state),
    PutFence(i.fence,
    PutText(i.adapter, rest))))))
  }

  function PutProgress(i: InterventionRecord, rest: seq<byte>): seq<byte> {
    PutWords([i.authorizedAt, i.dispatchedAt, i.acknowledgedAt, i.completedAt, i.dispatchId, i.attemptId],
    PutText(i.ackNote,
    PutEnum(STATUS_CODES, StatusOrd(i.interimStatus.code),
    PutText(i.interimStatus.message,
    PutEnum(OUTCOMES, OutcomeOrd(i.result),
    PutTexts(i.trace,
    PutFlag(i.verificationReported, rest)))))))
  }

  function GetIntervention(b: seq<byte>): Option<Got<InterventionRecord>> {
    var action :- GetAction(b);
    GetProgress(action.value, action.rest)
  }

  function GetAction(b: seq<byte>): Option<Got<InterventionRecord>> {
    var ids :- GetWords(2, b);
    var cls :- GetEnum(CLASSES, ids.rest);
    var of :- GetWords(2, cls.rest);
    var state :- GetEnum(LIFECYCLES, of.rest);
    var fence :- GetFence(state.rest);
    var adapter :- GetText(fence.rest);
    Some(Got(InterventionRecord(ids.value[0], ids.value[1], cls.value, of.value[0], of.value[1], state.value,
                                fence.value, adapter.value, 0, 0, 0, 0, 0, 0, [], Status(Ok, []),
                                UnknownOutcome, [], false),
             adapter.rest))
  }

  /** The status byte is accepted up to 20, one more than the last named code. */
  function GetProgress(i: InterventionRecord, b: seq<byte>): Option<Got<InterventionRecord>> {
    var times :- GetWords(6, b);
    var note :- GetText(times.rest);
    var code :- GetEnum(STATUS_CODES, note.rest);
    var message :- GetText(code.rest);
    var result :- GetEnum(OUTCOMES, message.rest);
    var trace :- GetTexts(result.rest);
    var reported :- GetFlag(trace.rest);
    var t := times.value;
    Some(Got(i.(authorizedAt := t[0], dispatchedAt := t[1], acknowledgedAt := t[2], completedAt := t[3],
                dispatchId := t[4], attemptId := t[5], ackNote := note.value,
                interimStatus := Status(code.value, message.value), result := result.value,
                trace := trace.value, verificationReported := reported.value),
             reported.rest))
  }

  predicate OkIntervention(i: InterventionRecord) {
    OkText(i.adapter) && OkText(i.ackNote) && OkText(i.interimStatus.message) && OkTexts(i.trace)
  }

  function SizeIntervention(i: InterventionRecord): nat {
    197 + SizeText(i.adapter) + SizeText(i.ackNote) + SizeText(i.interimStatus.message) + SizeTexts(i.trace)
  }

  lemma ActionRoundTrip(i: InterventionRecord, rest: seq<byte>)
    ensures |PutAction(i, rest)| == 146 + SizeText(i.adapter) + |rest|
    ensures OkIntervention(i) ==>
              && GetAction(PutAction(i, rest)).Some?
              && var g := GetAction(PutAction(i, rest)).value;
                 && g.rest == rest
                 && i == g.value.(authorizedAt := i.authorizedAt, dispatchedAt := i.dispatchedAt,
                      acknowledgedAt := i.acknowledgedAt, completedAt := i.completedAt,
                      dispatchId := i.dispatchId, attemptId := i.attemptId, ackNote := i.ackNote,
                      interimStatus := i.interimStatus, result := i.result, trace := i.trace,
                      verificationReported := i.verificationReported)
  {
    hide PutWords, GetWords, PutEnum, GetEnum, PutText, GetText, GetTexts, GetFlag, PutFence, GetFence;
    hide OkText, OkTexts, SizeText, ClassOrd, LifecycleOrd;
  }

  lemma ProgressRoundTrip(g: InterventionRecord, i: InterventionRecord, rest: seq<byte>)
    ensures |PutProgress(i, rest)| == 51 + SizeText(i.ackNote) + SizeText(i.interimStatus.message)
                                      + SizeTexts(i.trace) + |rest|
    ensures OkIntervention(i) ==>
              GetProgress(g, PutProgress(i, rest))
              == Some(Got(g.(authorizedAt := i.authorizedAt, dispatchedAt := i.dispatchedAt,
                             acknowledgedAt := i.acknowledgedAt, completedAt := i.completedAt,
                             dispatchId := i.dispatchId, attemptId := i.attemptId, ackNote := i.ackNote,
                             interimStatus := i.interimStatus, result := i.result, trace := i.trace,
                             verificationReported := i.verificationReported), rest))
  {
    hide PutWords, GetWords, PutEnum, GetEnum, PutText, GetText, PutTexts, GetTexts, PutFlag, GetFlag;
    hide OkText, OkTexts, SizeText, SizeTexts, StatusOrd, OutcomeOrd;
  }

  lemma InterventionRoundTrip(i: InterventionRecord, rest: seq<byte>)
    ensures OkIntervention(i) ==> GetIntervention(PutIntervention(i, rest)) == Some(Got(i, rest))
    ensures |PutIntervention(i, rest)| == SizeIntervention(i) + |rest|
  {
    hide PutAction, GetAction, PutProgress, GetProgress, OkIntervention, SizeText, SizeTexts;
    var b := PutProgress(i, rest);
    ActionRoundTrip(i, b);
    ProgressRoundTrip(if OkIntervention(i) then GetAction(PutAction(i, b)).value.value else i, i, rest);
  }

  lemma InterventionShrinks(b: seq<byte>)
    requires GetIntervention(b).Some?
    ensures var g := GetIntervention(b).value;
            OkIntervention(g.value) && |b| >= SizeIntervention(g.value) + |g.rest|
  {
    hide GetWords, GetEnum, GetFlag, GetText, GetTexts, GetFence, OkText, OkTexts, SizeText, SizeTexts;
  }

  lemma InterventionPaired()
    ensures Paired(PutIntervention, GetIntervention, OkIntervention, SizeIntervention)
  {
    hide PutIntervention, GetIntervention, OkIntervention, SizeIntervention;
    forall i, rest { InterventionRoundTrip(i, rest); }
    forall b | GetIntervention(b).Some? { InterventionShrinks(b); }
  }

  // ----- Conflicts -----

  function PutClass(c: InterventionClass, rest: seq<byte>): (b: seq<byte>)
    ensures GetClass(b) == Some(Got(c, rest))
    ensures |b| == 1 + |rest|
  {
    PutEnum(CLASSES, ClassOrd(c), rest)
  }

  function GetClass(b: seq<byte>): (g: Option<Got<InterventionClass>>)
    ensures g.Some? ==> |b| == 1 + |g.value.rest|
  {
    GetEnum(CLASSES, b)
  }

  predicate OkClass(c: InterventionClass) { true }

  function SizeClass(c: InterventionClass): nat { 1 }

  function PutClasses(cs: seq<InterventionClass>, rest: seq<byte>): seq<byte> {
    PutU64(|cs| % TWO_64, PutMany(PutClass, cs, rest))
  }

  function GetClasses(b: seq<byte>): Option<Got<seq<InterventionClass>>> {
    var n :- GetU64(b);
    if n.value > MAX_COLLECTION then None else GetMany(GetClass, n.value, n.rest)
  }

  function SizeClasses(cs: seq<InterventionClass>): nat { 8 + Total(SizeClass, cs) }

  lemma ClassPaired()
    ensures Paired(PutClass, GetClass, OkClass, SizeClass)
  {
    hide PutClass, GetClass;
  }

  lemma ClassesRoundTrip(cs: seq<InterventionClass>, rest: seq<byte>)
    ensures |cs| <= MAX_COLLECTION ==> GetClasses(PutClasses(cs, rest)) == Some(Got(cs, rest))
    ensures |PutClasses(cs, rest)| == SizeClasses(cs) + |rest|
  {
    hide PutU64, GetU64, PutMany, GetMany, Paired, PutClass, GetClass;
    ClassPaired();
    ManyRoundTrip(PutClass, GetClass, OkClass, SizeClass, cs, rest);
  }

  lemma ClassesShrink(b: seq<byte>)
    requires GetClasses(b).Some?
    ensures var g := GetClasses(b).value;
            |g.value| <= MAX_COLLECTION && |b| >= SizeClasses(g.value) + |g.rest|
  {
    hide GetMany, Paired, PutClass, GetClass;
    ClassPaired();
    var n := GetU64(b).value;
    ManyShrinks(PutClass, GetClass, OkClass, SizeClass, n.value, n.rest);
  }

  function PutConflict(c: ContentionConflict<Double>, rest: seq<byte>): seq<byte> {
    PutContention(c, PutFindings(c, PutDecisions(c, rest)))
  }

  function PutContention(c: ContentionConflict<Double>, rest: seq<byte>): seq<byte> {
    PutWords([c.id, c.generation],
    PutIds(c.affected,
    PutIds(c.associated,
    PutEnum(DOMAINS, DomainOrd(c.domain),
    PutWords([c.degradation, c.baseline, c.confidence],
    PutEnum(OBJECTIVES, ObjectiveOrd(c.binding),
    PutEnum(SEVERITIES, SeverityOrd(c.severity), rest)))))))
  }

  function PutFindings(c: ContentionConflict<Double>, rest: seq<byte>): seq<byte> {
    PutIds(c.evidenceIds,
    PutEnum(CONFLICT_STATES, ConflictStateOrd(c.state),
    PutWords([c.firstDetectedAt, c.lastUpdatedAt, c.activeUntil],
    PutTexts(c.unresolvedConfounders,
    PutTexts(c.blockers,
    PutClasses(c.candidateClasses, rest))))))
  }

  function PutDecisions(c: ContentionConflict<Double>, rest: seq<byte>): seq<byte> {
    PutIds(c.proposedIds,
    PutIds(c.selectedIds,
    PutWords([c.policyGeneration, c.sloGeneration, c.valueGeneration, c.fairnessGeneration,
              c.resourceGeneration, c.placementGeneration, c.coordinatorEpoch, c.workerBoot],
    PutFlag(c.groupEffectExplicit,
    PutWords([c.lastActionAt],
    PutFlag(c.inActionableState, rest))))))
  }

  function GetConflict(b: seq<byte>): Option<Got<ContentionConflict<Double>>> {
    var contention :- GetContention(b);
    var findings :- GetFindings(contention.value, contention.rest);
    GetDecisions(findings.value, findings.rest)
  }

  function GetContention(b: seq<byte>): Option<Got<ContentionConflict<Double>>> {
    var ids :- GetWords(2, b);
    var affected :- GetIds(ids.rest);
    var associated :- GetIds(affected.rest);
    var domain :- GetEnum(DOMAINS, associated.rest);
    var measured :- GetWords(3, domain.rest);
    var binding :- GetEnum(OBJECTIVES, measured.rest);
    var severity :- GetEnum(SEVERITIES, binding.rest);
    var m := measured.value;
    Some(Got(ContentionConflict(ids.value[0], ids.value[1], affected.value, associated.value, domain.value,
                                m[0], m[1], m[2], binding.value, severity.value, [], Detected, 0, 0, 0,
                                [], [], [], [], [], 0, 0, 0, 0, 0, 0, 0, 0, false, 0, false),
             severity.rest))
  }

  function GetFindings(c: ContentionConflict<Double>, b: seq<byte>): Option<Got<ContentionConflict<Double>>> {
    var evidence :- GetIds(b);
    var state :- GetEnum(CONFLICT_STATES, evidence.rest);
    var times :- GetWords(3, state.rest);
    var confounders :- GetTexts(times.rest);
    var blockers :- GetTexts(confounders.rest);
    var classes :- GetClasses(blockers.rest);
    var t := times.value;
    Some(Got(c.(evidenceIds := evidence.value, state := state.value, firstDetectedAt := t[0],
                lastUpdatedAt := t[1], activeUntil := t[2], unresolvedConfounders := confounders.value,
                blockers := blockers.value, candidateClasses := classes.value),
             classes.rest))
  }

  function GetDecisions(c: ContentionConflict<Double>, b: seq<byte>): Option<Got<ContentionConflict<Double>>> {
    var proposed :- GetIds(b);
    var selected :- GetIds(proposed.rest);
    var gens :- GetWords(8, selected.rest);
    var group :- GetFlag(gens.rest);
    var last :- GetWords(1, group.rest);
    var actionable :- GetFlag(last.rest);
    var g := gens.value;
    Some(Got(c.(proposedIds := proposed.value, selectedIds := selected.value, policyGeneration := g[0],
                sloGeneration := g[1], valueGeneration := g[2], fairnessGeneration := g[3],
                resourceGeneration := g[4], placementGeneration := g[5], coordinatorEpoch := g[6],
                workerBoot := g[7], groupEffectExplicit := group.value, lastActionAt := last.value[0],
                inActionableState := actionable.value),
             actionable.rest))
  }

  predicate OkConflict(c: ContentionConflict<Double>) {
    && |c.affected| <= MAX_COLLECTION && |c.associated| <= MAX_COLLECTION
    && |c.evidenceIds| <= MAX_COLLECTION && |c.candidateClasses| <= MAX_COLLECTION
    && |c.proposedIds| <= MAX_COLLECTION && |c.selectedIds| <= MAX_COLLECTION
    && OkTexts(c.unresolvedConfounders) && OkTexts(c.blockers)
  }

  function SizeConflict(c: ContentionConflict<Double>): nat {
    182 + 8 * (|c.affected| + |c.associated| + |c.evidenceIds| + |c.proposedIds| + |c.selectedIds|)
    + SizeTexts(c.unresolvedConfounders) + SizeTexts(c.blockers) + SizeClasses(c.candidateClasses)
  }

  lemma ContentionRoundTrip(c: ContentionConflict<Double>, rest: seq<byte>)
    ensures |PutContention(c, rest)| == 59 + 8 * (|c.affected| + |c.associated|) + |rest|
    ensures OkConflict(c) ==>
              && GetContention(PutContention(c, rest)).Some?
              && var g := GetContention(PutContention(c, rest)).value;
                 && g.rest == rest
                 && c == g.value.(evidenceIds := c.evidenceIds, state := c.state,
                      firstDetectedAt := c.firstDetectedAt, lastUpdatedAt := c.lastUpdatedAt,
                      activeUntil := c.activeUntil, unresolvedConfounders := c.unresolvedConfounders,
                      blockers := c.blockers, candidateClasses := c.candidateClasses,
                      proposedIds := c.proposedIds, selectedIds := c.selectedIds,
                      policyGeneration := c.policyGeneration, sloGeneration := c.sloGeneration,
                      valueGeneration := c.valueGeneration, fairnessGeneration := c.fairnessGeneration,
                      resourceGeneration := c.resourceGeneration, placementGeneration := c.placementGeneration,
                      coordinatorEpoch := c.coordinatorEpoch, workerBoot := c.workerBoot,
                      groupEffectExplicit := c.groupEffectExplicit, lastActionAt := c.lastActionAt,
                      inActionableState := c.inActionableState)
  {
    hide PutWords, GetWords, PutEnum, GetEnum, PutIds, GetIds, OkTexts, DomainOrd, ObjectiveOrd, SeverityOrd;
  }

  lemma FindingsRoundTrip(g: ContentionConflict<Double>, c: ContentionConflict<Double>, rest: seq<byte>)
    ensures |PutFindings(c, rest)| == 33 + 8 * |c.evidenceIds| + SizeTexts(c.unresolvedConfounders)
                                      + SizeTexts(c.blockers) + SizeClasses(c.candidateClasses) + |rest|
    ensures OkConflict(c) ==>
              GetFindings(g, PutFindings(c, rest))
              == Some(Got(g.(evidenceIds := c.evidenceIds, state := c.state, firstDetectedAt := c.firstDetectedAt,
                             lastUpdatedAt := c.lastUpdatedAt, activeUntil := c.activeUntil,
                             unresolvedConfounders := c.unresolvedConfounders, blockers := c.blockers,
                             candidateClasses := c.candidateClasses), rest))
  {
    hide PutWords, GetWords, PutEnum, GetEnum, PutIds, GetIds, PutTexts, GetTexts;
    hide PutClasses, GetClasses, OkTexts, SizeTexts, SizeClasses, ConflictStateOrd;
    ClassesRoundTrip(c.candidateClasses, rest);
  }

  lemma DecisionsRoundTrip(g: ContentionConflict<Double>, c: ContentionConflict<Double>, rest: seq<byte>)
    ensures |PutDecisions(c, rest)| == 90 + 8 * (|c.proposedIds| + |c.selectedIds|) + |rest|
    ensures OkConflict(c) ==>
              GetDecisions(g, PutDecisions(c, rest))
              == Some(Got(g.(proposedIds := c.proposedIds, selectedIds := c.selectedIds,
                             policyGeneration := c.policyGeneration, sloGeneration := c.sloGeneration,
                             valueGeneration := c.valueGeneration, fairnessGeneration := c.fairnessGeneration,
                             resourceGeneration := c.resourceGeneration,
                             placementGeneration := c.placementGeneration,
                             coordinatorEpoch := c.coordinatorEpoch, workerBoot := c.workerBoot,
                             groupEffectExplicit := c.groupEffectExplicit, lastActionAt := c.lastActionAt,
                             inActionableState := c.inActionableState), rest))
  {
    hide PutWords, GetWords, PutFlag, GetFlag, PutIds, GetIds, OkTexts;
  }

  lemma ConflictRoundTrip(c: ContentionConflict<Double>, rest: seq<byte>)
    ensures OkConflict(c) ==> GetConflict(PutConflict(c, rest)) == Some(Got(c, rest))
    ensures |PutConflict(c, rest)| == SizeConflict(c) + |rest|
  {
    hide PutContention, GetContention, PutFindings, GetFindings, PutDecisions, GetDecisions, OkConflict;
    hide SizeTexts, SizeClasses;
    var decisions := PutDecisions(c, rest);
    var findings := PutFindings(c, decisions);
    ContentionRoundTrip(c, findings);
    var g := GetContention(PutContention(c, findings));
    if OkConflict(c) {
      FindingsRoundTrip(g.value.value, c, decisions);
      DecisionsRoundTrip(GetFindings(g.value.value, findings).value.value, c, rest);
    } else {
      FindingsRoundTrip(c, c, decisions);
      DecisionsRoundTrip(c, c, rest);
    }
  }

  lemma ConflictShrinks(b: seq<byte>)
    requires GetConflict(b).Some?
    ensures var g := GetConflict(b).value; OkConflict(g.value) && |b| >= SizeConflict(g.value) + |g.rest|
  {
    hide GetWords, GetEnum, GetFlag, GetIds, GetTexts, GetClasses, OkTexts, SizeTexts, SizeClasses;
    forall x | GetClasses(x).Some? { ClassesShrink(x); }
  }

  lemma ConflictPaired()
    ensures Paired(PutConflict, GetConflict, OkConflict, SizeConflict)
  {
    hide PutConflict, GetConflict, OkConflict, SizeConflict;
    forall c, rest { ConflictRoundTrip(c, rest); }
    forall b | GetConflict(b).Some? { ConflictShrinks(b); }
  }

  // ----- Fairness -----

  function PutFairness(f: FairnessRecord<Double>, rest: seq<byte>): (b: seq<byte>)
    ensures GetFairness(b) == Some(Got(f, rest))
    ensures |b| == SizeFairness(f) + |rest|
  {
    PutWords([f.workload, f.interventionCount],
    PutU32(f.consecutiveInterventions,
    PutWords([f.deprivationDebt, f.lastInterventionAt], rest)))
  }

  function GetFairness(b: seq<byte>): (g: Option<Got<FairnessRecord<Double>>>)
    ensures g.Some? ==> |b| == SizeFairness(g.value.value) + |g.value.rest|
  {
    var head :- GetWords(2, b);
    var run :- GetU32(head.rest);
    var tail :- GetWords(2, run.rest);
    Some(Got(FairnessRecord(head.value[0], head.value[1], run.value, tail.value[0], tail.value[1]), tail.rest))
  }

  predicate OkFairness(f: FairnessRecord<Double>) { true }

  function SizeFairness(f: FairnessRecord<Double>): nat { 36 }

  lemma FairnessPaired()
    ensures Paired(PutFairness, GetFairness, OkFairness, SizeFairness)
  {
    hide PutFairness, GetFairness;
  }
}
