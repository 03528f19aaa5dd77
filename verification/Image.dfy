/** A whole saved state: header, payload, checksum; and what loading an arbitrary byte string gives. */
module Image {
  import opened Words
  import opened Crc32c
  import opened Entities
  import opened Formats
  import opened StateFormat
  import Doubles

  const MAGIC: seq<byte> := ['C' as int, 'G' as int, 'O' as int, 'V' as int, 1, 0, 0, 0]
  const VERSION: u32 := 1
  /** Magic, version and payload length. */
  const PAYLOAD_OFF: nat := 20
  const CRC_LEN: nat := 4

  type State = GovernorState<Double>

  // ----- Payload -----

  function PutState(s: State, rest: seq<byte>): seq<byte> {
    PutPolicy(s.engine.policy,
    PutAuthority(s.engine.authority,
    PutTables(s, rest)))
  }

  function PutTables(s: State, rest: seq<byte>): seq<byte> {
    PutMap(PutConflict, s.engine.conflicts,
    PutMap(PutEvidence, s.engine.evidence,
    PutMap(PutIntervention, s.engine.interventions,
    PutMap(PutFairness, s.engine.fairness,
    PutCounters(s, rest)))))
  }

  function PutCounters(s: State, rest: seq<byte>): seq<byte> {
    PutWords([s.nextConflictId, s.nextEvidenceId, s.nextInterventionId, s.nextDispatchId, s.nextAttemptId,
              s.nextVerificationId, s.lastDigest], rest)
  }

  function GetState(b: seq<byte>): Option<Got<State>> {
    var policy :- GetPolicy(b);
    var authority :- GetAuthority(policy.rest);
    var conflicts :- GetMap(GetConflict, authority.rest);
    var evidence :- GetMap(GetEvidence, conflicts.rest);
    var interventions :- GetMap(GetIntervention, evidence.rest);
    var fairness :- GetMap(GetFairness, interventions.rest);
    var counters :- GetWords(7, fairness.rest);
    var n := counters.value;
    Some(Got(GovernorState(EngineState(policy.value, conflicts.value, evidence.value, interventions.value,
                                       fairness.value, authority.value),
                           n[0], n[1], n[2], n[3], n[4], n[5], n[6]),
             counters.rest))
  }

  /** Every collection and string is within the program's limits, and no byte stands for an unnamed value it refuses. */
  predicate OkState(s: State) {
    && OkPolicy(s.engine.policy) && OkAuthority(s.engine.authority)
    && OkMap(OkConflict, s.engine.conflicts) && OkMap(OkEvidence, s.engine.evidence)
    && OkMap(OkIntervention, s.engine.interventions) && OkMap(OkFairness, s.engine.fairness)
  }

  function SizeState(s: State): nat {
    SizePolicy(s.engine.policy) + SizeAuthority(s.engine.authority)
    + SizeMap(SizeConflict, s.engine.conflicts) + SizeMap(SizeEvidence, s.engine.evidence)
    + SizeMap(SizeIntervention, s.engine.interventions) + SizeMap(SizeFairness, s.engine.fairness) + 56
  }

  predicate PolicyAccepted(s: State) {
    ValidPolicy(s.engine.policy, Doubles.Outside, Doubles.AtLeast, Doubles.IsFinite)
  }

  lemma StateRoundTrip(s: State, rest: seq<byte>)
    ensures OkState(s) ==> GetState(PutState(s, rest)) == Some(Got(s, rest))
    ensures |PutState(s, rest)| == SizeState(s) + |rest|
  {
    hide PutWords, GetWords, PutMap, GetMap, SizeMap, OkMap, Paired;
    hide PutPolicy, GetPolicy, OkPolicy, SizePolicy, PutAuthority, GetAuthority, OkAuthority, SizeAuthority;
    ConflictPaired();
    EvidencePaired();
    InterventionPaired();
    FairnessPaired();
    var e := s.engine;
    var b0 := PutCounters(s, rest);
    var b1 := PutMap(PutFairness, e.fairness, b0);
    var b2 := PutMap(PutIntervention, e.interventions, b1);
    var b3 := PutMap(PutEvidence, e.evidence, b2);
    MapRoundTrip(PutFairness, GetFairness, OkFairness, SizeFairness, e.fairness, b0);
    MapRoundTrip(PutIntervention, GetIntervention, OkIntervention, SizeIntervention, e.interventions, b1);
    MapRoundTrip(PutEvidence, GetEvidence, OkEvidence, SizeEvidence, e.evidence, b2);
    MapRoundTrip(PutConflict, GetConflict, OkConflict, SizeConflict, e.conflicts, b3);
    AuthorityRoundTrip(e.authority, PutTables(s, rest));
    PolicyRoundTrip(e.policy, PutAuthority(e.authority, PutTables(s, rest)));
  }

  lemma StateShrinks(b: seq<byte>)
    requires GetState(b).Some?
    ensures var g := GetState(b).value; OkState(g.value) && |b| >= SizeState(g.value) + |g.rest|
  {
    hide GetWords, GetMap, SizeMap, OkMap, Paired, GetPolicy, OkPolicy, SizePolicy, GetAuthority, OkAuthority,
         SizeAuthority;
    ConflictPaired();
    EvidencePaired();
    InterventionPaired();
    FairnessPaired();
    var policy := GetPolicy(b).value;
    var authority := GetAuthority(policy.rest).value;
    var conflicts := GetMap(GetConflict, authority.rest).value;
    var evidence := GetMap(GetEvidence, conflicts.rest).value;
    var interventions := GetMap(GetIntervention, evidence.rest).value;
    PolicyShrinks(b);
    AuthorityShrinks(policy.rest);
    MapShrinks(PutConflict, GetConflict, OkConflict, SizeConflict, authority.rest);
    MapShrinks(PutEvidence, GetEvidence, OkEvidence, SizeEvidence, conflicts.rest);
    MapShrinks(PutIntervention, GetIntervention, OkIntervention, SizeIntervention, evidence.rest);
    MapShrinks(PutFairness, GetFairness, OkFairness, SizeFairness, interventions.rest);
  }

  // ----- Image -----

  datatype Refusal =
    | TruncatedHeader | BadMagic | UnknownVersion | TruncatedPayload | TrailingGarbage
    | PayloadChecksum | BadField | UnconsumedBytes | PolicyRejected

  datatype Loaded = Loaded(state: State) | Refused(why: Refusal)

  function Wrap(payload: seq<byte>, crc: u32): (b: seq<byte>)
    ensures |b| == PAYLOAD_OFF + |payload| + CRC_LEN
  {
    MAGIC + LE(VERSION, 4) + LE(|payload| % TWO_64, 8) + payload + LE(crc, 4)
  }

  function Save(s: State): (b: seq<byte>)
  {
    var payload := PutState(s, []);
    Wrap(payload, Crc(payload))
  }

  /** Buffers have a length that fits a size_t. */
  ghost predicate Addressable(b: seq<byte>) { |b| <= U64_MAX }

  function LoadPayload(payload: seq<byte>): Loaded {
    match GetState(payload)
    case None => Refused(BadField)
    case Some(g) =>
      if g.rest != [] then Refused(UnconsumedBytes)
      else if !PolicyAccepted(g.value) then Refused(PolicyRejected)
      else Loaded(g.value)
  }

  datatype Envelope = Opened(payload: seq<byte>) | Unopened(why: Refusal)

  /** The header, length and checksum tests, before any field is decoded. */
  function Open(b: seq<byte>): Envelope
    requires Addressable(b)
  {
    if |b| < PAYLOAD_OFF + CRC_LEN then Unopened(TruncatedHeader)
    else if b[..8] != MAGIC then Unopened(BadMagic)
    else if FromLE(b[8..12]) != VERSION then Unopened(UnknownVersion)
    else
      assert FromLE(b[12..20]) <= U64_MAX by { Pow256Values(); }
      var payloadLen: u64 := FromLE(b[12..20]);
      var total := Add64(Add64(PAYLOAD_OFF, payloadLen), CRC_LEN);
      if total > |b| then Unopened(TruncatedPayload)
      else if total != |b| then Unopened(TrailingGarbage)
      else
        assert payloadLen == |b| - 24 by { WrappingLengthTest(payloadLen, |b|); }
        var payload := b[20..20 + payloadLen];
        if FromLE(b[|b| - 4..]) != Crc(payload) then Unopened(PayloadChecksum)
        else Opened(payload)
  }

  function Load(b: seq<byte>): Loaded
    requires Addressable(b)
  {
    match Open(b)
    case Unopened(why) => Refused(why)
    case Opened(payload) => LoadPayload(payload)
  }

  /** Although the sum wraps, the length test lets through only the true payload length. */
  lemma WrappingLengthTest(payloadLen: u64, len: u64)
    requires len >= PAYLOAD_OFF + CRC_LEN
    ensures Add64(Add64(PAYLOAD_OFF, payloadLen), CRC_LEN) == len <==> payloadLen == len - 24
  {
  }

  lemma WrapFields(payload: seq<byte>, crc: u32)
    requires |payload| + 24 <= U64_MAX
    ensures var b := Wrap(payload, crc);
            && b[..8] == MAGIC && FromLE(b[8..12]) == VERSION && FromLE(b[12..20]) == |payload|
            && b[20..20 + |payload|] == payload && FromLE(b[|b| - 4..]) == crc
  {
    hide LE, FromLE;
    Pow256Values();
    FromLEOfLE(VERSION, 4);
    FromLEOfLE(|payload|, 8);
    FromLEOfLE(crc, 4);
    var b := Wrap(payload, crc);
    assert b[8..12] == LE(VERSION, 4);
    assert b[12..20] == LE(|payload|, 8);
    assert b[|b| - 4..] == LE(crc, 4);
  }

  lemma LoadOfWrap(payload: seq<byte>, crc: u32)
    requires |payload| + 24 <= U64_MAX
    ensures Load(Wrap(payload, crc)) == if crc == Crc(payload) then LoadPayload(payload) else Refused(PayloadChecksum)
  {
    hide LE, FromLE, Crc, LoadPayload, Wrap;
    WrapFields(payload, crc);
  }

  /** An accepted byte string is a header, a payload that loads, and its checksum. */
  lemma AcceptedIsWrapped(b: seq<byte>)
    requires Addressable(b) && Load(b).Loaded?
    ensures |b| >= 24
    ensures var payload := b[20..|b| - 4];
            LoadPayload(payload) == Load(b) && b == Wrap(payload, Crc(payload))
  {
    hide LE, FromLE, Crc, LoadPayload;
    var payload := b[20..|b| - 4];
    Pow256Values();
    WrappingLengthTest(FromLE(b[12..20]), |b|);
    LEOfFromLE(b[8..12]);
    LEOfFromLE(b[12..20]);
    LEOfFromLE(b[|b| - 4..]);
    assert b == b[..8] + b[8..12] + b[12..20] + payload + b[|b| - 4..];
  }

  // ----- Limits keep every image addressable -----

  lemma {:induction false} TotalBound<T>(size: T -> nat, xs: seq<T>, most: nat)
    requires forall x :: x in xs ==> size(x) <= most
    ensures Total(size, xs) <= |xs| * most
    decreases |xs|
  {
    if xs != [] {
      TotalBound(size, xs[1..], most);
      assert |xs| * most == (|xs| - 1) * most + most;
    }
  }

  lemma {:induction false} EntriesBound<T>(size: T -> nat, m: map<u64, T>, ks: seq<u64>, most: nat)
    requires forall k :: k in ks ==> k in m && size(m[k]) <= most
    ensures EntrySizes(size, m, ks) <= |ks| * (8 + most)
    decreases |ks|
  {
    if ks != [] {
      EntriesBound(size, m, ks[1..], most);
      assert |ks| * (8 + most) == (|ks| - 1) * (8 + most) + (8 + most);
    }
  }

  lemma TimesLimit(n: nat, most: nat)
    requires n <= MAX_COLLECTION
    ensures n * most <= MAX_COLLECTION * most
  {
  }

  lemma MapBound<T>(size: T -> nat, m: map<u64, T>, most: nat)
    requires |m| <= MAX_COLLECTION && forall k :: k in m ==> size(m[k]) <= most
    ensures SizeMap(size, m) <= 8 + MAX_COLLECTION * (8 + most)
  {
    EntriesBound(size, m, SortedKeys(m.Keys), most);
    TimesLimit(|m|, 8 + most);
  }

  const MOST_TEXTS: nat := 8 + MAX_COLLECTION * (8 + MAX_STRING)

  lemma TextsBound(xs: seq<Text>)
    requires OkTexts(xs)
    ensures SizeTexts(xs) <= MOST_TEXTS
  {
    TotalBound(SizeText, xs, 8 + MAX_STRING);
    TimesLimit(|xs|, 8 + MAX_STRING);
  }

  /** Twice as much as any entity can take; 2^42. */
  const MOST_ENTITY: nat := 0x400_0000_0000

  lemma ConflictBound(c: ContentionConflict<Double>)
    requires OkConflict(c)
    ensures SizeConflict(c) <= MOST_ENTITY
  {
    TextsBound(c.unresolvedConfounders);
    TextsBound(c.blockers);
    TotalBound(SizeClass, c.candidateClasses, 1);
  }

  lemma EvidenceBound(e: InterferenceEvidence<Double>)
    requires OkEvidence(e)
    ensures SizeEvidence(e) <= MOST_ENTITY
  {
    TextsBound(e.unresolvedConfounders);
  }

  lemma InterventionBound(i: InterventionRecord)
    requires OkIntervention(i)
    ensures SizeIntervention(i) <= MOST_ENTITY
  {
    TextsBound(i.trace);
  }

  lemma StateFits(s: State)
    requires OkState(s)
    ensures |Save(s)| == SizeState(s) + 24 <= U64_MAX
  {
    hide PutState, SizeMap, OkConflict, SizeConflict, OkEvidence, SizeEvidence, OkIntervention, SizeIntervention;
    StateRoundTrip(s, []);
    var e := s.engine;
    forall k | k in e.conflicts ensures SizeConflict(e.conflicts[k]) <= MOST_ENTITY { ConflictBound(e.conflicts[k]); }
    forall k | k in e.evidence ensures SizeEvidence(e.evidence[k]) <= MOST_ENTITY { EvidenceBound(e.evidence[k]); }
    forall k | k in e.interventions ensures SizeIntervention(e.interventions[k]) <= MOST_ENTITY {
      InterventionBound(e.interventions[k]);
    }
    MapBound(SizeConflict, e.conflicts, MOST_ENTITY);
    MapBound(SizeEvidence, e.evidence, MOST_ENTITY);
    MapBound(SizeIntervention, e.interventions, MOST_ENTITY);
    MapBound(SizeFairness, e.fairness, 36);
    MapBound(SizeWorkload, e.policy.workloads, 107);
    MapBound(SizeWord, e.authority.workloadGenerations, 8);
    MapBound(SizeWord, e.authority.workloadBoots, 8);
  }

  // ----- The laws -----

  /** Saving and loading gives the state back exactly. */
  lemma SaveLoadRoundTrip(s: State)
    requires OkState(s) && PolicyAccepted(s)
    ensures Addressable(Save(s)) && Load(Save(s)) == Loaded(s)
  {
    hide PutState, GetState, OkState, SizeState, PolicyAccepted, Open, Load, Wrap, Crc;
    StateFits(s);
    StateRoundTrip(s, []);
    var payload := PutState(s, []);
    LoadOfWrap(payload, Crc(payload));
  }

  /**
   Exactly the states within limits whose policy is accepted come back: a running governor can leave
   the limits, since the evidence ids of a conflict only grow.
   */
  lemma SaveLoadIff(s: State)
    requires Addressable(Save(s))
    ensures Load(Save(s)) == Loaded(s) <==> OkState(s) && PolicyAccepted(s)
  {
    hide Load, Save, OkState, PolicyAccepted;
    if Load(Save(s)) == Loaded(s) {
      LoadNormalises(Save(s));
    }
    if OkState(s) && PolicyAccepted(s) {
      SaveLoadRoundTrip(s);
    }
  }

  /** Different states have different images. */
  lemma SaveInjective(s: State, t: State)
    requires OkState(s) && PolicyAccepted(s) && OkState(t) && PolicyAccepted(t)
    requires Save(s) == Save(t)
    ensures s == t
  {
    hide Save, Load, OkState, PolicyAccepted;
    SaveLoadRoundTrip(s);
    SaveLoadRoundTrip(t);
  }

  /**
   Whatever bytes are accepted, the state read from them is within limits and has an accepted policy;
   saving it takes no more room, and the new image loads to the same state.
   */
  lemma LoadNormalises(b: seq<byte>)
    requires Addressable(b) && Load(b).Loaded?
    ensures var s := Load(b).state;
            && OkState(s) && PolicyAccepted(s)
            && |Save(s)| <= |b| && Addressable(Save(s))
            && Load(Save(s)) == Loaded(s)
  {
    hide PutState, GetState, OkState, SizeState, PolicyAccepted, Open, Load, Wrap, Crc;
    AcceptedIsWrapped(b);
    var payload := b[20..|b| - 4];
    StateShrinks(payload);
    var s := Load(b).state;
    StateRoundTrip(s, []);
    SaveLoadRoundTrip(s);
  }

  /** Neither a proper prefix nor a proper extension of an accepted image is accepted. */
  lemma NoPrefixLoads(b: seq<byte>, c: seq<byte>)
    requires Addressable(c) && b < c
    requires Load(b).Loaded?
    ensures Load(c).Refused?
  {
    hide FromLE, Crc, LoadPayload;
    Pow256Values();
    assert b[12..20] == c[12..20];
    WrappingLengthTest(FromLE(b[12..20]), |b|);
    WrappingLengthTest(FromLE(c[12..20]), |c|);
  }

  lemma TruncationAndExtensionRefused(s: State, p: seq<byte>)
    requires OkState(s) && PolicyAccepted(s) && Addressable(p)
    requires p < Save(s) || Save(s) < p
    ensures Load(p).Refused?
  {
    hide Save, Load, OkState, PolicyAccepted;
    SaveLoadRoundTrip(s);
    if p < Save(s) {
      if Load(p).Loaded? { NoPrefixLoads(p, Save(s)); }
    } else {
      NoPrefixLoads(Save(s), p);
    }
  }

  /**
   Damage to at most 32 consecutive bits of the payload and its stored checksum is caught before
   anything is decoded.
   */
  lemma DamagedImageRefused(s: State, payload: seq<byte>, crc: u32,
                            pre: seq<bool>, w1: seq<bool>, w2: seq<bool>, post: seq<bool>)
    requires OkState(s)
    requires |payload| == |PutState(s, [])|
    requires var saved := PutState(s, []); MessageBits(saved + LE(Crc(saved), 4)) == pre + w1 + post
    requires MessageBits(payload + LE(crc, 4)) == pre + w2 + post
    requires |w1| == |w2| <= 32 && w1 != w2
    ensures Addressable(Wrap(payload, crc)) && Load(Wrap(payload, crc)) == Refused(PayloadChecksum)
  {
    hide PutState, OkState, SizeState, Load, Crc, MessageBits, LE;
    var saved := PutState(s, []);
    StateFits(s);
    CodewordBurstDetected(saved, Crc(saved), payload, crc, pre, w1, w2, post);
    LoadOfWrap(payload, crc);
  }
}
