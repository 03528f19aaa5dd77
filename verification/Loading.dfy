/** The bounded byte reader, the deserializers that drive it, and loading a whole state. */
module Loading {
  import opened Words
  import opened Enums
  import opened Entities
  import opened Formats
  import opened StateFormat
  import opened Checksum
  import opened Crc32c
  import opened Image

  /** What a reading method gives back and leaves behind is what the format says is in front. */
  ghost predicate Took<T>(g: Option<Got<T>>, r: Option<T>, rest: seq<byte>) {
    match g
    case None => r.None?
    case Some(x) => r == Some(x.value) && rest == x.rest
  }

  /** A list read after ws goes behind it. */
  function Behind<T>(ws: seq<T>, g: Option<Got<seq<T>>>): Option<Got<seq<T>>> {
    if g.None? then None else Some(Got(ws + g.value.value, g.value.rest))
  }

  lemma NothingBehind<T>(g: Option<Got<seq<T>>>)
    ensures g == Behind([], g)
  {
    if g.Some? { assert [] + g.value.value == g.value.value; }
  }

  lemma Regroup<T>(a: seq<T>, x: seq<T>, rest: seq<T>)
    ensures a + x + rest == a + (x + rest)
  {
  }

  class Reader {
    const d: seq<byte>
    var p: nat
    var ok: bool

    ghost predicate Valid()
      reads this
    {
      p <= |d|
    }

    function Rest(): seq<byte>
      requires Valid()
      reads this
    {
      d[p..]
    }

    constructor (d: seq<byte>)
      ensures Valid() && ok && this.d == d && Rest() == d
    {
      this.d := d;
      p := 0;
      ok := true;
    }

    method U8() returns (r: Option<byte>)
      requires Valid()
      modifies this
      ensures Valid() && ok == r.Some?
      ensures old(ok) ==> Took(GetU8(old(Rest())), r, Rest())
      ensures !old(ok) ==> r.None?
    {
      if !ok || p + 1 > |d| {
        ok := false;
        return None;
      }
      r := Some(d[p]);
      p := p + 1;
    }

    /** n bytes put together from the low end. */
    method Assemble(n: nat) returns (v: nat)
      requires Valid() && p + n <= |d|
      modifies this`p
      ensures Valid() && p == old(p) + n
      ensures v == FromLE(old(Rest())[..n])
    {
      v := 0;
      for i := 0 to n
        invariant p == old(p)
        invariant v == FromLE(d[p..p + i])
      {
        FromLEAppend(d[p..p + i], d[p + i]);
        assert d[p..p + i + 1] == d[p..p + i] + [d[p + i]];
        v := v + d[p + i] * Pow256(i);
      }
      assert d[p..][..n] == d[p..p + n];
      p := p + n;
    }

    method U32() returns (r: Option<u32>)
      requires Valid()
      modifies this
      ensures Valid() && ok == r.Some?
      ensures old(ok) ==> Took(GetU32(old(Rest())), r, Rest())
      ensures !old(ok) ==> r.None?
    {
      hide FromLE;
      if !ok || p + 4 > |d| {
        ok := false;
        return None;
      }
      assert d[p..][4..] == d[p + 4..];
      var v := Assemble(4);
      Pow256Values();
      return Some(v);
    }

    method U64() returns (r: Option<u64>)
      requires Valid()
      modifies this
      ensures Valid() && ok == r.Some?
      ensures old(ok) ==> Took(GetU64(old(Rest())), r, Rest())
      ensures !old(ok) ==> r.None?
    {
      hide FromLE;
      if !ok || p + 8 > |d| {
        ok := false;
        return None;
      }
      assert d[p..][8..] == d[p + 8..];
      var v := Assemble(8);
      Pow256Values();
      return Some(v);
    }

    method Flag() returns (r: Option<bool>)
      requires Valid() && ok
      modifies this
      ensures Valid() && Took(GetFlag(old(Rest())), r, Rest()) && (r.Some? ==> ok)
    {
      hide GetU8;
      var v :- U8();
      return Some(v != 0);
    }

    /** An enumeration byte out of range fails without clearing ok; callers give up at once. */
    method Enum<T>(all: seq<T>) returns (r: Option<T>)
      requires Valid() && ok
      modifies this
      ensures Valid() && Took(GetEnum(all, old(Rest())), r, Rest()) && (r.Some? ==> ok)
    {
      hide GetU8;
      var v :- U8();
      if v >= |all| {
        return None;
      }
      return Some(all[v]);
    }

    method Str() returns (r: Option<Text>)
      requires Valid()
      modifies this
      ensures Valid() && ok == r.Some?
      ensures old(ok) ==> Took(GetText(old(Rest())), r, Rest())
    {
      hide GetU64;
      var len :- U64();
      if len > MAX_STRING {
        ok := false;
        return None;
      }
      if p + len > |d| {
        ok := false;
        return None;
      }
      assert d[p..][..len] == d[p..p + len] && d[p..][len..] == d[p + len..];
      r := Some(d[p..p + len]);
      p := p + len;
    }

    method Words(n: nat) returns (r: Option<seq<u64>>)
      requires Valid() && ok
      modifies this
      ensures Valid() && Took(GetWords(n, old(Rest())), r, Rest()) && (r.Some? ==> ok)
    {
      hide GetU64;
      var ws: seq<u64> := [];
      assert GetWords(n, Rest()) == Behind(ws, GetWords(n, Rest())) by { NothingBehind(GetWords(n, Rest())); }
      for i := 0 to n
        invariant Valid() && ok
        invariant GetWords(n, old(Rest())) == Behind(ws, GetWords(n - i, Rest()))
      {
        var w :- U64();
        ghost var behind := GetWords(n - i - 1, Rest());
        if behind.Some? { Regroup(ws, [w], behind.value.value); }
        ws := ws + [w];
      }
      assert ws + [] == ws;
      return Some(ws);
    }

    method Flags(n: nat) returns (r: Option<seq<bool>>)
      requires Valid() && ok
      modifies this
      ensures Valid() && Took(GetFlags(n, old(Rest())), r, Rest()) && (r.Some? ==> ok)
    {
      hide GetFlag;
      var xs: seq<bool> := [];
      assert GetFlags(n, Rest()) == Behind(xs, GetFlags(n, Rest())) by { NothingBehind(GetFlags(n, Rest())); }
      for i := 0 to n
        invariant Valid() && ok
        invariant GetFlags(n, old(Rest())) == Behind(xs, GetFlags(n - i, Rest()))
      {
        var x :- Flag();
        ghost var behind := GetFlags(n - i - 1, Rest());
        if behind.Some? { Regroup(xs, [x], behind.value.value); }
        xs := xs + [x];
      }
      assert xs + [] == xs;
      return Some(xs);
    }

    method Ids() returns (r: Option<seq<u64>>)
      requires Valid() && ok
      modifies this
      ensures Valid() && Took(GetIds(old(Rest())), r, Rest()) && (r.Some? ==> ok)
    {
      hide GetU64, GetWords;
      var n :- U64();
      if n > MAX_COLLECTION {
        return None;
      }
      r := Words(n);
    }

    method Texts() returns (r: Option<seq<Text>>)
      requires Valid() && ok
      modifies this
      ensures Valid() && Took(GetTexts(old(Rest())), r, Rest()) && (r.Some? ==> ok)
    {
      hide GetU64, GetText;
      var n :- U64();
      if n > MAX_COLLECTION {
        return None;
      }
      var xs: seq<Text> := [];
      ghost var start := Rest();
      NothingBehind(GetMany(GetText, n, Rest()));
      for i := 0 to n
        invariant Valid() && ok
        invariant GetMany(GetText, n, start) == Behind(xs, GetMany(GetText, n - i, Rest()))
      {
        var x :- Str();
        ghost var behind := GetMany(GetText, n - i - 1, Rest());
        if behind.Some? { Regroup(xs, [x], behind.value.value); }
        xs := xs + [x];
      }
      assert xs + [] == xs;
      return Some(xs);
    }

    method ClassByte() returns (r: Option<InterventionClass>)
      requires Valid() && ok
      modifies this
      ensures Valid() && Took(GetClass(old(Rest())), r, Rest()) && (r.Some? ==> ok)
    {
      hide GetEnum;
      r := Enum(CLASSES);
    }

    method Classes() returns (r: Option<seq<InterventionClass>>)
      requires Valid() && ok
      modifies this
      ensures Valid() && Took(GetClasses(old(Rest())), r, Rest()) && (r.Some? ==> ok)
    {
      hide GetU64, GetClass;
      var n :- U64();
      if n > MAX_COLLECTION {
        return None;
      }
      var xs: seq<InterventionClass> := [];
      ghost var start := Rest();
      NothingBehind(GetMany(GetClass, n, Rest()));
      for i := 0 to n
        invariant Valid() && ok
        invariant GetMany(GetClass, n, start) == Behind(xs, GetMany(GetClass, n - i, Rest()))
      {
        var x :- ClassByte();
        ghost var behind := GetMany(GetClass, n - i - 1, Rest());
        if behind.Some? { Regroup(xs, [x], behind.value.value); }
        xs := xs + [x];
      }
      assert xs + [] == xs;
      return Some(xs);
    }

    /** Entries are stored as they come: a repeated key keeps the later value. */
    method WordMap() returns (r: Option<map<u64, u64>>)
      requires Valid() && ok
      modifies this
      ensures Valid() && Took(GetMap(GetU64, old(Rest())), r, Rest()) && (r.Some? ==> ok)
    {
      hide GetU64;
      var n :- U64();
      if n > MAX_COLLECTION {
        return None;
      }
      var m: map<u64, u64> := map[];
      ghost var start := Rest();
      for i := 0 to n
        invariant Valid() && ok
        invariant GetEntries(GetU64, n, start, map[]) == GetEntries(GetU64, n - i, Rest(), m)
      {
        var k :- U64();
        var x :- U64();
        m := m[k := x];
      }
      return Some(m);
    }
  }

  method DeserializeOptional(rd: Reader) returns (r: Option<Option<Double>>)
    requires rd.Valid() && rd.ok
    modifies rd
    ensures rd.Valid() && Took(GetOptional(old(rd.Rest())), r, rd.Rest()) && (r.Some? ==> rd.ok)
  {
    hide GetFlag, GetU64;
    var present :- rd.Flag();
    if !present {
      return Some(None);
    }
    var d :- rd.U64();
    return Some(Some(d));
  }

  method DeserializeWorkload(rd: Reader) returns (r: Option<WorkloadPolicy<Double>>)
    requires rd.Valid() && rd.ok
    modifies rd
    ensures rd.Valid() && Took(GetWorkload(old(rd.Rest())), r, rd.Rest()) && (r.Some? ==> rd.ok)
  {
    hide GetWords, GetFlags, GetU32, GetOptional;
    var ids :- rd.Words(2);
    var kinds :- rd.Flags(2);
    var value :- rd.Words(1);
    var priority :- rd.U32();
    var floor :- rd.Words(1);
    var soft :- DeserializeOptional(rd);
    var c :- rd.Words(6);
    var frequency :- rd.U32();
    var a :- rd.Flags(8);
    return Some(WorkloadPolicy(ids[0], ids[1], kinds[0], kinds[1], value[0], priority, floor[0], soft,
                               c[0], c[1], c[2], c[3], c[4], c[5], frequency,
                               a[0], a[1], a[2], a[3], a[4], a[5], a[6], a[7]));
  }

  method DeserializeWorkloads(rd: Reader) returns (r: Option<map<WorkloadId, WorkloadPolicy<Double>>>)
    requires rd.Valid() && rd.ok
    modifies rd
    ensures rd.Valid() && Took(GetMap(GetWorkload, old(rd.Rest())), r, rd.Rest()) && (r.Some? ==> rd.ok)
  {
    hide GetU64, GetWorkload;
    var n :- rd.U64();
    if n > MAX_COLLECTION {
      return None;
    }
    var m: map<WorkloadId, WorkloadPolicy<Double>> := map[];
    ghost var start := rd.Rest();
    for i := 0 to n
      invariant rd.Valid() && rd.ok
      invariant GetEntries(GetWorkload, n, start, map[]) == GetEntries(GetWorkload, n - i, rd.Rest(), m)
    {
      var k :- rd.U64();
      var x :- DeserializeWorkload(rd);
      m := m[k := x];
    }
    return Some(m);
  }

  method DeserializePolicy(rd: Reader) returns (r: Option<ContentionPolicy<Double>>)
    requires rd.Valid() && rd.ok
    modifies rd
    ensures rd.Valid() && Took(GetPolicy(old(rd.Rest())), r, rd.Rest()) && (r.Some? ==> rd.ok)
  {
    hide GetWords, GetFlags, GetU32, GetEnum, GetMap;
    var h :- rd.Words(5);
    var attribution :- rd.Enum(ATTRIBUTIONS);
    var m :- rd.Words(3);
    var cap :- rd.U32();
    var t :- rd.Words(17);
    var workloads :- DeserializeWorkloads(rd);
    var a :- rd.Flags(7);
    var used := BudgetUse(t[11], t[12], t[13], t[14], t[15], t[16]);
    var budget := ActionBudget(t[2], t[3], t[4], t[5], t[6], t[7], t[8], t[9], t[10], used);
    return Some(ContentionPolicy(h[0], h[1], h[2], h[3], h[4], attribution, m[0], m[1], m[2], cap,
                                 t[0], t[1], budget, workloads, a[0], a[1], a[2], a[3], a[4], a[5], a[6]));
  }

  method DeserializeAuthority(rd: Reader) returns (r: Option<AuthorityContext>)
    requires rd.Valid() && rd.ok
    modifies rd
    ensures rd.Valid() && Took(GetAuthority(old(rd.Rest())), r, rd.Rest()) && (r.Some? ==> rd.ok)
  {
    hide GetWords, GetMap;
    var v :- rd.Words(9);
    var generations :- rd.WordMap();
    var boots :- rd.WordMap();
    return Some(AuthorityContext(v[0], v[1], v[2], v[3], v[4], v[5], v[6], v[7], v[8], generations, boots));
  }

  method DeserializeObservation(rd: Reader) returns (r: Option<InterferenceEvidence<Double>>)
    requires rd.Valid() && rd.ok
    modifies rd
    ensures rd.Valid() && Took(GetObservation(old(rd.Rest())), r, rd.Rest()) && (r.Some? ==> rd.ok)
  {
    hide GetWords, GetIds, GetEnum;
    var h :- rd.Words(3);
    var neighbors :- rd.Ids();
    var domain :- rd.Enum(DOMAINS);
    var metric :- rd.Enum(METRICS);
    var m :- rd.Words(4);
    var attribution :- rd.Enum(ATTRIBUTIONS[..6]);
    var s :- rd.Words(2);
    return Some(InterferenceEvidence(h[0], h[1], h[2], neighbors, domain, metric, m[0], m[1], m[2], m[3],
                                     attribution, s[0], s[1], [], UnknownEvidence, 0, 0, Synthetic, [], [],
                                     0, 0, 0, 0, 0, 0, 0, 0, 0));
  }

  method DeserializeProvenance(rd: Reader,
                               e: InterferenceEvidence<Double>) returns (r: Option<InterferenceEvidence<Double>>)
    requires rd.Valid() && rd.ok
    modifies rd
    ensures rd.Valid() && Took(GetProvenance(e, old(rd.Rest())), r, rd.Rest()) && (r.Some? ==> rd.ok)
  {
    hide GetWords, GetTexts, GetText, GetEnum;
    var confounders :- rd.Texts();
    var status :- rd.Enum(EVIDENCE_STATUSES);
    var ages :- rd.Words(2);
    var kind :- rd.Enum(LABELS);
    var source :- rd.Str();
    var health :- rd.Str();
    var t :- rd.Words(9);
    return Some(e.(unresolvedConfounders := confounders, status := status, sampledAt := ages[0],
                   maxAgeMs := ages[1], evidenceLabel := kind, sourceId := source, sourceHealth := health,
                   workerBoot := t[0], workloadGeneration := t[1], deviceGeneration := t[2],
                   hostGeneration := t[3], topologyGeneration := t[4], resourceGeneration := t[5],
                   placementGeneration := t[6], activeFrom := t[7], activeUntil := t[8]));
  }

  method DeserializeEvidence(rd: Reader) returns (r: Option<InterferenceEvidence<Double>>)
    requires rd.Valid() && rd.ok
    modifies rd
    ensures rd.Valid() && Took(GetEvidence(old(rd.Rest())), r, rd.Rest()) && (r.Some? ==> rd.ok)
  {
    hide GetObservation, GetProvenance;
    var e :- DeserializeObservation(rd);
    r := DeserializeProvenance(rd, e);
  }

  method DeserializeFence(rd: Reader) returns (r: Option<Fence>)
    requires rd.Valid() && rd.ok
    modifies rd
    ensures rd.Valid() && Took(GetFence(old(rd.Rest())), r, rd.Rest()) && (r.Some? ==> rd.ok)
  {
    hide GetWords;
    var v :- rd.Words(14);
    return Some(Fence(v[0], v[1], v[2], v[3], v[4], v[5], v[6], v[7], v[8], v[9], v[10], v[11], v[12], v[13]));
  }

  method DeserializeAction(rd: Reader) returns (r: Option<InterventionRecord>)
    requires rd.Valid() && rd.ok
    modifies rd
    ensures rd.Valid() && Took(GetAction(old(rd.Rest())), r, rd.Rest()) && (r.Some? ==> rd.ok)
  {
    hide GetWords, GetEnum, GetFence, GetText;
    var ids :- rd.Words(2);
    var cls :- rd.Enum(CLASSES);
    var of :- rd.Words(2);
    var state :- rd.Enum(LIFECYCLES);
    var fence :- DeserializeFence(rd);
    var adapter :- rd.Str();
    return Some(InterventionRecord(ids[0], ids[1], cls, of[0], of[1], state, fence, adapter, 0, 0, 0, 0, 0, 0,
                                   [], Status(Ok, []), UnknownOutcome, [], false));
  }

  method DeserializeProgress(rd: Reader, i: InterventionRecord) returns (r: Option<InterventionRecord>)
    requires rd.Valid() && rd.ok
    modifies rd
    ensures rd.Valid() && Took(GetProgress(i, old(rd.Rest())), r, rd.Rest()) && (r.Some? ==> rd.ok)
  {
    hide GetWords, GetEnum, GetText, GetTexts, GetFlag;
    var t :- rd.Words(6);
    var note :- rd.Str();
    var code :- rd.Enum(STATUS_CODES);
    var message :- rd.Str();
    var result :- rd.Enum(OUTCOMES);
    var trace :- rd.Texts();
    var reported :- rd.Flag();
    return Some(i.(authorizedAt := t[0], dispatchedAt := t[1], acknowledgedAt := t[2], completedAt := t[3],
                   dispatchId := t[4], attemptId := t[5], ackNote := note,
                   interimStatus := Status(code, message), result := result, trace := trace,
                   verificationReported := reported));
  }

  method DeserializeIntervention(rd: Reader) returns (r: Option<InterventionRecord>)
    requires rd.Valid() && rd.ok
    modifies rd
    ensures rd.Valid() && Took(GetIntervention(old(rd.Rest())), r, rd.Rest()) && (r.Some? ==> rd.ok)
  {
    hide GetAction, GetProgress;
    var i :- DeserializeAction(rd);
    r := DeserializeProgress(rd, i);
  }

  method DeserializeContention(rd: Reader) returns (r: Option<ContentionConflict<Double>>)
    requires rd.Valid() && rd.ok
    modifies rd
    ensures rd.Valid() && Took(GetContention(old(rd.Rest())), r, rd.Rest()) && (r.Some? ==> rd.ok)
  {
    hide GetWords, GetIds, GetEnum;
    var ids :- rd.Words(2);
    var affected :- rd.Ids();
    var associated :- rd.Ids();
    var domain :- rd.Enum(DOMAINS);
    var m :- rd.Words(3);
    var binding :- rd.Enum(OBJECTIVES);
    var severity :- rd.Enum(SEVERITIES);
    return Some(ContentionConflict(ids[0], ids[1], affected, associated, domain, m[0], m[1], m[2], binding,
                                   severity, [], Detected, 0, 0, 0, [], [], [], [], [],
                                   0, 0, 0, 0, 0, 0, 0, 0, false, 0, false));
  }

  method DeserializeFindings(rd: Reader, c: ContentionConflict<Double>) returns (r: Option<ContentionConflict<Double>>)
    requires rd.Valid() && rd.ok
    modifies rd
    ensures rd.Valid() && Took(GetFindings(c, old(rd.Rest())), r, rd.Rest()) && (r.Some? ==> rd.ok)
  {
    hide GetWords, GetIds, GetEnum, GetTexts, GetClasses;
    var evidence :- rd.Ids();
    var state :- rd.Enum(CONFLICT_STATES);
    var t :- rd.Words(3);
    var confounders :- rd.Texts();
    var blockers :- rd.Texts();
    var classes :- rd.Classes();
    return Some(c.(evidenceIds := evidence, state := state, firstDetectedAt := t[0], lastUpdatedAt := t[1],
                   activeUntil := t[2], unresolvedConfounders := confounders, blockers := blockers,
                   candidateClasses := classes));
  }

  method DeserializeDecisions(rd: Reader, c: ContentionConflict<Double>) returns (r: Option<ContentionConflict<Double>>)
    requires rd.Valid() && rd.ok
    modifies rd
    ensures rd.Valid() && Took(GetDecisions(c, old(rd.Rest())), r, rd.Rest()) && (r.Some? ==> rd.ok)
  {
    hide GetWords, GetIds, GetFlag;
    var proposed :- rd.Ids();
    var selected :- rd.Ids();
    var g :- rd.Words(8);
    var group :- rd.Flag();
    var last :- rd.Words(1);
    var actionable :- rd.Flag();
    return Some(c.(proposedIds := proposed, selectedIds := selected, policyGeneration := g[0],
                   sloGeneration := g[1], valueGeneration := g[2], fairnessGeneration := g[3],
                   resourceGeneration := g[4], placementGeneration := g[5], coordinatorEpoch := g[6],
                   workerBoot := g[7], groupEffectExplicit := group, lastActionAt := last[0],
                   inActionableState := actionable));
  }

  method DeserializeConflict(rd: Reader) returns (r: Option<ContentionConflict<Double>>)
    requires rd.Valid() && rd.ok
    modifies rd
    ensures rd.Valid() && Took(GetConflict(old(rd.Rest())), r, rd.Rest()) && (r.Some? ==> rd.ok)
  {
    hide GetContention, GetFindings, GetDecisions;
    var contention :- DeserializeContention(rd);
    var findings :- DeserializeFindings(rd, contention);
    r := DeserializeDecisions(rd, findings);
  }

  method DeserializeFairness(rd: Reader) returns (r: Option<FairnessRecord<Double>>)
    requires rd.Valid() && rd.ok
    modifies rd
    ensures rd.Valid() && Took(GetFairness(old(rd.Rest())), r, rd.Rest()) && (r.Some? ==> rd.ok)
  {
    hide GetWords, GetU32;
    var head :- rd.Words(2);
    var run :- rd.U32();
    var tail :- rd.Words(2);
    return Some(FairnessRecord(head[0], head[1], run, tail[0], tail[1]));
  }

  method DeserializeConflicts(rd: Reader) returns (r: Option<map<ConflictId, ContentionConflict<Double>>>)
    requires rd.Valid() && rd.ok
    modifies rd
    ensures rd.Valid() && Took(GetMap(GetConflict, old(rd.Rest())), r, rd.Rest()) && (r.Some? ==> rd.ok)
  {
    hide GetU64, GetConflict;
    var n :- rd.U64();
    if n > MAX_COLLECTION {
      return None;
    }
    var m: map<ConflictId, ContentionConflict<Double>> := map[];
    ghost var start := rd.Rest();
    for i := 0 to n
      invariant rd.Valid() && rd.ok
      invariant GetEntries(GetConflict, n, start, map[]) == GetEntries(GetConflict, n - i, rd.Rest(), m)
    {
      var k :- rd.U64();
      var x :- DeserializeConflict(rd);
      m := m[k := x];
    }
    return Some(m);
  }

  method DeserializeAllEvidence(rd: Reader) returns (r: Option<map<EvidenceId, InterferenceEvidence<Double>>>)
    requires rd.Valid() && rd.ok
    modifies rd
    ensures rd.Valid() && Took(GetMap(GetEvidence, old(rd.Rest())), r, rd.Rest()) && (r.Some? ==> rd.ok)
  {
    hide GetU64, GetEvidence;
    var n :- rd.U64();
    if n > MAX_COLLECTION {
      return None;
    }
    var m: map<EvidenceId, InterferenceEvidence<Double>> := map[];
    ghost var start := rd.Rest();
    for i := 0 to n
      invariant rd.Valid() && rd.ok
      invariant GetEntries(GetEvidence, n, start, map[]) == GetEntries(GetEvidence, n - i, rd.Rest(), m)
    {
      var k :- rd.U64();
      var x :- DeserializeEvidence(rd);
      m := m[k := x];
    }
    return Some(m);
  }

  method DeserializeInterventions(rd: Reader) returns (r: Option<map<InterventionId, InterventionRecord>>)
    requires rd.Valid() && rd.ok
    modifies rd
    ensures rd.Valid() && Took(GetMap(GetIntervention, old(rd.Rest())), r, rd.Rest()) && (r.Some? ==> rd.ok)
  {
    hide GetU64, GetIntervention;
    var n :- rd.U64();
    if n > MAX_COLLECTION {
      return None;
    }
    var m: map<InterventionId, InterventionRecord> := map[];
    ghost var start := rd.Rest();
    for i := 0 to n
      invariant rd.Valid() && rd.ok
      invariant GetEntries(GetIntervention, n, start, map[]) == GetEntries(GetIntervention, n - i, rd.Rest(), m)
    {
      var k :- rd.U64();
      var x :- DeserializeIntervention(rd);
      m := m[k := x];
    }
    return Some(m);
  }

  method DeserializeAllFairness(rd: Reader) returns (r: Option<map<WorkloadId, FairnessRecord<Double>>>)
    requires rd.Valid() && rd.ok
    modifies rd
    ensures rd.Valid() && Took(GetMap(GetFairness, old(rd.Rest())), r, rd.Rest()) && (r.Some? ==> rd.ok)
  {
    hide GetU64, GetFairness;
    var n :- rd.U64();
    if n > MAX_COLLECTION {
      return None;
    }
    var m: map<WorkloadId, FairnessRecord<Double>> := map[];
    ghost var start := rd.Rest();
    for i := 0 to n
      invariant rd.Valid() && rd.ok
      invariant GetEntries(GetFairness, n, start, map[]) == GetEntries(GetFairness, n - i, rd.Rest(), m)
    {
      var k :- rd.U64();
      var x :- DeserializeFairness(rd);
      m := m[k := x];
    }
    return Some(m);
  }

  method DeserializeState(rd: Reader) returns (r: Option<State>)
    requires rd.Valid() && rd.ok
    modifies rd
    ensures rd.Valid() && Took(GetState(old(rd.Rest())), r, rd.Rest()) && (r.Some? ==> rd.ok)
  {
    hide GetPolicy, GetAuthority, GetMap, GetWords;
    var policy :- DeserializePolicy(rd);
    var authority :- DeserializeAuthority(rd);
    var conflicts :- DeserializeConflicts(rd);
    var evidence :- DeserializeAllEvidence(rd);
    var interventions :- DeserializeInterventions(rd);
    var fairness :- DeserializeAllFairness(rd);
    var n :- rd.Words(7);
    return Some(GovernorState(EngineState(policy, conflicts, evidence, interventions, fairness, authority),
                              n[0], n[1], n[2], n[3], n[4], n[5], n[6]));
  }

  method ReadHeader(data: seq<byte>) returns (version: u32, payloadLen: u64)
    requires |data| >= PAYLOAD_OFF + CRC_LEN
    ensures version == FromLE(data[8..12]) && payloadLen == FromLE(data[12..20])
  {
    hide FromLE, GetU32, GetU64;
    HeaderWords(data);
    var h := new Reader(data[8..]);
    var v := h.U32();
    var n := h.U64();
    return v.value, n.value;
  }

  method ReadChecksum(data: seq<byte>) returns (crc: u32)
    requires |data| >= PAYLOAD_OFF + CRC_LEN
    ensures crc == FromLE(data[|data| - 4..])
  {
    hide FromLE, GetU32;
    TailWord(data);
    var tail := new Reader(data[|data| - CRC_LEN..]);
    var v := tail.U32();
    return v.value;
  }

  method OpenEnvelope(table: array<u32>, data: seq<byte>) returns (e: Envelope)
    requires IsTable(table[..]) && Addressable(data)
    ensures e == Open(data)
  {
    hide IsTable, FromLE, Crc;
    if |data| < PAYLOAD_OFF + CRC_LEN {
      return Unopened(TruncatedHeader);
    }
    if data[..8] != MAGIC {
      return Unopened(BadMagic);
    }
    var version, payloadLen := ReadHeader(data);
    if version != VERSION {
      return Unopened(UnknownVersion);
    }
    var total := Add64(Add64(PAYLOAD_OFF, payloadLen), CRC_LEN);
    if total > |data| {
      return Unopened(TruncatedPayload);
    }
    if total != |data| {
      return Unopened(TrailingGarbage);
    }
    WrappingLengthTest(payloadLen, |data|);
    var payload := data[PAYLOAD_OFF..PAYLOAD_OFF + payloadLen];
    var crc := ReadChecksum(data);
    var expected := ComputeCrc(table, payload);
    if crc != expected {
      return Unopened(PayloadChecksum);
    }
    return Opened(payload);
  }

  /** The destination is replaced only when everything has been accepted. */
  method LoadFromBytes(table: array<u32>, data: seq<byte>, s: State) returns (refusal: Option<Refusal>, dest: State)
    requires IsTable(table[..]) && Addressable(data)
    ensures refusal == None ==> Load(data) == Loaded(dest)
    ensures refusal.Some? ==> Load(data) == Refused(refusal.value) && dest == s
  {
    hide IsTable, Open, GetState, PolicyAccepted;
    var e := OpenEnvelope(table, data);
    if e.Unopened? {
      return Some(e.why), s;
    }
    var rd := new Reader(e.payload);
    var out := DeserializeState(rd);
    if out == None {
      return Some(BadField), s;
    }
    if rd.p != |rd.d| {
      return Some(UnconsumedBytes), s;
    }
    if !PolicyAccepted(out.value) {
      return Some(PolicyRejected), s;
    }
    return None, out.value;
  }

  lemma HeaderWords(data: seq<byte>)
    requires |data| >= 24
    ensures GetU32(data[8..]).Some? && GetU32(data[8..]).value.value == FromLE(data[8..12])
    ensures var rest := GetU32(data[8..]).value.rest;
            GetU64(rest).Some? && GetU64(rest).value.value == FromLE(data[12..20])
  {
    hide FromLE;
    assert data[8..][..4] == data[8..12];
    assert data[8..][4..][..8] == data[12..20];
  }

  lemma TailWord(data: seq<byte>)
    requires |data| >= 24
    ensures GetU32(data[|data| - 4..]).Some?
    ensures GetU32(data[|data| - 4..]).value.value == FromLE(data[|data| - 4..])
  {
    hide FromLE;
    assert data[|data| - 4..][..4] == data[|data| - 4..];
  }
}
