/** The conflict table is determined by the evidence that arrived, and the tables stay tied together in every run. */
module EvidenceLog {
  import opened Words
  import opened Enums
  import opened Entities
  import opened Rules
  import opened Steps
  import opened IntegrityKept
  import opened Machine

  type Conflicts = map<ConflictId, Conflict>

  // ----- Integrity over runs -----

  predicate OnlyAuthority(step: Step) {
    step.PolicySet? || step.AuthoritySet? || step.BootRecorded? || step.GenerationRecorded?
  }

  lemma AuthorityOnly(g: State, step: Step)
    requires OnlyAuthority(step)
    ensures var m, n := Next(g, step).engine, g.engine;
            && m.conflicts == n.conflicts && m.evidence == n.evidence && m.interventions == n.interventions
            && m.fairness == n.fairness
  {
    hide PolicyIsValid;
  }

  lemma LifeKeeps(g: State, step: Step)
    requires Integrity(g.engine)
    requires step.DispatchBegun? || step.DispatchEnded? || step.DispatchUnserved? || step.Acked? || step.Failed?
    ensures Integrity(Next(g, step).engine)
  {
    hide Integrity, DispatchBegin, DispatchEnd, Acknowledge, ActionFailed;
    match step
    case DispatchBegun(i, now, adapters) => LifecycleKeeps(g, i, now, Accepted, []);
    case DispatchEnded(i, answer, note) => LifecycleKeeps(g, i, 0, answer, note);
    case DispatchUnserved(i, note) => LifecycleKeeps(g, i, 0, Unavailable, note);
    case Acked(i, now) => LifecycleKeeps(g, i, now, Accepted, []);
    case Failed(i, note) => LifecycleKeeps(g, i, 0, Accepted, note);
  }

  lemma TablesKeep(g: State, step: Step)
    requires Integrity(g.engine)
    requires step.EpochAdvanced? || step.EvidenceIngested? || step.AuthorizeCalled? || step.EvidenceSubmitted?
    ensures Integrity(Next(g, step).engine)
  {
    hide Integrity, AdvanceEpoch, Ingest, Authorize, Submit;
    match step
    case EpochAdvanced => AdvanceEpochKeeps(g);
    case EvidenceIngested(e) => IngestKeeps(g, e);
    case AuthorizeCalled(k, cls, now) => AuthorizeKeeps(g, k, cls, now);
    case EvidenceSubmitted(e) => SubmitKeeps(g, e);
  }

  lemma IntegrityStep(y: Sys, step: Step)
    requires Integrity(y.g.engine)
    ensures Integrity(Apply(y, step).g.engine)
  {
    hide Next, Note, Integrity, OutAfter, BareAfter;
    if OnlyAuthority(step) {
      AuthorityOnly(y.g, step);
      AuthorityAside(y.g.engine, Next(y.g, step).engine);
    } else if step.EpochAdvanced? || step.EvidenceIngested? || step.AuthorizeCalled? || step.EvidenceSubmitted? {
      TablesKeep(y.g, step);
    } else {
      LifeKeeps(y.g, step);
    }
  }

  lemma AuthorityAside(n: Engine, m: Engine)
    requires Integrity(n)
    requires m.conflicts == n.conflicts && m.evidence == n.evidence && m.interventions == n.interventions
            && m.fairness == n.fairness
    ensures Integrity(m)
  {
    hide ConflictIntact;
    IntegrityIgnores(n, m);
  }

  /** In every run each id a record names is on record: what makes authorize's look-up of evidence safe. */
  lemma {:induction false} IntegrityAlways(y: Sys, steps: seq<Step>)
    requires Integrity(y.g.engine)
    ensures Integrity(Run(y, steps).g.engine)
    decreases |steps|
  {
    hide Apply, Integrity;
    if steps != [] {
      IntegrityAlways(y, steps[..|steps| - 1]);
      IntegrityStep(Run(y, steps[..|steps| - 1]), steps[|steps| - 1]);
    }
  }

  // ----- What the evidence about a victim in a domain says -----

  predicate About(e: Evidence, d: ResourceDomain, v: WorkloadId) { e.domain == d && e.victim == v }

  /** The ids of the evidence, in order of arrival, from the first that was not a post-action report. */
  function Arrivals(log: seq<Record>, d: ResourceDomain, v: WorkloadId): seq<EvidenceId> {
    if log == [] then []
    else
      var r, before := log[|log| - 1], Arrivals(log[..|log| - 1], d, v);
      if r.Ingesting? && About(r.e, d, v) then before + [r.e.id]
      else if r.Reporting? && About(r.e, d, v) && before != [] then before + [r.e.id]
      else before
  }

  /** The degradations measured since the last post-action report, that one included. */
  function Recent(log: seq<Record>, d: ResourceDomain, v: WorkloadId): (xs: seq<real>)
    ensures xs == [] <==> Arrivals(log, d, v) == []
  {
    if log == [] then []
    else
      var r, before := log[|log| - 1], Recent(log[..|log| - 1], d, v);
      if r.Ingesting? && About(r.e, d, v) then before + [r.e.degradation]
      else if r.Reporting? && About(r.e, d, v) && before != [] then [r.e.degradation]
      else before
  }

  /** The confidences of the evidence that was not a post-action report. */
  function Confidences(log: seq<Record>, d: ResourceDomain, v: WorkloadId): (xs: seq<real>)
    ensures Arrivals(log, d, v) != [] ==> xs != []
  {
    if log == [] then []
    else
      var r := log[|log| - 1];
      Confidences(log[..|log| - 1], d, v) + if r.Ingesting? && About(r.e, d, v) then [r.e.confidence] else []
  }

  /** The neighbours named last. */
  function LastNeighbors(log: seq<Record>, d: ResourceDomain, v: WorkloadId): seq<WorkloadId> {
    if log == [] then []
    else
      var r := log[|log| - 1];
      if r.Ingesting? && About(r.e, d, v) then r.e.neighbors else LastNeighbors(log[..|log| - 1], d, v)
  }

  ghost predicate IsMax(x: real, xs: seq<real>) {
    x in xs && forall y :: y in xs ==> y <= x
  }

  lemma MaxAppend(x: real, xs: seq<real>, y: real)
    requires IsMax(x, xs)
    ensures IsMax(Larger(x, y), xs + [y])
  {
    assert forall z :: z in xs + [y] <==> z in xs || z == y;
    if !(x < y) { assert x in xs + [y]; }
  }

  // ----- The table -----

  ghost predicate Of(c: Conflict, d: ResourceDomain, v: WorkloadId) { c.domain == d && c.affected == [v] }

  /** The conflict says what the evidence says. */
  ghost predicate Pictures(c: Conflict, log: seq<Record>, d: ResourceDomain, v: WorkloadId) {
    && Of(c, d, v)
    && c.evidenceIds == Arrivals(log, d, v) != []
    && IsMax(c.degradation, Recent(log, d, v))
    && IsMax(c.confidence, Confidences(log, d, v))
    && c.associated == LastNeighbors(log, d, v)
  }

  ghost predicate AllPictured(cs: Conflicts, log: seq<Record>) {
    forall k | k in cs :: |cs[k].affected| == 1 && Pictures(cs[k], log, cs[k].domain, cs[k].affected[0])
  }

  ghost predicate NoTwins(cs: Conflicts) {
    forall j, k | j in cs && k in cs && cs[j].domain == cs[k].domain && cs[j].affected == cs[k].affected :: j == k
  }

  ghost predicate Covered(cs: Conflicts, log: seq<Record>) {
    forall d, v | Arrivals(log, d, v) != [] :: exists k :: k in cs && Of(cs[k], d, v)
  }

  /** One conflict for each victim and domain that evidence has arrived about, and no other. */
  ghost predicate Table(cs: Conflicts, log: seq<Record>) {
    AllPictured(cs, log) && NoTwins(cs) && Covered(cs, log)
  }

  lemma LocatedIff(cs: Conflicts, log: seq<Record>, d: ResourceDomain, v: WorkloadId)
    requires AllPictured(cs, log) && NoTwins(cs)
    ensures forall k | k in cs :: Of(cs[k], d, v) <==> FindConflict(cs, d, v) == Some(k)
  {
    hide Arrivals, Recent, Confidences, LastNeighbors, IsMax;
    forall k | k in cs
      ensures Of(cs[k], d, v) <==> k in Matching(cs, d, v)
    {
      assert v in cs[k].affected <==> cs[k].affected == [v];
    }
  }

  lemma Located(cs: Conflicts, log: seq<Record>, d: ResourceDomain, v: WorkloadId)
    requires Table(cs, log)
    ensures FindConflict(cs, d, v).Some? ==> Pictures(cs[FindConflict(cs, d, v).value], log, d, v)
    ensures FindConflict(cs, d, v).None? ==> Arrivals(log, d, v) == []
    ensures forall k | k in cs :: Of(cs[k], d, v) <==> FindConflict(cs, d, v) == Some(k)
  {
    hide Pictures, Arrivals, FindConflict, NoTwins;
    LocatedIff(cs, log, d, v);
  }

  predicate SamePicture(c: Conflict, e: Conflict) {
    && c.domain == e.domain && c.affected == e.affected && c.evidenceIds == e.evidenceIds
    && c.degradation == e.degradation && c.confidence == e.confidence && c.associated == e.associated
  }

  lemma SamePictures(cs: Conflicts, ds: Conflicts, log: seq<Record>)
    requires Table(cs, log)
    requires cs.Keys == ds.Keys && forall k | k in cs :: SamePicture(cs[k], ds[k])
    ensures Table(ds, log)
  {
    hide Arrivals, Recent, Confidences, LastNeighbors, IsMax, NoTwins, Covered;
    forall k | k in ds
      ensures |ds[k].affected| == 1 && Pictures(ds[k], log, ds[k].domain, ds[k].affected[0])
    {
      assert SamePicture(cs[k], ds[k]);
    }
    SameTwins(cs, ds);
    SameCover(cs, ds, log);
  }

  lemma SameTwins(cs: Conflicts, ds: Conflicts)
    requires NoTwins(cs) && cs.Keys == ds.Keys && forall k | k in cs :: SamePicture(cs[k], ds[k])
    ensures NoTwins(ds)
  {
    forall j, k | j in ds && k in ds && ds[j].domain == ds[k].domain && ds[j].affected == ds[k].affected
      ensures j == k
    {
      assert SamePicture(cs[j], ds[j]) && SamePicture(cs[k], ds[k]);
    }
  }

  lemma SameCover(cs: Conflicts, ds: Conflicts, log: seq<Record>)
    requires Covered(cs, log) && cs.Keys == ds.Keys && forall k | k in cs :: SamePicture(cs[k], ds[k])
    ensures Covered(ds, log)
  {
    hide Arrivals;
    forall d, v | Arrivals(log, d, v) != []
      ensures exists k :: k in ds && Of(ds[k], d, v)
    {
      var k :| k in cs && Of(cs[k], d, v);
      assert SamePicture(cs[k], ds[k]);
    }
  }

  predicate Concerns(r: Record, d: ResourceDomain, v: WorkloadId) { (r.Ingesting? || r.Reporting?) && About(r.e, d, v) }

  /** A record about something else changes nothing the log says about the pair. */
  lemma Unconcerned(log: seq<Record>, r: Record, d: ResourceDomain, v: WorkloadId)
    requires !Concerns(r, d, v)
    ensures Arrivals(log + [r], d, v) == Arrivals(log, d, v) && Recent(log + [r], d, v) == Recent(log, d, v)
    ensures Confidences(log + [r], d, v) == Confidences(log, d, v)
    ensures LastNeighbors(log + [r], d, v) == LastNeighbors(log, d, v)
  {
    assert (log + [r])[..|log|] == log;
  }

  lemma Concerned(log: seq<Record>, r: Record, d: ResourceDomain, v: WorkloadId)
    requires Concerns(r, d, v)
    ensures Arrivals(log + [r], d, v)
            == if r.Ingesting? || Arrivals(log, d, v) != [] then Arrivals(log, d, v) + [r.e.id] else []
    ensures Recent(log + [r], d, v)
            == if r.Ingesting? then Recent(log, d, v) + [r.e.degradation]
               else if Recent(log, d, v) != [] then [r.e.degradation] else []
    ensures Confidences(log + [r], d, v) == Confidences(log, d, v) + if r.Ingesting? then [r.e.confidence] else []
    ensures LastNeighbors(log + [r], d, v) == if r.Ingesting? then r.e.neighbors else LastNeighbors(log, d, v)
  {
    assert (log + [r])[..|log|] == log;
  }

  /** Only the conflict of (d, v), k, is changed or made, and the record appended is about nothing else. */
  ghost predicate Follows(cs: Conflicts, ds: Conflicts, r: Record, d: ResourceDomain, v: WorkloadId, k: ConflictId) {
    && (forall d', v' | Concerns(r, d', v') :: d' == d && v' == v)
    && k in ds && ds == cs[k := ds[k]] && Of(ds[k], d, v)
    && (k in cs ==> Of(cs[k], d, v))
    && (forall j | j in cs && Of(cs[j], d, v) :: j == k)
  }

  lemma PicturesFollow(cs: Conflicts, ds: Conflicts, log: seq<Record>, r: Record, d: ResourceDomain, v: WorkloadId,
                       k: ConflictId)
    requires AllPictured(cs, log) && Follows(cs, ds, r, d, v, k) && Pictures(ds[k], log + [r], d, v)
    ensures AllPictured(ds, log + [r])
  {
    hide Arrivals, Recent, Confidences, LastNeighbors, IsMax, Concerns;
    forall j | j in ds
      ensures |ds[j].affected| == 1 && Pictures(ds[j], log + [r], ds[j].domain, ds[j].affected[0])
    {
      if j != k {
        assert !Of(cs[j], d, v);
        Unconcerned(log, r, cs[j].domain, cs[j].affected[0]);
      }
    }
  }

  lemma TwinsFollow(cs: Conflicts, ds: Conflicts, r: Record, d: ResourceDomain, v: WorkloadId, k: ConflictId)
    requires NoTwins(cs) && Follows(cs, ds, r, d, v, k)
    ensures NoTwins(ds)
  {
    hide Concerns;
    forall j | j in ds
      ensures Of(ds[j], d, v) ==> j == k
    {
      assert j != k ==> ds[j] == cs[j];
    }
  }

  lemma CoverFollows(cs: Conflicts, ds: Conflicts, log: seq<Record>, r: Record, d: ResourceDomain, v: WorkloadId,
                     k: ConflictId)
    requires Covered(cs, log) && Follows(cs, ds, r, d, v, k)
    ensures Covered(ds, log + [r])
  {
    hide Arrivals, Recent, Confidences, LastNeighbors, Concerns;
    forall d', v' | Arrivals(log + [r], d', v') != []
      ensures exists j :: j in ds && Of(ds[j], d', v')
    {
      if d' == d && v' == v {
        assert Of(ds[k], d', v');
      } else {
        Unconcerned(log, r, d', v');
        var j :| j in cs && Of(cs[j], d', v');
        assert j in ds && Of(ds[j], d', v');
      }
    }
  }

  lemma TableFollows(cs: Conflicts, ds: Conflicts, log: seq<Record>, r: Record, d: ResourceDomain, v: WorkloadId,
                     k: ConflictId)
    requires Table(cs, log) && Follows(cs, ds, r, d, v, k) && Pictures(ds[k], log + [r], d, v)
    ensures Table(ds, log + [r])
  {
    hide AllPictured, NoTwins, Covered, Follows, Pictures;
    PicturesFollow(cs, ds, log, r, d, v, k);
    TwinsFollow(cs, ds, r, d, v, k);
    CoverFollows(cs, ds, log, r, d, v, k);
  }

  /** The table is as it was when a record says nothing about any conflict. */
  lemma TableUnmoved(cs: Conflicts, log: seq<Record>, r: Record)
    requires Table(cs, log)
    requires forall d, v | Concerns(r, d, v) :: r.Reporting? && Arrivals(log, d, v) == []
    ensures Table(cs, log + [r])
  {
    hide Recent, Confidences, LastNeighbors, IsMax, Concerns, Arrivals;
    forall k | k in cs
      ensures Pictures(cs[k], log + [r], cs[k].domain, cs[k].affected[0])
    {
      assert !Concerns(r, cs[k].domain, cs[k].affected[0]);
      Unconcerned(log, r, cs[k].domain, cs[k].affected[0]);
    }
    forall d, v | Arrivals(log + [r], d, v) != []
      ensures exists k :: k in cs && Of(cs[k], d, v)
    {
      if Concerns(r, d, v) {
        Concerned(log, r, d, v);
      } else {
        Unconcerned(log, r, d, v);
      }
    }
  }

  // ----- Steps -----

  lemma ProgressedPictures(c: Conflict, e: Evidence, threshold: real)
    ensures SamePicture(c, Progressed(c, e, threshold))
  {
  }

  lemma IngestPictures(cs: Conflicts, log: seq<Record>, e: Evidence, c: Conflict, prior: Option<Conflict>)
    requires prior.Some? ==> Pictures(prior.value, log, e.domain, e.victim) && SamePicture(c, Updated(prior.value, e))
    requires prior.None? ==> Arrivals(log, e.domain, e.victim) == []
    requires prior.None? ==> Of(c, e.domain, e.victim) && c.evidenceIds == [e.id] && c.degradation == e.degradation
                             && c.confidence == e.confidence && c.associated == e.neighbors
    requires prior.None? ==> Confidences(log, e.domain, e.victim) == []
    ensures Pictures(c, log + [Ingesting(e)], e.domain, e.victim)
  {
    hide Arrivals, Recent, Confidences, LastNeighbors, IsMax;
    var d, v := e.domain, e.victim;
    Concerned(log, Ingesting(e), d, v);
    if prior.Some? {
      MaxAppend(prior.value.degradation, Recent(log, d, v), e.degradation);
      MaxAppend(prior.value.confidence, Confidences(log, d, v), e.confidence);
    } else {
      OneIsMax(e.degradation);
      OneIsMax(e.confidence);
    }
  }

  lemma OneIsMax(x: real)
    ensures IsMax(x, [x]) && IsMax(x, [] + [x])
  {
  }

  lemma {:induction false} NoConfidences(log: seq<Record>, d: ResourceDomain, v: WorkloadId)
    requires Arrivals(log, d, v) == []
    ensures Confidences(log, d, v) == []
    decreases |log|
  {
    if log != [] {
      NoConfidences(log[..|log| - 1], d, v);
    }
  }

  lemma TableIngest(g: State, log: seq<Record>, input: Evidence)
    requires Table(g.engine.conflicts, log) && EvidenceIsValid(input)
    requires forall k | k in g.engine.conflicts :: k < g.nextConflictId
    ensures Table(ConflictsAfter(g, EvidenceIngested(input)), log + [Ingesting(Identified(g, input))])
  {
    hide EvidenceIsValid, Degradation, Improvement, Table, FindConflict, Pictures, Progressed, ClassifySeverity,
         Arrivals, Confidences;
    var cs, e, d, v := g.engine.conflicts, Identified(g, input), input.domain, input.victim;
    var ds := ConflictsAfter(g, EvidenceIngested(input));
    var found, threshold := FindConflict(cs, d, v), g.engine.policy.actionabilityThreshold;
    Located(cs, log, d, v);
    match found
    case Some(k) =>
      ProgressedPictures(Updated(cs[k], e), e, threshold);
      IngestPictures(cs, log, e, ds[k], Some(cs[k]));
      TableFollows(cs, ds, log, Ingesting(e), d, v, k);
    case None =>
      var k := g.nextConflictId;
      ProgressedPictures(NewConflict(g, e), e, threshold);
      NoConfidences(log, d, v);
      IngestPictures(cs, log, e, ds[k], None);
      TableFollows(cs, ds, log, Ingesting(e), d, v, k);
  }

  lemma ReportPictures(log: seq<Record>, c: Conflict, e: Evidence, verdict: Option<Verdict>, b: Conflict)
    requires Pictures(c, log, e.domain, e.victim) && SamePicture(b, Remeasured(c, e))
    ensures Pictures(b, log + [Reporting(e, verdict)], e.domain, e.victim)
  {
    hide Arrivals, Recent, Confidences, LastNeighbors, IsMax;
    Concerned(log, Reporting(e, verdict), e.domain, e.victim);
    OneIsMax(e.degradation);
    assert IsMax(c.confidence, Confidences(log, e.domain, e.victim) + []) by {
      assert Confidences(log, e.domain, e.victim) + [] == Confidences(log, e.domain, e.victim);
    }
  }

  lemma TableSubmit(g: State, log: seq<Record>, input: Evidence, verdict: Option<Verdict>)
    requires Table(g.engine.conflicts, log) && EvidenceIsValid(input)
    ensures Table(ConflictsAfter(g, EvidenceSubmitted(input)), log + [Reporting(Identified(g, input), verdict)])
  {
    hide EvidenceIsValid, Degradation, Improvement, Table, FindConflict, Pictures, StepVerdict, Arrivals;
    var cs, e, d, v := g.engine.conflicts, Identified(g, input), input.domain, input.victim;
    var ds := ConflictsAfter(g, EvidenceSubmitted(input));
    Located(cs, log, d, v);
    match FindConflict(cs, d, v)
    case Some(k) =>
      ReportPictures(log, cs[k], e, verdict, ds[k]);
      TableFollows(cs, ds, log, Reporting(e, verdict), d, v, k);
    case None =>
      TableUnmoved(cs, log, Reporting(e, verdict));
  }

  lemma OtherSteps(g: State, step: Step)
    requires !(step.EvidenceIngested? && EvidenceIsValid(step.e)) && !(step.EvidenceSubmitted?
            && EvidenceIsValid(step.e))
    ensures ConflictsAfter(g, step).Keys == g.engine.conflicts.Keys
    ensures forall k | k in g.engine.conflicts :: SamePicture(g.engine.conflicts[k], ConflictsAfter(g, step)[k])
    ensures forall r | r in Note(g, step) :: !r.Ingesting? && !r.Reporting?
  {
    hide EvidenceIsValid, Attempt, MayBegin, FindConflict, StepVerdict;
  }

  lemma KeysBelow(g: State, step: Step)
    requires Room(g, 1) && forall k | k in g.engine.conflicts :: k < g.nextConflictId
    ensures forall k | k in Next(g, step).engine.conflicts :: k < Next(g, step).nextConflictId
  {
    hide Attempt, FindConflict, VerdictOn, EvidenceIsValid, PolicyIsValid, Revalidate, Identified, Progressed, Updated,
         NewConflict, Answered, Consumed, Touched, Remeasured;
    if step.AuthorizeCalled? && Attempt(g, step.conflict, step.cls, step.now).Some? {
      AttemptNeedsConflict(g, step.conflict, step.cls, step.now);
    }
  }

  lemma TableStep(y: Sys, step: Step)
    requires Table(y.g.engine.conflicts, y.log) && Room(y.g, 1)
    requires forall k | k in y.g.engine.conflicts :: k < y.g.nextConflictId
    ensures Table(Apply(y, step).g.engine.conflicts, Apply(y, step).log)
  {
    hide Next, EvidenceIsValid, Attempt, MayBegin, Table, ConflictsAfter, Identified, Recorded, VerdictOn, SamePicture;
    ConflictsAfterAre(y.g, step);
    var z := Apply(y, step);
    if step.EvidenceIngested? && EvidenceIsValid(step.e) {
      TableIngest(y.g, y.log, step.e);
    } else if step.EvidenceSubmitted? && EvidenceIsValid(step.e) {
      TableSubmit(y.g, y.log, step.e, VerdictOn(Recorded(y.g, step.e), Identified(y.g, step.e)));
    } else {
      OtherSteps(y.g, step);
      NoteIsShort(y.g, step);
      SamePictures(y.g.engine.conflicts, ConflictsAfter(y.g, step), y.log);
      if z.log != y.log {
        assert z.log == y.log + [Note(y.g, step)[0]];
        TableUnmoved(ConflictsAfter(y.g, step), y.log, Note(y.g, step)[0]);
      }
    }
  }

  /**
   In every run from an empty table: one conflict for each victim and domain evidence has arrived
   about, its degradation the greatest since the last post-action report, its evidence in order of
   arrival, its interferers those named last; and ids below the counter.
   */
  lemma {:induction false} TableIsLog(g: State, steps: seq<Step>)
    requires g.engine.conflicts == map[] && Room(g, |steps|)
    ensures var y := Run(Start(g), steps);
            && Table(y.g.engine.conflicts, y.log)
            && forall k | k in y.g.engine.conflicts :: k < y.g.nextConflictId
    decreases |steps|
  {
    hide Next, Note, Table;
    if steps == [] {
      EmptyTable();
    } else {
      var front, step := steps[..|steps| - 1], steps[|steps| - 1];
      TableIsLog(g, front);
      RoomLeft(Start(g), front, 1);
      TableStep(Run(Start(g), front), step);
      KeysBelow(Run(Start(g), front).g, step);
    }
  }

  lemma EmptyTable()
    ensures Table(map[], [])
  {
  }
}
