/** The program's enumerations, and the byte each value is stored as. */
module Enums {
  import opened Words

  datatype ResourceDomain =
    | Compute | Cache | MemoryBandwidth | MemoryCapacity | Pcie | Transfer | Collective | Network
    | Numa | Storage | HostCpu | Residency | SharedEngine | UnknownDomain

  const DOMAINS: seq<ResourceDomain> :=
    [Compute, Cache, MemoryBandwidth, MemoryCapacity, Pcie, Transfer, Collective, Network, Numa,
     Storage, HostCpu, Residency, SharedEngine, UnknownDomain]

  function DomainOrd(x: ResourceDomain): (n: byte)
    ensures n < 14 && DOMAINS[n] == x
  {
    match x
    case Compute => 0 case Cache => 1 case MemoryBandwidth => 2 case MemoryCapacity => 3
    case Pcie => 4 case Transfer => 5 case Collective => 6 case Network => 7 case Numa => 8
    case Storage => 9 case HostCpu => 10 case Residency => 11 case SharedEngine => 12
    case UnknownDomain => 13
  }

  datatype MetricDirection =
    | HigherIsBetter | LowerIsBetter

  const METRICS: seq<MetricDirection> :=
    [HigherIsBetter, LowerIsBetter]

  function MetricOrd(x: MetricDirection): (n: byte)
    ensures n < 2 && METRICS[n] == x
  {
    match x
    case HigherIsBetter => 0 case LowerIsBetter => 1
  }

  datatype ConflictState =
    | Detected | Validating | Actionable | InterventionAuthorized | InterventionInFlight
    | Verifying | ConflictResolved | ConflictPartiallyResolved | Unresolved | Suppressed
    | RevalidationRequired | ConflictSuperseded | UnknownConflict

  const CONFLICT_STATES: seq<ConflictState> :=
    [Detected, Validating, Actionable, InterventionAuthorized, InterventionInFlight, Verifying,
     ConflictResolved, ConflictPartiallyResolved, Unresolved, Suppressed, RevalidationRequired,
     ConflictSuperseded, UnknownConflict]

  function ConflictStateOrd(x: ConflictState): (n: byte)
    ensures n < 13 && CONFLICT_STATES[n] == x
  {
    match x
    case Detected => 0 case Validating => 1 case Actionable => 2 case InterventionAuthorized => 3
    case InterventionInFlight => 4 case Verifying => 5 case ConflictResolved => 6
    case ConflictPartiallyResolved => 7 case Unresolved => 8 case Suppressed => 9
    case RevalidationRequired => 10 case ConflictSuperseded => 11 case UnknownConflict => 12
  }

  datatype EvidenceStatus =
    | Current | Stale | ExpiredEvidence | NeedsRevalidation | UnsupportedEvidence | UnknownEvidence
    | Confounded | Insufficient

  const EVIDENCE_STATUSES: seq<EvidenceStatus> :=
    [Current, Stale, ExpiredEvidence, NeedsRevalidation, UnsupportedEvidence, UnknownEvidence,
     Confounded, Insufficient]

  function EvidenceStatusOrd(x: EvidenceStatus): (n: byte)
    ensures n < 8 && EVIDENCE_STATUSES[n] == x
  {
    match x
    case Current => 0 case Stale => 1 case ExpiredEvidence => 2 case NeedsRevalidation => 3
    case UnsupportedEvidence => 4 case UnknownEvidence => 5 case Confounded => 6
    case Insufficient => 7
  }

  /** Attribution6 has no name in the program, but a persisted policy may hold it: see GetPolicy. */
  datatype AttributionStrength =
    | UnknownAttribution | TemporallyAssociated | Correlated | ControlledComparison
    | StrongCounterfactual | DirectResourceEvidence | Attribution6

  const ATTRIBUTIONS: seq<AttributionStrength> :=
    [UnknownAttribution, TemporallyAssociated, Correlated, ControlledComparison,
     StrongCounterfactual, DirectResourceEvidence, Attribution6]

  function AttributionOrd(x: AttributionStrength): (n: byte)
    ensures n < 7 && ATTRIBUTIONS[n] == x
  {
    match x
    case UnknownAttribution => 0 case TemporallyAssociated => 1 case Correlated => 2
    case ControlledComparison => 3 case StrongCounterfactual => 4 case DirectResourceEvidence => 5
    case Attribution6 => 6
  }

  datatype BindingObjective =
    | Latency | TailLatency | Throughput | Deadline | Availability | Recovery | Cost | Fairness
    | ResourceMinimum | ValueProtection | Multiple | UnknownObjective

  const OBJECTIVES: seq<BindingObjective> :=
    [Latency, TailLatency, Throughput, Deadline, Availability, Recovery, Cost, Fairness,
     ResourceMinimum, ValueProtection, Multiple, UnknownObjective]

  function ObjectiveOrd(x: BindingObjective): (n: byte)
    ensures n < 12 && OBJECTIVES[n] == x
  {
    match x
    case Latency => 0 case TailLatency => 1 case Throughput => 2 case Deadline => 3
    case Availability => 4 case Recovery => 5 case Cost => 6 case Fairness => 7
    case ResourceMinimum => 8 case ValueProtection => 9 case Multiple => 10
    case UnknownObjective => 11
  }

  datatype InterventionClass =
    | NoAction | ObserveMore | Throttle | DeferNewWork | ReduceConcurrency | ReduceBatch
    | Serialize | TimeSlice | RequestPreemption | RequestMigration | RequestReplacement
    | ChangePlacement | RequestBandwidthReallocation | RequestCommunicationReplan
    | RequestCollectiveReschedule | ReleaseOptionalResidency | ReduceMemoryPressure
    | ShedLowValueWork | ProtectHighValueWork | Escalate | ManualInterventionRequired

  const CLASSES: seq<InterventionClass> :=
    [NoAction, ObserveMore, Throttle, DeferNewWork, ReduceConcurrency, ReduceBatch, Serialize,
     TimeSlice, RequestPreemption, RequestMigration, RequestReplacement, ChangePlacement,
     RequestBandwidthReallocation, RequestCommunicationReplan, RequestCollectiveReschedule,
     ReleaseOptionalResidency, ReduceMemoryPressure, ShedLowValueWork, ProtectHighValueWork,
     Escalate, ManualInterventionRequired]

  function ClassOrd(x: InterventionClass): (n: byte)
    ensures n < 21 && CLASSES[n] == x
  {
    match x
    case NoAction => 0 case ObserveMore => 1 case Throttle => 2 case DeferNewWork => 3
    case ReduceConcurrency => 4 case ReduceBatch => 5 case Serialize => 6 case TimeSlice => 7
    case RequestPreemption => 8 case RequestMigration => 9 case RequestReplacement => 10
    case ChangePlacement => 11 case RequestBandwidthReallocation => 12
    case RequestCommunicationReplan => 13 case RequestCollectiveReschedule => 14
    case ReleaseOptionalResidency => 15 case ReduceMemoryPressure => 16 case ShedLowValueWork => 17
    case ProtectHighValueWork => 18 case Escalate => 19 case ManualInterventionRequired => 20
  }

  datatype LifecycleState =
    | Proposed | Authorized | Dispatched | Acknowledged | Effective | PartiallyEffective
    | Ineffective | FailedAction | Cancelled | SupersededAction | ExpiredAction | OutcomeUnknown

  const LIFECYCLES: seq<LifecycleState> :=
    [Proposed, Authorized, Dispatched, Acknowledged, Effective, PartiallyEffective, Ineffective,
     FailedAction, Cancelled, SupersededAction, ExpiredAction, OutcomeUnknown]

  function LifecycleOrd(x: LifecycleState): (n: byte)
    ensures n < 12 && LIFECYCLES[n] == x
  {
    match x
    case Proposed => 0 case Authorized => 1 case Dispatched => 2 case Acknowledged => 3
    case Effective => 4 case PartiallyEffective => 5 case Ineffective => 6 case FailedAction => 7
    case Cancelled => 8 case SupersededAction => 9 case ExpiredAction => 10
    case OutcomeUnknown => 11
  }

  datatype VerificationOutcome =
    | Resolved | PartiallyResolved | NoEffect | Worsened | ShiftedContention
    | CreatedSecondaryViolation | CreatedFairnessViolation | InsufficientPostActionEvidence
    | UnknownOutcome

  const OUTCOMES: seq<VerificationOutcome> :=
    [Resolved, PartiallyResolved, NoEffect, Worsened, ShiftedContention, CreatedSecondaryViolation,
     CreatedFairnessViolation, InsufficientPostActionEvidence, UnknownOutcome]

  function OutcomeOrd(x: VerificationOutcome): (n: byte)
    ensures n < 9 && OUTCOMES[n] == x
  {
    match x
    case Resolved => 0 case PartiallyResolved => 1 case NoEffect => 2 case Worsened => 3
    case ShiftedContention => 4 case CreatedSecondaryViolation => 5
    case CreatedFairnessViolation => 6 case InsufficientPostActionEvidence => 7
    case UnknownOutcome => 8
  }

  datatype EvidenceLabel =
    | Real | Controlled | Derived | PolicyLabel | Synthetic | UnsupportedLabel

  const LABELS: seq<EvidenceLabel> :=
    [Real, Controlled, Derived, PolicyLabel, Synthetic, UnsupportedLabel]

  function LabelOrd(x: EvidenceLabel): (n: byte)
    ensures n < 6 && LABELS[n] == x
  {
    match x
    case Real => 0 case Controlled => 1 case Derived => 2 case PolicyLabel => 3 case Synthetic => 4
    case UnsupportedLabel => 5
  }

  datatype Severity =
    | NoSeverity | Minor | Moderate | Severe | Critical | UnknownSeverity

  const SEVERITIES: seq<Severity> :=
    [NoSeverity, Minor, Moderate, Severe, Critical, UnknownSeverity]

  function SeverityOrd(x: Severity): (n: byte)
    ensures n < 6 && SEVERITIES[n] == x
  {
    match x
    case NoSeverity => 0 case Minor => 1 case Moderate => 2 case Severe => 3 case Critical => 4
    case UnknownSeverity => 5
  }

  /** Status20 has no name in the program, but a persisted intervention may hold it. */
  datatype StatusCode =
    | Ok | InvalidInput | InsufficientEvidence | ConfoundedEvidence | StaleEvidence
    | StaleAuthority | PolicySuperseded | ConflictIsResolved | NoLegalIntervention
    | HardConstraintViolation | FairnessLimit | ActionBudgetExhausted | InterventionFailed
    | OutcomeIsUnknown | PersistenceCorrupt | ProtocolError | ArithmeticOverflow
    | ResourceExhausted | IsCancelled | ShuttingDown | Status20

  const STATUS_CODES: seq<StatusCode> :=
    [Ok, InvalidInput, InsufficientEvidence, ConfoundedEvidence, StaleEvidence, StaleAuthority,
     PolicySuperseded, ConflictIsResolved, NoLegalIntervention, HardConstraintViolation,
     FairnessLimit, ActionBudgetExhausted, InterventionFailed, OutcomeIsUnknown,
     PersistenceCorrupt, ProtocolError, ArithmeticOverflow, ResourceExhausted, IsCancelled,
     ShuttingDown, Status20]

  function StatusOrd(x: StatusCode): (n: byte)
    ensures n < 21 && STATUS_CODES[n] == x
  {
    match x
    case Ok => 0 case InvalidInput => 1 case InsufficientEvidence => 2 case ConfoundedEvidence => 3
    case StaleEvidence => 4 case StaleAuthority => 5 case PolicySuperseded => 6
    case ConflictIsResolved => 7 case NoLegalIntervention => 8 case HardConstraintViolation => 9
    case FairnessLimit => 10 case ActionBudgetExhausted => 11 case InterventionFailed => 12
    case OutcomeIsUnknown => 13 case PersistenceCorrupt => 14 case ProtocolError => 15
    case ArithmeticOverflow => 16 case ResourceExhausted => 17 case IsCancelled => 18
    case ShuttingDown => 19 case Status20 => 20
  }
}
