/** The records of the case substrate (app/cases/models.py). Hashes and generated ids are arbitrary strings. */
module Models {
  import opened Wrappers
  import opened Labels
  import Lhp = LhpHandoff

  datatype CaseStatus =
    | Open | Triaged | ContextRequested | HandoffRequested | HandoffInProgress | VerificationPending
    | Investigating | WaitingApproval | Blocked | Failed | NeedsHuman | Resolved | Closed

  datatype Severity = UNKNOWN | LOW | MEDIUM | HIGH

  datatype Actor = Loop | Verifier | Operator | EngineeringLoop | System

  function SeverityRank(s: Severity): nat {
    match s
    case UNKNOWN => 0
    case LOW => 1
    case MEDIUM => 2
    case HIGH => 3
  }

  /** A clock reading, or the empty string of a field never set. */
  type Time = Option<int>

  /** A hash prefix; never empty. */
  type Fingerprint = s: string | s != "" witness "0"

  /** `fingerprint` is the hash of check id and key; `signature` the hash behind change detection. */
  datatype Finding = Finding(
    findingId: string, checkId: string, fingerprint: Fingerprint, signature: string,
    title: string, summary: string, resource: string, severity: Severity, passed: bool,
    warrantsHandoff: bool, objectiveKey: string, objectiveType: string, score: real)

  datatype SecurityCase = SecurityCase(
    caseId: string, fingerprint: string, title: string, summary: string, resourceId: string,
    status: CaseStatus, severity: Severity, findingIds: seq<string>,
    signature: string, previousSignature: string,
    lastFailing: Time, lastPassing: Time, lastEvaluated: Time, scanCycle: string, scanDegraded: bool,
    passCount: nat, requiredPasses: nat,
    issueUrl: string, issueId: string,
    handoffIds: seq<string>, handoffStatus: Option<Lhp.HandoffStatus>, lastHandoff: Time,
    acknowledgedBy: string, acknowledgedAt: Time,
    openedAt: int, updatedAt: Time, resolvedAt: Time, resolutionReason: string)

  datatype EventKind =
    | CaseOpened(findingId: string, severity: Severity)
    | Reopened(findingId: string, signatureChanged: bool)
    | RefreshFailing(findingId: string, signatureChanged: bool)
    | PositiveRecheck(count: nat, required: nat)
    | ScanDegraded(cycle: string)
    | MovedToTriaged(from: CaseStatus)
    | MovedToNeedsHuman(from: CaseStatus, reason: string)
    | Acknowledged(operator: string)
    | HandoffAsked(handoffId: string, objectiveKey: string)
    | IssueOpened(url: string, id: string)
    | EngineeringUpdated(updateType: Lhp.UpdateType, handoffStatus: Lhp.HandoffStatus, handoffId: string)
    | CaseResolved(from: CaseStatus, count: nat, required: nat, reason: string)

  datatype Event = Event(caseId: string, actor: Actor, kind: EventKind)

  /** The bound on every text of an event payload. */
  function BoundText(s: string): string {
    SanitizeLabel(s, 400)
  }

  function BoundKind(k: EventKind): EventKind {
    match k
    case CaseOpened(findingId, severity) => CaseOpened(BoundText(findingId), severity)
    case Reopened(findingId, changed) => Reopened(BoundText(findingId), changed)
    case RefreshFailing(findingId, changed) => RefreshFailing(BoundText(findingId), changed)
    case PositiveRecheck(_, _) => k
    case ScanDegraded(cycle) => ScanDegraded(BoundText(cycle))
    case MovedToTriaged(_) => k
    case MovedToNeedsHuman(from, reason) => MovedToNeedsHuman(from, BoundText(reason))
    case Acknowledged(operator) => Acknowledged(BoundText(operator))
    case HandoffAsked(handoffId, objectiveKey) => HandoffAsked(BoundText(handoffId), BoundText(objectiveKey))
    case IssueOpened(url, id) => IssueOpened(BoundText(url), BoundText(id))
    case EngineeringUpdated(updateType, status, handoffId) => EngineeringUpdated(updateType, status, BoundText(handoffId))
    case CaseResolved(from, count, required, reason) => CaseResolved(from, count, required, BoundText(reason))
  }

  /** The event constructor: its validator bounds the payload. */
  function NewEvent(caseId: string, actor: Actor, kind: EventKind): Event {
    Event(caseId, actor, BoundKind(kind))
  }

  datatype Handoff = Handoff(
    handoffId: string, caseId: string, objectiveKey: string, status: Lhp.HandoffStatus,
    idempotencyKey: string, fingerprint: string, traceId: string, createdAt: int, updatedAt: int)

  datatype ObjectiveStatus = Pending | Pass | Fail | Unknown | Skipped

  datatype Objective = Objective(
    objectiveId: string, caseId: string, handoffId: string, objectiveKey: string, objectiveType: string,
    status: ObjectiveStatus, requiredPasses: nat, passCount: nat, lastChecked: Time, createdAt: int)

  datatype Callback = Callback(
    eventId: string, handoffId: string, caseId: string,
    handoffStatus: Lhp.HandoffStatus, caseStatus: Option<CaseStatus>)

  const TITLE_LIMIT := 200
  const RESOURCE_LIMIT := 120
  const SUMMARY_LIMIT := 600

  /** The validator every constructed or reloaded case runs through. */
  function ScrubCase(c: SecurityCase): SecurityCase {
    c.(title := SanitizeLabel(c.title, TITLE_LIMIT),
       resourceId := SanitizeLabel(c.resourceId, RESOURCE_LIMIT),
       summary := SanitizeLabel(c.summary, SUMMARY_LIMIT))
  }

  /** The validator every constructed or reloaded finding runs through. */
  function ScrubFinding(f: Finding): Finding {
    f.(title := SanitizeLabel(f.title, TITLE_LIMIT),
       resource := SanitizeLabel(f.resource, RESOURCE_LIMIT),
       summary := SanitizeLabel(f.summary, SUMMARY_LIMIT))
  }

  /** A case built from a scrubbed finding is scrubbed twice, and so survives every later reload unchanged. */
  lemma CaseFromScrubbedFindingIsStable(c: SecurityCase, raw: Finding)
    requires c.title == ScrubFinding(raw).title
    requires c.resourceId == ScrubFinding(raw).resource
    requires c.summary == ScrubFinding(raw).summary
    ensures ScrubCase(ScrubCase(c)) == ScrubCase(c)
  {
    SanitizeLabelStabilises(raw.title, TITLE_LIMIT);
    SanitizeLabelStabilises(raw.resource, RESOURCE_LIMIT);
    SanitizeLabelStabilises(raw.summary, SUMMARY_LIMIT);
  }
}
