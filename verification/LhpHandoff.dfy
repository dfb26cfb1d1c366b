/** Handoff statuses, their transition table, and inbound updates (app/lhp.py). */
module LhpHandoff {
  import opened Wrappers
  import opened LhpTokens

  datatype LoopName = Noc | Engineering | Knowledge | Soc

  datatype HandoffStatus =
    | Requested | Accepted | InProgress | ChangePlanned | Implemented | Blocked | Failed | NeedsHuman
    | Verified | Resolved | Cancelled | Expired

  datatype UpdateType =
    | AcceptedUpdate | InvestigatingUpdate | BlockedUpdate | ChangePlannedUpdate | ChangeAppliedUpdate
    | ImplementedUpdate | FailedUpdate | NeedsHumanUpdate

  function VerifierOnly(): set<HandoffStatus> {
    {Verified, Resolved}
  }

  function Successors(current: HandoffStatus): set<HandoffStatus> {
    match current
    case Requested => {Accepted, Blocked, Failed, NeedsHuman, Cancelled, Expired}
    case Accepted => {InProgress, Blocked, Failed, NeedsHuman, Cancelled, Expired}
    case InProgress => {Blocked, Failed, NeedsHuman, ChangePlanned, Implemented, Cancelled, Expired}
    case ChangePlanned => {Blocked, Failed, NeedsHuman, Implemented, Cancelled, Expired}
    case Implemented => {Failed, NeedsHuman, Verified, Cancelled, Expired}
    case Verified => {Resolved, Failed, NeedsHuman}
    case Blocked => {Accepted, NeedsHuman, Failed, Cancelled, Expired}
    case Failed => {Accepted, NeedsHuman, Cancelled, Expired}
    case NeedsHuman => {Accepted, InProgress, Cancelled, Expired}
    case Resolved => {}
    case Cancelled => {}
    case Expired => {}
  }

  predicate AllowedHandoffTransition(current: HandoffStatus, target: HandoffStatus, actor: LoopName) {
    if target in VerifierOnly() && actor != Noc then false
    else current == target || target in Successors(current)
  }

  /** An update as it arrives, before validation. */
  datatype RawUpdate = RawUpdate(
    handoffId: string, caseId: string, sourceLoop: LoopName, updateType: UpdateType,
    status: HandoffStatus, eventId: string, correlationId: string)

  /** A validated update: its ids are sanitised tokens. */
  datatype HandoffUpdate = HandoffUpdate(
    handoffId: string, caseId: string, sourceLoop: LoopName, updateType: UpdateType,
    status: HandoffStatus, eventId: string)

  const ID_LIMIT := 180

  function ValidateUpdate(raw: RawUpdate): Result<HandoffUpdate, string> {
    match (RequireToken(raw.handoffId, ID_LIMIT), RequireToken(raw.caseId, ID_LIMIT),
           RequireToken(raw.eventId, ID_LIMIT), RequireToken(raw.correlationId, ID_LIMIT))
    case (Ok(handoffId), Ok(caseId), Ok(eventId), Ok(_)) =>
      if raw.sourceLoop != Noc && raw.status in VerifierOnly() then
        Err("non-NOC loops cannot set verified/resolved handoff status")
      else
        Ok(HandoffUpdate(handoffId, caseId, raw.sourceLoop, raw.updateType, raw.status, eventId))
    case (_, _, _, _) => Err("a required field is blank")
  }
}
