/**
 The case lifecycle as a pure state machine: what each operation of the service and of the
 verifier does to the whole store (app/cases/service.py, app/cases/verifier.py).
 The imperative classes are proved against these functions; the whole-run theorems are about them.
 */
module Lifecycle {
  import opened Wrappers
  import opened Dicts
  import opened Models
  import opened Policy
  import opened Labels
  import opened LhpTokens
  import Lhp = LhpHandoff
  import Sorting

  datatype State = State(
    cases: Dict<string, SecurityCase>, events: seq<Event>, findings: Dict<string, Finding>,
    handoffs: Dict<string, Handoff>, objectives: Dict<string, Objective>, callbacks: Dict<string, Callback>)

  function EmptyState(): State {
    State(Empty<string, SecurityCase>(), [], Empty<string, Finding>(),
          Empty<string, Handoff>(), Empty<string, Objective>(), Empty<string, Callback>())
  }

  /** What the surroundings supply to one operation: the clock and the ids it would generate. */
  datatype Stamp = Stamp(now: int, caseId: string, handoffId: string, objectiveId: string)

  datatype Error =
    | InvalidTransition(current: CaseStatus, target: CaseStatus)
    | UnknownHandoff(handoffId: string)
    | InvalidHandoffTransition(from: Lhp.HandoffStatus, to: Lhp.HandoffStatus)
    | InvalidField(reason: string)

  datatype Outcome<+T> = Outcome(state: State, result: Result<T, Error>)

  // --- lookups, in dictionary order ---

  function FindCase(keys: seq<string>, m: map<string, SecurityCase>, fingerprint: string): (r: Option<string>)
    requires forall k | k in keys :: k in m
    ensures r.Some? ==> r.value in keys && m[r.value].fingerprint == fingerprint
    ensures r.None? ==> forall k | k in keys :: m[k].fingerprint != fingerprint
  {
    if keys == [] then None
    else if m[keys[0]].fingerprint == fingerprint then Some(keys[0])
    else FindCase(keys[1..], m, fingerprint)
  }

  function CaseByFingerprint(s: State, fingerprint: string): (r: Option<SecurityCase>)
    ensures r.Some? ==> exists k | k in s.cases.m :: s.cases.m[k] == r.value && r.value.fingerprint == fingerprint
    ensures r.None? && fingerprint != "" ==> forall k | k in s.cases.m :: s.cases.m[k].fingerprint != fingerprint
  {
    if fingerprint == "" then None
    else
      match FindCase(s.cases.keys, s.cases.m, fingerprint)
      case Some(k) => Some(s.cases.m[k])
      case None => None
  }

  function SelectCases(keys: seq<string>, m: map<string, SecurityCase>, status: Option<CaseStatus>): seq<SecurityCase>
    requires forall k | k in keys :: k in m
  {
    if keys == [] then []
    else
      var n := |keys| - 1;
      SelectCases(keys[..n], m, status) + if status.None? || m[keys[n]].status == status.value then [m[keys[n]]] else []
  }

  function OpenedAt(c: SecurityCase): real {
    c.openedAt as real
  }

  /** All cases, or those of one status, oldest first. */
  function ListCases(s: State, status: Option<CaseStatus>): seq<SecurityCase> {
    Sorting.SortBy(SelectCases(s.cases.keys, s.cases.m, status), OpenedAt)
  }

  function FindHandoff(keys: seq<string>, m: map<string, Handoff>, key: string): (r: Option<string>)
    requires forall k | k in keys :: k in m
    ensures r.Some? ==> r.value in keys && m[r.value].idempotencyKey == key
    ensures r.None? ==> forall k | k in keys :: m[k].idempotencyKey != key
  {
    if keys == [] then None
    else if m[keys[0]].idempotencyKey == key then Some(keys[0])
    else FindHandoff(keys[1..], m, key)
  }

  function HandoffByKey(s: State, key: string): (r: Option<Handoff>)
    ensures r.Some? ==> exists k | k in s.handoffs.m :: s.handoffs.m[k] == r.value && r.value.idempotencyKey == key
    ensures r.None? && key != "" ==> forall k | k in s.handoffs.m :: s.handoffs.m[k].idempotencyKey != key
  {
    if key == "" then None
    else
      match FindHandoff(s.handoffs.keys, s.handoffs.m, key)
      case Some(k) => Some(s.handoffs.m[k])
      case None => None
  }

  /** Stores one case and appends events about it. */
  function Commit(s: State, c: SecurityCase, events: seq<Event>): (t: State)
    ensures t.cases.m == s.cases.m[c.caseId := c] && t.events == s.events + events
    ensures t == s.(cases := t.cases, events := t.events)
  {
    s.(cases := s.cases.Put(c.caseId, c), events := s.events + events)
  }

  // --- observation ---

  datatype Observed = Observed(subject: SecurityCase, created: bool, changed: bool, reopened: bool)

  function CaseFromFinding(policy: CasePolicy, f: Finding, stamp: Stamp): SecurityCase {
    ScrubCase(SecurityCase(
      stamp.caseId, f.fingerprint, f.title, f.summary, f.resource,
      Open, f.severity, [], "", "",
      None, None, None, "", false, 0, policy.defaultRequired,
      "", "", [], None, None, "", None,
      stamp.now, Some(stamp.now), None, ""))
  }

  /** The new case as first stored, still open. */
  function OpenedCase(policy: CasePolicy, f: Finding, cycle: string, stamp: Stamp): SecurityCase {
    CaseFromFinding(policy, f, stamp).(
      signature := f.signature, lastFailing := Some(stamp.now), lastEvaluated := Some(stamp.now),
      scanCycle := cycle, findingIds := [f.findingId])
  }

  /** An existing case after a failing observation, before a reopened one is triaged. */
  function FailedCase(c: SecurityCase, f: Finding, cycle: string, now: int): SecurityCase {
    c.(status := if Terminal(c.status) then Open else c.status,
       resolvedAt := if Terminal(c.status) then None else c.resolvedAt,
       previousSignature := c.signature, signature := f.signature, severity := f.severity,
       lastFailing := Some(now), lastEvaluated := Some(now), scanCycle := cycle,
       scanDegraded := false, passCount := 0,
       findingIds := if f.findingId in c.findingIds then c.findingIds else c.findingIds + [f.findingId],
       updatedAt := Some(now))
  }

  function PassedCase(c: SecurityCase, cycle: string, now: int): SecurityCase {
    c.(lastPassing := Some(now), lastEvaluated := Some(now), scanCycle := cycle, scanDegraded := false,
       passCount := c.passCount + 1, updatedAt := Some(now))
  }

  /** A freshly opened or reopened case, moved on to triaged. */
  function TriagedCase(c: SecurityCase, now: int): SecurityCase {
    c.(status := Triaged, updatedAt := Some(now))
  }

  function RecordFailing(policy: CasePolicy, s: State, f: Finding, existing: Option<SecurityCase>, cycle: string, stamp: Stamp)
    : (State, Observed)
  {
    match existing
    case None =>
      var c := TriagedCase(OpenedCase(policy, f, cycle, stamp), stamp.now);
      (Commit(s, c, [NewEvent(c.caseId, Loop, CaseOpened(f.findingId, f.severity)),
                     NewEvent(c.caseId, Loop, MovedToTriaged(Open))]),
       Observed(c, true, true, false))
    case Some(c) =>
      var changed := f.signature != c.signature;
      var c1 := FailedCase(c, f, cycle, stamp.now);
      if Terminal(c.status) then
        var c2 := TriagedCase(c1, stamp.now);
        (Commit(s, c2, [NewEvent(c.caseId, Loop, Reopened(f.findingId, changed)),
                        NewEvent(c.caseId, Loop, MovedToTriaged(Open))]),
         Observed(c2, false, changed, true))
      else
        (Commit(s, c1, [NewEvent(c.caseId, Loop, RefreshFailing(f.findingId, changed))]),
         Observed(c1, false, changed, false))
  }

  function RecordPassing(s: State, c: SecurityCase, cycle: string, now: int): (State, Observed) {
    if Terminal(c.status) then (s, Observed(c, false, false, false))
    else
      var c1 := PassedCase(c, cycle, now);
      (Commit(s, c1, [NewEvent(c.caseId, Loop, PositiveRecheck(c1.passCount, c1.requiredPasses))]),
       Observed(c1, false, true, false))
  }

  function ObserveFinding(policy: CasePolicy, s: State, f: Finding, cycle: string, stamp: Stamp): (State, Observed) {
    var s1 := s.(findings := s.findings.Put(f.findingId, f));
    var existing := CaseByFingerprint(s1, f.fingerprint);
    if !f.passed then RecordFailing(policy, s1, f, existing, cycle, stamp)
    else if existing.Some? then RecordPassing(s1, existing.value, cycle, stamp.now)
    else (s1, Observed(CaseFromFinding(policy, f, stamp), false, false, false))
  }

  function DegradedCase(c: SecurityCase, cycle: string, now: int): SecurityCase {
    c.(scanDegraded := true, scanCycle := cycle, lastEvaluated := Some(now), updatedAt := Some(now))
  }

  function NoteScanDegraded(s: State, caseId: string, cycle: string, now: int): State {
    match s.cases.Get(caseId)
    case None => s
    case Some(c) =>
      Commit(s, DegradedCase(c, cycle, now), [NewEvent(caseId, Loop, ScanDegraded(cycle))])
  }

  // --- lifecycle transitions ---

  /** The two plain moves: `reason` is present exactly for needs_human. */
  function MoveEvent(from: CaseStatus, reason: Option<string>): EventKind {
    if reason.Some? then MovedToNeedsHuman(from, reason.value) else MovedToTriaged(from)
  }

  function MoveTarget(reason: Option<string>): CaseStatus {
    if reason.Some? then NeedsHuman else Triaged
  }

  function MovedCase(c: SecurityCase, reason: Option<string>, now: int): SecurityCase {
    c.(status := MoveTarget(reason), updatedAt := Some(now))
  }

  function Transition(s: State, caseId: string, reason: Option<string>, actor: Actor, now: int)
    : Outcome<Option<SecurityCase>>
  {
    match s.cases.Get(caseId)
    case None => Outcome(s, Ok(None))
    case Some(c) =>
      var target := MoveTarget(reason);
      if c.status == target then Outcome(s, Ok(Some(c)))
      else if !AllowedTransition(c.status, target, actor) then Outcome(s, Err(InvalidTransition(c.status, target)))
      else
        var c1 := MovedCase(c, reason, now);
        Outcome(Commit(s, c1, [NewEvent(caseId, actor, MoveEvent(c.status, reason))]), Ok(Some(c1)))
  }

  function Triage(s: State, caseId: string, actor: Actor, now: int): Outcome<Option<SecurityCase>> {
    Transition(s, caseId, None, actor, now)
  }

  function MarkNeedsHuman(s: State, caseId: string, reason: string, actor: Actor, now: int): Outcome<Option<SecurityCase>> {
    Transition(s, caseId, Some(reason), actor, now)
  }

  function AcknowledgedCase(c: SecurityCase, operator: string, now: int): SecurityCase {
    c.(acknowledgedBy := operator, acknowledgedAt := Some(now), updatedAt := Some(now))
  }

  function Acknowledge(s: State, caseId: string, operator: string, now: int): State {
    match s.cases.Get(caseId)
    case None => s
    case Some(c) =>
      Commit(s, AcknowledgedCase(c, operator, now), [NewEvent(caseId, Operator, Acknowledged(operator))])
  }

  function IssuedCase(c: SecurityCase, url: string, id: string, now: int): SecurityCase {
    c.(issueUrl := url, issueId := id, updatedAt := Some(now))
  }

  function RecordIssue(s: State, caseId: string, url: string, id: string, now: int): State {
    match s.cases.Get(caseId)
    case None => s
    case Some(c) =>
      Commit(s, IssuedCase(c, url, id, now), [NewEvent(caseId, Loop, IssueOpened(url, id))])
  }

  // --- handoffs ---

  datatype Bundle = Bundle(handoff: Handoff, objectives: seq<Objective>)

  function OrElse(s: string, other: string): string {
    if s == "" then other else s
  }

  function ObjectiveText(f: Finding): string {
    OrElse(f.title, OrElse(f.summary, "Remediate " + f.checkId))
  }

  function IdempotencyKey(caseId: string, f: Finding): string {
    SanitizeToken(caseId + ":engineering:" + OrElse(f.objectiveKey, f.checkId) + ":v1", Lhp.ID_LIMIT)
  }

  /** The required texts of the handoff and of its objective are not blank. */
  predicate HandoffReady(f: Finding) {
    && !Blank(ObjectiveText(f))
    && (f.objectiveKey != "" ==> !Blank(f.objectiveKey))
    && !Blank(f.objectiveType)
  }

  /** Generated ids are tokens already, so the validators leave them as they are. */
  function BuildHandoff(f: Finding, c: SecurityCase, passes: nat, stamp: Stamp): Result<Bundle, Error> {
    if !HandoffReady(f) then Err(InvalidField("a required field is blank"))
    else
      Ok(Bundle(
        Handoff(stamp.handoffId, c.caseId,
                SanitizeToken(OrElse(f.objectiveKey, f.checkId + "-remediation-v1"), Lhp.ID_LIMIT),
                Lhp.Requested, IdempotencyKey(c.caseId, f), f.fingerprint, "", stamp.now, stamp.now),
        [Objective(stamp.objectiveId, c.caseId, stamp.handoffId,
                   SanitizeToken(OrElse(f.objectiveKey, f.checkId + "-recheck-v1"), Lhp.ID_LIMIT),
                   SanitizeToken(f.objectiveType, Lhp.ID_LIMIT), Pending, passes, 0, None, stamp.now)]))
  }

  predicate Concerns(o: Objective, handoffId: Option<string>, caseId: Option<string>) {
    && (handoffId.Some? ==> o.handoffId == handoffId.value)
    && (caseId.Some? ==> o.caseId == caseId.value)
  }

  function SelectObjectives(keys: seq<string>, m: map<string, Objective>, handoffId: Option<string>, caseId: Option<string>): seq<Objective>
    requires forall k | k in keys :: k in m
  {
    if keys == [] then []
    else
      var n := |keys| - 1;
      SelectObjectives(keys[..n], m, handoffId, caseId)
      + if Concerns(m[keys[n]], handoffId, caseId) then [m[keys[n]]] else []
  }

  function CreatedAt(o: Objective): real {
    o.createdAt as real
  }

  /** The objectives of a handoff or of a case, oldest first. */
  function ListObjectives(s: State, handoffId: Option<string>, caseId: Option<string>): seq<Objective> {
    Sorting.SortBy(SelectObjectives(s.objectives.keys, s.objectives.m, handoffId, caseId), CreatedAt)
  }

  function PutObjectives(d: Dict<string, Objective>, objectives: seq<Objective>): Dict<string, Objective>
    decreases |objectives|
  {
    if objectives == [] then d
    else PutObjectives(d.Put(objectives[0].objectiveId, objectives[0]), objectives[1..])
  }

  /** `passes` 0 stands for the absent argument; the source treats both alike. */
  function RequestHandoff(s: State, caseId: string, f: Finding, passes: nat, stamp: Stamp): Outcome<Option<Bundle>> {
    match s.cases.Get(caseId)
    case None => Outcome(s, Ok(None))
    case Some(c) =>
      match BuildHandoff(f, c, if passes == 0 then c.requiredPasses else passes, stamp)
      case Err(e) => Outcome(s, Err(e))
      case Ok(bundle) =>
        match HandoffByKey(s, bundle.handoff.idempotencyKey)
        case Some(existing) =>
          Outcome(s, Ok(Some(Bundle(existing, ListObjectives(s, Some(existing.handoffId), None)))))
        case None =>
          var h := bundle.handoff;
          var s1 := s.(handoffs := s.handoffs.Put(h.handoffId, h),
                       objectives := PutObjectives(s.objectives, bundle.objectives));
          var kept := c.status == HandoffRequested || c.status == HandoffInProgress;
          if !kept && !AllowedTransition(c.status, HandoffRequested, Loop) then
            Outcome(s1, Err(InvalidTransition(c.status, HandoffRequested)))
          else
            Outcome(Commit(s1, HandedOffCase(c, h.handoffId, stamp.now), [NewEvent(caseId, Loop, HandoffAsked(h.handoffId, h.objectiveKey))]),
                    Ok(Some(bundle)))
  }

  /** A case that gained a freshly built handoff, whose status is requested. */
  function HandedOffCase(c: SecurityCase, handoffId: string, now: int): SecurityCase {
    c.(status := if c.status == HandoffInProgress then c.status else HandoffRequested,
       handoffIds := if handoffId in c.handoffIds then c.handoffIds else c.handoffIds + [handoffId],
       handoffStatus := Some(Lhp.Requested), lastHandoff := Some(now), updatedAt := Some(now))
  }

  /** The case status an engineering update asks for, if any. */
  function UpdateTarget(updateType: Lhp.UpdateType, status: Lhp.HandoffStatus): Option<CaseStatus> {
    if updateType.ChangeAppliedUpdate? then Some(VerificationPending)
    else
      match status
      case Accepted => Some(HandoffInProgress)
      case InProgress => Some(HandoffInProgress)
      case ChangePlanned => Some(HandoffInProgress)
      case Implemented => Some(VerificationPending)
      case Blocked => Some(CaseStatus.Blocked)
      case Failed => Some(CaseStatus.Failed)
      case NeedsHuman => Some(CaseStatus.NeedsHuman)
      case _ => None
  }

  function StatusAfterUpdate(current: CaseStatus, updateType: Lhp.UpdateType, status: Lhp.HandoffStatus): CaseStatus {
    match UpdateTarget(updateType, status)
    case Some(target) =>
      if current != target && AllowedTransition(current, target, EngineeringLoop) then target else current
    case None => current
  }

  datatype UpdateResult = UpdateResult(handoff: Option<Handoff>, subject: Option<SecurityCase>, created: bool, duplicate: bool)

  function CallbackFor(s: State, eventId: string): Option<Callback> {
    if eventId == "" then None else s.callbacks.Get(eventId)
  }

  /** The inbox record; its own validator sanitises the event id once more. */
  function InboxRecord(u: Lhp.HandoffUpdate, handoffStatus: Lhp.HandoffStatus, caseStatus: Option<CaseStatus>): Callback {
    Callback(SanitizeToken(u.eventId, Lhp.ID_LIMIT), SanitizeToken(u.handoffId, Lhp.ID_LIMIT),
             SanitizeToken(u.caseId, Lhp.ID_LIMIT), handoffStatus, caseStatus)
  }

  function UpdatedCase(c: SecurityCase, u: Lhp.HandoffUpdate, now: int): SecurityCase {
    c.(status := StatusAfterUpdate(c.status, u.updateType, u.status),
       handoffStatus := Some(u.status), updatedAt := Some(now))
  }

  function RecordEngineeringUpdate(s: State, u: Lhp.HandoffUpdate, now: int): Outcome<UpdateResult> {
    if CallbackFor(s, u.eventId).Some? then
      Outcome(s, Ok(UpdateResult(s.handoffs.Get(u.handoffId), s.cases.Get(u.caseId), false, true)))
    else
      match s.handoffs.Get(u.handoffId)
      case None => Outcome(s, Err(UnknownHandoff(u.handoffId)))
      case Some(h) =>
        if !Lhp.AllowedHandoffTransition(h.status, u.status, Lhp.Engineering) then
          Outcome(s, Err(InvalidHandoffTransition(h.status, u.status)))
        else
          var h1 := h.(status := u.status, updatedAt := now);
          var s1 := s.(handoffs := s.handoffs.Put(h1.handoffId, h1));
          match s1.cases.Get(u.caseId)
          case None => AcceptCallback(s1, u, h1, None)
          case Some(c) =>
            var c1 := UpdatedCase(c, u, now);
            AcceptCallback(Commit(s1, c1, [NewEvent(c.caseId, EngineeringLoop, EngineeringUpdated(u.updateType, u.status, u.handoffId))]),
                           u, h1, Some(c1))
  }

  function AcceptCallback(s: State, u: Lhp.HandoffUpdate, h: Handoff, c: Option<SecurityCase>): Outcome<UpdateResult> {
    var record := InboxRecord(u, h.status, if c.Some? then Some(c.value.status) else None);
    Outcome(s.(callbacks := s.callbacks.Put(record.eventId, record)), Ok(UpdateResult(Some(h), c, true, false)))
  }

  // --- verification ---

  datatype VerifierSettings = VerifierSettings(policy: CasePolicy, dryRun: bool, autoResolve: bool)

  datatype VerifyResult = VerifyResult(subject: SecurityCase, wouldResolve: bool, resolved: bool)

  function ResolvedCase(c: SecurityCase, reason: string, now: int): SecurityCase {
    c.(status := Resolved, resolvedAt := Some(now), resolutionReason := reason, updatedAt := Some(now),
       handoffStatus := if c.handoffIds != [] then Some(Lhp.Resolved) else c.handoffStatus)
  }

  function PassedObjective(o: Objective, count: nat, now: int): Objective {
    o.(status := Pass, passCount := count, lastChecked := Some(now))
  }

  /** Every objective of the case becomes passed with the case's count; the others stay. */
  function PassObjectives(d: Dict<string, Objective>, caseId: string, count: nat, now: int): Dict<string, Objective> {
    MapValues(d, (o: Objective) => if o.caseId == caseId then PassedObjective(o, count, now) else o)
  }

  function VerifyCase(settings: VerifierSettings, s: State, caseId: string, reason: string, now: int)
    : (State, Option<VerifyResult>)
  {
    match s.cases.Get(caseId)
    case None => (s, None)
    case Some(c) =>
      if Terminal(c.status) then (s, Some(VerifyResult(c, false, false)))
      else
        var would := CanResolve(settings.policy, c);
        if !(would && settings.autoResolve && !settings.dryRun) then (s, Some(VerifyResult(c, would, false)))
        else
          var c1 := ResolvedCase(c, reason, now);
          (Commit(s.(objectives := PassObjectives(s.objectives, caseId, c.passCount, now)), c1,
                  [NewEvent(caseId, Verifier, CaseResolved(c.status, c.passCount, c.requiredPasses, reason))]),
           Some(VerifyResult(c1, true, true)))
  }
}
