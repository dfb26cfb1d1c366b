/**
 The records that an operation puts into the store, one by one and in the order of the source
 (app/cases/service.py, app/cases/verifier.py). The durable store appends each to the file of its
 kind, so this is also what a run writes to disk.
 */
module WriteLog {
  import opened Wrappers
  import opened Dicts
  import opened Models
  import opened Policy
  import opened Lifecycle
  import opened Runs
  import Lhp = LhpHandoff

  datatype Write =
    | CaseWrite(c: SecurityCase)
    | EventWrite(e: Event)
    | FindingWrite(f: Finding)
    | HandoffWrite(h: Handoff)
    | ObjectiveWrite(o: Objective)
    | CallbackWrite(r: Callback)

  /** What one put makes of the store. */
  function Put(s: State, w: Write): State {
    match w
    case CaseWrite(c) => s.(cases := s.cases.Put(c.caseId, c))
    case EventWrite(e) => s.(events := s.events + [e])
    case FindingWrite(f) => s.(findings := s.findings.Put(f.findingId, f))
    case HandoffWrite(h) => s.(handoffs := s.handoffs.Put(h.handoffId, h))
    case ObjectiveWrite(o) => s.(objectives := s.objectives.Put(o.objectiveId, o))
    case CallbackWrite(r) => s.(callbacks := s.callbacks.Put(r.eventId, r))
  }

  function Play(s: State, ws: seq<Write>): State
    decreases |ws|
  {
    if ws == [] then s else Play(Put(s, ws[0]), ws[1..])
  }

  // --- the writes of each operation ---

  /** A case is stored before the event that tells of its change. */
  function MoveWrites(c: SecurityCase, e: Event): seq<Write> {
    [CaseWrite(c), EventWrite(e)]
  }

  /** An opened or reopened case is stored and announced as open before it is triaged. */
  function FailingWrites(policy: CasePolicy, f: Finding, existing: Option<SecurityCase>, cycle: string, stamp: Stamp): seq<Write> {
    match existing
    case None =>
      var c := OpenedCase(policy, f, cycle, stamp);
      MoveWrites(c, NewEvent(c.caseId, Loop, CaseOpened(f.findingId, f.severity)))
      + MoveWrites(TriagedCase(c, stamp.now), NewEvent(c.caseId, Loop, MovedToTriaged(Open)))
    case Some(c) =>
      var changed := f.signature != c.signature;
      var c1 := FailedCase(c, f, cycle, stamp.now);
      if Terminal(c.status) then
        MoveWrites(c1, NewEvent(c.caseId, Loop, Reopened(f.findingId, changed)))
        + MoveWrites(TriagedCase(c1, stamp.now), NewEvent(c.caseId, Loop, MovedToTriaged(Open)))
      else
        MoveWrites(c1, NewEvent(c.caseId, Loop, RefreshFailing(f.findingId, changed)))
  }

  function PassingWrites(c: SecurityCase, cycle: string, now: int): seq<Write> {
    if Terminal(c.status) then []
    else
      var c1 := PassedCase(c, cycle, now);
      MoveWrites(c1, NewEvent(c.caseId, Loop, PositiveRecheck(c1.passCount, c1.requiredPasses)))
  }

  function ObserveWrites(policy: CasePolicy, s: State, f: Finding, cycle: string, stamp: Stamp): seq<Write> {
    var existing := CaseByFingerprint(Put(s, FindingWrite(f)), f.fingerprint);
    [FindingWrite(f)]
    + (if !f.passed then FailingWrites(policy, f, existing, cycle, stamp)
       else if existing.Some? then PassingWrites(existing.value, cycle, stamp.now)
       else [])
  }

  function DegradedWrites(s: State, caseId: string, cycle: string, now: int): seq<Write> {
    match s.cases.Get(caseId)
    case None => []
    case Some(c) => MoveWrites(DegradedCase(c, cycle, now), NewEvent(caseId, Loop, ScanDegraded(cycle)))
  }

  function TransitionWrites(s: State, caseId: string, reason: Option<string>, actor: Actor, now: int): seq<Write> {
    match s.cases.Get(caseId)
    case None => []
    case Some(c) =>
      var target := MoveTarget(reason);
      if c.status == target || !AllowedTransition(c.status, target, actor) then []
      else MoveWrites(MovedCase(c, reason, now), NewEvent(caseId, actor, MoveEvent(c.status, reason)))
  }

  function AcknowledgeWrites(s: State, caseId: string, operator: string, now: int): seq<Write> {
    match s.cases.Get(caseId)
    case None => []
    case Some(c) => MoveWrites(AcknowledgedCase(c, operator, now), NewEvent(caseId, Operator, Acknowledged(operator)))
  }

  function IssueWrites(s: State, caseId: string, url: string, id: string, now: int): seq<Write> {
    match s.cases.Get(caseId)
    case None => []
    case Some(c) => MoveWrites(IssuedCase(c, url, id, now), NewEvent(caseId, Loop, IssueOpened(url, id)))
  }

  function ObjectiveWrites(objectives: seq<Objective>): seq<Write> {
    seq(|objectives|, i requires 0 <= i < |objectives| => ObjectiveWrite(objectives[i]))
  }

  /** The handoff and its objectives are stored before the status of the case is looked at. */
  function RequestWrites(s: State, caseId: string, f: Finding, passes: nat, stamp: Stamp): seq<Write> {
    match s.cases.Get(caseId)
    case None => []
    case Some(c) =>
      match BuildHandoff(f, c, if passes == 0 then c.requiredPasses else passes, stamp)
      case Err(_) => []
      case Ok(bundle) =>
        var h := bundle.handoff;
        if HandoffByKey(s, h.idempotencyKey).Some? then []
        else
          [HandoffWrite(h)] + ObjectiveWrites(bundle.objectives)
          + (if c.status != HandoffRequested && c.status != HandoffInProgress && !AllowedTransition(c.status, HandoffRequested, Loop) then []
             else MoveWrites(HandedOffCase(c, h.handoffId, stamp.now), NewEvent(caseId, Loop, HandoffAsked(h.handoffId, h.objectiveKey))))
  }

  /** The handoff first, then the named case if there is one, and the inbox record last. */
  function UpdateWrites(s: State, u: Lhp.HandoffUpdate, now: int): seq<Write> {
    if CallbackFor(s, u.eventId).Some? then []
    else
      match s.handoffs.Get(u.handoffId)
      case None => []
      case Some(h) =>
        if !Lhp.AllowedHandoffTransition(h.status, u.status, Lhp.Engineering) then []
        else
          [HandoffWrite(h.(status := u.status, updatedAt := now))]
          + (match s.cases.Get(u.caseId)
             case None => [CallbackWrite(InboxRecord(u, u.status, None))]
             case Some(c) =>
               var c1 := UpdatedCase(c, u, now);
               MoveWrites(c1, NewEvent(c.caseId, EngineeringLoop, EngineeringUpdated(u.updateType, u.status, u.handoffId)))
               + [CallbackWrite(InboxRecord(u, u.status, Some(c1.status)))])
  }

  function PassWrites(objectives: seq<Objective>, count: nat, now: int): seq<Write> {
    seq(|objectives|, i requires 0 <= i < |objectives| => ObjectiveWrite(PassedObjective(objectives[i], count, now)))
  }

  /** The case first, then its objectives from the oldest on, and the event last. */
  function VerifyWrites(settings: VerifierSettings, s: State, caseId: string, reason: string, now: int): seq<Write> {
    match s.cases.Get(caseId)
    case None => []
    case Some(c) =>
      if Terminal(c.status) || !(CanResolve(settings.policy, c) && settings.autoResolve && !settings.dryRun) then []
      else
        [CaseWrite(ResolvedCase(c, reason, now))]
        + PassWrites(ListObjectives(s, None, Some(caseId)), c.passCount, now)
        + [EventWrite(NewEvent(caseId, Verifier, CaseResolved(c.status, c.passCount, c.requiredPasses, reason)))]
  }

  function StepWrites(policy: CasePolicy, s: State, a: Action): seq<Write> {
    var now := a.stamp.now;
    match a.op
    case Observe(f, cycle, _) => ObserveWrites(policy, s, f, cycle, a.stamp)
    case NoteDegraded(id, cycle) => DegradedWrites(s, id, cycle, now)
    case DoTriage(id, actor) => TransitionWrites(s, id, None, actor, now)
    case DoNeedsHuman(id, reason, actor) => TransitionWrites(s, id, Some(reason), actor, now)
    case DoAcknowledge(id, operator) => AcknowledgeWrites(s, id, operator, now)
    case AskHandoff(id, f, passes) => RequestWrites(s, id, f, passes, a.stamp)
    case NoteIssue(id, url, issue) => IssueWrites(s, id, url, issue, now)
    case Deliver(raw) =>
      (match Lhp.ValidateUpdate(raw)
       case Err(_) => []
       case Ok(u) => UpdateWrites(s, u, now))
    case Verify(id, reason, settings) => VerifyWrites(settings, s, id, reason, now)
  }

  /** Everything a run puts into an empty store. */
  function RunLog(policy: CasePolicy, actions: seq<Action>): seq<Write> {
    if actions == [] then []
    else
      var before := actions[..|actions| - 1];
      RunLog(policy, before) + StepWrites(policy, Run(policy, before), actions[|actions| - 1])
  }

  lemma StoredAndTold(start: seq<Write>, c: SecurityCase, e: Event)
    ensures start + [CaseWrite(c)] + [EventWrite(e)] == start + MoveWrites(c, e)
  {
  }

  lemma AppendAssoc(a: seq<Write>, b: seq<Write>, c: seq<Write>)
    ensures a + b + c == a + (b + c)
  {
  }
}
