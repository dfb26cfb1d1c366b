/** What one operation does to one case, whatever the rest of the store looks like. */
module CaseMoves {
  import opened Wrappers
  import opened Dicts
  import opened Models
  import opened Policy
  import opened Lifecycle
  import opened Runs
  import opened Invariants
  import opened Preservation
  import LhpTokens
  import Lhp = LhpHandoff

  function AfterFailure(c: SecurityCase, f: Finding, cycle: string, now: int): SecurityCase {
    var c1 := FailedCase(c, f, cycle, now);
    if Terminal(c.status) then TriagedCase(c1, now) else c1
  }

  predicate Resolves(settings: VerifierSettings, c: SecurityCase) {
    Active(c.status) && CanResolve(settings.policy, c) && settings.autoResolve && !settings.dryRun
  }

  /** An update that gets past duplicate detection, the handoff lookup and the handoff transition table. */
  ghost predicate Accepted(s: State, raw: Lhp.RawUpdate) {
    match Lhp.ValidateUpdate(raw)
    case Err(_) => false
    case Ok(u) => AcceptedNow(s, u)
  }

  predicate MayAskHandoff(status: CaseStatus) {
    status == HandoffRequested || status == HandoffInProgress || HandoffRequested in Successors(status)
  }

  /** A handoff request that stores a handoff. */
  ghost predicate StoresHandoff(s: State, id: string, f: Finding) {
    id in s.cases.m && HandoffReady(f) && HandoffByKey(s, IdempotencyKey(id, f)).None?
  }

  /** What operation `a` on store `s` makes of case `c`. */
  ghost function MovedBy(s: State, c: SecurityCase, a: Action): SecurityCase {
    var now := a.stamp.now;
    match a.op
    case Observe(f, cycle, _) =>
      if f.fingerprint != c.fingerprint then c
      else if !f.passed then AfterFailure(c, f, cycle, now)
      else if Terminal(c.status) then c
      else PassedCase(c, cycle, now)
    case NoteDegraded(id, cycle) => if id == c.caseId then DegradedCase(c, cycle, now) else c
    case DoTriage(id, actor) => Moved(c, id, None, actor, now)
    case DoNeedsHuman(id, reason, actor) => Moved(c, id, Some(reason), actor, now)
    case DoAcknowledge(id, operator) => if id == c.caseId then AcknowledgedCase(c, operator, now) else c
    case AskHandoff(id, f, passes) =>
      if id == c.caseId && StoresHandoff(s, id, f) && MayAskHandoff(c.status)
      then HandedOffCase(c, a.stamp.handoffId, now) else c
    case NoteIssue(id, url, issue) => if id == c.caseId then IssuedCase(c, url, issue, now) else c
    case Deliver(raw) =>
      if Accepted(s, raw) && Lhp.ValidateUpdate(raw).value.caseId == c.caseId
      then UpdatedCase(c, Lhp.ValidateUpdate(raw).value, now) else c
    case Verify(id, reason, settings) =>
      if id == c.caseId && Resolves(settings, c) then ResolvedCase(c, reason, now) else c
  }

  function Moved(c: SecurityCase, id: string, reason: Option<string>, actor: Actor, now: int): SecurityCase {
    var target := MoveTarget(reason);
    if id == c.caseId && c.status != target && AllowedTransition(c.status, target, actor) then MovedCase(c, reason, now) else c
  }

  /** The status that operation `a` on store `s` leaves case `c` in. */
  ghost function StatusBy(s: State, c: SecurityCase, a: Action): CaseStatus {
    match a.op
    case Observe(f, _, _) => if f.fingerprint == c.fingerprint && !f.passed && Terminal(c.status) then Triaged else c.status
    case DoTriage(id, actor) => if id == c.caseId && AllowedTransition(c.status, Triaged, actor) then Triaged else c.status
    case DoNeedsHuman(id, _, actor) => if id == c.caseId && AllowedTransition(c.status, NeedsHuman, actor) then NeedsHuman else c.status
    case AskHandoff(id, f, _) =>
      if id == c.caseId && StoresHandoff(s, id, f) && MayAskHandoff(c.status) && c.status != HandoffInProgress
      then HandoffRequested else c.status
    case Deliver(raw) =>
      if Accepted(s, raw) && Lhp.ValidateUpdate(raw).value.caseId == c.caseId
      then StatusAfterUpdate(c.status, raw.updateType, raw.status) else c.status
    case Verify(id, _, settings) => if id == c.caseId && Resolves(settings, c) then Resolved else c.status
    case _ => c.status
  }

  lemma ValidatedKeeps(raw: Lhp.RawUpdate)
    requires Lhp.ValidateUpdate(raw).Ok?
    ensures Lhp.ValidateUpdate(raw).value.updateType == raw.updateType
    ensures Lhp.ValidateUpdate(raw).value.status == raw.status
  {
    hide LhpTokens.RequireToken;
  }

  lemma StatusMoves(s: State, c: SecurityCase, a: Action)
    ensures MovedBy(s, c, a).status == StatusBy(s, c, a)
    ensures MovedBy(s, c, a).fingerprint == c.fingerprint && MovedBy(s, c, a).caseId == c.caseId
  {
    hide Resolves, StoresHandoff, MayAskHandoff, AcceptedNow, Lhp.ValidateUpdate, AllowedTransition, StatusAfterUpdate,
         Successors;
    if a.op.Deliver? && Lhp.ValidateUpdate(a.op.raw).Ok? {
      ValidatedKeeps(a.op.raw);
    } else if a.op.DoTriage? || a.op.DoNeedsHuman? {
      SelfTransition(c.status, if a.op.DoTriage? then Triaged else NeedsHuman, a.op.actor);
    }
  }

  lemma SelfTransition(current: CaseStatus, target: CaseStatus, actor: Actor)
    requires target != Resolved
    ensures current == target ==> AllowedTransition(current, target, actor)
  {
  }

  // --- operation by operation ---

  ghost predicate OwnIds(s: State) {
    forall k | k in s.cases.m :: s.cases.m[k].caseId == k
  }

  /** The lookup finds the one case with the fingerprint, if there is one. */
  lemma FoundCase(s: State, f: Finding)
    requires CasesKeyed(s)
    ensures var found := CaseByFingerprint(s, f.fingerprint);
            && (found.Some? ==>
                  && found.value.caseId in s.cases.m && s.cases.m[found.value.caseId] == found.value
                  && found.value.fingerprint == f.fingerprint)
            && forall k | k in s.cases.m ::
                 s.cases.m[k].fingerprint == f.fingerprint <==> found.Some? && k == found.value.caseId
  {
  }

  lemma FailingMoves(policy: CasePolicy, s: State, f: Finding, existing: Option<SecurityCase>, cycle: string, stamp: Stamp)
    requires existing.Some? ==> existing.value.caseId in s.cases.m && s.cases.m[existing.value.caseId] == existing.value
    ensures RecordFailing(policy, s, f, existing, cycle, stamp).0.cases.m ==
            (match existing
             case None => s.cases.m[stamp.caseId := TriagedCase(OpenedCase(policy, f, cycle, stamp), stamp.now)]
             case Some(c) => s.cases.m[c.caseId := AfterFailure(c, f, cycle, stamp.now)])
  {
    hide Commit, FailedCase, TriagedCase, OpenedCase;
    if existing.Some? {
      FailingIdentity(existing.value, f, cycle, stamp.now);
    } else {
      OpenedIdentity(policy, f, cycle, stamp);
    }
  }

  lemma FailingIdentity(c: SecurityCase, f: Finding, cycle: string, now: int)
    ensures FailedCase(c, f, cycle, now).caseId == c.caseId
    ensures TriagedCase(FailedCase(c, f, cycle, now), now).caseId == c.caseId
  {
  }

  lemma OpenedIdentity(policy: CasePolicy, f: Finding, cycle: string, stamp: Stamp)
    ensures TriagedCase(OpenedCase(policy, f, cycle, stamp), stamp.now).caseId == stamp.caseId
  {
  }

  lemma PassingMoves(s: State, c: SecurityCase, cycle: string, now: int)
    requires c.caseId in s.cases.m && s.cases.m[c.caseId] == c
    ensures RecordPassing(s, c, cycle, now).0.cases.m
         == if Terminal(c.status) then s.cases.m else s.cases.m[c.caseId := PassedCase(c, cycle, now)]
  {
    hide Commit;
  }

  lemma ObserveMoves(policy: CasePolicy, s: State, f: Finding, cycle: string, healthy: bool, stamp: Stamp, id: string)
    requires CasesKeyed(s) && stamp.caseId !in s.cases.m
    ensures var t := ObserveFinding(policy, s, f, cycle, stamp).0;
            && (id in s.cases.m ==> id in t.cases.m && t.cases.m[id] == MovedBy(s, s.cases.m[id], Action(Observe(f, cycle, healthy), stamp)))
            && (id in t.cases.m && id !in s.cases.m ==>
                  !f.passed && id == stamp.caseId && t.cases.m[id] == TriagedCase(OpenedCase(policy, f, cycle, stamp), stamp.now))
  {
    hide CasesKeyed, CaseByFingerprint, RecordFailing, RecordPassing, TriagedCase, OpenedCase, PassedCase, AfterFailure;
    var s1 := s.(findings := s.findings.Put(f.findingId, f));
    assert CasesKeyed(s1) by { SameCasesKeyed(s, s1); }
    FoundCase(s1, f);
    var existing := CaseByFingerprint(s1, f.fingerprint);
    FailingMoves(policy, s1, f, existing, cycle, stamp);
    if existing.Some? {
      PassingMoves(s1, existing.value, cycle, stamp.now);
    }
  }

  lemma SameCasesKeyed(s: State, t: State)
    requires CasesKeyed(s) && t.cases == s.cases
    ensures CasesKeyed(t)
  {
  }

  lemma RequestMoves(policy: CasePolicy, s: State, k: string, f: Finding, passes: nat, stamp: Stamp)
    requires OwnIds(s)
    ensures RequestHandoff(s, k, f, passes, stamp).state.cases.m
         == if k in s.cases.m && StoresHandoff(s, k, f) && MayAskHandoff(s.cases.m[k].status)
            then s.cases.m[k := HandedOffCase(s.cases.m[k], stamp.handoffId, stamp.now)] else s.cases.m
  {
    hide BuildHandoff, RequestHandoff, IdempotencyKey, HandoffByKey, HandedOffCase, HandoffReady, Commit;
    if k in s.cases.m {
      if HandoffReady(f) {
        RequestHandoffCases(s, k, f, passes, stamp);
        BuiltHandoff(f, s.cases.m[k], if passes == 0 then s.cases.m[k].requiredPasses else passes, stamp);
        HandedOffIdentity(s.cases.m[k], stamp);
      } else {
        RequestUnready(s, k, f, passes, stamp);
      }
    } else {
      RequestUnready(s, k, f, passes, stamp);
    }
  }

  lemma HandedOffIdentity(c: SecurityCase, stamp: Stamp)
    ensures HandedOffCase(c, stamp.handoffId, stamp.now).caseId == c.caseId
  {
  }

  lemma UpdateMoves(s: State, u: Lhp.HandoffUpdate, now: int)
    requires OwnIds(s)
    ensures RecordEngineeringUpdate(s, u, now).state.cases.m
         == if AcceptedNow(s, u) && u.caseId in s.cases.m then s.cases.m[u.caseId := UpdatedCase(s.cases.m[u.caseId], u, now)]
            else s.cases.m
  {
    hide InboxRecord, Lhp.AllowedHandoffTransition, CallbackFor, Commit, UpdatedCase;
    if u.caseId in s.cases.m {
      UpdatedIdentity(s.cases.m[u.caseId], u, now);
    }
  }

  lemma UpdatedIdentity(c: SecurityCase, u: Lhp.HandoffUpdate, now: int)
    ensures UpdatedCase(c, u, now).caseId == c.caseId
  {
  }

  /** What `StepMoves` says, for an operation that creates nothing. */
  ghost predicate MovesCase(policy: CasePolicy, s: State, a: Action, id: string) {
    && (id in Step(policy, s, a).cases.m <==> id in s.cases.m)
    && (id in s.cases.m ==> Step(policy, s, a).cases.m[id] == MovedBy(s, s.cases.m[id], a))
  }

  lemma NoteMoves(policy: CasePolicy, s: State, a: Action, id: string)
    requires OwnIds(s) && a.op.NoteDegraded?
    ensures MovesCase(policy, s, a, id)
  {
    hide Commit, DegradedCase;
    if a.op.caseId in s.cases.m {
      DegradedIdentity(s.cases.m[a.op.caseId], a.op.cycle, a.stamp.now);
    }
  }

  lemma DegradedIdentity(c: SecurityCase, cycle: string, now: int)
    ensures DegradedCase(c, cycle, now).caseId == c.caseId
  {
  }

  lemma TriageMoves(policy: CasePolicy, s: State, a: Action, id: string)
    requires OwnIds(s) && a.op.DoTriage?
    ensures MovesCase(policy, s, a, id)
  {
    hide Transition, Moved;
    TransitionCases(s, a.op.caseId, None, a.op.actor, a.stamp.now);
    MovedElsewhere(s, a.op.caseId, None, a.op.actor, a.stamp.now, id);
  }

  lemma EscalationMoves(policy: CasePolicy, s: State, a: Action, id: string)
    requires OwnIds(s) && a.op.DoNeedsHuman?
    ensures MovesCase(policy, s, a, id)
  {
    hide Transition, Moved;
    TransitionCases(s, a.op.caseId, Some(a.op.reason), a.op.actor, a.stamp.now);
    MovedElsewhere(s, a.op.caseId, Some(a.op.reason), a.op.actor, a.stamp.now, id);
  }

  lemma TransitionCases(s: State, k: string, reason: Option<string>, actor: Actor, now: int)
    requires OwnIds(s)
    ensures Transition(s, k, reason, actor, now).state.cases.m
         == if k in s.cases.m then s.cases.m[k := Moved(s.cases.m[k], k, reason, actor, now)] else s.cases.m
  {
    hide AllowedTransition, Commit, MoveTarget, MoveEvent, BoundKind;
  }

  lemma MovedElsewhere(s: State, k: string, reason: Option<string>, actor: Actor, now: int, id: string)
    requires OwnIds(s)
    ensures id in s.cases.m && k != id ==> Moved(s.cases.m[id], k, reason, actor, now) == s.cases.m[id]
  {
    hide MovedCase, AllowedTransition;
  }

  lemma AcknowledgeMoves(policy: CasePolicy, s: State, a: Action, id: string)
    requires OwnIds(s) && a.op.DoAcknowledge?
    ensures MovesCase(policy, s, a, id)
  {
    hide Commit;
  }

  lemma IssueMoves(policy: CasePolicy, s: State, a: Action, id: string)
    requires OwnIds(s) && a.op.NoteIssue?
    ensures MovesCase(policy, s, a, id)
  {
    hide Commit;
  }

  lemma VerifyMoves(policy: CasePolicy, s: State, a: Action, id: string)
    requires OwnIds(s) && a.op.Verify?
    ensures MovesCase(policy, s, a, id)
  {
    hide CanResolve, PassObjectives, Commit;
  }

  lemma DeliverMoves(policy: CasePolicy, s: State, a: Action)
    requires OwnIds(s) && a.op.Deliver?
    ensures Step(policy, s, a).cases.m
         == if Accepted(s, a.op.raw) && Lhp.ValidateUpdate(a.op.raw).value.caseId in s.cases.m
            then
              var u := Lhp.ValidateUpdate(a.op.raw).value;
              s.cases.m[u.caseId := UpdatedCase(s.cases.m[u.caseId], u, a.stamp.now)]
            else s.cases.m
  {
    hide RecordEngineeringUpdate, Lhp.ValidateUpdate, AcceptedNow, UpdatedCase;
    if Lhp.ValidateUpdate(a.op.raw).Ok? {
      UpdateMoves(s, Lhp.ValidateUpdate(a.op.raw).value, a.stamp.now);
    }
  }

  predicate OnNamedCase(op: Op) {
    op.NoteDegraded? || op.DoTriage? || op.DoNeedsHuman? || op.DoAcknowledge? || op.NoteIssue? || op.Verify?
  }

  lemma NamedMoves(policy: CasePolicy, s: State, a: Action, id: string)
    requires OwnIds(s) && OnNamedCase(a.op)
    ensures MovesCase(policy, s, a, id)
  {
    hide MovesCase, OwnIds;
    match a.op
    case NoteDegraded(_, _) => NoteMoves(policy, s, a, id);
    case DoTriage(_, _) => TriageMoves(policy, s, a, id);
    case DoNeedsHuman(_, _, _) => EscalationMoves(policy, s, a, id);
    case DoAcknowledge(_, _) => AcknowledgeMoves(policy, s, a, id);
    case NoteIssue(_, _, _) => IssueMoves(policy, s, a, id);
    case Verify(_, _, _) => VerifyMoves(policy, s, a, id);
  }

  /** Cases are never deleted; each existing one moves as stated, and a new one comes only from a failing observation. */
  lemma StepMoves(policy: CasePolicy, s: State, a: Action, id: string)
    requires CasesKeyed(s) && Admissible(s, a)
    ensures var t := Step(policy, s, a);
            && (id in s.cases.m ==> id in t.cases.m && t.cases.m[id] == MovedBy(s, s.cases.m[id], a))
            && (id in t.cases.m && id !in s.cases.m ==>
                  && a.op.Observe? && !a.op.finding.passed && id == a.stamp.caseId
                  && t.cases.m[id] == TriagedCase(OpenedCase(policy, a.op.finding, a.op.cycle, a.stamp), a.stamp.now))
  {
    hide ObserveFinding, RequestHandoff, CasesKeyed, StoresHandoff, Accepted, MayAskHandoff,
         HandedOffCase, UpdatedCase, TriagedCase, OpenedCase;
    assert OwnIds(s) by { OwnIdsOf(s); }
    if OnNamedCase(a.op) {
      hide Step, MovedBy;
      NamedMoves(policy, s, a, id);
    } else {
      match a.op
      case Observe(f, cycle, healthy) =>
        ObserveMoves(policy, s, f, cycle, healthy, a.stamp, id);
        hide MovedBy;
      case AskHandoff(k, f, passes) => RequestMoves(policy, s, k, f, passes, a.stamp);
      case Deliver(raw) =>
        DeliverMoves(policy, s, a);
        hide Step;
    }
  }

  lemma OwnIdsOf(s: State)
    requires CasesKeyed(s)
    ensures OwnIds(s)
  {
  }
}
