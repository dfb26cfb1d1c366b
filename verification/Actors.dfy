/** Who is named as the actor of an event (app/cases/service.py, app/cases/verifier.py). */
module Actors {
  import opened Wrappers
  import opened Dicts
  import opened Models
  import opened Policy
  import opened Lifecycle
  import opened Runs
  import opened Preservation
  import Lhp = LhpHandoff

  /** Every kind of event has one actor, except the two plain moves, which name who asked for them. */
  predicate NamesActor(e: Event) {
    match e.kind
    case MovedToTriaged(_) => true
    case MovedToNeedsHuman(_, _) => true
    case Acknowledged(_) => e.actor == Operator
    case EngineeringUpdated(_, _, _) => e.actor == EngineeringLoop
    case CaseResolved(_, _, _, _) => e.actor == Verifier
    case _ => e.actor == Loop
  }

  ghost predicate AllNamed(events: seq<Event>) {
    forall i | 0 <= i < |events| :: NamesActor(events[i])
  }

  lemma BoundNames(id: string, actor: Actor, k: EventKind)
    ensures NamesActor(NewEvent(id, actor, k)) <==> NamesActor(Event(id, actor, k))
  {
    hide BoundText;
  }

  lemma CommitNames(s: State, c: SecurityCase, events: seq<Event>)
    requires AllNamed(s.events) && AllNamed(events)
    ensures AllNamed(Commit(s, c, events).events)
  {
    hide NamesActor;
  }

  lemma OneNames(id: string, actor: Actor, k: EventKind)
    requires NamesActor(Event(id, actor, k))
    ensures AllNamed([NewEvent(id, actor, k)])
  {
    hide NamesActor, BoundKind;
    BoundNames(id, actor, k);
  }

  lemma TwoNames(id: string, k: EventKind, l: EventKind)
    requires NamesActor(Event(id, Loop, k)) && NamesActor(Event(id, Loop, l))
    ensures AllNamed([NewEvent(id, Loop, k), NewEvent(id, Loop, l)])
  {
    hide NamesActor, BoundKind;
    BoundNames(id, Loop, k);
    BoundNames(id, Loop, l);
  }

  lemma FailingNames(policy: CasePolicy, s: State, f: Finding, existing: Option<SecurityCase>, cycle: string, stamp: Stamp)
    requires AllNamed(s.events)
    ensures AllNamed(RecordFailing(policy, s, f, existing, cycle, stamp).0.events)
  {
    hide AllNamed, Commit, BoundKind, FailedCase, TriagedCase, OpenedCase;
    match existing
    case None =>
      var c := TriagedCase(OpenedCase(policy, f, cycle, stamp), stamp.now);
      TwoNames(c.caseId, CaseOpened(f.findingId, f.severity), MovedToTriaged(Open));
      CommitNames(s, c, [NewEvent(c.caseId, Loop, CaseOpened(f.findingId, f.severity)), NewEvent(c.caseId, Loop, MovedToTriaged(Open))]);
    case Some(c) =>
      var (changed, c1) := (f.signature != c.signature, FailedCase(c, f, cycle, stamp.now));
      TwoNames(c.caseId, Reopened(f.findingId, changed), MovedToTriaged(Open));
      OneNames(c.caseId, Loop, RefreshFailing(f.findingId, changed));
      CommitNames(s, TriagedCase(c1, stamp.now), [NewEvent(c.caseId, Loop, Reopened(f.findingId, changed)), NewEvent(c.caseId, Loop, MovedToTriaged(Open))]);
      CommitNames(s, c1, [NewEvent(c.caseId, Loop, RefreshFailing(f.findingId, changed))]);
  }

  lemma PassingNames(s: State, c: SecurityCase, cycle: string, now: int)
    requires AllNamed(s.events)
    ensures AllNamed(RecordPassing(s, c, cycle, now).0.events)
  {
    hide AllNamed, Commit, BoundKind, PassedCase;
    var c1 := PassedCase(c, cycle, now);
    OneNames(c.caseId, Loop, PositiveRecheck(c1.passCount, c1.requiredPasses));
    CommitNames(s, c1, [NewEvent(c.caseId, Loop, PositiveRecheck(c1.passCount, c1.requiredPasses))]);
  }

  lemma ObservationNames(policy: CasePolicy, s: State, a: Action)
    requires a.op.Observe? && AllNamed(s.events)
    ensures AllNamed(Step(policy, s, a).events)
  {
    hide AllNamed, RecordFailing, RecordPassing, CaseByFingerprint;
    var f := a.op.finding;
    var s1 := s.(findings := s.findings.Put(f.findingId, f));
    var existing := CaseByFingerprint(s1, f.fingerprint);
    FailingNames(policy, s1, f, existing, a.op.cycle, a.stamp);
    if existing.Some? {
      PassingNames(s1, existing.value, a.op.cycle, a.stamp.now);
    }
  }

  lemma NotedNames(policy: CasePolicy, s: State, a: Action)
    requires (a.op.NoteDegraded? || a.op.DoAcknowledge? || a.op.NoteIssue?) && AllNamed(s.events)
    ensures AllNamed(Step(policy, s, a).events)
  {
    hide AllNamed, Commit, BoundKind, DegradedCase, AcknowledgedCase, IssuedCase;
    var (id, now) := (a.op.caseId, a.stamp.now);
    if id in s.cases.m {
      var c := s.cases.m[id];
      match a.op
      case NoteDegraded(_, cycle) =>
        OneNames(id, Loop, ScanDegraded(cycle));
        CommitNames(s, DegradedCase(c, cycle, now), [NewEvent(id, Loop, ScanDegraded(cycle))]);
      case DoAcknowledge(_, operator) =>
        OneNames(id, Operator, Acknowledged(operator));
        CommitNames(s, AcknowledgedCase(c, operator, now), [NewEvent(id, Operator, Acknowledged(operator))]);
      case NoteIssue(_, url, issue) =>
        OneNames(id, Loop, IssueOpened(url, issue));
        CommitNames(s, IssuedCase(c, url, issue, now), [NewEvent(id, Loop, IssueOpened(url, issue))]);
    }
  }

  lemma TransitionNames(s: State, id: string, reason: Option<string>, actor: Actor, now: int)
    requires AllNamed(s.events)
    ensures AllNamed(Transition(s, id, reason, actor, now).state.events)
  {
    hide AllNamed, Commit, BoundKind, MovedCase, AllowedTransition;
    if id in s.cases.m {
      var c := s.cases.m[id];
      OneNames(id, actor, MoveEvent(c.status, reason));
      CommitNames(s, MovedCase(c, reason, now), [NewEvent(id, actor, MoveEvent(c.status, reason))]);
    }
  }

  lemma MoveNames(policy: CasePolicy, s: State, a: Action)
    requires (a.op.DoTriage? || a.op.DoNeedsHuman?) && AllNamed(s.events)
    ensures AllNamed(Step(policy, s, a).events)
  {
    hide AllNamed, Transition;
    TransitionNames(s, a.op.caseId, if a.op.DoTriage? then None else Some(a.op.reason), a.op.actor, a.stamp.now);
  }

  lemma VerifyNames(policy: CasePolicy, s: State, a: Action)
    requires a.op.Verify? && AllNamed(s.events)
    ensures AllNamed(Step(policy, s, a).events)
  {
    hide BoundText, CanResolve, PassObjectives, ResolvedCase;
  }

  lemma RequestNames(policy: CasePolicy, s: State, a: Action)
    requires a.op.AskHandoff? && AllNamed(s.events)
    ensures AllNamed(Step(policy, s, a).events)
  {
    hide BoundText, BuildHandoff, HandoffByKey, HandedOffCase, PutObjectives, AllowedTransition, ListObjectives;
  }

  lemma UpdateNames(s: State, u: Lhp.HandoffUpdate, now: int)
    requires AllNamed(s.events)
    ensures AllNamed(RecordEngineeringUpdate(s, u, now).state.events)
  {
    hide AllNamed, RecordEngineeringUpdate, AcceptedNow, Commit, BoundKind, UpdatedCase, InboxRecord;
    UpdateCases(s, u, now);
    if AcceptedNow(s, u) && u.caseId in s.cases.m {
      assert u.handoffId in s.handoffs.m by { StoredHandoff(s, u); }
      var c := s.cases.m[u.caseId];
      var e := NewEvent(c.caseId, EngineeringLoop, EngineeringUpdated(u.updateType, u.status, u.handoffId));
      OneNames(c.caseId, EngineeringLoop, EngineeringUpdated(u.updateType, u.status, u.handoffId));
      CommitNames(WithHandoffStatus(s, u.handoffId, u.status, now), UpdatedCase(c, u, now), [e]);
    }
  }

  lemma StoredHandoff(s: State, u: Lhp.HandoffUpdate)
    requires AcceptedNow(s, u)
    ensures u.handoffId in s.handoffs.m
  {
  }

  lemma DeliveryNames(policy: CasePolicy, s: State, a: Action)
    requires a.op.Deliver? && AllNamed(s.events)
    ensures AllNamed(Step(policy, s, a).events)
  {
    hide AllNamed, RecordEngineeringUpdate, Lhp.ValidateUpdate;
    if Lhp.ValidateUpdate(a.op.raw).Ok? {
      UpdateNames(s, Lhp.ValidateUpdate(a.op.raw).value, a.stamp.now);
    }
  }

  /** Over every run the trail names the verifier for every resolution, engineering for every update,
      the operator for every acknowledgement, and the loop for the rest. */
  lemma {:induction false} RunNamesActors(policy: CasePolicy, actions: seq<Action>)
    ensures AllNamed(Run(policy, actions).events)
  {
    hide Step, AllNamed;
    if actions == [] {
      NothingNamed();
    } else {
      var before, a := actions[..|actions| - 1], actions[|actions| - 1];
      var s := Run(policy, before);
      RunNamesActors(policy, before);
      if a.op.Observe? {
        ObservationNames(policy, s, a);
      } else if a.op.AskHandoff? {
        RequestNames(policy, s, a);
      } else if a.op.Deliver? {
        DeliveryNames(policy, s, a);
      } else if a.op.Verify? {
        VerifyNames(policy, s, a);
      } else if a.op.DoTriage? || a.op.DoNeedsHuman? {
        MoveNames(policy, s, a);
      } else {
        NotedNames(policy, s, a);
      }
    }
  }

  lemma NothingNamed()
    ensures AllNamed([])
  {
  }
}
