/** Every operation and every run leaves exactly what its writes leave, put by put. */
module Playback {
  import opened Wrappers
  import opened Dicts
  import opened Models
  import opened Policy
  import opened Lifecycle
  import opened Runs
  import opened CaseMoves
  import opened WriteLog
  import opened Verifier
  import Lhp = LhpHandoff

  // --- an operation is its writes ---

  lemma {:induction false} PlayAppend(s: State, a: seq<Write>, b: seq<Write>)
    ensures Play(s, a + b) == Play(Play(s, a), b)
    decreases |a|
  {
    hide Put;
    if a == [] {
      assert a + b == b;
    } else {
      assert (a + b)[0] == a[0] && (a + b)[1..] == a[1..] + b;
      PlayAppend(Put(s, a[0]), a[1..], b);
    }
  }

  lemma PlayOne(s: State, w: Write)
    ensures Play(s, [w]) == Put(s, w)
  {
    hide Put;
    assert [w][1..] == [];
  }

  lemma PlayCommit(s: State, c: SecurityCase, e: Event)
    ensures Play(s, MoveWrites(c, e)) == Commit(s, c, [e])
  {
    assert MoveWrites(c, e) == [CaseWrite(c)] + [EventWrite(e)];
    PlayAppend(s, [CaseWrite(c)], [EventWrite(e)]);
    PlayOne(s, CaseWrite(c));
    PlayOne(Put(s, CaseWrite(c)), EventWrite(e));
    hide Play;
  }

  lemma CommitTwice(s: State, c: SecurityCase, d: SecurityCase, e: Event, f: Event)
    requires c.caseId == d.caseId
    ensures Commit(Commit(s, c, [e]), d, [f]) == Commit(s, d, [e, f])
  {
    PutTwice(s.cases, c.caseId, c, d);
    assert s.events + [e] + [f] == s.events + [e, f];
  }

  /** Opening and triaging in two steps comes to one commit with both events. */
  lemma PlayTwoMoves(s: State, c: SecurityCase, d: SecurityCase, e: Event, f: Event)
    requires c.caseId == d.caseId
    ensures Play(s, MoveWrites(c, e) + MoveWrites(d, f)) == Commit(s, d, [e, f])
  {
    hide Play, Commit, MoveWrites;
    PlayAppend(s, MoveWrites(c, e), MoveWrites(d, f));
    PlayCommit(s, c, e);
    PlayCommit(Commit(s, c, [e]), d, f);
    CommitTwice(s, c, d, e, f);
  }

  lemma FailingPlays(policy: CasePolicy, s: State, f: Finding, existing: Option<SecurityCase>, cycle: string, stamp: Stamp)
    ensures Play(s, FailingWrites(policy, f, existing, cycle, stamp)) == RecordFailing(policy, s, f, existing, cycle, stamp).0
  {
    hide Play, Commit, BoundKind, MoveWrites, OpenedCase, FailedCase, TriagedCase;
    match existing
    case None =>
      var c := OpenedCase(policy, f, cycle, stamp);
      TriagedIdentity(c, stamp.now);
      PlayTwoMoves(s, c, TriagedCase(c, stamp.now), NewEvent(c.caseId, Loop, CaseOpened(f.findingId, f.severity)),
                   NewEvent(c.caseId, Loop, MovedToTriaged(Open)));
    case Some(c) =>
      var (changed, c1) := (f.signature != c.signature, FailedCase(c, f, cycle, stamp.now));
      TriagedIdentity(c1, stamp.now);
      FailingIdentity(c, f, cycle, stamp.now);
      PlayTwoMoves(s, c1, TriagedCase(c1, stamp.now), NewEvent(c.caseId, Loop, Reopened(f.findingId, changed)),
                   NewEvent(c.caseId, Loop, MovedToTriaged(Open)));
      PlayCommit(s, c1, NewEvent(c1.caseId, Loop, RefreshFailing(f.findingId, changed)));
  }

  lemma TriagedIdentity(c: SecurityCase, now: int)
    ensures TriagedCase(c, now).caseId == c.caseId
  {
  }

  lemma PassingPlays(s: State, c: SecurityCase, cycle: string, now: int)
    ensures Play(s, PassingWrites(c, cycle, now)) == RecordPassing(s, c, cycle, now).0
  {
    hide Play, Commit, BoundKind, MoveWrites, PassedCase;
    PlayNothing(s);
    var c1 := PassedCase(c, cycle, now);
    PassedIdentity(c, cycle, now);
    PlayCommit(s, c1, NewEvent(c1.caseId, Loop, PositiveRecheck(c1.passCount, c1.requiredPasses)));
  }

  lemma PassedIdentity(c: SecurityCase, cycle: string, now: int)
    ensures PassedCase(c, cycle, now).caseId == c.caseId
  {
  }

  lemma ObservePlays(policy: CasePolicy, s: State, f: Finding, cycle: string, stamp: Stamp)
    ensures Play(s, ObserveWrites(policy, s, f, cycle, stamp)) == ObserveFinding(policy, s, f, cycle, stamp).0
  {
    hide Play, CaseByFingerprint, RecordFailing, RecordPassing, FailingWrites, PassingWrites;
    var s1 := Put(s, FindingWrite(f));
    var existing := CaseByFingerprint(s1, f.fingerprint);
    var rest := if !f.passed then FailingWrites(policy, f, existing, cycle, stamp)
                else if existing.Some? then PassingWrites(existing.value, cycle, stamp.now) else [];
    PlayAppend(s, [FindingWrite(f)], rest);
    PlayOne(s, FindingWrite(f));
    FailingPlays(policy, s1, f, existing, cycle, stamp);
    if existing.Some? {
      PassingPlays(s1, existing.value, cycle, stamp.now);
    }
    PlayNothing(s1);
  }

  lemma PlayNothing(s: State)
    ensures Play(s, []) == s
  {
  }

  lemma TransitionPlays(s: State, id: string, reason: Option<string>, actor: Actor, now: int)
    ensures Play(s, TransitionWrites(s, id, reason, actor, now)) == Transition(s, id, reason, actor, now).state
  {
    hide Play, Commit, BoundKind, MoveWrites, MovedCase, AllowedTransition;
    PlayNothing(s);
    if id in s.cases.m {
      var c := s.cases.m[id];
      PlayCommit(s, MovedCase(c, reason, now), NewEvent(id, actor, MoveEvent(c.status, reason)));
    }
  }

  lemma NotedPlays(policy: CasePolicy, s: State, a: Action)
    requires a.op.NoteDegraded? || a.op.DoAcknowledge? || a.op.NoteIssue?
    ensures Play(s, StepWrites(policy, s, a)) == Step(policy, s, a)
  {
    hide Play, Commit, BoundKind, MoveWrites, DegradedCase, AcknowledgedCase, IssuedCase;
    PlayNothing(s);
    var (id, now) := (a.op.caseId, a.stamp.now);
    if id in s.cases.m {
      var c := s.cases.m[id];
      match a.op
      case NoteDegraded(_, cycle) => PlayCommit(s, DegradedCase(c, cycle, now), NewEvent(id, Loop, ScanDegraded(cycle)));
      case DoAcknowledge(_, operator) => PlayCommit(s, AcknowledgedCase(c, operator, now), NewEvent(id, Operator, Acknowledged(operator)));
      case NoteIssue(_, url, issue) => PlayCommit(s, IssuedCase(c, url, issue, now), NewEvent(id, Loop, IssueOpened(url, issue)));
    }
  }

  lemma {:induction false} ObjectivesPlay(s: State, objectives: seq<Objective>)
    ensures Play(s, ObjectiveWrites(objectives)) == s.(objectives := PutObjectives(s.objectives, objectives))
    decreases |objectives|
  {
    if objectives != [] {
      var s1 := Put(s, ObjectiveWrite(objectives[0]));
      assert ObjectiveWrites(objectives)[1..] == ObjectiveWrites(objectives[1..]);
      ObjectivesPlay(s1, objectives[1..]);
    }
  }

  lemma RequestPlays(s: State, id: string, f: Finding, passes: nat, stamp: Stamp)
    ensures Play(s, RequestWrites(s, id, f, passes, stamp)) == RequestHandoff(s, id, f, passes, stamp).state
  {
    hide Play, Commit, BoundKind, MoveWrites, BuildHandoff, HandoffByKey, HandedOffCase, AllowedTransition, ListObjectives, ObjectiveWrites, PutObjectives;
    PlayNothing(s);
    if id in s.cases.m {
      var c := s.cases.m[id];
      var built := BuildHandoff(f, c, if passes == 0 then c.requiredPasses else passes, stamp);
      if built.Ok? {
        var h := built.value.handoff;
        var s1 := Put(s, HandoffWrite(h));
        var s2 := s1.(objectives := PutObjectives(s1.objectives, built.value.objectives));
        var stored := [HandoffWrite(h)] + ObjectiveWrites(built.value.objectives);
        PlayAppend(s, [HandoffWrite(h)], ObjectiveWrites(built.value.objectives));
        PlayOne(s, HandoffWrite(h));
        ObjectivesPlay(s1, built.value.objectives);
        var (c1, e) := (HandedOffCase(c, h.handoffId, stamp.now), NewEvent(id, Loop, HandoffAsked(h.handoffId, h.objectiveKey)));
        PlayAppend(s, stored, MoveWrites(c1, e));
        PlayCommit(s2, c1, e);
        assert stored + [] == stored;
      }
    }
  }

  lemma AcceptPlays(s: State, u: Lhp.HandoffUpdate, h: Handoff, c: Option<SecurityCase>)
    ensures Play(s, [CallbackWrite(InboxRecord(u, h.status, if c.Some? then Some(c.value.status) else None))]) == AcceptCallback(s, u, h, c).state
  {
    hide Play, InboxRecord;
    PlayOne(s, CallbackWrite(InboxRecord(u, h.status, if c.Some? then Some(c.value.status) else None)));
  }

  lemma UpdatePlays(s: State, u: Lhp.HandoffUpdate, now: int)
    ensures Play(s, UpdateWrites(s, u, now)) == RecordEngineeringUpdate(s, u, now).state
  {
    hide Play, Commit, BoundKind, MoveWrites, UpdatedCase, InboxRecord, CallbackFor, AcceptCallback, Lhp.AllowedHandoffTransition;
    PlayNothing(s);
    if u.handoffId in s.handoffs.m {
      var h1 := s.handoffs.m[u.handoffId].(status := u.status, updatedAt := now);
      var s1 := Put(s, HandoffWrite(h1));
      PlayOne(s, HandoffWrite(h1));
      if u.caseId in s.cases.m {
        var c1 := UpdatedCase(s.cases.m[u.caseId], u, now);
        UpdatedKeepsId(s.cases.m[u.caseId], u, now);
        var e := NewEvent(c1.caseId, EngineeringLoop, EngineeringUpdated(u.updateType, u.status, u.handoffId));
        var record := CallbackWrite(InboxRecord(u, u.status, Some(c1.status)));
        PlayAppend(s, [HandoffWrite(h1)], MoveWrites(c1, e) + [record]);
        PlayAppend(s1, MoveWrites(c1, e), [record]);
        PlayCommit(s1, c1, e);
        AcceptPlays(Commit(s1, c1, [e]), u, h1, Some(c1));
      } else {
        PlayAppend(s, [HandoffWrite(h1)], [CallbackWrite(InboxRecord(u, u.status, None))]);
        AcceptPlays(s1, u, h1, None);
      }
    }
  }

  lemma UpdatedKeepsId(c: SecurityCase, u: Lhp.HandoffUpdate, now: int)
    ensures UpdatedCase(c, u, now).caseId == c.caseId
  {
  }

  lemma PassedKeepsId(o: Objective, count: nat, now: int)
    ensures PassedObjective(o, count, now).objectiveId == o.objectiveId
  {
  }

  lemma NothingPassed(list: seq<Objective>, count: nat, now: int)
    requires list == []
    ensures PassWrites(list, count, now) == []
  {
  }

  lemma PassWritesSnoc(list: seq<Objective>, count: nat, now: int)
    requires list != []
    ensures PassWrites(list, count, now)
         == PassWrites(list[..|list| - 1], count, now) + [ObjectiveWrite(PassedObjective(list[|list| - 1], count, now))]
  {
    hide PassedObjective;
  }

  lemma {:induction false} PassEachPlays(s: State, list: seq<Objective>, count: nat, now: int)
    ensures Play(s, PassWrites(list, count, now)) == s.(objectives := PassEach(s.objectives, list, count, now))
  {
    hide Play, PassedObjective, PassWrites;
    if list == [] {
      NothingPassed(list, count, now);
      PlayNothing(s);
    } else {
      var n := |list| - 1;
      var last := ObjectiveWrite(PassedObjective(list[n], count, now));
      PassWritesSnoc(list, count, now);
      assert PassedObjective(list[n], count, now).objectiveId == list[n].objectiveId by { PassedKeepsId(list[n], count, now); }
      PassEachPlays(s, list[..n], count, now);
      PlayAppend(s, PassWrites(list[..n], count, now), [last]);
      PlayOne(Play(s, PassWrites(list[..n], count, now)), last);
    }
  }

  /** Objectives sit under their own ids. */
  lemma VerifyPlays(settings: VerifierSettings, s: State, id: string, reason: string, now: int)
    requires UnderOwnIds(s.objectives)
    ensures Play(s, VerifyWrites(settings, s, id, reason, now)) == VerifyCase(settings, s, id, reason, now).0
  {
    hide Play, BoundKind, ResolvedCase, PassWrites, PassEach, PassObjectives, ListObjectives, CanResolve;
    PlayNothing(s);
    if id in s.cases.m {
      var c := s.cases.m[id];
      var c1 := ResolvedCase(c, reason, now);
      var e := NewEvent(id, Actor.Verifier, CaseResolved(c.status, c.passCount, c.requiredPasses, reason));
      var list := ListObjectives(s, None, Some(id));
      var s1 := Put(s, CaseWrite(c1));
      PlayAppend(s, [CaseWrite(c1)] + PassWrites(list, c.passCount, now), [EventWrite(e)]);
      PlayAppend(s, [CaseWrite(c1)], PassWrites(list, c.passCount, now));
      PlayOne(s, CaseWrite(c1));
      PassEachPlays(s1, list, c.passCount, now);
      PassEachIsPassObjectives(s, id, c.passCount, now);
      PlayOne(s1.(objectives := PassObjectives(s.objectives, id, c.passCount, now)), EventWrite(e));
    }
  }

  lemma MovePlays(policy: CasePolicy, s: State, a: Action)
    requires a.op.DoTriage? || a.op.DoNeedsHuman?
    ensures Play(s, StepWrites(policy, s, a)) == Step(policy, s, a)
  {
    hide Play, TransitionWrites, Transition;
    if a.op.DoTriage? {
      TransitionPlays(s, a.op.caseId, None, a.op.actor, a.stamp.now);
    } else {
      TransitionPlays(s, a.op.caseId, Some(a.op.reason), a.op.actor, a.stamp.now);
    }
  }

  lemma DeliverPlays(policy: CasePolicy, s: State, a: Action)
    requires a.op.Deliver?
    ensures Play(s, StepWrites(policy, s, a)) == Step(policy, s, a)
  {
    hide Play, UpdateWrites, RecordEngineeringUpdate, Lhp.ValidateUpdate;
    PlayNothing(s);
    if Lhp.ValidateUpdate(a.op.raw).Ok? {
      UpdatePlays(s, Lhp.ValidateUpdate(a.op.raw).value, a.stamp.now);
    }
  }

  lemma ObservedPlays(policy: CasePolicy, s: State, a: Action)
    requires a.op.Observe?
    ensures Play(s, StepWrites(policy, s, a)) == Step(policy, s, a)
  {
    hide Play, ObserveWrites, ObserveFinding;
    ObservePlays(policy, s, a.op.finding, a.op.cycle, a.stamp);
  }

  lemma AskedPlays(policy: CasePolicy, s: State, a: Action)
    requires a.op.AskHandoff?
    ensures Play(s, StepWrites(policy, s, a)) == Step(policy, s, a)
  {
    hide Play, RequestWrites, RequestHandoff;
    RequestPlays(s, a.op.caseId, a.op.finding, a.op.passes, a.stamp);
  }

  lemma VerifiedPlays(policy: CasePolicy, s: State, a: Action)
    requires a.op.Verify? && UnderOwnIds(s.objectives)
    ensures Play(s, StepWrites(policy, s, a)) == Step(policy, s, a)
  {
    hide Play, VerifyWrites, VerifyCase, UnderOwnIds, ObserveWrites, ObserveFinding, RequestWrites, RequestHandoff, UpdateWrites,
         RecordEngineeringUpdate, TransitionWrites, Triage, MarkNeedsHuman, Lhp.ValidateUpdate;
    VerifyPlays(a.op.settings, s, a.op.caseId, a.op.reason, a.stamp.now);
  }

  /** Every operation, raising or not, leaves exactly what its writes leave. */
  lemma StepIsItsWrites(policy: CasePolicy, s: State, a: Action)
    requires UnderOwnIds(s.objectives)
    ensures Play(s, StepWrites(policy, s, a)) == Step(policy, s, a)
  {
    hide Play, StepWrites, Step, UnderOwnIds;
    if a.op.NoteDegraded? || a.op.DoAcknowledge? || a.op.NoteIssue? {
      NotedPlays(policy, s, a);
    } else if a.op.DoTriage? || a.op.DoNeedsHuman? {
      MovePlays(policy, s, a);
    } else if a.op.Deliver? {
      DeliverPlays(policy, s, a);
    } else if a.op.Observe? {
      ObservedPlays(policy, s, a);
    } else if a.op.AskHandoff? {
      AskedPlays(policy, s, a);
    } else {
      VerifiedPlays(policy, s, a);
    }
  }

  lemma {:induction false} PlayKeepsOwnIds(s: State, ws: seq<Write>)
    requires UnderOwnIds(s.objectives)
    ensures UnderOwnIds(Play(s, ws).objectives)
    decreases |ws|
  {
    if ws != [] {
      PlayKeepsOwnIds(Put(s, ws[0]), ws[1..]);
    }
  }

  /** So the store after a run is what its log, played from the start, builds up. */
  lemma {:induction false} RunIsItsLog(policy: CasePolicy, actions: seq<Action>)
    ensures Run(policy, actions) == Play(EmptyState(), RunLog(policy, actions))
    ensures UnderOwnIds(Run(policy, actions).objectives)
  {
    hide Play, Step, StepWrites, UnderOwnIds;
    if actions == [] {
      PlayNothing(EmptyState());
      NoObjectives();
    } else {
      var before, a := actions[..|actions| - 1], actions[|actions| - 1];
      var s := Run(policy, before);
      RunIsItsLog(policy, before);
      StepIsItsWrites(policy, s, a);
      PlayKeepsOwnIds(s, StepWrites(policy, s, a));
      PlayAppend(EmptyState(), RunLog(policy, before), StepWrites(policy, s, a));
    }
  }

  lemma NoObjectives()
    ensures UnderOwnIds(EmptyState().objectives)
  {
  }
}
