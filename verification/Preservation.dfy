/** Every operation keeps the invariant, so every run does. */
module Preservation {
  import opened Wrappers
  import opened Dicts
  import opened Models
  import opened Policy
  import opened Lifecycle
  import opened Audit
  import opened Runs
  import opened Invariants
  import LhpTokens
  import Labels
  import Lhp = LhpHandoff

  /** `c1` is `c` after one event that tells all that changed: same identity, same links, still sane. */
  ghost predicate Follows(policy: CasePolicy, c: SecurityCase, c1: SecurityCase, e: EventKind) {
    && c1.caseId == c.caseId && c1.fingerprint == c.fingerprint && c1.handoffIds == c.handoffIds
    && CaseSane(policy, c1) && Advance(Project(c), e) == Project(c1)
  }

  ghost predicate Follows2(policy: CasePolicy, c: SecurityCase, c1: SecurityCase, e0: EventKind, e1: EventKind) {
    && c1.caseId == c.caseId && c1.fingerprint == c.fingerprint && c1.handoffIds == c.handoffIds
    && CaseSane(policy, c1) && Advance(Advance(Project(c), e0), e1) == Project(c1)
  }

  lemma CommitOne(policy: CasePolicy, s: State, c: SecurityCase, c1: SecurityCase, e: Event)
    requires Inv(policy, s) && c.caseId in s.cases.m && s.cases.m[c.caseId] == c
    requires e.caseId == c.caseId && Follows(policy, c, c1, e.kind)
    ensures Inv(policy, Commit(s, c1, [e]))
  {
    ReplayOne(LogOf(s.events, c.caseId), e);
    hide CaseSane, Advance, Project, LogOf, Replay;
    assert CaseLinked(s, c);
    CommitKeepsInv(policy, s, c1, [e]);
  }

  lemma CommitTwo(policy: CasePolicy, s: State, c: SecurityCase, c1: SecurityCase, e0: Event, e1: Event)
    requires Inv(policy, s) && c.caseId in s.cases.m && s.cases.m[c.caseId] == c
    requires e0.caseId == e1.caseId == c.caseId && Follows2(policy, c, c1, e0.kind, e1.kind)
    ensures Inv(policy, Commit(s, c1, [e0, e1]))
  {
    ReplayTwo(LogOf(s.events, c.caseId), e0, e1);
    hide CaseSane, Advance, Project, LogOf, Replay;
    assert CaseLinked(s, c);
    CommitKeepsInv(policy, s, c1, [e0, e1]);
  }

  /** A case gaining a handoff that is already stored. */
  lemma CommitLinked(policy: CasePolicy, s: State, c: SecurityCase, c1: SecurityCase, e: Event)
    requires Inv(policy, s) && c.caseId in s.cases.m && s.cases.m[c.caseId] == c
    requires e.caseId == c1.caseId == c.caseId && c1.fingerprint == c.fingerprint
    requires CaseSane(policy, c1) && CaseLinked(s, c1) && Advance(Project(c), e.kind) == Project(c1)
    ensures Inv(policy, Commit(s, c1, [e]))
  {
    ReplayOne(LogOf(s.events, c.caseId), e);
    hide CaseSane, CaseLinked, Advance, Project, LogOf, Replay;
    CommitKeepsInv(policy, s, c1, [e]);
  }

  /** A stored case is found under its own id and has the invariant's local properties. */
  lemma StoredCase(policy: CasePolicy, s: State, id: string)
    requires Inv(policy, s) && id in s.cases.m
    ensures s.cases.m[id].caseId == id && CaseSane(policy, s.cases.m[id]) && CaseLinked(s, s.cases.m[id])
  {
  }

  lemma PutFindingKeepsInv(policy: CasePolicy, s: State, f: Finding)
    requires Inv(policy, s)
    ensures Inv(policy, s.(findings := s.findings.Put(f.findingId, f)))
  {
    hide CaseSane, Replay, LogOf, Project;
    var t := s.(findings := s.findings.Put(f.findingId, f));
    ObjectivesLinkedKept(s, t);
    forall k | k in t.cases.m ensures CaseLinked(t, t.cases.m[k]) {
      assert CaseLinked(s, t.cases.m[k]);
    }
  }

  lemma OpenedCaseSane(policy: CasePolicy, f: Finding, cycle: string, stamp: Stamp)
    requires Scrubbed(f)
    ensures var c := TriagedCase(OpenedCase(policy, f, cycle, stamp), stamp.now);
            && CaseSane(policy, c) && c.handoffIds == []
            && Advance(Advance(Unborn(), BoundKind(CaseOpened(f.findingId, f.severity))), BoundKind(MovedToTriaged(Open))) == Project(c)
  {
    hide Labels.SanitizeLabel, BoundText;
    var raw: Finding :| f == ScrubFinding(raw);
    Labels.SanitizeLabelStabilises(raw.title, TITLE_LIMIT);
    Labels.SanitizeLabelStabilises(raw.resource, RESOURCE_LIMIT);
    Labels.SanitizeLabelStabilises(raw.summary, SUMMARY_LIMIT);
  }

  lemma OpenCaseKeepsInv(policy: CasePolicy, s: State, f: Finding, cycle: string, stamp: Stamp)
    requires Inv(policy, s) && stamp.caseId !in s.cases.m && Scrubbed(f)
    requires forall k | k in s.cases.m :: s.cases.m[k].fingerprint != f.fingerprint
    ensures Inv(policy, RecordFailing(policy, s, f, None, cycle, stamp).0)
  {
    var c := TriagedCase(OpenedCase(policy, f, cycle, stamp), stamp.now);
    var e0 := NewEvent(c.caseId, Loop, CaseOpened(f.findingId, f.severity));
    var e1 := NewEvent(c.caseId, Loop, MovedToTriaged(Open));
    OpenedCaseSane(policy, f, cycle, stamp);
    UnbornHasNoLog(s, c.caseId);
    ReplayTwo([], e0, e1);
    assert [] + [e0, e1] == [e0, e1];
    assert Replay([]) == Unborn();
    assert c.caseId == stamp.caseId && c.fingerprint == f.fingerprint;
    hide CaseSane, ScrubCase, Advance, Project, LogOf, Replay, OpenedCase, TriagedCase;
    CommitKeepsInv(policy, s, c, [e0, e1]);
  }

  lemma FailedCaseSane(policy: CasePolicy, c: SecurityCase, f: Finding, cycle: string, now: int, changed: bool)
    requires CaseSane(policy, c)
    ensures var c1 := FailedCase(c, f, cycle, now);
            if Terminal(c.status) then Follows2(policy, c, TriagedCase(c1, now), BoundKind(Reopened(f.findingId, changed)), BoundKind(MovedToTriaged(Open)))
            else Follows(policy, c, c1, BoundKind(RefreshFailing(f.findingId, changed)))
  {
    hide LabelsStable, BoundText;
  }

  lemma RefreshKeepsInv(policy: CasePolicy, s: State, f: Finding, c: SecurityCase, cycle: string, stamp: Stamp)
    requires Inv(policy, s) && c.caseId in s.cases.m && s.cases.m[c.caseId] == c
    ensures Inv(policy, RecordFailing(policy, s, f, Some(c), cycle, stamp).0)
  {
    hide Inv, CaseSane, CaseLinked, Commit, BoundKind, Project, Advance, FailedCase, TriagedCase, Follows, Follows2;
    StoredCase(policy, s, c.caseId);
    var changed := f.signature != c.signature;
    FailedCaseSane(policy, c, f, cycle, stamp.now, changed);
    var c1 := FailedCase(c, f, cycle, stamp.now);
    if Terminal(c.status) {
      CommitTwo(policy, s, c, TriagedCase(c1, stamp.now), NewEvent(c.caseId, Loop, Reopened(f.findingId, changed)),
                NewEvent(c.caseId, Loop, MovedToTriaged(Open)));
    } else {
      CommitOne(policy, s, c, c1, NewEvent(c.caseId, Loop, RefreshFailing(f.findingId, changed)));
    }
  }

  lemma PassedCaseSane(policy: CasePolicy, c: SecurityCase, cycle: string, now: int)
    requires CaseSane(policy, c)
    ensures var c1 := PassedCase(c, cycle, now);
            Follows(policy, c, c1, BoundKind(PositiveRecheck(c1.passCount, c1.requiredPasses)))
  {
    hide LabelsStable, BoundText;
  }

  lemma PassKeepsInv(policy: CasePolicy, s: State, c: SecurityCase, cycle: string, now: int)
    requires Inv(policy, s) && c.caseId in s.cases.m && s.cases.m[c.caseId] == c
    ensures Inv(policy, RecordPassing(s, c, cycle, now).0)
  {
    hide Inv, CaseSane, CaseLinked, Commit, BoundKind, Project, Advance, PassedCase, Follows;
    StoredCase(policy, s, c.caseId);
    PassedCaseSane(policy, c, cycle, now);
    if Active(c.status) {
      var c1 := PassedCase(c, cycle, now);
      CommitOne(policy, s, c, c1, NewEvent(c.caseId, Loop, PositiveRecheck(c1.passCount, c1.requiredPasses)));
    }
  }

  lemma ObserveKeepsInv(policy: CasePolicy, s: State, f: Finding, cycle: string, stamp: Stamp)
    requires Inv(policy, s) && stamp.caseId !in s.cases.m && Scrubbed(f)
    ensures Inv(policy, ObserveFinding(policy, s, f, cycle, stamp).0)
  {
    hide Inv, RecordFailing, RecordPassing, CaseSane, CaseLinked;
    var s1 := s.(findings := s.findings.Put(f.findingId, f));
    PutFindingKeepsInv(policy, s, f);
    var existing := CaseByFingerprint(s1, f.fingerprint);
    if existing.Some? {
      var k :| k in s1.cases.m && s1.cases.m[k] == existing.value;
      StoredCase(policy, s1, k);
      RefreshKeepsInv(policy, s1, f, existing.value, cycle, stamp);
      PassKeepsInv(policy, s1, existing.value, cycle, stamp.now);
    } else {
      OpenCaseKeepsInv(policy, s1, f, cycle, stamp);
    }
  }

  lemma DegradedCaseSane(policy: CasePolicy, c: SecurityCase, cycle: string, now: int)
    requires CaseSane(policy, c)
    ensures Follows(policy, c, DegradedCase(c, cycle, now), BoundKind(ScanDegraded(cycle)))
  {
    hide LabelsStable, BoundText;
  }

  lemma NoteKeepsInv(policy: CasePolicy, s: State, id: string, cycle: string, now: int)
    requires Inv(policy, s)
    ensures Inv(policy, NoteScanDegraded(s, id, cycle, now))
  {
    hide Inv, CaseSane, CaseLinked, Commit, BoundKind, Project, Advance, Follows, DegradedCase;
    if id in s.cases.m {
      StoredCase(policy, s, id);
      DegradedCaseSane(policy, s.cases.m[id], cycle, now);
      CommitOne(policy, s, s.cases.m[id], DegradedCase(s.cases.m[id], cycle, now), NewEvent(id, Loop, ScanDegraded(cycle)));
    }
  }

  lemma MovedCaseSane(policy: CasePolicy, c: SecurityCase, reason: Option<string>, now: int)
    requires CaseSane(policy, c)
    ensures Follows(policy, c, MovedCase(c, reason, now), BoundKind(MoveEvent(c.status, reason)))
  {
    hide LabelsStable, BoundText;
  }

  lemma TransitionKeepsInv(policy: CasePolicy, s: State, id: string, reason: Option<string>, actor: Actor, now: int)
    requires Inv(policy, s)
    ensures Inv(policy, Transition(s, id, reason, actor, now).state)
  {
    hide Inv, CaseSane, CaseLinked, Commit, BoundKind, Project, Advance, Follows, MovedCase, MoveEvent, MoveTarget, AllowedTransition;
    if id in s.cases.m {
      StoredCase(policy, s, id);
      var c := s.cases.m[id];
      MovedCaseSane(policy, c, reason, now);
      CommitOne(policy, s, c, MovedCase(c, reason, now), NewEvent(id, actor, MoveEvent(c.status, reason)));
    }
  }

  lemma AcknowledgedCaseSane(policy: CasePolicy, c: SecurityCase, operator: string, now: int)
    requires CaseSane(policy, c)
    ensures Follows(policy, c, AcknowledgedCase(c, operator, now), BoundKind(Acknowledged(operator)))
  {
    hide LabelsStable, BoundText;
  }

  lemma AcknowledgeKeepsInv(policy: CasePolicy, s: State, id: string, operator: string, now: int)
    requires Inv(policy, s)
    ensures Inv(policy, Acknowledge(s, id, operator, now))
  {
    hide Inv, CaseSane, CaseLinked, Commit, BoundKind, Project, Advance, Follows, AcknowledgedCase;
    if id in s.cases.m {
      StoredCase(policy, s, id);
      AcknowledgedCaseSane(policy, s.cases.m[id], operator, now);
      CommitOne(policy, s, s.cases.m[id], AcknowledgedCase(s.cases.m[id], operator, now), NewEvent(id, Operator, Acknowledged(operator)));
    }
  }

  lemma IssuedCaseSane(policy: CasePolicy, c: SecurityCase, url: string, issue: string, now: int)
    requires CaseSane(policy, c)
    ensures Follows(policy, c, IssuedCase(c, url, issue, now), BoundKind(IssueOpened(url, issue)))
  {
    hide LabelsStable, BoundText;
  }

  lemma IssueKeepsInv(policy: CasePolicy, s: State, id: string, url: string, issue: string, now: int)
    requires Inv(policy, s)
    ensures Inv(policy, RecordIssue(s, id, url, issue, now))
  {
    hide Inv, CaseSane, CaseLinked, Commit, BoundKind, Project, Advance, Follows, IssuedCase;
    if id in s.cases.m {
      StoredCase(policy, s, id);
      IssuedCaseSane(policy, s.cases.m[id], url, issue, now);
      CommitOne(policy, s, s.cases.m[id], IssuedCase(s.cases.m[id], url, issue, now), NewEvent(id, Loop, IssueOpened(url, issue)));
    }
  }

  // --- handoffs ---

  /** The store with a new handoff and its objective. */
  function WithHandoff(s: State, h: Handoff, o: Objective): State {
    s.(handoffs := s.handoffs.Put(h.handoffId, h), objectives := s.objectives.Put(o.objectiveId, o))
  }

  lemma NewHandoffKeepsInv(policy: CasePolicy, s: State, h: Handoff, o: Objective)
    requires Inv(policy, s)
    requires h.handoffId !in s.handoffs.m && o.objectiveId !in s.objectives.m
    requires o.handoffId == h.handoffId && o.caseId == h.caseId && h.idempotencyKey != ""
    requires forall k | k in s.handoffs.m :: s.handoffs.m[k].idempotencyKey != h.idempotencyKey
    ensures Inv(policy, WithHandoff(s, h, o))
  {
    var t := WithHandoff(s, h, o);
    NewObjectiveLinked(s, h, o);
    NewHandoffKeyed(s, h, o);
    hide ObjectivesLinked, HandoffsKeyed;
    LinkedGrows(s, t);
    SameCases(policy, s, t);
    hide Linked, CasesKeyed, Sane, Audited;
  }

  lemma NewHandoffKeyed(s: State, h: Handoff, o: Objective)
    requires HandoffsKeyed(s) && h.handoffId !in s.handoffs.m && h.idempotencyKey != ""
    requires forall k | k in s.handoffs.m :: s.handoffs.m[k].idempotencyKey != h.idempotencyKey
    ensures HandoffsKeyed(WithHandoff(s, h, o))
  {
  }

  lemma LinkedGrows(s: State, t: State)
    requires Linked(s) && t.cases == s.cases
    requires forall k | k in s.handoffs.m :: k in t.handoffs.m && t.handoffs.m[k].caseId == s.handoffs.m[k].caseId
    ensures Linked(t)
  {
    forall k | k in t.cases.m ensures CaseLinked(t, t.cases.m[k]) {
      assert CaseLinked(s, t.cases.m[k]);
    }
  }

  lemma SameCases(policy: CasePolicy, s: State, t: State)
    requires t.cases == s.cases && t.events == s.events
    requires CasesKeyed(s) && Sane(policy, s) && Audited(s)
    ensures CasesKeyed(t) && Sane(policy, t) && Audited(t)
  {
    hide CaseSane, Replay, LogOf, Project;
  }

  lemma NewObjectiveLinked(s: State, h: Handoff, o: Objective)
    requires ObjectivesLinked(s)
    requires h.handoffId !in s.handoffs.m && o.objectiveId !in s.objectives.m
    requires o.handoffId == h.handoffId && o.caseId == h.caseId
    ensures ObjectivesLinked(WithHandoff(s, h, o))
  {
    var t := WithHandoff(s, h, o);
    forall k | k in t.handoffs.m ensures exists p :: ObjectiveOf(t, p, k) {
      if k == h.handoffId {
        assert ObjectiveOf(t, o.objectiveId, k);
      } else {
        var p :| ObjectiveOf(s, p, k);
        assert ObjectiveOf(t, p, k);
      }
    }
    forall p | p in t.objectives.m ensures ObjectiveOf(t, p, t.objectives.m[p].handoffId) {
      if p != o.objectiveId {
        assert ObjectiveOf(s, p, s.objectives.m[p].handoffId);
      }
    }
    forall p, q | p in t.objectives.m && q in t.objectives.m && t.objectives.m[p].handoffId == t.objectives.m[q].handoffId
      ensures p == q
    {
      if p != o.objectiveId { assert ObjectiveOf(s, p, s.objectives.m[p].handoffId); }
      if q != o.objectiveId { assert ObjectiveOf(s, q, s.objectives.m[q].handoffId); }
    }
  }

  lemma BuiltHandoff(f: Finding, c: SecurityCase, passes: nat, stamp: Stamp)
    requires HandoffReady(f)
    ensures BuildHandoff(f, c, passes, stamp).Ok?
    ensures var bundle := BuildHandoff(f, c, passes, stamp).value;
            var h := bundle.handoff;
            && |bundle.objectives| == 1
            && h.handoffId == stamp.handoffId && h.caseId == c.caseId && h.status == Lhp.Requested
            && h.idempotencyKey == IdempotencyKey(c.caseId, f) && h.idempotencyKey != ""
            && bundle.objectives[0].objectiveId == stamp.objectiveId
            && bundle.objectives[0].handoffId == h.handoffId && bundle.objectives[0].caseId == h.caseId
            && bundle.objectives[0].requiredPasses == passes
  {
    hide LhpTokens.SanitizeToken, HandoffReady;
    LhpTokens.TokenShape(c.caseId + ":engineering:" + OrElse(f.objectiveKey, f.checkId) + ":v1", Lhp.ID_LIMIT);
  }

  /** The three outcomes of a request on an existing case with a well-formed finding. */
  lemma RequestHandoffCases(s: State, id: string, f: Finding, passes: nat, stamp: Stamp)
    requires id in s.cases.m && s.cases.m[id].caseId == id && HandoffReady(f)
    ensures var c := s.cases.m[id];
            var built := BuildHandoff(f, c, if passes == 0 then c.requiredPasses else passes, stamp);
            var r := RequestHandoff(s, id, f, passes, stamp);
            && built.Ok? && |built.value.objectives| == 1
            && var h := built.value.handoff;
               var s1 := WithHandoff(s, h, built.value.objectives[0]);
               if HandoffByKey(s, IdempotencyKey(id, f)).Some? then
                 r.state == s && r.result.Ok?
               else if c.status != HandoffRequested && c.status != HandoffInProgress && HandoffRequested !in Successors(c.status) then
                 r == Outcome(s1, Err(InvalidTransition(c.status, HandoffRequested)))
               else
                 r == Outcome(Commit(s1, HandedOffCase(c, h.handoffId, stamp.now), [NewEvent(id, Loop, HandoffAsked(h.handoffId, h.objectiveKey))]),
                              Ok(Some(built.value)))
  {
    var c := s.cases.m[id];
    var p := if passes == 0 then c.requiredPasses else passes;
    BuiltHandoff(f, c, p, stamp);
    var bundle := BuildHandoff(f, c, p, stamp).value;
    assert PutObjectives(s.objectives, bundle.objectives)
        == s.objectives.Put(bundle.objectives[0].objectiveId, bundle.objectives[0]) by {
      assert bundle.objectives[1..] == [];
    }
    hide BuildHandoff, IdempotencyKey, ListObjectives, HandoffReady, HandedOffCase, PutObjectives;
  }

  lemma HandedOffCaseSane(policy: CasePolicy, c: SecurityCase, h: Handoff, now: int)
    requires CaseSane(policy, c) && BoundText(h.handoffId) == h.handoffId
    ensures CaseSane(policy, HandedOffCase(c, h.handoffId, now))
    ensures HandedOffCase(c, h.handoffId, now).caseId == c.caseId && HandedOffCase(c, h.handoffId, now).fingerprint == c.fingerprint
    ensures forall k | k in HandedOffCase(c, h.handoffId, now).handoffIds :: k in c.handoffIds || k == h.handoffId
    ensures Advance(Project(c), BoundKind(HandoffAsked(h.handoffId, h.objectiveKey))) == Project(HandedOffCase(c, h.handoffId, now))
  {
    hide LabelsStable, BoundText;
  }

  /** Storing a built handoff and linking its case. */
  lemma LinkHandoffKeepsInv(policy: CasePolicy, s: State, c: SecurityCase, h: Handoff, o: Objective, now: int)
    requires Inv(policy, s) && c.caseId in s.cases.m && s.cases.m[c.caseId] == c
    requires h.handoffId !in s.handoffs.m && o.objectiveId !in s.objectives.m
    requires o.handoffId == h.handoffId && o.caseId == h.caseId == c.caseId && h.idempotencyKey != ""
    requires BoundText(h.handoffId) == h.handoffId
    requires forall k | k in s.handoffs.m :: s.handoffs.m[k].idempotencyKey != h.idempotencyKey
    ensures Inv(policy, WithHandoff(s, h, o))
    ensures Inv(policy, Commit(WithHandoff(s, h, o), HandedOffCase(c, h.handoffId, now),
                               [NewEvent(c.caseId, Loop, HandoffAsked(h.handoffId, h.objectiveKey))]))
  {
    hide Inv, CaseSane, CaseLinked, Project, Advance, HandedOffCase, Commit, HandoffsKeyed;
    var s1 := WithHandoff(s, h, o);
    NewHandoffKeepsInv(policy, s, h, o);
    StoredCase(policy, s1, c.caseId);
    HandedOffCaseSane(policy, c, h, now);
    HandedOffCaseLinked(s1, c, h, now);
    CommitLinked(policy, s1, c, HandedOffCase(c, h.handoffId, now), NewEvent(c.caseId, Loop, HandoffAsked(h.handoffId, h.objectiveKey)));
  }

  lemma HandedOffCaseLinked(s: State, c: SecurityCase, h: Handoff, now: int)
    requires CaseLinked(s, c) && h.handoffId in s.handoffs.m && s.handoffs.m[h.handoffId] == h && h.caseId == c.caseId
    ensures CaseLinked(s, HandedOffCase(c, h.handoffId, now))
  {
  }

  lemma RequestUnready(s: State, id: string, f: Finding, passes: nat, stamp: Stamp)
    requires id !in s.cases.m || !HandoffReady(f)
    ensures RequestHandoff(s, id, f, passes, stamp).state == s
    ensures id in s.cases.m ==> RequestHandoff(s, id, f, passes, stamp).result.Err?
  {
    hide HandoffReady, HandoffByKey, Commit;
  }

  lemma RequestKeepsInv(policy: CasePolicy, s: State, id: string, f: Finding, passes: nat, stamp: Stamp)
    requires Inv(policy, s) && stamp.handoffId !in s.handoffs.m && stamp.objectiveId !in s.objectives.m
    requires BoundText(stamp.handoffId) == stamp.handoffId
    ensures Inv(policy, RequestHandoff(s, id, f, passes, stamp).state)
  {
    hide BuildHandoff, RequestHandoff, IdempotencyKey, Inv, CaseSane, CaseLinked, HandedOffCase, WithHandoff, Commit,
         BoundKind, BoundText, HandoffReady;
    if id in s.cases.m && HandoffReady(f) {
      StoredCase(policy, s, id);
      RequestHandoffCases(s, id, f, passes, stamp);
      var c := s.cases.m[id];
      var p := if passes == 0 then c.requiredPasses else passes;
      BuiltHandoff(f, c, p, stamp);
      var built := BuildHandoff(f, c, p, stamp);
      if HandoffByKey(s, IdempotencyKey(id, f)).None? {
        LinkHandoffKeepsInv(policy, s, c, built.value.handoff, built.value.objectives[0], stamp.now);
      }
    } else {
      RequestUnready(s, id, f, passes, stamp);
    }
  }

  /** Changing the status of a stored handoff. */
  lemma HandoffStatusKeepsInv(policy: CasePolicy, s: State, id: string, status: Lhp.HandoffStatus, now: int)
    requires Inv(policy, s) && id in s.handoffs.m
    ensures Inv(policy, WithHandoffStatus(s, id, status, now))
  {
    hide ObjectivesLinked, HandoffsKeyed, Linked, CasesKeyed, Sane, Audited;
    var t := WithHandoffStatus(s, id, status, now);
    HandoffStatusKeyed(s, id, status, now);
    ObjectivesFollow(s, t);
    LinkedGrows(s, t);
    SameCases(policy, s, t);
  }

  lemma HandoffStatusKeyed(s: State, id: string, status: Lhp.HandoffStatus, now: int)
    requires HandoffsKeyed(s) && id in s.handoffs.m
    ensures var t := WithHandoffStatus(s, id, status, now);
            && HandoffsKeyed(t) && t.handoffs.m.Keys == s.handoffs.m.Keys
            && (forall k | k in s.handoffs.m :: t.handoffs.m[k].caseId == s.handoffs.m[k].caseId)
  {
    var t := WithHandoffStatus(s, id, status, now);
    assert t.handoffs.m == s.handoffs.m[id := s.handoffs.m[id].(status := status, updatedAt := now)];
    hide WithHandoffStatus;
  }

  /** Objectives and handoffs may change anything but their ids and owners. */
  lemma ObjectivesFollow(s: State, t: State)
    requires ObjectivesLinked(s)
    requires t.handoffs.m.Keys == s.handoffs.m.Keys && t.objectives.m.Keys == s.objectives.m.Keys
    requires forall k | k in s.handoffs.m :: t.handoffs.m[k].caseId == s.handoffs.m[k].caseId
    requires forall o | o in s.objectives.m ::
               t.objectives.m[o].handoffId == s.objectives.m[o].handoffId && t.objectives.m[o].caseId == s.objectives.m[o].caseId
    ensures ObjectivesLinked(t)
  {
    forall k | k in t.handoffs.m ensures exists p :: ObjectiveOf(t, p, k) {
      var p :| ObjectiveOf(s, p, k);
      assert ObjectiveOf(t, p, k);
    }
    forall p | p in t.objectives.m ensures ObjectiveOf(t, p, t.objectives.m[p].handoffId) {
      assert ObjectiveOf(s, p, s.objectives.m[p].handoffId);
    }
  }

  lemma CallbackKeepsInv(policy: CasePolicy, s: State, u: Lhp.HandoffUpdate, h: Handoff, c: Option<SecurityCase>)
    requires Inv(policy, s)
    ensures Inv(policy, AcceptCallback(s, u, h, c).state)
  {
    hide LhpTokens.SanitizeToken;
    LhpTokens.TokenShape(u.eventId, Lhp.ID_LIMIT);
    var t := AcceptCallback(s, u, h, c).state;
    assert CallbacksKeyed(t);
    ObjectivesLinkedKept(s, t);
    assert HandoffsKeyed(t);
    LinkedGrows(s, t);
    SameCases(policy, s, t);
    hide CallbacksKeyed, ObjectivesLinked, HandoffsKeyed, Linked, CasesKeyed, Sane, Audited;
  }

  lemma UpdatedCaseSane(policy: CasePolicy, c: SecurityCase, u: Lhp.HandoffUpdate, now: int)
    requires CaseSane(policy, c)
    ensures Follows(policy, c, UpdatedCase(c, u, now), BoundKind(EngineeringUpdated(u.updateType, u.status, u.handoffId)))
  {
    hide LabelsStable, BoundText;
  }

  /** An update that gets past duplicate detection, the handoff lookup and the handoff transition table. */
  ghost predicate AcceptedNow(s: State, u: Lhp.HandoffUpdate) {
    && CallbackFor(s, u.eventId).None? && u.handoffId in s.handoffs.m
    && Lhp.AllowedHandoffTransition(s.handoffs.m[u.handoffId].status, u.status, Lhp.Engineering)
  }

  function WithHandoffStatus(s: State, handoffId: string, status: Lhp.HandoffStatus, now: int): State
    requires handoffId in s.handoffs.m
  {
    var h := s.handoffs.m[handoffId].(status := status, updatedAt := now);
    s.(handoffs := s.handoffs.Put(h.handoffId, h))
  }

  /** The three ways an update can go. */
  lemma UpdateCases(s: State, u: Lhp.HandoffUpdate, now: int)
    ensures !AcceptedNow(s, u) ==> RecordEngineeringUpdate(s, u, now).state == s
    ensures AcceptedNow(s, u) ==>
              var s1 := WithHandoffStatus(s, u.handoffId, u.status, now);
              var h1 := s.handoffs.m[u.handoffId].(status := u.status, updatedAt := now);
              RecordEngineeringUpdate(s, u, now).state
              == if u.caseId in s.cases.m then
                   var c1 := UpdatedCase(s.cases.m[u.caseId], u, now);
                   var e := NewEvent(s.cases.m[u.caseId].caseId, EngineeringLoop, EngineeringUpdated(u.updateType, u.status, u.handoffId));
                   AcceptCallback(Commit(s1, c1, [e]), u, h1, Some(c1)).state
                 else AcceptCallback(s1, u, h1, None).state
  {
    hide AcceptCallback, UpdatedCase, Commit, BoundKind, Lhp.AllowedHandoffTransition, CallbackFor;
  }

  lemma UpdateKeepsInv(policy: CasePolicy, s: State, u: Lhp.HandoffUpdate, now: int)
    requires Inv(policy, s)
    ensures Inv(policy, RecordEngineeringUpdate(s, u, now).state)
  {
    UpdateCases(s, u, now);
    hide Inv, CaseSane, CaseLinked, Commit, BoundKind, Project, Advance, AcceptCallback, RecordEngineeringUpdate, Follows,
         UpdatedCase, CallbackFor, Lhp.AllowedHandoffTransition;
    if AcceptedNow(s, u) {
      var s1 := WithHandoffStatus(s, u.handoffId, u.status, now);
      var h1 := s.handoffs.m[u.handoffId].(status := u.status, updatedAt := now);
      HandoffStatusKeepsInv(policy, s, u.handoffId, u.status, now);
      if u.caseId in s1.cases.m {
        StoredCase(policy, s1, u.caseId);
        var c := s1.cases.m[u.caseId];
        UpdatedCaseSane(policy, c, u, now);
        var c1 := UpdatedCase(c, u, now);
        var e := NewEvent(c.caseId, EngineeringLoop, EngineeringUpdated(u.updateType, u.status, u.handoffId));
        CommitOne(policy, s1, c, c1, e);
        CallbackKeepsInv(policy, Commit(s1, c1, [e]), u, h1, Some(c1));
      } else {
        CallbackKeepsInv(policy, s1, u, h1, None);
      }
    }
  }

  // --- verification ---

  lemma PassObjectivesKeepsInv(policy: CasePolicy, s: State, caseId: string, count: nat, now: int)
    requires Inv(policy, s)
    ensures Inv(policy, s.(objectives := PassObjectives(s.objectives, caseId, count, now)))
  {
    hide PassObjectives, Linked, CasesKeyed, Sane, Audited, ObjectivesLinked;
    var t := s.(objectives := PassObjectives(s.objectives, caseId, count, now));
    PassObjectivesFollow(s.objectives, caseId, count, now);
    ObjectivesFollow(s, t);
    LinkedGrows(s, t);
    SameCases(policy, s, t);
    hide Linked, CasesKeyed, Sane, Audited, ObjectivesLinked;
  }

  lemma PassObjectivesFollow(d: Dict<string, Objective>, caseId: string, count: nat, now: int)
    ensures var t := PassObjectives(d, caseId, count, now);
            && t.m.Keys == d.m.Keys
            && forall o | o in d.m :: t.m[o].handoffId == d.m[o].handoffId && t.m[o].caseId == d.m[o].caseId
  {
  }

  lemma ResolvedCaseSane(policy: CasePolicy, c: SecurityCase, reason: string, now: int)
    requires CaseSane(policy, c)
    ensures Follows(policy, c, ResolvedCase(c, reason, now), BoundKind(CaseResolved(c.status, c.passCount, c.requiredPasses, reason)))
  {
    hide LabelsStable, BoundText;
  }

  lemma VerifyKeepsInv(policy: CasePolicy, settings: VerifierSettings, s: State, id: string, reason: string, now: int)
    requires Inv(policy, s)
    ensures Inv(policy, VerifyCase(settings, s, id, reason, now).0)
  {
    hide Inv, CaseSane, CaseLinked, Commit, BoundKind, Project, Advance, Follows, ResolvedCase, PassObjectives, CanResolve;
    if id in s.cases.m && Active(s.cases.m[id].status) && CanResolve(settings.policy, s.cases.m[id])
       && settings.autoResolve && !settings.dryRun {
      var c := s.cases.m[id];
      var s1 := s.(objectives := PassObjectives(s.objectives, id, c.passCount, now));
      PassObjectivesKeepsInv(policy, s, id, c.passCount, now);
      StoredCase(policy, s1, id);
      ResolvedCaseSane(policy, c, reason, now);
      CommitOne(policy, s1, c, ResolvedCase(c, reason, now),
                NewEvent(id, Verifier, CaseResolved(c.status, c.passCount, c.requiredPasses, reason)));
    }
  }

  // --- all of them ---

  lemma StepKeepsInv(policy: CasePolicy, s: State, a: Action)
    requires Inv(policy, s) && Admissible(s, a)
    ensures Inv(policy, Step(policy, s, a))
  {
    hide Inv, ObserveFinding, NoteScanDegraded, Transition, Acknowledge, RequestHandoff, RecordIssue,
         RecordEngineeringUpdate, VerifyCase, Lhp.ValidateUpdate;
    var now := a.stamp.now;
    match a.op
    case Observe(f, cycle, _) => ObserveKeepsInv(policy, s, f, cycle, a.stamp);
    case NoteDegraded(id, cycle) => NoteKeepsInv(policy, s, id, cycle, now);
    case DoTriage(id, actor) => TransitionKeepsInv(policy, s, id, None, actor, now);
    case DoNeedsHuman(id, reason, actor) => TransitionKeepsInv(policy, s, id, Some(reason), actor, now);
    case DoAcknowledge(id, operator) => AcknowledgeKeepsInv(policy, s, id, operator, now);
    case AskHandoff(id, f, passes) => RequestKeepsInv(policy, s, id, f, passes, a.stamp);
    case NoteIssue(id, url, issue) => IssueKeepsInv(policy, s, id, url, issue, now);
    case Deliver(raw) =>
      if Lhp.ValidateUpdate(raw).Ok? {
        UpdateKeepsInv(policy, s, Lhp.ValidateUpdate(raw).value, now);
      }
    case Verify(id, reason, settings) => VerifyKeepsInv(policy, settings, s, id, reason, now);
  }

  lemma EmptyInv(policy: CasePolicy)
    ensures Inv(policy, EmptyState())
  {
  }

  /** Every reachable store satisfies the invariant. */
  lemma {:induction false} RunKeepsInv(policy: CasePolicy, s: State, actions: seq<Action>)
    requires Inv(policy, s) && AdmissibleFrom(policy, s, actions)
    ensures Inv(policy, RunFrom(policy, s, actions))
  {
    hide Inv, Step, Admissible;
    if actions != [] {
      var n := |actions| - 1;
      RunKeepsInv(policy, s, actions[..n]);
      StepKeepsInv(policy, RunFrom(policy, s, actions[..n]), actions[n]);
    }
  }

  lemma Reachable(policy: CasePolicy, actions: seq<Action>)
    requires AdmissibleRun(policy, actions)
    ensures Inv(policy, Run(policy, actions))
  {
    hide Inv, EmptyState, RunFrom, AdmissibleFrom;
    EmptyInv(policy);
    RunKeepsInv(policy, EmptyState(), actions);
  }
}
