/**
 What the audit trail tells about the severity of a case. The opening event states it; later
 failing observations overwrite it and record only whether the signature changed.
 */
module SeverityTrail {
  import opened Wrappers
  import opened Dicts
  import opened Models
  import opened Policy
  import opened Lifecycle
  import opened Audit
  import opened Runs
  import opened Invariants
  import opened Preservation
  import opened CaseMoves
  import AllClear
  import Engineering
  import Ladder
  import Lhp = LhpHandoff

  /** The hash behind change detection; check id and key enter it through the fingerprint they determine. */
  type Sign = (string, Severity, bool) -> string

  /** No two severities of one control collide. */
  ghost predicate Separates(sign: Sign) {
    forall fingerprint, a, b, passed :: sign(fingerprint, a, passed) == sign(fingerprint, b, passed) ==> a == b
  }

  ghost predicate Signed(sign: Sign, a: Action) {
    a.op.Observe? ==> a.op.finding.signature == sign(a.op.finding.fingerprint, a.op.finding.severity, a.op.finding.passed)
  }

  ghost predicate SignedRun(sign: Sign, actions: seq<Action>) {
    forall i | 0 <= i < |actions| :: Signed(sign, actions[i])
  }

  /** A refresh or reopening that says the signature changed. */
  predicate Obscures(k: EventKind) {
    || (k.Reopened? && k.signatureChanged)
    || (k.RefreshFailing? && k.signatureChanged)
  }

  ghost predicate Obscured(log: seq<Event>) {
    exists i | 0 <= i < |log| :: Obscures(log[i].kind)
  }

  // --- what one operation appends ---

  lemma BoundObscures(id: string, actor: Actor, k: EventKind)
    ensures Obscures(NewEvent(id, actor, k).kind) == Obscures(k) && NewEvent(id, actor, k).kind.CaseOpened? == k.CaseOpened?
    ensures k.CaseOpened? ==> NewEvent(id, actor, k).kind.severity == k.severity
  {
    hide BoundText;
  }

  ghost predicate Quiet(s: State, t: State) {
    && s.events <= t.events
    && forall i | |s.events| <= i < |t.events| :: !Obscures(t.events[i].kind)
  }

  lemma CommitQuiet(s: State, c: SecurityCase, id: string, actor: Actor, k: EventKind)
    requires !Obscures(k)
    ensures Quiet(s, Commit(s, c, [NewEvent(id, actor, k)]))
  {
    BoundObscures(id, actor, k);
    hide BoundKind;
  }

  lemma NamedQuiet(policy: CasePolicy, s: State, a: Action)
    requires OnNamedCase(a.op)
    ensures Quiet(s, Step(policy, s, a))
  {
    hide Commit, BoundKind, AllowedTransition, CanResolve, PassObjectives, ResolvedCase, DegradedCase, AcknowledgedCase, IssuedCase, MovedCase, Quiet;
    QuietRefl(s);
    if a.op.caseId in s.cases.m {
      var c := s.cases.m[a.op.caseId];
      var now := a.stamp.now;
      match a.op
      case NoteDegraded(id, cycle) => CommitQuiet(s, DegradedCase(c, cycle, now), id, Loop, ScanDegraded(cycle));
      case DoTriage(id, actor) => CommitQuiet(s, MovedCase(c, None, now), id, actor, MoveEvent(c.status, None));
      case DoNeedsHuman(id, reason, actor) => CommitQuiet(s, MovedCase(c, Some(reason), now), id, actor, MoveEvent(c.status, Some(reason)));
      case DoAcknowledge(id, operator) => CommitQuiet(s, AcknowledgedCase(c, operator, now), id, Operator, Acknowledged(operator));
      case NoteIssue(id, url, issue) => CommitQuiet(s, IssuedCase(c, url, issue, now), id, Loop, IssueOpened(url, issue));
      case Verify(id, reason, settings) =>
        var s1 := s.(objectives := PassObjectives(s.objectives, id, c.passCount, now));
        CommitQuiet(s1, ResolvedCase(c, reason, now), id, Verifier, CaseResolved(c.status, c.passCount, c.requiredPasses, reason));
        SameEventsQuiet(s1, s, Step(policy, s, a));
    }
  }

  lemma QuietRefl(s: State)
    ensures Quiet(s, s)
  {
  }

  lemma SameEventsQuiet(s: State, s1: State, t: State)
    requires s.events == s1.events
    ensures Quiet(s, t) == Quiet(s1, t)
  {
  }

  lemma PassingQuiet(policy: CasePolicy, s: State, a: Action)
    requires a.op.Observe? && a.op.finding.passed
    ensures Quiet(s, Step(policy, s, a))
  {
    hide Commit, BoundKind, PassedCase, CaseByFingerprint, Quiet;
    var s1 := s.(findings := s.findings.Put(a.op.finding.findingId, a.op.finding));
    QuietRefl(s1);
    SameEventsQuiet(s, s1, Step(policy, s, a));
    var existing := CaseByFingerprint(s1, a.op.finding.fingerprint);
    if existing.Some? {
      var c1 := PassedCase(existing.value, a.op.cycle, a.stamp.now);
      CommitQuiet(s1, c1, existing.value.caseId, Loop, PositiveRecheck(c1.passCount, c1.requiredPasses));
    }
  }

  lemma RequestQuiet(policy: CasePolicy, s: State, a: Action)
    requires OwnIds(s) && a.op.AskHandoff?
    ensures Quiet(s, Step(policy, s, a))
  {
    hide RequestHandoff, BuildHandoff, HandoffReady, HandoffByKey, IdempotencyKey, HandedOffCase, BoundKind, Commit, Quiet;
    var (id, f, stamp) := (a.op.caseId, a.op.finding, a.stamp);
    Ladder.RequestAsCommit(s, id, f, a.op.passes, stamp);
    QuietRefl(s);
    if StoresHandoff(s, id, f) {
      var c := s.cases.m[id];
      var h, o :|
        && BuildHandoff(f, c, if a.op.passes == 0 then c.requiredPasses else a.op.passes, stamp) == Ok(Bundle(h, [o]))
        && RequestHandoff(s, id, f, a.op.passes, stamp).state == Ladder.LinkedState(s, c, h, o, stamp.now);
      var s1 := WithHandoff(s, h, o);
      CommitQuiet(s1, HandedOffCase(c, h.handoffId, stamp.now), c.caseId, Loop, HandoffAsked(h.handoffId, h.objectiveKey));
      SameEventsQuiet(s, s1, Step(policy, s, a));
      QuietRefl(s1);
    }
  }

  lemma DeliverQuiet(policy: CasePolicy, s: State, a: Action)
    requires a.op.Deliver?
    ensures Quiet(s, Step(policy, s, a))
  {
    hide RecordEngineeringUpdate, Lhp.ValidateUpdate, UpdatedCase, InboxRecord, BoundKind, Commit, Quiet, CallbackFor, Lhp.AllowedHandoffTransition;
    QuietRefl(s);
    if Lhp.ValidateUpdate(a.op.raw).Ok? {
      var u := Lhp.ValidateUpdate(a.op.raw).value;
      UpdateCases(s, u, a.stamp.now);
      if AcceptedNow(s, u) {
        var s1 := WithHandoffStatus(s, u.handoffId, u.status, a.stamp.now);
        var t := Step(policy, s, a);
        SameEventsQuiet(s, s1, t);
        if u.caseId in s.cases.m {
          var c := s.cases.m[u.caseId];
          var done := Commit(s1, UpdatedCase(c, u, a.stamp.now), [NewEvent(c.caseId, EngineeringLoop, EngineeringUpdated(u.updateType, u.status, u.handoffId))]);
          CommitQuiet(s1, UpdatedCase(c, u, a.stamp.now), c.caseId, EngineeringLoop, EngineeringUpdated(u.updateType, u.status, u.handoffId));
          QuietTo(s1, done, t);
        } else {
          QuietRefl(s1);
          QuietTo(s1, s1, t);
        }
      }
    }
  }

  lemma QuietTo(s: State, t: State, t1: State)
    requires t.events == t1.events
    ensures Quiet(s, t) == Quiet(s, t1)
  {
  }

  /** Only a failing observation says that a signature changed. */
  lemma StepQuiet(policy: CasePolicy, s: State, a: Action)
    requires OwnIds(s) && !(a.op.Observe? && !a.op.finding.passed)
    ensures Quiet(s, Step(policy, s, a))
  {
    hide Step, Quiet, OwnIds;
    if a.op.AskHandoff? {
      RequestQuiet(policy, s, a);
    } else if a.op.Deliver? {
      DeliverQuiet(policy, s, a);
    } else if a.op.Observe? {
      PassingQuiet(policy, s, a);
    } else {
      NamedQuiet(policy, s, a);
    }
  }

  /** What a failing observation of its control appends about a case. */
  function FailureEvents(c: SecurityCase, f: Finding): seq<Event> {
    var changed := f.signature != c.signature;
    if Terminal(c.status) then
      [NewEvent(c.caseId, Loop, Reopened(f.findingId, changed)), NewEvent(c.caseId, Loop, MovedToTriaged(Open))]
    else [NewEvent(c.caseId, Loop, RefreshFailing(f.findingId, changed))]
  }

  function OpeningEvents(id: string, f: Finding): seq<Event> {
    [NewEvent(id, Loop, CaseOpened(f.findingId, f.severity)), NewEvent(id, Loop, MovedToTriaged(Open))]
  }

  lemma FailingAppends(policy: CasePolicy, s: State, a: Action)
    requires CasesKeyed(s) && a.op.Observe? && !a.op.finding.passed && a.stamp.caseId !in s.cases.m
    ensures var (f, t) := (a.op.finding, Step(policy, s, a));
            && (forall k | k in s.cases.m && s.cases.m[k].fingerprint == f.fingerprint ::
                  t.events == s.events + FailureEvents(s.cases.m[k], f))
            && ((forall k | k in s.cases.m :: s.cases.m[k].fingerprint != f.fingerprint) ==>
                  t.events == s.events + OpeningEvents(a.stamp.caseId, f))
            && t.handoffs == s.handoffs && t.objectives == s.objectives && t.callbacks == s.callbacks
  {
    hide CasesKeyed, CaseByFingerprint, FailedCase, TriagedCase, OpenedCase, BoundKind, Commit;
    var f := a.op.finding;
    var s1 := s.(findings := s.findings.Put(f.findingId, f));
    SameCasesKeyed(s, s1);
    FoundCase(s1, f);
    OpenedIdentity(policy, f, a.op.cycle, a.stamp);
  }

  // --- what that means for the log of one case ---

  lemma LogGrows(s: State, t: State, ext: seq<Event>, id: string)
    requires t.events == s.events + ext
    ensures LogOf(t.events, id) == LogOf(s.events, id) + LogOf(ext, id)
  {
    LogOfAppend(s.events, ext, id);
  }

  lemma {:induction false} LogOfIsPart(events: seq<Event>, id: string)
    ensures Obscured(LogOf(events, id)) ==> Obscured(events)
  {
    if events != [] {
      var n := |events| - 1;
      LogOfIsPart(events[..n], id);
      ObscuredAppend(LogOf(events[..n], id), if events[n].caseId == id then [events[n]] else []);
      ObscuredAppend(events[..n], [events[n]]);
      assert events == events[..n] + [events[n]];
      if events[n].caseId != id { assert !Obscured([]); }
    }
  }

  lemma ObscuredAppend(a: seq<Event>, b: seq<Event>)
    ensures Obscured(a + b) <==> Obscured(a) || Obscured(b)
  {
    if Obscured(a + b) {
      var i :| 0 <= i < |a + b| && Obscures((a + b)[i].kind);
      if i < |a| { assert a[i] == (a + b)[i]; } else { assert b[i - |a|] == (a + b)[i]; }
    }
    if Obscured(a) {
      var i :| 0 <= i < |a| && Obscures(a[i].kind);
      assert (a + b)[i] == a[i];
    }
    if Obscured(b) {
      var i :| 0 <= i < |b| && Obscures(b[i].kind);
      assert (a + b)[|a| + i] == b[i];
    }
  }

  /** The log of an existing case after a step keeps its beginning, and becomes obscured exactly by a
      failing observation of its control with another signature. */
  lemma StepLog(policy: CasePolicy, s: State, a: Action, id: string)
    requires Inv(policy, s) && Admissible(s, a) && id in s.cases.m
    ensures LogOf(s.events, id) <= LogOf(Step(policy, s, a).events, id)
    ensures Obscured(LogOf(Step(policy, s, a).events, id))
       <==> (|| Obscured(LogOf(s.events, id))
             || (AllClear.FailsControl(a, s.cases.m[id].fingerprint) && a.op.finding.signature != s.cases.m[id].signature))
  {
    hide Inv, Step, LogOf, Obscured, BoundKind, OwnIds, CasesKeyed, Quiet, Scrubbed;
    var t := Step(policy, s, a);
    Engineering.InvHandoffs(policy, s);
    if a.op.Observe? && !a.op.finding.passed {
      var f := a.op.finding;
      FailingAppends(policy, s, a);
      FoundCase(s, f);
      StoredCase(policy, s, id);
      if s.cases.m[id].fingerprint == f.fingerprint {
        var ext := FailureEvents(s.cases.m[id], f);
        LogGrows(s, t, ext, id);
        FailureLog(s.cases.m[id], f);
        ObscuredAppend(LogOf(s.events, id), LogOf(ext, id));
      } else {
        OtherFailure(policy, s, a, id);
      }
    } else {
      OwnIdsOf(s);
      StepQuiet(policy, s, a);
      QuietLog(s, t, id);
    }
  }

  lemma FailureLog(c: SecurityCase, f: Finding)
    ensures LogOf(FailureEvents(c, f), c.caseId) == FailureEvents(c, f)
    ensures Obscured(FailureEvents(c, f)) <==> f.signature != c.signature
  {
    hide LogOf, Obscured, BoundKind;
    var changed := f.signature != c.signature;
    LogOfOwn(FailureEvents(c, f), c.caseId);
    BoundObscures(c.caseId, Loop, Reopened(f.findingId, changed));
    BoundObscures(c.caseId, Loop, RefreshFailing(f.findingId, changed));
    BoundObscures(c.caseId, Loop, MovedToTriaged(Open));
    hide NewEvent, Obscures;
    if Terminal(c.status) {
      var (e0, e1) := (NewEvent(c.caseId, Loop, Reopened(f.findingId, changed)), NewEvent(c.caseId, Loop, MovedToTriaged(Open)));
      ObscuredAppend([e0], [e1]);
      ObscuredOne(e0);
      ObscuredOne(e1);
      assert [e0] + [e1] == [e0, e1];
      TagOnly(f.findingId, changed);
    } else {
      ObscuredOne(NewEvent(c.caseId, Loop, RefreshFailing(f.findingId, changed)));
      TagOnly(f.findingId, changed);
    }
  }

  lemma TagOnly(findingId: string, changed: bool)
    ensures Obscures(Reopened(findingId, changed)) == changed && Obscures(RefreshFailing(findingId, changed)) == changed
    ensures !Obscures(MovedToTriaged(Open))
  {
  }

  lemma ObscuredOne(e: Event)
    ensures Obscured([e]) <==> Obscures(e.kind)
  {
    hide Obscures;
    assert [e][0] == e;
  }

  lemma OtherFailure(policy: CasePolicy, s: State, a: Action, id: string)
    requires CasesKeyed(s) && a.op.Observe? && !a.op.finding.passed && a.stamp.caseId !in s.cases.m
    requires id in s.cases.m && s.cases.m[id].fingerprint != a.op.finding.fingerprint
    ensures LogOf(Step(policy, s, a).events, id) == LogOf(s.events, id)
  {
    hide Step, BoundKind, LogOf;
    var (f, t) := (a.op.finding, Step(policy, s, a));
    FailingAppends(policy, s, a);
    if k :| k in s.cases.m && s.cases.m[k].fingerprint == f.fingerprint {
      var ext := FailureEvents(s.cases.m[k], f);
      LogGrows(s, t, ext, id);
      LogOfOthers(ext, id);
    } else {
      var ext := OpeningEvents(a.stamp.caseId, f);
      LogGrows(s, t, ext, id);
      LogOfOthers(ext, id);
    }
    assert LogOf(s.events, id) + [] == LogOf(s.events, id);
  }

  lemma QuietLog(s: State, t: State, id: string)
    requires Quiet(s, t)
    ensures LogOf(s.events, id) <= LogOf(t.events, id)
    ensures Obscured(LogOf(t.events, id)) <==> Obscured(LogOf(s.events, id))
  {
    hide LogOf;
    var ext := t.events[|s.events|..];
    assert t.events == s.events + ext;
    LogGrows(s, t, ext, id);
    ObscuredAppend(LogOf(s.events, id), LogOf(ext, id));
    LogOfIsPart(ext, id);
    assert forall i | 0 <= i < |ext| :: ext[i] == t.events[|s.events| + i];
  }

  // --- severity and signature along a run ---

  /** The log begins with the opening event, the signature is that of the severity, and while no
      event says that it changed, the severity is still the opening one. */
  ghost predicate Told(sign: Sign, c: SecurityCase, log: seq<Event>) {
    && log != [] && log[0].kind.CaseOpened?
    && c.signature == sign(c.fingerprint, c.severity, false)
    && (!Obscured(log) ==> c.severity == log[0].kind.severity)
  }

  /** Only a failing observation of its control touches severity and signatures of a case. */
  lemma MoveKeepsSeverity(s: State, c: SecurityCase, a: Action)
    ensures var d := MovedBy(s, c, a);
            if AllClear.FailsControl(a, c.fingerprint) then d.severity == a.op.finding.severity && d.signature == a.op.finding.signature
            else d.severity == c.severity && d.signature == c.signature
    ensures MovedBy(s, c, a).fingerprint == c.fingerprint
  {
    hide Resolves, StoresHandoff, MayAskHandoff, AcceptedNow, Lhp.ValidateUpdate, AllowedTransition, StatusAfterUpdate;
  }

  lemma OpeningTold(policy: CasePolicy, sign: Sign, s: State, a: Action)
    requires Inv(policy, s) && Admissible(s, a) && Signed(sign, a)
    requires a.op.Observe? && !a.op.finding.passed && a.stamp.caseId in Step(policy, s, a).cases.m
    ensures Told(sign, Step(policy, s, a).cases.m[a.stamp.caseId], LogOf(Step(policy, s, a).events, a.stamp.caseId))
    ensures !Obscured(LogOf(Step(policy, s, a).events, a.stamp.caseId))
  {
    hide Inv, Step, LogOf, BoundKind, CasesKeyed, MovedBy, Audited, Scrubbed;
    var (f, id, t) := (a.op.finding, a.stamp.caseId, Step(policy, s, a));
    Engineering.InvHandoffs(policy, s);
    StepMoves(policy, s, a, id);
    NoneOfControl(policy, s, a);
    FailingAppends(policy, s, a);
    InvAudited(policy, s);
    UnbornHasNoLog(s, id);
    var ext := OpeningEvents(id, f);
    LogGrows(s, t, ext, id);
    LogOfOwn(ext, id);
    assert [] + ext == ext;
    BoundObscures(id, Loop, CaseOpened(f.findingId, f.severity));
    BoundObscures(id, Loop, MovedToTriaged(Open));
    OpenedSeverity(policy, f, a.op.cycle, a.stamp);
  }

  lemma InvAudited(policy: CasePolicy, s: State)
    requires Inv(policy, s)
    ensures Audited(s)
  {
  }

  lemma OpenedSeverity(policy: CasePolicy, f: Finding, cycle: string, stamp: Stamp)
    ensures var c := TriagedCase(OpenedCase(policy, f, cycle, stamp), stamp.now);
            c.severity == f.severity && c.signature == f.signature && c.fingerprint == f.fingerprint
  {
  }

  /** A failing observation that opened a case found none of its control. */
  lemma NoneOfControl(policy: CasePolicy, s: State, a: Action)
    requires CasesKeyed(s) && a.op.Observe? && !a.op.finding.passed && a.stamp.caseId !in s.cases.m
    requires a.stamp.caseId in Step(policy, s, a).cases.m
    ensures forall k | k in s.cases.m :: s.cases.m[k].fingerprint != a.op.finding.fingerprint
  {
    hide CasesKeyed, CaseByFingerprint, FailedCase, TriagedCase, OpenedCase, BoundKind;
    var f := a.op.finding;
    var s1 := s.(findings := s.findings.Put(f.findingId, f));
    SameCasesKeyed(s, s1);
    FoundCase(s1, f);
    var existing := CaseByFingerprint(s1, f.fingerprint);
    if existing.Some? {
      FailingIdentity(existing.value, f, a.op.cycle, a.stamp.now);
    }
  }

  lemma StepTold(policy: CasePolicy, sign: Sign, s: State, a: Action, id: string)
    requires Inv(policy, s) && Admissible(s, a) && Signed(sign, a) && Separates(sign)
    requires id in s.cases.m && Told(sign, s.cases.m[id], LogOf(s.events, id))
    ensures id in Step(policy, s, a).cases.m
    ensures Told(sign, Step(policy, s, a).cases.m[id], LogOf(Step(policy, s, a).events, id))
  {
    hide Inv, Step, LogOf, MovedBy, Obscured, Scrubbed;
    Engineering.InvHandoffs(policy, s);
    StepMoves(policy, s, a, id);
    StepLog(policy, s, a, id);
    MoveKeepsSeverity(s, s.cases.m[id], a);
    var c := s.cases.m[id];
    if AllClear.FailsControl(a, c.fingerprint) {
      var f := a.op.finding;
      assert f.signature == c.signature ==> f.severity == c.severity;
    }
  }

  lemma {:induction false} RunTold(policy: CasePolicy, sign: Sign, actions: seq<Action>, id: string)
    requires AdmissibleRun(policy, actions) && SignedRun(sign, actions) && Separates(sign)
    requires id in Run(policy, actions).cases.m
    ensures Told(sign, Run(policy, actions).cases.m[id], LogOf(Run(policy, actions).events, id))
  {
    hide Inv, Step, Admissible, Told, LogOf, Signed, Separates, MovedBy;
    if actions != [] {
      var before, a := actions[..|actions| - 1], actions[|actions| - 1];
      var s := Run(policy, before);
      Reachable(policy, before);
      assert Signed(sign, actions[|actions| - 1]);
      if id in s.cases.m {
        RunTold(policy, sign, before, id);
        StepTold(policy, sign, s, a, id);
      } else {
        Engineering.InvHandoffs(policy, s);
        StepMoves(policy, s, a, id);
        OpeningTold(policy, sign, s, a);
      }
    }
  }

  // --- two runs that differ in nothing but the severity of one case ---

  function Masked(c: SecurityCase): SecurityCase {
    c.(severity := UNKNOWN, signature := "", previousSignature := "")
  }

  /** The same stores but for severity and signatures of one case, and for the recorded findings. */
  ghost predicate Twins(s: State, t: State, id: string) {
    && id in s.cases.m && s.cases.m.Keys == t.cases.m.Keys
    && (forall k | k in s.cases.m && k != id :: t.cases.m[k] == s.cases.m[k])
    && Masked(s.cases.m[id]) == Masked(t.cases.m[id])
    && t.events == s.events && t.handoffs == s.handoffs && t.objectives == s.objectives && t.callbacks == s.callbacks
  }

  lemma MaskKeeps(c: SecurityCase, d: SecurityCase)
    requires Masked(c) == Masked(d)
    ensures c.caseId == d.caseId && c.fingerprint == d.fingerprint && c.status == d.status && c.passCount == d.passCount
    ensures c.scanDegraded == d.scanDegraded && c.requiredPasses == d.requiredPasses && c.lastPassing == d.lastPassing
    ensures c.handoffIds == d.handoffIds
  {
    assert Masked(c).caseId == c.caseId && Masked(d).caseId == d.caseId && Masked(c).fingerprint == c.fingerprint
        && Masked(d).fingerprint == d.fingerprint && Masked(c).status == c.status && Masked(d).status == d.status;
    assert Masked(c).passCount == c.passCount && Masked(d).passCount == d.passCount && Masked(c).scanDegraded == c.scanDegraded
        && Masked(d).scanDegraded == d.scanDegraded && Masked(c).requiredPasses == c.requiredPasses
        && Masked(d).requiredPasses == d.requiredPasses;
    assert Masked(c).lastPassing == c.lastPassing && Masked(d).lastPassing == d.lastPassing
        && Masked(c).handoffIds == c.handoffIds && Masked(d).handoffIds == d.handoffIds;
  }

  lemma MaskedStamps(c: SecurityCase, a: Action)
    ensures a.op.NoteDegraded? ==> Masked(DegradedCase(c, a.op.cycle, a.stamp.now)) == Masked(DegradedCase(Masked(c), a.op.cycle, a.stamp.now))
    ensures a.op.DoAcknowledge? ==> Masked(AcknowledgedCase(c, a.op.operator, a.stamp.now)) == Masked(AcknowledgedCase(Masked(c), a.op.operator, a.stamp.now))
    ensures a.op.NoteIssue? ==> Masked(IssuedCase(c, a.op.url, a.op.id, a.stamp.now)) == Masked(IssuedCase(Masked(c), a.op.url, a.op.id, a.stamp.now))
    ensures a.op.AskHandoff? ==> Masked(HandedOffCase(c, a.stamp.handoffId, a.stamp.now)) == Masked(HandedOffCase(Masked(c), a.stamp.handoffId, a.stamp.now))
  {
  }

  lemma MaskedMoved(c: SecurityCase, id: string, reason: Option<string>, actor: Actor, now: int)
    ensures Masked(Moved(c, id, reason, actor, now)) == Masked(Moved(Masked(c), id, reason, actor, now))
  {
    hide AllowedTransition;
  }

  lemma MaskedUpdate(c: SecurityCase, u: Lhp.HandoffUpdate, now: int)
    ensures Masked(UpdatedCase(c, u, now)) == Masked(UpdatedCase(Masked(c), u, now))
  {
    hide StatusAfterUpdate;
  }

  lemma MaskedResolution(c: SecurityCase, settings: VerifierSettings, reason: string, now: int)
    ensures Resolves(settings, Masked(c)) == Resolves(settings, c)
    ensures Masked(ResolvedCase(c, reason, now)) == Masked(ResolvedCase(Masked(c), reason, now))
  {
  }

  /** A failing observation moves a masked case alike, whatever its severity and signature. */
  lemma MaskedFailure(c: SecurityCase, f: Finding, g: Finding, cycle: string, now: int)
    requires g.findingId == f.findingId
    ensures Masked(AfterFailure(c, f, cycle, now)) == Masked(AfterFailure(Masked(c), g, cycle, now))
  {
  }

  lemma MaskedPass(c: SecurityCase, cycle: string, now: int)
    ensures Masked(PassedCase(c, cycle, now)) == Masked(PassedCase(Masked(c), cycle, now))
  {
  }

  lemma MaskIdentity(c: SecurityCase)
    ensures Masked(c).caseId == c.caseId && Masked(c).fingerprint == c.fingerprint && Masked(c).status == c.status
    ensures Masked(Masked(c)) == Masked(c)
  {
  }

  /** Operations move a masked case as they move the case. */
  lemma MaskedMove(s: State, c: SecurityCase, a: Action)
    ensures Masked(MovedBy(s, c, a)) == Masked(MovedBy(s, Masked(c), a))
  {
    hide Masked, Moved, AfterFailure, PassedCase, DegradedCase, AcknowledgedCase, IssuedCase, HandedOffCase, UpdatedCase, ResolvedCase,
         Resolves, StoresHandoff, MayAskHandoff, AcceptedNow, Lhp.ValidateUpdate;
    var now := a.stamp.now;
    MaskIdentity(c);
    MaskedStamps(c, a);
    match a.op
    case Observe(f, cycle, _) =>
      MaskedFailure(c, f, f, cycle, now);
      MaskedPass(c, cycle, now);
    case DoTriage(id, actor) => MaskedMoved(c, id, None, actor, now);
    case DoNeedsHuman(id, reason, actor) => MaskedMoved(c, id, Some(reason), actor, now);
    case Deliver(raw) => if Lhp.ValidateUpdate(raw).Ok? { MaskedUpdate(c, Lhp.ValidateUpdate(raw).value, now); }
    case Verify(_, reason, settings) => MaskedResolution(c, settings, reason, now);
    case _ =>
  }

  /** What an operation makes of a case depends on the rest of the store only through what twins share. */
  lemma TwinsMoveAlike(s: State, t: State, id: string, c: SecurityCase, a: Action)
    requires Twins(s, t, id)
    ensures MovedBy(s, c, a) == MovedBy(t, c, a)
  {
    hide Moved, AfterFailure, PassedCase, DegradedCase, AcknowledgedCase, IssuedCase, HandedOffCase, UpdatedCase, ResolvedCase,
         Resolves, HandoffReady, IdempotencyKey, MayAskHandoff, Lhp.ValidateUpdate, Lhp.AllowedHandoffTransition, Masked;
    if a.op.AskHandoff? { Ladder.KeySame(s, t, IdempotencyKey(a.op.caseId, a.op.finding)); }
  }

  // --- the rest of the store ---

  ghost predicate SameRest(s: State, t: State) {
    t.events == s.events && t.handoffs == s.handoffs && t.objectives == s.objectives && t.callbacks == s.callbacks
  }

  lemma CommitRest(s: State, t: State, c: SecurityCase, d: SecurityCase, e: seq<Event>)
    requires SameRest(s, t)
    ensures SameRest(Commit(s, c, e), Commit(t, d, e))
  {
  }

  lemma TwinCase(s: State, t: State, id: string, k: string)
    requires Twins(s, t, id) && k in s.cases.m
    ensures k in t.cases.m && Masked(s.cases.m[k]) == Masked(t.cases.m[k])
  {
  }

  lemma NoteRest(s: State, t: State, id: string, k: string, cycle: string, now: int)
    requires Twins(s, t, id)
    ensures SameRest(NoteScanDegraded(s, k, cycle, now), NoteScanDegraded(t, k, cycle, now))
  {
    hide Masked, BoundKind, DegradedCase;
  }

  lemma AcknowledgeRest(s: State, t: State, id: string, k: string, operator: string, now: int)
    requires Twins(s, t, id)
    ensures SameRest(Acknowledge(s, k, operator, now), Acknowledge(t, k, operator, now))
  {
    hide Masked, BoundKind, AcknowledgedCase;
  }

  lemma IssueRest(s: State, t: State, id: string, k: string, url: string, issue: string, now: int)
    requires Twins(s, t, id)
    ensures SameRest(RecordIssue(s, k, url, issue, now), RecordIssue(t, k, url, issue, now))
  {
    hide Masked, BoundKind, IssuedCase;
  }

  lemma TransitionRest(s: State, t: State, id: string, k: string, reason: Option<string>, actor: Actor, now: int)
    requires Twins(s, t, id)
    ensures SameRest(Transition(s, k, reason, actor, now).state, Transition(t, k, reason, actor, now).state)
  {
    hide Masked, BoundKind, AllowedTransition, MovedCase, MoveTarget, MoveEvent;
    if k in s.cases.m {
      TwinCase(s, t, id, k);
      MaskKeeps(s.cases.m[k], t.cases.m[k]);
    }
  }

  lemma VerifyRest(settings: VerifierSettings, s: State, t: State, id: string, k: string, reason: string, now: int)
    requires Twins(s, t, id)
    ensures SameRest(VerifyCase(settings, s, k, reason, now).0, VerifyCase(settings, t, k, reason, now).0)
  {
    hide Masked, BoundKind, Resolves, PassObjectives, ResolvedCase, VerifyCase;
    Ladder.VerifyAsCommit(settings, s, k, reason, now);
    Ladder.VerifyAsCommit(settings, t, k, reason, now);
    if k in s.cases.m {
      TwinCase(s, t, id, k);
      MaskKeeps(s.cases.m[k], t.cases.m[k]);
      MaskedResolution(s.cases.m[k], settings, reason, now);
      MaskedResolution(t.cases.m[k], settings, reason, now);
    }
  }

  lemma NamedRest(policy: CasePolicy, s: State, t: State, a: Action, id: string)
    requires Twins(s, t, id) && OnNamedCase(a.op)
    ensures SameRest(Step(policy, s, a), Step(policy, t, a))
  {
    hide Twins, SameRest, Transition, VerifyCase, NoteScanDegraded, Acknowledge, RecordIssue;
    match a.op
    case NoteDegraded(k, cycle) => NoteRest(s, t, id, k, cycle, a.stamp.now);
    case DoAcknowledge(k, operator) => AcknowledgeRest(s, t, id, k, operator, a.stamp.now);
    case NoteIssue(k, url, issue) => IssueRest(s, t, id, k, url, issue, a.stamp.now);
    case DoTriage(k, actor) => TransitionRest(s, t, id, k, None, actor, a.stamp.now);
    case DoNeedsHuman(k, reason, actor) => TransitionRest(s, t, id, k, Some(reason), actor, a.stamp.now);
    case Verify(k, reason, settings) => VerifyRest(settings, s, t, id, k, reason, a.stamp.now);
  }

  /** The lookup finds corresponding cases. */
  lemma FoundTwins(s: State, t: State, id: string, f: Finding)
    requires Twins(s, t, id) && CasesKeyed(s) && CasesKeyed(t)
    ensures var (x, y) := (CaseByFingerprint(s, f.fingerprint), CaseByFingerprint(t, f.fingerprint));
            && x.Some? == y.Some?
            && (x.Some? ==>
                  && x.value.caseId == y.value.caseId && Masked(x.value) == Masked(y.value)
                  && x.value.caseId in s.cases.m && s.cases.m[x.value.caseId] == x.value)
  {
    FoundCase(s, f);
    FoundCase(t, f);
    hide CasesKeyed, CaseByFingerprint, Masked;
    forall k | k in s.cases.m ensures s.cases.m[k].fingerprint == t.cases.m[k].fingerprint {
      TwinCase(s, t, id, k);
      MaskKeeps(s.cases.m[k], t.cases.m[k]);
    }
  }

  lemma PassingRest(s: State, t: State, c: SecurityCase, d: SecurityCase, cycle: string, now: int)
    requires SameRest(s, t) && Masked(c) == Masked(d)
    ensures SameRest(RecordPassing(s, c, cycle, now).0, RecordPassing(t, d, cycle, now).0)
  {
    hide Masked, BoundKind, PassedCase;
    MaskKeeps(c, d);
    PassCounts(c, cycle, now);
    PassCounts(d, cycle, now);
  }

  lemma PassCounts(c: SecurityCase, cycle: string, now: int)
    ensures PassedCase(c, cycle, now).passCount == c.passCount + 1 && PassedCase(c, cycle, now).requiredPasses == c.requiredPasses
  {
  }

  lemma WithFinding(s: State, t: State, id: string, f: Finding, g: Finding)
    requires Twins(s, t, id)
    ensures Twins(s.(findings := s.findings.Put(f.findingId, f)), t.(findings := t.findings.Put(g.findingId, g)), id)
  {
    hide Masked;
  }

  lemma ObservedRest(policy: CasePolicy, s: State, t: State, a: Action, id: string)
    requires Twins(s, t, id) && CasesKeyed(s) && CasesKeyed(t) && a.op.Observe? && a.op.finding.passed
    ensures SameRest(Step(policy, s, a), Step(policy, t, a))
  {
    hide CasesKeyed, CaseByFingerprint, RecordPassing, Masked;
    var f := a.op.finding;
    var (s1, t1) := (s.(findings := s.findings.Put(f.findingId, f)), t.(findings := t.findings.Put(f.findingId, f)));
    SameCasesKeyed(s, s1);
    SameCasesKeyed(t, t1);
    WithFinding(s, t, id, f, f);
    FoundTwins(s1, t1, id, f);
    var (x, y) := (CaseByFingerprint(s1, f.fingerprint), CaseByFingerprint(t1, f.fingerprint));
    if x.Some? {
      PassingRest(s1, t1, x.value, y.value, a.op.cycle, a.stamp.now);
    }
  }

  lemma FailedRest(policy: CasePolicy, s: State, t: State, a: Action, id: string)
    requires Twins(s, t, id) && CasesKeyed(s) && CasesKeyed(t) && a.op.Observe? && !a.op.finding.passed && a.stamp.caseId !in s.cases.m
    requires s.cases.m[id].fingerprint != a.op.finding.fingerprint
    ensures SameRest(Step(policy, s, a), Step(policy, t, a))
  {
    hide CasesKeyed, BoundKind, Step, Masked, FailureEvents, OpeningEvents, OfControl;
    var f := a.op.finding;
    FailingAppends(policy, s, a);
    FailingAppends(policy, t, a);
    SameControls(s, t, id, a, a);
    if OfControl(s, a) {
      var k := ControlOf(s, a);
      TwinCase(s, t, id, k);
      assert t.cases.m[k] == s.cases.m[k];
    } else {
      NoControl(s, a);
      NoControl(t, a);
    }
  }

  lemma ControlOf(s: State, a: Action) returns (k: string)
    requires OfControl(s, a)
    ensures k in s.cases.m && s.cases.m[k].fingerprint == a.op.finding.fingerprint
  {
    k :| k in s.cases.m && s.cases.m[k].fingerprint == a.op.finding.fingerprint;
  }

  lemma NoControl(s: State, a: Action)
    requires a.op.Observe? && !OfControl(s, a)
    ensures forall k | k in s.cases.m :: s.cases.m[k].fingerprint != a.op.finding.fingerprint
  {
  }

  lemma RequestRest(policy: CasePolicy, s: State, t: State, a: Action, id: string)
    requires Twins(s, t, id) && OwnIds(s) && OwnIds(t) && a.op.AskHandoff?
    ensures SameRest(Step(policy, s, a), Step(policy, t, a))
  {
    hide RequestHandoff, BuildHandoff, HandoffReady, HandoffByKey, IdempotencyKey, Masked, Ladder.LinkedState;
    var (k, f, stamp) := (a.op.caseId, a.op.finding, a.stamp);
    Ladder.RequestAsCommit(s, k, f, a.op.passes, stamp);
    Ladder.RequestAsCommit(t, k, f, a.op.passes, stamp);
    Ladder.KeySame(s, t, IdempotencyKey(k, f));
    if StoresHandoff(s, k, f) {
      TwinCase(s, t, id, k);
      var (c, d) := (s.cases.m[k], t.cases.m[k]);
      MaskKeeps(c, d);
      var passes := if a.op.passes == 0 then c.requiredPasses else a.op.passes;
      Ladder.BuiltSame(f, c, d, passes, stamp);
      var h, o :| BuildHandoff(f, c, passes, stamp) == Ok(Bundle(h, [o]))
               && RequestHandoff(s, k, f, a.op.passes, stamp).state == Ladder.LinkedState(s, c, h, o, stamp.now);
      var h1, o1 :| BuildHandoff(f, d, passes, stamp) == Ok(Bundle(h1, [o1]))
                 && RequestHandoff(t, k, f, a.op.passes, stamp).state == Ladder.LinkedState(t, d, h1, o1, stamp.now);
      assert [o] == [o1] && [o][0] == [o1][0];
      LinkedRest(s, t, c, d, h, o, stamp.now);
    }
  }

  lemma LinkedRest(s: State, t: State, c: SecurityCase, d: SecurityCase, h: Handoff, o: Objective, now: int)
    requires SameRest(s, t) && c.status == d.status && c.caseId == d.caseId
    ensures SameRest(Ladder.LinkedState(s, c, h, o, now), Ladder.LinkedState(t, d, h, o, now))
  {
    hide HandedOffCase, BoundKind, MayAskHandoff;
  }

  lemma AcceptRest(s: State, t: State, u: Lhp.HandoffUpdate, h: Handoff, c: Option<SecurityCase>, d: Option<SecurityCase>)
    requires SameRest(s, t) && c.Some? == d.Some? && (c.Some? ==> c.value.status == d.value.status)
    ensures SameRest(AcceptCallback(s, u, h, c).state, AcceptCallback(t, u, h, d).state)
  {
    hide InboxRecord;
  }

  lemma StatusRest(s: State, t: State, h: string, status: Lhp.HandoffStatus, now: int)
    requires SameRest(s, t) && h in s.handoffs.m
    ensures SameRest(WithHandoffStatus(s, h, status, now), WithHandoffStatus(t, h, status, now))
  {
  }

  lemma UpdateRest(s: State, t: State, id: string, u: Lhp.HandoffUpdate, now: int)
    requires Twins(s, t, id) && AcceptedNow(s, u) && AcceptedNow(t, u)
    ensures SameRest(RecordEngineeringUpdate(s, u, now).state, RecordEngineeringUpdate(t, u, now).state)
  {
    UpdateCases(s, u, now);
    UpdateCases(t, u, now);
    StatusRest(s, t, u.handoffId, u.status, now);
    hide RecordEngineeringUpdate, BoundKind, Masked, UpdatedCase, Commit, AcceptCallback, WithHandoffStatus, SameRest, CallbackFor,
         Lhp.AllowedHandoffTransition;
    var (s1, t1) := (WithHandoffStatus(s, u.handoffId, u.status, now), WithHandoffStatus(t, u.handoffId, u.status, now));
    var h1 := s.handoffs.m[u.handoffId].(status := u.status, updatedAt := now);
    if u.caseId in s.cases.m {
      TwinCase(s, t, id, u.caseId);
      var (c, d) := (s.cases.m[u.caseId], t.cases.m[u.caseId]);
      MaskKeeps(c, d);
      UpdatedStatus(c, d, u, now);
      var (c1, d1) := (UpdatedCase(c, u, now), UpdatedCase(d, u, now));
      var e := [NewEvent(c.caseId, EngineeringLoop, EngineeringUpdated(u.updateType, u.status, u.handoffId))];
      CommitRest(s1, t1, c1, d1, e);
      AcceptRest(Commit(s1, c1, e), Commit(t1, d1, e), u, h1, Some(c1), Some(d1));
    } else {
      AcceptRest(s1, t1, u, h1, None, None);
    }
  }

  lemma AcceptedAlike(s: State, t: State, id: string, u: Lhp.HandoffUpdate)
    requires Twins(s, t, id)
    ensures AcceptedNow(s, u) == AcceptedNow(t, u) && SameRest(s, t)
  {
    hide Masked, Lhp.AllowedHandoffTransition;
  }

  lemma DeliverRest(policy: CasePolicy, s: State, t: State, a: Action, id: string)
    requires Twins(s, t, id) && a.op.Deliver?
    ensures SameRest(Step(policy, s, a), Step(policy, t, a))
  {
    hide RecordEngineeringUpdate, Lhp.ValidateUpdate, SameRest, Twins, AcceptedNow;
    if Lhp.ValidateUpdate(a.op.raw).Ok? {
      var u := Lhp.ValidateUpdate(a.op.raw).value;
      AcceptedAlike(s, t, id, u);
      if AcceptedNow(s, u) {
        UpdateRest(s, t, id, u, a.stamp.now);
      } else {
        RejectedStays(s, u, a.stamp.now);
        RejectedStays(t, u, a.stamp.now);
      }
    } else {
      InvalidAlike(s, t, id);
    }
  }

  lemma RejectedStays(s: State, u: Lhp.HandoffUpdate, now: int)
    requires !AcceptedNow(s, u)
    ensures RecordEngineeringUpdate(s, u, now).state == s
  {
    UpdateCases(s, u, now);
    hide RecordEngineeringUpdate;
  }

  lemma InvalidAlike(s: State, t: State, id: string)
    requires Twins(s, t, id)
    ensures SameRest(s, t)
  {
  }

  lemma UpdatedStatus(c: SecurityCase, d: SecurityCase, u: Lhp.HandoffUpdate, now: int)
    requires c.status == d.status
    ensures UpdatedCase(c, u, now).status == UpdatedCase(d, u, now).status
  {
    hide StatusAfterUpdate;
  }

  lemma TwinKeys(policy: CasePolicy, s: State, t: State, a: Action, b: Action, id: string)
    requires CasesKeyed(s) && CasesKeyed(t) && Twins(s, t, id) && Admissible(s, a) && Admissible(t, b)
    requires a == b || (a.op.Observe? && b.op.Observe? && a.stamp == b.stamp && a.op.finding.passed == b.op.finding.passed
                        && a.op.finding.fingerprint == b.op.finding.fingerprint)
    ensures Step(policy, s, a).cases.m.Keys == Step(policy, t, b).cases.m.Keys
  {
    hide Step, Twins, CasesKeyed, Admissible, OfControl;
    SameControls(s, t, id, a, b);
    TwinIds(s, t, id);
    forall k ensures k in Step(policy, s, a).cases.m <==> k in Step(policy, t, b).cases.m {
      OpensIff(policy, s, a, k);
      OpensIff(policy, t, b, k);
    }
  }

  lemma TwinIds(s: State, t: State, id: string)
    requires Twins(s, t, id)
    ensures id in s.cases.m && s.cases.m.Keys == t.cases.m.Keys
  {
  }

  lemma TwinOthers(policy: CasePolicy, s: State, t: State, a: Action, id: string, k: string)
    requires CasesKeyed(s) && CasesKeyed(t) && Twins(s, t, id) && Admissible(s, a) && Admissible(t, a)
    requires k in Step(policy, s, a).cases.m && k in Step(policy, t, a).cases.m && k != id
    ensures Step(policy, t, a).cases.m[k] == Step(policy, s, a).cases.m[k]
  {
    hide Step, MovedBy, Masked, CasesKeyed, TriagedCase, OpenedCase, Scrubbed;
    StepMoves(policy, s, a, k);
    StepMoves(policy, t, a, k);
    if k in s.cases.m {
      TwinsMoveAlike(s, t, id, s.cases.m[k], a);
    }
  }

  lemma TwinSelf(policy: CasePolicy, s: State, t: State, a: Action, id: string)
    requires CasesKeyed(s) && CasesKeyed(t) && Twins(s, t, id) && Admissible(s, a) && Admissible(t, a)
    ensures id in Step(policy, s, a).cases.m && id in Step(policy, t, a).cases.m
    ensures Masked(Step(policy, s, a).cases.m[id]) == Masked(Step(policy, t, a).cases.m[id])
  {
    hide Step, MovedBy, Masked, CasesKeyed, TriagedCase, OpenedCase, Scrubbed;
    StepMoves(policy, s, a, id);
    StepMoves(policy, t, a, id);
    TwinsMoveAlike(s, t, id, t.cases.m[id], a);
    MaskedMove(s, s.cases.m[id], a);
    MaskedMove(s, t.cases.m[id], a);
  }

  lemma MakeTwins(s: State, t: State, id: string)
    requires id in s.cases.m && s.cases.m.Keys == t.cases.m.Keys && SameRest(s, t)
    requires forall k | k in s.cases.m && k != id :: t.cases.m[k] == s.cases.m[k]
    requires Masked(s.cases.m[id]) == Masked(t.cases.m[id])
    ensures Twins(s, t, id)
  {
    hide Masked;
  }

  /** Any operation but a failing observation of the case's own control keeps twins twins. */
  lemma TwinStep(policy: CasePolicy, s: State, t: State, a: Action, id: string)
    requires Inv(policy, s) && Inv(policy, t) && Twins(s, t, id) && Admissible(s, a) && Admissible(t, a)
    requires id in s.cases.m && !AllClear.FailsControl(a, s.cases.m[id].fingerprint)
    ensures Twins(Step(policy, s, a), Step(policy, t, a), id)
  {
    hide Inv, Step, Masked, SameRest, CasesKeyed, OwnIds, Twins, Admissible;
    Engineering.InvHandoffs(policy, s);
    Engineering.InvHandoffs(policy, t);
    OwnIdsOf(s);
    OwnIdsOf(t);
    var (s1, t1) := (Step(policy, s, a), Step(policy, t, a));
    TwinKeys(policy, s, t, a, a, id);
    forall k | k in s1.cases.m && k != id ensures t1.cases.m[k] == s1.cases.m[k] {
      TwinOthers(policy, s, t, a, id, k);
    }
    TwinSelf(policy, s, t, a, id);
    StepRest(policy, s, t, a, id);
    MakeTwins(s1, t1, id);
  }

  ghost predicate OfControl(s: State, a: Action) {
    a.op.Observe? && exists k | k in s.cases.m :: s.cases.m[k].fingerprint == a.op.finding.fingerprint
  }

  lemma OpensIff(policy: CasePolicy, s: State, a: Action, k: string)
    requires CasesKeyed(s) && Admissible(s, a)
    ensures k in Step(policy, s, a).cases.m
       <==> k in s.cases.m || (a.op.Observe? && !a.op.finding.passed && k == a.stamp.caseId && !OfControl(s, a))
  {
    hide Step, CasesKeyed, MovedBy, TriagedCase, OpenedCase, Scrubbed;
    StepMoves(policy, s, a, k);
    if a.op.Observe? && !a.op.finding.passed && k == a.stamp.caseId {
      if k in Step(policy, s, a).cases.m {
        NoneOfControl(policy, s, a);
      }
      if !OfControl(s, a) {
        Opens(policy, s, a);
      }
    }
  }

  lemma Opens(policy: CasePolicy, s: State, a: Action)
    requires CasesKeyed(s) && a.op.Observe? && !a.op.finding.passed && !OfControl(s, a)
    ensures a.stamp.caseId in Step(policy, s, a).cases.m
  {
    hide CasesKeyed, CaseByFingerprint, RecordFailing, TriagedCase, OpenedCase, AfterFailure;
    var f := a.op.finding;
    var s1 := s.(findings := s.findings.Put(f.findingId, f));
    SameCasesKeyed(s, s1);
    FoundCase(s1, f);
    FailingMoves(policy, s1, f, None, a.op.cycle, a.stamp);
  }

  lemma SameControls(s: State, t: State, id: string, a: Action, b: Action)
    requires Twins(s, t, id)
    requires a == b || (a.op.Observe? && b.op.Observe? && a.op.finding.fingerprint == b.op.finding.fingerprint)
    ensures OfControl(s, a) == OfControl(t, b)
  {
    hide Masked;
    if a.op.Observe? {
      forall k | k in s.cases.m ensures s.cases.m[k].fingerprint == t.cases.m[k].fingerprint {
        TwinCase(s, t, id, k);
        MaskKeeps(s.cases.m[k], t.cases.m[k]);
      }
    }
  }

  lemma StepRest(policy: CasePolicy, s: State, t: State, a: Action, id: string)
    requires CasesKeyed(s) && CasesKeyed(t) && OwnIds(s) && OwnIds(t) && Twins(s, t, id) && Admissible(s, a)
    requires !AllClear.FailsControl(a, s.cases.m[id].fingerprint)
    ensures SameRest(Step(policy, s, a), Step(policy, t, a))
  {
    hide Step, SameRest, CasesKeyed, OwnIds, Masked, Scrubbed;
    if a.op.AskHandoff? {
      RequestRest(policy, s, t, a, id);
    } else if a.op.Deliver? {
      DeliverRest(policy, s, t, a, id);
    } else if a.op.Observe? {
      if a.op.finding.passed {
        ObservedRest(policy, s, t, a, id);
      } else {
        FailedRest(policy, s, t, a, id);
      }
    } else {
      NamedRest(policy, s, t, a, id);
    }
  }

  // --- the same trail with another severity ---

  function WithSeverity(sign: Sign, a: Action, severity: Severity): Action
    requires a.op.Observe?
  {
    var f := a.op.finding;
    a.(op := Observe(f.(severity := severity, signature := sign(f.fingerprint, severity, f.passed)), a.op.cycle, a.op.healthy))
  }

  lemma WithSeverityAdmissible(sign: Sign, s: State, t: State, a: Action, severity: Severity, id: string)
    requires a.op.Observe? && Admissible(s, a) && Twins(s, t, id)
    ensures Admissible(t, WithSeverity(sign, a, severity)) && Signed(sign, WithSeverity(sign, a, severity))
  {
    hide Masked;
    var raw: Finding :| a.op.finding == ScrubFinding(raw);
    var b := WithSeverity(sign, a, severity);
    assert b.op.finding == ScrubFinding(raw.(severity := severity, signature := b.op.finding.signature));
  }

  /** Two failing observations of the control that differ in severity, but agree on whether it changes the signature, keep twins twins. */
  lemma TwinFailure(policy: CasePolicy, sign: Sign, s: State, t: State, a: Action, severity: Severity, id: string)
    requires Inv(policy, s) && Inv(policy, t) && Twins(s, t, id) && Admissible(s, a)
    requires id in s.cases.m && id in t.cases.m && AllClear.FailsControl(a, s.cases.m[id].fingerprint)
    requires (a.op.finding.signature != s.cases.m[id].signature)
          == (WithSeverity(sign, a, severity).op.finding.signature != t.cases.m[id].signature)
    ensures var (s1, t1) := (Step(policy, s, a), Step(policy, t, WithSeverity(sign, a, severity)));
            && Twins(s1, t1, id) && s1.cases.m[id].severity == a.op.finding.severity && t1.cases.m[id].severity == severity
  {
    hide Inv, Step, Masked, CasesKeyed, Twins, SameRest, Admissible, WithSeverity;
    var b := WithSeverity(sign, a, severity);
    WithSeverityKeeps(sign, a, severity);
    WithSeverityAdmissible(sign, s, t, a, severity, id);
    Engineering.InvHandoffs(policy, s);
    Engineering.InvHandoffs(policy, t);
    StoredCase(policy, s, id);
    var (s1, t1) := (Step(policy, s, a), Step(policy, t, b));
    TwinKeys(policy, s, t, a, b, id);
    forall k | k in s1.cases.m && k != id ensures t1.cases.m[k] == s1.cases.m[k] {
      FailureOthers(policy, s, t, a, b, id, k);
    }
    FailureSelf(policy, s, t, a, b, id);
    FailureRest(policy, s, t, a, b, id);
    MakeTwins(s1, t1, id);
  }

  lemma WithSeverityKeeps(sign: Sign, a: Action, severity: Severity)
    requires a.op.Observe?
    ensures var b := WithSeverity(sign, a, severity);
            && b.op.Observe? && b.stamp == a.stamp && b.op.cycle == a.op.cycle
            && b.op.finding.findingId == a.op.finding.findingId && b.op.finding.fingerprint == a.op.finding.fingerprint
            && b.op.finding.passed == a.op.finding.passed && b.op.finding.severity == severity
  {
  }

  /** Two failing observations that may differ in severity and signature. */
  predicate Alike(a: Action, b: Action) {
    && a.op.Observe? && b.op.Observe? && a.stamp == b.stamp && a.op.cycle == b.op.cycle
    && !a.op.finding.passed && !b.op.finding.passed
    && b.op.finding.findingId == a.op.finding.findingId && b.op.finding.fingerprint == a.op.finding.fingerprint
  }

  lemma FailureOthers(policy: CasePolicy, s: State, t: State, a: Action, b: Action, id: string, k: string)
    requires CasesKeyed(s) && CasesKeyed(t) && Twins(s, t, id) && Admissible(s, a) && Admissible(t, b) && Alike(a, b)
    requires s.cases.m[id].fingerprint == a.op.finding.fingerprint
    requires k in Step(policy, s, a).cases.m && k in Step(policy, t, b).cases.m && k != id
    ensures Step(policy, t, b).cases.m[k] == Step(policy, s, a).cases.m[k]
  {
    hide Step, MovedBy, Masked, CasesKeyed, TriagedCase, OpenedCase, Scrubbed, OfControl;
    OpensIff(policy, s, a, k);
    assert OfControl(s, a) by { ControlFound(s, a, id); }
    StepMoves(policy, s, a, k);
    StepMoves(policy, t, b, k);
    OtherControl(s, a, k, id);
    MovedElsewhereByFailure(s, s.cases.m[k], a);
    MovedElsewhereByFailure(t, s.cases.m[k], b);
  }

  lemma ControlFound(s: State, a: Action, id: string)
    requires a.op.Observe? && id in s.cases.m && s.cases.m[id].fingerprint == a.op.finding.fingerprint
    ensures OfControl(s, a)
  {
  }

  lemma FailureSelf(policy: CasePolicy, s: State, t: State, a: Action, b: Action, id: string)
    requires CasesKeyed(s) && CasesKeyed(t) && Twins(s, t, id) && Admissible(s, a) && Admissible(t, b) && Alike(a, b)
    requires s.cases.m[id].fingerprint == a.op.finding.fingerprint
    ensures var (s1, t1) := (Step(policy, s, a), Step(policy, t, b));
            && id in s1.cases.m && id in t1.cases.m && Masked(s1.cases.m[id]) == Masked(t1.cases.m[id])
            && s1.cases.m[id].severity == a.op.finding.severity && t1.cases.m[id].severity == b.op.finding.severity
  {
    hide Step, MovedBy, Masked, CasesKeyed, TriagedCase, OpenedCase, AfterFailure, Scrubbed;
    var (c, d) := (s.cases.m[id], t.cases.m[id]);
    MaskKeeps(c, d);
    StepMoves(policy, s, a, id);
    StepMoves(policy, t, b, id);
    MovedByFailure(s, c, a);
    MovedByFailure(t, d, b);
    MaskedFailure(c, a.op.finding, b.op.finding, a.op.cycle, a.stamp.now);
    MaskedFailure(d, b.op.finding, b.op.finding, a.op.cycle, a.stamp.now);
  }

  lemma FailureRest(policy: CasePolicy, s: State, t: State, a: Action, b: Action, id: string)
    requires CasesKeyed(s) && CasesKeyed(t) && Twins(s, t, id) && Admissible(s, a) && Admissible(t, b) && Alike(a, b)
    requires s.cases.m[id].fingerprint == a.op.finding.fingerprint
    requires (a.op.finding.signature != s.cases.m[id].signature) == (b.op.finding.signature != t.cases.m[id].signature)
    ensures SameRest(Step(policy, s, a), Step(policy, t, b))
  {
    hide Step, Masked, CasesKeyed, BoundKind, Scrubbed;
    var (c, d) := (s.cases.m[id], t.cases.m[id]);
    MaskKeeps(c, d);
    FailingAppends(policy, s, a);
    FailingAppends(policy, t, b);
    assert FailureEvents(c, a.op.finding) == FailureEvents(d, b.op.finding);
  }

  lemma OtherControl(s: State, a: Action, k: string, id: string)
    requires CasesKeyed(s) && id in s.cases.m && AllClear.FailsControl(a, s.cases.m[id].fingerprint) && k in s.cases.m && k != id
    ensures s.cases.m[k].fingerprint != a.op.finding.fingerprint
  {
  }

  lemma MovedElsewhereByFailure(s: State, c: SecurityCase, a: Action)
    requires a.op.Observe? && a.op.finding.fingerprint != c.fingerprint
    ensures MovedBy(s, c, a) == c
  {
  }

  lemma MovedByFailure(s: State, c: SecurityCase, a: Action)
    requires AllClear.FailsControl(a, c.fingerprint)
    ensures MovedBy(s, c, a) == AfterFailure(c, a.op.finding, a.op.cycle, a.stamp.now)
    ensures MovedBy(s, c, a).severity == a.op.finding.severity
  {
  }

  lemma ThirdSeverity(a: Severity, b: Severity) returns (c: Severity)
    ensures c != a && c != b
  {
    c := if a != LOW && b != LOW then LOW else if a != MEDIUM && b != MEDIUM then MEDIUM else HIGH;
  }

  lemma TwinsRefl(s: State, id: string)
    requires id in s.cases.m
    ensures Twins(s, s, id)
  {
    hide Masked;
  }

  lemma TwinAdmissible(s: State, t: State, a: Action, id: string)
    requires Twins(s, t, id) && Admissible(s, a)
    ensures Admissible(t, a)
  {
    hide Masked, Scrubbed;
  }

  lemma Extended(policy: CasePolicy, sign: Sign, actions: seq<Action>, a: Action)
    requires AdmissibleRun(policy, actions) && SignedRun(sign, actions) && Admissible(Run(policy, actions), a) && Signed(sign, a)
    ensures AdmissibleRun(policy, actions + [a]) && SignedRun(sign, actions + [a])
    ensures Run(policy, actions + [a]) == Step(policy, Run(policy, actions), a)
  {
    hide Step, Admissible, Signed, RunFrom, AdmissibleFrom;
    RunFromAppend(policy, EmptyState(), actions, [a]);
    RunOne(policy, Run(policy, actions), a);
  }

  /** Once a signature changed, another run leaves the very same store but for the severity and signature of the case. */
  lemma {:induction false} AnotherSeverity(policy: CasePolicy, sign: Sign, actions: seq<Action>, id: string) returns (other: seq<Action>)
    requires AdmissibleRun(policy, actions) && SignedRun(sign, actions) && Separates(sign)
    requires id in Run(policy, actions).cases.m && Obscured(LogOf(Run(policy, actions).events, id))
    ensures AdmissibleRun(policy, other) && SignedRun(sign, other)
    ensures Twins(Run(policy, actions), Run(policy, other), id)
    ensures Run(policy, other).cases.m[id].severity != Run(policy, actions).cases.m[id].severity
  {
    hide Inv, Step, Admissible, Told, LogOf, Signed, MovedBy, Twins, Obscured, WithSeverity, Run, AdmissibleFrom, SignedRun;
    NotEmptyRun(policy, actions, id);
    var before, a := actions[..|actions| - 1], actions[|actions| - 1];
    RunFront(policy, sign, actions);
    var s := Run(policy, before);
    Reachable(policy, before);
    if id !in s.cases.m {
      Engineering.InvHandoffs(policy, s);
      StepMoves(policy, s, a, id);
      OpeningTold(policy, sign, s, a);
      assert false;
    }
    var c := s.cases.m[id];
    RunTold(policy, sign, before, id);
    StepLog(policy, s, a, id);
    if AllClear.FailsControl(a, c.fingerprint) && a.op.finding.signature != c.signature {
      var severity := ThirdSeverity(c.severity, a.op.finding.severity);
      TwinsRefl(s, id);
      WithSeverityAdmissible(sign, s, s, a, severity, id);
      Differs(sign, c, LogOf(s.events, id), a, severity);
      TwinFailure(policy, sign, s, s, a, severity, id);
      other := before + [WithSeverity(sign, a, severity)];
      Extended(policy, sign, before, WithSeverity(sign, a, severity));
    } else {
      var first := AnotherSeverity(policy, sign, before, id);
      var t := Run(policy, first);
      Reachable(policy, first);
      InTwin(s, t, id);
      if AllClear.FailsControl(a, c.fingerprint) {
        RunTold(policy, sign, first, id);
        Agrees(sign, c, t.cases.m[id], LogOf(s.events, id), LogOf(t.events, id), a);
        WithSeverityAdmissible(sign, s, t, a, t.cases.m[id].severity, id);
        TwinFailure(policy, sign, s, t, a, t.cases.m[id].severity, id);
        other := first + [WithSeverity(sign, a, t.cases.m[id].severity)];
        Extended(policy, sign, first, WithSeverity(sign, a, t.cases.m[id].severity));
      } else {
        TwinAdmissible(s, t, a, id);
        TwinStep(policy, s, t, a, id);
        Engineering.InvHandoffs(policy, s);
        Engineering.InvHandoffs(policy, t);
        StepMoves(policy, s, a, id);
        StepMoves(policy, t, a, id);
        MoveKeepsSeverity(s, c, a);
        MoveKeepsSeverity(t, t.cases.m[id], a);
        other := first + [a];
        Extended(policy, sign, first, a);
      }
    }
  }

  lemma InTwin(s: State, t: State, id: string)
    requires Twins(s, t, id)
    ensures id in t.cases.m && t.cases.m[id].fingerprint == s.cases.m[id].fingerprint && t.events == s.events
  {
    MaskKeeps(s.cases.m[id], t.cases.m[id]);
    hide Masked;
  }

  lemma NotEmptyRun(policy: CasePolicy, actions: seq<Action>, id: string)
    requires id in Run(policy, actions).cases.m
    ensures actions != []
  {
    hide Step;
  }

  lemma RunFront(policy: CasePolicy, sign: Sign, actions: seq<Action>)
    requires actions != [] && AdmissibleRun(policy, actions) && SignedRun(sign, actions)
    ensures var (before, a) := (actions[..|actions| - 1], actions[|actions| - 1]);
            && AdmissibleRun(policy, before) && SignedRun(sign, before) && Admissible(Run(policy, before), a) && Signed(sign, a)
            && Run(policy, actions) == Step(policy, Run(policy, before), a)
  {
    hide Step, Admissible, Signed;
    assert Signed(sign, actions[|actions| - 1]);
  }

  lemma Differs(sign: Sign, c: SecurityCase, log: seq<Event>, a: Action, severity: Severity)
    requires Separates(sign) && Told(sign, c, log) && AllClear.FailsControl(a, c.fingerprint) && severity != c.severity
    ensures WithSeverity(sign, a, severity).op.finding.signature != c.signature
  {
  }

  lemma Agrees(sign: Sign, c: SecurityCase, d: SecurityCase, log: seq<Event>, other: seq<Event>, a: Action)
    requires Separates(sign) && Told(sign, c, log) && Told(sign, d, other) && d.fingerprint == c.fingerprint && Signed(sign, a)
    requires AllClear.FailsControl(a, c.fingerprint) && a.op.finding.signature == c.signature
    ensures a.op.finding.severity == c.severity
    ensures WithSeverity(sign, a, d.severity).op.finding.signature == d.signature
  {
  }

  /** Every run that leaves the same trail for the case leaves it the same severity. */
  ghost predicate SeverityReadable(policy: CasePolicy, sign: Sign, actions: seq<Action>, id: string)
    requires id in Run(policy, actions).cases.m
  {
    forall other | SameTrail(policy, sign, actions, other, id) ::
      Run(policy, other).cases.m[id].severity == Run(policy, actions).cases.m[id].severity
  }

  ghost predicate SameTrail(policy: CasePolicy, sign: Sign, actions: seq<Action>, other: seq<Action>, id: string) {
    && AdmissibleRun(policy, other) && SignedRun(sign, other)
    && id in Run(policy, other).cases.m
    && LogOf(Run(policy, other).events, id) == LogOf(Run(policy, actions).events, id)
  }

  /**
   The severity of a case can be read from its trail exactly while no refresh or reopening says
   that the signature changed; the trail then still states it in its opening event. As soon as
   one does, another run with the same trail ends in another severity.
   */
  lemma SeverityReadableIff(policy: CasePolicy, sign: Sign, actions: seq<Action>, id: string)
    requires AdmissibleRun(policy, actions) && SignedRun(sign, actions) && Separates(sign)
    requires id in Run(policy, actions).cases.m
    ensures SeverityReadable(policy, sign, actions, id) <==> !Obscured(LogOf(Run(policy, actions).events, id))
    ensures var log := LogOf(Run(policy, actions).events, id);
            && log != [] && log[0].kind.CaseOpened?
            && (!Obscured(log) ==> Run(policy, actions).cases.m[id].severity == log[0].kind.severity)
  {
    hide LogOf, Run, AdmissibleFrom, SignedRun, Separates, Obscured;
    RunTold(policy, sign, actions, id);
    if Obscured(LogOf(Run(policy, actions).events, id)) {
      var other := AnotherSeverity(policy, sign, actions, id);
      assert SameTrail(policy, sign, actions, other, id) by { InTwin(Run(policy, actions), Run(policy, other), id); }
    } else {
      forall other | SameTrail(policy, sign, actions, other, id)
        ensures Run(policy, other).cases.m[id].severity == Run(policy, actions).cases.m[id].severity
      {
        RunTold(policy, sign, other, id);
      }
    }
  }
}
