/** A case as a digest of its history: what its record says about the failing observations of its control, and which operations touch which field. */
module Digest {
  import opened Wrappers
  import opened Dicts
  import opened Models
  import opened Policy
  import opened Lifecycle
  import opened Runs
  import opened Invariants
  import opened CaseMoves
  import opened Firsts
  import AllClear
  import Labels
  import Preservation
  import Lhp = LhpHandoff

  // --- the failing observations of a control ---

  datatype Failure = Failure(finding: Finding, now: int)

  /** Those of a run, in order. */
  function Failures(actions: seq<Action>, fingerprint: string): seq<Failure> {
    if actions == [] then []
    else
      var a := actions[|actions| - 1];
      Failures(actions[..|actions| - 1], fingerprint)
      + if a.op.Observe? && a.op.finding.fingerprint == fingerprint && !a.op.finding.passed then [Failure(a.op.finding, a.stamp.now)] else []
  }

  /** The ids of their findings. */
  function Ids(failures: seq<Failure>): seq<string> {
    seq(|failures|, i requires 0 <= i < |failures| => failures[i].finding.findingId)
  }

  // --- the record over whole runs ---

  /**
   The record of a case tells its failures: their distinct finding ids, the severity, signature and
   time of the last, the signature of the one before it, and the texts and time of the first.
   */
  ghost predicate Tells(c: SecurityCase, failures: seq<Failure>) {
    && failures != []
    && var (first, last) := (failures[0], failures[|failures| - 1]);
       && c.findingIds == Distinct(Ids(failures))
       && c.severity == last.finding.severity && c.signature == last.finding.signature && c.lastFailing == Some(last.now)
       && c.previousSignature == (if |failures| > 1 then failures[|failures| - 2].finding.signature else "")
       && c.openedAt == first.now
       && c.title == Labels.SanitizeLabel(first.finding.title, 200) && c.summary == Labels.SanitizeLabel(first.finding.summary, 600)
       && c.resourceId == Labels.SanitizeLabel(first.finding.resource, 120)
  }

  lemma IdsSnoc(failures: seq<Failure>, x: Failure)
    ensures var ids := Distinct(Ids(failures));
            Distinct(Ids(failures + [x])) == if x.finding.findingId in ids then ids else ids + [x.finding.findingId]
  {
    DistinctSnoc(Ids(failures), x.finding.findingId);
    assert Ids(failures + [x]) == Ids(failures) + [x.finding.findingId];
  }

  lemma FailureTells(c: SecurityCase, failures: seq<Failure>, f: Finding, cycle: string, now: int)
    requires Tells(c, failures)
    ensures Tells(AfterFailure(c, f, cycle, now), failures + [Failure(f, now)])
  {
    hide Distinct, Ids, Labels.SanitizeLabel;
    IdsSnoc(failures, Failure(f, now));
  }

  lemma OpeningTells(policy: CasePolicy, f: Finding, cycle: string, stamp: Stamp)
    ensures Tells(TriagedCase(OpenedCase(policy, f, cycle, stamp), stamp.now), [Failure(f, stamp.now)])
  {
    var x := Failure(f, stamp.now);
    IdsSnoc([], x);
    assert [] + [x] == [x];
    hide Labels.SanitizeLabel;
  }

  /** Nothing but a failing observation touches what the record tells of them. */
  lemma OthersTellNothing(s: State, c: SecurityCase, failures: seq<Failure>, a: Action)
    requires Tells(c, failures) && !AllClear.FailsControl(a, c.fingerprint)
    ensures Tells(MovedBy(s, c, a), failures)
  {
    hide Distinct, Ids, Labels.SanitizeLabel, CanResolve, StoresHandoff, Accepted, Lhp.ValidateUpdate, AllowedTransition, StatusAfterUpdate;
  }

  /** Over every run, for every case. */
  lemma {:induction false} RunTellsFailures(policy: CasePolicy, actions: seq<Action>, id: string)
    requires AdmissibleRun(policy, actions) && id in Run(policy, actions).cases.m
    ensures Tells(Run(policy, actions).cases.m[id], Failures(actions, Run(policy, actions).cases.m[id].fingerprint))
  {
    hide Inv, Step, Admissible, MovedBy, Tells, AfterFailure, TriagedCase, OpenedCase;
    var before, a := actions[..|actions| - 1], actions[|actions| - 1];
    var (s, t) := (Run(policy, before), Run(policy, actions));
    Preservation.Reachable(policy, before);
    Keyed(policy, s);
    StepMoves(policy, s, a, id);
    if id in s.cases.m {
      var c := s.cases.m[id];
      RunTellsFailures(policy, before, id);
      StatusMoves(s, c, a);
      if AllClear.FailsControl(a, c.fingerprint) {
        FailingMoves(s, c, a);
        FailureTells(c, Failures(before, c.fingerprint), a.op.finding, a.op.cycle, a.stamp.now);
      } else {
        OthersTellNothing(s, c, Failures(before, c.fingerprint), a);
        assert Failures(before, c.fingerprint) + [] == Failures(before, c.fingerprint);
      }
    } else {
      OpenedFingerprint(policy, a.op.finding, a.op.cycle, a.stamp);
      OpeningTells(policy, a.op.finding, a.op.cycle, a.stamp);
      NoneBefore(policy, before, a.op.finding.fingerprint, a, id);
      var x := Failure(a.op.finding, a.stamp.now);
      assert [] + [x] == [x];
    }
  }

  lemma Keyed(policy: CasePolicy, s: State)
    requires Inv(policy, s)
    ensures CasesKeyed(s)
  {
  }

  lemma FailingMoves(s: State, c: SecurityCase, a: Action)
    requires AllClear.FailsControl(a, c.fingerprint)
    ensures MovedBy(s, c, a) == AfterFailure(c, a.op.finding, a.op.cycle, a.stamp.now)
  {
  }

  lemma OpenedFingerprint(policy: CasePolicy, f: Finding, cycle: string, stamp: Stamp)
    ensures TriagedCase(OpenedCase(policy, f, cycle, stamp), stamp.now).fingerprint == f.fingerprint
  {
  }

  /** A control without a case has not failed yet: its first failure opens one, and none is ever deleted. */
  lemma {:induction false} NoCaseNoFailure(policy: CasePolicy, actions: seq<Action>, fingerprint: string)
    requires AdmissibleRun(policy, actions)
    requires forall k | k in Run(policy, actions).cases.m :: Run(policy, actions).cases.m[k].fingerprint != fingerprint
    ensures Failures(actions, fingerprint) == []
  {
    hide Inv, Step, Admissible, MovedBy, AfterFailure, TriagedCase, OpenedCase;
    if actions != [] {
      var before, a := actions[..|actions| - 1], actions[|actions| - 1];
      var (s, t) := (Run(policy, before), Run(policy, actions));
      Preservation.Reachable(policy, before);
      Keyed(policy, s);
      forall k | k in s.cases.m ensures s.cases.m[k].fingerprint != fingerprint {
        StepMoves(policy, s, a, k);
        StatusMoves(s, s.cases.m[k], a);
      }
      NoCaseNoFailure(policy, before, fingerprint);
      if AllClear.FailsControl(a, fingerprint) {
        FailureHasCase(policy, s, a);
      }
    }
  }

  lemma FailureHasCase(policy: CasePolicy, s: State, a: Action)
    requires a.op.Observe? && !a.op.finding.passed && CasesKeyed(s) && Admissible(s, a)
    ensures exists k | k in Step(policy, s, a).cases.m :: Step(policy, s, a).cases.m[k].fingerprint == a.op.finding.fingerprint
  {
    hide CasesKeyed, FailedCase, TriagedCase, OpenedCase, Commit, CaseByFingerprint, BoundKind, BoundText, Scrubbed, CaseMoves.AfterFailure;
    var f := a.op.finding;
    var s1 := s.(findings := s.findings.Put(f.findingId, f));
    SameCasesKeyed(s, s1);
    FoundCase(s1, f);
    var existing := CaseByFingerprint(s1, f.fingerprint);
    CaseMoves.FailingMoves(policy, s1, f, existing, a.op.cycle, a.stamp);
    OpenedFingerprint(policy, f, a.op.cycle, a.stamp);
    var t := Step(policy, s, a);
    if existing.Some? {
      FailedFingerprint(existing.value, f, a.op.cycle, a.stamp.now);
      assert t.cases.m[existing.value.caseId].fingerprint == f.fingerprint;
    } else {
      assert t.cases.m[a.stamp.caseId].fingerprint == f.fingerprint;
    }
  }

  lemma FailedFingerprint(c: SecurityCase, f: Finding, cycle: string, now: int)
    ensures AfterFailure(c, f, cycle, now).fingerprint == c.fingerprint
  {
  }

  /** The observation that opens a case is the first failure of its control. */
  lemma NoneBefore(policy: CasePolicy, before: seq<Action>, fingerprint: string, a: Action, id: string)
    requires AdmissibleRun(policy, before) && Admissible(Run(policy, before), a)
    requires a.op.Observe? && !a.op.finding.passed && a.op.finding.fingerprint == fingerprint
    requires id !in Run(policy, before).cases.m && id in Step(policy, Run(policy, before), a).cases.m
    ensures Failures(before, fingerprint) == []
  {
    hide Run, Step, AdmissibleFrom, Admissible, Inv;
    var s := Run(policy, before);
    Preservation.Reachable(policy, before);
    Keyed(policy, s);
    OpensUnknown(policy, s, a, id);
    NoCaseNoFailure(policy, before, fingerprint);
  }

  lemma OpensUnknown(policy: CasePolicy, s: State, a: Action, id: string)
    requires CasesKeyed(s) && a.op.Observe? && !a.op.finding.passed && id !in s.cases.m && id in Step(policy, s, a).cases.m
    ensures forall k | k in s.cases.m :: s.cases.m[k].fingerprint != a.op.finding.fingerprint
  {
    hide CasesKeyed, FailedCase, TriagedCase, OpenedCase, Commit, CaseByFingerprint, BoundKind, CaseMoves.AfterFailure;
    var f := a.op.finding;
    var s1 := s.(findings := s.findings.Put(f.findingId, f));
    SameCasesKeyed(s, s1);
    FoundCase(s1, f);
    CaseMoves.FailingMoves(policy, s1, f, CaseByFingerprint(s1, f.fingerprint), a.op.cycle, a.stamp);
  }

  // --- which operations touch which field ---

  /** A failing observation of the control of `c`. */
  predicate Fails(c: SecurityCase, a: Action) {
    a.op.Observe? && a.op.finding.fingerprint == c.fingerprint && !a.op.finding.passed
  }

  /** A passing one, while the case is not finished. */
  predicate Passes(c: SecurityCase, a: Action) {
    a.op.Observe? && a.op.finding.fingerprint == c.fingerprint && a.op.finding.passed && Active(c.status)
  }

  predicate Degrades(c: SecurityCase, a: Action) {
    a.op.NoteDegraded? && a.op.caseId == c.caseId
  }

  /** What becomes of the fields other than status, counter, flag and links. */
  predicate FieldsMoved(c: SecurityCase, d: SecurityCase, a: Action) {
    var now := a.stamp.now;
    var evaluates := Fails(c, a) || Passes(c, a) || Degrades(c, a);
    var resolves := c.status != Resolved && d.status == Resolved;
    && d.caseId == c.caseId && d.fingerprint == c.fingerprint && d.requiredPasses == c.requiredPasses && d.openedAt == c.openedAt
    && d.lastFailing == (if Fails(c, a) then Some(now) else c.lastFailing)
    && d.lastPassing == (if Passes(c, a) then Some(now) else c.lastPassing)
    && d.lastEvaluated == (if evaluates then Some(now) else c.lastEvaluated)
    && d.scanCycle == (if evaluates then a.op.cycle else c.scanCycle)
    && d.resolvedAt == (if resolves then Some(now) else if Fails(c, a) && Terminal(c.status) then None else c.resolvedAt)
    && d.resolutionReason == (if resolves && a.op.Verify? then a.op.reason else c.resolutionReason)
    && d.acknowledgedBy == (if a.op.DoAcknowledge? && a.op.caseId == c.caseId then a.op.operator else c.acknowledgedBy)
    && d.acknowledgedAt == (if a.op.DoAcknowledge? && a.op.caseId == c.caseId then Some(now) else c.acknowledgedAt)
    && d.lastHandoff == (if d.handoffIds != c.handoffIds then Some(now) else c.lastHandoff)
    && (d != c ==> d.updatedAt == Some(now))
  }

  /** Field by field: the identity never changes, and each stamp is set by its own operations alone. */
  lemma FieldsMove(s: State, c: SecurityCase, a: Action)
    requires a.op.AskHandoff? ==> a.stamp.handoffId !in c.handoffIds
    ensures FieldsMoved(c, MovedBy(s, c, a), a)
    ensures c.status != Resolved && MovedBy(s, c, a).status == Resolved ==> a.op.Verify?
  {
    hide FieldsMoved, MovedBy;
    FieldsMoveByStatus(s, c, a);
    if a.op.Observe? {
      ObserveFields(s, c, a);
    } else if a.op.Verify? {
      VerifyFields(s, c, a);
    } else if a.op.AskHandoff? {
      AskFields(s, c, a);
    } else if a.op.Deliver? {
      DeliverFields(s, c, a);
    } else {
      OtherFields(s, c, a);
    }
  }

  lemma ObserveFields(s: State, c: SecurityCase, a: Action)
    requires a.op.Observe?
    ensures FieldsMoved(c, MovedBy(s, c, a), a)
  {
  }

  lemma VerifyFields(s: State, c: SecurityCase, a: Action)
    requires a.op.Verify?
    ensures FieldsMoved(c, MovedBy(s, c, a), a)
  {
    hide CanResolve;
  }

  lemma AskFields(s: State, c: SecurityCase, a: Action)
    requires a.op.AskHandoff? && a.stamp.handoffId !in c.handoffIds
    ensures FieldsMoved(c, MovedBy(s, c, a), a)
  {
    hide StoresHandoff, MayAskHandoff;
    var d := HandedOffCase(c, a.stamp.handoffId, a.stamp.now);
    assert |d.handoffIds| == |c.handoffIds| + 1;
  }

  lemma DeliverFields(s: State, c: SecurityCase, a: Action)
    requires a.op.Deliver?
    requires c.status != Resolved ==> MovedBy(s, c, a).status != Resolved
    ensures FieldsMoved(c, MovedBy(s, c, a), a)
  {
    hide Accepted, Lhp.ValidateUpdate, StatusAfterUpdate;
  }

  lemma OtherFields(s: State, c: SecurityCase, a: Action)
    requires !a.op.Observe? && !a.op.Verify? && !a.op.AskHandoff? && !a.op.Deliver?
    requires c.status != Resolved ==> MovedBy(s, c, a).status != Resolved
    ensures FieldsMoved(c, MovedBy(s, c, a), a)
  {
    hide AllowedTransition;
  }

  /** Only the verifier resolves. */
  lemma FieldsMoveByStatus(s: State, c: SecurityCase, a: Action)
    ensures c.status != Resolved && MovedBy(s, c, a).status == Resolved ==> a.op.Verify?
  {
    hide MovedBy, CanResolve, StoresHandoff, Accepted, MayAskHandoff, AllowedTransition, StatusAfterUpdate;
    StatusMoves(s, c, a);
    if a.op.Deliver? {
      AllClear.UpdateNeverResolves(c.status, a);
    }
  }

  // --- what an observation answers ---

  /**
   An observation answers whether it opened a case, whether it reopened a finished one, and whether
   it changed anything: a failure that opens or whose signature differs, a pass on an unfinished case.
   */
  lemma ObservationAnswers(policy: CasePolicy, s: State, f: Finding, cycle: string, stamp: Stamp)
    requires CasesKeyed(s)
    ensures var r := ObserveFinding(policy, s, f, cycle, stamp).1;
            && (r.created <==> !f.passed && forall k | k in s.cases.m :: s.cases.m[k].fingerprint != f.fingerprint)
            && (r.reopened <==> !f.passed && exists k | k in s.cases.m :: s.cases.m[k].fingerprint == f.fingerprint && Terminal(s.cases.m[k].status))
            && (r.changed <==>
                  if f.passed then exists k | k in s.cases.m :: s.cases.m[k].fingerprint == f.fingerprint && Active(s.cases.m[k].status)
                  else forall k | k in s.cases.m && s.cases.m[k].fingerprint == f.fingerprint :: s.cases.m[k].signature != f.signature)
  {
    hide CasesKeyed, FailedCase, TriagedCase, OpenedCase, PassedCase, CaseByFingerprint, Commit, BoundKind, CaseFromFinding;
    var s1 := s.(findings := s.findings.Put(f.findingId, f));
    SameCasesKeyed(s, s1);
    FoundCase(s1, f);
  }

  /** And the case it answers with is the stored case of the control, if there is one then. */
  lemma ObservationSubject(policy: CasePolicy, s: State, f: Finding, cycle: string, stamp: Stamp)
    requires CasesKeyed(s)
    ensures var (t, r) := ObserveFinding(policy, s, f, cycle, stamp);
            && r.subject.fingerprint == f.fingerprint
            && forall k | k in t.cases.m && t.cases.m[k].fingerprint == f.fingerprint :: r.subject == t.cases.m[k]
  {
    hide CasesKeyed, FailedCase, TriagedCase, OpenedCase, PassedCase, CaseByFingerprint, BoundKind, CaseFromFinding;
    var s1 := s.(findings := s.findings.Put(f.findingId, f));
    SameCasesKeyed(s, s1);
    FoundCase(s1, f);
    var existing := CaseByFingerprint(s1, f.fingerprint);
    AnswerIds(policy, f, cycle, stamp);
    if existing.Some? {
      ExistingIds(existing.value, f, cycle, stamp.now);
    }
  }

  lemma AnswerIds(policy: CasePolicy, f: Finding, cycle: string, stamp: Stamp)
    ensures CaseFromFinding(policy, f, stamp).fingerprint == f.fingerprint && CaseFromFinding(policy, f, stamp).caseId == stamp.caseId
    ensures var d := TriagedCase(OpenedCase(policy, f, cycle, stamp), stamp.now); d.fingerprint == f.fingerprint && d.caseId == stamp.caseId
  {
  }

  lemma ExistingIds(c: SecurityCase, f: Finding, cycle: string, now: int)
    ensures var d := FailedCase(c, f, cycle, now); d.fingerprint == c.fingerprint && d.caseId == c.caseId
    ensures var d := TriagedCase(FailedCase(c, f, cycle, now), now); d.fingerprint == c.fingerprint && d.caseId == c.caseId
    ensures PassedCase(c, cycle, now).fingerprint == c.fingerprint && PassedCase(c, cycle, now).caseId == c.caseId
  {
  }
}
