/** What a verification sweep reports (app/posture/verification.py): every list, from what each case's reading says. */
module SweepReports {
  import opened Wrappers
  import opened Dicts
  import opened Models
  import opened Policy
  import opened Lifecycle
  import opened Runs
  import opened Invariants
  import opened VerificationLoop
  import CaseMoves
  import Engineering
  import Preservation

  /** The sweep asks for a fresh reading of these. */
  predicate InQuestion(c: SecurityCase) {
    c.status == VerificationPending || c.status == HandoffInProgress
  }

  /** No reading to go by: the scan was degraded, or has no finding of the control. */
  ghost predicate SaysNothing(r: Reading, fingerprint: string) {
    r.degraded || forall i | 0 <= i < |r.findings| :: r.findings[i].fingerprint != fingerprint
  }

  /** The first finding of the control in a sound scan has this verdict. */
  ghost predicate Says(r: Reading, fingerprint: string, passed: bool) {
    !r.degraded && exists i: nat :: FirstOf(r, fingerprint, i) && r.findings[i].passed == passed
  }

  ghost predicate FirstOf(r: Reading, fingerprint: string, i: nat) {
    && i < |r.findings| && r.findings[i].fingerprint == fingerprint
    && forall j | 0 <= j < i :: r.findings[j].fingerprint != fingerprint
  }

  datatype Kind = Unplaced | Unread | Failing | Passing | Enough

  /** What becomes of a case in question; `Enough` is a pass that reaches the threshold of a live verifier. */
  ghost predicate IsOf(kind: Kind, settings: VerifierSettings, c: SecurityCase, r: Reading) {
    match kind
    case Unplaced => c.resourceId == ""
    case Unread => c.resourceId != "" && SaysNothing(r, c.fingerprint)
    case Failing => c.resourceId != "" && Says(r, c.fingerprint, false)
    case Passing => c.resourceId != "" && Says(r, c.fingerprint, true)
    case Enough =>
      && c.resourceId != "" && Says(r, c.fingerprint, true)
      && settings.autoResolve && !settings.dryRun && c.passCount + 1 >= c.requiredPasses
  }

  /** The ids of the cases in question of one kind, in the order of the list. */
  ghost function IdsOf(kind: Kind, settings: VerifierSettings, cases: seq<SecurityCase>, readings: string -> Reading): seq<string> {
    if cases == [] then []
    else (if InQuestion(cases[0]) && IsOf(kind, settings, cases[0], readings(cases[0].caseId)) then [cases[0].caseId] else [])
         + IdsOf(kind, settings, cases[1..], readings)
  }

  function Asked(cases: seq<SecurityCase>): nat {
    if cases == [] then 0 else (if InQuestion(cases[0]) then 1 else 0) + Asked(cases[1..])
  }

  lemma {:induction false} MatchIs(findings: seq<Finding>, fingerprint: string)
    ensures var f := FirstMatch(findings, fingerprint);
            && (f.None? <==> forall i | 0 <= i < |findings| :: findings[i].fingerprint != fingerprint)
            && (f.Some? ==> exists i: nat ::
                  && i < |findings| && findings[i] == f.value && f.value.fingerprint == fingerprint
                  && forall j | 0 <= j < i :: findings[j].fingerprint != fingerprint)
  {
    if findings != [] {
      if findings[0].fingerprint == fingerprint {
        var i: nat := 0;
        assert findings[i] == FirstMatch(findings, fingerprint).value;
      } else {
        MatchIs(findings[1..], fingerprint);
        var f := FirstMatch(findings[1..], fingerprint);
        if f.Some? {
          var i: nat :| i < |findings| - 1 && findings[1..][i] == f.value && forall j | 0 <= j < i :: findings[1..][j].fingerprint != fingerprint;
          var k := i + 1;
          assert findings[k] == f.value;
          assert forall j | 0 < j < k :: findings[j] == findings[1..][j - 1];
        } else {
          assert forall i | 0 < i < |findings| :: findings[i] == findings[1..][i - 1];
        }
      }
    }
  }

  lemma SignalIs(r: Reading, fingerprint: string)
    ensures Signal(r, fingerprint).None? <==> SaysNothing(r, fingerprint)
    ensures Signal(r, fingerprint).Some? ==> Signal(r, fingerprint).value.fingerprint == fingerprint
    ensures forall passed :: Says(r, fingerprint, passed) <==> Signal(r, fingerprint).Some? && Signal(r, fingerprint).value.passed == passed
  {
    MatchIs(r.findings, fingerprint);
    hide FirstMatch;
    var f := FirstMatch(r.findings, fingerprint);
    if f.Some? {
      var k: nat :| k < |r.findings| && r.findings[k] == f.value && f.value.fingerprint == fingerprint
                    && forall j | 0 <= j < k :: r.findings[j].fingerprint != fingerprint;
      assert FirstOf(r, fingerprint, k);
      forall i: nat | FirstOf(r, fingerprint, i) ensures i == k {
      }
    }
  }

  /** One case adds itself to the lists of its kinds. */
  ghost function One(kind: Kind, settings: VerifierSettings, c: SecurityCase, r: Reading): seq<string> {
    if IsOf(kind, settings, c, r) then [c.caseId] else []
  }

  ghost predicate Reported(settings: VerifierSettings, before: Report, c: SecurityCase, r: Reading, after: Report) {
    && after.checked == before.checked + 1
    && after.skipped == before.skipped + One(Unplaced, settings, c, r)
    && after.degraded == before.degraded + One(Unread, settings, c, r)
    && after.stillFailing == before.stillFailing + One(Failing, settings, c, r)
    && after.resolved == before.resolved + One(Enough, settings, c, r)
  }

  /** What the gate says after a failing and after a passing observation. */
  lemma GateAfter(settings: VerifierSettings, c: SecurityCase, f: Finding, cycle: string, now: int)
    requires Active(c.status) && c.requiredPasses >= 1
    ensures !CaseMoves.Resolves(settings, CaseMoves.AfterFailure(c, f, cycle, now))
    ensures CaseMoves.Resolves(settings, PassedCase(c, cycle, now))
       <==> settings.autoResolve && !settings.dryRun && c.passCount + 1 >= c.requiredPasses
  {
  }

  lemma OneReported(policy: CasePolicy, settings: VerifierSettings, l: Swept, c: SecurityCase, r: Reading, cycle: string)
    requires CasesKeyed(l.state) && c.caseId in l.state.cases.m && l.state.cases.m[c.caseId] == c && Active(c.status) && c.requiredPasses >= 1
    ensures Reported(settings, l.report, c, r, VerifyOne(policy, settings, l, c, r, cycle).report)
  {
    hide CasesKeyed, ObserveFinding, VerifyCase, CaseMoves.Resolves, CaseMoves.AfterFailure, PassedCase, Commit, Signal, SaysNothing, Says;
    SignalIs(r, c.fingerprint);
    var signal := Signal(r, c.fingerprint);
    if c.resourceId != "" && signal.Some? {
      ObserveKnown(policy, l.state, c, signal.value, cycle, r.stamp);
      ObservedIdentity(c, signal.value, cycle, r.stamp.now);
      GateAfter(settings, c, signal.value, cycle, r.stamp.now);
      var s1 := ObserveFinding(policy, l.state, signal.value, cycle, r.stamp).0;
      VerifyCaseMoves(settings, s1, c.caseId, REASON, r.stamp.now);
    }
  }

  ghost predicate Askable(cases: seq<SecurityCase>) {
    forall i | 0 <= i < |cases| :: cases[i].requiredPasses >= 1
  }

  ghost predicate AllReported(settings: VerifierSettings, before: Report, cases: seq<SecurityCase>, readings: string -> Reading, after: Report) {
    && after.checked == before.checked + Asked(cases)
    && after.skipped == before.skipped + IdsOf(Unplaced, settings, cases, readings)
    && after.degraded == before.degraded + IdsOf(Unread, settings, cases, readings)
    && after.stillFailing == before.stillFailing + IdsOf(Failing, settings, cases, readings)
    && after.resolved == before.resolved + IdsOf(Enough, settings, cases, readings)
  }

  lemma IdsFirst(kind: Kind, settings: VerifierSettings, cases: seq<SecurityCase>, readings: string -> Reading, before: seq<string>)
    requires cases != []
    ensures before + IdsOf(kind, settings, cases, readings)
         == before + (if InQuestion(cases[0]) then One(kind, settings, cases[0], readings(cases[0].caseId)) else [])
            + IdsOf(kind, settings, cases[1..], readings)
  {
    hide IsOf;
  }

  lemma ReportedThen(settings: VerifierSettings, before: Report, cases: seq<SecurityCase>, readings: string -> Reading, middle: Report, after: Report)
    requires cases != [] && AllReported(settings, middle, cases[1..], readings, after)
    requires if InQuestion(cases[0]) then Reported(settings, before, cases[0], readings(cases[0].caseId), middle) else middle == before
    ensures AllReported(settings, before, cases, readings, after)
  {
    IdsFirst(Unplaced, settings, cases, readings, before.skipped);
    IdsFirst(Unread, settings, cases, readings, before.degraded);
    IdsFirst(Failing, settings, cases, readings, before.stillFailing);
    IdsFirst(Enough, settings, cases, readings, before.resolved);
    hide IdsOf, One;
  }

  lemma NothingReported(settings: VerifierSettings, before: Report, readings: string -> Reading)
    ensures AllReported(settings, before, [], readings, before)
  {
  }

  lemma {:induction false} EachReported(policy: CasePolicy, settings: VerifierSettings, l: Swept, cases: seq<SecurityCase>,
                                        readings: string -> Reading, cycle: string)
    requires CasesKeyed(l.state) && Snapshot(l.state, cases) && Askable(cases)
    ensures AllReported(settings, l.report, cases, readings, VerifyEach(policy, settings, l, cases, readings, cycle).report)
    decreases |cases|
  {
    hide CasesKeyed, VerifyOne, Reread, Snapshot, Reported, AllReported;
    if cases == [] {
      NothingReported(settings, l.report, readings);
    } else {
      var c := cases[0];
      SnapshotHead(l.state, cases);
      var l1 := if Verifiable(c.status) then VerifyOne(policy, settings, l, c, readings(c.caseId), cycle) else l;
      if Verifiable(c.status) {
        VerifyOneMoves(policy, settings, l, c, readings(c.caseId), cycle);
        OneReported(policy, settings, l, c, readings(c.caseId), cycle);
        RereadIdentity(settings, c, readings(c.caseId), cycle);
        KeyedPut(l.state, l1.state, Reread(settings, c, readings(c.caseId), cycle));
      }
      SnapshotRest(l.state, l1.state, cases);
      EachReported(policy, settings, l1, cases[1..], readings, cycle);
      ReportedThen(settings, l.report, cases, readings, l1.report, VerifyEach(policy, settings, l, cases, readings, cycle).report);
    }
  }

  /**
   The whole report of a sweep: it checks exactly the cases that are pending verification or in
   progress; it skips those without a resource, lists as degraded those whose reading says nothing
   of their control, as still failing those whose first finding fails, and as resolved those whose
   first finding passes and brings the counter to the threshold while the verifier is live; a pass
   below the threshold is on no list. Every list is in the order of the cases.
   */
  lemma SweepReportIs(policy: CasePolicy, settings: VerifierSettings, s: State, readings: string -> Reading, cycle: string)
    requires Inv(policy, s)
    ensures var r := Sweep(policy, settings, s, readings, cycle).report;
            var cases := ListCases(s, None);
            && r.checked == Asked(cases)
            && r.skipped == IdsOf(Unplaced, settings, cases, readings)
            && r.degraded == IdsOf(Unread, settings, cases, readings)
            && r.stillFailing == IdsOf(Failing, settings, cases, readings)
            && r.resolved == IdsOf(Enough, settings, cases, readings)
  {
    hide Inv, VerifyEach, ListCases, Snapshot, CasesKeyed, IdsOf, Asked;
    Engineering.InvHandoffs(policy, s);
    ListCasesSnapshot(s);
    AllAskable(policy, s, ListCases(s, None));
    EachReported(policy, settings, Swept(s, EmptyReport), ListCases(s, None), readings, cycle);
  }

  lemma AllAskable(policy: CasePolicy, s: State, cases: seq<SecurityCase>)
    requires Inv(policy, s) && Snapshot(s, cases)
    ensures Askable(cases)
  {
    hide Inv, LabelsStable;
    forall i | 0 <= i < |cases| ensures cases[i].requiredPasses >= 1 {
      Preservation.StoredCase(policy, s, cases[i].caseId);
    }
  }
}
