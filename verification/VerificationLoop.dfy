/**
 The verification loop as functions (app/posture/verification.py): it rereads the control of a
 case that waits for verification and lets the verifier decide. Scan results are inputs.
 */
module VerificationLoop {
  import opened Wrappers
  import opened Dicts
  import opened Models
  import opened Policy
  import opened Lifecycle
  import opened Runs
  import opened Invariants
  import CaseMoves
  import Preservation
  import Sorting
  import Engineering

  /** One targeted scan: its findings, whether it was degraded, and clock and id for its observation. */
  datatype Reading = Reading(findings: seq<Finding>, degraded: bool, stamp: Stamp)

  predicate Verifiable(status: CaseStatus) {
    status == VerificationPending || status == HandoffInProgress
  }

  const REASON := "positive re-check threshold met"

  function FirstMatch(findings: seq<Finding>, fingerprint: string): (r: Option<Finding>)
    ensures r.Some? ==> r.value in findings && r.value.fingerprint == fingerprint
    ensures r.None? ==> forall f | f in findings :: f.fingerprint != fingerprint
  {
    if findings == [] then None
    else if findings[0].fingerprint == fingerprint then Some(findings[0])
    else FirstMatch(findings[1..], fingerprint)
  }

  /** The finding a reading gives about a control: nothing when the scan was degraded or silent about it. */
  function Signal(r: Reading, fingerprint: string): Option<Finding> {
    if r.degraded then None else FirstMatch(r.findings, fingerprint)
  }

  datatype Report = Report(
    checked: nat, resolved: seq<string>, stillFailing: seq<string>, degraded: seq<string>, skipped: seq<string>)

  const EmptyReport := Report(0, [], [], [], [])

  datatype Swept = Swept(state: State, report: Report)

  /** One case of a sweep; `c` is the copy taken when the sweep began. */
  function VerifyOne(policy: CasePolicy, settings: VerifierSettings, l: Swept, c: SecurityCase, r: Reading, cycle: string): Swept {
    var report := l.report.(checked := l.report.checked + 1);
    if c.resourceId == "" then Swept(l.state, report.(skipped := report.skipped + [c.caseId]))
    else
      match Signal(r, c.fingerprint)
      case None =>
        Swept(NoteScanDegraded(l.state, c.caseId, cycle, r.stamp.now), report.(degraded := report.degraded + [c.caseId]))
      case Some(f) =>
        var s1 := ObserveFinding(policy, l.state, f, cycle, r.stamp).0;
        var (s2, result) := VerifyCase(settings, s1, c.caseId, REASON, r.stamp.now);
        Swept(s2,
             if result.Some? && result.value.resolved then report.(resolved := report.resolved + [c.caseId])
             else if !f.passed then report.(stillFailing := report.stillFailing + [c.caseId])
             else report)
  }

  function VerifyEach(policy: CasePolicy, settings: VerifierSettings, l: Swept, cases: seq<SecurityCase>,
                      readings: string -> Reading, cycle: string): Swept
    decreases |cases|
  {
    if cases == [] then l
    else
      var l1 := if Verifiable(cases[0].status) then VerifyOne(policy, settings, l, cases[0], readings(cases[0].caseId), cycle) else l;
      VerifyEach(policy, settings, l1, cases[1..], readings, cycle)
  }

  /** A whole sweep over the cases as they were when it began. */
  function Sweep(policy: CasePolicy, settings: VerifierSettings, s: State, readings: string -> Reading, cycle: string): Swept {
    VerifyEach(policy, settings, Swept(s, EmptyReport), ListCases(s, None), readings, cycle)
  }

  /** The check of a single case right after a callback. */
  function VerifyNow(policy: CasePolicy, settings: VerifierSettings, s: State, caseId: string, r: Reading, cycle: string): Swept {
    var l := Swept(s, EmptyReport);
    match s.cases.Get(caseId)
    case None => l
    case Some(c) => if Verifiable(c.status) then VerifyOne(policy, settings, l, c, r, cycle) else l
  }

  // --- what one reading makes of one case ---

  function Reread(settings: VerifierSettings, c: SecurityCase, r: Reading, cycle: string): SecurityCase {
    var now := r.stamp.now;
    if c.resourceId == "" then c
    else
      match Signal(r, c.fingerprint)
      case None => DegradedCase(c, cycle, now)
      case Some(f) =>
        var c1 := if !f.passed then CaseMoves.AfterFailure(c, f, cycle, now)
                  else if Terminal(c.status) then c else PassedCase(c, cycle, now);
        if CaseMoves.Resolves(settings, c1) then ResolvedCase(c1, REASON, now) else c1
  }

  lemma RereadIdentity(settings: VerifierSettings, c: SecurityCase, r: Reading, cycle: string)
    ensures Reread(settings, c, r, cycle).caseId == c.caseId && Reread(settings, c, r, cycle).fingerprint == c.fingerprint
  {
    hide CanResolve, Signal;
  }

  lemma ObserveKnown(policy: CasePolicy, s: State, c: SecurityCase, f: Finding, cycle: string, stamp: Stamp)
    requires CasesKeyed(s) && c.caseId in s.cases.m && s.cases.m[c.caseId] == c && f.fingerprint == c.fingerprint
    ensures ObserveFinding(policy, s, f, cycle, stamp).0.cases.m
         == (if !f.passed then s.cases.m[c.caseId := CaseMoves.AfterFailure(c, f, cycle, stamp.now)]
             else if Terminal(c.status) then s.cases.m else s.cases.m[c.caseId := PassedCase(c, cycle, stamp.now)])
  {
    hide CasesKeyed, CaseByFingerprint, RecordFailing, RecordPassing, PassedCase, CaseMoves.AfterFailure;
    var s1 := s.(findings := s.findings.Put(f.findingId, f));
    CaseMoves.SameCasesKeyed(s, s1);
    CaseMoves.FoundCase(s1, f);
    CaseMoves.FailingMoves(policy, s1, f, Some(c), cycle, stamp);
    CaseMoves.PassingMoves(s1, c, cycle, stamp.now);
  }

  lemma VerifyCaseMoves(settings: VerifierSettings, s: State, id: string, reason: string, now: int)
    requires id in s.cases.m && s.cases.m[id].caseId == id
    ensures VerifyCase(settings, s, id, reason, now).0.cases.m
         == (if CaseMoves.Resolves(settings, s.cases.m[id]) then s.cases.m[id := ResolvedCase(s.cases.m[id], reason, now)] else s.cases.m)
    ensures var r := VerifyCase(settings, s, id, reason, now).1;
            r.Some? && r.value.resolved == CaseMoves.Resolves(settings, s.cases.m[id])
  {
    hide CanResolve, PassObjectives, Commit;
  }

  lemma ObservedIdentity(c: SecurityCase, f: Finding, cycle: string, now: int)
    ensures CaseMoves.AfterFailure(c, f, cycle, now).caseId == c.caseId && PassedCase(c, cycle, now).caseId == c.caseId
  {
  }

  /** One reading changes its own case, as stated, and no other; and it never opens one. */
  lemma VerifyOneMoves(policy: CasePolicy, settings: VerifierSettings, l: Swept, c: SecurityCase, r: Reading, cycle: string)
    requires CasesKeyed(l.state) && c.caseId in l.state.cases.m && l.state.cases.m[c.caseId] == c
    ensures VerifyOne(policy, settings, l, c, r, cycle).state.cases.m
         == l.state.cases.m[c.caseId := Reread(settings, c, r, cycle)]
  {
    hide CasesKeyed, ObserveFinding, VerifyCase, CaseMoves.Resolves, ResolvedCase, CaseMoves.AfterFailure, PassedCase, Commit, Signal;
    var signal := Signal(r, c.fingerprint);
    if c.resourceId != "" && signal.Some? {
      SignalMatches(r, c.fingerprint);
      ObserveKnown(policy, l.state, c, signal.value, cycle, r.stamp);
      ObservedIdentity(c, signal.value, cycle, r.stamp.now);
      var s1 := ObserveFinding(policy, l.state, signal.value, cycle, r.stamp).0;
      VerifyCaseMoves(settings, s1, c.caseId, REASON, r.stamp.now);
    }
  }

  lemma SignalMatches(r: Reading, fingerprint: string)
    ensures Signal(r, fingerprint).Some? ==>
              Signal(r, fingerprint).value.fingerprint == fingerprint && Signal(r, fingerprint).value in r.findings
  {
  }

  // --- a sweep is the independent rereading of its cases ---

  /** What a sweep makes of a case. */
  function SweptCase(settings: VerifierSettings, c: SecurityCase, readings: string -> Reading, cycle: string): SecurityCase {
    if Verifiable(c.status) then Reread(settings, c, readings(c.caseId), cycle) else c
  }

  lemma KeyedPut(s: State, t: State, c: SecurityCase)
    requires CasesKeyed(s) && c.caseId in s.cases.m && s.cases.m[c.caseId].fingerprint == c.fingerprint
    requires t.cases.m == s.cases.m[c.caseId := c]
    ensures CasesKeyed(t)
  {
  }

  /** Copies of distinct stored cases, as the sweep still has to visit them. */
  ghost predicate Snapshot(s: State, cases: seq<SecurityCase>) {
    && (forall i | 0 <= i < |cases| :: cases[i].caseId in s.cases.m && s.cases.m[cases[i].caseId] == cases[i])
    && (forall i, j | 0 <= i < j < |cases| :: cases[i].caseId != cases[j].caseId)
  }

  ghost predicate Listed(cases: seq<SecurityCase>, id: string) {
    exists i | 0 <= i < |cases| :: cases[i].caseId == id
  }

  lemma SnapshotRest(s: State, t: State, cases: seq<SecurityCase>)
    requires cases != [] && Snapshot(s, cases)
    requires forall k | k in s.cases.m && k != cases[0].caseId :: k in t.cases.m && t.cases.m[k] == s.cases.m[k]
    ensures Snapshot(t, cases[1..])
  {
    forall i | 0 <= i < |cases[1..]| ensures cases[1..][i].caseId in t.cases.m && t.cases.m[cases[1..][i].caseId] == cases[1..][i] {
      assert cases[1..][i] == cases[i + 1];
      assert cases[0].caseId != cases[i + 1].caseId;
    }
  }

  lemma ListedRest(cases: seq<SecurityCase>, id: string)
    requires cases != []
    ensures Listed(cases, id) <==> cases[0].caseId == id || Listed(cases[1..], id)
  {
    if Listed(cases, id) && cases[0].caseId != id {
      var i :| 0 <= i < |cases| && cases[i].caseId == id;
      assert cases[1..][i - 1].caseId == id;
    }
    if Listed(cases[1..], id) {
      var i :| 0 <= i < |cases[1..]| && cases[1..][i].caseId == id;
      assert cases[i + 1].caseId == id;
    }
  }

  lemma NotListedTwice(s: State, cases: seq<SecurityCase>)
    requires cases != [] && Snapshot(s, cases)
    ensures !Listed(cases[1..], cases[0].caseId)
  {
    forall i | 0 <= i < |cases[1..]| ensures cases[1..][i].caseId != cases[0].caseId {
      assert cases[1..][i] == cases[i + 1];
    }
  }

  lemma {:induction false} VerifyEachMoves(policy: CasePolicy, settings: VerifierSettings, l: Swept, cases: seq<SecurityCase>,
                                           readings: string -> Reading, cycle: string, id: string)
    requires CasesKeyed(l.state) && Snapshot(l.state, cases)
    ensures var t := VerifyEach(policy, settings, l, cases, readings, cycle).state;
            && CasesKeyed(t) && (id in t.cases.m <==> id in l.state.cases.m)
            && (id in l.state.cases.m ==>
                  t.cases.m[id] == if Listed(cases, id) then SweptCase(settings, l.state.cases.m[id], readings, cycle) else l.state.cases.m[id])
    decreases |cases|
  {
    hide CasesKeyed, VerifyOne, Reread, Snapshot, Listed;
    if cases == [] {
      assert !Listed(cases, id) by { NoneListed(id); }
    } else {
      var c := cases[0];
      SnapshotHead(l.state, cases);
      var l1 := if Verifiable(c.status) then VerifyOne(policy, settings, l, c, readings(c.caseId), cycle) else l;
      if Verifiable(c.status) {
        VerifyOneMoves(policy, settings, l, c, readings(c.caseId), cycle);
        RereadIdentity(settings, c, readings(c.caseId), cycle);
        KeyedPut(l.state, l1.state, Reread(settings, c, readings(c.caseId), cycle));
      }
      SnapshotRest(l.state, l1.state, cases);
      ListedRest(cases, id);
      NotListedTwice(l.state, cases);
      VerifyEachMoves(policy, settings, l1, cases[1..], readings, cycle, id);
    }
  }

  lemma NoneListed(id: string)
    ensures !Listed([], id)
  {
  }

  lemma SnapshotHead(s: State, cases: seq<SecurityCase>)
    requires cases != [] && Snapshot(s, cases)
    ensures cases[0].caseId in s.cases.m && s.cases.m[cases[0].caseId] == cases[0]
  {
  }

  function Values(keys: seq<string>, m: map<string, SecurityCase>): seq<SecurityCase>
    requires forall k | k in keys :: k in m
  {
    seq(|keys|, i requires 0 <= i < |keys| => m[keys[i]])
  }

  lemma {:induction false} SelectAll(keys: seq<string>, m: map<string, SecurityCase>)
    requires forall k | k in keys :: k in m
    ensures SelectCases(keys, m, None) == Values(keys, m)
  {
    if keys != [] {
      var n := |keys| - 1;
      SelectAll(keys[..n], m);
      assert Values(keys, m) == Values(keys[..n], m) + [m[keys[n]]];
    }
  }

  lemma ValuesSnapshot(s: State)
    requires CasesKeyed(s)
    ensures Snapshot(s, Values(s.cases.keys, s.cases.m))
    ensures forall k | k in s.cases.m :: Listed(Values(s.cases.keys, s.cases.m), k)
  {
    var (keys, values) := (s.cases.keys, Values(s.cases.keys, s.cases.m));
    forall k | k in s.cases.m ensures Listed(values, k) {
      var i :| 0 <= i < |keys| && keys[i] == k;
      assert values[i].caseId == k;
    }
  }

  lemma SortedSnapshot(s: State, values: seq<SecurityCase>)
    requires Snapshot(s, values)
    ensures Snapshot(s, Sorting.SortBy(values, OpenedAt))
    ensures forall k | Listed(values, k) :: Listed(Sorting.SortBy(values, OpenedAt), k)
  {
    hide Sorting.SortBy;
    var cases := Sorting.SortBy(values, OpenedAt);
    SnapshotDistinct(s, values);
    Sorting.SortKeepsDistinct(values, OpenedAt);
    forall i | 0 <= i < |cases| ensures cases[i].caseId in s.cases.m && s.cases.m[cases[i].caseId] == cases[i] {
      assert cases[i] in values;
    }
    forall k | Listed(values, k) ensures Listed(cases, k) {
      var i :| 0 <= i < |values| && values[i].caseId == k;
      assert values[i] in cases;
    }
  }

  lemma ListCasesSnapshot(s: State)
    requires CasesKeyed(s)
    ensures Snapshot(s, ListCases(s, None))
    ensures forall k | k in s.cases.m :: Listed(ListCases(s, None), k)
  {
    hide Sorting.SortBy, Values, SelectCases, CasesKeyed, Snapshot, Listed;
    ValuesSnapshot(s);
    SelectAll(s.cases.keys, s.cases.m);
    SortedSnapshot(s, Values(s.cases.keys, s.cases.m));
  }

  lemma SnapshotDistinct(s: State, cases: seq<SecurityCase>)
    requires Snapshot(s, cases)
    ensures Sorting.Distinct(cases)
  {
  }

  /**
   A sweep rereads every verifiable case against its own reading, however many others it
   verifies in between and in whatever order; no other case moves, and none is opened.
   */
  lemma SweepIsIndependent(policy: CasePolicy, settings: VerifierSettings, s: State, readings: string -> Reading, cycle: string, id: string)
    requires CasesKeyed(s)
    ensures var t := Sweep(policy, settings, s, readings, cycle).state;
            && (id in t.cases.m <==> id in s.cases.m)
            && (id in s.cases.m ==> t.cases.m[id] == SweptCase(settings, s.cases.m[id], readings, cycle))
  {
    hide VerifyEach, ListCases, SweptCase, Snapshot, Listed, CasesKeyed;
    ListCasesSnapshot(s);
    VerifyEachMoves(policy, settings, Swept(s, EmptyReport), ListCases(s, None), readings, cycle, id);
  }

  // --- and its report says which cases it resolved ---

  lemma VerifyOneReports(policy: CasePolicy, settings: VerifierSettings, l: Swept, c: SecurityCase, r: Reading, cycle: string)
    requires CasesKeyed(l.state) && c.caseId in l.state.cases.m && l.state.cases.m[c.caseId] == c && Active(c.status)
    ensures VerifyOne(policy, settings, l, c, r, cycle).report.resolved
         == l.report.resolved + if Reread(settings, c, r, cycle).status == Resolved then [c.caseId] else []
  {
    hide CasesKeyed, ObserveFinding, VerifyCase, CaseMoves.Resolves, Commit, Signal;
    var signal := Signal(r, c.fingerprint);
    if c.resourceId != "" && signal.Some? {
      SignalMatches(r, c.fingerprint);
      ObserveKnown(policy, l.state, c, signal.value, cycle, r.stamp);
      ObservedIdentity(c, signal.value, cycle, r.stamp.now);
      var s1 := ObserveFinding(policy, l.state, signal.value, cycle, r.stamp).0;
      VerifyCaseMoves(settings, s1, c.caseId, REASON, r.stamp.now);
    }
  }

  lemma {:induction false} VerifyEachReports(policy: CasePolicy, settings: VerifierSettings, l: Swept, cases: seq<SecurityCase>,
                                             readings: string -> Reading, cycle: string, id: string)
    requires CasesKeyed(l.state) && Snapshot(l.state, cases)
    ensures id in VerifyEach(policy, settings, l, cases, readings, cycle).report.resolved
       <==> (|| id in l.report.resolved
             || (Listed(cases, id) && id in l.state.cases.m && Verifiable(l.state.cases.m[id].status)
                 && SweptCase(settings, l.state.cases.m[id], readings, cycle).status == Resolved))
    decreases |cases|
  {
    hide CasesKeyed, VerifyOne, Reread, Snapshot, Listed;
    if cases == [] {
      NoneListed(id);
    } else {
      var c := cases[0];
      SnapshotHead(l.state, cases);
      var l1 := if Verifiable(c.status) then VerifyOne(policy, settings, l, c, readings(c.caseId), cycle) else l;
      if Verifiable(c.status) {
        VerifyOneMoves(policy, settings, l, c, readings(c.caseId), cycle);
        VerifyOneReports(policy, settings, l, c, readings(c.caseId), cycle);
        RereadIdentity(settings, c, readings(c.caseId), cycle);
        KeyedPut(l.state, l1.state, Reread(settings, c, readings(c.caseId), cycle));
      }
      SnapshotRest(l.state, l1.state, cases);
      ListedRest(cases, id);
      NotListedTwice(l.state, cases);
      VerifyEachReports(policy, settings, l1, cases[1..], readings, cycle, id);
    }
  }

  /** The report names a case as resolved exactly when the sweep moved it to resolved. */
  lemma SweepReportsResolutions(policy: CasePolicy, settings: VerifierSettings, s: State, readings: string -> Reading, cycle: string, id: string)
    requires CasesKeyed(s)
    ensures var out := Sweep(policy, settings, s, readings, cycle);
            (id in out.report.resolved
             <==> (id in s.cases.m && s.cases.m[id].status != Resolved && id in out.state.cases.m && out.state.cases.m[id].status == Resolved))
  {
    hide VerifyEach, ListCases, Snapshot, Listed, CasesKeyed, Reread;
    ListCasesSnapshot(s);
    SweepIsIndependent(policy, settings, s, readings, cycle, id);
    VerifyEachReports(policy, settings, Swept(s, EmptyReport), ListCases(s, None), readings, cycle, id);
  }

  // --- degraded reads ---

  /** A degraded read never raises the counter, and it closes the resolution gate. */
  lemma DegradedReadNeverHelps(policy: CasePolicy, settings: VerifierSettings, l: Swept, c: SecurityCase, r: Reading, cycle: string)
    requires CasesKeyed(l.state) && c.caseId in l.state.cases.m && l.state.cases.m[c.caseId] == c
    requires r.degraded && c.resourceId != "" && Active(c.status)
    ensures var t := VerifyOne(policy, settings, l, c, r, cycle).state;
            && c.caseId in t.cases.m && t.cases.m[c.caseId].status == c.status && t.cases.m[c.caseId].passCount == c.passCount
            && !CanResolve(settings.policy, t.cases.m[c.caseId])
  {
    hide CasesKeyed;
    VerifyOneMoves(policy, settings, l, c, r, cycle);
    hide VerifyOne;
  }

  // --- the loop as part of a run ---

  function ActionsFor(settings: VerifierSettings, c: SecurityCase, r: Reading, cycle: string): seq<Action> {
    if c.resourceId == "" then []
    else
      match Signal(r, c.fingerprint)
      case None => [Action(NoteDegraded(c.caseId, cycle), r.stamp)]
      case Some(f) => [Action(Observe(f, cycle, true), r.stamp)] + [Action(Verify(c.caseId, REASON, settings), r.stamp)]
  }

  function SweepActions(settings: VerifierSettings, cases: seq<SecurityCase>, readings: string -> Reading, cycle: string): seq<Action>
    decreases |cases|
  {
    if cases == [] then []
    else (if Verifiable(cases[0].status) then ActionsFor(settings, cases[0], readings(cases[0].caseId), cycle) else [])
         + SweepActions(settings, cases[1..], readings, cycle)
  }

  lemma VerifyOneIsARun(policy: CasePolicy, settings: VerifierSettings, l: Swept, c: SecurityCase, r: Reading, cycle: string)
    ensures VerifyOne(policy, settings, l, c, r, cycle).state == RunFrom(policy, l.state, ActionsFor(settings, c, r, cycle))
  {
    hide ObserveFinding, VerifyCase, NoteScanDegraded, Signal, RunFrom;
    if c.resourceId == "" {
      RunNone(policy, l.state);
    } else if Signal(r, c.fingerprint).None? {
      RunOne(policy, l.state, Action(NoteDegraded(c.caseId, cycle), r.stamp));
    } else {
      var first := Action(Observe(Signal(r, c.fingerprint).value, cycle, true), r.stamp);
      var second := Action(Verify(c.caseId, REASON, settings), r.stamp);
      RunFromAppend(policy, l.state, [first], [second]);
      RunOne(policy, l.state, first);
      RunOne(policy, Step(policy, l.state, first), second);
    }
  }

  /** A sweep is a run of observations, degraded notes and verifier steps, so every theorem about runs covers it. */
  lemma {:induction false} SweepIsARun(policy: CasePolicy, settings: VerifierSettings, l: Swept, cases: seq<SecurityCase>,
                                       readings: string -> Reading, cycle: string)
    ensures VerifyEach(policy, settings, l, cases, readings, cycle).state
         == RunFrom(policy, l.state, SweepActions(settings, cases, readings, cycle))
    decreases |cases|
  {
    hide VerifyOne, ActionsFor, RunFrom;
    if cases == [] {
      RunNone(policy, l.state);
    } else {
      var c := cases[0];
      var rest := SweepActions(settings, cases[1..], readings, cycle);
      if Verifiable(c.status) {
        VerifyOneIsARun(policy, settings, l, c, readings(c.caseId), cycle);
        RunFromAppend(policy, l.state, ActionsFor(settings, c, readings(c.caseId), cycle), rest);
        SweepIsARun(policy, settings, VerifyOne(policy, settings, l, c, readings(c.caseId), cycle), cases[1..], readings, cycle);
      } else {
        assert [] + rest == rest;
        SweepIsARun(policy, settings, l, cases[1..], readings, cycle);
      }
    }
  }

  /**
   A case that was handed off once and has left the handoff statuses is passed over by every
   later sweep, on any continuation whose requests use an objective key fixed by the
   fingerprint: after it reopened, no reading of this loop resolves it.
   */
  lemma NeverSweptAgain(policy: CasePolicy, s: State, actions: seq<Action>, keyOf: Engineering.KeyOf, id: string,
                        settings: VerifierSettings, readings: string -> Reading, cycle: string)
    requires Inv(policy, s) && Engineering.AllKeyed(s, keyOf)
    requires AdmissibleFrom(policy, s, actions) && Engineering.DisciplinedFrom(policy, s, actions, keyOf)
    requires id in s.cases.m && s.cases.m[id].handoffIds != [] && !WithEngineering(s.cases.m[id].status)
    ensures var t := RunFrom(policy, s, actions);
            && id in t.cases.m && id in Sweep(policy, settings, t, readings, cycle).state.cases.m
            && Sweep(policy, settings, t, readings, cycle).state.cases.m[id] == t.cases.m[id]
  {
    hide Inv, RunFrom, AdmissibleFrom, Engineering.DisciplinedFrom, Engineering.AllKeyed, Sweep, Reread;
    Engineering.HandedOffOnceOnly(policy, s, actions, keyOf, id);
    Preservation.RunKeepsInv(policy, s, actions);
    Engineering.InvHandoffs(policy, RunFrom(policy, s, actions));
    SweepIsIndependent(policy, settings, RunFrom(policy, s, actions), readings, cycle, id);
  }
}
