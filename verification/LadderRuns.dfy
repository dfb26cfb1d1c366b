/** Whole runs of the posture loop, the verifier and callbacks on the rungs of the rollout ladder. */
module LadderRuns {
  import opened Wrappers
  import opened Models
  import opened Policy
  import opened Lifecycle
  import opened Ledger
  import opened PostureCycle
  import opened Runs
  import opened Invariants
  import opened Ladder
  import Sorting
  import Preservation
  import Callbacks
  import CaseMoves
  import Engineering
  import Lhp = LhpHandoff

  type KeyOf = Engineering.KeyOf

  // --- loop-driven stores: a request after a failing observation never raises ---

  ghost predicate Good(policy: CasePolicy, s: State, keyOf: KeyOf) {
    Inv(policy, s) && Engineering.AllKeyed(s, keyOf)
  }

  lemma StepGood(policy: CasePolicy, s: State, a: Action, keyOf: KeyOf)
    requires Good(policy, s, keyOf) && Admissible(s, a) && Engineering.Disciplined(s, a, keyOf)
    ensures Good(policy, Step(policy, s, a), keyOf)
  {
    hide Inv, Engineering.AllKeyed, Engineering.Disciplined, Admissible, Step;
    Preservation.StepKeepsInv(policy, s, a);
    Engineering.KeyedStep(policy, s, a, keyOf);
  }

  lemma GoodOwnIds(policy: CasePolicy, s: State, keyOf: KeyOf)
    requires Good(policy, s, keyOf)
    ensures CaseMoves.OwnIds(s) && CasesKeyed(s)
  {
    hide Engineering.AllKeyed, HandoffsKeyed, ObjectivesLinked, Linked, Sane, Audited, CallbacksKeyed;
  }

  /** A firing finding as the loop supplies it: enriched as promised, with a plain new id, with the
      texts a handoff needs, and with an objective key that is a function of the fingerprint. */
  ghost predicate FiringOk(x: Firing, keyOf: KeyOf) {
    && WellFormed(x) && Scrubbed(x.enriched) && HandoffReady(x.enriched)
    && OrElse(x.enriched.objectiveKey, x.enriched.checkId) == keyOf(x.enriched.fingerprint)
    && BoundText(x.stamp.handoffId) == x.stamp.handoffId
  }

  predicate NewHandoffIds(s: State, stamp: Stamp) {
    stamp.handoffId !in s.handoffs.m && stamp.objectiveId !in s.objectives.m
  }

  /** The case that a failing observation reports is stored, of the same control, and not resolved. */
  lemma FailingSubject(policy: CasePolicy, s: State, f: Finding, cycle: string, stamp: Stamp)
    requires CasesKeyed(s) && !f.passed
    requires forall k | k in s.cases.m :: AtRest(s.cases.m[k].status)
    ensures var (t, seen) := ObserveFinding(policy, s, f, cycle, stamp);
            && seen.subject.caseId in t.cases.m
            && t.cases.m[seen.subject.caseId].fingerprint == f.fingerprint
            && t.cases.m[seen.subject.caseId].status != Resolved
            && t.handoffs == s.handoffs && t.objectives == s.objectives
  {
    hide CaseByFingerprint, CasesKeyed, AtRest, FailedCase, TriagedCase, OpenedCase, Commit, BoundKind;
    var s1 := s.(findings := s.findings.Put(f.findingId, f));
    CaseMoves.SameCasesKeyed(s, s1);
    CaseMoves.FoundCase(s1, f);
    var existing := CaseByFingerprint(s1, f.fingerprint);
    if existing.Some? {
      FailedFacts(existing.value, f, cycle, stamp.now);
    } else {
      OpenedFacts(policy, f, cycle, stamp);
    }
  }

  lemma FailedFacts(c: SecurityCase, f: Finding, cycle: string, now: int)
    ensures FailedCase(c, f, cycle, now).caseId == c.caseId && FailedCase(c, f, cycle, now).fingerprint == c.fingerprint
    ensures FailedCase(c, f, cycle, now).status == if Terminal(c.status) then Open else c.status
    ensures var d := TriagedCase(FailedCase(c, f, cycle, now), now);
            d.caseId == c.caseId && d.fingerprint == c.fingerprint && d.status == Triaged
  {
  }

  lemma OpenedFacts(policy: CasePolicy, f: Finding, cycle: string, stamp: Stamp)
    ensures var d := TriagedCase(OpenedCase(policy, f, cycle, stamp), stamp.now);
            d.caseId == stamp.caseId && d.fingerprint == f.fingerprint && d.status == Triaged
  {
  }

  lemma GoodAtRest(policy: CasePolicy, s: State, keyOf: KeyOf)
    requires Good(policy, s, keyOf)
    ensures forall k | k in s.cases.m :: AtRest(s.cases.m[k].status)
  {
    hide Engineering.AllKeyed, HandoffsKeyed, ObjectivesLinked, Linked, Audited, CallbacksKeyed, CasesKeyed, LabelsStable, AtRest;
  }

  // --- the handoff step ---

  /** What a request needs in order not to raise. */
  ghost predicate Ready(policy: CasePolicy, s: State, x: Firing, id: string, keyOf: KeyOf) {
    && Good(policy, s, keyOf) && FiringOk(x, keyOf) && NewHandoffIds(s, x.stamp)
    && id in s.cases.m && s.cases.m[id].status != Resolved && s.cases.m[id].fingerprint == x.enriched.fingerprint
  }

  /** The world after a request that returned a bundle. */
  function Requested(w: World, x: Firing, id: string): World {
    w.(state := RequestHandoff(w.state, id, x.enriched, 0, x.stamp).state,
       report := w.report.(handoffsBuilt := w.report.handoffsBuilt + 1))
  }

  /** The world after the issue step. */
  function Posted(w: World, x: Firing, id: string, post: bool): World {
    if post && x.issueUrl != "" then
      w.(state := RecordIssue(w.state, id, x.issueUrl, "", x.stamp.now),
         report := w.report.(issuesOpened := w.report.issuesOpened + 1))
    else w
  }

  lemma RequestIsSome(s: State, id: string, f: Finding, stamp: Stamp)
    requires id in s.cases.m && RequestHandoff(s, id, f, 0, stamp).result.Ok?
    ensures RequestHandoff(s, id, f, 0, stamp).result.value.Some?
  {
    hide BuildHandoff, HandoffByKey, Commit, HandedOffCase, AllowedTransition, PutObjectives, BoundKind;
  }

  lemma RequestSucceeds(policy: CasePolicy, s: State, x: Firing, id: string, keyOf: KeyOf)
    requires Ready(policy, s, x, id, keyOf)
    ensures var r := RequestHandoff(s, id, x.enriched, 0, x.stamp);
            r.result.Ok? && r.result.value.Some? && Good(policy, r.state, keyOf)
  {
    hide RequestHandoff, HandoffReady, Scrubbed, WellFormed, Engineering.AllKeyed, Inv;
    var a := Action(AskHandoff(id, x.enriched, 0), x.stamp);
    assert Engineering.Disciplined(s, a, keyOf);
    Engineering.DisciplinedRequestSucceeds(policy, s, keyOf, a);
    RequestIsSome(s, id, x.enriched, x.stamp);
    StepGood(policy, s, a, keyOf);
  }

  lemma IssueGood(policy: CasePolicy, s: State, id: string, url: string, now: int, stamp: Stamp, keyOf: KeyOf)
    requires Good(policy, s, keyOf)
    ensures Good(policy, RecordIssue(s, id, url, "", now), keyOf)
  {
    hide Good, RecordIssue;
    StepGood(policy, s, Action(NoteIssue(id, url, ""), stamp.(now := now)), keyOf);
  }

  lemma HandOffShape(policy: CasePolicy, w: World, x: Firing, id: string, post: bool, keyOf: KeyOf)
    requires Ready(policy, w.state, x, id, keyOf)
    ensures HandOff(w, x, id, post) == Posted(Requested(w, x, id), x, id, post)
    ensures Good(policy, Requested(w, x, id).state, keyOf) && Good(policy, HandOff(w, x, id, post).state, keyOf)
    ensures HandOff(w, x, id, post).raised == w.raised
  {
    hide Good, Ready, RequestHandoff, RecordIssue;
    RequestSucceeds(policy, w.state, x, id, keyOf);
    IssueGood(policy, Requested(w, x, id).state, id, x.issueUrl, x.stamp.now, x.stamp, keyOf);
  }

  // --- one finding ---

  /** The world in which an acted-on finding has been observed and charged. */
  function Charging(policy: CasePolicy, settings: PostureSettings, w: World, x: Firing, cycle: string): World {
    var (s1, seen) := ObserveFinding(policy, w.state, x.enriched, cycle, x.stamp);
    World(s1, Recorded(Rolled(w.tally, x.recordDay), settings.costEach),
          if seen.created then w.report.(casesOpened := w.report.casesOpened + 1)
          else w.report.(casesRefreshed := w.report.casesRefreshed + 1),
          w.acted + [x], false)
  }

  function SubjectId(policy: CasePolicy, s: State, x: Firing, cycle: string): string {
    ObserveFinding(policy, s, x.enriched, cycle, x.stamp).1.subject.caseId
  }

  lemma ActOnShape(policy: CasePolicy, settings: PostureSettings, w: World, x: Firing, d: Decision, cycle: string)
    ensures var w1 := Charging(policy, settings, w, x, cycle);
            (ActOn(policy, settings, w, x, d, cycle)
          == if d.buildHandoff then HandOff(w1, x, SubjectId(policy, w.state, x, cycle), d.postHandoff) else w1)
  {
    hide ObserveFinding, HandOff, Recorded, Rolled;
  }

  lemma ObservedReady(policy: CasePolicy, settings: PostureSettings, w: World, x: Firing, cycle: string, keyOf: KeyOf)
    requires Good(policy, w.state, keyOf) && FiringOk(x, keyOf) && NewHandoffIds(w.state, x.stamp)
    requires x.stamp.caseId !in w.state.cases.m
    ensures Ready(policy, Charging(policy, settings, w, x, cycle).state, x, SubjectId(policy, w.state, x, cycle), keyOf)
  {
    hide Good, AtRest, ObserveFinding, Scrubbed, HandoffReady, CaseMoves.OwnIds, CasesKeyed, Recorded, Rolled;
    GoodOwnIds(policy, w.state, keyOf);
    GoodAtRest(policy, w.state, keyOf);
    FailingSubject(policy, w.state, x.enriched, cycle, x.stamp);
    StepGood(policy, w.state, Action(Observe(x.enriched, cycle, true), x.stamp), keyOf);
  }

  ghost predicate Acceptable(s: State, x: Firing, keyOf: KeyOf) {
    FiringOk(x, keyOf) && NewHandoffIds(s, x.stamp) && x.stamp.caseId !in s.cases.m
  }

  /** On a good store the processing of a finding does not raise and leaves a good store. */
  lemma ProcessGood(policy: CasePolicy, settings: PostureSettings, mode: Mode, w: World, x: Firing, cycle: string, keyOf: KeyOf)
    requires Good(policy, w.state, keyOf) && !w.raised && Acceptable(w.state, x, keyOf)
    ensures var r := Process(policy, settings, mode, w, x, cycle); Good(policy, r.state, keyOf) && !r.raised
  {
    hide Good, Ready, FiringOk, HandOff, ActOn, Gate, ObserveFinding, Recorded, Rolled;
    var (d, t1) := Gate(x.raw, mode, settings, w.tally, x.countDay, x.costDay);
    var v := w.(tally := t1);
    ActOnShape(policy, settings, v, x, d, cycle);
    ObservedReady(policy, settings, v, x, cycle, keyOf);
    ReadyGood(policy, Charging(policy, settings, v, x, cycle).state, x, SubjectId(policy, w.state, x, cycle), keyOf);
    HandOffShape(policy, Charging(policy, settings, v, x, cycle), x, SubjectId(policy, w.state, x, cycle), d.postHandoff, keyOf);
  }

  lemma ReadyGood(policy: CasePolicy, s: State, x: Firing, id: string, keyOf: KeyOf)
    requires Ready(policy, s, x, id, keyOf)
    ensures Good(policy, s, keyOf)
  {
  }

  // --- two rungs side by side ---

  function Blind(full: bool, r: Report): Report {
    if full then r.(handoffsBuilt := 0, issuesOpened := 0) else r.(issuesOpened := 0)
  }

  /** Same cores, same ledger, same selection, same counters up to those of handoffs and issues. */
  ghost predicate SameWorld(full: bool, v: World, w: World) {
    && SameCore(full, v.state, w.state) && v.tally == w.tally && v.acted == w.acted
    && Blind(full, v.report) == Blind(full, w.report)
  }

  lemma SameWorldTransitive(full: bool, u: World, v: World, w: World)
    requires SameWorld(full, u, v) && SameWorld(full, v, w)
    ensures SameWorld(full, u, w)
  {
    hide SameCore;
    SameCoreTransitive(full, u.state, v.state, w.state);
  }

  lemma SameWorldSymmetric(full: bool, v: World, w: World)
    requires SameWorld(full, v, w)
    ensures SameWorld(full, w, v)
  {
  }

  lemma PostedInvisible(full: bool, w: World, x: Firing, id: string, post: bool)
    requires CaseMoves.OwnIds(w.state)
    ensures SameWorld(full, Posted(w, x, id, post), w)
  {
    hide SameCore, CaseMoves.OwnIds, RecordIssue;
    IssueInvisible(full, w.state, id, x.issueUrl, "", x.stamp.now);
    SameCoreReflexive(full, w.state);
  }

  lemma SameCoreReflexive(full: bool, s: State)
    ensures SameCore(full, s, s)
  {
  }

  lemma RequestedInvisible(w: World, x: Firing, id: string)
    requires CaseMoves.OwnIds(w.state)
    ensures SameWorld(true, Requested(w, x, id), w)
  {
    hide SameCore, CaseMoves.OwnIds, RequestHandoff;
    RequestInvisible(w.state, id, x.enriched, 0, x.stamp);
  }

  lemma RequestedSame(v: World, w: World, x: Firing, id: string)
    requires SameWorld(false, v, w) && CaseMoves.OwnIds(v.state) && CaseMoves.OwnIds(w.state)
    ensures SameWorld(false, Requested(v, x, id), Requested(w, x, id))
  {
    hide SameCore, CaseMoves.OwnIds, RequestHandoff;
    RequestSame(v.state, w.state, id, x.enriched, 0, x.stamp);
  }

  /** Handing off is invisible to the lower rungs. */
  lemma HandOffInvisible(policy: CasePolicy, w: World, x: Firing, id: string, post: bool, keyOf: KeyOf)
    requires Ready(policy, w.state, x, id, keyOf)
    ensures SameWorld(true, HandOff(w, x, id, post), w)
  {
    hide Good, Ready, SameWorld, HandOff, Requested, Posted, CaseMoves.OwnIds;
    ReadyGood(policy, w.state, x, id, keyOf);
    GoodOwnIds(policy, w.state, keyOf);
    HandOffShape(policy, w, x, id, post, keyOf);
    GoodOwnIds(policy, Requested(w, x, id).state, keyOf);
    RequestedInvisible(w, x, id);
    PostedInvisible(true, Requested(w, x, id), x, id, post);
    SameWorldTransitive(true, HandOff(w, x, id, post), Requested(w, x, id), w);
  }

  /** Between the two upper rungs it differs in the issue link only. */
  lemma HandOffSame(policy: CasePolicy, v: World, w: World, x: Firing, id: string, p: bool, q: bool, keyOf: KeyOf)
    requires SameWorld(false, v, w) && Ready(policy, v.state, x, id, keyOf) && Ready(policy, w.state, x, id, keyOf)
    ensures SameWorld(false, HandOff(v, x, id, p), HandOff(w, x, id, q))
  {
    hide Good, Ready, SameWorld, HandOff, Requested, Posted, CaseMoves.OwnIds;
    ReadyGood(policy, v.state, x, id, keyOf);
    ReadyGood(policy, w.state, x, id, keyOf);
    GoodOwnIds(policy, v.state, keyOf);
    GoodOwnIds(policy, w.state, keyOf);
    HandOffShape(policy, v, x, id, p, keyOf);
    HandOffShape(policy, w, x, id, q, keyOf);
    var (v1, w1) := (Requested(v, x, id), Requested(w, x, id));
    GoodOwnIds(policy, v1.state, keyOf);
    GoodOwnIds(policy, w1.state, keyOf);
    RequestedSame(v, w, x, id);
    PostedInvisible(false, v1, x, id, p);
    PostedInvisible(false, w1, x, id, q);
    SameWorldSymmetric(false, HandOff(w, x, id, q), w1);
    SameWorldTransitive(false, HandOff(v, x, id, p), v1, w1);
    SameWorldTransitive(false, HandOff(v, x, id, p), w1, HandOff(w, x, id, q));
  }

  lemma ChargingSame(full: bool, policy: CasePolicy, settings: PostureSettings, v: World, w: World, x: Firing, cycle: string)
    requires SameWorld(full, v, w) && !x.enriched.passed
    ensures SameWorld(full, Charging(policy, settings, v, x, cycle), Charging(policy, settings, w, x, cycle))
    ensures SubjectId(policy, v.state, x, cycle) == SubjectId(policy, w.state, x, cycle)
  {
    hide SameCore, ObserveFinding, Recorded, Rolled;
    ObserveSame(full, policy, v.state, w.state, x.enriched, cycle, x.stamp);
  }

  /** Rungs on which the gate lets the same findings through; with `full` false, also the same handoffs. */
  predicate Comparable(full: bool, m: Mode, n: Mode) {
    m != Shadow && n != Shadow && (!full ==> BuildsHandoff(m) && BuildsHandoff(n))
  }

  lemma GateSameAct(full: bool, m: Mode, n: Mode, settings: PostureSettings, f: Finding, t: Tally, countDay: int, costDay: int)
    requires Comparable(full, m, n)
    ensures var ((d, t1), (e, t2)) := (Gate(f, m, settings, t, countDay, costDay), Gate(f, n, settings, t, countDay, costDay));
            t1 == t2 && d.act == e.act && d.reason == e.reason && (!full ==> d.buildHandoff == e.buildHandoff)
  {
    hide Rolled, FitsCost, Remaining, SeverityRank;
  }

  lemma ActOnSame(full: bool, policy: CasePolicy, settings: PostureSettings, v: World, w: World, x: Firing,
                  d: Decision, e: Decision, cycle: string, keyOf: KeyOf)
    requires SameWorld(full, v, w) && (!full ==> d.buildHandoff == e.buildHandoff)
    requires Good(policy, v.state, keyOf) && Acceptable(v.state, x, keyOf)
    requires Good(policy, w.state, keyOf) && Acceptable(w.state, x, keyOf)
    ensures SameWorld(full, ActOn(policy, settings, v, x, d, cycle), ActOn(policy, settings, w, x, e, cycle))
  {
    hide Good, Ready, SameWorld, HandOff, ActOn, Charging, SubjectId, Scrubbed, HandoffReady;
    ActOnShape(policy, settings, v, x, d, cycle);
    ActOnShape(policy, settings, w, x, e, cycle);
    ObservedReady(policy, settings, v, x, cycle, keyOf);
    ObservedReady(policy, settings, w, x, cycle, keyOf);
    ChargingSame(full, policy, settings, v, w, x, cycle);
    var (v1, w1) := (Charging(policy, settings, v, x, cycle), Charging(policy, settings, w, x, cycle));
    var id := SubjectId(policy, v.state, x, cycle);
    if !full && d.buildHandoff {
      HandOffSame(policy, v1, w1, x, id, d.postHandoff, e.postHandoff, keyOf);
    } else if full {
      HandOffInvisible(policy, v1, x, id, d.postHandoff, keyOf);
      HandOffInvisible(policy, w1, x, id, e.postHandoff, keyOf);
      var (v2, w2) := (HandOff(v1, x, id, d.postHandoff), HandOff(w1, x, id, e.postHandoff));
      SameWorldSymmetric(true, w2, w1);
      SameWorldTransitive(true, v1, w1, w2);
      SameWorldTransitive(true, v2, v1, w1);
      SameWorldTransitive(true, v2, v1, w2);
    }
  }

  lemma ProcessSame(full: bool, policy: CasePolicy, settings: PostureSettings, m: Mode, n: Mode, v: World, w: World, x: Firing,
                    cycle: string, keyOf: KeyOf)
    requires Comparable(full, m, n) && SameWorld(full, v, w)
    requires Good(policy, v.state, keyOf) && Acceptable(v.state, x, keyOf)
    requires Good(policy, w.state, keyOf) && Acceptable(w.state, x, keyOf)
    ensures SameWorld(full, Process(policy, settings, m, v, x, cycle), Process(policy, settings, n, w, x, cycle))
  {
    hide Good, Acceptable, ActOn, Gate, SameCore;
    GateSameAct(full, m, n, settings, x.raw, v.tally, x.countDay, x.costDay);
    var ((d, t1), (e, t2)) := (Gate(x.raw, m, settings, v.tally, x.countDay, x.costDay),
                               Gate(x.raw, n, settings, w.tally, x.countDay, x.costDay));
    if d.act && |v.acted| < settings.maxPerCycle {
      ActOnSame(full, policy, settings, v.(tally := t1), w.(tally := t2), x, d, e, cycle, keyOf);
    }
  }

  // --- whole cycles ---

  /** Every passing finding of a scan is one, scrubbed, and brings a new id. */
  ghost predicate PassingOk(policy: CasePolicy, w: World, passing: seq<Passing>, cycle: string)
    decreases |passing|
  {
    passing != [] ==>
      && passing[0].finding.passed && Scrubbed(passing[0].finding) && passing[0].stamp.caseId !in w.state.cases.m
      && PassingOk(policy, AfterPassing(policy, w, passing[0], cycle), passing[1..], cycle)
  }

  function AfterPassing(policy: CasePolicy, w: World, x: Passing, cycle: string): World {
    w.(state := ObserveFinding(policy, w.state, x.finding, cycle, x.stamp).0,
       report := w.report.(positives := w.report.positives + 1))
  }

  ghost predicate FiringsOk(policy: CasePolicy, settings: PostureSettings, mode: Mode, w: World, xs: seq<Firing>, cycle: string, keyOf: KeyOf)
    decreases |xs|
  {
    xs != [] ==>
      && Acceptable(w.state, xs[0], keyOf)
      && FiringsOk(policy, settings, mode, Process(policy, settings, mode, w, xs[0], cycle), xs[1..], cycle, keyOf)
  }

  lemma {:induction false} PassingGood(policy: CasePolicy, w: World, passing: seq<Passing>, cycle: string, keyOf: KeyOf)
    requires Good(policy, w.state, keyOf) && !w.raised && PassingOk(policy, w, passing, cycle)
    ensures var r := ObservePassing(policy, w, passing, cycle); Good(policy, r.state, keyOf) && !r.raised
    decreases |passing|
  {
    hide Good, Scrubbed, ObserveFinding;
    if passing != [] {
      var x := passing[0];
      StepGood(policy, w.state, Action(Observe(x.finding, cycle, true), x.stamp), keyOf);
      PassingGood(policy, AfterPassing(policy, w, x, cycle), passing[1..], cycle, keyOf);
    }
  }

  lemma {:induction false} PassingSame(full: bool, policy: CasePolicy, v: World, w: World, passing: seq<Passing>, cycle: string)
    requires SameWorld(full, v, w)
    ensures SameWorld(full, ObservePassing(policy, v, passing, cycle), ObservePassing(policy, w, passing, cycle))
    decreases |passing|
  {
    hide SameCore, ObserveFinding;
    if passing != [] {
      var x := passing[0];
      ObserveSame(full, policy, v.state, w.state, x.finding, cycle, x.stamp);
      PassingSame(full, policy, AfterPassing(policy, v, x, cycle), AfterPassing(policy, w, x, cycle), passing[1..], cycle);
    }
  }

  lemma {:induction false} ProcessAllGood(policy: CasePolicy, settings: PostureSettings, mode: Mode, w: World, xs: seq<Firing>, cycle: string, keyOf: KeyOf)
    requires Good(policy, w.state, keyOf) && !w.raised && FiringsOk(policy, settings, mode, w, xs, cycle, keyOf)
    ensures var r := ProcessAll(policy, settings, mode, w, xs, cycle); Good(policy, r.state, keyOf) && !r.raised
    decreases |xs|
  {
    hide Good, Acceptable, Process;
    if xs != [] {
      ProcessGood(policy, settings, mode, w, xs[0], cycle, keyOf);
      ProcessAllGood(policy, settings, mode, Process(policy, settings, mode, w, xs[0], cycle), xs[1..], cycle, keyOf);
    }
  }

  lemma {:induction false} ProcessAllSame(full: bool, policy: CasePolicy, settings: PostureSettings, m: Mode, n: Mode, v: World, w: World,
                                          xs: seq<Firing>, cycle: string, keyOf: KeyOf)
    requires Comparable(full, m, n) && SameWorld(full, v, w) && !v.raised && !w.raised
    requires Good(policy, v.state, keyOf) && FiringsOk(policy, settings, m, v, xs, cycle, keyOf)
    requires Good(policy, w.state, keyOf) && FiringsOk(policy, settings, n, w, xs, cycle, keyOf)
    ensures SameWorld(full, ProcessAll(policy, settings, m, v, xs, cycle), ProcessAll(policy, settings, n, w, xs, cycle))
    decreases |xs|
  {
    hide Good, Acceptable, Process, SameWorld;
    if xs != [] {
      ProcessGood(policy, settings, m, v, xs[0], cycle, keyOf);
      ProcessGood(policy, settings, n, w, xs[0], cycle, keyOf);
      ProcessSame(full, policy, settings, m, n, v, w, xs[0], cycle, keyOf);
      ProcessAllSame(full, policy, settings, m, n, Process(policy, settings, m, v, xs[0], cycle), Process(policy, settings, n, w, xs[0], cycle),
                     xs[1..], cycle, keyOf);
    }
  }

  ghost predicate ScanOk(policy: CasePolicy, settings: PostureSettings, mode: Mode, s: State, t: Tally, scan: Scan, keyOf: KeyOf) {
    var w := World(s, t, StartReport(scan), [], false);
    && PassingOk(policy, w, scan.passing, scan.cycle)
    && FiringsOk(policy, settings, mode, ObservePassing(policy, w, scan.passing, scan.cycle),
                 Sorting.SortBy(scan.firing, Priority), scan.cycle, keyOf)
  }

  lemma CycleGood(policy: CasePolicy, settings: PostureSettings, mode: Mode, s: State, t: Tally, scan: Scan, keyOf: KeyOf)
    requires mode != Shadow && Good(policy, s, keyOf) && ScanOk(policy, settings, mode, s, t, scan, keyOf)
    ensures var r := Cycle(policy, settings, mode, s, t, scan); Good(policy, r.state, keyOf) && !r.raised
  {
    hide Good, PassingOk, FiringsOk, ObservePassing, ProcessAll, Sorting.SortBy;
    var w := World(s, t, StartReport(scan), [], false);
    PassingGood(policy, w, scan.passing, scan.cycle, keyOf);
    ProcessAllGood(policy, settings, mode, ObservePassing(policy, w, scan.passing, scan.cycle),
                   Sorting.SortBy(scan.firing, Priority), scan.cycle, keyOf);
  }

  lemma CycleSame(full: bool, policy: CasePolicy, settings: PostureSettings, m: Mode, n: Mode, s: State, t: State, tally: Tally,
                  scan: Scan, keyOf: KeyOf)
    requires Comparable(full, m, n) && SameCore(full, s, t)
    requires Good(policy, s, keyOf) && ScanOk(policy, settings, m, s, tally, scan, keyOf)
    requires Good(policy, t, keyOf) && ScanOk(policy, settings, n, t, tally, scan, keyOf)
    ensures SameWorld(full, Cycle(policy, settings, m, s, tally, scan), Cycle(policy, settings, n, t, tally, scan))
  {
    hide Good, PassingOk, FiringsOk, ObservePassing, ProcessAll, Sorting.SortBy, SameCore, SameWorld;
    var (v, w) := (World(s, tally, StartReport(scan), [], false), World(t, tally, StartReport(scan), [], false));
    assert SameWorld(full, v, w) by { StartSame(full, v, w); }
    PassingSame(full, policy, v, w, scan.passing, scan.cycle);
    PassingGood(policy, v, scan.passing, scan.cycle, keyOf);
    PassingGood(policy, w, scan.passing, scan.cycle, keyOf);
    ProcessAllSame(full, policy, settings, m, n, ObservePassing(policy, v, scan.passing, scan.cycle),
                   ObservePassing(policy, w, scan.passing, scan.cycle), Sorting.SortBy(scan.firing, Priority), scan.cycle, keyOf);
  }

  lemma StartSame(full: bool, v: World, w: World)
    requires SameCore(full, v.state, w.state) && v.tally == w.tally && v.acted == w.acted && v.report == w.report
    ensures SameWorld(full, v, w)
  {
  }

  // --- a cycle is a run ---

  predicate Issues(w: World, x: Firing, id: string, d: Decision) {
    var result := RequestHandoff(w.state, id, x.enriched, 0, x.stamp).result;
    result.Ok? && result.value.Some? && d.postHandoff && x.issueUrl != ""
  }

  /** The operations that processing one firing finding comes to. */
  function ActionsFor(policy: CasePolicy, settings: PostureSettings, mode: Mode, w: World, x: Firing, cycle: string, healthy: bool): seq<Action> {
    var (d, t1) := Gate(x.raw, mode, settings, w.tally, x.countDay, x.costDay);
    if !d.act || |w.acted| >= settings.maxPerCycle then []
    else
      var id := SubjectId(policy, w.state, x, cycle);
      [Action(Observe(x.enriched, cycle, healthy), x.stamp)]
      + (if !d.buildHandoff then []
         else [Action(AskHandoff(id, x.enriched, 0), x.stamp)]
              + if Issues(Charging(policy, settings, w, x, cycle), x, id, d) then [Action(NoteIssue(id, x.issueUrl, ""), x.stamp)] else [])
  }

  function FiringActions(policy: CasePolicy, settings: PostureSettings, mode: Mode, w: World, xs: seq<Firing>, cycle: string, healthy: bool): seq<Action>
    decreases |xs|
  {
    if xs == [] || w.raised then []
    else ActionsFor(policy, settings, mode, w, xs[0], cycle, healthy)
         + FiringActions(policy, settings, mode, Process(policy, settings, mode, w, xs[0], cycle), xs[1..], cycle, healthy)
  }

  function PassingActions(passing: seq<Passing>, cycle: string, healthy: bool): seq<Action> {
    seq(|passing|, i requires 0 <= i < |passing| => Action(Observe(passing[i].finding, cycle, healthy), passing[i].stamp))
  }

  lemma RunUpToThree(policy: CasePolicy, s: State, a: Action, b: Action, c: Action)
    ensures RunFrom(policy, s, []) == s
    ensures RunFrom(policy, s, [a]) == Step(policy, s, a)
    ensures RunFrom(policy, s, [a] + [b]) == Step(policy, Step(policy, s, a), b)
    ensures RunFrom(policy, s, [a] + ([b] + [c])) == Step(policy, Step(policy, Step(policy, s, a), b), c)
  {
    hide Step;
    assert [a][..0] == [] && ([a] + [b])[..1] == [a] && ([a] + ([b] + [c]))[..2] == [a] + [b];
  }

  lemma HandOffSteps(policy: CasePolicy, w: World, x: Firing, id: string, d: Decision)
    ensures var asked := Step(policy, w.state, Action(AskHandoff(id, x.enriched, 0), x.stamp));
            (HandOff(w, x, id, d.postHandoff).state
             == if Issues(w, x, id, d) then Step(policy, asked, Action(NoteIssue(id, x.issueUrl, ""), x.stamp)) else asked)
  {
    hide RequestHandoff, RecordIssue;
  }

  lemma ProcessIsARun(policy: CasePolicy, settings: PostureSettings, mode: Mode, w: World, x: Firing, cycle: string, healthy: bool)
    ensures Process(policy, settings, mode, w, x, cycle).state
         == RunFrom(policy, w.state, ActionsFor(policy, settings, mode, w, x, cycle, healthy))
  {
    hide ActOn, HandOff, Issues, Step, SubjectId, Charging, Gate, RunFrom;
    var (d, t1) := Gate(x.raw, mode, settings, w.tally, x.countDay, x.costDay);
    var v := w.(tally := t1);
    var id := SubjectId(policy, w.state, x, cycle);
    var (observe, ask, note) := (Action(Observe(x.enriched, cycle, healthy), x.stamp), Action(AskHandoff(id, x.enriched, 0), x.stamp),
                                 Action(NoteIssue(id, x.issueUrl, ""), x.stamp));
    ChargingIsObserve(policy, settings, v, x, cycle, healthy);
    IssuesSame(policy, settings, w, v, x, cycle, id, d);
    ActOnShape(policy, settings, v, x, d, cycle);
    HandOffSteps(policy, Charging(policy, settings, v, x, cycle), x, id, d);
    RunUpToThree(policy, w.state, observe, ask, note);
    assert [observe] + [] == [observe] && [ask] + [] == [ask];
  }

  lemma ChargingIsObserve(policy: CasePolicy, settings: PostureSettings, w: World, x: Firing, cycle: string, healthy: bool)
    ensures Charging(policy, settings, w, x, cycle).state == Step(policy, w.state, Action(Observe(x.enriched, cycle, healthy), x.stamp))
  {
    hide ObserveFinding, Recorded, Rolled;
  }

  lemma IssuesSame(policy: CasePolicy, settings: PostureSettings, v: World, w: World, x: Firing, cycle: string, id: string, d: Decision)
    requires v.state == w.state
    ensures Issues(Charging(policy, settings, v, x, cycle), x, id, d) == Issues(Charging(policy, settings, w, x, cycle), x, id, d)
  {
    hide ObserveFinding, RequestHandoff, Recorded, Rolled;
  }

  lemma {:induction false} FiringIsARun(policy: CasePolicy, settings: PostureSettings, mode: Mode, w: World, xs: seq<Firing>, cycle: string, healthy: bool)
    ensures ProcessAll(policy, settings, mode, w, xs, cycle).state
         == RunFrom(policy, w.state, FiringActions(policy, settings, mode, w, xs, cycle, healthy))
    decreases |xs|
  {
    hide Process, ActionsFor;
    if xs != [] && !w.raised {
      var w1 := Process(policy, settings, mode, w, xs[0], cycle);
      ProcessIsARun(policy, settings, mode, w, xs[0], cycle, healthy);
      FiringIsARun(policy, settings, mode, w1, xs[1..], cycle, healthy);
      RunFromAppend(policy, w.state, ActionsFor(policy, settings, mode, w, xs[0], cycle, healthy),
                    FiringActions(policy, settings, mode, w1, xs[1..], cycle, healthy));
      hide RunFrom;
    }
  }

  lemma {:induction false} PassingIsARun(policy: CasePolicy, w: World, passing: seq<Passing>, cycle: string, healthy: bool)
    ensures ObservePassing(policy, w, passing, cycle).state == RunFrom(policy, w.state, PassingActions(passing, cycle, healthy))
    decreases |passing|
  {
    hide ObserveFinding;
    if passing != [] {
      var a := Action(Observe(passing[0].finding, cycle, healthy), passing[0].stamp);
      PassingIsARun(policy, AfterPassing(policy, w, passing[0], cycle), passing[1..], cycle, healthy);
      assert PassingActions(passing, cycle, healthy) == [a] + PassingActions(passing[1..], cycle, healthy);
      RunFromAppend(policy, w.state, [a], PassingActions(passing[1..], cycle, healthy));
      RunUpToThree(policy, w.state, a, a, a);
      hide RunFrom;
    }
  }

  /** The operations of a whole cycle; its observations carry the health of its scan. */
  function CycleActions(policy: CasePolicy, settings: PostureSettings, mode: Mode, s: State, t: Tally, scan: Scan): seq<Action> {
    if mode == Shadow then []
    else
      var w := ObservePassing(policy, World(s, t, StartReport(scan), [], false), scan.passing, scan.cycle);
      PassingActions(scan.passing, scan.cycle, !scan.degraded)
      + FiringActions(policy, settings, mode, w, Sorting.SortBy(scan.firing, Priority), scan.cycle, !scan.degraded)
  }

  /** So every theorem about runs covers whole cycles, and a cycle takes no verifier step. */
  lemma CycleIsARun(policy: CasePolicy, settings: PostureSettings, mode: Mode, s: State, t: Tally, scan: Scan)
    ensures Cycle(policy, settings, mode, s, t, scan).state == RunFrom(policy, s, CycleActions(policy, settings, mode, s, t, scan))
    ensures forall a | a in CycleActions(policy, settings, mode, s, t, scan) :: !a.op.Verify? && !a.op.Deliver?
  {
    hide RunFrom, ProcessAll, ObservePassing, FiringActions, PassingActions, Sorting.SortBy;
    RunNone(policy, s);
    if mode != Shadow {
      var w := World(s, t, StartReport(scan), [], false);
      var w1 := ObservePassing(policy, w, scan.passing, scan.cycle);
      var xs := Sorting.SortBy(scan.firing, Priority);
      PassingIsARun(policy, w, scan.passing, scan.cycle, !scan.degraded);
      FiringIsARun(policy, settings, mode, w1, xs, scan.cycle, !scan.degraded);
      PassingObserves(scan.passing, scan.cycle, !scan.degraded);
      NoVerifierActions(policy, settings, mode, w1, xs, scan.cycle, !scan.degraded);
      RunFromAppend(policy, s, PassingActions(scan.passing, scan.cycle, !scan.degraded),
                    FiringActions(policy, settings, mode, w1, xs, scan.cycle, !scan.degraded));
    }
  }

  lemma PassingObserves(passing: seq<Passing>, cycle: string, healthy: bool)
    ensures forall a | a in PassingActions(passing, cycle, healthy) :: a.op.Observe?
  {
  }

  lemma {:induction false} NoVerifierActions(policy: CasePolicy, settings: PostureSettings, mode: Mode, w: World, xs: seq<Firing>, cycle: string, healthy: bool)
    ensures forall a | a in FiringActions(policy, settings, mode, w, xs, cycle, healthy) :: !a.op.Verify? && !a.op.Deliver?
    decreases |xs|
  {
    hide Process, Gate, ObserveFinding, RequestHandoff, Charging;
    if xs != [] && !w.raised {
      NoVerifierActions(policy, settings, mode, Process(policy, settings, mode, w, xs[0], cycle), xs[1..], cycle, healthy);
    }
  }

  // --- whole runs ---

  datatype LadderOp =
    | Sweep(scan: Scan)
    | Reread(finding: Finding, cycle: string, stamp: Stamp)
    | Degrade(caseId: string, cycle: string, now: int)
    | Confirm(caseId: string, reason: string, settings: VerifierSettings, now: int)
    | Inform(raw: Lhp.RawUpdate, now: int)

  /** One rung of the ladder: its store, its ledger, the reports of its cycles, whether one raised,
      and for each callback whether it did. */
  datatype Rung = Rung(state: State, tally: Tally, reports: seq<Report>, raised: bool, refused: seq<bool>)

  /** The operations that are not cycles, as actions. */
  function ActionOf(op: LadderOp): Action
    requires !op.Sweep?
  {
    match op
    case Reread(f, cycle, stamp) => Action(Observe(f, cycle, true), stamp)
    case Degrade(id, cycle, now) => Action(NoteDegraded(id, cycle), Stamp(now, "", "", ""))
    case Confirm(id, reason, settings, now) => Action(Verify(id, reason, settings), Stamp(now, "", "", ""))
    case Inform(raw, now) => Action(Deliver(raw), Stamp(now, "", "", ""))
  }

  function Climb(policy: CasePolicy, settings: PostureSettings, mode: Mode, r: Rung, op: LadderOp): Rung {
    if op.Sweep? then
      var w := Cycle(policy, settings, mode, r.state, r.tally, op.scan);
      Rung(w.state, w.tally, r.reports + [w.report], r.raised || w.raised, r.refused)
    else
      r.(state := Step(policy, r.state, ActionOf(op)),
         refused := r.refused + if op.Inform? then [Perform(policy, r.state, ActionOf(op)).1] else [])
  }

  function ClimbAll(policy: CasePolicy, settings: PostureSettings, mode: Mode, r: Rung, ops: seq<LadderOp>): Rung {
    if ops == [] then r
    else Climb(policy, settings, mode, ClimbAll(policy, settings, mode, r, ops[..|ops| - 1]), ops[|ops| - 1])
  }

  ghost predicate OpOk(policy: CasePolicy, settings: PostureSettings, mode: Mode, r: Rung, op: LadderOp, keyOf: KeyOf) {
    if op.Sweep? then ScanOk(policy, settings, mode, r.state, r.tally, op.scan, keyOf)
    else Admissible(r.state, ActionOf(op))
  }

  ghost predicate OpsOk(policy: CasePolicy, settings: PostureSettings, mode: Mode, r: Rung, ops: seq<LadderOp>, keyOf: KeyOf) {
    ops != [] ==>
      && OpsOk(policy, settings, mode, r, ops[..|ops| - 1], keyOf)
      && OpOk(policy, settings, mode, ClimbAll(policy, settings, mode, r, ops[..|ops| - 1]), ops[|ops| - 1], keyOf)
  }

  ghost predicate SameReports(full: bool, a: seq<Report>, b: seq<Report>) {
    |a| == |b| && forall i | 0 <= i < |a| :: Blind(full, a[i]) == Blind(full, b[i])
  }

  ghost predicate SameRung(full: bool, a: Rung, b: Rung) {
    && SameCore(full, a.state, b.state) && a.tally == b.tally && SameReports(full, a.reports, b.reports)
    && (!full ==> a.refused == b.refused)
  }

  lemma ClimbGood(policy: CasePolicy, settings: PostureSettings, mode: Mode, r: Rung, op: LadderOp, keyOf: KeyOf)
    requires mode != Shadow && Good(policy, r.state, keyOf) && !r.raised && OpOk(policy, settings, mode, r, op, keyOf)
    ensures var t := Climb(policy, settings, mode, r, op); Good(policy, t.state, keyOf) && !t.raised
  {
    hide Good, Step, Cycle, ScanOk, Admissible;
    if op.Sweep? {
      CycleGood(policy, settings, mode, r.state, r.tally, op.scan, keyOf);
    } else {
      StepGood(policy, r.state, ActionOf(op), keyOf);
    }
  }

  /** Observations, degraded scans, verifier steps and callbacks act alike on every rung. */
  lemma StepSame(full: bool, policy: CasePolicy, s: State, t: State, op: LadderOp)
    requires !op.Sweep? && SameCore(full, s, t) && CaseMoves.OwnIds(s) && CaseMoves.OwnIds(t)
    ensures SameCore(full, Step(policy, s, ActionOf(op)), Step(policy, t, ActionOf(op)))
  {
    hide SameCore, CaseMoves.OwnIds, ObserveFinding, NoteScanDegraded, VerifyCase, RecordEngineeringUpdate, Lhp.ValidateUpdate;
    match op
    case Reread(f, cycle, stamp) => ObserveSame(full, policy, s, t, f, cycle, stamp);
    case Degrade(id, cycle, now) => DegradeSame(full, s, t, id, cycle, now);
    case Confirm(id, reason, settings, now) => VerifySame(full, settings, s, t, id, reason, now);
    case Inform(raw, now) =>
      if Lhp.ValidateUpdate(raw).Ok? {
        var u := Lhp.ValidateUpdate(raw).value;
        if full {
          UpdateInvisible(s, u, now);
          UpdateInvisible(t, u, now);
          SameCoreTransitive(true, RecordEngineeringUpdate(t, u, now).state, t, t) by { SameCoreReflexive(true, t); }
          SameCoreTransitive(true, RecordEngineeringUpdate(s, u, now).state, s, t);
          SameCoreTransitive(true, RecordEngineeringUpdate(s, u, now).state, t, RecordEngineeringUpdate(t, u, now).state);
        } else {
          UpdateSame(s, t, u, now);
        }
      }
  }

  /** With equal handoffs and inboxes a callback raises on both or on neither. */
  lemma RefusedSame(policy: CasePolicy, s: State, t: State, a: Action)
    requires SameCore(false, s, t) && a.op.Deliver?
    ensures Perform(policy, s, a).1 == Perform(policy, t, a).1
  {
    Callbacks.DeliveryRaisesIff(policy, s, a);
    Callbacks.DeliveryRaisesIff(policy, t, a);
    hide CoreCase, CoreEvents, Perform, Lhp.ValidateUpdate, Lhp.AllowedHandoffTransition;
  }

  lemma ClimbSame(full: bool, policy: CasePolicy, settings: PostureSettings, m: Mode, n: Mode, a: Rung, b: Rung, op: LadderOp, keyOf: KeyOf)
    requires Comparable(full, m, n) && SameRung(full, a, b)
    requires Good(policy, a.state, keyOf) && OpOk(policy, settings, m, a, op, keyOf)
    requires Good(policy, b.state, keyOf) && OpOk(policy, settings, n, b, op, keyOf)
    ensures SameRung(full, Climb(policy, settings, m, a, op), Climb(policy, settings, n, b, op))
  {
    hide Good, Step, Perform, Cycle, ScanOk, SameCore, CaseMoves.OwnIds, Admissible;
    if op.Sweep? {
      CycleSame(full, policy, settings, m, n, a.state, b.state, a.tally, op.scan, keyOf);
    } else {
      GoodOwnIds(policy, a.state, keyOf);
      GoodOwnIds(policy, b.state, keyOf);
      StepSame(full, policy, a.state, b.state, op);
      if op.Inform? && !full {
        RefusedSame(policy, a.state, b.state, ActionOf(op));
      }
    }
  }

  lemma {:induction false} ClimbAllGood(policy: CasePolicy, settings: PostureSettings, mode: Mode, r: Rung, ops: seq<LadderOp>, keyOf: KeyOf)
    requires mode != Shadow && Good(policy, r.state, keyOf) && !r.raised && OpsOk(policy, settings, mode, r, ops, keyOf)
    ensures var t := ClimbAll(policy, settings, mode, r, ops); Good(policy, t.state, keyOf) && !t.raised
  {
    hide Good, Climb, OpOk;
    if ops != [] {
      var n := |ops| - 1;
      ClimbAllGood(policy, settings, mode, r, ops[..n], keyOf);
      ClimbGood(policy, settings, mode, ClimbAll(policy, settings, mode, r, ops[..n]), ops[n], keyOf);
    }
  }

  lemma {:induction false} ClimbAllSame(full: bool, policy: CasePolicy, settings: PostureSettings, m: Mode, n: Mode, r: Rung,
                                        ops: seq<LadderOp>, keyOf: KeyOf)
    requires Comparable(full, m, n) && Good(policy, r.state, keyOf) && !r.raised
    requires OpsOk(policy, settings, m, r, ops, keyOf) && OpsOk(policy, settings, n, r, ops, keyOf)
    ensures SameRung(full, ClimbAll(policy, settings, m, r, ops), ClimbAll(policy, settings, n, r, ops))
  {
    hide Good, Climb, OpOk, SameRung;
    if ops == [] {
      SameRungReflexive(full, r);
    } else {
      var k := |ops| - 1;
      ClimbAllSame(full, policy, settings, m, n, r, ops[..k], keyOf);
      ClimbAllGood(policy, settings, m, r, ops[..k], keyOf);
      ClimbAllGood(policy, settings, n, r, ops[..k], keyOf);
      ClimbSame(full, policy, settings, m, n, ClimbAll(policy, settings, m, r, ops[..k]), ClimbAll(policy, settings, n, r, ops[..k]), ops[k], keyOf);
    }
  }

  lemma SameRungReflexive(full: bool, r: Rung)
    ensures SameRung(full, r, r)
  {
  }

  lemma EmptyGood(policy: CasePolicy, keyOf: KeyOf)
    ensures Good(policy, EmptyState(), keyOf)
  {
    Preservation.EmptyInv(policy);
    hide Inv;
  }

  // --- what a rung never writes ---

  /** No issue link anywhere; with `full`, no handoff data either. */
  ghost predicate Bare(full: bool, s: State) {
    && (full ==> s.handoffs.m == map[] && s.callbacks.m == map[])
    && forall k | k in s.cases.m :: BareCase(full, s.cases.m[k])
  }

  predicate BareCase(full: bool, c: SecurityCase) {
    c.issueUrl == "" && c.issueId == "" && (full ==> c.handoffIds == [] && c.handoffStatus == None)
  }

  lemma BareMove(full: bool, s: State, c: SecurityCase, a: Action)
    requires BareCase(full, c) && !a.op.NoteIssue?
    requires full ==> !a.op.AskHandoff? && (a.op.Deliver? ==> !CaseMoves.Accepted(s, a.op.raw))
    ensures BareCase(full, CaseMoves.MovedBy(s, c, a))
  {
    hide CanResolve, CaseMoves.StoresHandoff, CaseMoves.Accepted, Lhp.ValidateUpdate, AllowedTransition, StatusAfterUpdate;
  }

  lemma BareOpened(full: bool, policy: CasePolicy, f: Finding, cycle: string, stamp: Stamp)
    ensures BareCase(full, TriagedCase(OpenedCase(policy, f, cycle, stamp), stamp.now))
  {
  }

  lemma NothingAccepted(s: State, raw: Lhp.RawUpdate)
    requires s.handoffs.m == map[]
    ensures !CaseMoves.Accepted(s, raw)
  {
    hide Lhp.ValidateUpdate;
  }

  lemma BareStep(full: bool, policy: CasePolicy, s: State, a: Action, keyOf: KeyOf)
    requires Good(policy, s, keyOf) && Bare(full, s) && Admissible(s, a)
    requires !a.op.NoteIssue? && (full ==> !a.op.AskHandoff?)
    ensures Bare(full, Step(policy, s, a))
  {
    hide Good, BareCase, Step, Admissible, CaseMoves.OwnIds, CasesKeyed, CaseMoves.MovedBy, CaseMoves.Accepted, TriagedCase, OpenedCase;
    GoodOwnIds(policy, s, keyOf);
    var t := Step(policy, s, a);
    if full {
      if a.op.Deliver? {
        NothingAccepted(s, a.op.raw);
        NothingDelivered(policy, s, a);
      } else {
        Engineering.OtherHandoffs(policy, s, a);
        Callbacks.OtherCallbacks(policy, s, a);
      }
    }
    forall k | k in t.cases.m ensures BareCase(full, t.cases.m[k]) {
      CaseMoves.StepMoves(policy, s, a, k);
      if k in s.cases.m {
        BareMove(full, s, s.cases.m[k], a);
      } else {
        BareOpened(full, policy, a.op.finding, a.op.cycle, a.stamp);
      }
    }
  }

  lemma NothingDelivered(policy: CasePolicy, s: State, a: Action)
    requires a.op.Deliver? && !CaseMoves.Accepted(s, a.op.raw)
    ensures Step(policy, s, a) == s
  {
    hide Lhp.ValidateUpdate, Lhp.AllowedHandoffTransition, RecordEngineeringUpdate, Preservation.AcceptedNow;
    if Lhp.ValidateUpdate(a.op.raw).Ok? {
      Preservation.UpdateCases(s, Lhp.ValidateUpdate(a.op.raw).value, a.stamp.now);
    }
  }

  /** Without handoffs and inbox every callback raises. */
  lemma BareRefuses(policy: CasePolicy, s: State, a: Action)
    requires Bare(true, s) && a.op.Deliver?
    ensures Perform(policy, s, a).1
  {
    Callbacks.DeliveryRaisesIff(policy, s, a);
    hide BareCase, Perform, Lhp.ValidateUpdate;
  }

  /** The rung that must leave `Bare(full, _)` alone: case_only with `full`, handoff_dry without. */
  predicate BareMode(full: bool, mode: Mode) {
    if full then mode == CaseOnly else mode == HandoffDry
  }

  lemma GateOfBareMode(full: bool, mode: Mode, settings: PostureSettings, f: Finding, t: Tally, countDay: int, costDay: int)
    requires BareMode(full, mode)
    ensures var d := Gate(f, mode, settings, t, countDay, costDay).0; !d.postHandoff && (full ==> !d.buildHandoff)
  {
    hide Rolled, FitsCost, Remaining, SeverityRank;
  }

  lemma ProcessBare(full: bool, policy: CasePolicy, settings: PostureSettings, mode: Mode, w: World, x: Firing, cycle: string, keyOf: KeyOf)
    requires BareMode(full, mode) && Good(policy, w.state, keyOf) && Acceptable(w.state, x, keyOf) && Bare(full, w.state)
    ensures Bare(full, Process(policy, settings, mode, w, x, cycle).state)
  {
    hide Good, Ready, Bare, HandOff, ActOn, Gate, ObserveFinding, RequestHandoff, Scrubbed, HandoffReady, Recorded, Rolled;
    GateOfBareMode(full, mode, settings, x.raw, w.tally, x.countDay, x.costDay);
    var (d, t1) := Gate(x.raw, mode, settings, w.tally, x.countDay, x.costDay);
    var v := w.(tally := t1);
    var v1 := Charging(policy, settings, v, x, cycle);
    var id := SubjectId(policy, w.state, x, cycle);
    ActOnShape(policy, settings, v, x, d, cycle);
    ObservedReady(policy, settings, v, x, cycle, keyOf);
    BareStep(full, policy, w.state, Action(Observe(x.enriched, cycle, true), x.stamp), keyOf);
    if !full {
      HandOffShape(policy, v1, x, id, false, keyOf);
      ReadyGood(policy, v1.state, x, id, keyOf);
      ReadyIds(policy, v1.state, x, id, keyOf);
      BareStep(false, policy, v1.state, Action(AskHandoff(id, x.enriched, 0), x.stamp), keyOf);
    }
  }

  lemma ReadyIds(policy: CasePolicy, s: State, x: Firing, id: string, keyOf: KeyOf)
    requires Ready(policy, s, x, id, keyOf)
    ensures Admissible(s, Action(AskHandoff(id, x.enriched, 0), x.stamp))
  {
    hide Good, HandoffReady, Scrubbed, WellFormed;
  }

  lemma {:induction false} PassingBare(full: bool, policy: CasePolicy, w: World, passing: seq<Passing>, cycle: string, keyOf: KeyOf)
    requires Good(policy, w.state, keyOf) && !w.raised && Bare(full, w.state) && PassingOk(policy, w, passing, cycle)
    ensures Bare(full, ObservePassing(policy, w, passing, cycle).state)
    decreases |passing|
  {
    hide Good, Bare, Scrubbed, ObserveFinding;
    if passing != [] {
      var x := passing[0];
      var a := Action(Observe(x.finding, cycle, true), x.stamp);
      StepGood(policy, w.state, a, keyOf);
      BareStep(full, policy, w.state, a, keyOf);
      PassingBare(full, policy, AfterPassing(policy, w, x, cycle), passing[1..], cycle, keyOf);
    }
  }

  lemma {:induction false} ProcessAllBare(full: bool, policy: CasePolicy, settings: PostureSettings, mode: Mode, w: World, xs: seq<Firing>,
                                          cycle: string, keyOf: KeyOf)
    requires BareMode(full, mode) && Good(policy, w.state, keyOf) && !w.raised && Bare(full, w.state)
    requires FiringsOk(policy, settings, mode, w, xs, cycle, keyOf)
    ensures Bare(full, ProcessAll(policy, settings, mode, w, xs, cycle).state)
    decreases |xs|
  {
    hide Good, Bare, Acceptable, Process;
    if xs != [] {
      ProcessGood(policy, settings, mode, w, xs[0], cycle, keyOf);
      ProcessBare(full, policy, settings, mode, w, xs[0], cycle, keyOf);
      ProcessAllBare(full, policy, settings, mode, Process(policy, settings, mode, w, xs[0], cycle), xs[1..], cycle, keyOf);
    }
  }

  lemma {:induction false} ClimbAllBare(full: bool, policy: CasePolicy, settings: PostureSettings, mode: Mode, r: Rung, ops: seq<LadderOp>, keyOf: KeyOf)
    requires BareMode(full, mode) && Good(policy, r.state, keyOf) && !r.raised && Bare(full, r.state)
    requires OpsOk(policy, settings, mode, r, ops, keyOf) && AllTrue(r.refused)
    ensures Bare(full, ClimbAll(policy, settings, mode, r, ops).state)
    ensures full ==> AllTrue(ClimbAll(policy, settings, mode, r, ops).refused)
  {
    hide Good, Bare, OpOk, Climb, AllTrue;
    if ops != [] {
      var n := |ops| - 1;
      var t := ClimbAll(policy, settings, mode, r, ops[..n]);
      ClimbAllBare(full, policy, settings, mode, r, ops[..n], keyOf);
      ClimbAllGood(policy, settings, mode, r, ops[..n], keyOf);
      ClimbBare(full, policy, settings, mode, t, ops[n], keyOf);
      if full {
        ClimbRefuses(policy, settings, mode, t, ops[n]);
      }
    }
  }

  predicate AllTrue(bs: seq<bool>) {
    forall i | 0 <= i < |bs| :: bs[i]
  }

  lemma ClimbRefuses(policy: CasePolicy, settings: PostureSettings, mode: Mode, r: Rung, op: LadderOp)
    requires Bare(true, r.state) && AllTrue(r.refused)
    ensures AllTrue(Climb(policy, settings, mode, r, op).refused)
  {
    hide Bare, Perform, Cycle;
    if op.Inform? {
      BareRefuses(policy, r.state, ActionOf(op));
    }
  }

  lemma ClimbBare(full: bool, policy: CasePolicy, settings: PostureSettings, mode: Mode, r: Rung, op: LadderOp, keyOf: KeyOf)
    requires BareMode(full, mode) && Good(policy, r.state, keyOf) && Bare(full, r.state) && OpOk(policy, settings, mode, r, op, keyOf)
    ensures Bare(full, Climb(policy, settings, mode, r, op).state)
  {
    hide Good, Bare, Step, PassingOk, FiringsOk, Admissible, ObservePassing, ProcessAll, Sorting.SortBy;
    if op.Sweep? {
      var w := World(r.state, r.tally, StartReport(op.scan), [], false);
      PassingBare(full, policy, w, op.scan.passing, op.scan.cycle, keyOf);
      PassingGood(policy, w, op.scan.passing, op.scan.cycle, keyOf);
      ProcessAllBare(full, policy, settings, mode, ObservePassing(policy, w, op.scan.passing, op.scan.cycle),
                     Sorting.SortBy(op.scan.firing, Priority), op.scan.cycle, keyOf);
    } else {
      BareStep(full, policy, r.state, ActionOf(op), keyOf);
    }
  }

  lemma SameRefused(a: Rung, b: Rung)
    requires SameRung(false, a, b)
    ensures a.refused == b.refused
  {
  }

  lemma EmptyBare()
    ensures Bare(true, EmptyState()) && Bare(false, EmptyState())
  {
  }

  /**
   The rollout ladder: from an empty store, with the same cycles, rereads, degraded scans, verifier
   steps and callbacks, no cycle raises on any rung; every callback raises on the lowest rung, and
   on the upper two it raises on both or on neither. All rungs end with the same ledger, the same
   findings, cases and events up to handoff data, and the same reports up to handoff counters;
   the two upper rungs differ in issue links, their events and their counter alone. The lowest
   rung holds no handoff data at all, and only the highest one issue links.
   */
  lemma ModeLadder(policy: CasePolicy, settings: PostureSettings, ops: seq<LadderOp>, today: int, keyOf: KeyOf)
    requires var r := Rung(EmptyState(), Tally(today, 0, 0.0), [], false, []);
             && OpsOk(policy, settings, CaseOnly, r, ops, keyOf)
             && OpsOk(policy, settings, HandoffDry, r, ops, keyOf)
             && OpsOk(policy, settings, HandoffLive, r, ops, keyOf)
    ensures var r := Rung(EmptyState(), Tally(today, 0, 0.0), [], false, []);
            var (low, dry, live) := (ClimbAll(policy, settings, CaseOnly, r, ops), ClimbAll(policy, settings, HandoffDry, r, ops),
                                     ClimbAll(policy, settings, HandoffLive, r, ops));
            && !low.raised && !dry.raised && !live.raised
            && SameRung(true, low, dry) && SameRung(true, low, live) && SameRung(false, dry, live)
            && Bare(true, low.state) && Bare(false, dry.state)
            && AllTrue(low.refused) && dry.refused == live.refused
  {
    hide Good, Bare, ClimbAll, OpsOk, SameRung, EmptyState;
    var r := Rung(EmptyState(), Tally(today, 0, 0.0), [], false, []);
    EmptyGood(policy, keyOf);
    ClimbAllGood(policy, settings, CaseOnly, r, ops, keyOf);
    ClimbAllGood(policy, settings, HandoffDry, r, ops, keyOf);
    ClimbAllGood(policy, settings, HandoffLive, r, ops, keyOf);
    ClimbAllSame(true, policy, settings, CaseOnly, HandoffDry, r, ops, keyOf);
    ClimbAllSame(true, policy, settings, CaseOnly, HandoffLive, r, ops, keyOf);
    ClimbAllSame(false, policy, settings, HandoffDry, HandoffLive, r, ops, keyOf);
    SameRefused(ClimbAll(policy, settings, HandoffDry, r, ops), ClimbAll(policy, settings, HandoffLive, r, ops));
    EmptyBare();
    ClimbAllBare(true, policy, settings, CaseOnly, r, ops, keyOf);
    ClimbAllBare(false, policy, settings, HandoffDry, r, ops, keyOf);
  }

  /** What equal cores mean for a case: same control, pass counter, degraded flag, and same verdict. */
  lemma SameCoreMeans(full: bool, s: State, t: State, id: string)
    requires SameCore(full, s, t) && id in s.cases.m
    ensures id in t.cases.m
    ensures var (c, d) := (s.cases.m[id], t.cases.m[id]);
            && c.fingerprint == d.fingerprint && c.passCount == d.passCount && c.scanDegraded == d.scanDegraded
            && (c.status == Resolved <==> d.status == Resolved)
            && (!full ==> c.status == d.status && c.handoffIds == d.handoffIds)
  {
    CoreKeeps(full, s.cases.m[id], t.cases.m[id]);
    if !full { LinkKeeps(s.cases.m[id], t.cases.m[id]); }
    hide CoreCase, CoreEvents;
  }
}
