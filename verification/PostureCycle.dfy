/**
 One cycle of the posture loop as a function (app/posture/loop.py), and what it selects.
 Scan results, enrichment, issue creation, ids and clock readings are inputs.
 */
module PostureCycle {
  import opened Wrappers
  import opened Models
  import opened Policy
  import opened Lifecycle
  import opened Ledger
  import Sorting

  datatype Passing = Passing(finding: Finding, stamp: Stamp)

  /** A firing finding with what its processing would meet: the enriched finding, the url of the
      issue (empty when none is opened), the ids, and the days of the three ledger calls. */
  datatype Firing = Firing(
    raw: Finding, enriched: Finding, issueUrl: string, stamp: Stamp,
    countDay: int, costDay: int, recordDay: int, save: Save)

  datatype Scan = Scan(passing: seq<Passing>, firing: seq<Firing>, cycle: string, degraded: bool)

  /** Enrichment keeps check, identity, verdict and objective key. */
  ghost predicate WellFormed(x: Firing) {
    && !x.raw.passed && !x.enriched.passed
    && x.enriched.checkId == x.raw.checkId && x.enriched.fingerprint == x.raw.fingerprint
    && x.enriched.objectiveKey == x.raw.objectiveKey
  }

  datatype Report = Report(
    degraded: bool, firing: nat, positives: nat, casesOpened: nat, casesRefreshed: nat, handoffsBuilt: nat, issuesOpened: nat, deferred: nat,
    gatedOut: seq<(string, Reason)>)

  /** The store, the ledger, the report, the findings acted on so far, and whether a request raised. */
  datatype World = World(state: State, tally: Tally, report: Report, acted: seq<Firing>, raised: bool)

  function StartReport(scan: Scan): Report {
    Report(scan.degraded, |scan.firing|, 0, 0, 0, 0, 0, 0, [])
  }

  function ObservePassing(policy: CasePolicy, w: World, passing: seq<Passing>, cycle: string): World
    decreases |passing|
  {
    if passing == [] then w
    else
      var x := passing[0];
      ObservePassing(policy,
        w.(state := ObserveFinding(policy, w.state, x.finding, cycle, x.stamp).0,
           report := w.report.(positives := w.report.positives + 1)),
        passing[1..], cycle)
  }

  /** The handoff step of one acted-on finding. */
  function HandOff(w: World, x: Firing, caseId: string, post: bool): World {
    var r := RequestHandoff(w.state, caseId, x.enriched, 0, x.stamp);
    match r.result
    case Err(_) => w.(state := r.state, raised := true)
    case Ok(None) => w.(state := r.state)
    case Ok(Some(_)) =>
      var w1 := w.(state := r.state, report := w.report.(handoffsBuilt := w.report.handoffsBuilt + 1));
      if post && x.issueUrl != "" then
        w1.(state := RecordIssue(w1.state, caseId, x.issueUrl, "", x.stamp.now),
            report := w1.report.(issuesOpened := w1.report.issuesOpened + 1))
      else w1
  }

  /** A gated-in finding within the cycle's cap. */
  function ActOn(policy: CasePolicy, settings: PostureSettings, w: World, x: Firing, d: Decision, cycle: string): World {
    var (s1, seen) := ObserveFinding(policy, w.state, x.enriched, cycle, x.stamp);
    var w1 := World(s1, Recorded(Rolled(w.tally, x.recordDay), settings.costEach),
                    if seen.created then w.report.(casesOpened := w.report.casesOpened + 1)
                    else w.report.(casesRefreshed := w.report.casesRefreshed + 1),
                    w.acted + [x], false);
    if d.buildHandoff then HandOff(w1, x, seen.subject.caseId, d.postHandoff) else w1
  }

  /** One firing finding: gated out, deferred, or acted on. */
  function Process(policy: CasePolicy, settings: PostureSettings, mode: Mode, w: World, x: Firing, cycle: string): World {
    var (d, t1) := Gate(x.raw, mode, settings, w.tally, x.countDay, x.costDay);
    var w1 := w.(tally := t1);
    if !d.act then w1.(report := w.report.(gatedOut := w.report.gatedOut + [(x.raw.checkId, d.reason)]))
    else if |w.acted| >= settings.maxPerCycle then w1.(report := w.report.(deferred := w.report.deferred + 1))
    else ActOn(policy, settings, w1, x, d, cycle)
  }

  /** Processes findings in order until one raises. */
  function ProcessAll(policy: CasePolicy, settings: PostureSettings, mode: Mode, w: World, xs: seq<Firing>, cycle: string): World
    decreases |xs|
  {
    if xs == [] || w.raised then w
    else ProcessAll(policy, settings, mode, Process(policy, settings, mode, w, xs[0], cycle), xs[1..], cycle)
  }

  function Priority(x: Firing): real {
    -x.raw.score
  }

  /** A whole cycle; in shadow mode it writes nothing. */
  function Cycle(policy: CasePolicy, settings: PostureSettings, mode: Mode, s: State, t: Tally, scan: Scan): World {
    var w := World(s, t, StartReport(scan), [], false);
    if mode == Shadow then w
    else
      ProcessAll(policy, settings, mode, ObservePassing(policy, w, scan.passing, scan.cycle),
                 Sorting.SortBy(scan.firing, Priority), scan.cycle)
  }

  // --- every firing finding is accounted for ---

  function Handled(r: Report): nat {
    |r.gatedOut| + r.deferred + r.casesOpened + r.casesRefreshed
  }

  lemma ProcessCounts(policy: CasePolicy, settings: PostureSettings, mode: Mode, w: World, x: Firing, cycle: string)
    ensures Handled(Process(policy, settings, mode, w, x, cycle).report) == Handled(w.report) + 1
  {
    hide Gate, ObserveFinding, RequestHandoff, RecordIssue, Rolled, Recorded;
  }

  lemma {:induction false} ProcessAllCounts(policy: CasePolicy, settings: PostureSettings, mode: Mode, w: World, xs: seq<Firing>, cycle: string)
    ensures var r := ProcessAll(policy, settings, mode, w, xs, cycle);
            !r.raised ==> Handled(r.report) == Handled(w.report) + |xs|
    decreases |xs|
  {
    hide Process, Handled;
    if xs != [] && !w.raised {
      var w1 := Process(policy, settings, mode, w, xs[0], cycle);
      ProcessCounts(policy, settings, mode, w, xs[0], cycle);
      ProcessAllCounts(policy, settings, mode, w1, xs[1..], cycle);
    }
  }

  lemma {:induction false} PassingCounts(policy: CasePolicy, w: World, passing: seq<Passing>, cycle: string)
    ensures var r := ObservePassing(policy, w, passing, cycle);
            && Handled(r.report) == Handled(w.report) && r.tally == w.tally && r.acted == w.acted && r.raised == w.raised
            && r.report.positives == w.report.positives + |passing| && r.report.firing == w.report.firing
    decreases |passing|
  {
    hide ObserveFinding;
    if passing != [] {
      var x := passing[0];
      PassingCounts(policy,
        w.(state := ObserveFinding(policy, w.state, x.finding, cycle, x.stamp).0,
           report := w.report.(positives := w.report.positives + 1)),
        passing[1..], cycle);
    }
  }

  // --- greedy selection is top-k ---

  predicate Eligible(settings: PostureSettings, x: Firing) {
    SeverityRank(x.raw.severity) >= SeverityRank(settings.severityFloor)
  }

  function EligibleOf(settings: PostureSettings, xs: seq<Firing>): seq<Firing>
  {
    if xs == [] then []
    else (if Eligible(settings, xs[0]) then [xs[0]] else []) + EligibleOf(settings, xs[1..])
  }

  /** The ledger after `n` charges of one day. */
  function Charged(t: Tally, settings: PostureSettings, n: nat): Tally {
    if n == 0 then t else Recorded(Charged(t, settings, n - 1), settings.costEach)
  }

  /** One more finding is within the cycle cap, the daily count and the daily cost, after `n`. */
  predicate Affords(settings: PostureSettings, t: Tally, n: nat) {
    && n < settings.maxPerCycle
    && Remaining(Charged(t, settings, n), settings.maxPerDay) > 0
    && FitsCost(Charged(t, settings, n), settings.costEach, settings.maxCost)
  }

  /** The number acted on when `n` eligible findings compete: all of them, or up to the first one not afforded. */
  ghost predicate IsQuota(settings: PostureSettings, t: Tally, n: nat, k: nat) {
    && k <= n
    && (forall j: nat | j < k :: Affords(settings, t, j))
    && (k < n ==> !Affords(settings, t, k))
  }

  lemma {:induction false} ChargedDay(t: Tally, settings: PostureSettings, n: nat)
    ensures Charged(t, settings, n).day == t.day && Charged(t, settings, n).acted == t.acted + n
  {
    if n > 0 {
      ChargedDay(t, settings, n - 1);
    }
  }

  /** The quota is the least of the cycle cap, the remaining daily count, and what the cost budget affords. */
  lemma QuotaIsLeast(settings: PostureSettings, t: Tally, n: nat, k: nat)
    requires IsQuota(settings, t, n, k)
    ensures k > 0 ==> k <= settings.maxPerCycle && FitsCost(Charged(t, settings, k - 1), settings.costEach, settings.maxCost)
    ensures k <= Remaining(t, settings.maxPerDay)
    ensures k < n ==> (|| settings.maxPerCycle <= k
                       || k == Remaining(t, settings.maxPerDay)
                       || !FitsCost(Charged(t, settings, k), settings.costEach, settings.maxCost))
  {
    hide Charged, FitsCost;
    ChargedDay(t, settings, k);
    if k > 0 {
      ChargedDay(t, settings, k - 1);
      assert Affords(settings, t, k - 1);
    }
  }

  ghost predicate OnDay(xs: seq<Firing>, day: int) {
    forall i | 0 <= i < |xs| :: xs[i].countDay == day && xs[i].costDay == day && xs[i].recordDay == day
  }

  predicate AllFiring(xs: seq<Firing>) {
    forall i | 0 <= i < |xs| :: !xs[i].raw.passed
  }

  /** What a stretch of the cycle has come to: it acted on the first `|w.acted|` eligible findings,
      whose charges are in the ledger, seen from `day`. */
  ghost predicate OnTrack(settings: PostureSettings, t: Tally, day: int, seen: seq<Firing>, w: World) {
    && IsQuota(settings, t, |seen|, |w.acted|)
    && w.acted == seen[..|w.acted|]
    && Rolled(w.tally, day) == Charged(t, settings, |w.acted|)
  }

  /** Handing off touches neither the ledger nor the selection. */
  lemma HandOffKeeps(w: World, x: Firing, caseId: string, post: bool)
    ensures HandOff(w, x, caseId, post).tally == w.tally && HandOff(w, x, caseId, post).acted == w.acted
  {
    hide RequestHandoff, RecordIssue;
  }

  lemma ActOnKeeps(policy: CasePolicy, settings: PostureSettings, w: World, x: Firing, d: Decision, cycle: string)
    ensures var r := ActOn(policy, settings, w, x, d, cycle);
            r.tally == Recorded(Rolled(w.tally, x.recordDay), settings.costEach) && r.acted == w.acted + [x]
  {
    hide ObserveFinding, HandOff, Recorded, Rolled;
    var (s1, seen) := ObserveFinding(policy, w.state, x.enriched, cycle, x.stamp);
    var w1 := World(s1, Recorded(Rolled(w.tally, x.recordDay), settings.costEach),
                    if seen.created then w.report.(casesOpened := w.report.casesOpened + 1)
                    else w.report.(casesRefreshed := w.report.casesRefreshed + 1),
                    w.acted + [x], false);
    HandOffKeeps(w1, x, seen.subject.caseId, d.postHandoff);
  }

  /** Within one day the gate lets an eligible finding through exactly when the day has room for it,
      and leaves the ledger, rolled or not, with the day's counts. */
  lemma GateSelects(settings: PostureSettings, mode: Mode, x: Firing, t: Tally, day: int)
    requires mode != Shadow && !x.raw.passed && x.countDay == day && x.costDay == day
    ensures var (d, t1) := Gate(x.raw, mode, settings, t, x.countDay, x.costDay);
            && Rolled(t1, day) == Rolled(t, day)
            && (d.act <==> Eligible(settings, x) && Remaining(Rolled(t, day), settings.maxPerDay) > 0
                           && FitsCost(Rolled(t, day), settings.costEach, settings.maxCost))
  {
    hide SeverityRank;
  }

  /** One finding: acted on exactly when eligible and afforded. */
  lemma ProcessSelects(policy: CasePolicy, settings: PostureSettings, mode: Mode, w: World, x: Firing, cycle: string, t: Tally, day: int)
    requires mode != Shadow && !x.raw.passed && x.countDay == day && x.costDay == day && x.recordDay == day
    requires Rolled(w.tally, day) == Charged(t, settings, |w.acted|) && t.day == day
    ensures var r := Process(policy, settings, mode, w, x, cycle);
            if Eligible(settings, x) && Affords(settings, t, |w.acted|)
            then r.acted == w.acted + [x] && Rolled(r.tally, day) == Charged(t, settings, |w.acted| + 1)
            else r.acted == w.acted && Rolled(r.tally, day) == Rolled(w.tally, day)
  {
    hide ActOn, Gate, Eligible, FitsCost, Remaining;
    ChargedDay(t, settings, |w.acted|);
    GateSelects(settings, mode, x, w.tally, day);
    var (d, t1) := Gate(x.raw, mode, settings, w.tally, x.countDay, x.costDay);
    ActOnKeeps(policy, settings, w.(tally := t1), x, d, cycle);
  }

  lemma OnTrackStep(settings: PostureSettings, t: Tally, day: int, seen: seq<Firing>, w: World, x: Firing, r: World)
    requires OnTrack(settings, t, day, seen, w)
    requires if Affords(settings, t, |w.acted|)
             then r.acted == w.acted + [x] && Rolled(r.tally, day) == Charged(t, settings, |w.acted| + 1)
             else r.acted == w.acted && Rolled(r.tally, day) == Rolled(w.tally, day)
    ensures OnTrack(settings, t, day, seen + [x], r)
  {
    hide Affords, Charged, Rolled;
    if Affords(settings, t, |w.acted|) {
      assert |w.acted| == |seen|;
    }
  }

  lemma {:induction false} ProcessAllSelects(policy: CasePolicy, settings: PostureSettings, mode: Mode, w: World, xs: seq<Firing>, cycle: string,
                                             t: Tally, day: int, seen: seq<Firing>)
    requires mode != Shadow && OnDay(xs, day) && AllFiring(xs) && OnTrack(settings, t, day, seen, w) && t.day == day
    ensures var r := ProcessAll(policy, settings, mode, w, xs, cycle);
            !r.raised ==> OnTrack(settings, t, day, seen + EligibleOf(settings, xs), r)
    decreases |xs|
  {
    hide Process, OnTrack, Affords, Eligible, Charged, Rolled;
    if xs == [] || w.raised {
      assert seen + [] == seen;
    } else {
      var x := xs[0];
      var r := Process(policy, settings, mode, w, x, cycle);
      assert Rolled(w.tally, day) == Charged(t, settings, |w.acted|) by { OnTrackTally(settings, t, day, seen, w); }
      ProcessSelects(policy, settings, mode, w, x, cycle, t, day);
      if Eligible(settings, x) {
        OnTrackStep(settings, t, day, seen, w, x, r);
        ProcessAllSelects(policy, settings, mode, r, xs[1..], cycle, t, day, seen + [x]);
        assert seen + EligibleOf(settings, xs) == seen + [x] + EligibleOf(settings, xs[1..]);
      } else {
        SameTrack(settings, t, day, seen, w, r);
        ProcessAllSelects(policy, settings, mode, r, xs[1..], cycle, t, day, seen);
        assert EligibleOf(settings, xs) == EligibleOf(settings, xs[1..]);
      }
    }
  }

  lemma OnTrackTally(settings: PostureSettings, t: Tally, day: int, seen: seq<Firing>, w: World)
    requires OnTrack(settings, t, day, seen, w)
    ensures Rolled(w.tally, day) == Charged(t, settings, |w.acted|)
  {
  }

  lemma SameTrack(settings: PostureSettings, t: Tally, day: int, seen: seq<Firing>, w: World, r: World)
    requires OnTrack(settings, t, day, seen, w) && r.acted == w.acted && Rolled(r.tally, day) == Rolled(w.tally, day)
    ensures OnTrack(settings, t, day, seen, r)
  {
  }

  /**
   Greedy selection is top-k: a cycle that runs within one day and does not raise acts on exactly
   the first k eligible firing findings by descending score, equal scores in scan order, where k
   is the largest number that the cycle cap, the day's count and the day's cost afford one after
   the other; and gated-out, deferred, opened and refreshed findings add up to the firing ones.
   The ledger may come from any day: a new day starts from zero.
   */
  lemma CycleIsTopK(policy: CasePolicy, settings: PostureSettings, mode: Mode, s: State, t: Tally, scan: Scan, day: int)
    requires mode != Shadow && OnDay(scan.firing, day) && AllFiring(scan.firing)
    requires !Cycle(policy, settings, mode, s, t, scan).raised
    ensures var r := Cycle(policy, settings, mode, s, t, scan);
            var ranked := EligibleOf(settings, Sorting.SortBy(scan.firing, Priority));
            && IsQuota(settings, Rolled(t, day), |ranked|, |r.acted|)
            && r.acted == ranked[..|r.acted|]
            && Rolled(r.tally, day) == Charged(Rolled(t, day), settings, |r.acted|)
            && Handled(r.report) == r.report.firing == |scan.firing|
            && r.report.positives == |scan.passing|
  {
    hide Process, Affords, Eligible, Sorting.SortBy, ObservePassing, ProcessAll;
    var w0 := World(s, t, StartReport(scan), [], false);
    var w := ObservePassing(policy, w0, scan.passing, scan.cycle);
    PassingCounts(policy, w0, scan.passing, scan.cycle);
    var xs := Sorting.SortBy(scan.firing, Priority);
    Sorting.SortMeaning(scan.firing, Priority);
    SortedOnDay(scan.firing, xs, day);
    assert OnTrack(settings, Rolled(t, day), day, [], w);
    ProcessAllSelects(policy, settings, mode, w, xs, scan.cycle, Rolled(t, day), day, []);
    ProcessAllCounts(policy, settings, mode, w, xs, scan.cycle);
    PositivesKept(policy, settings, mode, w, xs, scan.cycle);
    assert |xs| == |multiset(xs)| == |multiset(scan.firing)| == |scan.firing|;
    assert [] + EligibleOf(settings, xs) == EligibleOf(settings, xs);
  }

  lemma {:induction false} PositivesKept(policy: CasePolicy, settings: PostureSettings, mode: Mode, w: World, xs: seq<Firing>, cycle: string)
    ensures ProcessAll(policy, settings, mode, w, xs, cycle).report.positives == w.report.positives
    ensures ProcessAll(policy, settings, mode, w, xs, cycle).report.firing == w.report.firing
    decreases |xs|
  {
    hide Gate, ObserveFinding, RequestHandoff, RecordIssue, Rolled, Recorded;
    if xs != [] && !w.raised {
      PositivesKept(policy, settings, mode, Process(policy, settings, mode, w, xs[0], cycle), xs[1..], cycle);
    }
  }

  lemma SortedOnDay(xs: seq<Firing>, ys: seq<Firing>, day: int)
    requires multiset(xs) == multiset(ys) && OnDay(xs, day) && AllFiring(xs)
    ensures OnDay(ys, day) && AllFiring(ys)
  {
    forall i | 0 <= i < |ys|
      ensures ys[i].countDay == day && ys[i].costDay == day && ys[i].recordDay == day && !ys[i].raw.passed
    {
      assert ys[i] in multiset(ys);
      assert ys[i] in multiset(xs);
    }
  }

  // --- a cycle's use of the ledger is a run of ledger operations ---

  /** What processing one finding does to the ledger. */
  function LedgerOpFor(settings: PostureSettings, w: World, x: Firing): LedgerOp {
    Consider(x.raw, x.countDay, x.costDay, x.recordDay, |w.acted| >= settings.maxPerCycle, x.save)
  }

  function LedgerOps(policy: CasePolicy, settings: PostureSettings, mode: Mode, w: World, xs: seq<Firing>, cycle: string): seq<LedgerOp>
    decreases |xs|
  {
    if xs == [] || w.raised then []
    else [LedgerOpFor(settings, w, xs[0])]
         + LedgerOps(policy, settings, mode, Process(policy, settings, mode, w, xs[0], cycle), xs[1..], cycle)
  }

  /** The ledger operations of a whole cycle. */
  function CycleLedgerOps(policy: CasePolicy, settings: PostureSettings, mode: Mode, s: State, t: Tally, scan: Scan): seq<LedgerOp> {
    if mode == Shadow then []
    else LedgerOps(policy, settings, mode, ObservePassing(policy, World(s, t, StartReport(scan), [], false), scan.passing, scan.cycle),
                   Sorting.SortBy(scan.firing, Priority), scan.cycle)
  }

  lemma ProcessTally(policy: CasePolicy, settings: PostureSettings, mode: Mode, w: World, x: Firing, cycle: string, b: Books)
    requires b.tally == w.tally
    ensures Process(policy, settings, mode, w, x, cycle).tally == Apply(settings, mode, b, LedgerOpFor(settings, w, x)).tally
    ensures |Process(policy, settings, mode, w, x, cycle).acted| - |w.acted|
         == |Apply(settings, mode, b, LedgerOpFor(settings, w, x)).charges| - |b.charges|
  {
    var (d, t1) := Gate(x.raw, mode, settings, w.tally, x.countDay, x.costDay);
    ActOnKeeps(policy, settings, w.(tally := t1), x, d, cycle);
    hide ActOn, Gate, Recorded, Rolled;
  }

  lemma {:induction false} ApplyAllPrepend(settings: PostureSettings, mode: Mode, b: Books, op: LedgerOp, ops: seq<LedgerOp>)
    ensures ApplyAll(settings, mode, b, [op] + ops) == ApplyAll(settings, mode, Apply(settings, mode, b, op), ops)
  {
    hide Apply;
    if ops == [] {
      assert [op] + ops == [op] && [op][..0] == [];
    } else {
      var n := |ops| - 1;
      assert ([op] + ops)[..n + 1] == [op] + ops[..n];
      ApplyAllPrepend(settings, mode, b, op, ops[..n]);
    }
  }

  /** So the budget theorem covers whole cycles: the ledger they leave is that of their operations, one charge per finding acted on. */
  lemma {:induction false} CycleLedger(policy: CasePolicy, settings: PostureSettings, mode: Mode, w: World, xs: seq<Firing>, cycle: string, b: Books)
    requires b.tally == w.tally
    ensures ProcessAll(policy, settings, mode, w, xs, cycle).tally
         == ApplyAll(settings, mode, b, LedgerOps(policy, settings, mode, w, xs, cycle)).tally
    ensures |ProcessAll(policy, settings, mode, w, xs, cycle).acted| - |w.acted|
         == |ApplyAll(settings, mode, b, LedgerOps(policy, settings, mode, w, xs, cycle)).charges| - |b.charges|
    decreases |xs|
  {
    hide Process, Apply, LedgerOpFor;
    if xs != [] && !w.raised {
      var x := xs[0];
      var w1 := Process(policy, settings, mode, w, x, cycle);
      var op := LedgerOpFor(settings, w, x);
      ProcessTally(policy, settings, mode, w, x, cycle, b);
      CycleLedger(policy, settings, mode, w1, xs[1..], cycle, Apply(settings, mode, b, op));
      ApplyAllPrepend(settings, mode, b, op, LedgerOps(policy, settings, mode, w1, xs[1..], cycle));
    }
  }
}
