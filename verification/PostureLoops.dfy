/** The posture loop (app/posture/loop.py) and the verification loop (app/posture/verification.py), proved against their functions. */
module PostureLoops {
  import opened Wrappers
  import opened Models
  import opened Policy
  import opened Lifecycle
  import opened Ledger
  import opened CaseStore
  import opened CaseService
  import opened WriteLog
  import Cycles = PostureCycle
  import Verification = VerificationLoop
  import Sorting
  import Verifier

  class PostureLoop {
    const settings: PostureSettings
    const mode: Mode
    const service: SecurityCaseService
    const ledger: DailyLedger

    constructor (settings: PostureSettings, mode: Mode, service: SecurityCaseService, ledger: DailyLedger)
      ensures this.settings == settings && this.mode == mode && this.service == service && this.ledger == ledger
    {
      this.settings, this.mode, this.service, this.ledger := settings, mode, service, ledger;
    }

    /** The loop's state as the cycle functions see it. */
    ghost function Now(report: Cycles.Report, acted: seq<Cycles.Firing>, raised: bool): Cycles.World
      reads service.store, ledger
    {
      Cycles.World(service.store.View(), ledger.View(), report, acted, raised)
    }

    /** One cycle; a handoff request that raises ends it. */
    method RunOnce(scan: Cycles.Scan) returns (report: Cycles.Report, raised: bool)
      requires service.store.Valid()
      modifies service.store, ledger
      ensures service.store.Valid()
      ensures var w := Cycles.Cycle(service.policy, settings, mode, old(service.store.View()), old(ledger.View()), scan);
              Now(report, w.acted, raised) == w
      ensures ledger.persistent ==>
                ledger.file == ApplyAll(settings, mode, Books(old(ledger.View()), old(ledger.file), []),
                                        Cycles.CycleLedgerOps(service.policy, settings, mode, old(service.store.View()), old(ledger.View()), scan)).file
    {
      hide InMemoryStore.Valid, InMemoryStore.View, DailyLedger.View, Sorting.SortBy, Cycles.Process, Lifecycle.ObserveFinding,
           Apply, ApplyAll, Cycles.LedgerOpFor, ObserveWrites;
      report, raised := Cycles.StartReport(scan), false;
      ghost var b0 := Books(ledger.View(), ledger.file, []);
      if mode == Shadow {
        NothingApplied(settings, mode, b0);
        return;
      }
      ghost var start := Now(report, [], false);
      for i := 0 to |scan.passing|
        invariant service.store.Valid()
        invariant ledger.View() == b0.tally && ledger.file == b0.file
        invariant Cycles.ObservePassing(service.policy, Now(report, [], false), scan.passing[i..], scan.cycle)
               == Cycles.ObservePassing(service.policy, start, scan.passing, scan.cycle)
      {
        var x := scan.passing[i];
        assert scan.passing[i..][1..] == scan.passing[i + 1..];
        var _ := service.ObserveFinding(x.finding, scan.cycle, x.stamp);
        report := report.(positives := report.positives + 1);
      }
      var xs := Sorting.SortBy(scan.firing, Cycles.Priority);
      var acted := 0;
      ghost var done: seq<Cycles.Firing> := [];
      ghost var w0, books := Now(report, done, false), b0;
      for i := 0 to |xs|
        invariant service.store.Valid() && |done| == acted
        invariant Cycles.ProcessAll(service.policy, settings, mode, Now(report, done, false), xs[i..], scan.cycle)
               == Cycles.ProcessAll(service.policy, settings, mode, w0, xs, scan.cycle)
        invariant ledger.View() == books.tally && (ledger.persistent ==> ledger.file == books.file)
        invariant ApplyAll(settings, mode, books, Cycles.LedgerOps(service.policy, settings, mode, Now(report, done, false), xs[i..], scan.cycle))
               == ApplyAll(settings, mode, b0, Cycles.LedgerOps(service.policy, settings, mode, w0, xs, scan.cycle))
      {
        assert xs[i..][1..] == xs[i + 1..];
        ghost var w := Now(report, done, false);
        report, acted, raised := Handle(xs[i], scan.cycle, report, acted, done);
        done := Cycles.Process(service.policy, settings, mode, w, xs[i], scan.cycle).acted;
        Cycles.ApplyAllPrepend(settings, mode, books, Cycles.LedgerOpFor(settings, w, xs[i]),
                               Cycles.LedgerOps(service.policy, settings, mode, Now(report, done, raised), xs[i + 1..], scan.cycle));
        books := Apply(settings, mode, books, Cycles.LedgerOpFor(settings, w, xs[i]));
        if raised {
          NothingApplied(settings, mode, books);
          return;
        }
      }
      NothingApplied(settings, mode, books);
    }

    static lemma NothingApplied(settings: PostureSettings, mode: Mode, b: Books)
      ensures ApplyAll(settings, mode, b, []) == b
    {
    }

    /** One firing finding; `acted` counts the findings in `done`. */
    method Handle(x: Cycles.Firing, cycle: string, before: Cycles.Report, actedBefore: nat, ghost done: seq<Cycles.Firing>)
      returns (report: Cycles.Report, acted: nat, raised: bool)
      requires service.store.Valid() && actedBefore == |done|
      modifies service.store, ledger
      ensures service.store.Valid()
      ensures var w := Cycles.Process(service.policy, settings, mode, old(Now(before, done, false)), x, cycle);
              Now(report, w.acted, raised) == w && acted == |w.acted|
      ensures forall b: Books | b.tally == old(ledger.View()) && (ledger.persistent ==> b.file == old(ledger.file)) ::
                var b1 := Apply(settings, mode, b, Cycles.LedgerOpFor(settings, old(Now(before, done, false)), x));
                b1.tally == ledger.View() && (ledger.persistent ==> b1.file == ledger.file)
    {
      hide InMemoryStore.Valid, InMemoryStore.View, DailyLedger.View, Gate, Recorded, Rolled, Lifecycle.ObserveFinding, Cycles.HandOff,
           ObserveWrites;
      report, acted, raised := before, actedBefore, false;
      var d := EvaluateGate(x.raw, mode, settings, ledger, x.countDay, x.costDay);
      if !d.act {
        report := report.(gatedOut := report.gatedOut + [(x.raw.checkId, d.reason)]);
        return;
      }
      if acted >= settings.maxPerCycle {
        report := report.(deferred := report.deferred + 1);
        return;
      }
      var seen := service.ObserveFinding(x.enriched, cycle, x.stamp);
      ledger.RecordFinding(settings.costEach, x.recordDay, x.save);
      acted := acted + 1;
      if seen.created {
        report := report.(casesOpened := report.casesOpened + 1);
      } else {
        report := report.(casesRefreshed := report.casesRefreshed + 1);
      }
      if d.buildHandoff {
        report, raised := HandOff(x, seen.subject.caseId, d.postHandoff, report, done + [x]);
      }
    }

    /** The handoff step of a finding acted on. */
    method HandOff(x: Cycles.Firing, caseId: string, post: bool, before: Cycles.Report, ghost done: seq<Cycles.Firing>)
      returns (report: Cycles.Report, raised: bool)
      requires service.store.Valid()
      modifies service.store
      ensures service.store.Valid()
      ensures Now(report, done, raised) == Cycles.HandOff(old(Now(before, done, false)), x, caseId, post)
    {
      hide InMemoryStore.Valid, InMemoryStore.View, DailyLedger.View, Lifecycle.RequestHandoff, Lifecycle.RecordIssue,
           RequestWrites, IssueWrites;
      report, raised := before, false;
      var bundle := service.RequestHandoff(caseId, x.enriched, 0, x.stamp);
      if bundle.Err? {
        raised := true;
        return;
      }
      if bundle.value.Some? {
        report := report.(handoffsBuilt := report.handoffsBuilt + 1);
        if post && x.issueUrl != "" {
          var _ := service.RecordIssue(caseId, x.issueUrl, "", x.stamp.now);
          report := report.(issuesOpened := report.issuesOpened + 1);
        }
      }
    }
  }

  class PostureVerificationLoop {
    const service: SecurityCaseService
    const verifier: Verifier.SecurityVerifier

    /** Both work on one store. */
    constructor (service: SecurityCaseService, verifier: Verifier.SecurityVerifier)
      ensures this.service == service && this.verifier == verifier
    {
      this.service, this.verifier := service, verifier;
    }

    ghost function Now(report: Verification.Report): Verification.Swept
      reads service.store
    {
      Verification.Swept(service.store.View(), report)
    }

    method RunOnce(readings: string -> Verification.Reading, cycle: string) returns (report: Verification.Report)
      requires service.store.Valid() && verifier.store == service.store
      modifies service.store
      ensures service.store.Valid()
      ensures Now(report) == Verification.Sweep(service.policy, verifier.settings, old(service.store.View()), readings, cycle)
    {
      hide InMemoryStore.Valid, InMemoryStore.View, Verification.VerifyOne, ListCases;
      report := Verification.EmptyReport;
      var cases := service.store.ListCases(None);
      for i := 0 to |cases|
        invariant service.store.Valid()
        invariant Verification.VerifyEach(service.policy, verifier.settings, Now(report), cases[i..], readings, cycle)
               == Verification.Sweep(service.policy, verifier.settings, old(service.store.View()), readings, cycle)
      {
        assert cases[i..][1..] == cases[i + 1..];
        if Verification.Verifiable(cases[i].status) {
          report := VerifyCase(cases[i], readings(cases[i].caseId), cycle, report);
        }
      }
    }

    /** Right after a callback, rather than at the next sweep. */
    method VerifyCaseNow(caseId: string, r: Verification.Reading, cycle: string) returns (report: Verification.Report)
      requires service.store.Valid() && verifier.store == service.store
      modifies service.store
      ensures service.store.Valid()
      ensures Now(report) == Verification.VerifyNow(service.policy, verifier.settings, old(service.store.View()), caseId, r, cycle)
    {
      hide InMemoryStore.Valid, InMemoryStore.View, Verification.VerifyOne;
      report := Verification.EmptyReport;
      var found := service.store.GetCase(caseId);
      if found.Some? && Verification.Verifiable(found.value.status) {
        report := VerifyCase(found.value, r, cycle, report);
      }
    }

    method VerifyCase(c: SecurityCase, r: Verification.Reading, cycle: string, before: Verification.Report)
      returns (report: Verification.Report)
      requires service.store.Valid() && verifier.store == service.store
      modifies service.store
      ensures service.store.Valid()
      ensures Now(report) == Verification.VerifyOne(service.policy, verifier.settings, old(Now(before)), c, r, cycle)
    {
      hide InMemoryStore.Valid, InMemoryStore.View, Lifecycle.ObserveFinding, Lifecycle.NoteScanDegraded, Lifecycle.VerifyCase,
           ObserveWrites, DegradedWrites, VerifyWrites;
      report := before.(checked := before.checked + 1);
      if c.resourceId == "" {
        report := report.(skipped := report.skipped + [c.caseId]);
        return;
      }
      var found := Verification.FirstMatch(r.findings, c.fingerprint);
      if r.degraded || found.None? {
        service.NoteScanDegraded(c.caseId, cycle, r.stamp.now);
        report := report.(degraded := report.degraded + [c.caseId]);
        return;
      }
      var _ := service.ObserveFinding(found.value, cycle, r.stamp);
      var result := verifier.VerifyCase(c.caseId, Verification.REASON, r.stamp.now);
      if result.Some? && result.value.resolved {
        report := report.(resolved := report.resolved + [c.caseId]);
      } else if !found.value.passed {
        report := report.(stillFailing := report.stillFailing + [c.caseId]);
      }
    }
  }
}
