/**
 Degraded scans and the all-clear. The verification loop refuses degraded reads; the posture
 loop folds passing findings whether or not its scan was degraded. What that means for the
 counter, for a resolution, and for the promise that a resolution rests on healthy scans.
 */
module ScanHealth {
  import opened Wrappers
  import opened Models
  import opened Policy
  import opened Lifecycle
  import opened Runs
  import opened Invariants
  import opened Preservation
  import opened CaseMoves
  import opened AllClear
  import opened LadderRuns
  import Ledger
  import PostureCycle
  import Sorting

  // --- the counter along a run without verifier steps ---

  /** The counter of a control after some operations: a pass counts up, a failure resets. */
  function CountFrom(start: nat, actions: seq<Action>, fingerprint: string): nat {
    if actions == [] then start
    else
      var before := CountFrom(start, actions[..|actions| - 1], fingerprint);
      var a := actions[|actions| - 1];
      if FailsControl(a, fingerprint) then 0 else if PassesControl(a, fingerprint) then before + 1 else before
  }

  lemma {:induction false} CountFromAppend(start: nat, a: seq<Action>, b: seq<Action>, fingerprint: string)
    ensures CountFrom(start, a + b, fingerprint) == CountFrom(CountFrom(start, a, fingerprint), b, fingerprint)
  {
    if b == [] {
      assert a + b == a;
    } else {
      var n := |b| - 1;
      assert (a + b)[..|a| + n] == a + b[..n];
      CountFromAppend(start, a, b[..n], fingerprint);
    }
  }

  lemma MoveCounts(s: State, c: SecurityCase, a: Action)
    requires Active(c.status) && !a.op.Verify?
    ensures var d := MovedBy(s, c, a);
            && d.passCount == CountFrom(c.passCount, [a], c.fingerprint)
            && d.fingerprint == c.fingerprint && d.caseId == c.caseId && d.status != Resolved
  {
    assert [a][..0] == [];
    StatusMoves(s, c, a);
    if a.op.Deliver? {
      UpdateNeverResolves(c.status, a);
    }
    if a.op.Observe? || a.op.NoteDegraded? {
      hide Accepted, StoresHandoff;
    } else {
      MoveKeepsMemory(s, c, a);
      hide MovedBy, Accepted, StoresHandoff;
    }
  }

  lemma {:induction false} CountAlong(policy: CasePolicy, s: State, actions: seq<Action>, id: string)
    requires Inv(policy, s) && AdmissibleFrom(policy, s, actions)
    requires id in s.cases.m && s.cases.m[id].status != Resolved
    requires forall a | a in actions :: !a.op.Verify?
    ensures var (c, t) := (s.cases.m[id], RunFrom(policy, s, actions));
            && id in t.cases.m && t.cases.m[id].status != Resolved && t.cases.m[id].fingerprint == c.fingerprint
            && t.cases.m[id].passCount == CountFrom(c.passCount, actions, c.fingerprint)
  {
    hide Step, Admissible, Inv, MovedBy, CaseSane;
    if actions != [] {
      var before, a := actions[..|actions| - 1], actions[|actions| - 1];
      assert forall b | b in before :: b in actions;
      CountAlong(policy, s, before, id);
      RunKeepsInv(policy, s, before);
      var t := RunFrom(policy, s, before);
      InvKeyed(policy, t);
      StepMoves(policy, t, a, id);
      StoredCase(policy, t, id);
      GateMeaning(policy, policy, t.cases.m[id]);
      MoveCounts(t, t.cases.m[id], a);
      assert actions == before + [a];
      CountFromAppend(s.cases.m[id].passCount, before, [a], s.cases.m[id].fingerprint);
    }
  }

  // --- what a posture cycle does to a counter ---

  /** How many passing findings of a control a scan holds. */
  function PassesOf(passing: seq<PostureCycle.Passing>, fingerprint: string): nat {
    if passing == [] then 0
    else PassesOf(passing[..|passing| - 1], fingerprint) + if passing[|passing| - 1].finding.fingerprint == fingerprint then 1 else 0
  }

  ghost predicate AllPassed(passing: seq<PostureCycle.Passing>) {
    forall i | 0 <= i < |passing| :: passing[i].finding.passed
  }

  ghost predicate AllWellFormed(xs: seq<PostureCycle.Firing>) {
    forall i | 0 <= i < |xs| :: PostureCycle.WellFormed(xs[i])
  }

  lemma {:induction false} PassingCount(start: nat, passing: seq<PostureCycle.Passing>, cycle: string, healthy: bool, fingerprint: string)
    requires AllPassed(passing)
    ensures CountFrom(start, PassingActions(passing, cycle, healthy), fingerprint) == start + PassesOf(passing, fingerprint)
  {
    if passing != [] {
      var n := |passing| - 1;
      PassingCount(start, passing[..n], cycle, healthy, fingerprint);
      assert PassingActions(passing, cycle, healthy)[..n] == PassingActions(passing[..n], cycle, healthy);
    }
  }

  /** Some finding acted on is about the control. */
  ghost predicate Concerned(acted: seq<PostureCycle.Firing>, fingerprint: string) {
    exists i | 0 <= i < |acted| :: acted[i].enriched.fingerprint == fingerprint
  }

  lemma ConcernedAppend(a: seq<PostureCycle.Firing>, b: seq<PostureCycle.Firing>, fingerprint: string)
    ensures Concerned(a + b, fingerprint) <==> Concerned(a, fingerprint) || Concerned(b, fingerprint)
  {
    var all := a + b;
    if i :| 0 <= i < |all| && all[i].enriched.fingerprint == fingerprint {
      if i < |a| { assert a[i] == all[i]; } else { assert b[i - |a|] == all[i]; }
    }
    if i :| 0 <= i < |a| && a[i].enriched.fingerprint == fingerprint { assert all[i] == a[i]; }
    if i :| 0 <= i < |b| && b[i].enriched.fingerprint == fingerprint { assert all[|a| + i] == b[i]; }
  }

  lemma ConcernedOne(x: PostureCycle.Firing, fingerprint: string)
    ensures Concerned([x], fingerprint) <==> x.enriched.fingerprint == fingerprint
  {
    assert [x][0] == x;
  }

  lemma ProcessCount(policy: CasePolicy, settings: Ledger.PostureSettings, mode: Ledger.Mode, w: PostureCycle.World, x: PostureCycle.Firing,
                     cycle: string, healthy: bool, start: nat, fingerprint: string)
    requires PostureCycle.WellFormed(x)
    ensures var (r, n) := (PostureCycle.Process(policy, settings, mode, w, x, cycle), CountFrom(start, ActionsFor(policy, settings, mode, w, x, cycle, healthy), fingerprint));
            || (r.acted == w.acted && n == start)
            || (r.acted == w.acted + [x] && n == if x.enriched.fingerprint == fingerprint then 0 else start)
  {
    hide Ledger.Gate, Issues, SubjectId, PostureCycle.ActOn, CountFrom;
    var (d, t1) := Ledger.Gate(x.raw, mode, settings, w.tally, x.countDay, x.costDay);
    PostureCycle.ActOnKeeps(policy, settings, w.(tally := t1), x, d, cycle);
    var id := SubjectId(policy, w.state, x, cycle);
    var (observe, ask, note) := (Action(Observe(x.enriched, cycle, healthy), x.stamp), Action(AskHandoff(id, x.enriched, 0), x.stamp),
                                 Action(NoteIssue(id, x.issueUrl, ""), x.stamp));
    CountUpToThree(start, observe, ask, note, fingerprint);
    assert [observe] + [] == [observe] && [ask] + [] == [ask];
  }

  lemma CountUpToThree(start: nat, a: Action, b: Action, c: Action, fingerprint: string)
    requires a.op.Observe? && !a.op.finding.passed && b.op.AskHandoff? && c.op.NoteIssue?
    ensures var n := if a.op.finding.fingerprint == fingerprint then 0 else start;
            && CountFrom(start, [], fingerprint) == start
            && CountFrom(start, [a], fingerprint) == n
            && CountFrom(start, [a] + [b], fingerprint) == n
            && CountFrom(start, [a] + ([b] + [c]), fingerprint) == n
  {
    assert [a][..0] == [] && ([a] + [b])[..1] == [a] && ([a] + ([b] + [c]))[..2] == [a] + [b];
  }

  lemma {:induction false} FiringCount(policy: CasePolicy, settings: Ledger.PostureSettings, mode: Ledger.Mode, w: PostureCycle.World,
                                       xs: seq<PostureCycle.Firing>, cycle: string, healthy: bool, start: nat, fingerprint: string)
    requires AllWellFormed(xs)
    ensures var r := PostureCycle.ProcessAll(policy, settings, mode, w, xs, cycle);
            && w.acted <= r.acted
            && CountFrom(start, FiringActions(policy, settings, mode, w, xs, cycle, healthy), fingerprint)
            == if Concerned(r.acted[|w.acted|..], fingerprint) then 0 else start
    decreases |xs|
  {
    hide PostureCycle.Process, ActionsFor, PostureCycle.WellFormed, Concerned;
    if xs == [] || w.raised {
      NothingConcerned(fingerprint);
      assert w.acted[|w.acted|..] == [];
    } else {
      var w1 := PostureCycle.Process(policy, settings, mode, w, xs[0], cycle);
      var mid := CountFrom(start, ActionsFor(policy, settings, mode, w, xs[0], cycle, healthy), fingerprint);
      ProcessCount(policy, settings, mode, w, xs[0], cycle, healthy, start, fingerprint);
      FiringCount(policy, settings, mode, w1, xs[1..], cycle, healthy, mid, fingerprint);
      CountFromAppend(start, ActionsFor(policy, settings, mode, w, xs[0], cycle, healthy),
                      FiringActions(policy, settings, mode, w1, xs[1..], cycle, healthy), fingerprint);
      var r := PostureCycle.ProcessAll(policy, settings, mode, w1, xs[1..], cycle);
      if w1.acted != w.acted {
        assert r.acted[|w.acted|..] == [xs[0]] + r.acted[|w1.acted|..];
        ConcernedAppend([xs[0]], r.acted[|w1.acted|..], fingerprint);
        ConcernedOne(xs[0], fingerprint);
      }
    }
  }

  lemma NothingConcerned(fingerprint: string)
    ensures !Concerned([], fingerprint)
  {
  }

  lemma SortedWellFormed(xs: seq<PostureCycle.Firing>)
    requires AllWellFormed(xs)
    ensures AllWellFormed(Sorting.SortBy(xs, PostureCycle.Priority))
  {
    hide PostureCycle.WellFormed, Sorting.SortBy;
    var ys := Sorting.SortBy(xs, PostureCycle.Priority);
    Sorting.SortMeaning(xs, PostureCycle.Priority);
    forall i | 0 <= i < |ys| ensures PostureCycle.WellFormed(ys[i]) {
      assert ys[i] in multiset(ys);
      assert ys[i] in multiset(xs);
    }
  }

  /**
   What a cycle makes of the counter of an unresolved case, degraded scan or not: zero if it
   acted on a finding of its control, otherwise one more for every passing finding of it.
   */
  lemma CycleCounts(policy: CasePolicy, settings: Ledger.PostureSettings, mode: Ledger.Mode, s: State, t: Ledger.Tally, scan: PostureCycle.Scan, id: string)
    requires mode != Ledger.Shadow && Inv(policy, s) && AdmissibleFrom(policy, s, CycleActions(policy, settings, mode, s, t, scan))
    requires AllPassed(scan.passing) && AllWellFormed(scan.firing)
    requires id in s.cases.m && s.cases.m[id].status != Resolved
    ensures var (c, w) := (s.cases.m[id], PostureCycle.Cycle(policy, settings, mode, s, t, scan));
            && id in w.state.cases.m && w.state.cases.m[id].status != Resolved && w.state.cases.m[id].fingerprint == c.fingerprint
            && w.state.cases.m[id].passCount
            == if Concerned(w.acted, c.fingerprint) then 0 else c.passCount + PassesOf(scan.passing, c.fingerprint)
  {
    hide Inv, RunFrom, AdmissibleFrom, PostureCycle.ProcessAll, PostureCycle.ObservePassing, FiringActions, PassingActions, Sorting.SortBy,
         AllWellFormed, AllPassed, CountFrom, Concerned;
    CycleIsARun(policy, settings, mode, s, t, scan);
    CountAlong(policy, s, CycleActions(policy, settings, mode, s, t, scan), id);
    var (c, w0) := (s.cases.m[id], PostureCycle.World(s, t, PostureCycle.StartReport(scan), [], false));
    var w1 := PostureCycle.ObservePassing(policy, w0, scan.passing, scan.cycle);
    var xs := Sorting.SortBy(scan.firing, PostureCycle.Priority);
    PostureCycle.PassingCounts(policy, w0, scan.passing, scan.cycle);
    SortedWellFormed(scan.firing);
    PassingCount(c.passCount, scan.passing, scan.cycle, !scan.degraded, c.fingerprint);
    FiringCount(policy, settings, mode, w1, xs, scan.cycle, !scan.degraded, c.passCount + PassesOf(scan.passing, c.fingerprint), c.fingerprint);
    CountFromAppend(c.passCount, PassingActions(scan.passing, scan.cycle, !scan.degraded),
                    FiringActions(policy, settings, mode, w1, xs, scan.cycle, !scan.degraded), c.fingerprint);
    var r := PostureCycle.ProcessAll(policy, settings, mode, w1, xs, scan.cycle);
    assert r.acted[0..] == r.acted;
  }

  /** So a cycle that acts on nothing of a control brings its case closer to resolution if and only if its scan holds a passing finding of it, degraded or not. */
  lemma CycleHelpsIff(policy: CasePolicy, settings: Ledger.PostureSettings, mode: Ledger.Mode, s: State, t: Ledger.Tally, scan: PostureCycle.Scan, id: string)
    requires mode != Ledger.Shadow && Inv(policy, s) && AdmissibleFrom(policy, s, CycleActions(policy, settings, mode, s, t, scan))
    requires AllPassed(scan.passing) && AllWellFormed(scan.firing)
    requires id in s.cases.m && s.cases.m[id].status != Resolved
    requires !Concerned(PostureCycle.Cycle(policy, settings, mode, s, t, scan).acted, s.cases.m[id].fingerprint)
    ensures var (c, u) := (s.cases.m[id], PostureCycle.Cycle(policy, settings, mode, s, t, scan).state);
            && id in u.cases.m
            && (u.cases.m[id].passCount > c.passCount
                <==> exists i | 0 <= i < |scan.passing| :: scan.passing[i].finding.fingerprint == c.fingerprint)
  {
    hide Inv, AdmissibleFrom, PostureCycle.Cycle, CycleActions, AllWellFormed, Concerned, PassesOf;
    CycleCounts(policy, settings, mode, s, t, scan, id);
    SomePassIff(scan.passing, s.cases.m[id].fingerprint);
  }

  lemma {:induction false} SomePassIff(passing: seq<PostureCycle.Passing>, fingerprint: string)
    ensures PassesOf(passing, fingerprint) > 0 <==> exists i | 0 <= i < |passing| :: passing[i].finding.fingerprint == fingerprint
  {
    if passing != [] {
      var n := |passing| - 1;
      SomePassIff(passing[..n], fingerprint);
      if i :| 0 <= i < |passing| && passing[i].finding.fingerprint == fingerprint {
        assert i < n ==> passing[..n][i] == passing[i];
      }
      if i :| 0 <= i < n && passing[..n][i].finding.fingerprint == fingerprint {
        assert passing[i] == passing[..n][i];
      }
    }
  }

  // --- how much of a streak came from healthy scans ---

  /** Passing observations of a control since its last failing one, from scans of the given health. */
  function Passed(actions: seq<Action>, fingerprint: string, healthy: bool): nat {
    if actions == [] then 0
    else
      var before := Passed(actions[..|actions| - 1], fingerprint, healthy);
      match actions[|actions| - 1].op
      case Observe(f, _, h) =>
        if f.fingerprint != fingerprint then before
        else if !f.passed then 0
        else before + if h == healthy then 1 else 0
      case _ => before
  }

  lemma {:induction false} StreakSplits(actions: seq<Action>, fingerprint: string)
    ensures CleanStreak(actions, fingerprint) == Passed(actions, fingerprint, true) + Passed(actions, fingerprint, false)
  {
    if actions != [] {
      StreakSplits(actions[..|actions| - 1], fingerprint);
    }
  }

  /** No pass of the control among these operations comes from a degraded scan. */
  predicate HealthyOnly(actions: seq<Action>, fingerprint: string) {
    forall i | 0 <= i < |actions| :: PassesControl(actions[i], fingerprint) ==> actions[i].op.healthy
  }

  /** Case `id` becomes resolved at `a`. */
  ghost predicate ResolvesAt(policy: CasePolicy, actions: seq<Action>, a: Action, id: string) {
    && AdmissibleRun(policy, actions) && Admissible(Run(policy, actions), a)
    && id in Run(policy, actions).cases.m && Run(policy, actions).cases.m[id].status != Resolved
    && id in Run(policy, actions + [a]).cases.m && Run(policy, actions + [a]).cases.m[id].status == Resolved
  }

  /** However the run goes on without folding degraded passes of the control, the resolution that
      ends it rests on the required number of passes from healthy scans. */
  ghost predicate RestsOnHealthy(policy: CasePolicy, actions: seq<Action>, id: string, fingerprint: string) {
    forall more, a | HealthyOnly(more, fingerprint) && ResolvesAt(policy, actions + more, a, id) ::
      Passed(actions + more, fingerprint, true) >= policy.defaultRequired
  }

  /** How many more passes a resolution needs at the least. */
  function Owed(policy: CasePolicy, actions: seq<Action>, fingerprint: string, id: string): nat {
    if CleanStreak(actions, fingerprint) < policy.defaultRequired then policy.defaultRequired - CleanStreak(actions, fingerprint)
    else if LastSignal(actions, fingerprint, id) == Signal.Passed then 0
    else 1
  }

  /** Nothing of the streak is degraded, or what is healthy of it and still owed is enough. */
  ghost predicate HealthyEnough(policy: CasePolicy, actions: seq<Action>, fingerprint: string, id: string) {
    || Passed(actions, fingerprint, false) == 0
    || Passed(actions, fingerprint, true) + Owed(policy, actions, fingerprint, id) >= policy.defaultRequired
  }

  // --- healthy continuations ---

  lemma PassedSnoc(actions: seq<Action>, a: Action, fingerprint: string, healthy: bool)
    ensures Passed(actions + [a], fingerprint, healthy)
         == if FailsControl(a, fingerprint) then 0
            else Passed(actions, fingerprint, healthy) + if PassesControl(a, fingerprint) && a.op.healthy == healthy then 1 else 0
  {
    assert (actions + [a])[..|actions|] == actions;
  }

  /** Either the streak began anew within the continuation, and is healthy throughout; or it grew
      by healthy passes alone, at least one if the last signal became a pass. */
  lemma {:induction false} HealthyContinuation(actions: seq<Action>, more: seq<Action>, fingerprint: string, id: string)
    requires HealthyOnly(more, fingerprint)
    ensures var (all, d) := (actions + more, Passed(actions, fingerprint, false));
            || Passed(all, fingerprint, false) == 0
            || (&& Passed(all, fingerprint, false) == d
                && Passed(all, fingerprint, true) >= Passed(actions, fingerprint, true)
                && (LastSignal(all, fingerprint, id) == Signal.Passed && LastSignal(actions, fingerprint, id) != Signal.Passed
                    ==> Passed(all, fingerprint, true) > Passed(actions, fingerprint, true)))
  {
    hide Passed, LastSignal;
    if more == [] {
      assert actions + more == actions;
    } else {
      var front, a := more[..|more| - 1], more[|more| - 1];
      assert actions + more == actions + front + [a];
      HealthyContinuation(actions, front, fingerprint, id);
      PassedSnoc(actions + front, a, fingerprint, true);
      PassedSnoc(actions + front, a, fingerprint, false);
      HistoryStep(actions + front, a, fingerprint, id);
      assert PassesControl(more[|more| - 1], fingerprint) ==> more[|more| - 1].op.healthy;
    }
  }

  lemma EnoughRests(policy: CasePolicy, actions: seq<Action>, more: seq<Action>, a: Action, id: string, fingerprint: string)
    requires HealthyEnough(policy, actions, fingerprint, id) && HealthyOnly(more, fingerprint)
    requires ResolvesAt(policy, actions + more, a, id) && Run(policy, actions + more).cases.m[id].fingerprint == fingerprint
    ensures Passed(actions + more, fingerprint, true) >= policy.defaultRequired
  {
    hide Run, AdmissibleFrom, Admissible, Passed, CleanStreak, LastSignal;
    var all := actions + more;
    ResolutionIff(policy, all, a, id);
    StreakSplits(all, fingerprint);
    StreakSplits(actions, fingerprint);
    HealthyContinuation(actions, more, fingerprint, id);
  }

  // --- and a resolution that comes too early when that fails ---

  lemma {:induction false} PassedRepeat(actions: seq<Action>, pass: Action, n: nat, fingerprint: string, id: string)
    requires PassesControl(pass, fingerprint) && pass.op.healthy
    ensures var all := actions + Repeat(pass, n);
            && Passed(all, fingerprint, true) == Passed(actions, fingerprint, true) + n
            && Passed(all, fingerprint, false) == Passed(actions, fingerprint, false)
            && LastSignal(all, fingerprint, id) == if n == 0 then LastSignal(actions, fingerprint, id) else Signal.Passed
  {
    hide Passed, LastSignal;
    if n == 0 {
      assert actions + Repeat(pass, 0) == actions;
    } else {
      PassedRepeat(actions, pass, n - 1, fingerprint, id);
      var before := actions + Repeat(pass, n - 1);
      assert actions + Repeat(pass, n) == before + [pass];
      PassedSnoc(before, pass, fingerprint, true);
      PassedSnoc(before, pass, fingerprint, false);
      HistoryStep(before, pass, fingerprint, id);
    }
  }

  lemma RepeatHealthy(pass: Action, n: nat, fingerprint: string)
    requires PassesControl(pass, fingerprint) ==> pass.op.healthy
    ensures HealthyOnly(Repeat(pass, n), fingerprint)
  {
    RepeatIs(pass, n);
    hide Repeat;
  }

  lemma TooEarly(policy: CasePolicy, actions: seq<Action>, id: string, pass: Action, check: Action)
    requires AdmissibleRun(policy, actions) && id in Run(policy, actions).cases.m && Run(policy, actions).cases.m[id].status != Resolved
    requires var fingerprint := Run(policy, actions).cases.m[id].fingerprint;
             && PassesControl(pass, fingerprint) && pass.op.healthy && !HealthyEnough(policy, actions, fingerprint, id)
    requires Admissible(Run(policy, actions), pass) && LiveVerify(check, id)
    ensures !RestsOnHealthy(policy, actions, id, Run(policy, actions).cases.m[id].fingerprint)
  {
    hide Run, RunFrom, AdmissibleFrom, Inv, Passed, CleanStreak, LastSignal, Repeat, HealthyOnly;
    var (s, fingerprint) := (Run(policy, actions), Run(policy, actions).cases.m[id].fingerprint);
    var n := Owed(policy, actions, fingerprint, id);
    var more := Repeat(pass, n);
    Reachable(policy, actions);
    RepeatedPassesAdmissible(policy, s, pass, n);
    RepeatHealthy(pass, n, fingerprint);
    AppendRun(policy, actions, more);
    RepeatPasses(pass, n, fingerprint);
    PassesAccumulate(policy, s, more, id);
    PassedRepeat(actions, pass, n, fingerprint, id);
    StreakSplits(actions, fingerprint);
    StreakSplits(actions + more, fingerprint);
    PassNeedsSignal(actions, fingerprint, id);
    var t := Run(policy, actions + more);
    assert Admissible(t, check);
    ResolutionIff(policy, actions + more, check, id);
    assert ResolvesAt(policy, actions + more, check, id);
  }

  lemma RepeatPasses(pass: Action, n: nat, fingerprint: string)
    requires PassesControl(pass, fingerprint)
    ensures forall i | 0 <= i < |Repeat(pass, n)| :: PassesControl(Repeat(pass, n)[i], fingerprint)
  {
    RepeatIs(pass, n);
    hide Repeat;
  }

  lemma PassNeedsSignal(actions: seq<Action>, fingerprint: string, id: string)
    ensures CleanStreak(actions, fingerprint) > 0 ==> LastSignal(actions, fingerprint, id) in {Signal.Passed, Signal.Degraded}
  {
    hide CleanStreak, LastSignal;
    StreakNeedsPass(actions, fingerprint, id);
    match LastSignal(actions, fingerprint, id)
    case Silent =>
    case Firing =>
    case Passed =>
    case Degraded =>
  }

  lemma AppendRun(policy: CasePolicy, actions: seq<Action>, more: seq<Action>)
    requires AdmissibleRun(policy, actions) && AdmissibleFrom(policy, Run(policy, actions), more)
    ensures AdmissibleRun(policy, actions + more) && Run(policy, actions + more) == RunFrom(policy, Run(policy, actions), more)
  {
    hide RunFrom, AdmissibleFrom;
    RunFromAppend(policy, EmptyState(), actions, more);
  }

  /**
   When does a resolution rest on the required number of passes from healthy scans? After any
   run, for every continuation that folds no degraded pass of the control: if and only if the
   streak so far holds no degraded pass, or its healthy passes together with those still owed
   are enough without it. The pass and the check only witness that the run can go on.
   */
  lemma RestsOnHealthyIff(policy: CasePolicy, actions: seq<Action>, id: string, pass: Action, check: Action)
    requires AdmissibleRun(policy, actions) && id in Run(policy, actions).cases.m && Run(policy, actions).cases.m[id].status != Resolved
    requires var fingerprint := Run(policy, actions).cases.m[id].fingerprint;
             PassesControl(pass, fingerprint) && pass.op.healthy && Admissible(Run(policy, actions), pass) && LiveVerify(check, id)
    ensures var fingerprint := Run(policy, actions).cases.m[id].fingerprint;
            RestsOnHealthy(policy, actions, id, fingerprint) <==> HealthyEnough(policy, actions, fingerprint, id)
  {
    hide Run, AdmissibleFrom, Inv, Passed, HealthyOnly, ResolvesAt, HealthyEnough;
    var fingerprint := Run(policy, actions).cases.m[id].fingerprint;
    if HealthyEnough(policy, actions, fingerprint, id) {
      forall more, a | HealthyOnly(more, fingerprint) && ResolvesAt(policy, actions + more, a, id)
        ensures Passed(actions + more, fingerprint, true) >= policy.defaultRequired
      {
        StillOfControl(policy, actions, more, a, id);
        EnoughRests(policy, actions, more, a, id, fingerprint);
      }
    } else {
      TooEarly(policy, actions, id, pass, check);
    }
  }

  lemma StillOfControl(policy: CasePolicy, actions: seq<Action>, more: seq<Action>, a: Action, id: string)
    requires id in Run(policy, actions).cases.m && ResolvesAt(policy, actions + more, a, id)
    ensures Run(policy, actions + more).cases.m[id].fingerprint == Run(policy, actions).cases.m[id].fingerprint
  {
    hide Run, AdmissibleFrom, Admissible, Inv;
    SplitRun(policy, actions, more);
    Reachable(policy, actions);
    IdentityKept(policy, Run(policy, actions), more, id);
  }

  /** In particular, a loop that refuses degraded passes throughout keeps the promise on every run. */
  lemma RefusingDegradedSuffices(policy: CasePolicy, actions: seq<Action>, a: Action, id: string)
    requires ResolvesAt(policy, actions, a, id) && HealthyOnly(actions, Run(policy, actions).cases.m[id].fingerprint)
    ensures Passed(actions, Run(policy, actions).cases.m[id].fingerprint, true) >= policy.defaultRequired
  {
    hide Run, AdmissibleFrom, Admissible, Inv, HealthyOnly, Passed;
    var fingerprint := Run(policy, actions).cases.m[id].fingerprint;
    assert [] + actions == actions;
    NothingDegraded(fingerprint);
    EnoughRests(policy, [], actions, a, id, fingerprint);
  }

  lemma NothingDegraded(fingerprint: string)
    ensures Passed([], fingerprint, false) == 0
  {
  }

  // --- an all-clear from degraded scans alone ---

  /** A degraded scan with nothing but one passing finding. */
  function DegradedScan(f: Finding, stamp: Stamp): PostureCycle.Scan {
    PostureCycle.Scan([PostureCycle.Passing(f, stamp)], [], "", true)
  }

  function DegradedCycles(policy: CasePolicy, settings: Ledger.PostureSettings, mode: Ledger.Mode, s: State, t: Ledger.Tally, scan: PostureCycle.Scan, n: nat): State {
    if n == 0 then s
    else PostureCycle.Cycle(policy, settings, mode, DegradedCycles(policy, settings, mode, s, t, scan, n - 1), t, scan).state
  }

  lemma DegradedCycleIs(policy: CasePolicy, settings: Ledger.PostureSettings, mode: Ledger.Mode, s: State, t: Ledger.Tally, f: Finding, stamp: Stamp)
    requires mode != Ledger.Shadow
    ensures CycleActions(policy, settings, mode, s, t, DegradedScan(f, stamp)) == [Action(Observe(f, "", false), stamp)]
    ensures PostureCycle.Cycle(policy, settings, mode, s, t, DegradedScan(f, stamp)).state == Step(policy, s, Action(Observe(f, "", false), stamp))
  {
    hide Step, PostureCycle.ObservePassing;
    var scan := DegradedScan(f, stamp);
    CycleIsARun(policy, settings, mode, s, t, scan);
    assert Sorting.SortBy(scan.firing, PostureCycle.Priority) == [];
    assert PassingActions(scan.passing, "", false) == [Action(Observe(f, "", false), stamp)];
    RunOne(policy, s, Action(Observe(f, "", false), stamp));
    hide RunFrom;
  }

  lemma {:induction false} DegradedCyclesAre(policy: CasePolicy, settings: Ledger.PostureSettings, mode: Ledger.Mode, s: State, t: Ledger.Tally, f: Finding, stamp: Stamp, n: nat)
    requires mode != Ledger.Shadow
    ensures DegradedCycles(policy, settings, mode, s, t, DegradedScan(f, stamp), n)
         == RunFrom(policy, s, Repeat(Action(Observe(f, "", false), stamp), n))
  {
    hide Step, PostureCycle.Cycle, CycleActions;
    var a := Action(Observe(f, "", false), stamp);
    if n > 0 {
      DegradedCyclesAre(policy, settings, mode, s, t, f, stamp, n - 1);
      DegradedCycleIs(policy, settings, mode, DegradedCycles(policy, settings, mode, s, t, DegradedScan(f, stamp), n - 1), t, f, stamp);
      assert Repeat(a, n)[..|Repeat(a, n)| - 1] == Repeat(a, n - 1);
    }
  }

  /**
   For every policy and every control there is an admissible run that resolves its case although
   no pass in it comes from a healthy scan: one failure, then as many degraded posture cycles as
   passes are required, then a live verification.
   */
  lemma DegradedAllClear(policy: CasePolicy, settings: Ledger.PostureSettings, mode: Ledger.Mode, t: Ledger.Tally, control: Finding)
    returns (fail: Action, pass: Action, check: Action)
    requires mode != Ledger.Shadow && control.passed
    ensures fail.op.Observe? && pass.op.Observe? && !pass.op.healthy && check.op.Verify?
    ensures var actions := [fail] + Repeat(pass, policy.defaultRequired);
            && ResolvesAt(policy, actions, check, check.op.caseId)
            && Passed(actions, control.fingerprint, true) == 0
            && Run(policy, actions)
            == DegradedCycles(policy, settings, mode, Step(policy, EmptyState(), fail), t, DegradedScan(pass.op.finding, pass.stamp), policy.defaultRequired)
  {
    hide Step, Inv, ScrubFinding, CaseSane, Passed, Repeat, RunFrom, AdmissibleFrom, DegradedCycles;
    var (first, spare) := (Stamp(0, "a", "", ""), Stamp(0, "b", "", ""));
    var (f, g) := (ScrubFinding(control.(passed := false)), ScrubFinding(control));
    ScrubKeeps(control);
    ScrubKeeps(control.(passed := false));
    fail, pass := Action(Observe(f, "", true), first), Action(Observe(g, "", false), spare);
    check := Action(Verify("a", "", VerifierSettings(policy, false, true)), first);
    var passes := Repeat(pass, policy.defaultRequired);
    var actions := [fail] + passes;
    EmptyInv(policy);
    assert Admissible(EmptyState(), fail);
    var s := Step(policy, EmptyState(), fail);
    StepKeepsInv(policy, EmptyState(), fail);
    FirstFailureOpens(policy, f, "", first);
    RepeatPasses(pass, policy.defaultRequired, control.fingerprint);
    RepeatIs(pass, policy.defaultRequired);
    RepeatedPassesAdmissible(policy, s, pass, policy.defaultRequired);
    PassesAccumulate(policy, s, passes, "a");
    PassesThenVerifyResolves(policy, s, passes, check, "a");
    RunOne(policy, EmptyState(), fail);
    RunFromAppend(policy, EmptyState(), [fail], passes);
    RunFromAppend(policy, EmptyState(), actions, [check]);
    RunOne(policy, Run(policy, actions), check);
    DegradedCyclesAre(policy, settings, mode, s, t, g, spare, policy.defaultRequired);
    NothingHealthy(fail, pass, policy.defaultRequired, control.fingerprint);
  }

  lemma {:induction false} NothingHealthy(fail: Action, pass: Action, n: nat, fingerprint: string)
    requires FailsControl(fail, fingerprint) && pass.op.Observe? && !pass.op.healthy && pass.op.finding.passed
    ensures Passed([fail] + Repeat(pass, n), fingerprint, true) == 0
  {
    if n == 0 {
      PassedSnoc([], fail, fingerprint, true);
      assert [] + [fail] == [fail] + Repeat(pass, 0);
    } else {
      NothingHealthy(fail, pass, n - 1, fingerprint);
      PassedSnoc([fail] + Repeat(pass, n - 1), pass, fingerprint, true);
      assert [fail] + Repeat(pass, n) == [fail] + Repeat(pass, n - 1) + [pass];
    }
  }
}
