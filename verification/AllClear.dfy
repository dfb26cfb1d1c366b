/**
 No-False-All-Clear over whole runs. The history of a run is read from its actions alone;
 the theorems tie every resolution to that history.
 */
module AllClear {
  import opened Wrappers
  import opened Dicts
  import opened Models
  import opened Policy
  import opened Lifecycle
  import opened Runs
  import opened Invariants
  import opened Preservation
  import opened CaseMoves
  import Lhp = LhpHandoff

  /** Passing observations of a control since its last failing one. */
  function CleanStreak(actions: seq<Action>, fingerprint: string): nat {
    if actions == [] then 0
    else
      var before := CleanStreak(actions[..|actions| - 1], fingerprint);
      match actions[|actions| - 1].op
      case Observe(f, _, _) =>
        if f.fingerprint != fingerprint then before else if f.passed then before + 1 else 0
      case _ => before
  }

  datatype Signal = Silent | Firing | Passed | Degraded

  /** The last scan signal about a case: an observation of its control, or a note that its scan degraded. */
  function LastSignal(actions: seq<Action>, fingerprint: string, caseId: string): Signal {
    if actions == [] then Silent
    else
      var before := LastSignal(actions[..|actions| - 1], fingerprint, caseId);
      match actions[|actions| - 1].op
      case Observe(f, _, _) =>
        if f.fingerprint != fingerprint then before else if f.passed then Passed else Firing
      case NoteDegraded(id, _) => if id == caseId then Degraded else before
      case _ => before
  }

  lemma {:induction false} StreakNeedsPass(actions: seq<Action>, fingerprint: string, caseId: string)
    ensures LastSignal(actions, fingerprint, caseId) in {Silent, Firing} ==> CleanStreak(actions, fingerprint) == 0
  {
    if actions != [] {
      StreakNeedsPass(actions[..|actions| - 1], fingerprint, caseId);
    }
  }

  /** An active case remembers exactly the history: its count is the clean streak, its flag the last signal. */
  ghost predicate Remembers(c: SecurityCase, actions: seq<Action>) {
    Active(c.status) ==>
      && c.passCount == CleanStreak(actions, c.fingerprint)
      && (c.scanDegraded <==> LastSignal(actions, c.fingerprint, c.caseId) == Degraded)
  }

  ghost predicate AllRemember(s: State, actions: seq<Action>) {
    forall k | k in s.cases.m :: Remembers(s.cases.m[k], actions)
  }

  lemma HistoryStep(actions: seq<Action>, a: Action, fingerprint: string, caseId: string)
    ensures CleanStreak(actions + [a], fingerprint)
         == if a.op.Observe? && a.op.finding.fingerprint == fingerprint
            then (if a.op.finding.passed then CleanStreak(actions, fingerprint) + 1 else 0)
            else CleanStreak(actions, fingerprint)
    ensures LastSignal(actions + [a], fingerprint, caseId)
         == if a.op.Observe? && a.op.finding.fingerprint == fingerprint
            then (if a.op.finding.passed then Passed else Firing)
            else if a.op.NoteDegraded? && a.op.caseId == caseId then Degraded
            else LastSignal(actions, fingerprint, caseId)
  {
    assert (actions + [a])[..|actions|] == actions;
  }

  /** One step keeps an existing case's memory true. */
  lemma MoveRemembers(s: State, c: SecurityCase, actions: seq<Action>, a: Action)
    requires Remembers(c, actions)
    ensures Remembers(MovedBy(s, c, a), actions + [a])
    ensures MovedBy(s, c, a).fingerprint == c.fingerprint && MovedBy(s, c, a).caseId == c.caseId
  {
    hide CleanStreak, LastSignal, Accepted;
    HistoryStep(actions, a, c.fingerprint, c.caseId);
    if !a.op.Observe? && !a.op.NoteDegraded? {
      MoveKeepsMemory(s, c, a);
      hide MovedBy;
    }
  }

  /** Only scan signals touch the counter and the flag, and only a failing observation reactivates a case. */
  lemma MoveKeepsMemory(s: State, c: SecurityCase, a: Action)
    requires !a.op.Observe? && !a.op.NoteDegraded?
    ensures KeepsMemory(c, MovedBy(s, c, a))
  {
    hide KeepsMemory, Moved, HandedOffCase, UpdatedCase, ResolvedCase, AcknowledgedCase, IssuedCase,
         Resolves, StoresHandoff, MayAskHandoff, AcceptedNow, Lhp.ValidateUpdate;
    StampsKeepMemory(c, a);
    match a.op
    case DoTriage(id, actor) => MovingKeepsMemory(c, id, None, actor, a.stamp.now);
    case DoNeedsHuman(id, reason, actor) => MovingKeepsMemory(c, id, Some(reason), actor, a.stamp.now);
    case AskHandoff(_, _, _) => HandingOffKeepsMemory(c, a);
    case Deliver(raw) => if Lhp.ValidateUpdate(raw).Ok? { UpdatingKeepsMemory(c, Lhp.ValidateUpdate(raw).value, a.stamp.now); }
    case Verify(_, reason, settings) => ResolvingKeepsMemory(c, settings, reason, a.stamp.now);
    case _ =>
  }

  predicate KeepsMemory(c: SecurityCase, d: SecurityCase) {
    && d.passCount == c.passCount && d.scanDegraded == c.scanDegraded
    && d.fingerprint == c.fingerprint && d.caseId == c.caseId && (Active(d.status) ==> Active(c.status))
  }

  lemma StampsKeepMemory(c: SecurityCase, a: Action)
    ensures KeepsMemory(c, c)
    ensures a.op.DoAcknowledge? ==> KeepsMemory(c, AcknowledgedCase(c, a.op.operator, a.stamp.now))
    ensures a.op.NoteIssue? ==> KeepsMemory(c, IssuedCase(c, a.op.url, a.op.id, a.stamp.now))
  {
  }

  lemma MovingKeepsMemory(c: SecurityCase, id: string, reason: Option<string>, actor: Actor, now: int)
    ensures KeepsMemory(c, Moved(c, id, reason, actor, now))
  {
  }

  lemma HandingOffKeepsMemory(c: SecurityCase, a: Action)
    ensures MayAskHandoff(c.status) ==> KeepsMemory(c, HandedOffCase(c, a.stamp.handoffId, a.stamp.now))
  {
  }

  lemma UpdatingKeepsMemory(c: SecurityCase, u: Lhp.HandoffUpdate, now: int)
    ensures KeepsMemory(c, UpdatedCase(c, u, now))
  {
  }

  lemma ResolvingKeepsMemory(c: SecurityCase, settings: VerifierSettings, reason: string, now: int)
    ensures Resolves(settings, c) ==> KeepsMemory(c, ResolvedCase(c, reason, now))
  {
    hide CanResolve;
  }

  lemma OpenedRemembers(policy: CasePolicy, actions: seq<Action>, a: Action)
    requires a.op.Observe? && !a.op.finding.passed
    ensures Remembers(TriagedCase(OpenedCase(policy, a.op.finding, a.op.cycle, a.stamp), a.stamp.now), actions + [a])
  {
    HistoryStep(actions, a, a.op.finding.fingerprint, a.stamp.caseId);
    hide CleanStreak, LastSignal;
  }

  lemma {:induction false} RunRemembers(policy: CasePolicy, actions: seq<Action>)
    requires AdmissibleRun(policy, actions)
    ensures AllRemember(Run(policy, actions), actions)
  {
    hide Step, Remembers, Admissible, Inv, MovedBy;
    if actions != [] {
      var before, a := actions[..|actions| - 1], actions[|actions| - 1];
      assert actions == before + [a];
      RunRemembers(policy, before);
      Reachable(policy, before);
      var s, t := Run(policy, before), Run(policy, actions);
      InvKeyed(policy, s);
      forall k | k in t.cases.m ensures Remembers(t.cases.m[k], actions) {
        StepMoves(policy, s, a, k);
        if k in s.cases.m {
          MoveRemembers(s, s.cases.m[k], before, a);
        } else {
          OpenedRemembers(policy, before, a);
        }
      }
    }
  }

  lemma InvKeyed(policy: CasePolicy, s: State)
    requires Inv(policy, s)
    ensures CasesKeyed(s) && Sane(policy, s)
  {
  }

  /** A live verifier step on the case: auto-resolve on, dry run off. */
  predicate LiveVerify(a: Action, caseId: string) {
    a.op.Verify? && a.op.caseId == caseId && a.op.settings.autoResolve && !a.op.settings.dryRun
  }

  /** On a reachable case the gate is exactly: enough passes and no degraded flag. */
  lemma GateMeaning(policy: CasePolicy, verifier: CasePolicy, c: SecurityCase)
    requires CaseSane(policy, c)
    ensures CanResolve(verifier, c) <==> !c.scanDegraded && c.passCount >= policy.defaultRequired
    ensures c.status != Resolved ==> Active(c.status)
  {
    hide LabelsStable;
  }

  lemma UpdateNeverResolves(current: CaseStatus, a: Action)
    requires a.op.Deliver?
    ensures StatusAfterUpdate(current, a.op.raw.updateType, a.op.raw.status) == Resolved <==> current == Resolved
  {
  }

  lemma ResolvesByStatus(policy: CasePolicy, s: State, c: SecurityCase, a: Action)
    requires CaseSane(policy, c) && c.status != Resolved
    ensures MovedBy(s, c, a).status == Resolved
       <==> LiveVerify(a, c.caseId) && !c.scanDegraded && c.passCount >= policy.defaultRequired
  {
    hide MovedBy, CanResolve, CaseSane, Accepted, StoresHandoff, MayAskHandoff, AllowedTransition;
    StatusMoves(s, c, a);
    if a.op.Deliver? {
      UpdateNeverResolves(c.status, a);
    }
    if a.op.Verify? {
      GateMeaning(policy, a.op.settings.policy, c);
    }
  }

  /**
   A case becomes resolved at a step of a run exactly when that step is a live verification of
   the case, its last scan signal was a passing observation of its control, of a healthy scan or
   not, and at least the required number of passes were observed since its last failing
   observation, whatever callbacks, triage, handoffs and degraded scans came in between.
   */
  lemma ResolutionIff(policy: CasePolicy, actions: seq<Action>, a: Action, caseId: string)
    requires AdmissibleRun(policy, actions) && Admissible(Run(policy, actions), a)
    requires var s := Run(policy, actions); caseId in s.cases.m && s.cases.m[caseId].status != Resolved
    ensures caseId in Run(policy, actions + [a]).cases.m
    ensures Run(policy, actions + [a]).cases.m[caseId].status == Resolved
       <==> (&& LiveVerify(a, caseId)
             && CleanStreak(actions, Run(policy, actions).cases.m[caseId].fingerprint) >= policy.defaultRequired
             && LastSignal(actions, Run(policy, actions).cases.m[caseId].fingerprint, caseId) == Passed)
  {
    hide Step, Admissible, Inv, MovedBy, CleanStreak, LastSignal;
    var s := Run(policy, actions);
    var c := s.cases.m[caseId];
    RunRemembers(policy, actions);
    Reachable(policy, actions);
    InvKeyed(policy, s);
    StepMoves(policy, s, a, caseId);
    assert (actions + [a])[..|actions|] == actions;
    ResolvesByStatus(policy, s, c, a);
    StreakNeedsPass(actions, c.fingerprint, caseId);
  }

  // --- and it can always be reached ---

  predicate PassesControl(a: Action, fingerprint: string) {
    a.op.Observe? && a.op.finding.fingerprint == fingerprint && a.op.finding.passed
  }

  /** Passing observations leave an unresolved case where it is and count up. */
  lemma {:induction false} PassesAccumulate(policy: CasePolicy, s: State, passes: seq<Action>, caseId: string)
    requires Inv(policy, s) && AdmissibleFrom(policy, s, passes)
    requires caseId in s.cases.m && s.cases.m[caseId].status != Resolved
    requires forall i | 0 <= i < |passes| :: PassesControl(passes[i], s.cases.m[caseId].fingerprint)
    ensures var (c, t) := (s.cases.m[caseId], RunFrom(policy, s, passes));
            && caseId in t.cases.m && t.cases.m[caseId].status == c.status && t.cases.m[caseId].fingerprint == c.fingerprint
            && t.cases.m[caseId].passCount == c.passCount + |passes|
            && (passes != [] ==> !t.cases.m[caseId].scanDegraded)
  {
    hide Step, Admissible, Inv, CaseSane;
    if passes != [] {
      var before, a := passes[..|passes| - 1], passes[|passes| - 1];
      PassesAccumulate(policy, s, before, caseId);
      RunKeepsInv(policy, s, before);
      var t := RunFrom(policy, s, before);
      InvKeyed(policy, t);
      StepMoves(policy, t, a, caseId);
      StoredCase(policy, t, caseId);
      GateMeaning(policy, policy, t.cases.m[caseId]);
    }
  }

  /** From every reachable store, every unresolved case resolves after enough passing observations and one live verification. */
  lemma PassesThenVerifyResolves(policy: CasePolicy, s: State, passes: seq<Action>, a: Action, caseId: string)
    requires Inv(policy, s) && AdmissibleFrom(policy, s, passes)
    requires caseId in s.cases.m && s.cases.m[caseId].status != Resolved
    requires forall i | 0 <= i < |passes| :: PassesControl(passes[i], s.cases.m[caseId].fingerprint)
    requires |passes| >= policy.defaultRequired && LiveVerify(a, caseId)
    ensures var t := Step(policy, RunFrom(policy, s, passes), a);
            caseId in t.cases.m && t.cases.m[caseId].status == Resolved
  {
    hide Step, RunFrom, AdmissibleFrom, Inv, CaseSane, MovedBy;
    PassesAccumulate(policy, s, passes, caseId);
    RunKeepsInv(policy, s, passes);
    var t := RunFrom(policy, s, passes);
    InvKeyed(policy, t);
    StoredCase(policy, t, caseId);
    assert Admissible(t, a);
    StepMoves(policy, t, a, caseId);
    ResolvesByStatus(policy, t, t.cases.m[caseId], a);
  }

  function Repeat(a: Action, n: nat): seq<Action> {
    if n == 0 then [] else Repeat(a, n - 1) + [a]
  }

  lemma {:induction false} RepeatIs(a: Action, n: nat)
    ensures |Repeat(a, n)| == n && forall i | 0 <= i < n :: Repeat(a, n)[i] == a
  {
    if n > 0 { RepeatIs(a, n - 1); }
  }

  /** Repeated passing observations open no case, so their spare id stays new. */
  lemma {:induction false} RepeatedPassesAdmissible(policy: CasePolicy, s: State, a: Action, n: nat)
    requires Inv(policy, s) && a.op.Observe? && a.op.finding.passed && Admissible(s, a)
    ensures AdmissibleFrom(policy, s, Repeat(a, n))
    ensures Admissible(RunFrom(policy, s, Repeat(a, n)), a)
  {
    hide Step, Inv, MovedBy, Scrubbed;
    if n > 0 {
      var before := Repeat(a, n - 1);
      RepeatedPassesAdmissible(policy, s, a, n - 1);
      assert Repeat(a, n)[..n - 1] == before && Repeat(a, n)[n - 1] == a by { RepeatIs(a, n - 1); }
      assert |Repeat(a, n)| == n by { RepeatIs(a, n); }
      RunKeepsInv(policy, s, before);
      InvKeyed(policy, RunFrom(policy, s, before));
      StepMoves(policy, RunFrom(policy, s, before), a, a.stamp.caseId);
    }
  }

  /** For every threshold there is a run that ends in an all-clear, so the theorems above speak of something. */
  lemma AllClearIsReachable(policy: CasePolicy, control: Finding) returns (actions: seq<Action>)
    requires control.passed
    ensures AdmissibleRun(policy, actions)
    ensures exists id | id in Run(policy, actions).cases.m :: Run(policy, actions).cases.m[id].status == Resolved
  {
    hide Step, Inv, ScrubFinding, CaseSane;
    var (first, spare) := (Stamp(0, "a", "", ""), Stamp(0, "b", "", ""));
    var f := ScrubFinding(control.(passed := false));
    var g := ScrubFinding(control);
    ScrubKeeps(control);
    ScrubKeeps(control.(passed := false));
    assert !f.passed && g.passed && f.fingerprint == g.fingerprint;
    var fail, pass := Action(Observe(f, "", true), first), Action(Observe(g, "", true), spare);
    var check := Action(Verify("a", "", VerifierSettings(policy, false, true)), first);
    var passes := Repeat(pass, policy.defaultRequired);
    EmptyInv(policy);
    assert Admissible(EmptyState(), fail);
    var s := Step(policy, EmptyState(), fail);
    StepKeepsInv(policy, EmptyState(), fail);
    FirstFailureOpens(policy, f, "", first);
    RepeatIs(pass, policy.defaultRequired);
    RepeatedPassesAdmissible(policy, s, pass, policy.defaultRequired);
    forall i | 0 <= i < |passes| ensures PassesControl(passes[i], s.cases.m["a"].fingerprint) {
      assert passes[i] == pass;
    }
    PassesThenVerifyResolves(policy, s, passes, check, "a");
    actions := [fail] + passes + [check];
    RunFromAppend(policy, EmptyState(), [fail], passes);
    RunFromAppend(policy, EmptyState(), [fail] + passes, [check]);
    RunOne(policy, EmptyState(), fail);
    RunOne(policy, RunFrom(policy, s, passes), check);
    assert Run(policy, actions) == Step(policy, RunFrom(policy, s, passes), check);
  }

  lemma ScrubKeeps(f: Finding)
    ensures ScrubFinding(f).fingerprint == f.fingerprint && ScrubFinding(f).passed == f.passed
  {
  }

  lemma FirstFailureOpens(policy: CasePolicy, f: Finding, cycle: string, stamp: Stamp)
    requires !f.passed
    ensures var s := Step(policy, EmptyState(), Action(Observe(f, cycle, true), stamp));
            && s.cases.m.Keys == {stamp.caseId}
            && s.cases.m[stamp.caseId].fingerprint == f.fingerprint && s.cases.m[stamp.caseId].status == Triaged
  {
    hide BoundKind;
  }

  // --- resolution is stable ---

  predicate FailsControl(a: Action, fingerprint: string) {
    a.op.Observe? && a.op.finding.fingerprint == fingerprint && !a.op.finding.passed
  }

  /** A resolved case leaves that status exactly by a failing observation of its own control, and then it is triaged. */
  lemma ReopensIff(s: State, c: SecurityCase, a: Action)
    requires c.status == Resolved
    ensures MovedBy(s, c, a).status == if FailsControl(a, c.fingerprint) then Triaged else Resolved
  {
    hide MovedBy, CanResolve, Accepted, StoresHandoff;
    StatusMoves(s, c, a);
    if a.op.Deliver? {
      UpdateNeverResolves(c.status, a);
    }
  }

  /** Without such an observation it stays resolved through any continuation of the run. */
  lemma {:induction false} StaysResolved(policy: CasePolicy, s: State, actions: seq<Action>, caseId: string)
    requires Inv(policy, s) && AdmissibleFrom(policy, s, actions)
    requires caseId in s.cases.m && s.cases.m[caseId].status == Resolved
    requires forall i | 0 <= i < |actions| :: !FailsControl(actions[i], s.cases.m[caseId].fingerprint)
    ensures var t := RunFrom(policy, s, actions);
            && caseId in t.cases.m && t.cases.m[caseId].status == Resolved
            && t.cases.m[caseId].fingerprint == s.cases.m[caseId].fingerprint
  {
    hide Step, Admissible, Inv, MovedBy;
    if actions != [] {
      var before, a := actions[..|actions| - 1], actions[|actions| - 1];
      StaysResolved(policy, s, before, caseId);
      RunKeepsInv(policy, s, before);
      var t := RunFrom(policy, s, before);
      InvKeyed(policy, t);
      StepMoves(policy, t, a, caseId);
      ReopensIff(t, t.cases.m[caseId], a);
      StatusMoves(t, t.cases.m[caseId], a);
    }
  }

  /**
   Two resolutions of one case are separated by a failing observation of its control and, after
   that, a full fresh streak of passes.
   */
  lemma ResolutionsAreSeparated(policy: CasePolicy, first: seq<Action>, between: seq<Action>, a: Action, caseId: string)
    requires AdmissibleRun(policy, first + between) && Admissible(Run(policy, first + between), a)
    requires caseId in Run(policy, first).cases.m && Run(policy, first).cases.m[caseId].status == Resolved
    requires caseId in Run(policy, first + between).cases.m && Run(policy, first + between).cases.m[caseId].status != Resolved
    requires caseId in Run(policy, first + between + [a]).cases.m && Run(policy, first + between + [a]).cases.m[caseId].status == Resolved
    ensures var fingerprint := Run(policy, first).cases.m[caseId].fingerprint;
            exists k: nat | k < |between| ::
              && FailsControl(between[k], fingerprint)
              && (forall j | k < j < |between| :: !FailsControl(between[j], fingerprint))
              && CountPasses(between[k + 1..], fingerprint) >= policy.defaultRequired
  {
    hide Step, Admissible, Inv, MovedBy, CleanStreak, LastSignal, Run;
    var fingerprint := Run(policy, first).cases.m[caseId].fingerprint;
    SplitRun(policy, first, between);
    Reachable(policy, first);
    if forall k | 0 <= k < |between| :: !FailsControl(between[k], fingerprint) {
      StaysResolved(policy, Run(policy, first), between, caseId);
      assert false;
    }
    var k := LastFailure(between, fingerprint);
    IdentityKept(policy, Run(policy, first), between, caseId);
    ResolutionIff(policy, first + between, a, caseId);
    StreakIsPasses(first + between[..k], between[k], between[k + 1..], fingerprint);
    assert first + between == first + between[..k] + [between[k]] + between[k + 1..];
  }

  lemma SplitRun(policy: CasePolicy, first: seq<Action>, between: seq<Action>)
    requires AdmissibleRun(policy, first + between)
    ensures AdmissibleRun(policy, first)
    ensures AdmissibleFrom(policy, Run(policy, first), between)
    ensures Run(policy, first + between) == RunFrom(policy, Run(policy, first), between)
  {
    hide RunFrom, AdmissibleFrom;
    RunFromAppend(policy, EmptyState(), first, between);
  }

  /** Cases are never deleted and keep their fingerprint. */
  lemma {:induction false} IdentityKept(policy: CasePolicy, s: State, actions: seq<Action>, caseId: string)
    requires Inv(policy, s) && AdmissibleFrom(policy, s, actions) && caseId in s.cases.m
    ensures caseId in RunFrom(policy, s, actions).cases.m
    ensures RunFrom(policy, s, actions).cases.m[caseId].fingerprint == s.cases.m[caseId].fingerprint
  {
    hide Step, Admissible, Inv, MovedBy;
    if actions != [] {
      var before, a := actions[..|actions| - 1], actions[|actions| - 1];
      IdentityKept(policy, s, before, caseId);
      RunKeepsInv(policy, s, before);
      var t := RunFrom(policy, s, before);
      InvKeyed(policy, t);
      StepMoves(policy, t, a, caseId);
      StatusMoves(t, t.cases.m[caseId], a);
    }
  }

  lemma LastFailure(actions: seq<Action>, fingerprint: string) returns (k: nat)
    requires exists i :: 0 <= i < |actions| && FailsControl(actions[i], fingerprint)
    ensures k < |actions| && FailsControl(actions[k], fingerprint)
    ensures forall j | k < j < |actions| :: !FailsControl(actions[j], fingerprint)
  {
    var n := |actions| - 1;
    if FailsControl(actions[n], fingerprint) {
      k := n;
    } else {
      var i :| 0 <= i < |actions| && FailsControl(actions[i], fingerprint);
      assert actions[..n][i] == actions[i];
      k := LastFailure(actions[..n], fingerprint);
      forall j | k < j < |actions| ensures !FailsControl(actions[j], fingerprint) {
        if j < n { assert actions[..n][j] == actions[j]; }
      }
    }
  }

  /** How many passing observations of a control a stretch of a run contains. */
  function CountPasses(actions: seq<Action>, fingerprint: string): nat {
    if actions == [] then 0
    else
      var a := actions[|actions| - 1];
      CountPasses(actions[..|actions| - 1], fingerprint)
      + if a.op.Observe? && a.op.finding.fingerprint == fingerprint && a.op.finding.passed then 1 else 0
  }

  lemma {:induction false} StreakIsPasses(before: seq<Action>, failure: Action, after: seq<Action>, fingerprint: string)
    requires FailsControl(failure, fingerprint)
    requires forall j | 0 <= j < |after| :: !FailsControl(after[j], fingerprint)
    ensures CleanStreak(before + [failure] + after, fingerprint) == CountPasses(after, fingerprint)
  {
    if after == [] {
      HistoryStep(before, failure, fingerprint, "");
      assert before + [failure] + after == before + [failure];
    } else {
      var n := |after| - 1;
      StreakIsPasses(before, failure, after[..n], fingerprint);
      HistoryStep(before + [failure] + after[..n], after[n], fingerprint, "");
      assert before + [failure] + after == before + [failure] + after[..n] + [after[n]];
    }
  }
}
