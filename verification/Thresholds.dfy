/** The thresholds of the objectives themselves: when a resolution meets them. */
module Thresholds {
  import opened Wrappers
  import opened Dicts
  import opened Models
  import opened Policy
  import opened Lifecycle
  import opened Runs
  import opened Invariants
  import opened VerificationLoop
  import opened Progress
  import CaseMoves
  import Engineering
  import Ladder
  import Labels
  import LhpTokens
  import LooseEnds
  import Preservation
  import Lhp = LhpHandoff

  // --- the objectives' own thresholds ---

  /** Every objective of the case is passed with a count that meets its own threshold. */
  ghost predicate ThresholdsMet(t: State, caseId: string) {
    forall o | o in t.objectives.m && t.objectives.m[o].caseId == caseId ::
      t.objectives.m[o].status == ObjectiveStatus.Pass && t.objectives.m[o].passCount >= t.objectives.m[o].requiredPasses
  }

  /** No objective of the case asks for more passes than this. */
  ghost predicate AsksAtMost(s: State, caseId: string, count: nat) {
    forall o | o in s.objectives.m && s.objectives.m[o].caseId == caseId :: s.objectives.m[o].requiredPasses <= count
  }

  /**
   A resolution marks every objective of the case as passed. It meets their own thresholds if
   and only if none of them asks for more than the final count. From a count below the threshold
   of the policy that is the threshold itself.
   */
  lemma ThresholdsMetIff(policy: CasePolicy, settings: VerifierSettings, s: State, c: SecurityCase, rs: seq<Reading>, cycle: string)
    requires CasesKeyed(s) && c.caseId in s.cases.m && s.cases.m[c.caseId] == c
    requires Live(settings) && Verifiable(c.status) && c.resourceId != "" && c.requiredPasses == policy.defaultRequired
    requires Reached(c.passCount, policy.defaultRequired, Sights(rs, c.fingerprint))
    ensures var t := VerifyRun(policy, settings, s, c.caseId, rs, cycle);
            ThresholdsMet(t, c.caseId) <==> AsksAtMost(s, c.caseId, FinalCount(c.passCount, policy.defaultRequired, Sights(rs, c.fingerprint)))
    ensures c.passCount < policy.defaultRequired ==>
              FinalCount(c.passCount, policy.defaultRequired, Sights(rs, c.fingerprint)) == policy.defaultRequired
  {
    hide CasesKeyed, VerifyRun, Reached, See;
    VerificationProgress(policy, settings, s, c, rs, cycle);
    var t := VerifyRun(policy, settings, s, c.caseId, rs, cycle);
    var count := FinalCount(c.passCount, policy.defaultRequired, Sights(rs, c.fingerprint));
    hide StandsAt;
    if ThresholdsMet(t, c.caseId) {
      forall o | o in s.objectives.m && s.objectives.m[o].caseId == c.caseId ensures s.objectives.m[o].requiredPasses <= count {
        assert t.objectives.m[o].passCount == count;
      }
    }
    if AsksAtMost(s, c.caseId, count) {
      forall o | o in t.objectives.m && t.objectives.m[o].caseId == c.caseId
        ensures t.objectives.m[o].passCount >= t.objectives.m[o].requiredPasses
      {
        assert s.objectives.m[o].requiredPasses <= count;
      }
    }
  }

  /** A run whose handoff requests leave the threshold to the case. */
  predicate DefaultRequests(actions: seq<Action>) {
    forall i | 0 <= i < |actions| :: actions[i].op.AskHandoff? ==> actions[i].op.passes == 0
  }

  ghost predicate AllDefault(policy: CasePolicy, s: State) {
    forall o | o in s.objectives.m :: s.objectives.m[o].requiredPasses == policy.defaultRequired
  }

  lemma OtherObjectives(policy: CasePolicy, s: State, a: Action)
    requires !a.op.AskHandoff? && !a.op.Verify?
    ensures Step(policy, s, a).objectives == s.objectives
  {
    hide CaseByFingerprint, FailedCase, PassedCase, TriagedCase, OpenedCase, MovedCase, AllowedTransition, DegradedCase, AcknowledgedCase,
         IssuedCase, UpdatedCase, InboxRecord, BoundKind, Lhp.ValidateUpdate, Lhp.AllowedHandoffTransition, CallbackFor;
  }

  lemma RequestDefault(policy: CasePolicy, s: State, a: Action)
    requires Inv(policy, s) && a.op.AskHandoff? && a.op.passes == 0 && AllDefault(policy, s)
    ensures AllDefault(policy, Step(policy, s, a))
  {
    hide Inv, RequestHandoff, HandoffReady, HandoffByKey, IdempotencyKey, HandedOffCase, BoundKind, LhpTokens.SanitizeToken, Commit;
    Engineering.InvHandoffs(policy, s);
    CaseMoves.OwnIdsOf(s);
    var (id, f, stamp) := (a.op.caseId, a.op.finding, a.stamp);
    Ladder.RequestAsCommit(s, id, f, 0, stamp);
    if CaseMoves.StoresHandoff(s, id, f) {
      Preservation.StoredCase(policy, s, id);
      Preservation.BuiltHandoff(f, s.cases.m[id], s.cases.m[id].requiredPasses, stamp);
      hide BuildHandoff, CaseSane;
    }
  }

  lemma VerifyDefault(policy: CasePolicy, s: State, a: Action)
    requires a.op.Verify? && AllDefault(policy, s)
    ensures AllDefault(policy, Step(policy, s, a))
  {
    hide CanResolve, PassObjectives, Commit, ResolvedCase, BoundKind;
    if a.op.caseId in s.cases.m {
      PassObjectivesSettles(s.objectives, a.op.caseId, s.cases.m[a.op.caseId].passCount, a.stamp.now);
    }
  }

  lemma {:induction false} RunDefault(policy: CasePolicy, actions: seq<Action>)
    requires AdmissibleRun(policy, actions) && DefaultRequests(actions)
    ensures AllDefault(policy, Run(policy, actions))
  {
    hide Inv, Step, Admissible, AllDefault;
    if actions == [] {
      EmptyDefault(policy);
    } else {
      var before, a := actions[..|actions| - 1], actions[|actions| - 1];
      RunDefault(policy, before);
      Preservation.Reachable(policy, before);
      if a.op.AskHandoff? {
        RequestDefault(policy, Run(policy, before), a);
      } else if a.op.Verify? {
        VerifyDefault(policy, Run(policy, before), a);
      } else {
        OtherObjectives(policy, Run(policy, before), a);
        SameDefault(policy, Run(policy, before), Run(policy, actions));
      }
    }
  }

  lemma EmptyDefault(policy: CasePolicy)
    ensures AllDefault(policy, EmptyState())
  {
  }

  lemma SameDefault(policy: CasePolicy, s: State, t: State)
    requires AllDefault(policy, s) && t.objectives == s.objectives
    ensures AllDefault(policy, t)
  {
  }

  /** When handoffs use the default threshold, every resolution meets the thresholds of all objectives of its case. */
  lemma DefaultThresholdsAreMet(policy: CasePolicy, settings: VerifierSettings, actions: seq<Action>, caseId: string, rs: seq<Reading>, cycle: string)
    requires AdmissibleRun(policy, actions) && DefaultRequests(actions) && caseId in Run(policy, actions).cases.m
    requires var c := Run(policy, actions).cases.m[caseId];
             && Live(settings) && Verifiable(c.status) && c.resourceId != ""
             && Reached(c.passCount, policy.defaultRequired, Sights(rs, c.fingerprint))
    ensures ThresholdsMet(VerifyRun(policy, settings, Run(policy, actions), caseId, rs, cycle), caseId)
  {
    hide Inv, Run, VerifyRun, Reached, See, CaseSane, ThresholdsMet;
    var s := Run(policy, actions);
    Preservation.Reachable(policy, actions);
    Engineering.InvHandoffs(policy, s);
    Preservation.StoredCase(policy, s, caseId);
    RequiredIsDefault(policy, s.cases.m[caseId]);
    RunDefault(policy, actions);
    FinalCountEnough(s.cases.m[caseId].passCount, policy.defaultRequired, Sights(rs, s.cases.m[caseId].fingerprint));
    hide FinalCount;
    ThresholdsMetIff(policy, settings, s, s.cases.m[caseId], rs, cycle);
  }

  lemma FinalCountEnough(start: nat, required: Threshold, sights: seq<Sight>)
    ensures FinalCount(start, required, sights) >= required
  {
  }

  lemma RequiredIsDefault(policy: CasePolicy, c: SecurityCase)
    requires CaseSane(policy, c)
    ensures c.requiredPasses == policy.defaultRequired
  {
  }

  // --- a request for more passes than the policy asks for ---

  /** What a healthy reread says when the control passes. */
  function CleanReading(f: Finding, stamp: Stamp): Reading {
    Reading([f.(passed := true)], false, stamp)
  }

  function CleanReadings(f: Finding, stamp: Stamp, n: nat): seq<Reading> {
    seq(n, _ => CleanReading(f, stamp))
  }

  lemma CleanSights(f: Finding, stamp: Stamp, n: nat)
    ensures |Sights(CleanReadings(f, stamp, n), f.fingerprint)| == n
    ensures forall i | 0 <= i < n :: Sights(CleanReadings(f, stamp, n), f.fingerprint)[i] == Clean
  {
    assert See(CleanReading(f, stamp), f.fingerprint) == Clean;
  }

  lemma {:induction false} AllClean(start: nat, sights: seq<Sight>)
    requires forall i | 0 <= i < |sights| :: sights[i] == Clean
    ensures CountAfter(start, sights) == start + |sights|
  {
    if sights != [] {
      AllClean(start, sights[..|sights| - 1]);
    }
  }

  lemma EnoughClean(required: Threshold, sights: seq<Sight>)
    requires |sights| == required && forall i | 0 <= i < |sights| :: sights[i] == Clean
    ensures Reached(0, required, sights)
  {
    AllClean(0, sights);
    var n := |sights| - 1;
    assert sights[..n + 1] == sights;
    assert sights[n] == Clean && CountAfter(0, sights[..n + 1]) >= required;
  }

  /** The store after the first failure of a control and a request for so many passes. */
  lemma Requested(policy: CasePolicy, s: State, id: string, f: Finding, passes: nat, stamp: Stamp)
    requires Inv(policy, s) && id in s.cases.m && s.cases.m[id].status == Triaged && s.handoffs.m == map[] && HandoffReady(f) && passes > 0
    ensures var t := RequestHandoff(s, id, f, passes, stamp).state;
            && t.cases.m == s.cases.m[id := HandedOffCase(s.cases.m[id], stamp.handoffId, stamp.now)]
            && t.callbacks == s.callbacks
            && stamp.handoffId in t.handoffs.m && t.handoffs.m[stamp.handoffId].status == Lhp.Requested
            && stamp.objectiveId in t.objectives.m
            && t.objectives.m[stamp.objectiveId].caseId == id && t.objectives.m[stamp.objectiveId].requiredPasses == passes
  {
    hide Inv, RequestHandoff, BuildHandoff, HandoffReady, IdempotencyKey, CaseSane, BoundKind;
    Preservation.StoredCase(policy, s, id);
    Preservation.RequestHandoffCases(s, id, f, passes, stamp);
    Preservation.BuiltHandoff(f, s.cases.m[id], passes, stamp);
  }

  /** What the steps before the rereads leave of a case, as far as these look at it. */
  ghost predicate Fresh(c: SecurityCase, f: Finding) {
    c.fingerprint == f.fingerprint && c.resourceId == ScrubFinding(f).resource && c.passCount == 0
  }

  /** Nothing of a handoff is stored yet, and the case is triaged. */
  ghost predicate JustOpened(s: State, f: Finding, id: string) {
    && s.handoffs.m == map[] && s.callbacks.m == map[] && s.objectives.m == map[]
    && id in s.cases.m && s.cases.m[id].status == Triaged && Fresh(s.cases.m[id], f)
  }

  lemma FirstFailure(policy: CasePolicy, f: Finding, cycle: string, stamp: Stamp)
    requires !f.passed
    ensures JustOpened(Step(policy, EmptyState(), Action(Observe(f, cycle, true), stamp)), f, stamp.caseId)
  {
    hide Labels.SanitizeLabel, BoundKind;
  }

  lemma UpdateKeepsFresh(s: State, c: SecurityCase, a: Action, f: Finding)
    requires a.op.Deliver? && Fresh(c, f)
    ensures Fresh(CaseMoves.MovedBy(s, c, a), f)
  {
    hide CaseMoves.Accepted, Lhp.ValidateUpdate, StatusAfterUpdate, ScrubFinding;
  }

  lemma AppliedIsAccepted(s: State, h: string, id: string, event: string)
    requires h in s.handoffs.m && s.handoffs.m[h].status == Lhp.Requested && s.callbacks.m == map[]
    requires LooseEnds.PlainToken(id) && LooseEnds.PlainToken(h) && LooseEnds.PlainToken(event)
    ensures CaseMoves.Accepted(s, LooseEnds.AppliedUpdate(h, id, event))
    ensures Lhp.ValidateUpdate(LooseEnds.AppliedUpdate(h, id, event)).value.caseId == id
  {
    hide LhpTokens.RequireToken;
    assert Lhp.ValidateUpdate(LooseEnds.AppliedUpdate(h, id, event))
        == Ok(Lhp.HandoffUpdate(h, id, Lhp.Engineering, Lhp.ChangeAppliedUpdate, Lhp.Accepted, event));
  }

  /** With engineering under a handoff just stored, and no update so far. */
  ghost predicate JustRequested(s: State, f: Finding, id: string, h: string) {
    && id in s.cases.m && s.cases.m[id].status == CaseStatus.HandoffRequested && Fresh(s.cases.m[id], f)
    && h in s.handoffs.m && s.handoffs.m[h].status == Lhp.Requested && s.callbacks.m == map[]
  }

  /** An applied update takes the requested case into verification. */
  lemma AppliedToRequested(policy: CasePolicy, s: State, f: Finding, h: string, id: string, event: string, stamp: Stamp)
    requires Inv(policy, s) && JustRequested(s, f, id, h)
    requires LooseEnds.PlainToken(id) && LooseEnds.PlainToken(h) && LooseEnds.PlainToken(event)
    ensures var t := Step(policy, s, Action(Deliver(LooseEnds.AppliedUpdate(h, id, event)), stamp));
            t.objectives == s.objectives && id in t.cases.m && t.cases.m[id].status == VerificationPending && Fresh(t.cases.m[id], f)
  {
    var a := Action(Deliver(LooseEnds.AppliedUpdate(h, id, event)), stamp);
    hide Inv, Step, Scrubbed, BoundText, CaseMoves.MovedBy, CaseMoves.Accepted, Lhp.ValidateUpdate, LooseEnds.PlainToken, CaseSane, Fresh;
    assert Admissible(s, a);
    hide Admissible;
    AppliedIsAccepted(s, h, id, event);
    Engineering.InvHandoffs(policy, s);
    Preservation.StoredCase(policy, s, id);
    CaseMoves.StepMoves(policy, s, a, id);
    Engineering.EntersVerificationAtRest(policy, s, s.cases.m[id], a);
    UpdateKeepsFresh(s, s.cases.m[id], a, f);
    OtherObjectives(policy, s, a);
  }

  lemma HandedOffFresh(c: SecurityCase, f: Finding, h: string, now: int)
    requires Fresh(c, f) && c.status == Triaged
    ensures Fresh(HandedOffCase(c, h, now), f) && HandedOffCase(c, h, now).status == CaseStatus.HandoffRequested
  {
    hide ScrubFinding, Labels.SanitizeLabel;
  }

  lemma ThreeSteps(policy: CasePolicy, a: Action, b: Action, c: Action)
    requires Admissible(EmptyState(), a)
    requires Admissible(Step(policy, EmptyState(), a), b)
    requires Admissible(Step(policy, Step(policy, EmptyState(), a), b), c)
    ensures AdmissibleRun(policy, [a, b, c])
    ensures Run(policy, [a, b, c]) == Step(policy, Step(policy, Step(policy, EmptyState(), a), b), c)
  {
    hide Step, Admissible, RunFrom, AdmissibleFrom;
    RunOne(policy, EmptyState(), a);
    RunOne(policy, Step(policy, EmptyState(), a), b);
    RunOne(policy, Step(policy, Step(policy, EmptyState(), a), b), c);
    RunFromAppend(policy, EmptyState(), [a], [b]);
    RunFromAppend(policy, EmptyState(), [a] + [b], [c]);
    assert [a] + [b] + [c] == [a, b, c];
  }

  /** Pending verification, with an objective that asks for `passes`. */
  ghost predicate Prepared(s: State, f: Finding, id: string, o: string, passes: nat) {
    && id in s.cases.m && s.cases.m[id].status == VerificationPending && Fresh(s.cases.m[id], f)
    && o in s.objectives.m && s.objectives.m[o].caseId == id && s.objectives.m[o].requiredPasses == passes
  }

  /** A failure, a request for `passes` rereads, and the report that a change was applied. */
  function AskedFor(f: Finding, ids: Stamp, event: string, cycle: string, passes: nat): seq<Action> {
    [Action(Observe(f, cycle, true), ids), Action(AskHandoff(ids.caseId, f, passes), ids),
     Action(Deliver(LooseEnds.AppliedUpdate(ids.handoffId, ids.caseId, event)), ids)]
  }

  lemma RequestedFromOpened(policy: CasePolicy, s: State, f: Finding, passes: nat, ids: Stamp)
    requires Inv(policy, s) && JustOpened(s, f, ids.caseId) && HandoffReady(f) && passes > 0
    ensures var t := Step(policy, s, Action(AskHandoff(ids.caseId, f, passes), ids));
            && JustRequested(t, f, ids.caseId, ids.handoffId)
            && ids.objectiveId in t.objectives.m
            && t.objectives.m[ids.objectiveId].caseId == ids.caseId && t.objectives.m[ids.objectiveId].requiredPasses == passes
  {
    hide Inv, RequestHandoff, HandoffReady, Fresh, HandedOffCase;
    Requested(policy, s, ids.caseId, f, passes, ids);
    HandedOffFresh(s.cases.m[ids.caseId], f, ids.handoffId, ids.now);
  }

  lemma AllAdmissible(f: Finding, ids: Stamp, event: string, cycle: string, passes: nat)
    requires Scrubbed(f) && BoundText(ids.handoffId) == ids.handoffId
    ensures Admissible(EmptyState(), Action(Observe(f, cycle, true), ids))
    ensures forall s | JustOpened(s, f, ids.caseId) :: Admissible(s, Action(AskHandoff(ids.caseId, f, passes), ids))
    ensures forall s :: Admissible(s, Action(Deliver(LooseEnds.AppliedUpdate(ids.handoffId, ids.caseId, event)), ids))
  {
    hide Scrubbed, BoundText, Fresh, LooseEnds.AppliedUpdate;
  }

  lemma AskedForLeaves(policy: CasePolicy, f: Finding, ids: Stamp, event: string, cycle: string, passes: nat)
    requires Scrubbed(f) && !f.passed && HandoffReady(f) && passes > 0 && BoundText(ids.handoffId) == ids.handoffId
    requires LooseEnds.PlainToken(ids.caseId) && LooseEnds.PlainToken(ids.handoffId) && LooseEnds.PlainToken(event)
    ensures AdmissibleRun(policy, AskedFor(f, ids, event, cycle, passes))
    ensures Prepared(Run(policy, AskedFor(f, ids, event, cycle, passes)), f, ids.caseId, ids.objectiveId, passes)
  {
    var actions := AskedFor(f, ids, event, cycle, passes);
    var (a, b) := (Action(Observe(f, cycle, true), ids), Action(AskHandoff(ids.caseId, f, passes), ids));
    var c := Action(Deliver(LooseEnds.AppliedUpdate(ids.handoffId, ids.caseId, event)), ids);
    hide Step, Inv, Scrubbed, HandoffReady, BoundText, LooseEnds.PlainToken, Run, AdmissibleRun, Fresh, LooseEnds.AppliedUpdate, Admissible,
         JustOpened, JustRequested;
    AllAdmissible(f, ids, event, cycle, passes);
    var s1 := Step(policy, EmptyState(), a);
    var s2 := Step(policy, s1, b);
    FirstFailure(policy, f, cycle, ids);
    Preservation.EmptyInv(policy);
    Preservation.StepKeepsInv(policy, EmptyState(), a);
    RequestedFromOpened(policy, s1, f, passes, ids);
    Preservation.StepKeepsInv(policy, s1, b);
    AppliedToRequested(policy, s2, f, ids.handoffId, ids.caseId, event, ids);
    ThreeSteps(policy, a, b, c);
  }

  /** Resolved, with an objective passed below its own threshold. */
  ghost predicate Missed(t: State, id: string, o: string) {
    && id in t.cases.m && t.cases.m[id].status == CaseStatus.Resolved
    && o in t.objectives.m && t.objectives.m[o].caseId == id
    && t.objectives.m[o].status == ObjectiveStatus.Pass && t.objectives.m[o].passCount < t.objectives.m[o].requiredPasses
  }

  lemma RereadsMiss(policy: CasePolicy, settings: VerifierSettings, s: State, f: Finding, id: string, o: string, stamp: Stamp, cycle: string)
    requires Inv(policy, s) && Prepared(s, f, id, o, policy.defaultRequired + 1) && ScrubFinding(f).resource != "" && Live(settings)
    ensures Missed(VerifyRun(policy, settings, s, id, CleanReadings(f, stamp, policy.defaultRequired), cycle), id, o)
  {
    var rs := CleanReadings(f, stamp, policy.defaultRequired);
    var c := s.cases.m[id];
    assert c.fingerprint == f.fingerprint && c.resourceId != "" && c.passCount == 0;
    hide Inv, ScrubFinding, VerifyRun, Reached, FinalCount, CleanReadings, Sights, Fresh, CasesKeyed, CaseSane;
    Engineering.InvHandoffs(policy, s);
    Preservation.StoredCase(policy, s, id);
    RequiredIsDefault(policy, c);
    CleanSights(f, stamp, policy.defaultRequired);
    EnoughClean(policy.defaultRequired, Sights(rs, f.fingerprint));
    FinalCountFromZero(policy.defaultRequired, Sights(rs, f.fingerprint));
    VerificationProgress(policy, settings, s, c, rs, cycle);
  }

  /**
   So the thresholds can be missed: for every control that can be handed off there is an
   admissible run that asks for one pass more than the policy, after which the rereads that the
   policy asks for resolve the case and mark as passed an objective that asks for more.
   */
  lemma ThresholdMissed(policy: CasePolicy, settings: VerifierSettings, f: Finding, ids: Stamp, event: string, cycle: string)
    returns (actions: seq<Action>, rs: seq<Reading>)
    requires Scrubbed(f) && !f.passed && HandoffReady(f) && Live(settings)
    requires ScrubFinding(f).resource != "" && BoundText(ids.handoffId) == ids.handoffId
    requires LooseEnds.PlainToken(ids.caseId) && LooseEnds.PlainToken(ids.handoffId) && LooseEnds.PlainToken(event)
    ensures AdmissibleRun(policy, actions) && ids.caseId in Run(policy, actions).cases.m
    ensures Missed(VerifyRun(policy, settings, Run(policy, actions), ids.caseId, rs, cycle), ids.caseId, ids.objectiveId)
  {
    hide Inv, Scrubbed, HandoffReady, ScrubFinding, BoundText, LooseEnds.PlainToken, Run, AdmissibleFrom, AskedFor, VerifyRun, CleanReadings, Missed;
    var n := policy.defaultRequired;
    actions, rs := AskedFor(f, ids, event, cycle, n + 1), CleanReadings(f, ids, n);
    AskedForLeaves(policy, f, ids, event, cycle, n + 1);
    Preservation.Reachable(policy, actions);
    RereadsMiss(policy, settings, Run(policy, actions), f, ids.caseId, ids.objectiveId, ids, cycle);
  }

  lemma FinalCountFromZero(required: Threshold, sights: seq<Sight>)
    ensures FinalCount(0, required, sights) == required
  {
  }
}
