/** What rereading achieves: when a verifiable case resolves, and what becomes of its objectives. */
module Progress {
  import opened Wrappers
  import opened Dicts
  import opened Models
  import opened Policy
  import opened Lifecycle
  import opened Runs
  import opened Invariants
  import opened VerificationLoop
  import CaseMoves
  import Engineering
  import Ladder
  import LhpTokens
  import Preservation
  import Lhp = LhpHandoff

  datatype Sight = Nothing | Clean | Dirty

  /** What a reading says about a control. */
  function See(r: Reading, fingerprint: string): Sight {
    match Signal(r, fingerprint)
    case None => Nothing
    case Some(f) => if f.passed then Clean else Dirty
  }

  /** The pass counter after some sights: nothing leaves it, a failure resets it. */
  function CountAfter(start: nat, sights: seq<Sight>): nat {
    if sights == [] then start
    else
      var before := CountAfter(start, sights[..|sights| - 1]);
      match sights[|sights| - 1]
      case Nothing => before
      case Clean => before + 1
      case Dirty => 0
  }

  /** Some stretch of the sights ends in a pass with the counter at the threshold. */
  ghost predicate Reached(start: nat, required: nat, sights: seq<Sight>) {
    exists i: nat | i < |sights| :: sights[i] == Clean && CountAfter(start, sights[..i + 1]) >= required
  }

  /** The first sight that says anything is a pass. */
  predicate StartsClean(sights: seq<Sight>) {
    sights != [] && (sights[0] == Clean || (sights[0] == Nothing && StartsClean(sights[1..])))
  }

  /** The counter at the resolution: the threshold, unless it had reached that before the first pass. */
  function FinalCount(start: nat, required: Threshold, sights: seq<Sight>): nat {
    if start >= required && StartsClean(sights) then start + 1 else required
  }

  /** Nothing has been seen yet. */
  ghost predicate NothingSeen(sights: seq<Sight>) {
    forall i | 0 <= i < |sights| :: sights[i] == Nothing
  }

  lemma NothingSeenFront(sights: seq<Sight>)
    requires sights != []
    ensures NothingSeen(sights) <==> sights[0] == Nothing && NothingSeen(sights[1..])
  {
    if sights[0] == Nothing && NothingSeen(sights[1..]) {
      forall i | 0 <= i < |sights| ensures sights[i] == Nothing {
        assert i > 0 ==> sights[i] == sights[1..][i - 1];
      }
    }
  }

  lemma {:induction false} StartsCleanSnoc(sights: seq<Sight>, last: Sight)
    ensures StartsClean(sights + [last]) <==> StartsClean(sights) || (NothingSeen(sights) && last == Clean)
  {
    if sights == [] {
      assert sights + [last] == [last] && [last][1..] == [];
    } else {
      StartsCleanSnoc(sights[1..], last);
      assert (sights + [last])[1..] == sights[1..] + [last];
      assert NothingSeen(sights) <==> sights[0] == Nothing && NothingSeen(sights[1..]) by { NothingSeenFront(sights); }
    }
  }

  lemma {:induction false} NothingSeenNotClean(sights: seq<Sight>)
    requires NothingSeen(sights)
    ensures !StartsClean(sights)
  {
    if sights != [] {
      NothingSeenNotClean(sights[1..]);
    }
  }

  /** Before the threshold is reached the counter is below it, unless nothing was seen yet. */
  lemma {:induction false} CountBelow(start: nat, required: Threshold, sights: seq<Sight>)
    requires !Reached(start, required, sights)
    ensures NothingSeen(sights) ==> CountAfter(start, sights) == start
    ensures !NothingSeen(sights) ==> CountAfter(start, sights) < required && (start >= required ==> !StartsClean(sights))
  {
    if sights != [] {
      var front, last := sights[..|sights| - 1], sights[|sights| - 1];
      assert sights == front + [last];
      ReachedSnoc(start, required, front, last);
      CountBelow(start, required, front);
      StartsCleanSnoc(front, last);
      if NothingSeen(front) {
        NothingSeenNotClean(front);
      }
    }
  }

  /** So the read that reaches the threshold leaves the final count. */
  lemma FinalCountReached(start: nat, required: Threshold, sights: seq<Sight>, last: Sight)
    requires !Reached(start, required, sights) && Reached(start, required, sights + [last])
    ensures CountAfter(start, sights + [last]) == FinalCount(start, required, sights + [last])
  {
    ReachedSnoc(start, required, sights, last);
    CountBelow(start, required, sights);
    StartsCleanSnoc(sights, last);
    CountAfterSnoc(start, sights, last);
    assert [last][..0] == [];
  }

  /** And later sights do not change it. */
  lemma FinalCountKept(start: nat, required: Threshold, sights: seq<Sight>, last: Sight)
    requires Reached(start, required, sights)
    ensures FinalCount(start, required, sights + [last]) == FinalCount(start, required, sights)
  {
    StartsCleanSnoc(sights, last);
  }

  function Sights(rs: seq<Reading>, fingerprint: string): seq<Sight> {
    seq(|rs|, i requires 0 <= i < |rs| => See(rs[i], fingerprint))
  }

  function VerifyRun(policy: CasePolicy, settings: VerifierSettings, s: State, caseId: string, rs: seq<Reading>, cycle: string): State {
    if rs == [] then s
    else VerifyNow(policy, settings, VerifyRun(policy, settings, s, caseId, rs[..|rs| - 1], cycle), caseId, rs[|rs| - 1], cycle).state
  }

  predicate Live(settings: VerifierSettings) {
    settings.autoResolve && !settings.dryRun
  }

  lemma RereadSees(policy: CasePolicy, settings: VerifierSettings, c: SecurityCase, r: Reading, cycle: string)
    requires Live(settings) && c.resourceId != "" && Verifiable(c.status) && c.requiredPasses == policy.defaultRequired
    ensures var (d, sight) := (Reread(settings, c, r, cycle), See(r, c.fingerprint));
            && d.fingerprint == c.fingerprint && d.resourceId == c.resourceId && d.requiredPasses == c.requiredPasses
            && d.passCount == CountAfter(c.passCount, [sight])
            && d.status == if sight == Clean && d.passCount >= policy.defaultRequired then Resolved else c.status
  {
    assert [See(r, c.fingerprint)][..0] == [];
    hide Signal;
  }

  lemma CountAfterSnoc(start: nat, sights: seq<Sight>, last: Sight)
    ensures CountAfter(start, sights + [last]) == CountAfter(CountAfter(start, sights), [last])
  {
    assert (sights + [last])[..|sights|] == sights && [last][..0] == [];
  }

  lemma ReachedSnoc(start: nat, required: nat, sights: seq<Sight>, last: Sight)
    ensures Reached(start, required, sights + [last])
       <==> Reached(start, required, sights) || (last == Clean && CountAfter(start, sights + [last]) >= required)
  {
    hide CountAfter;
    var all := sights + [last];
    assert all[..|sights| + 1] == all;
    forall i: nat | i < |sights| ensures all[..i + 1] == sights[..i + 1] && all[i] == sights[i] {
    }
    if Reached(start, required, all) {
      var i: nat :| i < |all| && all[i] == Clean && CountAfter(start, all[..i + 1]) >= required;
      assert i < |sights| ==> sights[i] == Clean && CountAfter(start, sights[..i + 1]) >= required;
    }
    if Reached(start, required, sights) {
      var i: nat :| i < |sights| && sights[i] == Clean && CountAfter(start, sights[..i + 1]) >= required;
      assert all[i] == Clean && CountAfter(start, all[..i + 1]) >= required;
    }
    assert all[|sights|] == last;
  }

  ghost predicate StandsAt(policy: CasePolicy, s: State, c: SecurityCase, t: State, sights: seq<Sight>) {
    && CasesKeyed(t) && c.caseId in t.cases.m
    && t.cases.m[c.caseId].fingerprint == c.fingerprint && t.cases.m[c.caseId].resourceId == c.resourceId
    && t.cases.m[c.caseId].requiredPasses == c.requiredPasses
    && SameThresholds(s, t)
    && (if Reached(c.passCount, policy.defaultRequired, sights) then
          && t.cases.m[c.caseId].status == Resolved
          && t.cases.m[c.caseId].passCount == FinalCount(c.passCount, policy.defaultRequired, sights)
          && Settled(t, c.caseId, t.cases.m[c.caseId].passCount)
        else
          t.cases.m[c.caseId].status == c.status && t.cases.m[c.caseId].passCount == CountAfter(c.passCount, sights))
  }

  /** Every objective of the case is passed, with exactly this count. */
  ghost predicate Settled(t: State, caseId: string, count: nat) {
    forall o | o in t.objectives.m && t.objectives.m[o].caseId == caseId ::
      t.objectives.m[o].status == ObjectiveStatus.Pass && t.objectives.m[o].passCount == count
  }

  /** Objectives keep their owners and thresholds, and none comes or goes. */
  ghost predicate SameThresholds(s: State, t: State) {
    && t.objectives.m.Keys == s.objectives.m.Keys
    && forall o | o in s.objectives.m ::
         && t.objectives.m[o].caseId == s.objectives.m[o].caseId
         && t.objectives.m[o].requiredPasses == s.objectives.m[o].requiredPasses
  }

  lemma PassObjectivesSettles(d: Dict<string, Objective>, caseId: string, count: nat, now: int)
    ensures var e := PassObjectives(d, caseId, count, now);
            && e.m.Keys == d.m.Keys
            && (forall o | o in d.m :: e.m[o].caseId == d.m[o].caseId && e.m[o].requiredPasses == d.m[o].requiredPasses)
            && (forall o | o in d.m && d.m[o].caseId == caseId :: e.m[o].status == ObjectiveStatus.Pass && e.m[o].passCount == count)
  {
  }

  lemma VerifyCaseSettles(settings: VerifierSettings, s: State, id: string, now: int)
    requires id in s.cases.m && s.cases.m[id].caseId == id
    ensures SameThresholds(s, VerifyCase(settings, s, id, REASON, now).0)
    ensures CaseMoves.Resolves(settings, s.cases.m[id]) ==>
              Settled(VerifyCase(settings, s, id, REASON, now).0, id, s.cases.m[id].passCount)
  {
    hide CanResolve, PassObjectives, Commit, ResolvedCase, BoundKind;
    PassObjectivesSettles(s.objectives, id, s.cases.m[id].passCount, now);
  }

  lemma ObservationKeepsObjectives(policy: CasePolicy, s: State, f: Finding, cycle: string, stamp: Stamp)
    ensures ObserveFinding(policy, s, f, cycle, stamp).0.objectives == s.objectives
  {
    hide CaseByFingerprint, FailedCase, PassedCase, TriagedCase, OpenedCase, BoundKind;
  }

  lemma VerifyOneSettles(policy: CasePolicy, settings: VerifierSettings, l: Swept, c: SecurityCase, r: Reading, cycle: string)
    requires CasesKeyed(l.state) && c.caseId in l.state.cases.m && l.state.cases.m[c.caseId] == c && Active(c.status)
    ensures var (t, d) := (VerifyOne(policy, settings, l, c, r, cycle).state, Reread(settings, c, r, cycle));
            && SameThresholds(l.state, t)
            && (d.status == Resolved ==> Settled(t, c.caseId, d.passCount))
  {
    hide CasesKeyed, ObserveFinding, VerifyCase, CaseMoves.Resolves, Signal, Settled;
    var signal := Signal(r, c.fingerprint);
    if c.resourceId != "" && signal.Some? {
      SignalMatches(r, c.fingerprint);
      ObserveKnown(policy, l.state, c, signal.value, cycle, r.stamp);
      ObservedIdentity(c, signal.value, cycle, r.stamp.now);
      ObservationKeepsObjectives(policy, l.state, signal.value, cycle, r.stamp);
      VerifyCaseSettles(settings, ObserveFinding(policy, l.state, signal.value, cycle, r.stamp).0, c.caseId, r.stamp.now);
    }
  }

  lemma ThresholdsChain(s: State, t: State, u: State)
    requires SameThresholds(s, t) && SameThresholds(t, u)
    ensures SameThresholds(s, u)
  {
  }

  lemma VerifyStep(policy: CasePolicy, settings: VerifierSettings, s: State, c: SecurityCase, t: State, sights: seq<Sight>, r: Reading, cycle: string)
    requires Live(settings) && Verifiable(c.status) && c.resourceId != "" && c.requiredPasses == policy.defaultRequired
    requires StandsAt(policy, s, c, t, sights)
    ensures StandsAt(policy, s, c, VerifyNow(policy, settings, t, c.caseId, r, cycle).state, sights + [See(r, c.fingerprint)])
  {
    hide CasesKeyed, VerifyOne, Reread, CountAfter, Reached, Settled, SameThresholds, See;
    var d := t.cases.m[c.caseId];
    var sight := See(r, c.fingerprint);
    StoredUnderOwnId(t, c.caseId);
    CountAfterSnoc(c.passCount, sights, sight);
    ReachedSnoc(c.passCount, policy.defaultRequired, sights, sight);
    if Reached(c.passCount, policy.defaultRequired, sights) {
      FinalCountKept(c.passCount, policy.defaultRequired, sights, sight);
    } else if Reached(c.passCount, policy.defaultRequired, sights + [sight]) {
      FinalCountReached(c.passCount, policy.defaultRequired, sights, sight);
    }
    hide FinalCount;
    if Verifiable(d.status) {
      var l := Swept(t, EmptyReport);
      RereadSees(policy, settings, d, r, cycle);
      RereadIdentity(settings, d, r, cycle);
      VerifyOneMoves(policy, settings, l, d, r, cycle);
      KeyedPut(t, VerifyOne(policy, settings, l, d, r, cycle).state, Reread(settings, d, r, cycle));
      VerifyOneSettles(policy, settings, l, d, r, cycle);
      ThresholdsChain(s, t, VerifyOne(policy, settings, l, d, r, cycle).state);
    }
  }

  lemma StoredUnderOwnId(s: State, id: string)
    requires CasesKeyed(s) && id in s.cases.m
    ensures s.cases.m[id].caseId == id
  {
  }

  lemma SightsSnoc(rs: seq<Reading>, fingerprint: string)
    requires rs != []
    ensures Sights(rs, fingerprint) == Sights(rs[..|rs| - 1], fingerprint) + [See(rs[|rs| - 1], fingerprint)]
  {
    hide See;
  }

  /**
   Verification progress: with a live verifier, a verifiable case is resolved after some
   rereads exactly when one of them was a healthy pass that brought the counter to the
   threshold; until then it keeps its status and its counter says how far it got. Once
   resolved it has the final count, which is the threshold unless it was there from the start,
   and all its objectives are passed with that count, whatever they ask for.
   */
  lemma {:induction false} VerificationProgress(policy: CasePolicy, settings: VerifierSettings, s: State, c: SecurityCase,
                                                rs: seq<Reading>, cycle: string)
    requires CasesKeyed(s) && c.caseId in s.cases.m && s.cases.m[c.caseId] == c
    requires Live(settings) && Verifiable(c.status) && c.resourceId != "" && c.requiredPasses == policy.defaultRequired
    ensures StandsAt(policy, s, c, VerifyRun(policy, settings, s, c.caseId, rs, cycle), Sights(rs, c.fingerprint))
  {
    hide CasesKeyed, VerifyNow, StandsAt, Sights, See;
    if rs == [] {
      StandsAtStart(policy, s, c);
      assert Sights(rs, c.fingerprint) == [] by { NoSights(c.fingerprint); }
    } else {
      var n := |rs| - 1;
      VerificationProgress(policy, settings, s, c, rs[..n], cycle);
      VerifyStep(policy, settings, s, c, VerifyRun(policy, settings, s, c.caseId, rs[..n], cycle), Sights(rs[..n], c.fingerprint), rs[n], cycle);
      SightsSnoc(rs, c.fingerprint);
    }
  }

  lemma NoSights(fingerprint: string)
    ensures Sights([], fingerprint) == []
  {
  }

  lemma StandsAtStart(policy: CasePolicy, s: State, c: SecurityCase)
    requires CasesKeyed(s) && c.caseId in s.cases.m && s.cases.m[c.caseId] == c
    ensures StandsAt(policy, s, c, s, [])
  {
  }

  /** How many of the sights were passes. */
  function Passes(sights: seq<Sight>): nat {
    if sights == [] then 0 else Passes(sights[..|sights| - 1]) + if sights[|sights| - 1] == Clean then 1 else 0
  }

  /** From count zero and without a failing read, degraded and absent reads only delay: it is the N-th pass that resolves, and no earlier one. */
  lemma {:induction false} ResolvesOnNthPass(required: nat, sights: seq<Sight>)
    requires 1 <= required && forall i | 0 <= i < |sights| :: sights[i] != Dirty
    ensures CountAfter(0, sights) == Passes(sights)
    ensures Reached(0, required, sights) <==> Passes(sights) >= required
  {
    if sights != [] {
      var n := |sights| - 1;
      ResolvesOnNthPass(required, sights[..n]);
      assert sights == sights[..n] + [sights[n]];
      ReachedSnoc(0, required, sights[..n], sights[n]);
    }
  }

  /**
   In terms of the store: a verifiable case at count zero whose rereads show no failure is
   resolved exactly once N of them were healthy passes, however many degraded or absent ones lie
   between them.
   */
  lemma ResolvesOnNthHealthyRead(policy: CasePolicy, settings: VerifierSettings, s: State, c: SecurityCase, rs: seq<Reading>, cycle: string)
    requires CasesKeyed(s) && c.caseId in s.cases.m && s.cases.m[c.caseId] == c
    requires Live(settings) && Verifiable(c.status) && c.resourceId != "" && c.requiredPasses == policy.defaultRequired
    requires c.passCount == 0 && forall i | 0 <= i < |rs| :: See(rs[i], c.fingerprint) != Dirty
    ensures var t := VerifyRun(policy, settings, s, c.caseId, rs, cycle);
            && c.caseId in t.cases.m
            && (t.cases.m[c.caseId].status == Resolved <==> Passes(Sights(rs, c.fingerprint)) >= policy.defaultRequired)
  {
    hide CasesKeyed, VerifyRun, Reached, Settled, SameThresholds, See, Passes;
    VerificationProgress(policy, settings, s, c, rs, cycle);
    ResolvesOnNthPass(policy.defaultRequired, Sights(rs, c.fingerprint));
  }
}
