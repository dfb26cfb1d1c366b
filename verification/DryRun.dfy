/** What the verifier answers when it must not resolve (app/cases/verifier.py): the flag that a dry run reports. */
module DryRun {
  import opened Wrappers
  import opened Dicts
  import opened Models
  import opened Policy
  import opened Lifecycle
  import opened Runs
  import opened Invariants
  import opened AllClear
  import CaseMoves
  import Preservation

  /** The same settings, with resolving switched on. */
  function SwitchedOn(settings: VerifierSettings): VerifierSettings {
    settings.(autoResolve := true, dryRun := false)
  }

  predicate IsResolved(s: State, id: string) {
    id in s.cases.m && s.cases.m[id].status == Resolved
  }

  /**
   Whatever the settings, the answer about a stored case says that it would resolve if and only if
   the same call with resolving switched on would move it to resolved, and that it did resolve if
   and only if this very call moved it there; a call that does not resolve leaves the store equal.
   Nothing is answered about a case that is not stored.
   */
  lemma WouldResolveIff(settings: VerifierSettings, s: State, id: string, reason: string, now: int)
    requires CaseMoves.OwnIds(s)
    ensures var (t, r) := VerifyCase(settings, s, id, reason, now);
            var on := VerifyCase(SwitchedOn(settings), s, id, reason, now).0;
            && (r.Some? <==> id in s.cases.m)
            && (r.Some? ==>
                  && (r.value.wouldResolve <==> !IsResolved(s, id) && IsResolved(on, id))
                  && (r.value.resolved <==> !IsResolved(s, id) && IsResolved(t, id))
                  && r.value.subject == t.cases.m[id])
            && (!settings.autoResolve || settings.dryRun ==> t == s)
            && (t != s ==> IsResolved(t, id))
  {
    hide CanResolve, PassObjectives, BoundKind;
  }

  /**
   Over whole runs: the verifier says that a case would resolve, live or not, if and only if the
   case is unresolved, its last scan signal was a passing observation, and at least the required
   number of passes were observed since the last failing one.
   */
  lemma WouldResolveOverRuns(policy: CasePolicy, actions: seq<Action>, settings: VerifierSettings, id: string, reason: string, now: int)
    requires AdmissibleRun(policy, actions) && id in Run(policy, actions).cases.m
    ensures var s := Run(policy, actions);
            var (c, r) := (s.cases.m[id], VerifyCase(settings, s, id, reason, now).1);
            && r.Some?
            && (r.value.wouldResolve
                <==> && c.status != Resolved
                     && LastSignal(actions, c.fingerprint, id) == Signal.Passed
                     && CleanStreak(actions, c.fingerprint) >= policy.defaultRequired)
            && (r.value.resolved <==> r.value.wouldResolve && settings.autoResolve && !settings.dryRun)
  {
    hide Inv, Run, AdmissibleFrom, CaseSane, CanResolve, PassObjectives, Commit, BoundKind, CleanStreak, LastSignal;
    var s := Run(policy, actions);
    var c := s.cases.m[id];
    RunRemembers(policy, actions);
    Preservation.Reachable(policy, actions);
    Preservation.StoredCase(policy, s, id);
    GateMeaning(policy, settings.policy, c);
    StreakNeedsPass(actions, c.fingerprint, id);
  }

  /**
   A call that resolves marks the objectives of the case, every one of them and no other, as passed
   with the count of the case, checked now; it touches nothing else but the case and the trail.
   */
  lemma ResolutionMarks(settings: VerifierSettings, s: State, id: string, reason: string, now: int)
    requires CaseMoves.OwnIds(s) && id in s.cases.m && VerifyCase(settings, s, id, reason, now).1.value.resolved
    ensures var t := VerifyCase(settings, s, id, reason, now).0;
            && t.objectives.keys == s.objectives.keys
            && (forall o | o in s.objectives.m && s.objectives.m[o].caseId == id ::
                  && t.objectives.m[o].status == Pass && t.objectives.m[o].passCount == s.cases.m[id].passCount
                  && t.objectives.m[o].lastChecked == Some(now)
                  && t.objectives.m[o] == s.objectives.m[o].(status := Pass, passCount := s.cases.m[id].passCount, lastChecked := Some(now)))
            && (forall o | o in s.objectives.m && s.objectives.m[o].caseId != id :: t.objectives.m[o] == s.objectives.m[o])
            && t.cases.m == s.cases.m[id := t.cases.m[id]] && t.handoffs == s.handoffs && t.callbacks == s.callbacks && t.findings == s.findings
            && |t.events| == |s.events| + 1
  {
    hide CanResolve, BoundKind;
  }
}
