/** What every reachable store satisfies: identities, references, resting statuses, and the audit trail. */
module Invariants {
  import opened Wrappers
  import opened Dicts
  import opened Models
  import opened Labels
  import opened Policy
  import opened Lifecycle
  import opened Audit
  import opened Runs
  import Lhp = LhpHandoff

  // --- the invariant, part by part ---

  /** Records sit under their own ids, and at most one case has a given fingerprint. */
  ghost predicate CasesKeyed(s: State) {
    && (forall k | k in s.cases.m :: s.cases.m[k].caseId == k)
    && (forall k, l | k in s.cases.m && l in s.cases.m && s.cases.m[k].fingerprint == s.cases.m[l].fingerprint :: k == l)
  }

  /** Handoffs sit under their own ids, and at most one has a given idempotency key. */
  ghost predicate HandoffsKeyed(s: State) {
    && (forall k | k in s.handoffs.m :: s.handoffs.m[k].handoffId == k && s.handoffs.m[k].idempotencyKey != "")
    && (forall k, l | k in s.handoffs.m && l in s.handoffs.m
        && s.handoffs.m[k].idempotencyKey == s.handoffs.m[l].idempotencyKey :: k == l)
  }

  ghost predicate ObjectiveOf(s: State, objectiveId: string, handoffId: string) {
    && objectiveId in s.objectives.m && handoffId in s.handoffs.m
    && s.objectives.m[objectiveId].handoffId == handoffId
    && s.objectives.m[objectiveId].caseId == s.handoffs.m[handoffId].caseId
  }

  /** Every handoff has an objective of its own case, every objective a handoff, and never two the same. */
  ghost predicate ObjectivesLinked(s: State) {
    && (forall h | h in s.handoffs.m :: exists o :: ObjectiveOf(s, o, h))
    && (forall o | o in s.objectives.m :: ObjectiveOf(s, o, s.objectives.m[o].handoffId))
    && (forall o, p | o in s.objectives.m && p in s.objectives.m
        && s.objectives.m[o].handoffId == s.objectives.m[p].handoffId :: o == p)
  }

  /** Each id a case lists names a stored handoff of that case. */
  ghost predicate CaseLinked(s: State, c: SecurityCase) {
    forall h | h in c.handoffIds :: h in s.handoffs.m && s.handoffs.m[h].caseId == c.caseId
  }

  ghost predicate Linked(s: State) {
    forall k | k in s.cases.m :: CaseLinked(s, s.cases.m[k])
  }

  /** The statuses that a case can have between operations. */
  predicate AtRest(status: CaseStatus) {
    status in {Triaged, NeedsHuman, HandoffRequested, HandoffInProgress, VerificationPending, Blocked, Failed, Resolved}
  }

  predicate WithEngineering(status: CaseStatus) {
    status in {HandoffRequested, HandoffInProgress, VerificationPending}
  }

  ghost predicate CaseSane(policy: CasePolicy, c: SecurityCase) {
    && AtRest(c.status)
    && (WithEngineering(c.status) ==> c.handoffIds != [])
    && c.requiredPasses == policy.defaultRequired
    && (c.passCount > 0 ==> c.lastPassing.Some?)
    && LabelsStable(c.title, c.resourceId, c.summary)
  }

  /** Re-validation on reload would leave the three texts as they are. */
  predicate LabelsStable(title: string, resource: string, summary: string) {
    && SanitizeLabel(title, TITLE_LIMIT) == title
    && SanitizeLabel(resource, RESOURCE_LIMIT) == resource
    && SanitizeLabel(summary, SUMMARY_LIMIT) == summary
  }

  lemma SaneCaseIsStable(policy: CasePolicy, c: SecurityCase)
    requires CaseSane(policy, c)
    ensures ScrubCase(c) == c
  {
    hide SanitizeLabel;
  }

  ghost predicate Sane(policy: CasePolicy, s: State) {
    forall k | k in s.cases.m :: CaseSane(policy, s.cases.m[k])
  }

  /** The trail of every case replays to the case, and no event is about a case that does not exist. */
  ghost predicate Audited(s: State) {
    && (forall k | k in s.cases.m :: Replay(LogOf(s.events, k)) == Project(s.cases.m[k]))
    && (forall e | e in s.events :: e.caseId in s.cases.m)
  }

  ghost predicate CallbacksKeyed(s: State) {
    forall k | k in s.callbacks.m :: s.callbacks.m[k].eventId == k && k != ""
  }

  ghost predicate Inv(policy: CasePolicy, s: State) {
    && CasesKeyed(s) && HandoffsKeyed(s) && ObjectivesLinked(s) && Linked(s)
    && Sane(policy, s) && Audited(s) && CallbacksKeyed(s)
  }

  // --- committing one case ---

  /** What a commit has to respect locally to keep the invariant. */
  ghost predicate Lawful(policy: CasePolicy, s: State, c: SecurityCase, events: seq<Event>) {
    CaseSane(policy, c) && Fits(s, c, events)
  }

  /** The case keeps its control, lists stored handoffs of its own, and the events tell how it came about. */
  ghost predicate Fits(s: State, c: SecurityCase, events: seq<Event>) {
    && CaseLinked(s, c)
    && (if c.caseId in s.cases.m then s.cases.m[c.caseId].fingerprint == c.fingerprint
        else forall k | k in s.cases.m :: s.cases.m[k].fingerprint != c.fingerprint)
    && (forall e | e in events :: e.caseId == c.caseId)
    && Replay(LogOf(s.events, c.caseId) + events) == Project(c)
  }

  lemma CommitAudited(s: State, c: SecurityCase, events: seq<Event>)
    requires Audited(s) && Fits(s, c, events)
    ensures Audited(Commit(s, c, events))
  {
    hide Replay, Project, CaseLinked;
    var t := Commit(s, c, events);
    forall k | k in t.cases.m ensures Replay(LogOf(t.events, k)) == Project(t.cases.m[k]) {
      LogOfAppend(s.events, events, k);
      if k == c.caseId {
        LogOfOwn(events, k);
      } else {
        LogOfOthers(events, k);
        assert LogOf(s.events, k) + [] == LogOf(s.events, k);
      }
    }
  }

  lemma LinkKept(s: State, t: State, c: SecurityCase)
    requires CaseLinked(s, c) && t.handoffs == s.handoffs
    ensures CaseLinked(t, c)
  {
  }

  lemma CommitKeyed(s: State, c: SecurityCase, events: seq<Event>)
    requires CasesKeyed(s) && Fits(s, c, events)
    ensures CasesKeyed(Commit(s, c, events))
  {
    hide Replay, LogOf, Project, CaseLinked;
  }

  lemma CommitCaseLinks(s: State, c: SecurityCase, events: seq<Event>)
    requires Linked(s) && CaseLinked(s, c)
    ensures Linked(Commit(s, c, events))
  {
    hide CaseLinked;
    var t := Commit(s, c, events);
    forall k | k in t.cases.m ensures CaseLinked(t, t.cases.m[k]) {
      assert k in s.cases.m ==> CaseLinked(s, s.cases.m[k]);
      LinkKept(s, t, t.cases.m[k]);
    }
  }

  lemma CommitCases(s: State, c: SecurityCase, events: seq<Event>)
    requires CasesKeyed(s) && Linked(s) && Fits(s, c, events)
    ensures CasesKeyed(Commit(s, c, events)) && Linked(Commit(s, c, events))
  {
    CommitKeyed(s, c, events);
    hide CasesKeyed, Linked, CaseLinked, Replay, LogOf, Project;
    CommitCaseLinks(s, c, events);
  }

  lemma CommitSane(policy: CasePolicy, s: State, c: SecurityCase, events: seq<Event>)
    requires Sane(policy, s) && CaseSane(policy, c)
    ensures Sane(policy, Commit(s, c, events))
  {
    hide CaseSane;
  }

  lemma CommitKeepsInv(policy: CasePolicy, s: State, c: SecurityCase, events: seq<Event>)
    requires Inv(policy, s) && Lawful(policy, s, c, events)
    ensures Inv(policy, Commit(s, c, events))
  {
    hide CasesKeyed, Linked, Sane, Audited, ObjectivesLinked, CaseSane, Fits;
    CommitAudited(s, c, events);
    CommitCases(s, c, events);
    CommitSane(policy, s, c, events);
    ObjectivesLinkedKept(s, Commit(s, c, events));
  }

  lemma ObjectivesLinkedKept(s: State, t: State)
    requires ObjectivesLinked(s) && t.handoffs == s.handoffs && t.objectives == s.objectives
    ensures ObjectivesLinked(t)
  {
    forall h | h in t.handoffs.m ensures exists o :: ObjectiveOf(t, o, h) {
      var o :| ObjectiveOf(s, o, h);
      assert ObjectiveOf(t, o, h);
    }
    forall o | o in t.objectives.m ensures ObjectiveOf(t, o, t.objectives.m[o].handoffId) {
      assert ObjectiveOf(s, o, s.objectives.m[o].handoffId);
    }
  }

  /** A case that does not exist yet has no events. */
  lemma UnbornHasNoLog(s: State, caseId: string)
    requires Audited(s) && caseId !in s.cases.m
    ensures LogOf(s.events, caseId) == []
  {
    LogOfOthers(s.events, caseId);
  }
}
