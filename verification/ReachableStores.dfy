/** What a reader of a reachable store may rely on: the audit trail, the references, and stable records. */
module ReachableStores {
  import opened Wrappers
  import opened Dicts
  import opened Models
  import opened Policy
  import opened Lifecycle
  import opened Audit
  import opened Runs
  import opened Invariants
  import opened Preservation

  /** Event sourcing: after any run, replaying a case's own events yields the case, and nothing else has events. */
  lemma EventSourcing(policy: CasePolicy, actions: seq<Action>, caseId: string)
    requires AdmissibleRun(policy, actions)
    ensures var s := Run(policy, actions);
            if caseId in s.cases.m then Replay(LogOf(s.events, caseId)) == Project(s.cases.m[caseId])
            else LogOf(s.events, caseId) == []
  {
    hide Replay, LogOf, Project, Run;
    Reachable(policy, actions);
    var s := Run(policy, actions);
    if caseId !in s.cases.m {
      UnbornHasNoLog(s, caseId);
    }
  }

  /** So two runs that leave the same trail for a case agree on its status, count, flag, handoffs and links. */
  lemma SameTrailSameCase(policy: CasePolicy, a: seq<Action>, b: seq<Action>, caseId: string)
    requires AdmissibleRun(policy, a) && AdmissibleRun(policy, b)
    requires caseId in Run(policy, a).cases.m && caseId in Run(policy, b).cases.m
    requires LogOf(Run(policy, a).events, caseId) == LogOf(Run(policy, b).events, caseId)
    ensures Project(Run(policy, a).cases.m[caseId]) == Project(Run(policy, b).cases.m[caseId])
  {
    hide Replay, LogOf, Project, Run;
    EventSourcing(policy, a, caseId);
    EventSourcing(policy, b, caseId);
  }

  /**
   The trail stops short of severity: two refreshing failures that differ in it append the same
   event, so the recorded severity of a refreshed case cannot be read from its events.
   */
  lemma RefreshedSeverityIsNotAudited(policy: CasePolicy, s: State, c: SecurityCase, f: Finding, g: Finding, cycle: string, stamp: Stamp)
    requires c.caseId in s.cases.m && s.cases.m[c.caseId] == c && Active(c.status)
    requires g.findingId == f.findingId && g.severity != f.severity
    requires f.signature != c.signature && g.signature != c.signature
    ensures var (left, right) := (RecordFailing(policy, s, f, Some(c), cycle, stamp).0, RecordFailing(policy, s, g, Some(c), cycle, stamp).0);
            && left.events == right.events
            && left.cases.m[c.caseId].severity != right.cases.m[c.caseId].severity
  {
    hide BoundText;
  }

  /** One case per fingerprint, one handoff per key, and every reference of a case resolves to its own handoff and that handoff's one objective. */
  lemma ReferentialIntegrity(policy: CasePolicy, actions: seq<Action>)
    requires AdmissibleRun(policy, actions)
    ensures var s := Run(policy, actions);
            && (forall k, l | k in s.cases.m && l in s.cases.m && s.cases.m[k].fingerprint == s.cases.m[l].fingerprint :: k == l)
            && (forall k, l | k in s.handoffs.m && l in s.handoffs.m
                && s.handoffs.m[k].idempotencyKey == s.handoffs.m[l].idempotencyKey :: k == l)
            && (forall k, h | k in s.cases.m && h in s.cases.m[k].handoffIds ::
                  h in s.handoffs.m && s.handoffs.m[h].caseId == k && exists o :: ObjectiveOf(s, o, h))
            && (forall o, p, h | ObjectiveOf(s, o, h) && ObjectiveOf(s, p, h) :: o == p)
  {
    hide Run, CaseSane, Replay, LogOf, Project;
    Reachable(policy, actions);
    var s := Run(policy, actions);
    forall k, h | k in s.cases.m && h in s.cases.m[k].handoffIds
      ensures h in s.handoffs.m && s.handoffs.m[h].caseId == k && exists o :: ObjectiveOf(s, o, h)
    {
      assert CaseLinked(s, s.cases.m[k]);
    }
  }

  /** Between operations a case has one of eight statuses, and one with engineering has a handoff. */
  lemma CasesAtRest(policy: CasePolicy, actions: seq<Action>, caseId: string)
    requires AdmissibleRun(policy, actions) && caseId in Run(policy, actions).cases.m
    ensures var c := Run(policy, actions).cases.m[caseId];
            && c.status in {Triaged, NeedsHuman, HandoffRequested, HandoffInProgress, VerificationPending, Blocked, Failed, Resolved}
            && (c.status in {HandoffRequested, HandoffInProgress, VerificationPending} ==> c.handoffIds != [])
  {
    hide Inv, Run, LabelsStable;
    Reachable(policy, actions);
    StoredCase(policy, Run(policy, actions), caseId);
  }

  /** Every stored case survives re-validation on reload unchanged. */
  lemma StoredCasesAreStable(policy: CasePolicy, actions: seq<Action>, caseId: string)
    requires AdmissibleRun(policy, actions) && caseId in Run(policy, actions).cases.m
    ensures ScrubCase(Run(policy, actions).cases.m[caseId]) == Run(policy, actions).cases.m[caseId]
  {
    hide Inv, Run, CaseSane;
    Reachable(policy, actions);
    StoredCase(policy, Run(policy, actions), caseId);
    SaneCaseIsStable(policy, Run(policy, actions).cases.m[caseId]);
  }
}
