/** Runs: any interleaving of observations, operator actions, handoff requests, callbacks and verifier steps. */
module Runs {
  import opened Wrappers
  import opened Models
  import opened Policy
  import opened Lifecycle
  import Lhp = LhpHandoff

  /** `healthy` records whether the scan behind an observation was; the service is not told. */
  datatype Op =
    | Observe(finding: Finding, cycle: string, healthy: bool)
    | NoteDegraded(caseId: string, cycle: string)
    | DoTriage(caseId: string, actor: Actor)
    | DoNeedsHuman(caseId: string, reason: string, actor: Actor)
    | DoAcknowledge(caseId: string, operator: string)
    | AskHandoff(caseId: string, finding: Finding, passes: nat)
    | NoteIssue(caseId: string, url: string, id: string)
    | Deliver(raw: Lhp.RawUpdate)
    | Verify(caseId: string, reason: string, settings: VerifierSettings)

  /** One operation and what its surroundings supply. */
  datatype Action = Action(op: Op, stamp: Stamp)

  /** The store after an operation, and whether the operation raised. */
  function Perform(policy: CasePolicy, s: State, a: Action): (State, bool) {
    var now := a.stamp.now;
    match a.op
    case Observe(f, cycle, _) => (ObserveFinding(policy, s, f, cycle, a.stamp).0, false)
    case NoteDegraded(id, cycle) => (NoteScanDegraded(s, id, cycle, now), false)
    case DoTriage(id, actor) => var r := Triage(s, id, actor, now); (r.state, r.result.Err?)
    case DoNeedsHuman(id, reason, actor) => var r := MarkNeedsHuman(s, id, reason, actor, now); (r.state, r.result.Err?)
    case DoAcknowledge(id, operator) => (Acknowledge(s, id, operator, now), false)
    case AskHandoff(id, f, passes) => var r := RequestHandoff(s, id, f, passes, a.stamp); (r.state, r.result.Err?)
    case NoteIssue(id, url, issue) => (RecordIssue(s, id, url, issue, now), false)
    case Deliver(raw) =>
      (match Lhp.ValidateUpdate(raw)
       case Err(_) => (s, true)
       case Ok(u) => var r := RecordEngineeringUpdate(s, u, now); (r.state, r.result.Err?))
    case Verify(id, reason, settings) => (VerifyCase(settings, s, id, reason, now).0, false)
  }

  function Step(policy: CasePolicy, s: State, a: Action): State {
    Perform(policy, s, a).0
  }

  function RunFrom(policy: CasePolicy, s: State, actions: seq<Action>): State {
    if actions == [] then s
    else Step(policy, RunFrom(policy, s, actions[..|actions| - 1]), actions[|actions| - 1])
  }

  /** The store after a run that starts empty. */
  function Run(policy: CasePolicy, actions: seq<Action>): State {
    RunFrom(policy, EmptyState(), actions)
  }

  /** Generated ids are new and plain, and observed findings went through their scrubbing constructor. */
  ghost predicate Admissible(s: State, a: Action) {
    && (a.op.Observe? ==> a.stamp.caseId !in s.cases.m && Scrubbed(a.op.finding))
    && (a.op.AskHandoff? ==>
          && a.stamp.handoffId !in s.handoffs.m && a.stamp.objectiveId !in s.objectives.m
          && BoundText(a.stamp.handoffId) == a.stamp.handoffId)
  }

  ghost predicate Scrubbed(f: Finding) {
    exists raw: Finding :: f == ScrubFinding(raw)
  }

  ghost predicate AdmissibleFrom(policy: CasePolicy, s: State, actions: seq<Action>) {
    actions != [] ==>
      && AdmissibleFrom(policy, s, actions[..|actions| - 1])
      && Admissible(RunFrom(policy, s, actions[..|actions| - 1]), actions[|actions| - 1])
  }

  ghost predicate AdmissibleRun(policy: CasePolicy, actions: seq<Action>) {
    AdmissibleFrom(policy, EmptyState(), actions)
  }

  lemma {:induction false} RunFromAppend(policy: CasePolicy, s: State, a: seq<Action>, b: seq<Action>)
    ensures RunFrom(policy, s, a + b) == RunFrom(policy, RunFrom(policy, s, a), b)
    ensures AdmissibleFrom(policy, s, a + b)
       <==> AdmissibleFrom(policy, s, a) && AdmissibleFrom(policy, RunFrom(policy, s, a), b)
  {
    hide Step, Admissible;
    if b == [] {
      assert a + b == a;
    } else {
      var n := |b| - 1;
      assert (a + b)[..|a| + n] == a + b[..n];
      RunFromAppend(policy, s, a, b[..n]);
    }
  }

  lemma RunNone(policy: CasePolicy, s: State)
    ensures RunFrom(policy, s, []) == s && AdmissibleFrom(policy, s, [])
  {
  }

  lemma RunOne(policy: CasePolicy, s: State, a: Action)
    ensures RunFrom(policy, s, [a]) == Step(policy, s, a)
    ensures AdmissibleFrom(policy, s, [a]) <==> Admissible(s, a)
  {
    hide Step, Admissible;
    assert [a][..0] == [];
  }
}
