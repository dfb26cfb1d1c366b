/** The case state machine's policy (app/cases/policy.py). */
module Policy {
  import opened Wrappers
  import opened Models

  /** At least one pass is always required: the case record refuses a smaller threshold. */
  type Threshold = n: nat | 1 <= n witness 1

  datatype CasePolicy = CasePolicy(requirePositiveClean: bool, defaultRequired: Threshold)

  function Successors(current: CaseStatus): set<CaseStatus> {
    match current
    case Open => {Triaged, ContextRequested, Investigating, HandoffRequested, Blocked, NeedsHuman, Closed}
    case Triaged => {HandoffRequested, Investigating, WaitingApproval, Blocked, NeedsHuman, Resolved, Closed}
    case ContextRequested => {Triaged, Investigating, NeedsHuman, Closed}
    case Investigating => {Triaged, WaitingApproval, HandoffRequested, Blocked, NeedsHuman, Resolved, Closed}
    case WaitingApproval => {HandoffRequested, Blocked, NeedsHuman, Closed}
    case HandoffRequested => {HandoffInProgress, VerificationPending, Blocked, Failed, NeedsHuman, Closed}
    case HandoffInProgress => {VerificationPending, Blocked, Failed, NeedsHuman, Resolved, Closed}
    case VerificationPending => {Resolved, Failed, NeedsHuman, HandoffInProgress, Closed}
    case Blocked => {Triaged, HandoffRequested, NeedsHuman, Failed, Closed}
    case Failed => {Triaged, HandoffRequested, NeedsHuman, Closed}
    case NeedsHuman => {Triaged, Investigating, HandoffRequested, Closed}
    case Resolved => {Open, Closed}
    case Closed => {Open}
  }

  predicate Terminal(s: CaseStatus) {
    s == Resolved || s == Closed
  }

  predicate Active(s: CaseStatus) {
    !Terminal(s)
  }

  predicate AllowedTransition(current: CaseStatus, target: CaseStatus, actor: Actor) {
    if target == Resolved then actor == Verifier && (current == target || Active(current))
    else current == target || target in Successors(current)
  }

  /** The resolution gate. */
  predicate CanResolve(policy: CasePolicy, c: SecurityCase) {
    var required := if c.requiredPasses == 0 then policy.defaultRequired else c.requiredPasses;
    && !c.scanDegraded
    && (policy.requirePositiveClean ==> c.lastPassing.Some?)
    && c.passCount >= required
  }

  /**
   What the table comes to, target by target: only the verifier resolves, and it may from any
   active status; every active case can be escalated and every case closed; only a finished case
   opens again; and engineering takes a case into its own statuses only after a handoff request.
   */
  lemma TransitionTargets(current: CaseStatus, actor: Actor)
    ensures AllowedTransition(current, Resolved, actor) <==> actor == Verifier && current != Closed
    ensures AllowedTransition(current, NeedsHuman, actor) <==> Active(current)
    ensures AllowedTransition(current, Closed, actor)
    ensures AllowedTransition(current, Open, actor) <==> current == Open || Terminal(current)
    ensures AllowedTransition(current, HandoffInProgress, actor)
       <==> current in {HandoffRequested, VerificationPending, HandoffInProgress}
    ensures AllowedTransition(current, VerificationPending, actor)
       <==> current in {HandoffRequested, HandoffInProgress, VerificationPending}
    ensures AllowedTransition(current, HandoffRequested, actor)
       <==> Active(current) && current !in {ContextRequested, HandoffInProgress, VerificationPending}
    ensures AllowedTransition(current, Triaged, actor)
       <==> Active(current) && current !in {WaitingApproval, HandoffRequested, HandoffInProgress, VerificationPending}
  {
  }

  /** And the remaining targets. */
  lemma WaitingTargets(current: CaseStatus, actor: Actor)
    ensures AllowedTransition(current, Blocked, actor)
       <==> current in {Open, Triaged, Investigating, WaitingApproval, HandoffRequested, HandoffInProgress, Blocked}
    ensures AllowedTransition(current, Failed, actor)
       <==> current in {HandoffRequested, HandoffInProgress, VerificationPending, Blocked, Failed}
    ensures AllowedTransition(current, Investigating, actor)
       <==> current in {Open, Triaged, ContextRequested, NeedsHuman, Investigating}
    ensures AllowedTransition(current, WaitingApproval, actor) <==> current in {Triaged, Investigating, WaitingApproval}
    ensures AllowedTransition(current, ContextRequested, actor) <==> current in {Open, ContextRequested}
  {
  }
}
