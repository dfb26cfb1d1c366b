/** What the handoff protocol lets through: which updates succeed, and the ordinary way from a failure to an all-clear. */
module Protocol {
  import opened Wrappers
  import opened Dicts
  import opened Models
  import opened Policy
  import opened Lifecycle
  import opened Runs
  import opened Invariants
  import opened CaseMoves
  import opened Thresholds
  import opened VerificationLoop
  import opened Progress
  import Callbacks
  import Engineering
  import Labels
  import LhpTokens
  import LooseEnds
  import Preservation
  import Lhp = LhpHandoff

  // --- which updates succeed ---

  /** The statuses from which engineering may report `target`. */
  function Predecessors(target: Lhp.HandoffStatus): set<Lhp.HandoffStatus> {
    match target
    case Requested => {Lhp.Requested}
    case Accepted => {Lhp.Requested, Lhp.Accepted, Lhp.Blocked, Lhp.Failed, Lhp.NeedsHuman}
    case InProgress => {Lhp.Accepted, Lhp.InProgress, Lhp.NeedsHuman}
    case ChangePlanned => {Lhp.InProgress, Lhp.ChangePlanned}
    case Implemented => {Lhp.InProgress, Lhp.ChangePlanned, Lhp.Implemented}
    case Blocked => {Lhp.Requested, Lhp.Accepted, Lhp.InProgress, Lhp.ChangePlanned, Lhp.Blocked}
    case Failed =>
      {Lhp.Requested, Lhp.Accepted, Lhp.InProgress, Lhp.ChangePlanned, Lhp.Implemented, Lhp.Verified, Lhp.Blocked, Lhp.Failed}
    case NeedsHuman =>
      {Lhp.Requested, Lhp.Accepted, Lhp.InProgress, Lhp.ChangePlanned, Lhp.Implemented, Lhp.Verified, Lhp.Blocked, Lhp.Failed, Lhp.NeedsHuman}
    case Verified => {}
    case Resolved => {}
    case Cancelled =>
      {Lhp.Requested, Lhp.Accepted, Lhp.InProgress, Lhp.ChangePlanned, Lhp.Implemented, Lhp.Blocked, Lhp.Failed, Lhp.NeedsHuman, Lhp.Cancelled}
    case Expired =>
      {Lhp.Requested, Lhp.Accepted, Lhp.InProgress, Lhp.ChangePlanned, Lhp.Implemented, Lhp.Blocked, Lhp.Failed, Lhp.NeedsHuman, Lhp.Expired}
  }

  lemma AllowedIff(current: Lhp.HandoffStatus, target: Lhp.HandoffStatus)
    ensures Lhp.AllowedHandoffTransition(current, target, Lhp.Engineering) <==> current in Predecessors(target)
  {
  }

  /**
   An update new to the inbox, under a stored handoff, succeeds if and only if the handoff stands
   at one of the statuses that the reported one may follow; the handoff then has that status, and
   the inbox holds the statuses it led to.
   */
  lemma UpdateSucceedsIff(s: State, u: Lhp.HandoffUpdate, now: int)
    requires HandoffsKeyed(s) && CallbackFor(s, u.eventId).None? && u.handoffId in s.handoffs.m
    ensures var r := RecordEngineeringUpdate(s, u, now);
            && (r.result.Ok? <==> s.handoffs.m[u.handoffId].status in Predecessors(u.status))
            && (r.result.Ok? ==>
                  && r.result.value.created && !r.result.value.duplicate
                  && u.handoffId in r.state.handoffs.m && r.state.handoffs.m[u.handoffId].status == u.status
                  && r.result.value.handoff == Some(r.state.handoffs.m[u.handoffId])
                  && var token := LhpTokens.SanitizeToken(u.eventId, Lhp.ID_LIMIT);
                     && token in r.state.callbacks.m && r.state.callbacks.m[token].handoffStatus == u.status
                     && r.state.callbacks.m[token].handoffId == LhpTokens.SanitizeToken(u.handoffId, 180)
                     && r.state.callbacks.m[token].caseId == LhpTokens.SanitizeToken(u.caseId, 180)
                     && r.state.callbacks.m[token].caseStatus
                        == if u.caseId in s.cases.m
                           then Some(StatusAfterUpdate(s.cases.m[u.caseId].status, u.updateType, u.status)) else None)
            && (r.result.Err? ==> r.state == s && r.result.error == InvalidHandoffTransition(s.handoffs.m[u.handoffId].status, u.status))
  {
    hide Predecessors, Lhp.AllowedHandoffTransition, CallbackFor, StatusAfterUpdate, LhpTokens.SanitizeToken, BoundKind;
    AllowedIff(s.handoffs.m[u.handoffId].status, u.status);
  }

  /**
   An update that succeeds, new or redelivered, answers with its handoff and its case as they are
   stored after it, and says which of the two it was; a redelivery changes nothing.
   */
  lemma UpdateAnswers(s: State, u: Lhp.HandoffUpdate, now: int)
    requires CasesKeyed(s) && HandoffsKeyed(s)
    ensures var r := RecordEngineeringUpdate(s, u, now);
            r.result.Ok? ==>
              && r.result.value.handoff == r.state.handoffs.Get(u.handoffId)
              && r.result.value.subject == r.state.cases.Get(u.caseId)
              && (r.result.value.duplicate <==> CallbackFor(s, u.eventId).Some?)
              && (r.result.value.created <==> !r.result.value.duplicate)
              && (r.result.value.duplicate ==> r.state == s)
  {
    hide Lhp.AllowedHandoffTransition, CallbackFor, LhpTokens.SanitizeToken, BoundKind;
  }

  /** An update as it arrives: its four ids say something, and only the NOC reports the verifier's statuses. */
  ghost predicate WellFormedUpdate(raw: Lhp.RawUpdate) {
    && Labels.Says(raw.handoffId) && Labels.Says(raw.caseId) && Labels.Says(raw.eventId) && Labels.Says(raw.correlationId)
    && (raw.status == Lhp.Verified || raw.status == Lhp.Resolved ==> raw.sourceLoop == Lhp.Noc)
  }

  /**
   A delivery goes through if and only if it is well formed and either a redelivery, or about a
   stored handoff whose status may be followed by the reported one.
   */
  lemma DeliverySucceedsIff(policy: CasePolicy, s: State, a: Action)
    requires a.op.Deliver?
    ensures var raw := a.op.raw;
            var handoff := LhpTokens.SanitizeToken(raw.handoffId, Lhp.ID_LIMIT);
            !Perform(policy, s, a).1
            <==> (&& WellFormedUpdate(raw)
                  && (|| Callbacks.EventToken(raw) in s.callbacks.m
                      || (handoff in s.handoffs.m && s.handoffs.m[handoff].status in Predecessors(raw.status))))
  {
    hide Perform, Predecessors, Lhp.AllowedHandoffTransition, LhpTokens.SanitizeToken, Labels.Says, Labels.Blank;
    var raw := a.op.raw;
    Callbacks.DeliveryRaisesIff(policy, s, a);
    Labels.BlankSaysNothing(raw.handoffId);
    Labels.BlankSaysNothing(raw.caseId);
    Labels.BlankSaysNothing(raw.eventId);
    Labels.BlankSaysNothing(raw.correlationId);
    LhpTokens.TokenShape(raw.eventId, Lhp.ID_LIMIT);
    if Lhp.ValidateUpdate(raw).Ok? {
      var u := Lhp.ValidateUpdate(raw).value;
      if u.handoffId in s.handoffs.m {
        AllowedIff(s.handoffs.m[u.handoffId].status, u.status);
      }
    }
  }

  // --- the ordinary way: requested, accepted, in progress, implemented, verified ---

  function Report(h: string, id: string, updateType: Lhp.UpdateType, status: Lhp.HandoffStatus, event: string): Lhp.RawUpdate {
    Lhp.RawUpdate(h, id, Lhp.Engineering, updateType, status, event, event)
  }

  lemma ReportIsValid(h: string, id: string, updateType: Lhp.UpdateType, status: Lhp.HandoffStatus, event: string)
    requires LooseEnds.PlainToken(h) && LooseEnds.PlainToken(id) && LooseEnds.PlainToken(event)
    requires status != Lhp.Verified && status != Lhp.Resolved
    ensures Lhp.ValidateUpdate(Report(h, id, updateType, status, event)) == Ok(Lhp.HandoffUpdate(h, id, Lhp.Engineering, updateType, status, event))
    ensures Callbacks.EventToken(Report(h, id, updateType, status, event)) == event
  {
    Callbacks.ValidatedEventId(Report(h, id, updateType, status, event));
    hide LhpTokens.RequireToken, Callbacks.EventToken;
  }

  /** The case and its handoff, as far as the way goes. */
  ghost predicate At(s: State, f: Finding, id: string, h: string, stands: Lhp.HandoffStatus, status: CaseStatus) {
    && id in s.cases.m && s.cases.m[id].status == status && Fresh(s.cases.m[id], f)
    && h in s.handoffs.m && s.handoffs.m[h].status == stands
  }

  lemma ReportAccepted(policy: CasePolicy, s: State, id: string, h: string, updateType: Lhp.UpdateType, next: Lhp.HandoffStatus,
                       event: string, stamp: Stamp)
    requires LooseEnds.PlainToken(h) && LooseEnds.PlainToken(id) && LooseEnds.PlainToken(event) && event !in s.callbacks.m
    requires h in s.handoffs.m && s.handoffs.m[h].status in Predecessors(next)
    ensures var a := Action(Deliver(Report(h, id, updateType, next, event)), stamp);
            Admissible(s, a) && !Perform(policy, s, a).1 && Accepted(s, a.op.raw)
  {
    var a := Action(Deliver(Report(h, id, updateType, next, event)), stamp);
    ReportIsValid(h, id, updateType, next, event);
    AllowedIff(s.handoffs.m[h].status, next);
    hide Perform, Scrubbed, BoundText, Lhp.ValidateUpdate, LooseEnds.PlainToken, Predecessors, Lhp.AllowedHandoffTransition, Callbacks.EventToken;
    Callbacks.DeliveryRaisesIff(policy, s, a);
  }

  lemma OneReport(policy: CasePolicy, s: State, f: Finding, id: string, h: string, stands: Lhp.HandoffStatus, status: CaseStatus,
                  updateType: Lhp.UpdateType, next: Lhp.HandoffStatus, event: string, stamp: Stamp)
    requires Inv(policy, s) && At(s, f, id, h, stands, status)
    requires LooseEnds.PlainToken(h) && LooseEnds.PlainToken(id) && LooseEnds.PlainToken(event) && event !in s.callbacks.m
    requires stands in Predecessors(next)
    ensures var a := Action(Deliver(Report(h, id, updateType, next, event)), stamp);
            var t := Step(policy, s, a);
            && Admissible(s, a) && !Perform(policy, s, a).1
            && Inv(policy, t) && At(t, f, id, h, next, StatusAfterUpdate(status, updateType, next))
            && t.callbacks.m.Keys == s.callbacks.m.Keys + {event}
  {
    var raw := Report(h, id, updateType, next, event);
    var a := Action(Deliver(raw), stamp);
    hide Inv, Step, Perform, MovedBy, Lhp.ValidateUpdate, LooseEnds.PlainToken, CaseSane, Fresh, StatusAfterUpdate, Accepted, Admissible,
         Callbacks.EventToken, Report, Predecessors;
    assert next != Lhp.Verified && next != Lhp.Resolved by { NotVerifierOnly(stands, next); }
    ReportIsValid(h, id, updateType, next, event);
    ReportAccepted(policy, s, id, h, updateType, next, event, stamp);
    Engineering.InvHandoffs(policy, s);
    Preservation.StoredCase(policy, s, id);
    StepMoves(policy, s, a, id);
    MovedByReport(s, s.cases.m[id], a, Lhp.ValidateUpdate(raw).value);
    UpdateKeepsFresh(s, s.cases.m[id], a, f);
    Engineering.UpdateHandoffs(policy, s, a);
    assert s.handoffs.m[h].handoffId == h;
    Callbacks.StepCallbacks(policy, s, a);
    Preservation.StepKeepsInv(policy, s, a);
  }

  lemma NotVerifierOnly(stands: Lhp.HandoffStatus, next: Lhp.HandoffStatus)
    requires stands in Predecessors(next)
    ensures next != Lhp.Verified && next != Lhp.Resolved
  {
  }

  lemma MovedByReport(s: State, c: SecurityCase, a: Action, u: Lhp.HandoffUpdate)
    requires a.op.Deliver? && Accepted(s, a.op.raw) && Lhp.ValidateUpdate(a.op.raw) == Ok(u) && u.caseId == c.caseId
    ensures MovedBy(s, c, a).status == StatusAfterUpdate(c.status, u.updateType, u.status)
  {
    hide Accepted, Lhp.ValidateUpdate, StatusAfterUpdate;
  }

  /** Engineering takes the handoff up, works on it, and reports the fix. */
  function ReportsOf(ids: Stamp, first: string, second: string, third: string): seq<Action> {
    [Action(Deliver(Report(ids.handoffId, ids.caseId, Lhp.AcceptedUpdate, Lhp.Accepted, first)), ids),
     Action(Deliver(Report(ids.handoffId, ids.caseId, Lhp.InvestigatingUpdate, Lhp.InProgress, second)), ids),
     Action(Deliver(Report(ids.handoffId, ids.caseId, Lhp.ImplementedUpdate, Lhp.Implemented, third)), ids)]
  }

  /** Nothing raises along these operations. */
  ghost predicate Smooth(policy: CasePolicy, s: State, actions: seq<Action>)
    decreases |actions|
  {
    actions != [] ==> Admissible(s, actions[0]) && !Perform(policy, s, actions[0]).1 && Smooth(policy, Step(policy, s, actions[0]), actions[1..])
  }

  /** Where the three reports leave a requested case. */
  lemma ReportsLead()
    ensures StatusAfterUpdate(CaseStatus.HandoffRequested, Lhp.AcceptedUpdate, Lhp.Accepted) == HandoffInProgress
    ensures StatusAfterUpdate(HandoffInProgress, Lhp.InvestigatingUpdate, Lhp.InProgress) == HandoffInProgress
    ensures StatusAfterUpdate(HandoffInProgress, Lhp.ImplementedUpdate, Lhp.Implemented) == VerificationPending
    ensures Lhp.Requested in Predecessors(Lhp.Accepted) && Lhp.Accepted in Predecessors(Lhp.InProgress)
    ensures Lhp.InProgress in Predecessors(Lhp.Implemented)
  {
  }

  lemma ReportsGoThrough(policy: CasePolicy, s: State, f: Finding, ids: Stamp, first: string, second: string, third: string)
    requires Inv(policy, s) && JustRequested(s, f, ids.caseId, ids.handoffId) && first != second && first != third && second != third
    requires LooseEnds.PlainToken(ids.caseId) && LooseEnds.PlainToken(ids.handoffId)
    requires LooseEnds.PlainToken(first) && LooseEnds.PlainToken(second) && LooseEnds.PlainToken(third)
    ensures var actions := ReportsOf(ids, first, second, third);
            && Smooth(policy, s, actions)
            && At(Step(policy, Step(policy, Step(policy, s, actions[0]), actions[1]), actions[2]), f, ids.caseId, ids.handoffId,
                  Lhp.Implemented, VerificationPending)
  {
    var actions := ReportsOf(ids, first, second, third);
    var (id, h) := (ids.caseId, ids.handoffId);
    hide Inv, Step, Perform, Admissible, Fresh, Report, LooseEnds.PlainToken, StatusAfterUpdate, Predecessors, Smooth;
    ReportsLead();
    assert At(s, f, id, h, Lhp.Requested, CaseStatus.HandoffRequested) && s.callbacks.m.Keys == {};
    hide At, JustRequested;
    var s1 := Step(policy, s, actions[0]);
    var s2 := Step(policy, s1, actions[1]);
    OneReport(policy, s, f, id, h, Lhp.Requested, CaseStatus.HandoffRequested, Lhp.AcceptedUpdate, Lhp.Accepted, first, ids);
    OneReport(policy, s1, f, id, h, Lhp.Accepted, HandoffInProgress, Lhp.InvestigatingUpdate, Lhp.InProgress, second, ids);
    OneReport(policy, s2, f, id, h, Lhp.InProgress, HandoffInProgress, Lhp.ImplementedUpdate, Lhp.Implemented, third, ids);
    SmoothThree(policy, s, actions[0], actions[1], actions[2]);
  }

  lemma SmoothMore(policy: CasePolicy, s: State, a: Action, rest: seq<Action>)
    requires Admissible(s, a) && !Perform(policy, s, a).1 && Smooth(policy, Step(policy, s, a), rest)
    ensures Smooth(policy, s, [a] + rest)
  {
    hide Admissible, Perform, Step;
    assert ([a] + rest)[0] == a && ([a] + rest)[1..] == rest;
  }

  lemma SmoothThree(policy: CasePolicy, s: State, a: Action, b: Action, c: Action)
    requires Admissible(s, a) && !Perform(policy, s, a).1
    requires var s1 := Step(policy, s, a); Admissible(s1, b) && !Perform(policy, s1, b).1
    requires var s2 := Step(policy, Step(policy, s, a), b); Admissible(s2, c) && !Perform(policy, s2, c).1
    ensures Smooth(policy, s, [a, b, c])
  {
    hide Admissible, Perform, Step;
    var s1 := Step(policy, s, a);
    var s2 := Step(policy, s1, b);
    assert Smooth(policy, Step(policy, s2, c), []);
    hide Smooth;
    SmoothMore(policy, s2, c, []);
    SmoothMore(policy, s1, b, [c] + []);
    SmoothMore(policy, s, a, [b] + ([c] + []));
    assert [a] + ([b] + ([c] + [])) == [a, b, c];
  }

  /** Operations one after the other. */
  lemma {:induction false} SmoothRuns(policy: CasePolicy, s: State, actions: seq<Action>)
    requires Smooth(policy, s, actions)
    ensures AdmissibleFrom(policy, s, actions)
    ensures forall i | 0 <= i < |actions| :: !Perform(policy, RunFrom(policy, s, actions[..i]), actions[i]).1
    decreases |actions|
  {
    hide Admissible, Perform, Step, RunFrom, AdmissibleFrom;
    RunNone(policy, s);
    if actions != [] {
      var s1 := Step(policy, s, actions[0]);
      SmoothRuns(policy, s1, actions[1..]);
      RunOne(policy, s, actions[0]);
      RunFromAppend(policy, s, [actions[0]], actions[1..]);
      assert [actions[0]] + actions[1..] == actions;
      forall i | 0 <= i < |actions| ensures !Perform(policy, RunFrom(policy, s, actions[..i]), actions[i]).1 {
        if i == 0 {
          assert actions[..0] == [];
        } else {
          RunFromAppend(policy, s, [actions[0]], actions[1..][..i - 1]);
          assert [actions[0]] + actions[1..][..i - 1] == actions[..i];
          assert actions[1..][i - 1] == actions[i];
        }
      }
    }
  }

  /** A failure, a request with the threshold of the policy, and engineering's three reports. */
  function OrdinaryWay(f: Finding, ids: Stamp, cycle: string, first: string, second: string, third: string): seq<Action> {
    [Action(Observe(f, cycle, true), ids)] + ([Action(AskHandoff(ids.caseId, f, 0), ids)] + ReportsOf(ids, first, second, third))
  }

  lemma StartSmooth(policy: CasePolicy, f: Finding, ids: Stamp, cycle: string)
    requires Scrubbed(f) && !f.passed && HandoffReady(f) && BoundText(ids.handoffId) == ids.handoffId
    ensures var (a, b) := (Action(Observe(f, cycle, true), ids), Action(AskHandoff(ids.caseId, f, 0), ids));
            var s1 := Step(policy, EmptyState(), a);
            && Admissible(EmptyState(), a) && !Perform(policy, EmptyState(), a).1
            && Admissible(s1, b) && !Perform(policy, s1, b).1
            && Inv(policy, Step(policy, s1, b)) && JustRequested(Step(policy, s1, b), f, ids.caseId, ids.handoffId)
  {
    var (a, b) := (Action(Observe(f, cycle, true), ids), Action(AskHandoff(ids.caseId, f, 0), ids));
    var s1 := Step(policy, EmptyState(), a);
    hide Inv, Step, Scrubbed, HandoffReady, BoundText, JustOpened, JustRequested, Admissible, ObserveFinding, RequestHandoff;
    assert !Perform(policy, EmptyState(), a).1;
    hide Perform;
    FirstFailure(policy, f, cycle, ids);
    Preservation.EmptyInv(policy);
    AllAdmissible(f, ids, "", cycle, 0);
    Preservation.StepKeepsInv(policy, EmptyState(), a);
    DefaultRequest(policy, s1, f, ids);
    Preservation.StepKeepsInv(policy, s1, b);
  }

  /** The request of the posture loop leaves the threshold to the case. */
  lemma DefaultRequest(policy: CasePolicy, s: State, f: Finding, ids: Stamp)
    requires Inv(policy, s) && JustOpened(s, f, ids.caseId) && HandoffReady(f)
    ensures var b := Action(AskHandoff(ids.caseId, f, 0), ids);
            !Perform(policy, s, b).1 && JustRequested(Step(policy, s, b), f, ids.caseId, ids.handoffId)
  {
    var required := policy.defaultRequired;
    var id := ids.caseId;
    hide Inv, RequestHandoff, HandoffReady, Fresh, HandedOffCase, CaseSane, HandoffByKey, IdempotencyKey;
    Preservation.StoredCase(policy, s, id);
    RequiredIsDefault(policy, s.cases.m[id]);
    SameRequest(s, id, f, required, ids);
    RequestedFromOpened(policy, s, f, required, ids);
    Engineering.RequestRaisesIff(policy, s, id, f, 0, ids);
  }

  lemma SameRequest(s: State, id: string, f: Finding, passes: nat, ids: Stamp)
    requires id in s.cases.m && s.cases.m[id].requiredPasses == passes > 0
    ensures RequestHandoff(s, id, f, passes, ids) == RequestHandoff(s, id, f, 0, ids)
  {
    hide BuildHandoff, HandoffByKey, PutObjectives, HandedOffCase, Commit, ListObjectives, BoundKind;
  }

  /**
   The ordinary way is open to every control that can be handed off: no operation of it raises, it
   ends with the handoff implemented and the case pending verification, and as many healthy
   rereads as the policy asks for then resolve the case.
   */
  lemma OrdinaryWayWorks(policy: CasePolicy, settings: VerifierSettings, f: Finding, ids: Stamp, cycle: string,
                         first: string, second: string, third: string)
    requires Scrubbed(f) && !f.passed && HandoffReady(f) && ScrubFinding(f).resource != "" && Live(settings)
    requires BoundText(ids.handoffId) == ids.handoffId && first != second && first != third && second != third
    requires LooseEnds.PlainToken(ids.caseId) && LooseEnds.PlainToken(ids.handoffId)
    requires LooseEnds.PlainToken(first) && LooseEnds.PlainToken(second) && LooseEnds.PlainToken(third)
    ensures var actions := OrdinaryWay(f, ids, cycle, first, second, third);
            var s := Run(policy, actions);
            var t := VerifyRun(policy, settings, s, ids.caseId, CleanReadings(f, ids, policy.defaultRequired), cycle);
            && AdmissibleRun(policy, actions)
            && (forall i | 0 <= i < |actions| :: !Perform(policy, Run(policy, actions[..i]), actions[i]).1)
            && ids.handoffId in s.handoffs.m && s.handoffs.m[ids.handoffId].status == Lhp.Implemented
            && ids.caseId in s.cases.m && s.cases.m[ids.caseId].status == VerificationPending
            && ids.caseId in t.cases.m && t.cases.m[ids.caseId].status == CaseStatus.Resolved
  {
    var actions := OrdinaryWay(f, ids, cycle, first, second, third);
    var reports := ReportsOf(ids, first, second, third);
    var (a, b) := (Action(Observe(f, cycle, true), ids), Action(AskHandoff(ids.caseId, f, 0), ids));
    hide Inv, Step, Perform, Admissible, Scrubbed, HandoffReady, BoundText, LooseEnds.PlainToken, RunFrom, AdmissibleFrom, Smooth, VerifyRun,
         ReportsOf, JustRequested, ScrubFinding, Fresh, CleanReadings;
    var s2 := Step(policy, Step(policy, EmptyState(), a), b);
    StartSmooth(policy, f, ids, cycle);
    ReportsGoThrough(policy, s2, f, ids, first, second, third);
    SmoothMore(policy, Step(policy, EmptyState(), a), b, reports);
    SmoothMore(policy, EmptyState(), a, [b] + reports);
    SmoothRuns(policy, EmptyState(), actions);
    RunsTo(policy, a, b, reports);
    Preservation.Reachable(policy, actions);
    HealthyRereadsResolve(policy, settings, Run(policy, actions), f, ids, cycle);
  }

  lemma ThreeRun(policy: CasePolicy, s: State, reports: seq<Action>)
    requires |reports| == 3
    ensures RunFrom(policy, s, reports) == Step(policy, Step(policy, Step(policy, s, reports[0]), reports[1]), reports[2])
  {
    hide Step, RunFrom, AdmissibleFrom, Admissible;
    RunOne(policy, s, reports[0]);
    RunOne(policy, Step(policy, s, reports[0]), reports[1]);
    RunOne(policy, Step(policy, Step(policy, s, reports[0]), reports[1]), reports[2]);
    RunFromAppend(policy, s, [reports[0]], [reports[1]]);
    RunFromAppend(policy, s, [reports[0]] + [reports[1]], [reports[2]]);
    assert [reports[0]] + [reports[1]] + [reports[2]] == reports;
  }

  lemma RunsTo(policy: CasePolicy, a: Action, b: Action, reports: seq<Action>)
    requires |reports| == 3
    ensures Run(policy, [a] + ([b] + reports))
         == Step(policy, Step(policy, Step(policy, Step(policy, Step(policy, EmptyState(), a), b), reports[0]), reports[1]), reports[2])
  {
    hide Step, RunFrom, AdmissibleFrom, Admissible;
    var s1 := Step(policy, EmptyState(), a);
    RunOne(policy, EmptyState(), a);
    RunOne(policy, s1, b);
    RunFromAppend(policy, EmptyState(), [a], [b] + reports);
    RunFromAppend(policy, s1, [b], reports);
    ThreeRun(policy, Step(policy, s1, b), reports);
  }

  lemma HealthyRereadsResolve(policy: CasePolicy, settings: VerifierSettings, s: State, f: Finding, ids: Stamp, cycle: string)
    requires Inv(policy, s) && At(s, f, ids.caseId, ids.handoffId, Lhp.Implemented, VerificationPending)
    requires ScrubFinding(f).resource != "" && Live(settings)
    ensures var t := VerifyRun(policy, settings, s, ids.caseId, CleanReadings(f, ids, policy.defaultRequired), cycle);
            ids.caseId in t.cases.m && t.cases.m[ids.caseId].status == CaseStatus.Resolved
  {
    var rs := CleanReadings(f, ids, policy.defaultRequired);
    var c := s.cases.m[ids.caseId];
    assert c.fingerprint == f.fingerprint && c.resourceId != "" && c.passCount == 0;
    hide Inv, ScrubFinding, VerifyRun, Reached, FinalCount, CleanReadings, Sights, Fresh, CasesKeyed, CaseSane;
    Engineering.InvHandoffs(policy, s);
    Preservation.StoredCase(policy, s, ids.caseId);
    RequiredIsDefault(policy, c);
    CleanSights(f, ids, policy.defaultRequired);
    EnoughClean(policy.defaultRequired, Sights(rs, f.fingerprint));
    VerificationProgress(policy, settings, s, c, rs, cycle);
  }
}
