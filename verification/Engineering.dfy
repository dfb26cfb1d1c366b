/** The cross-loop part of a run: handoff requests, the handoff protocol, and what callbacks do to cases. */
module Engineering {
  import opened Wrappers
  import opened Dicts
  import opened Models
  import opened Policy
  import opened Lifecycle
  import opened Runs
  import opened Invariants
  import opened Preservation
  import opened CaseMoves
  import LhpTokens
  import Lhp = LhpHandoff

  // --- when a handoff request raises ---

  /**
   On a reachable store a request on an existing case raises exactly when a required text of
   the finding is blank, or the case is pending verification or resolved and has no handoff
   under the key yet.
   */
  lemma RequestRaisesIff(policy: CasePolicy, s: State, id: string, f: Finding, passes: nat, stamp: Stamp)
    requires Inv(policy, s) && id in s.cases.m
    ensures RequestHandoff(s, id, f, passes, stamp).result.Err?
       <==> (|| !HandoffReady(f)
             || (HandoffByKey(s, IdempotencyKey(id, f)).None? && s.cases.m[id].status in {VerificationPending, Resolved}))
  {
    hide Inv, HandoffReady, HandoffByKey, IdempotencyKey, HandedOffCase, Commit, CaseSane, RequestHandoff, BuildHandoff,
         WithHandoff, CaseLinked, Successors;
    StoredCase(policy, s, id);
    if HandoffReady(f) {
      RequestHandoffCases(s, id, f, passes, stamp);
      MayAskAtRest(policy, s.cases.m[id]);
    } else {
      RequestUnready(s, id, f, passes, stamp);
    }
  }

  lemma MayAskAtRest(policy: CasePolicy, c: SecurityCase)
    requires CaseSane(policy, c)
    ensures c.status in {HandoffRequested, HandoffInProgress} || HandoffRequested in Successors(c.status)
       <==> c.status !in {VerificationPending, Resolved}
  {
    hide LabelsStable;
  }

  // --- runs whose objective key is a function of the fingerprint ---

  type KeyOf = string -> string

  function KeyFor(caseId: string, fingerprint: string, keyOf: KeyOf): string {
    LhpTokens.SanitizeToken(caseId + ":engineering:" + keyOf(fingerprint) + ":v1", Lhp.ID_LIMIT)
  }

  /** A request made for a finding of the case itself, whose key depends on the fingerprint only. */
  ghost predicate Disciplined(s: State, a: Action, keyOf: KeyOf) {
    a.op.AskHandoff? && a.op.caseId in s.cases.m ==>
      && a.op.finding.fingerprint == s.cases.m[a.op.caseId].fingerprint
      && OrElse(a.op.finding.objectiveKey, a.op.finding.checkId) == keyOf(a.op.finding.fingerprint)
  }

  ghost predicate DisciplinedFrom(policy: CasePolicy, s: State, actions: seq<Action>, keyOf: KeyOf) {
    actions != [] ==>
      && DisciplinedFrom(policy, s, actions[..|actions| - 1], keyOf)
      && Disciplined(RunFrom(policy, s, actions[..|actions| - 1]), actions[|actions| - 1], keyOf)
  }

  ghost predicate HasHandoff(s: State, c: SecurityCase, keyOf: KeyOf) {
    exists h | h in s.handoffs.m :: s.handoffs.m[h].idempotencyKey == KeyFor(c.caseId, c.fingerprint, keyOf)
  }

  /** Every case that lists a handoff has one under its own key. */
  ghost predicate AllKeyed(s: State, keyOf: KeyOf) {
    forall k | k in s.cases.m && s.cases.m[k].handoffIds != [] :: HasHandoff(s, s.cases.m[k], keyOf)
  }

  /** Handoffs are never deleted and keep their key and their case. */
  ghost predicate HandoffsKept(s: State, t: State) {
    forall h | h in s.handoffs.m ::
      && h in t.handoffs.m
      && t.handoffs.m[h].idempotencyKey == s.handoffs.m[h].idempotencyKey
      && t.handoffs.m[h].caseId == s.handoffs.m[h].caseId
  }

  /** The status of a stored handoff after one operation. */
  ghost function HandoffStatusAfter(s: State, h: Handoff, a: Action): Lhp.HandoffStatus {
    if a.op.Deliver? && Accepted(s, a.op.raw) && Lhp.ValidateUpdate(a.op.raw).value.handoffId == h.handoffId
    then Lhp.ValidateUpdate(a.op.raw).value.status else h.status
  }

  lemma RequestHandoffs(policy: CasePolicy, s: State, a: Action)
    requires Inv(policy, s) && Admissible(s, a) && a.op.AskHandoff?
    ensures var t := Step(policy, s, a);
            if StoresHandoff(s, a.op.caseId, a.op.finding) then
              && t.handoffs.m.Keys == s.handoffs.m.Keys + {a.stamp.handoffId}
              && (forall h | h in s.handoffs.m :: t.handoffs.m[h] == s.handoffs.m[h])
              && t.handoffs.m[a.stamp.handoffId].status == Lhp.Requested
              && t.handoffs.m[a.stamp.handoffId].idempotencyKey == IdempotencyKey(a.op.caseId, a.op.finding)
            else t.handoffs == s.handoffs
  {
    hide Inv, HandoffReady, IdempotencyKey, HandoffByKey, RequestHandoff, BuildHandoff, CaseSane, CaseLinked;
    var (k, f) := (a.op.caseId, a.op.finding);
    if k in s.cases.m && HandoffReady(f) {
      StoredCase(policy, s, k);
      RequestedHandoffs(s, k, f, a.op.passes, a.stamp);
      BuiltHandoff(f, s.cases.m[k], if a.op.passes == 0 then s.cases.m[k].requiredPasses else a.op.passes, a.stamp);
    } else {
      RequestUnready(s, k, f, a.op.passes, a.stamp);
    }
  }

  lemma RequestedHandoffs(s: State, id: string, f: Finding, passes: nat, stamp: Stamp)
    requires id in s.cases.m && s.cases.m[id].caseId == id && HandoffReady(f)
    ensures var c := s.cases.m[id];
            var built := BuildHandoff(f, c, if passes == 0 then c.requiredPasses else passes, stamp);
            var t := RequestHandoff(s, id, f, passes, stamp).state;
            && built.Ok?
            && t.handoffs == if HandoffByKey(s, IdempotencyKey(id, f)).None?
                             then s.handoffs.Put(built.value.handoff.handoffId, built.value.handoff) else s.handoffs
  {
    hide HandoffReady, IdempotencyKey, HandoffByKey, HandedOffCase, Commit, RequestHandoff, BuildHandoff, BoundKind;
    RequestHandoffCases(s, id, f, passes, stamp);
  }

  lemma RecordedHandoffs(s: State, u: Lhp.HandoffUpdate, now: int)
    requires HandoffsKeyed(s)
    ensures AcceptedNow(s, u) ==> u.handoffId in s.handoffs.m
    ensures RecordEngineeringUpdate(s, u, now).state.handoffs.m
         == if AcceptedNow(s, u)
            then s.handoffs.m[u.handoffId := s.handoffs.m[u.handoffId].(status := u.status, updatedAt := now)]
            else s.handoffs.m
  {
    hide Commit, UpdatedCase, InboxRecord, CallbackFor, Lhp.AllowedHandoffTransition;
  }

  lemma UpdateHandoffs(policy: CasePolicy, s: State, a: Action)
    requires HandoffsKeyed(s) && a.op.Deliver?
    ensures var t := Step(policy, s, a);
            && t.handoffs.m.Keys == s.handoffs.m.Keys
            && forall h | h in s.handoffs.m ::
                 && t.handoffs.m[h].idempotencyKey == s.handoffs.m[h].idempotencyKey
                 && t.handoffs.m[h].caseId == s.handoffs.m[h].caseId
                 && t.handoffs.m[h].status == HandoffStatusAfter(s, s.handoffs.m[h], a)
  {
    hide Lhp.ValidateUpdate, RecordEngineeringUpdate, AcceptedNow;
    if Lhp.ValidateUpdate(a.op.raw).Ok? {
      RecordedHandoffs(s, Lhp.ValidateUpdate(a.op.raw).value, a.stamp.now);
    }
  }

  lemma OtherHandoffs(policy: CasePolicy, s: State, a: Action)
    requires !a.op.Deliver? && !a.op.AskHandoff?
    ensures Step(policy, s, a).handoffs == s.handoffs
  {
    hide CaseByFingerprint, FailedCase, PassedCase, TriagedCase, OpenedCase, CaseFromFinding, MovedCase, AllowedTransition,
         CanResolve, PassObjectives, ResolvedCase, DegradedCase, AcknowledgedCase, IssuedCase, Commit;
  }

  lemma StepHandoffs(policy: CasePolicy, s: State, a: Action, h: string)
    requires Inv(policy, s) && Admissible(s, a)
    ensures HandoffsKept(s, Step(policy, s, a))
    ensures h in s.handoffs.m ==> Step(policy, s, a).handoffs.m[h].status == HandoffStatusAfter(s, s.handoffs.m[h], a)
    ensures h in Step(policy, s, a).handoffs.m && h !in s.handoffs.m ==>
              Step(policy, s, a).handoffs.m[h].status == Lhp.Requested
  {
    hide Step, Admissible, StoresHandoff, IdempotencyKey, Accepted, Lhp.ValidateUpdate;
    InvHandoffs(policy, s);
    hide Inv;
    if a.op.Deliver? {
      UpdateHandoffs(policy, s, a);
    } else if a.op.AskHandoff? {
      RequestHandoffs(policy, s, a);
    } else {
      OtherHandoffs(policy, s, a);
    }
  }

  lemma InvHandoffs(policy: CasePolicy, s: State)
    requires Inv(policy, s)
    ensures HandoffsKeyed(s) && CasesKeyed(s) && Linked(s) && Sane(policy, s)
  {
  }

  lemma KeyedStep(policy: CasePolicy, s: State, a: Action, keyOf: KeyOf)
    requires Inv(policy, s) && Admissible(s, a) && AllKeyed(s, keyOf) && Disciplined(s, a, keyOf)
    ensures AllKeyed(Step(policy, s, a), keyOf)
  {
    hide Step, Admissible, MovedBy, StoresHandoff, KeyFor;
    InvHandoffs(policy, s);
    hide Inv;
    var t := Step(policy, s, a);
    StepHandoffs(policy, s, a, "");
    forall k | k in t.cases.m && t.cases.m[k].handoffIds != [] ensures HasHandoff(t, t.cases.m[k], keyOf) {
      StepMoves(policy, s, a, k);
      if k !in s.cases.m {
        OpenedUnlinked(policy, a);
      } else {
        var c := s.cases.m[k];
        StatusMoves(s, c, a);
        MoveLinks(s, c, a);
        if c.handoffIds != [] {
          var h :| h in s.handoffs.m && s.handoffs.m[h].idempotencyKey == KeyFor(c.caseId, c.fingerprint, keyOf);
          assert h in t.handoffs.m;
        } else {
          RequestHandoffs(policy, s, a);
          assert IdempotencyKey(a.op.caseId, a.op.finding) == KeyFor(c.caseId, c.fingerprint, keyOf) by {
            DisciplinedKey(c, a, keyOf);
          }
        }
      }
    }
  }

  lemma DisciplinedKey(c: SecurityCase, a: Action, keyOf: KeyOf)
    requires a.op.AskHandoff? && a.op.caseId == c.caseId && a.op.finding.fingerprint == c.fingerprint
    requires OrElse(a.op.finding.objectiveKey, a.op.finding.checkId) == keyOf(a.op.finding.fingerprint)
    ensures IdempotencyKey(a.op.caseId, a.op.finding) == KeyFor(c.caseId, c.fingerprint, keyOf)
  {
  }

  lemma OpenedUnlinked(policy: CasePolicy, a: Action)
    requires a.op.Observe?
    ensures TriagedCase(OpenedCase(policy, a.op.finding, a.op.cycle, a.stamp), a.stamp.now).handoffIds == []
    ensures TriagedCase(OpenedCase(policy, a.op.finding, a.op.cycle, a.stamp), a.stamp.now).status == Triaged
  {
  }

  /** A case gains its first link only by a request on it that stores a handoff. */
  lemma MoveLinks(s: State, c: SecurityCase, a: Action)
    ensures MovedBy(s, c, a).handoffIds != c.handoffIds ==>
              a.op.AskHandoff? && a.op.caseId == c.caseId && StoresHandoff(s, a.op.caseId, a.op.finding)
    ensures c.handoffIds != [] ==> MovedBy(s, c, a).handoffIds != []
  {
    hide CanResolve, StoresHandoff, Accepted, Lhp.ValidateUpdate, AllowedTransition;
  }

  lemma {:induction false} KeyedRun(policy: CasePolicy, s: State, actions: seq<Action>, keyOf: KeyOf)
    requires Inv(policy, s) && AllKeyed(s, keyOf)
    requires AdmissibleFrom(policy, s, actions) && DisciplinedFrom(policy, s, actions, keyOf)
    ensures AllKeyed(RunFrom(policy, s, actions), keyOf)
  {
    hide Step, Admissible, Inv, AllKeyed, Disciplined;
    if actions != [] {
      var n := |actions| - 1;
      KeyedRun(policy, s, actions[..n], keyOf);
      RunKeepsInv(policy, s, actions[..n]);
      KeyedStep(policy, RunFrom(policy, s, actions[..n]), actions[n], keyOf);
    }
  }

  lemma HasHandoffIff(s: State, key: string)
    requires HandoffsKeyed(s) && key != ""
    ensures HandoffByKey(s, key).Some? <==> exists h | h in s.handoffs.m :: s.handoffs.m[h].idempotencyKey == key
  {
  }

  /** A disciplined request on a case that is not resolved raises only for a blank text. */
  lemma DisciplinedRequestSucceeds(policy: CasePolicy, s: State, keyOf: KeyOf, a: Action)
    requires Inv(policy, s) && AllKeyed(s, keyOf)
    requires a.op.AskHandoff? && Disciplined(s, a, keyOf)
    requires a.op.caseId in s.cases.m && s.cases.m[a.op.caseId].status != Resolved
    ensures Perform(policy, s, a).1 <==> !HandoffReady(a.op.finding)
  {
    hide Inv, HandoffReady, HandoffByKey, IdempotencyKey, RequestHandoff, CaseSane, CaseLinked;
    InvHandoffs(policy, s);
    RequestRaisesIff(policy, s, a.op.caseId, a.op.finding, a.op.passes, a.stamp);
    var c := s.cases.m[a.op.caseId];
    StoredCase(policy, s, a.op.caseId);
    if c.status == VerificationPending {
      PendingHasHandoff(policy, c);
      DisciplinedKey(c, a, keyOf);
      KeyNotEmpty(c, keyOf);
      HasHandoffIff(s, IdempotencyKey(a.op.caseId, a.op.finding));
      assert HasHandoff(s, c, keyOf);
    }
  }

  lemma PendingHasHandoff(policy: CasePolicy, c: SecurityCase)
    requires CaseSane(policy, c) && WithEngineering(c.status)
    ensures c.handoffIds != []
  {
  }

  /** On disciplined runs a well-formed request on a case that is not resolved never raises. */
  lemma DisciplinedRequestsSucceed(policy: CasePolicy, actions: seq<Action>, keyOf: KeyOf, a: Action)
    requires AdmissibleRun(policy, actions) && DisciplinedFrom(policy, EmptyState(), actions, keyOf)
    requires a.op.AskHandoff? && Disciplined(Run(policy, actions), a, keyOf)
    requires var s := Run(policy, actions); a.op.caseId in s.cases.m && s.cases.m[a.op.caseId].status != Resolved
    ensures Perform(policy, Run(policy, actions), a).1 <==> !HandoffReady(a.op.finding)
  {
    hide Inv, HandoffReady, RunFrom, AdmissibleFrom, DisciplinedFrom, Perform, Disciplined;
    Reachable(policy, actions);
    EmptyInv(policy);
    KeyedRun(policy, EmptyState(), actions, keyOf);
    DisciplinedRequestSucceeds(policy, Run(policy, actions), keyOf, a);
  }

  lemma KeyNotEmpty(c: SecurityCase, keyOf: KeyOf)
    ensures KeyFor(c.caseId, c.fingerprint, keyOf) != ""
  {
    LhpTokens.TokenShape(c.caseId + ":engineering:" + keyOf(c.fingerprint) + ":v1", Lhp.ID_LIMIT);
  }

  /** One step of the trap below. */
  lemma OutsideStaysOutside(policy: CasePolicy, s: State, c: SecurityCase, a: Action)
    requires CaseSane(policy, c) && !WithEngineering(c.status)
    requires a.op.AskHandoff? && a.op.caseId == c.caseId ==> !StoresHandoff(s, a.op.caseId, a.op.finding)
    ensures !WithEngineering(MovedBy(s, c, a).status)
  {
    hide MovedBy, CanResolve, StoresHandoff, Accepted, LabelsStable;
    StatusMoves(s, c, a);
  }

  /**
   A case that was handed off once and has left the handoff statuses, say by being resolved,
   blocked or escalated, never enters one of them again on any continuation of a disciplined
   run: new requests find the old handoff and leave the case alone, and the transition table
   keeps callbacks from moving it. The verification loop, which looks only at handoff statuses,
   never picks such a case up again.
   */
  lemma {:induction false} HandedOffOnceOnly(policy: CasePolicy, s: State, actions: seq<Action>, keyOf: KeyOf, id: string)
    requires Inv(policy, s) && AllKeyed(s, keyOf)
    requires AdmissibleFrom(policy, s, actions) && DisciplinedFrom(policy, s, actions, keyOf)
    requires id in s.cases.m && s.cases.m[id].handoffIds != [] && !WithEngineering(s.cases.m[id].status)
    ensures var t := RunFrom(policy, s, actions);
            && id in t.cases.m && t.cases.m[id].handoffIds != []
            && !WithEngineering(t.cases.m[id].status)
  {
    hide Step, Admissible, Inv, Disciplined, MovedBy, HandoffByKey, IdempotencyKey, KeyFor;
    if actions != [] {
      var before, a := actions[..|actions| - 1], actions[|actions| - 1];
      HandedOffOnceOnly(policy, s, before, keyOf, id);
      var t := RunFrom(policy, s, before);
      RunKeepsInv(policy, s, before);
      KeyedRun(policy, s, before, keyOf);
      InvHandoffs(policy, t);
      StoredCase(policy, t, id);
      StepMoves(policy, t, a, id);
      var c := t.cases.m[id];
      if a.op.AskHandoff? && a.op.caseId == c.caseId {
        RequestFindsOld(t, c, a, keyOf);
      }
      OutsideStaysOutside(policy, t, c, a);
      MoveLinks(t, c, a);
    }
  }

  lemma RequestFindsOld(s: State, c: SecurityCase, a: Action, keyOf: KeyOf)
    requires HandoffsKeyed(s) && AllKeyed(s, keyOf) && Disciplined(s, a, keyOf)
    requires c.caseId in s.cases.m && s.cases.m[c.caseId] == c && c.handoffIds != []
    requires a.op.AskHandoff? && a.op.caseId == c.caseId
    ensures !StoresHandoff(s, a.op.caseId, a.op.finding)
  {
    hide KeyFor, IdempotencyKey, HandoffByKey, HandoffReady;
    DisciplinedKey(c, a, keyOf);
    KeyNotEmpty(c, keyOf);
    HasHandoffIff(s, KeyFor(c.caseId, c.fingerprint, keyOf));
    assert HasHandoff(s, c, keyOf);
  }

  // --- what a callback does to a case ---

  /**
   Where an accepted update leaves a case at rest: the status map, the override for an applied
   change and the transition table put together.
   */
  lemma CallbackEffect(current: CaseStatus, updateType: Lhp.UpdateType, status: Lhp.HandoffStatus)
    requires AtRest(current)
    ensures StatusAfterUpdate(current, updateType, status)
         == if updateType.ChangeAppliedUpdate? || status == Lhp.Implemented then
              (if current in {HandoffRequested, HandoffInProgress} then VerificationPending else current)
            else if status in {Lhp.Accepted, Lhp.InProgress, Lhp.ChangePlanned} then
              (if current in {HandoffRequested, VerificationPending} then HandoffInProgress else current)
            else if status == Lhp.Blocked then
              (if current in {Triaged, HandoffRequested, HandoffInProgress} then Blocked else current)
            else if status == Lhp.Failed then
              (if WithEngineering(current) || current == Blocked then Failed else current)
            else if status == Lhp.NeedsHuman then
              (if current == Resolved then Resolved else NeedsHuman)
            else current
  {
  }

  /**
   An update moves a case into verification exactly when it is accepted, names the case, says
   that a change was applied or implemented, and finds the case requested or in progress.
   The condition mentions neither the handoff's own case nor, for an applied change, its status.
   */
  lemma EntersVerificationIff(s: State, c: SecurityCase, a: Action)
    requires AtRest(c.status) && c.status != VerificationPending && a.op.Deliver?
    ensures MovedBy(s, c, a).status == VerificationPending
       <==> (&& Accepted(s, a.op.raw)
             && Lhp.ValidateUpdate(a.op.raw).value.caseId == c.caseId
             && (a.op.raw.updateType.ChangeAppliedUpdate? || a.op.raw.status == Lhp.Implemented)
             && c.status in {HandoffRequested, HandoffInProgress})
  {
    hide MovedBy, Accepted, Lhp.ValidateUpdate;
    StatusMoves(s, c, a);
  }

  lemma EntersVerificationAtRest(policy: CasePolicy, s: State, c: SecurityCase, a: Action)
    requires CaseSane(policy, c) && a.op.Deliver? && Accepted(s, a.op.raw)
    requires Lhp.ValidateUpdate(a.op.raw).value.caseId == c.caseId && a.op.raw.updateType.ChangeAppliedUpdate?
    requires c.status in {HandoffRequested, HandoffInProgress}
    ensures MovedBy(s, c, a).status == VerificationPending
  {
    hide LabelsStable, MovedBy, Accepted, Lhp.ValidateUpdate;
    EntersVerificationIff(s, c, a);
  }

  // --- the handoff protocol over runs ---

  ghost predicate HandoffIs(policy: CasePolicy, actions: seq<Action>, h: string, status: Lhp.HandoffStatus) {
    var s := Run(policy, actions);
    h in s.handoffs.m && s.handoffs.m[h].status == status
  }

  /** No handoff ever becomes verified or resolved. */
  lemma {:induction false} NeverVerified(policy: CasePolicy, actions: seq<Action>, h: string)
    requires AdmissibleRun(policy, actions) && h in Run(policy, actions).handoffs.m
    ensures Run(policy, actions).handoffs.m[h].status !in Lhp.VerifierOnly()
  {
    hide Step, Admissible, Inv, Lhp.ValidateUpdate, CallbackFor, Lhp.Successors;
    if actions != [] {
      var before, a := actions[..|actions| - 1], actions[|actions| - 1];
      Reachable(policy, before);
      StepHandoffs(policy, Run(policy, before), a, h);
      if h in Run(policy, before).handoffs.m {
        NeverVerified(policy, before, h);
        InvHandoffs(policy, Run(policy, before));
      }
    }
  }

  /** The statuses that one more operation can lead to. */
  lemma HandoffStep(policy: CasePolicy, s: State, a: Action, h: string)
    requires Inv(policy, s) && Admissible(s, a) && h in s.handoffs.m
    ensures h in Step(policy, s, a).handoffs.m
    ensures var (was, now) := (s.handoffs.m[h].status, Step(policy, s, a).handoffs.m[h].status);
            was == now || (now in Lhp.Successors(was) && now !in Lhp.VerifierOnly())
  {
    hide Step, Admissible, Inv, Lhp.ValidateUpdate, CallbackFor, Lhp.Successors;
    StepHandoffs(policy, s, a, h);
    InvHandoffs(policy, s);
  }

  /** Cancelled and expired are absorbing, and requested is never entered again. */
  lemma {:induction false} ProtocolIsOneWay(policy: CasePolicy, s: State, actions: seq<Action>, h: string)
    requires Inv(policy, s) && AdmissibleFrom(policy, s, actions) && h in s.handoffs.m
    ensures h in RunFrom(policy, s, actions).handoffs.m
    ensures var (was, now) := (s.handoffs.m[h].status, RunFrom(policy, s, actions).handoffs.m[h].status);
            && (was in {Lhp.Cancelled, Lhp.Expired} ==> now == was)
            && (was != Lhp.Requested ==> now != Lhp.Requested)
  {
    hide Step, Admissible, Inv;
    if actions != [] {
      var n := |actions| - 1;
      ProtocolIsOneWay(policy, s, actions[..n], h);
      RunKeepsInv(policy, s, actions[..n]);
      HandoffStep(policy, RunFrom(policy, s, actions[..n]), actions[n], h);
    }
  }

  predicate PastInProgress(status: Lhp.HandoffStatus) {
    status in {Lhp.ChangePlanned, Lhp.Implemented}
  }

  lemma PastInProgressBefore(policy: CasePolicy, s: State, a: Action, h: string)
    requires Inv(policy, s) && Admissible(s, a)
    requires h in Step(policy, s, a).handoffs.m && PastInProgress(Step(policy, s, a).handoffs.m[h].status)
    ensures h in s.handoffs.m && (s.handoffs.m[h].status == Lhp.InProgress || PastInProgress(s.handoffs.m[h].status))
  {
    hide Step, Admissible, Inv;
    StepHandoffs(policy, s, a, h);
    HandoffStep(policy, s, a, h);
  }

  /** Change-planned and implemented are reached only after in-progress occurred. */
  lemma {:induction false} ImplementedAfterInProgress(policy: CasePolicy, actions: seq<Action>, h: string)
    requires AdmissibleRun(policy, actions)
    requires h in Run(policy, actions).handoffs.m && PastInProgress(Run(policy, actions).handoffs.m[h].status)
    ensures exists i: nat | i < |actions| :: HandoffIs(policy, actions[..i], h, Lhp.InProgress)
  {
    hide Step, Admissible, Inv, PastInProgress;
    var n := |actions| - 1;
    Reachable(policy, actions[..n]);
    PastInProgressBefore(policy, Run(policy, actions[..n]), actions[n], h);
    if !HandoffIs(policy, actions[..n], h, Lhp.InProgress) {
      ImplementedAfterInProgress(policy, actions[..n], h);
      var i: nat :| i < n && HandoffIs(policy, actions[..n][..i], h, Lhp.InProgress);
      assert actions[..n][..i] == actions[..i];
    }
  }
}
