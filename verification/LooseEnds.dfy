/** What operations leave behind unnoticed: unlisted handoffs, updates about other cases, changes without an event. */
module LooseEnds {
  import opened Wrappers
  import opened Dicts
  import opened Models
  import opened Policy
  import opened Lifecycle
  import opened Runs
  import opened Invariants
  import opened Preservation
  import opened CaseMoves
  import Callbacks
  import Engineering
  import Ladder
  import LhpTokens
  import Lhp = LhpHandoff

  // --- a request that raises leaves an unlisted handoff ---

  /** No case lists the handoff. */
  ghost predicate Unlisted(s: State, h: string) {
    forall k | k in s.cases.m :: h !in s.cases.m[k].handoffIds
  }

  /** A case only ever gains the new handoff of a request. */
  lemma LinksGrow(s: State, c: SecurityCase, a: Action)
    ensures var d := MovedBy(s, c, a);
            d.handoffIds == c.handoffIds || (a.op.AskHandoff? && d.handoffIds == c.handoffIds + [a.stamp.handoffId])
  {
    hide Resolves, StoresHandoff, MayAskHandoff, AcceptedNow, Lhp.ValidateUpdate, AllowedTransition, StatusAfterUpdate;
  }

  lemma StepStaysUnlisted(policy: CasePolicy, s: State, a: Action, h: string)
    requires Inv(policy, s) && Admissible(s, a) && h in s.handoffs.m && Unlisted(s, h)
    ensures h in Step(policy, s, a).handoffs.m && Unlisted(Step(policy, s, a), h)
  {
    hide Inv, Step, MovedBy, TriagedCase, OpenedCase, Scrubbed;
    Engineering.InvHandoffs(policy, s);
    Engineering.StepHandoffs(policy, s, a, h);
    var t := Step(policy, s, a);
    forall k | k in t.cases.m ensures h !in t.cases.m[k].handoffIds {
      StepMoves(policy, s, a, k);
      if k in s.cases.m {
        LinksGrow(s, s.cases.m[k], a);
      } else {
        Engineering.OpenedUnlinked(policy, a);
      }
    }
  }

  lemma {:induction false} RunStaysUnlisted(policy: CasePolicy, s: State, actions: seq<Action>, h: string)
    requires Inv(policy, s) && AdmissibleFrom(policy, s, actions) && h in s.handoffs.m && Unlisted(s, h)
    ensures h in RunFrom(policy, s, actions).handoffs.m && Unlisted(RunFrom(policy, s, actions), h)
  {
    hide Inv, Step, Admissible, Unlisted;
    if actions != [] {
      var before, a := actions[..|actions| - 1], actions[|actions| - 1];
      RunStaysUnlisted(policy, s, before, h);
      RunKeepsInv(policy, s, before);
      StepStaysUnlisted(policy, RunFrom(policy, s, before), a, h);
    }
  }

  lemma NewIsUnlisted(s: State, h: string)
    requires Linked(s) && h !in s.handoffs.m
    ensures Unlisted(s, h)
  {
    forall k | k in s.cases.m ensures h !in s.cases.m[k].handoffIds {
      assert CaseLinked(s, s.cases.m[k]);
    }
  }

  /**
   A request that raises for the case's status has already stored its handoff and objective,
   without an event. The same request then finds them and succeeds, and no case lists that
   handoff, neither now nor on any continuation.
   */
  lemma RaisedRequestLeavesItsHandoff(policy: CasePolicy, s: State, a: Action, again: Stamp, actions: seq<Action>)
    requires Inv(policy, s) && a.op.AskHandoff? && Admissible(s, a)
    requires StoresHandoff(s, a.op.caseId, a.op.finding) && s.cases.m[a.op.caseId].status in {VerificationPending, Resolved}
    requires AdmissibleFrom(policy, Step(policy, s, a), actions)
    ensures Perform(policy, s, a).1
    ensures var (t, h) := (Step(policy, s, a), a.stamp.handoffId);
            && t.cases == s.cases && t.events == s.events
            && h in t.handoffs.m && t.handoffs.m[h].caseId == a.op.caseId
            && RequestHandoff(t, a.op.caseId, a.op.finding, a.op.passes, again).result.Ok?
            && RequestHandoff(t, a.op.caseId, a.op.finding, a.op.passes, again).state == t
            && h in RunFrom(policy, t, actions).handoffs.m && Unlisted(RunFrom(policy, t, actions), h)
  {
    hide Inv, HandoffReady, HandoffByKey, IdempotencyKey, HandedOffCase, Commit, CaseSane, RequestHandoff, BuildHandoff,
         CaseLinked, Linked, Successors, Unlisted, RunFrom, AdmissibleFrom, LhpTokens.SanitizeToken;
    var (id, f, p, stamp) := (a.op.caseId, a.op.finding, a.op.passes, a.stamp);
    StoredCase(policy, s, id);
    Engineering.MayAskAtRest(policy, s.cases.m[id]);
    RequestHandoffCases(s, id, f, p, stamp);
    BuiltHandoff(f, s.cases.m[id], if p == 0 then s.cases.m[id].requiredPasses else p, stamp);
    var t := Step(policy, s, a);
    NowFound(t, stamp.handoffId, IdempotencyKey(id, f));
    RequestHandoffCases(t, id, f, p, again);
    Engineering.InvHandoffs(policy, s);
    NewIsUnlisted(s, stamp.handoffId);
    SameCasesUnlisted(s, t, stamp.handoffId);
    StepKeepsInv(policy, s, a);
    RunStaysUnlisted(policy, t, actions, stamp.handoffId);
  }

  predicate Lists(s: State, id: string, h: string) {
    id in s.cases.m && h in s.cases.m[id].handoffIds
  }

  lemma StepKeepsListed(policy: CasePolicy, s: State, a: Action, id: string, h: string)
    requires Inv(policy, s) && Admissible(s, a) && Lists(s, id, h)
    ensures Lists(Step(policy, s, a), id, h)
  {
    hide Inv, Step, MovedBy, Scrubbed, BoundText;
    Engineering.InvHandoffs(policy, s);
    StepMoves(policy, s, a, id);
    LinksGrow(s, s.cases.m[id], a);
  }

  lemma {:induction false} RunKeepsListed(policy: CasePolicy, s: State, actions: seq<Action>, id: string, h: string)
    requires Inv(policy, s) && AdmissibleFrom(policy, s, actions) && Lists(s, id, h)
    ensures Lists(RunFrom(policy, s, actions), id, h)
  {
    hide Inv, Step, Admissible, Lists;
    if actions != [] {
      var before, a := actions[..|actions| - 1], actions[|actions| - 1];
      RunKeepsListed(policy, s, before, id, h);
      RunKeepsInv(policy, s, before);
      StepKeepsListed(policy, RunFrom(policy, s, before), a, id, h);
    }
  }

  lemma LinkedIsListed(policy: CasePolicy, s: State, a: Action)
    requires OwnIds(s) && a.op.AskHandoff? && StoresHandoff(s, a.op.caseId, a.op.finding)
    requires MayAskHandoff(s.cases.m[a.op.caseId].status)
    ensures Lists(Step(policy, s, a), a.op.caseId, a.stamp.handoffId)
  {
    hide RequestHandoff, HandoffReady, HandoffByKey, IdempotencyKey, MayAskHandoff;
    RequestMoves(policy, s, a.op.caseId, a.op.finding, a.op.passes, a.stamp);
  }

  /** A stored handoff is listed by its case, then and on every continuation, if and only if the request that stored it did not raise. */
  lemma HandoffListedIff(policy: CasePolicy, s: State, a: Action, actions: seq<Action>)
    requires Inv(policy, s) && a.op.AskHandoff? && Admissible(s, a) && StoresHandoff(s, a.op.caseId, a.op.finding)
    requires AdmissibleFrom(policy, Step(policy, s, a), actions)
    ensures Lists(RunFrom(policy, Step(policy, s, a), actions), a.op.caseId, a.stamp.handoffId) <==> !Perform(policy, s, a).1
  {
    hide Inv, HandoffReady, HandoffByKey, IdempotencyKey, RequestHandoff, CaseSane, CaseLinked, Successors, RunFrom, AdmissibleFrom, Admissible,
         Scrubbed, BoundText;
    var (id, c) := (a.op.caseId, s.cases.m[a.op.caseId]);
    StoredCase(policy, s, id);
    Engineering.MayAskAtRest(policy, c);
    Engineering.RequestRaisesIff(policy, s, id, a.op.finding, a.op.passes, a.stamp);
    if c.status in {VerificationPending, Resolved} {
      RaisedRequestLeavesItsHandoff(policy, s, a, a.stamp, actions);
    } else {
      Engineering.InvHandoffs(policy, s);
      LinkedIsListed(policy, s, a);
      StepKeepsInv(policy, s, a);
      RunKeepsListed(policy, Step(policy, s, a), actions, id, a.stamp.handoffId);
    }
  }

  lemma SameCasesUnlisted(s: State, t: State, h: string)
    requires Unlisted(s, h) && t.cases == s.cases
    ensures Unlisted(t, h)
  {
  }

  lemma NowFound(s: State, h: string, key: string)
    requires h in s.handoffs.m && s.handoffs.m[h].idempotencyKey == key && key != ""
    ensures HandoffByKey(s, key).Some?
  {
  }

  // --- an update need not be about the owner of its handoff ---

  predicate PlainToken(id: string) {
    LhpTokens.RequireToken(id, Lhp.ID_LIMIT) == Ok(id)
  }

  /** The update that reports a change applied under handoff `h`, and names case `id`. */
  function AppliedUpdate(h: string, id: string, event: string): Lhp.RawUpdate {
    Lhp.RawUpdate(h, id, Lhp.Engineering, Lhp.ChangeAppliedUpdate, Lhp.Accepted, event, event)
  }

  /**
   With a handoff just requested for one case, an update can take any other case that is with
   engineering into verification: it is accepted, the named case moves, and the owner of the
   handoff stays as it was.
   */
  lemma ForeignUpdateMovesNamedCase(policy: CasePolicy, s: State, h: string, id: string, event: string, stamp: Stamp)
    requires Inv(policy, s) && h in s.handoffs.m && s.handoffs.m[h].status == Lhp.Requested
    requires id in s.cases.m && s.cases.m[id].status in {HandoffRequested, HandoffInProgress} && id != s.handoffs.m[h].caseId
    requires PlainToken(h) && PlainToken(id) && PlainToken(event) && event !in s.callbacks.m
    ensures var raw := AppliedUpdate(h, id, event);
            var t := Step(policy, s, Action(Deliver(raw), stamp));
            && Accepted(s, raw)
            && id in t.cases.m && t.cases.m[id].status == VerificationPending
            && (forall k | k in s.cases.m && k != id :: k in t.cases.m && t.cases.m[k] == s.cases.m[k])
  {
    hide Inv, LhpTokens.RequireToken, Step, MovedBy, CaseSane;
    var raw := AppliedUpdate(h, id, event);
    var a := Action(Deliver(raw), stamp);
    assert Lhp.ValidateUpdate(raw) == Ok(Lhp.HandoffUpdate(h, id, Lhp.Engineering, Lhp.ChangeAppliedUpdate, Lhp.Accepted, event));
    assert Accepted(s, raw);
    Engineering.InvHandoffs(policy, s);
    StoredCase(policy, s, id);
    StepMoves(policy, s, a, id);
    Engineering.EntersVerificationAtRest(policy, s, s.cases.m[id], a);
    OthersUntouched(policy, s, a);
  }

  lemma OthersUntouched(policy: CasePolicy, s: State, a: Action)
    requires Inv(policy, s) && a.op.Deliver? && Accepted(s, a.op.raw)
    ensures var id := Lhp.ValidateUpdate(a.op.raw).value.caseId;
            forall k | k in s.cases.m && k != id :: k in Step(policy, s, a).cases.m && Step(policy, s, a).cases.m[k] == s.cases.m[k]
  {
    hide Inv, AcceptedNow, Lhp.ValidateUpdate, Step, MovedBy, CaseSane;
    var id := Lhp.ValidateUpdate(a.op.raw).value.caseId;
    Engineering.InvHandoffs(policy, s);
    forall k | k in s.cases.m && k != id ensures k in Step(policy, s, a).cases.m && Step(policy, s, a).cases.m[k] == s.cases.m[k] {
      StepMoves(policy, s, a, k);
      StoredCase(policy, s, k);
      OthersStay(s, s.cases.m[k], a);
    }
  }

  lemma OthersStay(s: State, c: SecurityCase, a: Action)
    requires a.op.Deliver? && (Accepted(s, a.op.raw) ==> Lhp.ValidateUpdate(a.op.raw).value.caseId != c.caseId)
    ensures MovedBy(s, c, a) == c
  {
    hide AcceptedNow, Lhp.ValidateUpdate;
  }

  /** The events an operation appends. */
  function NewEvents(policy: CasePolicy, s: State, a: Action): seq<Event> {
    var t := Step(policy, s, a);
    if s.events <= t.events then t.events[|s.events|..] else []
  }

  lemma DeliveredEvents(policy: CasePolicy, s: State, a: Action)
    requires OwnIds(s) && a.op.Deliver? && Accepted(s, a.op.raw)
    ensures NewEvents(policy, s, a) == UpdateEvents(s, Lhp.ValidateUpdate(a.op.raw).value)
    ensures Step(policy, s, a).events == s.events + UpdateEvents(s, Lhp.ValidateUpdate(a.op.raw).value)
  {
    hide Lhp.ValidateUpdate, RecordEngineeringUpdate, AcceptedNow, UpdateEvents;
    UpdateAppends(s, Lhp.ValidateUpdate(a.op.raw).value, a.stamp.now);
  }

  /** What an accepted update appends. */
  function UpdateEvents(s: State, u: Lhp.HandoffUpdate): seq<Event> {
    if u.caseId in s.cases.m then [NewEvent(u.caseId, EngineeringLoop, EngineeringUpdated(u.updateType, u.status, u.handoffId))] else []
  }

  lemma UpdateAppends(s: State, u: Lhp.HandoffUpdate, now: int)
    requires OwnIds(s) && AcceptedNow(s, u)
    ensures RecordEngineeringUpdate(s, u, now).state.events == s.events + UpdateEvents(s, u)
  {
    UpdateCases(s, u, now);
    hide RecordEngineeringUpdate, AcceptCallback, UpdatedCase, Commit, BoundKind, Lhp.AllowedHandoffTransition, CallbackFor;
    var s1 := WithHandoffStatus(s, u.handoffId, u.status, now);
    var h1 := s.handoffs.m[u.handoffId].(status := u.status, updatedAt := now);
    if u.caseId in s.cases.m {
      var c1 := UpdatedCase(s.cases.m[u.caseId], u, now);
      var s2 := Commit(s1, c1, UpdateEvents(s, u));
      AcceptKeepsEvents(s2, u, h1, Some(c1));
    } else {
      AcceptKeepsEvents(s1, u, h1, None);
    }
  }

  lemma AcceptKeepsEvents(s: State, u: Lhp.HandoffUpdate, h: Handoff, c: Option<SecurityCase>)
    ensures AcceptCallback(s, u, h, c).state.events == s.events
  {
    hide InboxRecord;
  }

  /** What an accepted update records is about the owner of its handoff exactly when it names that case, or none that is stored. */
  lemma UpdateIsAboutOwnerIff(policy: CasePolicy, s: State, a: Action)
    requires Inv(policy, s) && a.op.Deliver? && Accepted(s, a.op.raw)
    ensures var u := Lhp.ValidateUpdate(a.op.raw).value;
            var owner := s.handoffs.m[u.handoffId].caseId;
            ((forall e | e in NewEvents(policy, s, a) :: e.caseId == owner) <==> u.caseId == owner || u.caseId !in s.cases.m)
  {
    hide Inv, NewEvents, BoundKind, Lhp.ValidateUpdate;
    Engineering.InvHandoffs(policy, s);
    OwnIdsOf(s);
    DeliveredEvents(policy, s, a);
  }

  // --- changes without an event ---

  /** The operation changed a case, a handoff, an objective or the inbox, and appended nothing to the trail. */
  ghost predicate Unrecorded(s: State, t: State) {
    && (t.cases != s.cases || t.handoffs != s.handoffs || t.objectives != s.objectives || t.callbacks != s.callbacks)
    && t.events == s.events
  }

  lemma NamedIsRecorded(policy: CasePolicy, s: State, a: Action)
    requires OnNamedCase(a.op)
    ensures Step(policy, s, a) == s || Step(policy, s, a).events != s.events
  {
    hide BoundKind, AllowedTransition, CanResolve, PassObjectives, ResolvedCase, DegradedCase, AcknowledgedCase, IssuedCase, MovedCase;
  }

  lemma ObservationIsRecorded(policy: CasePolicy, s: State, a: Action)
    requires a.op.Observe?
    ensures var t := Step(policy, s, a);
            t == s.(findings := t.findings) || t.events != s.events
  {
    hide BoundKind, CaseByFingerprint, FailedCase, PassedCase, TriagedCase, OpenedCase;
  }

  lemma RequestIsRecorded(policy: CasePolicy, s: State, a: Action)
    requires Inv(policy, s) && Admissible(s, a) && a.op.AskHandoff?
    ensures Unrecorded(s, Step(policy, s, a))
       <==> StoresHandoff(s, a.op.caseId, a.op.finding) && s.cases.m[a.op.caseId].status in {VerificationPending, Resolved}
  {
    hide Inv, RequestHandoff, BuildHandoff, HandoffReady, HandoffByKey, IdempotencyKey, CaseSane, CaseLinked, Scrubbed, Ladder.LinkedState,
         MayAskHandoff, ObserveFinding, VerifyCase, RecordEngineeringUpdate, Triage, MarkNeedsHuman, Lhp.ValidateUpdate;
    var (id, f, p, stamp) := (a.op.caseId, a.op.finding, a.op.passes, a.stamp);
    Engineering.InvHandoffs(policy, s);
    Ladder.RequestAsCommit(s, id, f, p, stamp);
    if StoresHandoff(s, id, f) {
      var c := s.cases.m[id];
      StoredCase(policy, s, id);
      RequestedAtRest(policy, c);
      Engineering.RequestHandoffs(policy, s, a);
      assert a.stamp.handoffId in Step(policy, s, a).handoffs.m;
      forall h, o ensures Ladder.LinkedState(s, c, h, o, stamp.now).events == s.events <==> !MayAskHandoff(c.status) {
        LinkedEvents(s, c, h, o, stamp.now);
      }
    }
  }

  lemma RequestedAtRest(policy: CasePolicy, c: SecurityCase)
    requires CaseSane(policy, c)
    ensures MayAskHandoff(c.status) <==> c.status !in {VerificationPending, Resolved}
  {
    Engineering.MayAskAtRest(policy, c);
    hide CaseSane;
  }

  lemma LinkedEvents(s: State, c: SecurityCase, h: Handoff, o: Objective, now: int)
    ensures Ladder.LinkedState(s, c, h, o, now).events == s.events <==> !MayAskHandoff(c.status)
  {
    hide HandedOffCase, BoundKind, MayAskHandoff;
  }

  lemma UpdateIsRecorded(policy: CasePolicy, s: State, a: Action)
    requires Inv(policy, s) && a.op.Deliver?
    ensures Unrecorded(s, Step(policy, s, a))
       <==> Accepted(s, a.op.raw) && Lhp.ValidateUpdate(a.op.raw).value.caseId !in s.cases.m
  {
    hide Inv, Step, Accepted, Lhp.ValidateUpdate, BoundKind;
    if Accepted(s, a.op.raw) {
      Callbacks.StepCallbacks(policy, s, a);
      if Callbacks.EventToken(a.op.raw) in s.callbacks.m {
        Callbacks.InboxBlocks(s, a.op.raw);
      }
      Engineering.InvHandoffs(policy, s);
      OwnIdsOf(s);
      DeliveredEvents(policy, s, a);
    } else {
      RejectedChangesNothing(policy, s, a);
    }
  }

  lemma RejectedChangesNothing(policy: CasePolicy, s: State, a: Action)
    requires a.op.Deliver? && !Accepted(s, a.op.raw)
    ensures Step(policy, s, a) == s
  {
    hide Lhp.ValidateUpdate, RecordEngineeringUpdate, AcceptedNow;
    if Lhp.ValidateUpdate(a.op.raw).Ok? {
      UpdateCases(s, Lhp.ValidateUpdate(a.op.raw).value, a.stamp.now);
    }
  }

  /**
   An operation changes cases, handoffs, objectives or the inbox without an event in exactly two
   situations: a request stores its handoff and then raises for the status of the case, and an
   accepted update names a case that is not stored.
   */
  lemma UnrecordedIff(policy: CasePolicy, s: State, a: Action)
    requires Inv(policy, s) && Admissible(s, a)
    ensures Unrecorded(s, Step(policy, s, a))
       <==> (|| (&& a.op.AskHandoff? && StoresHandoff(s, a.op.caseId, a.op.finding)
                 && s.cases.m[a.op.caseId].status in {VerificationPending, Resolved})
             || (&& a.op.Deliver? && Accepted(s, a.op.raw)
                 && Lhp.ValidateUpdate(a.op.raw).value.caseId !in s.cases.m))
  {
    hide Inv, Step, Admissible, StoresHandoff, Accepted, Lhp.ValidateUpdate;
    if a.op.AskHandoff? {
      RequestIsRecorded(policy, s, a);
    } else if a.op.Deliver? {
      UpdateIsRecorded(policy, s, a);
    } else if a.op.Observe? {
      ObservationIsRecorded(policy, s, a);
    } else {
      NamedIsRecorded(policy, s, a);
    }
  }
}
