/** Inbound updates take effect exactly once, however often and in whatever order they are redelivered. */
module Callbacks {
  import opened Wrappers
  import opened Dicts
  import opened Models
  import opened Policy
  import opened Lifecycle
  import opened Runs
  import opened Invariants
  import opened Preservation
  import opened CaseMoves
  import opened LhpTokens
  import Lhp = LhpHandoff

  /** A delivery that is not accepted: malformed, redelivered, for an unknown handoff, or out of order. */
  ghost predicate Quiet(s: State, a: Action) {
    a.op.Deliver? && !Accepted(s, a.op.raw)
  }

  /** Such a delivery changes nothing at all. */
  lemma QuietChangesNothing(policy: CasePolicy, s: State, a: Action)
    requires Quiet(s, a)
    ensures Step(policy, s, a) == s
  {
    hide Lhp.ValidateUpdate, CallbackFor, Lhp.AllowedHandoffTransition;
  }

  lemma UpdateRaisesIff(s: State, u: Lhp.HandoffUpdate, now: int)
    ensures RecordEngineeringUpdate(s, u, now).result.Err? <==> CallbackFor(s, u.eventId).None? && !AcceptedNow(s, u)
  {
    hide CallbackFor, Lhp.AllowedHandoffTransition, UpdatedCase, Commit, BoundKind, InboxRecord;
  }

  /** A delivery raises exactly when it is malformed, or neither a redelivery nor accepted. */
  lemma DeliveryRaisesIff(policy: CasePolicy, s: State, a: Action)
    requires a.op.Deliver?
    ensures Perform(policy, s, a).1
       <==> (match Lhp.ValidateUpdate(a.op.raw)
             case Err(_) => true
             case Ok(u) => CallbackFor(s, u.eventId).None? && !AcceptedNow(s, u))
  {
    hide Lhp.ValidateUpdate, RecordEngineeringUpdate, AcceptedNow, CallbackFor;
    if Lhp.ValidateUpdate(a.op.raw).Ok? {
      UpdateRaisesIff(s, Lhp.ValidateUpdate(a.op.raw).value, a.stamp.now);
    }
  }

  /** The run without its quiet deliveries. */
  ghost function Essential(policy: CasePolicy, actions: seq<Action>): seq<Action> {
    if actions == [] then []
    else
      var before, a := actions[..|actions| - 1], actions[|actions| - 1];
      Essential(policy, before) + if Quiet(Run(policy, before), a) then [] else [a]
  }

  /** Deleting every redelivered or rejected update from a run leaves the whole store the same. */
  lemma {:induction false} EssentialRunAgrees(policy: CasePolicy, actions: seq<Action>)
    ensures Run(policy, Essential(policy, actions)) == Run(policy, actions)
    ensures AdmissibleRun(policy, actions) ==> AdmissibleRun(policy, Essential(policy, actions))
  {
    hide Step, Admissible, Quiet;
    if actions != [] {
      var before, a := actions[..|actions| - 1], actions[|actions| - 1];
      EssentialRunAgrees(policy, before);
      var kept := Essential(policy, before);
      if Quiet(Run(policy, before), a) {
        QuietChangesNothing(policy, Run(policy, before), a);
        assert kept + [] == kept;
      } else {
        assert (kept + [a])[..|kept|] == kept;
      }
    }
  }

  // --- the inbox ---

  /** The token under which a delivery is recorded and looked up. */
  function EventToken(raw: Lhp.RawUpdate): string {
    SanitizeToken(raw.eventId, Lhp.ID_LIMIT)
  }

  lemma ValidatedEventId(raw: Lhp.RawUpdate)
    ensures Lhp.ValidateUpdate(raw).Ok? ==> Lhp.ValidateUpdate(raw).value.eventId == EventToken(raw)
    ensures EventToken(raw) != ""
  {
    hide SanitizeToken;
    TokenShape(raw.eventId, Lhp.ID_LIMIT);
  }

  lemma RecordedCallbacks(s: State, u: Lhp.HandoffUpdate, now: int)
    ensures var t := RecordEngineeringUpdate(s, u, now).state;
            && (!AcceptedNow(s, u) ==> t.callbacks == s.callbacks)
            && (AcceptedNow(s, u) ==> t.callbacks.m.Keys == s.callbacks.m.Keys + {SanitizeToken(u.eventId, Lhp.ID_LIMIT)})
  {
    hide Commit, UpdatedCase, CallbackFor, Lhp.AllowedHandoffTransition, SanitizeToken;
  }

  lemma OtherCallbacks(policy: CasePolicy, s: State, a: Action)
    requires !a.op.Deliver?
    ensures Step(policy, s, a).callbacks == s.callbacks
  {
    hide CaseByFingerprint, FailedCase, PassedCase, TriagedCase, OpenedCase, CaseFromFinding, MovedCase, AllowedTransition,
         CanResolve, PassObjectives, ResolvedCase, DegradedCase, AcknowledgedCase, IssuedCase, Commit,
         BuildHandoff, HandoffByKey, HandedOffCase, PutObjectives, IdempotencyKey;
  }

  /** The inbox grows by the event token of an accepted delivery, and by nothing else. */
  lemma DeliveredCallbacks(policy: CasePolicy, s: State, a: Action)
    requires a.op.Deliver?
    ensures Step(policy, s, a).callbacks.m.Keys
         == if Accepted(s, a.op.raw) then s.callbacks.m.Keys + {EventToken(a.op.raw)} else s.callbacks.m.Keys
  {
    hide Lhp.ValidateUpdate, RecordEngineeringUpdate, AcceptedNow, SanitizeToken, ObserveFinding, RequestHandoff, VerifyCase, Triage, MarkNeedsHuman,
         NoteScanDegraded, Acknowledge, RecordIssue;
    ValidatedEventId(a.op.raw);
    TokenIdempotent(a.op.raw.eventId, Lhp.ID_LIMIT);
    if Lhp.ValidateUpdate(a.op.raw).Ok? {
      RecordedCallbacks(s, Lhp.ValidateUpdate(a.op.raw).value, a.stamp.now);
    }
  }

  lemma StepCallbacks(policy: CasePolicy, s: State, a: Action)
    ensures Step(policy, s, a).callbacks.m.Keys
         == if a.op.Deliver? && Accepted(s, a.op.raw) then s.callbacks.m.Keys + {EventToken(a.op.raw)} else s.callbacks.m.Keys
  {
    hide Step, EventToken, Accepted;
    if a.op.Deliver? {
      DeliveredCallbacks(policy, s, a);
    } else {
      OtherCallbacks(policy, s, a);
    }
  }

  lemma InboxBlocks(s: State, raw: Lhp.RawUpdate)
    requires EventToken(raw) in s.callbacks.m
    ensures !Accepted(s, raw)
  {
    hide Lhp.ValidateUpdate, Lhp.AllowedHandoffTransition, EventToken;
    ValidatedEventId(raw);
  }

  /** How many deliveries with a given event token a run accepted. */
  ghost function CountAccepted(policy: CasePolicy, actions: seq<Action>, token: string): nat {
    if actions == [] then 0
    else
      var before, a := actions[..|actions| - 1], actions[|actions| - 1];
      CountAccepted(policy, before, token)
      + if a.op.Deliver? && Accepted(Run(policy, before), a.op.raw) && EventToken(a.op.raw) == token then 1 else 0
  }

  /** Each event is accepted at most once over a whole run, and the inbox lists exactly the accepted ones. */
  lemma {:induction false} AcceptedExactlyOnce(policy: CasePolicy, actions: seq<Action>, token: string)
    ensures CountAccepted(policy, actions, token) == if token in Run(policy, actions).callbacks.m then 1 else 0
  {
    hide Step, Accepted, EventToken;
    if actions != [] {
      var before, a := actions[..|actions| - 1], actions[|actions| - 1];
      AcceptedExactlyOnce(policy, before, token);
      StepCallbacks(policy, Run(policy, before), a);
      if a.op.Deliver? && EventToken(a.op.raw) in Run(policy, before).callbacks.m {
        InboxBlocks(Run(policy, before), a.op.raw);
      }
      assert Run(policy, actions) == Step(policy, Run(policy, before), a);
    }
  }

  /** Once accepted, any later delivery with the same event token is quiet, at every point of every continuation. */
  lemma {:induction false} RedeliveriesAreQuiet(policy: CasePolicy, s: State, first: Action, between: seq<Action>, again: Action)
    requires first.op.Deliver? && Accepted(s, first.op.raw)
    requires again.op.Deliver? && EventToken(again.op.raw) == EventToken(first.op.raw)
    ensures EventToken(first.op.raw) in RunFrom(policy, Step(policy, s, first), between).callbacks.m
    ensures Quiet(RunFrom(policy, Step(policy, s, first), between), again)
  {
    hide Step, EventToken, Accepted;
    var t := RunFrom(policy, Step(policy, s, first), between);
    if between == [] {
      StepCallbacks(policy, s, first);
    } else {
      var n := |between| - 1;
      RedeliveriesAreQuiet(policy, s, first, between[..n], again);
      StepCallbacks(policy, RunFrom(policy, Step(policy, s, first), between[..n]), between[n]);
    }
    InboxBlocks(t, again.op.raw);
  }

  // --- which events count as the same ---

  /** A well-formed delivery that the service answers as a redelivery. */
  ghost predicate TakenForDuplicate(s: State, a: Action) {
    && a.op.Deliver? && Lhp.ValidateUpdate(a.op.raw).Ok?
    && var r := RecordEngineeringUpdate(s, Lhp.ValidateUpdate(a.op.raw).value, a.stamp.now).result;
       r.Ok? && r.value.duplicate
  }

  lemma DuplicateIffInInbox(s: State, a: Action)
    requires a.op.Deliver? && Lhp.ValidateUpdate(a.op.raw).Ok?
    ensures TakenForDuplicate(s, a) <==> EventToken(a.op.raw) in s.callbacks.m
  {
    hide Lhp.ValidateUpdate, EventToken, Lhp.AllowedHandoffTransition, UpdatedCase, InboxRecord, Commit;
    ValidatedEventId(a.op.raw);
  }

  /** No delivery of the run from `s` on is accepted under the token. */
  ghost predicate NoneAccepted(policy: CasePolicy, s: State, actions: seq<Action>, token: string) {
    actions != [] ==>
      var before, a := actions[..|actions| - 1], actions[|actions| - 1];
      && NoneAccepted(policy, s, before, token)
      && (a.op.Deliver? && Accepted(RunFrom(policy, s, before), a.op.raw) ==> EventToken(a.op.raw) != token)
  }

  lemma {:induction false} InboxKeepsOut(policy: CasePolicy, s: State, actions: seq<Action>, token: string)
    requires NoneAccepted(policy, s, actions, token)
    ensures token in RunFrom(policy, s, actions).callbacks.m <==> token in s.callbacks.m
  {
    hide Step, Accepted, EventToken;
    if actions != [] {
      var before, a := actions[..|actions| - 1], actions[|actions| - 1];
      InboxKeepsOut(policy, s, before, token);
      StepCallbacks(policy, RunFrom(policy, s, before), a);
    }
  }

  /**
   The dedup key is the token, not the raw id. After an accepted delivery and any continuation
   that accepts none under the token of a later one, that later one, if well formed and new to
   the inbox before, is taken for a redelivery if and only if the two ids have the same first
   token characters up to the limit, an id without any counting as `unknown`.
   */
  lemma CountedAsSameIff(policy: CasePolicy, s: State, first: Action, between: seq<Action>, again: Action)
    requires first.op.Deliver? && Accepted(s, first.op.raw)
    requires again.op.Deliver? && Lhp.ValidateUpdate(again.op.raw).Ok?
    requires EventToken(again.op.raw) !in s.callbacks.m
    requires NoneAccepted(policy, Step(policy, s, first), between, EventToken(again.op.raw))
    ensures TakenForDuplicate(RunFrom(policy, Step(policy, s, first), between), again)
       <==> AgreeUpTo(TokenText(first.op.raw.eventId), TokenText(again.op.raw.eventId), 180)
  {
    var token := EventToken(again.op.raw);
    TokensCollideIff(first.op.raw.eventId, again.op.raw.eventId, Lhp.ID_LIMIT);
    assert EventToken(first.op.raw) == token <==> AgreeUpTo(TokenText(first.op.raw.eventId), TokenText(again.op.raw.eventId), 180);
    hide Step, Accepted, EventToken, TokenText, AgreeUpTo, TakenForDuplicate, NoneAccepted, Lhp.ValidateUpdate;
    StepCallbacks(policy, s, first);
    InboxKeepsOut(policy, Step(policy, s, first), between, token);
    DuplicateIffInInbox(RunFrom(policy, Step(policy, s, first), between), again);
  }

  lemma SameTokenIsDropped(policy: CasePolicy, s: State, first: Action, again: Action)
    requires first.op.Deliver? && Accepted(s, first.op.raw) && again.op.Deliver?
    requires EventToken(again.op.raw) == EventToken(first.op.raw)
    ensures Step(policy, Step(policy, s, first), again) == Step(policy, s, first)
  {
    hide Step, Accepted, Quiet, EventToken;
    RedeliveriesAreQuiet(policy, s, first, [], again);
    QuietChangesNothing(policy, Step(policy, s, first), again);
  }

  /** Ids that differ only by characters that sanitising drops. */
  lemma DistinctEventsCanCollide(policy: CasePolicy, s: State, first: Action, again: Action, a: string, u: string, b: string)
    requires first.op.Deliver? && Accepted(s, first.op.raw) && again.op.Deliver?
    requires u != [] && NoTokenChars(u)
    requires first.op.raw.eventId == a + b && again.op.raw.eventId == a + u + b
    ensures first.op.raw.eventId != again.op.raw.eventId
    ensures Step(policy, Step(policy, s, first), again) == Step(policy, s, first)
  {
    hide Step, Accepted, SanitizeToken;
    TokensCollide(a, u, b, Lhp.ID_LIMIT);
    assert |a + b| != |a + u + b|;
    SameTokenIsDropped(policy, s, first, again);
  }

  /** Ids that differ only behind the cut. */
  lemma EventsCollideByCut(policy: CasePolicy, s: State, first: Action, again: Action, a: string, u: string, v: string)
    requires first.op.Deliver? && Accepted(s, first.op.raw) && again.op.Deliver?
    requires |KeepTokenChars(a)| >= Lhp.ID_LIMIT
    requires first.op.raw.eventId == a + u && again.op.raw.eventId == a + v
    ensures Step(policy, Step(policy, s, first), again) == Step(policy, s, first)
  {
    hide Step, Accepted, SanitizeToken;
    TokensCollideByCut(a, u, v, Lhp.ID_LIMIT);
    SameTokenIsDropped(policy, s, first, again);
  }

  /** An id without token characters, after the id `unknown` or another such id. */
  lemma EventsCollideAsUnknown(policy: CasePolicy, s: State, first: Action, again: Action)
    requires first.op.Deliver? && Accepted(s, first.op.raw) && again.op.Deliver?
    requires first.op.raw.eventId == "unknown" || NoTokenChars(first.op.raw.eventId)
    requires NoTokenChars(again.op.raw.eventId)
    ensures Step(policy, Step(policy, s, first), again) == Step(policy, s, first)
  {
    hide Step, Accepted, SanitizeToken, NoTokenChars;
    TokensCollideAsUnknown(again.op.raw.eventId, Lhp.ID_LIMIT);
    if first.op.raw.eventId != "unknown" {
      TokensCollideAsUnknown(first.op.raw.eventId, Lhp.ID_LIMIT);
    }
    SameTokenIsDropped(policy, s, first, again);
  }
}
