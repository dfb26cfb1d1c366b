/**
 The case service (app/cases/service.py): every method fetches copies, changes them field by
 field, puts them back and appends events. Each is proved to do to the store exactly what the
 lifecycle function of the same name says, so the theorems about runs are theorems about it.
 */
module CaseService {
  import opened Wrappers
  import opened Dicts
  import opened Models
  import opened Policy
  import opened Lifecycle
  import opened CaseStore
  import opened WriteLog
  import Sorting
  import LhpTokens
  import Lhp = LhpHandoff

  class SecurityCaseService {
    const store: InMemoryStore
    const policy: CasePolicy

    constructor (store: InMemoryStore, policy: CasePolicy)
      ensures this.store == store && this.policy == policy
    {
      this.store, this.policy := store, policy;
    }

    // --- observation ---

    method ObserveFinding(f: Finding, cycle: string, stamp: Stamp) returns (r: Observed)
      requires store.Valid()
      modifies store
      ensures store.Valid()
      ensures (store.View(), r) == Lifecycle.ObserveFinding(policy, old(store.View()), f, cycle, stamp)
      ensures store.written == old(store.written) + ObserveWrites(policy, old(store.View()), f, cycle, stamp)
    {
      hide InMemoryStore.Valid, InMemoryStore.View, Lifecycle.RecordFailing, Lifecycle.RecordPassing, CaseByFingerprint,
           FailingWrites, PassingWrites, CaseFromFinding;
      ghost var start := store.written;
      store.PutFinding(f);
      var existing := store.GetCaseByFingerprint(f.fingerprint);
      if !f.passed {
        r := RecordFailing(f, existing, cycle, stamp);
        AppendAssoc(start, [FindingWrite(f)], FailingWrites(policy, f, existing, cycle, stamp));
        return;
      }
      if existing.Some? {
        r := RecordPassing(existing.value, cycle, stamp.now);
        AppendAssoc(start, [FindingWrite(f)], PassingWrites(existing.value, cycle, stamp.now));
        return;
      }
      r := Observed(CaseFromFinding(policy, f, stamp), false, false, false);
    }

    method NoteScanDegraded(caseId: string, cycle: string, now: int)
      requires store.Valid()
      modifies store
      ensures store.Valid()
      ensures store.View() == Lifecycle.NoteScanDegraded(old(store.View()), caseId, cycle, now)
      ensures store.written == old(store.written) + DegradedWrites(old(store.View()), caseId, cycle, now)
    {
      hide InMemoryStore.Valid, InMemoryStore.View, MoveWrites;
      var found := store.GetCase(caseId);
      if found.None? {
        return;
      }
      var c := found.value;
      c := c.(scanDegraded := true);
      c := c.(scanCycle := cycle);
      c := c.(lastEvaluated := Some(now));
      c := c.(updatedAt := Some(now));
      store.PutCase(c);
      Emit(caseId, Loop, ScanDegraded(cycle));
      StoredAndTold(old(store.written), c, NewEvent(caseId, Loop, ScanDegraded(cycle)));
    }

    // --- lifecycle transitions ---

    method Triage(caseId: string, actor: Actor, now: int) returns (r: Result<Option<SecurityCase>, Error>)
      requires store.Valid()
      modifies store
      ensures store.Valid()
      ensures Outcome(store.View(), r) == Lifecycle.Triage(old(store.View()), caseId, actor, now)
      ensures store.written == old(store.written) + TransitionWrites(old(store.View()), caseId, None, actor, now)
    {
      hide InMemoryStore.Valid, InMemoryStore.View;
      r := Transition(caseId, None, actor, now);
    }

    method MarkNeedsHuman(caseId: string, reason: string, actor: Actor, now: int) returns (r: Result<Option<SecurityCase>, Error>)
      requires store.Valid()
      modifies store
      ensures store.Valid()
      ensures Outcome(store.View(), r) == Lifecycle.MarkNeedsHuman(old(store.View()), caseId, reason, actor, now)
      ensures store.written == old(store.written) + TransitionWrites(old(store.View()), caseId, Some(reason), actor, now)
    {
      hide InMemoryStore.Valid, InMemoryStore.View;
      r := Transition(caseId, Some(reason), actor, now);
    }

    method Acknowledge(caseId: string, operator: string, now: int) returns (r: Option<SecurityCase>)
      requires store.Valid()
      modifies store
      ensures store.Valid()
      ensures store.View() == Lifecycle.Acknowledge(old(store.View()), caseId, operator, now)
      ensures r == store.View().cases.Get(caseId)
      ensures store.written == old(store.written) + AcknowledgeWrites(old(store.View()), caseId, operator, now)
    {
      hide InMemoryStore.Valid, InMemoryStore.View, MoveWrites;
      r := store.GetCase(caseId);
      if r.None? {
        return;
      }
      var c := r.value;
      c := c.(acknowledgedBy := operator);
      c := c.(acknowledgedAt := Some(now));
      c := c.(updatedAt := Some(now));
      store.PutCase(c);
      Emit(caseId, Operator, Acknowledged(operator));
      StoredAndTold(old(store.written), c, NewEvent(caseId, Operator, Acknowledged(operator)));
      r := Some(c);
    }

    // --- cross-loop ---

    /** `passes` 0 stands for the absent argument. */
    method RequestHandoff(caseId: string, f: Finding, passes: nat, stamp: Stamp) returns (r: Result<Option<Bundle>, Error>)
      requires store.Valid()
      modifies store
      ensures store.Valid()
      ensures Outcome(store.View(), r) == Lifecycle.RequestHandoff(old(store.View()), caseId, f, passes, stamp)
      ensures store.written == old(store.written) + RequestWrites(old(store.View()), caseId, f, passes, stamp)
    {
      hide InMemoryStore.Valid, InMemoryStore.View, MoveWrites, BuildHandoff, HandoffByKey, Lifecycle.ListObjectives, AllowedTransition, HandoffReady, IdempotencyKey, BoundKind,
           ObjectiveWrites, PutObjectives, HandedOffCase;
      var found := store.GetCase(caseId);
      if found.None? {
        return Ok(None);
      }
      var c := found.value;
      var built := BuildHandoff(f, c, if passes == 0 then c.requiredPasses else passes, stamp);
      if built.Err? {
        return Err(built.error);
      }
      var h := built.value.handoff;
      assert h.status == Lhp.Requested by { BuiltRequested(f, c, if passes == 0 then c.requiredPasses else passes, stamp); }
      var existing := store.GetHandoffByIdempotencyKey(h.idempotencyKey);
      if existing.Some? {
        var objectives := store.ListObjectives(Some(existing.value.handoffId), None);
        return Ok(Some(Bundle(existing.value, objectives)));
      }
      ghost var start := store.written;
      store.PutHandoff(h);
      PutAllObjectives(built.value.objectives);
      ghost var stored := [HandoffWrite(h)] + ObjectiveWrites(built.value.objectives);
      AppendAssoc(start, [HandoffWrite(h)], ObjectiveWrites(built.value.objectives));
      if c.status != HandoffRequested && c.status != HandoffInProgress {
        if !AllowedTransition(c.status, HandoffRequested, Loop) {
          assert stored + [] == stored;
          return Err(InvalidTransition(c.status, HandoffRequested));
        }
      }
      c := MarkHandedOff(c, h, stamp.now);
      store.PutCase(c);
      Emit(caseId, Loop, HandoffAsked(h.handoffId, h.objectiveKey));
      ghost var e := NewEvent(caseId, Loop, HandoffAsked(h.handoffId, h.objectiveKey));
      StoredAndTold(start + stored, c, e);
      AppendAssoc(start, stored, MoveWrites(c, e));
      r := Ok(Some(built.value));
    }

    method MarkHandedOff(subject: SecurityCase, h: Handoff, now: int) returns (c: SecurityCase)
      requires h.status == Lhp.Requested
      ensures c == HandedOffCase(subject, h.handoffId, now) && c.caseId == subject.caseId
    {
      c := subject;
      if c.status != HandoffRequested && c.status != HandoffInProgress {
        c := c.(status := HandoffRequested);
      }
      if h.handoffId !in c.handoffIds {
        c := c.(handoffIds := c.handoffIds + [h.handoffId]);
      }
      c := c.(handoffStatus := Some(h.status));
      c := c.(lastHandoff := Some(now));
      c := c.(updatedAt := Some(now));
    }

    static lemma BuiltRequested(f: Finding, c: SecurityCase, passes: nat, stamp: Stamp)
      requires BuildHandoff(f, c, passes, stamp).Ok?
      ensures BuildHandoff(f, c, passes, stamp).value.handoff.status == Lhp.Requested
    {
      hide HandoffReady;
    }

    method PutAllObjectives(list: seq<Objective>)
      requires store.Valid()
      modifies store
      ensures store.Valid()
      ensures store.View() == old(store.View()).(objectives := PutObjectives(old(store.View()).objectives, list))
      ensures store.written == old(store.written) + ObjectiveWrites(list)
    {
      hide InMemoryStore.Valid, InMemoryStore.View, PutObjectives, ObjectiveWrites;
      PutNone(old(store.View()).objectives, list[..0]);
      for i := 0 to |list|
        invariant store.Valid()
        invariant store.View() == old(store.View()).(objectives := PutObjectives(old(store.View()).objectives, list[..i]))
        invariant store.written == old(store.written) + ObjectiveWrites(list[..i])
      {
        store.PutObjective(list[i]);
        assert list[..i + 1] == list[..i] + [list[i]];
        PutSnoc(old(store.View()).objectives, list[..i], list[i]);
        WritesSnoc(list[..i], list[i]);
        AppendAssoc(old(store.written), ObjectiveWrites(list[..i]), [ObjectiveWrite(list[i])]);
      }
      assert list[..|list|] == list;
    }

    static lemma PutNone(d: Dict<string, Objective>, list: seq<Objective>)
      requires list == []
      ensures PutObjectives(d, list) == d && ObjectiveWrites(list) == []
    {
    }

    static lemma {:induction false} PutSnoc(d: Dict<string, Objective>, list: seq<Objective>, o: Objective)
      ensures PutObjectives(d, list + [o]) == PutObjectives(d, list).Put(o.objectiveId, o)
      decreases |list|
    {
      if list == [] {
        assert list + [o] == [o] && [o][1..] == [];
      } else {
        assert (list + [o])[0] == list[0] && (list + [o])[1..] == list[1..] + [o];
        PutSnoc(d.Put(list[0].objectiveId, list[0]), list[1..], o);
      }
    }

    static lemma WritesSnoc(list: seq<Objective>, o: Objective)
      ensures ObjectiveWrites(list + [o]) == ObjectiveWrites(list) + [ObjectiveWrite(o)]
    {
    }

    method RecordIssue(caseId: string, url: string, id: string, now: int) returns (r: Option<SecurityCase>)
      requires store.Valid()
      modifies store
      ensures store.Valid()
      ensures store.View() == Lifecycle.RecordIssue(old(store.View()), caseId, url, id, now)
      ensures r == store.View().cases.Get(caseId)
      ensures store.written == old(store.written) + IssueWrites(old(store.View()), caseId, url, id, now)
    {
      hide InMemoryStore.Valid, InMemoryStore.View, MoveWrites;
      r := store.GetCase(caseId);
      if r.None? {
        return;
      }
      var c := r.value;
      c := c.(issueUrl := url);
      c := c.(issueId := id);
      c := c.(updatedAt := Some(now));
      store.PutCase(c);
      Emit(caseId, Loop, IssueOpened(url, id));
      StoredAndTold(old(store.written), c, NewEvent(caseId, Loop, IssueOpened(url, id)));
      r := Some(c);
    }

    method RecordEngineeringUpdate(u: Lhp.HandoffUpdate, now: int) returns (r: Result<UpdateResult, Error>)
      requires store.Valid()
      modifies store
      ensures store.Valid()
      ensures Outcome(store.View(), r) == Lifecycle.RecordEngineeringUpdate(old(store.View()), u, now)
      ensures store.written == old(store.written) + UpdateWrites(old(store.View()), u, now)
    {
      hide InMemoryStore.Valid, InMemoryStore.View, Lhp.AllowedHandoffTransition, UpdatedCase, InboxRecord, BoundKind, MoveWrites;
      ghost var start := store.written;
      var seen := store.GetCallback(u.eventId);
      if seen.Some? {
        var h := store.GetHandoff(u.handoffId);
        var c := store.GetCase(u.caseId);
        return Ok(UpdateResult(h, c, false, true));
      }
      var found := store.GetHandoff(u.handoffId);
      if found.None? {
        return Err(UnknownHandoff(u.handoffId));
      }
      var h := found.value;
      if !Lhp.AllowedHandoffTransition(h.status, u.status, Lhp.Engineering) {
        return Err(InvalidHandoffTransition(h.status, u.status));
      }
      h := h.(status := u.status);
      h := h.(updatedAt := now);
      store.PutHandoff(h);
      var subject := store.GetCase(u.caseId);
      ghost var moved: seq<Write> := [];
      if subject.Some? {
        var c := subject.value;
        c := MarkUpdated(c, u, now);
        store.PutCase(c);
        Emit(c.caseId, EngineeringLoop, EngineeringUpdated(u.updateType, u.status, u.handoffId));
        ghost var e := NewEvent(c.caseId, EngineeringLoop, EngineeringUpdated(u.updateType, u.status, u.handoffId));
        StoredAndTold(start + [HandoffWrite(h)], c, e);
        AppendAssoc(start, [HandoffWrite(h)], MoveWrites(c, e));
        moved := MoveWrites(c, e);
        subject := Some(c);
      }
      var record := InboxRecord(u, h.status, if subject.Some? then Some(subject.value.status) else None);
      store.PutCallback(record);
      AppendAssoc(start, [HandoffWrite(h)] + moved, [CallbackWrite(record)]);
      AppendAssoc([HandoffWrite(h)], moved, [CallbackWrite(record)]);
      r := Ok(UpdateResult(Some(h), subject, true, false));
    }

    method MarkUpdated(subject: SecurityCase, u: Lhp.HandoffUpdate, now: int) returns (c: SecurityCase)
      ensures c == UpdatedCase(subject, u, now) && c.caseId == subject.caseId
    {
      hide AllowedTransition;
      c := subject;
      var target := UpdateTarget(u.updateType, u.status);
      if target.Some? && c.status != target.value && AllowedTransition(c.status, target.value, EngineeringLoop) {
        c := c.(status := target.value);
      }
      c := c.(handoffStatus := Some(u.status));
      c := c.(updatedAt := Some(now));
    }

    // --- internals ---

    method RecordFailing(f: Finding, existing: Option<SecurityCase>, cycle: string, stamp: Stamp) returns (r: Observed)
      requires store.Valid()
      requires existing.Some? ==> store.View().cases.Get(existing.value.caseId) == existing
      modifies store
      ensures store.Valid()
      ensures (store.View(), r) == Lifecycle.RecordFailing(policy, old(store.View()), f, existing, cycle, stamp)
      ensures store.written == old(store.written) + FailingWrites(policy, f, existing, cycle, stamp)
    {
      hide InMemoryStore.Valid, InMemoryStore.View, BoundKind, OpenedCase, FailedCase, TriagedCase, Lifecycle.Transition, Commit,
           MoveWrites, TransitionWrites;
      ghost var start := store.written;
      if existing.None? {
        var c := OpenCase(f, cycle, stamp);
        ghost var e := NewEvent(c.caseId, Loop, CaseOpened(f.findingId, f.severity));
        store.PutCase(c);
        Emit(c.caseId, Loop, CaseOpened(f.findingId, f.severity));
        TriageAfterPut(old(store.View()), c, e, stamp.now);
        var _ := Transition(c.caseId, None, Loop, stamp.now);
        StoredAndTold(start, c, e);
        AppendAssoc(start, MoveWrites(c, e), MoveWrites(TriagedCase(c, stamp.now), NewEvent(c.caseId, Loop, MovedToTriaged(Open))));
        var current := store.GetCase(c.caseId);
        return Observed(if current.Some? then current.value else c, true, true, false);
      }
      var c, changed, reopened := MarkFailing(existing.value, f, cycle, stamp.now);
      store.PutCase(c);
      var kind := if reopened then Reopened(f.findingId, changed) else RefreshFailing(f.findingId, changed);
      ghost var e := NewEvent(c.caseId, Loop, kind);
      Emit(c.caseId, Loop, kind);
      PutIsCommit(old(store.View()), c, e);
      StoredAndTold(start, c, e);
      if reopened {
        TriageAfterPut(old(store.View()), c, e, stamp.now);
        var _ := Transition(c.caseId, None, Loop, stamp.now);
        AppendAssoc(start, MoveWrites(c, e), MoveWrites(TriagedCase(c, stamp.now), NewEvent(c.caseId, Loop, MovedToTriaged(Open))));
      }
      var current := store.GetCase(c.caseId);
      r := Observed(if current.Some? then current.value else c, false, changed, reopened);
    }

    method OpenCase(f: Finding, cycle: string, stamp: Stamp) returns (c: SecurityCase)
      ensures c == OpenedCase(policy, f, cycle, stamp) && c.caseId == stamp.caseId && c.status == Open
    {
      c := CaseFromFinding(policy, f, stamp);
      c := c.(status := Open);
      c := c.(signature := f.signature);
      c := c.(lastFailing := Some(stamp.now), lastEvaluated := Some(stamp.now));
      c := c.(scanCycle := cycle, scanDegraded := false, passCount := 0);
      c := c.(findingIds := [f.findingId]);
    }

    method MarkFailing(subject: SecurityCase, f: Finding, cycle: string, now: int)
      returns (c: SecurityCase, changed: bool, reopened: bool)
      ensures c == FailedCase(subject, f, cycle, now) && c.caseId == subject.caseId
      ensures changed == (f.signature != subject.signature)
      ensures reopened == Terminal(subject.status) && (reopened ==> c.status == Open)
    {
      c, reopened := subject, false;
      if Terminal(c.status) {
        assert AllowedTransition(c.status, Open, Loop);
        c := c.(status := Open);
        c := c.(resolvedAt := None);
        reopened := true;
      }
      c := c.(previousSignature := c.signature);
      changed := f.signature != c.signature;
      c := c.(signature := f.signature, severity := f.severity);
      c := c.(lastFailing := Some(now), lastEvaluated := Some(now), scanCycle := cycle);
      c := c.(scanDegraded := false, passCount := 0);
      if f.findingId !in c.findingIds {
        c := c.(findingIds := c.findingIds + [f.findingId]);
      }
      c := c.(updatedAt := Some(now));
    }

    static lemma PutIsCommit(s: State, c: SecurityCase, e: Event)
      ensures s.(cases := s.cases.Put(c.caseId, c), events := s.events + [e]) == Commit(s, c, [e])
      ensures Commit(s, c, [e]).cases.Get(c.caseId) == Some(c)
    {
    }

    /** Opening or reopening a case and then triaging it is one commit with two events. */
    static lemma TriageAfterPut(s: State, c: SecurityCase, e: Event, now: int)
      requires c.status == Open
      ensures var t := s.(cases := s.cases.Put(c.caseId, c), events := s.events + [e]);
              var d := TriagedCase(c, now);
              var done := Commit(s, d, [e, NewEvent(c.caseId, Loop, MovedToTriaged(Open))]);
              && Lifecycle.Transition(t, c.caseId, None, Loop, now).state == done
              && TransitionWrites(t, c.caseId, None, Loop, now) == MoveWrites(d, NewEvent(c.caseId, Loop, MovedToTriaged(Open)))
              && done.cases.Get(c.caseId) == Some(d)
    {
      hide BoundKind;
      PutTwice(s.cases, c.caseId, c, TriagedCase(c, now));
      assert s.events + [e] + [NewEvent(c.caseId, Loop, MovedToTriaged(Open))]
          == s.events + [e, NewEvent(c.caseId, Loop, MovedToTriaged(Open))];
    }

    method RecordPassing(subject: SecurityCase, cycle: string, now: int) returns (r: Observed)
      requires store.Valid() && store.View().cases.Get(subject.caseId) == Some(subject)
      modifies store
      ensures store.Valid()
      ensures (store.View(), r) == Lifecycle.RecordPassing(old(store.View()), subject, cycle, now)
      ensures store.written == old(store.written) + PassingWrites(subject, cycle, now)
    {
      hide InMemoryStore.Valid, InMemoryStore.View, MoveWrites, BoundKind;
      var c := subject;
      if Terminal(c.status) {
        return Observed(c, false, false, false);
      }
      c := c.(lastPassing := Some(now), lastEvaluated := Some(now), scanCycle := cycle);
      c := c.(scanDegraded := false);
      c := c.(passCount := c.passCount + 1);
      c := c.(updatedAt := Some(now));
      store.PutCase(c);
      Emit(c.caseId, Loop, PositiveRecheck(c.passCount, c.requiredPasses));
      StoredAndTold(old(store.written), c, NewEvent(c.caseId, Loop, PositiveRecheck(c.passCount, c.requiredPasses)));
      var current := store.GetCase(c.caseId);
      r := Observed(if current.Some? then current.value else c, false, true, false);
    }

    /** Moves to triaged, or with a reason to needs_human. */
    method Transition(caseId: string, reason: Option<string>, actor: Actor, now: int) returns (r: Result<Option<SecurityCase>, Error>)
      requires store.Valid()
      modifies store
      ensures store.Valid()
      ensures Outcome(store.View(), r) == Lifecycle.Transition(old(store.View()), caseId, reason, actor, now)
      ensures store.written == old(store.written) + TransitionWrites(old(store.View()), caseId, reason, actor, now)
    {
      hide InMemoryStore.Valid, InMemoryStore.View, MoveWrites, BoundKind, AllowedTransition;
      var found := store.GetCase(caseId);
      if found.None? {
        return Ok(None);
      }
      var c := found.value;
      var target := MoveTarget(reason);
      if c.status == target {
        return Ok(Some(c));
      }
      if !AllowedTransition(c.status, target, actor) {
        return Err(InvalidTransition(c.status, target));
      }
      var prior := c.status;
      c := c.(status := target);
      c := c.(updatedAt := Some(now));
      store.PutCase(c);
      Emit(caseId, actor, MoveEvent(prior, reason));
      StoredAndTold(old(store.written), c, NewEvent(caseId, actor, MoveEvent(prior, reason)));
      r := Ok(Some(c));
    }

    method Emit(caseId: string, actor: Actor, kind: EventKind)
      requires store.Valid()
      modifies store
      ensures store.Valid()
      ensures store.View() == old(store.View()).(events := old(store.View()).events + [NewEvent(caseId, actor, kind)])
      ensures store.written == old(store.written) + [EventWrite(NewEvent(caseId, actor, kind))]
    {
      hide InMemoryStore.Valid, InMemoryStore.View;
      store.AppendEvent(NewEvent(caseId, actor, kind));
    }
  }
}
