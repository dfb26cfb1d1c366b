/** The verifier (app/cases/verifier.py), the one component that resolves cases. */
module Verifier {
  import opened Wrappers
  import opened Dicts
  import opened Models
  import opened Policy
  import opened Lifecycle
  import opened CaseStore
  import opened WriteLog
  import Sorting
  import Lhp = LhpHandoff

  // --- marking objectives one by one ---

  /** The objectives after the listed ones were marked as passed, in that order. */
  function PassEach(d: Dict<string, Objective>, list: seq<Objective>, count: nat, now: int): Dict<string, Objective> {
    if list == [] then d
    else
      var o := list[|list| - 1];
      PassEach(d, list[..|list| - 1], count, now).Put(o.objectiveId, PassedObjective(o, count, now))
  }

  ghost predicate UnderOwnIds(d: Dict<string, Objective>) {
    forall k | k in d.m :: d.m[k].objectiveId == k
  }

  lemma {:induction false} PassEachMeaning(d: Dict<string, Objective>, list: seq<Objective>, count: nat, now: int)
    requires UnderOwnIds(d) && forall o | o in list :: o.objectiveId in d.m && d.m[o.objectiveId] == o
    ensures var r := PassEach(d, list, count, now);
            && r.keys == d.keys && r.m.Keys == d.m.Keys
            && forall k | k in d.m :: r.m[k] == if d.m[k] in list then PassedObjective(d.m[k], count, now) else d.m[k]
  {
    hide PassedObjective;
    if list != [] {
      var n := |list| - 1;
      assert list == list[..n] + [list[n]];
      PassEachMeaning(d, list[..n], count, now);
      var r := PassEach(d, list, count, now);
      forall k | k in d.m ensures k in r.m && r.m[k] == if d.m[k] in list then PassedObjective(d.m[k], count, now) else d.m[k] {
        assert d.m[k] in list <==> d.m[k] in list[..n] || k == list[n].objectiveId;
      }
    }
  }

  lemma {:induction false} SelectedIff(keys: seq<string>, m: map<string, Objective>, caseId: string, o: Objective)
    requires forall k | k in keys :: k in m
    ensures o in SelectObjectives(keys, m, None, Some(caseId)) <==> o.caseId == caseId && exists k | k in keys :: m[k] == o
  {
    if keys != [] {
      var n := |keys| - 1;
      assert keys == keys[..n] + [keys[n]];
      SelectedIff(keys[..n], m, caseId, o);
    }
  }

  /** Marking the listed objectives of a case, whatever their order, marks exactly the objectives of the case. */
  lemma PassEachIsPassObjectives(s: State, caseId: string, count: nat, now: int)
    requires UnderOwnIds(s.objectives)
    ensures PassEach(s.objectives, ListObjectives(s, None, Some(caseId)), count, now) == PassObjectives(s.objectives, caseId, count, now)
  {
    hide Sorting.SortBy, PassedObjective, SelectObjectives, PassEach;
    var d := s.objectives;
    var list := ListObjectives(s, None, Some(caseId));
    ListedIff(s, caseId);
    PassEachMeaning(d, list, count, now);
    assert PassEach(d, list, count, now).m == PassObjectives(d, caseId, count, now).m;
  }

  lemma ListedIff(s: State, caseId: string)
    requires UnderOwnIds(s.objectives)
    ensures var list := ListObjectives(s, None, Some(caseId));
            && (forall o | o in list :: o.objectiveId in s.objectives.m && s.objectives.m[o.objectiveId] == o)
            && (forall k | k in s.objectives.m :: s.objectives.m[k] in list <==> s.objectives.m[k].caseId == caseId)
  {
    hide Sorting.SortBy, SelectObjectives;
    var d := s.objectives;
    var found := SelectObjectives(d.keys, d.m, None, Some(caseId));
    var list := ListObjectives(s, None, Some(caseId));
    Sorting.SortMeaning(found, CreatedAt);
    forall o ensures o in list <==> o in found {
      assert o in multiset(list) <==> o in multiset(found);
    }
    forall o ensures o in found <==> o.caseId == caseId && exists k | k in d.keys :: d.m[k] == o {
      SelectedIff(d.keys, d.m, caseId, o);
    }
  }

  class SecurityVerifier {
    const store: InMemoryStore
    const settings: VerifierSettings

    constructor (store: InMemoryStore, settings: VerifierSettings)
      ensures this.store == store && this.settings == settings
    {
      this.store, this.settings := store, settings;
    }

    method VerifyCase(caseId: string, reason: string, now: int) returns (r: Option<VerifyResult>)
      requires store.Valid()
      modifies store
      ensures store.Valid()
      ensures (store.View(), r) == Lifecycle.VerifyCase(settings, old(store.View()), caseId, reason, now)
      ensures store.written == old(store.written) + VerifyWrites(settings, old(store.View()), caseId, reason, now)
    {
      hide InMemoryStore.Valid, InMemoryStore.View, BoundKind, CanResolve, PassObjectives, PassEach, ListObjectives, ResolvedCase, PassWrites;
      var found := store.GetCase(caseId);
      if found.None? {
        return None;
      }
      var c := found.value;
      if Terminal(c.status) {
        return Some(VerifyResult(c, false, false));
      }
      var would := CanResolve(settings.policy, c);
      if !(would && settings.autoResolve && !settings.dryRun) {
        return Some(VerifyResult(c, would, false));
      }
      assert AllowedTransition(c.status, Resolved, Actor.Verifier);
      var prior := c.status;
      c := MarkResolved(c, reason, now);
      store.PutCase(c);
      var list := store.ListObjectives(None, Some(caseId));
      ghost var (before, start) := (store.View(), store.written);
      assert UnderOwnIds(before.objectives) by { store.ObjectivesUnderOwnIds(); }
      ListSame(old(store.View()), before, caseId);
      PassNone(before.objectives, list, c.passCount, now);
      for i := 0 to |list|
        invariant store.Valid()
        invariant store.View() == before.(objectives := PassEach(before.objectives, list[..i], c.passCount, now))
        invariant store.written == start + PassWrites(list[..i], c.passCount, now)
      {
        MarkOne(list[i], c.passCount, now);
        PassEachSnoc(before.objectives, list, i, c.passCount, now);
        AppendAssoc(start, PassWrites(list[..i], c.passCount, now), [ObjectiveWrite(PassedObjective(list[i], c.passCount, now))]);
      }
      assert list[..|list|] == list;
      PassEachIsPassObjectives(before, caseId, c.passCount, now);
      ghost var e := NewEvent(caseId, Actor.Verifier, CaseResolved(prior, c.passCount, c.requiredPasses, reason));
      store.AppendEvent(NewEvent(caseId, Actor.Verifier, CaseResolved(prior, c.passCount, c.requiredPasses, reason)));
      AppendAssoc(old(store.written), [CaseWrite(c)], PassWrites(list, c.passCount, now));
      AppendAssoc(old(store.written), [CaseWrite(c)] + PassWrites(list, c.passCount, now), [EventWrite(e)]);
      r := Some(VerifyResult(c, true, true));
    }

    static lemma ListSame(s: State, t: State, caseId: string)
      requires t.objectives == s.objectives
      ensures ListObjectives(t, None, Some(caseId)) == ListObjectives(s, None, Some(caseId))
    {
    }

    static lemma PassNone(d: Dict<string, Objective>, list: seq<Objective>, count: nat, now: int)
      ensures PassEach(d, list[..0], count, now) == d && PassWrites(list[..0], count, now) == []
    {
    }

    static lemma PassEachSnoc(d: Dict<string, Objective>, list: seq<Objective>, i: nat, count: nat, now: int)
      requires i < |list|
      ensures PassEach(d, list[..i + 1], count, now)
           == PassEach(d, list[..i], count, now).Put(list[i].objectiveId, PassedObjective(list[i], count, now))
      ensures PassWrites(list[..i + 1], count, now)
           == PassWrites(list[..i], count, now) + [ObjectiveWrite(PassedObjective(list[i], count, now))]
    {
      assert list[..i + 1][..i] == list[..i];
    }

    method MarkOne(objective: Objective, count: nat, now: int)
      requires store.Valid()
      modifies store
      ensures store.Valid()
      ensures store.View()
           == old(store.View()).(objectives := old(store.View()).objectives.Put(objective.objectiveId, PassedObjective(objective, count, now)))
      ensures store.written == old(store.written) + [ObjectiveWrite(PassedObjective(objective, count, now))]
    {
      hide InMemoryStore.Valid, InMemoryStore.View;
      var o := objective;
      o := o.(status := Pass);
      o := o.(passCount := count);
      o := o.(lastChecked := Some(now));
      store.PutObjective(o);
    }

    method MarkResolved(subject: SecurityCase, reason: string, now: int) returns (c: SecurityCase)
      ensures c == ResolvedCase(subject, reason, now)
      ensures c.caseId == subject.caseId && c.passCount == subject.passCount && c.requiredPasses == subject.requiredPasses
    {
      c := subject;
      c := c.(status := Resolved);
      c := c.(resolvedAt := Some(now), resolutionReason := reason, updatedAt := Some(now));
      if c.handoffIds != [] {
        c := c.(handoffStatus := Some(Lhp.Resolved));
      }
    }
  }
}
