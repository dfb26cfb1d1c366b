/** What the store's lists hold: exactly the records asked for, each once, oldest first; and what a repeated request answers. */
module Listings {
  import opened Wrappers
  import opened Dicts
  import opened Models
  import opened Policy
  import opened Lifecycle
  import opened Runs
  import opened Invariants
  import opened Verifier
  import CaseMoves
  import Engineering
  import Playback
  import Preservation
  import Sorting

  // --- objectives ---

  /** The objective is of the handoff, if one is given, and of the case, if one is given. */
  predicate Asked(o: Objective, handoffId: Option<string>, caseId: Option<string>) {
    && (handoffId == None || handoffId == Some(o.handoffId))
    && (caseId == None || caseId == Some(o.caseId))
  }

  lemma ConcernsIff(o: Objective, handoffId: Option<string>, caseId: Option<string>)
    ensures Concerns(o, handoffId, caseId) <==> Asked(o, handoffId, caseId)
  {
  }

  lemma {:induction false} SelectedObjectives(keys: seq<string>, m: map<string, Objective>, handoffId: Option<string>, caseId: Option<string>, o: Objective)
    requires forall k | k in keys :: k in m && m[k].objectiveId == k
    requires forall i, j | 0 <= i < j < |keys| :: keys[i] != keys[j]
    ensures multiset(SelectObjectives(keys, m, handoffId, caseId))[o]
         == if o.objectiveId in keys && m[o.objectiveId] == o && Asked(o, handoffId, caseId) then 1 else 0
  {
    hide Concerns, Asked;
    if keys != [] {
      var n := |keys| - 1;
      assert keys == keys[..n] + [keys[n]];
      SelectedObjectives(keys[..n], m, handoffId, caseId, o);
      ConcernsIff(m[keys[n]], handoffId, caseId);
      assert keys[n] !in keys[..n];
      var last := if Concerns(m[keys[n]], handoffId, caseId) then [m[keys[n]]] else [];
      assert SelectObjectives(keys, m, handoffId, caseId) == SelectObjectives(keys[..n], m, handoffId, caseId) + last;
      hide SelectObjectives;
    }
  }

  ghost predicate OldestFirst(objectives: seq<Objective>) {
    forall i, j | 0 <= i < j < |objectives| :: objectives[i].createdAt <= objectives[j].createdAt
  }

  /** The list holds exactly the stored objectives that were asked for, each once, oldest first. */
  lemma ListedObjectives(s: State, handoffId: Option<string>, caseId: Option<string>)
    requires UnderOwnIds(s.objectives)
    ensures var list := ListObjectives(s, handoffId, caseId);
            && (forall o: Objective :: multiset(list)[o]
                  == if o.objectiveId in s.objectives.m && s.objectives.m[o.objectiveId] == o && Asked(o, handoffId, caseId) then 1 else 0)
            && OldestFirst(list)
  {
    hide Sorting.SortBy, SelectObjectives, Asked;
    var d := s.objectives;
    var found := SelectObjectives(d.keys, d.m, handoffId, caseId);
    var list := ListObjectives(s, handoffId, caseId);
    Sorting.SortMeaning(found, CreatedAt);
    forall o: Objective
      ensures multiset(list)[o] == if o.objectiveId in d.m && d.m[o.objectiveId] == o && Asked(o, handoffId, caseId) then 1 else 0
    {
      SelectedObjectives(d.keys, d.m, handoffId, caseId, o);
    }
    forall i, j | 0 <= i < j < |list| ensures list[i].createdAt <= list[j].createdAt {
      assert CreatedAt(list[i]) <= CreatedAt(list[j]);
    }
  }

  lemma OnlyOne(list: seq<Objective>, o: Objective)
    requires forall p :: multiset(list)[p] == if p == o then 1 else 0
    ensures list == [o]
  {
    assert multiset(list) == multiset{o};
    assert |multiset(list)| == |list|;
    assert list[0] in multiset(list);
  }

  /** On a reachable store the list of a stored handoff is its one objective, which is of the handoff's own case. */
  lemma ListOfHandoff(policy: CasePolicy, actions: seq<Action>, h: string)
    requires AdmissibleRun(policy, actions) && h in Run(policy, actions).handoffs.m
    ensures var s := Run(policy, actions);
            exists o: Objective ::
              && ListObjectives(s, Some(h), None) == [o]
              && o.objectiveId in s.objectives.m && s.objectives.m[o.objectiveId] == o
              && o.handoffId == h && o.caseId == s.handoffs.m[h].caseId
  {
    hide Run, ListObjectives, CasesKeyed, Linked, Sane, Audited, HandoffsKeyed;
    var s := Run(policy, actions);
    Preservation.Reachable(policy, actions);
    Playback.RunIsItsLog(policy, actions);
    var id :| ObjectiveOf(s, id, h);
    var o := s.objectives.m[id];
    ListedObjectives(s, Some(h), None);
    var list := ListObjectives(s, Some(h), None);
    forall p ensures multiset(list)[p] == if p == o then 1 else 0 {
    }
    OnlyOne(list, o);
  }

  // --- repeated requests ---

  lemma FoundIsStored(s: State, key: string)
    requires HandoffByKey(s, key).Some? && forall h | h in s.handoffs.m :: s.handoffs.m[h].handoffId == h
    ensures var h := HandoffByKey(s, key).value;
            h.handoffId in s.handoffs.m && s.handoffs.m[h.handoffId] == h && h.idempotencyKey == key
  {
  }

  /**
   A request whose key is taken answers with the stored handoff that has it and with that handoff's
   one objective, and leaves the store equal.
   */
  lemma RepeatedRequest(policy: CasePolicy, actions: seq<Action>, id: string, f: Finding, passes: nat, stamp: Stamp, h: string)
    requires AdmissibleRun(policy, actions)
    requires id in Run(policy, actions).cases.m && HandoffReady(f)
    requires h in Run(policy, actions).handoffs.m && Run(policy, actions).handoffs.m[h].idempotencyKey == IdempotencyKey(id, f)
    ensures var s := Run(policy, actions);
            var r := RequestHandoff(s, id, f, passes, stamp);
            && r.state == s && r.result.Ok? && r.result.value.Some?
            && r.result.value.value.handoff == s.handoffs.m[h]
            && |r.result.value.value.objectives| == 1
            && r.result.value.value.objectives[0] in s.objectives.m.Values
            && r.result.value.value.objectives[0].handoffId == h
            && r.result.value.value.objectives[0].caseId == s.handoffs.m[h].caseId
  {
    hide Run, AdmissibleFrom, HandoffReady, IdempotencyKey, ListObjectives, HandoffByKey, RequestHandoff, Inv, CaseSane, CaseLinked;
    var s := Run(policy, actions);
    Preservation.Reachable(policy, actions);
    Engineering.InvHandoffs(policy, s);
    Preservation.StoredCase(policy, s, id);
    Engineering.HasHandoffIff(s, IdempotencyKey(id, f));
    FoundIsStored(s, IdempotencyKey(id, f));
    ListOfHandoff(policy, actions, h);
    AnswersFound(s, id, f, passes, stamp);
  }

  lemma AnswersFound(s: State, id: string, f: Finding, passes: nat, stamp: Stamp)
    requires id in s.cases.m && s.cases.m[id].caseId == id && HandoffReady(f) && HandoffByKey(s, IdempotencyKey(id, f)).Some?
    ensures var found := HandoffByKey(s, IdempotencyKey(id, f)).value;
            (RequestHandoff(s, id, f, passes, stamp)
             == Outcome(s, Ok(Some(Bundle(found, ListObjectives(s, Some(found.handoffId), None))))))
  {
    var c := s.cases.m[id];
    Preservation.BuiltHandoff(f, c, if passes == 0 then c.requiredPasses else passes, stamp);
    hide BuildHandoff, HandoffReady, IdempotencyKey, HandoffByKey, ListObjectives, PutObjectives, HandedOffCase;
  }

  // --- what any request answers ---

  /** The answer shows the handoff with this key as it is stored, with the list of its objectives, which is one. */
  ghost predicate Shows(s: State, b: Bundle, key: string) {
    && b.handoff.handoffId in s.handoffs.m && s.handoffs.m[b.handoff.handoffId] == b.handoff && b.handoff.idempotencyKey == key
    && b.objectives == ListObjectives(s, Some(b.handoff.handoffId), None) && |b.objectives| == 1
  }

  lemma ListsIt(policy: CasePolicy, actions: seq<Action>, h: string, o: Objective)
    requires AdmissibleRun(policy, actions) && h in Run(policy, actions).handoffs.m
    requires o.objectiveId in Run(policy, actions).objectives.m && Run(policy, actions).objectives.m[o.objectiveId] == o && o.handoffId == h
    ensures ListObjectives(Run(policy, actions), Some(h), None) == [o]
  {
    hide Run, AdmissibleFrom, ListObjectives;
    ListOfHandoff(policy, actions, h);
    Playback.RunIsItsLog(policy, actions);
    ListedObjectives(Run(policy, actions), Some(h), None);
    var found: Objective :| ListObjectives(Run(policy, actions), Some(h), None) == [found];
    assert multiset([found])[o] == 1;
  }

  lemma NewIsStored(s: State, c: SecurityCase, h: Handoff, o: Objective, now: int, e: Event)
    ensures var s1 := Preservation.WithHandoff(s, h, o);
            var t := Commit(s1, HandedOffCase(c, h.handoffId, now), [e]);
            && h.handoffId in t.handoffs.m && t.handoffs.m[h.handoffId] == h
            && o.objectiveId in t.objectives.m && t.objectives.m[o.objectiveId] == o
  {
    hide HandedOffCase;
  }

  lemma NewAnswer(policy: CasePolicy, actions: seq<Action>, s: State, id: string, f: Finding, passes: nat, stamp: Stamp)
    requires AdmissibleRun(policy, actions) && Run(policy, actions) == RequestHandoff(s, id, f, passes, stamp).state
    requires id in s.cases.m && s.cases.m[id].caseId == id && HandoffReady(f) && HandoffByKey(s, IdempotencyKey(id, f)).None?
    requires RequestHandoff(s, id, f, passes, stamp).result.Ok?
    ensures var r := RequestHandoff(s, id, f, passes, stamp).result.value;
            r.Some? && Shows(Run(policy, actions), r.value, IdempotencyKey(id, f))
  {
    hide Run, AdmissibleFrom, HandoffReady, IdempotencyKey, ListObjectives, HandoffByKey, RequestHandoff, BuildHandoff, Commit, HandedOffCase,
         Preservation.WithHandoff, BoundKind;
    var c := s.cases.m[id];
    var p := if passes == 0 then c.requiredPasses else passes;
    Preservation.RequestHandoffCases(s, id, f, passes, stamp);
    Preservation.BuiltHandoff(f, c, p, stamp);
    var b := BuildHandoff(f, c, p, stamp).value;
    var (h, o) := (b.handoff, b.objectives[0]);
    NewIsStored(s, c, h, o, stamp.now, NewEvent(id, Loop, HandoffAsked(h.handoffId, h.objectiveKey)));
    assert b.objectives == [o];
    ListsIt(policy, actions, h.handoffId, o);
  }

  lemma FoundAnswer(policy: CasePolicy, actions: seq<Action>, s: State, id: string, f: Finding, passes: nat, stamp: Stamp)
    requires AdmissibleRun(policy, actions) && Run(policy, actions) == RequestHandoff(s, id, f, passes, stamp).state
    requires forall h | h in s.handoffs.m :: s.handoffs.m[h].handoffId == h
    requires id in s.cases.m && s.cases.m[id].caseId == id && HandoffReady(f) && HandoffByKey(s, IdempotencyKey(id, f)).Some?
    ensures var r := RequestHandoff(s, id, f, passes, stamp).result;
            r.Ok? && r.value.Some? && Shows(Run(policy, actions), r.value.value, IdempotencyKey(id, f))
  {
    hide Run, AdmissibleFrom, HandoffReady, IdempotencyKey, ListObjectives, HandoffByKey, RequestHandoff;
    FoundIsStored(s, IdempotencyKey(id, f));
    AnswersFound(s, id, f, passes, stamp);
    ListOfHandoff(policy, actions, HandoffByKey(s, IdempotencyKey(id, f)).value.handoffId);
  }

  lemma NotStoredAnswers(s: State, id: string, f: Finding, passes: nat, stamp: Stamp)
    ensures id !in s.cases.m ==> RequestHandoff(s, id, f, passes, stamp).result == Ok(None)
  {
    hide BuildHandoff, HandoffByKey, HandedOffCase, ListObjectives, BoundKind;
  }

  /**
   The last operation of a run being a request: it answers with nothing exactly when its case is not
   stored; and when it does not raise it answers with the handoff of its key and that handoff's one
   objective as they are stored after it, whether they are new or were there.
   */
  lemma RequestAnswers(policy: CasePolicy, actions: seq<Action>)
    requires AdmissibleRun(policy, actions) && actions != [] && actions[|actions| - 1].op.AskHandoff?
    ensures var (s, a) := (Run(policy, actions[..|actions| - 1]), actions[|actions| - 1]);
            var (id, f) := (a.op.caseId, a.op.finding);
            var r := RequestHandoff(s, id, f, a.op.passes, a.stamp);
            && r.state == Run(policy, actions)
            && (r.result == Ok(None) <==> id !in s.cases.m)
            && (r.result.Ok? && id in s.cases.m ==> r.result.value.Some? && Shows(Run(policy, actions), r.result.value.value, IdempotencyKey(id, f)))
  {
    hide HandoffReady, IdempotencyKey, ListObjectives, HandoffByKey, RequestHandoff, Inv, Shows, CaseSane, Admissible;
    var n := |actions| - 1;
    var (s, a) := (Run(policy, actions[..n]), actions[n]);
    var (id, f) := (a.op.caseId, a.op.finding);
    assert Run(policy, actions) == Step(policy, s, a);
    assert Step(policy, s, a) == RequestHandoff(s, id, f, a.op.passes, a.stamp).state;
    hide Step, Run;
    Preservation.Reachable(policy, actions[..n]);
    Engineering.InvHandoffs(policy, s);
    NotStoredAnswers(s, id, f, a.op.passes, a.stamp);
    if id in s.cases.m {
      Preservation.StoredCase(policy, s, id);
      if !HandoffReady(f) {
        Preservation.RequestUnready(s, id, f, a.op.passes, a.stamp);
      } else if HandoffByKey(s, IdempotencyKey(id, f)).Some? {
        FoundAnswer(policy, actions, s, id, f, a.op.passes, a.stamp);
      } else if RequestHandoff(s, id, f, a.op.passes, a.stamp).result.Ok? {
        NewAnswer(policy, actions, s, id, f, a.op.passes, a.stamp);
      }
    }
  }

  /**
   A plain move answers with nothing exactly when its case is not stored, raises exactly when the
   case may not move there, naming both statuses, and otherwise answers with the case as it is
   stored after it; the case then stands at the target, and a second move there changes nothing.
   */
  lemma MoveAnswers(s: State, id: string, reason: Option<string>, actor: Actor, now: int)
    requires CaseMoves.OwnIds(s)
    ensures var r := Transition(s, id, reason, actor, now);
            var target := if reason.Some? then NeedsHuman else Triaged;
            && (r.result == Ok(None) <==> id !in s.cases.m)
            && (r.result.Err? <==> id in s.cases.m && !AllowedTransition(s.cases.m[id].status, target, actor))
            && (r.result.Err? ==> r.state == s && r.result.error == InvalidTransition(s.cases.m[id].status, target))
            && (r.result.Ok? && id in s.cases.m ==>
                  && id in r.state.cases.m && r.result.value == Some(r.state.cases.m[id]) && r.state.cases.m[id].status == target
                  && Transition(r.state, id, reason, actor, now) == r
                  && (r.state == s <==> s.cases.m[id].status == target))
  {
    hide BoundKind;
  }

  // --- cases ---

  lemma {:induction false} SelectedCases(keys: seq<string>, m: map<string, SecurityCase>, status: Option<CaseStatus>, c: SecurityCase)
    requires forall k | k in keys :: k in m && m[k].caseId == k
    requires forall i, j | 0 <= i < j < |keys| :: keys[i] != keys[j]
    ensures multiset(SelectCases(keys, m, status))[c]
         == if c.caseId in keys && m[c.caseId] == c && (status == None || status == Some(c.status)) then 1 else 0
  {
    if keys != [] {
      var n := |keys| - 1;
      assert keys == keys[..n] + [keys[n]];
      SelectedCases(keys[..n], m, status, c);
      assert keys[n] !in keys[..n];
      var last := if status.None? || m[keys[n]].status == status.value then [m[keys[n]]] else [];
      assert SelectCases(keys, m, status) == SelectCases(keys[..n], m, status) + last;
      hide SelectCases;
    }
  }

  /** The list of cases holds exactly the stored ones, or those of the given status, each once, oldest first. */
  lemma ListedCases(s: State, status: Option<CaseStatus>)
    requires CaseMoves.OwnIds(s)
    ensures var list := ListCases(s, status);
            && (forall c: SecurityCase :: multiset(list)[c]
                  == if c.caseId in s.cases.m && s.cases.m[c.caseId] == c && (status == None || status == Some(c.status)) then 1 else 0)
            && forall i, j | 0 <= i < j < |list| :: list[i].openedAt <= list[j].openedAt
  {
    hide Sorting.SortBy, SelectCases;
    var d := s.cases;
    var found := SelectCases(d.keys, d.m, status);
    var list := ListCases(s, status);
    Sorting.SortMeaning(found, OpenedAt);
    forall c: SecurityCase
      ensures multiset(list)[c] == if c.caseId in d.m && d.m[c.caseId] == c && (status == None || status == Some(c.status)) then 1 else 0
    {
      SelectedCases(d.keys, d.m, status, c);
    }
    forall i, j | 0 <= i < j < |list| ensures list[i].openedAt <= list[j].openedAt {
      assert OpenedAt(list[i]) <= OpenedAt(list[j]);
    }
  }
}
