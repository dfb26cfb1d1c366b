/**
 The rollout ladder: case_only, handoff_dry and handoff_live differ in handoff data only, and
 the last two only in issue links.
 */
module Ladder {
  import opened Wrappers
  import opened Dicts
  import opened Models
  import opened Policy
  import opened Lifecycle
  import opened Ledger
  import opened PostureCycle
  import opened Runs
  import opened Invariants
  import Preservation
  import CaseMoves
  import Engineering
  import Lhp = LhpHandoff

  // --- forgetting everything that engineering traffic leaves behind ---

  /**
   A case without its issue link; with `full`, also without its handoff links, and with only
   resolved or active left of its status.
   */
  function CoreCase(full: bool, c: SecurityCase): SecurityCase {
    var c1 := c.(issueUrl := "", issueId := "", updatedAt := None);
    if full then
      c1.(status := if Terminal(c.status) then c.status else Triaged, handoffIds := [], handoffStatus := None, lastHandoff := None)
    else c1
  }

  function CoreEvent(full: bool, e: Event): seq<Event> {
    match e.kind
    case IssueOpened(_, _) => []
    case HandoffAsked(_, _) => if full then [] else [e]
    case EngineeringUpdated(_, _, _) => if full then [] else [e]
    case CaseResolved(from, count, required, reason) =>
      [e.(kind := CaseResolved(if full then Triaged else from, count, required, reason))]
    case _ => [e]
  }

  function CoreEvents(full: bool, events: seq<Event>): seq<Event> {
    if events == [] then [] else CoreEvents(full, events[..|events| - 1]) + CoreEvent(full, events[|events| - 1])
  }

  /**
   Two stores that differ in issue links only; with `full`, in handoff data only: same cases in
   the same order with the same fingerprints, counters, flags, texts and resolved-or-active,
   same other events, same findings.
   */
  ghost predicate SameCore(full: bool, s: State, t: State) {
    && s.cases.keys == t.cases.keys
    && (forall k | k in s.cases.m :: k in t.cases.m && CoreCase(full, s.cases.m[k]) == CoreCase(full, t.cases.m[k]))
    && CoreEvents(full, s.events) == CoreEvents(full, t.events)
    && s.findings == t.findings
    && (!full ==> s.handoffs == t.handoffs && s.objectives == t.objectives && s.callbacks == t.callbacks)
  }

  lemma {:induction false} CoreEventsAppend(full: bool, a: seq<Event>, b: seq<Event>)
    ensures CoreEvents(full, a + b) == CoreEvents(full, a) + CoreEvents(full, b)
  {
    hide CoreEvent;
    if b == [] {
      assert a + b == a;
    } else {
      var n := |b| - 1;
      assert (a + b)[..|a| + n] == a + b[..n];
      CoreEventsAppend(full, a, b[..n]);
    }
  }

  lemma CommitSameCore(full: bool, s: State, t: State, c: SecurityCase, d: SecurityCase, e: seq<Event>, f: seq<Event>)
    requires SameCore(full, s, t) && CoreCase(full, c) == CoreCase(full, d) && CoreEvents(full, e) == CoreEvents(full, f)
    requires c.caseId == d.caseId
    ensures SameCore(full, Commit(s, c, e), Commit(t, d, f))
  {
    hide CoreCase, CoreEvents;
    var (s1, t1) := (Commit(s, c, e), Commit(t, d, f));
    CoreEventsAppend(full, s.events, e);
    CoreEventsAppend(full, t.events, f);
    assert s1.cases.keys == t1.cases.keys;
    hide Commit;
  }

  /** One-sided: a write that engineering traffic alone explains. */
  lemma CommitInvisible(full: bool, s: State, c: SecurityCase, e: seq<Event>)
    requires c.caseId in s.cases.m && CoreCase(full, c) == CoreCase(full, s.cases.m[c.caseId]) && CoreEvents(full, e) == []
    ensures SameCore(full, Commit(s, c, e), s)
  {
    hide CoreCase, CoreEvents;
    CoreEventsAppend(full, s.events, e);
    assert CoreEvents(full, s.events) + [] == CoreEvents(full, s.events);
  }

  lemma {:induction false} FindCaseSame(keys: seq<string>, m: map<string, SecurityCase>, n: map<string, SecurityCase>, fingerprint: string)
    requires forall k | k in keys :: k in m && k in n && m[k].fingerprint == n[k].fingerprint
    ensures FindCase(keys, m, fingerprint) == FindCase(keys, n, fingerprint)
  {
    if keys != [] && m[keys[0]].fingerprint != fingerprint {
      FindCaseSame(keys[1..], m, n, fingerprint);
    }
  }

  lemma CoreKeeps(full: bool, c: SecurityCase, d: SecurityCase)
    requires CoreCase(full, c) == CoreCase(full, d)
    ensures c.caseId == d.caseId && c.fingerprint == d.fingerprint && c.passCount == d.passCount
    ensures c.scanDegraded == d.scanDegraded && c.requiredPasses == d.requiredPasses && c.lastPassing == d.lastPassing
    ensures Terminal(c.status) == Terminal(d.status) && (c.status == Resolved <==> d.status == Resolved)
    ensures c.signature == d.signature
  {
    assert CoreCase(full, c).caseId == c.caseId && CoreCase(full, d).caseId == d.caseId;
    assert CoreCase(full, c).fingerprint == c.fingerprint && CoreCase(full, d).fingerprint == d.fingerprint;
    assert CoreCase(full, c).passCount == c.passCount && CoreCase(full, d).passCount == d.passCount;
    assert CoreCase(full, c).scanDegraded == c.scanDegraded && CoreCase(full, d).scanDegraded == d.scanDegraded;
    assert CoreCase(full, c).requiredPasses == c.requiredPasses && CoreCase(full, d).requiredPasses == d.requiredPasses;
    assert CoreCase(full, c).lastPassing == c.lastPassing && CoreCase(full, d).lastPassing == d.lastPassing;
    assert CoreCase(full, c).signature == c.signature && CoreCase(full, d).signature == d.signature;
    assert Terminal(CoreCase(full, c).status) == Terminal(c.status) && Terminal(CoreCase(full, d).status) == Terminal(d.status);
    assert (CoreCase(full, c).status == Resolved <==> c.status == Resolved) && (CoreCase(full, d).status == Resolved <==> d.status == Resolved);
  }

  lemma SameFingerprints(full: bool, s: State, t: State)
    requires SameCore(full, s, t)
    ensures forall k | k in s.cases.keys :: k in s.cases.m && k in t.cases.m && s.cases.m[k].fingerprint == t.cases.m[k].fingerprint
  {
    hide CoreCase, CoreEvents;
    forall k | k in s.cases.keys ensures s.cases.m[k].fingerprint == t.cases.m[k].fingerprint {
      CoreKeeps(full, s.cases.m[k], t.cases.m[k]);
    }
  }

  lemma FoundAt(s: State, fingerprint: Fingerprint)
    ensures CaseByFingerprint(s, fingerprint)
         == match FindCase(s.cases.keys, s.cases.m, fingerprint)
            case Some(k) => Some(s.cases.m[k])
            case None => None
  {
  }

  /** The lookup finds corresponding cases. */
  lemma FoundSame(full: bool, s: State, t: State, f: Finding)
    requires SameCore(full, s, t)
    ensures var (a, b) := (CaseByFingerprint(s, f.fingerprint), CaseByFingerprint(t, f.fingerprint));
            a.Some? == b.Some? && (a.Some? ==> CoreCase(full, a.value) == CoreCase(full, b.value))
  {
    SameFingerprints(full, s, t);
    FoundAt(s, f.fingerprint);
    FoundAt(t, f.fingerprint);
    hide CoreCase, CoreEvents, FindCase, CaseByFingerprint;
    FindCaseSame(s.cases.keys, s.cases.m, t.cases.m, f.fingerprint);
  }

  lemma FailedSame(full: bool, c: SecurityCase, d: SecurityCase, f: Finding, cycle: string, now: int)
    requires CoreCase(full, c) == CoreCase(full, d)
    ensures CoreCase(full, FailedCase(c, f, cycle, now)) == CoreCase(full, FailedCase(d, f, cycle, now))
    ensures CoreCase(full, TriagedCase(FailedCase(c, f, cycle, now), now)) == CoreCase(full, TriagedCase(FailedCase(d, f, cycle, now), now))
  {
    CoreKeeps(full, c, d);
    assert FailedCase(CoreCase(full, c), f, cycle, now) == FailedCase(CoreCase(full, d), f, cycle, now);
    FailedCore(full, c, f, cycle, now);
    FailedCore(full, d, f, cycle, now);
  }

  lemma FailedCore(full: bool, c: SecurityCase, f: Finding, cycle: string, now: int)
    ensures CoreCase(full, FailedCase(c, f, cycle, now)) == CoreCase(full, FailedCase(CoreCase(full, c), f, cycle, now))
    ensures CoreCase(full, TriagedCase(FailedCase(c, f, cycle, now), now)) == CoreCase(full, TriagedCase(FailedCase(CoreCase(full, c), f, cycle, now), now))
  {
  }

  lemma PassedCore(full: bool, c: SecurityCase, cycle: string, now: int)
    ensures CoreCase(full, PassedCase(c, cycle, now)) == CoreCase(full, PassedCase(CoreCase(full, c), cycle, now))
  {
  }

  lemma FailingSame(full: bool, policy: CasePolicy, s: State, t: State, f: Finding, a: Option<SecurityCase>, b: Option<SecurityCase>, cycle: string, stamp: Stamp)
    requires SameCore(full, s, t) && a.Some? == b.Some? && (a.Some? ==> CoreCase(full, a.value) == CoreCase(full, b.value))
    ensures var (x, y) := (RecordFailing(policy, s, f, a, cycle, stamp), RecordFailing(policy, t, f, b, cycle, stamp));
            && SameCore(full, x.0, y.0) && x.1.created == y.1.created && x.1.subject.caseId == y.1.subject.caseId
  {
    hide SameCore, CoreCase, CoreEvents, FailedCase, TriagedCase, OpenedCase, Commit, BoundKind;
    if a.None? {
      var c := TriagedCase(OpenedCase(policy, f, cycle, stamp), stamp.now);
      var e := [NewEvent(c.caseId, Loop, CaseOpened(f.findingId, f.severity)), NewEvent(c.caseId, Loop, MovedToTriaged(Open))];
      CommitSameCore(full, s, t, c, c, e, e);
    } else {
      var (c, d) := (a.value, b.value);
      CoreKeeps(full, c, d);
      FailedSame(full, c, d, f, cycle, stamp.now);
      var (c1, d1) := (FailedCase(c, f, cycle, stamp.now), FailedCase(d, f, cycle, stamp.now));
      CoreKeeps(full, c1, d1);
      var changed := f.signature != c.signature;
      if Terminal(c.status) {
        CoreKeeps(full, TriagedCase(c1, stamp.now), TriagedCase(d1, stamp.now));
        var e := [NewEvent(c.caseId, Loop, Reopened(f.findingId, changed)), NewEvent(c.caseId, Loop, MovedToTriaged(Open))];
        CommitSameCore(full, s, t, TriagedCase(c1, stamp.now), TriagedCase(d1, stamp.now), e, e);
      } else {
        var e := [NewEvent(c.caseId, Loop, RefreshFailing(f.findingId, changed))];
        CommitSameCore(full, s, t, c1, d1, e, e);
      }
    }
  }

  lemma PassingSame(full: bool, s: State, t: State, c: SecurityCase, d: SecurityCase, cycle: string, now: int)
    requires SameCore(full, s, t) && CoreCase(full, c) == CoreCase(full, d)
    ensures SameCore(full, RecordPassing(s, c, cycle, now).0, RecordPassing(t, d, cycle, now).0)
  {
    hide SameCore, CoreCase, CoreEvents, Commit, BoundKind;
    CoreKeeps(full, c, d);
    PassedCore(full, c, cycle, now);
    PassedCore(full, d, cycle, now);
    CoreKeeps(full, PassedCase(c, cycle, now), PassedCase(d, cycle, now));
    var e := [NewEvent(c.caseId, Loop, PositiveRecheck(PassedCase(c, cycle, now).passCount, PassedCase(c, cycle, now).requiredPasses))];
    CommitSameCore(full, s, t, PassedCase(c, cycle, now), PassedCase(d, cycle, now), e, e);
  }

  lemma PutFindingSame(full: bool, s: State, t: State, f: Finding)
    requires SameCore(full, s, t)
    ensures SameCore(full, s.(findings := s.findings.Put(f.findingId, f)), t.(findings := t.findings.Put(f.findingId, f)))
  {
  }

  /** Observations act alike. */
  lemma ObserveSame(full: bool, policy: CasePolicy, s: State, t: State, f: Finding, cycle: string, stamp: Stamp)
    requires SameCore(full, s, t)
    ensures var (x, y) := (ObserveFinding(policy, s, f, cycle, stamp), ObserveFinding(policy, t, f, cycle, stamp));
            && SameCore(full, x.0, y.0) && x.1.created == y.1.created
            && (!f.passed ==> x.1.subject.caseId == y.1.subject.caseId)
  {
    hide SameCore, CoreCase, RecordFailing, RecordPassing, CaseByFingerprint;
    var (s1, t1) := (s.(findings := s.findings.Put(f.findingId, f)), t.(findings := t.findings.Put(f.findingId, f)));
    PutFindingSame(full, s, t, f);
    FoundSame(full, s1, t1, f);
    var (a, b) := (CaseByFingerprint(s1, f.fingerprint), CaseByFingerprint(t1, f.fingerprint));
    FailingSame(full, policy, s1, t1, f, a, b, cycle, stamp);
    if a.Some? {
      PassingSame(full, s1, t1, a.value, b.value, cycle, stamp.now);
      PassingCreatesNothing(s1, a.value, cycle, stamp.now);
      PassingCreatesNothing(t1, b.value, cycle, stamp.now);
    }
  }

  lemma PassingCreatesNothing(s: State, c: SecurityCase, cycle: string, now: int)
    ensures !RecordPassing(s, c, cycle, now).1.created
  {
  }

  lemma GateSame(full: bool, settings: VerifierSettings, c: SecurityCase, d: SecurityCase)
    requires CoreCase(full, c) == CoreCase(full, d)
    ensures CaseMoves.Resolves(settings, c) == CaseMoves.Resolves(settings, d)
  {
    CoreKeeps(full, c, d);
    hide CoreCase;
  }

  lemma VerifyAsCommit(settings: VerifierSettings, s: State, id: string, reason: string, now: int)
    ensures VerifyCase(settings, s, id, reason, now).0
         == if id in s.cases.m && CaseMoves.Resolves(settings, s.cases.m[id]) then
              var c := s.cases.m[id];
              Commit(s.(objectives := PassObjectives(s.objectives, id, c.passCount, now)), ResolvedCase(c, reason, now),
                     [NewEvent(id, Verifier, CaseResolved(c.status, c.passCount, c.requiredPasses, reason))])
            else s
  {
    hide Commit, PassObjectives, CanResolve, ResolvedCase, BoundKind;
  }

  /** Verifier steps act alike. */
  lemma VerifySame(full: bool, settings: VerifierSettings, s: State, t: State, id: string, reason: string, now: int)
    requires SameCore(full, s, t)
    ensures SameCore(full, VerifyCase(settings, s, id, reason, now).0, VerifyCase(settings, t, id, reason, now).0)
  {
    hide CoreCase, CoreEvents, Commit, PassObjectives, VerifyCase, ResolvedCase, BoundKind, CaseMoves.Resolves;
    VerifyAsCommit(settings, s, id, reason, now);
    VerifyAsCommit(settings, t, id, reason, now);
    if id in s.cases.m {
      var (c, d) := (s.cases.m[id], t.cases.m[id]);
      GateSame(full, settings, c, d);
      CoreKeeps(full, c, d);
      ResolvedSame(full, c, d, id, reason, now);
      CommitSameCore(full, s.(objectives := PassObjectives(s.objectives, id, c.passCount, now)),
                     t.(objectives := PassObjectives(t.objectives, id, d.passCount, now)),
                     ResolvedCase(c, reason, now), ResolvedCase(d, reason, now),
                     [NewEvent(id, Verifier, CaseResolved(c.status, c.passCount, c.requiredPasses, reason))],
                     [NewEvent(id, Verifier, CaseResolved(d.status, d.passCount, d.requiredPasses, reason))]);
    }
  }

  lemma ResolvedSame(full: bool, c: SecurityCase, d: SecurityCase, id: string, reason: string, now: int)
    requires CoreCase(full, c) == CoreCase(full, d)
    ensures CoreCase(full, ResolvedCase(c, reason, now)) == CoreCase(full, ResolvedCase(d, reason, now))
    ensures CoreEvents(full, [NewEvent(id, Verifier, CaseResolved(c.status, c.passCount, c.requiredPasses, reason))])
         == CoreEvents(full, [NewEvent(id, Verifier, CaseResolved(d.status, d.passCount, d.requiredPasses, reason))])
    ensures ResolvedCase(c, reason, now).caseId == ResolvedCase(d, reason, now).caseId
  {
    hide BoundText;
    CoreKeeps(full, c, d);
    ResolvedCore(full, c, reason, now);
    ResolvedCore(full, d, reason, now);
    var (e, f) := (NewEvent(id, Verifier, CaseResolved(c.status, c.passCount, c.requiredPasses, reason)),
                   NewEvent(id, Verifier, CaseResolved(d.status, d.passCount, d.requiredPasses, reason)));
    assert [e][..0] == [] && [f][..0] == [];
    assert CoreEvent(full, e) == CoreEvent(full, f);
  }

  lemma ResolvedCore(full: bool, c: SecurityCase, reason: string, now: int)
    ensures CoreCase(full, ResolvedCase(c, reason, now)) == CoreCase(full, ResolvedCase(CoreCase(full, c), reason, now))
  {
  }

  lemma DegradeSame(full: bool, s: State, t: State, id: string, cycle: string, now: int)
    requires SameCore(full, s, t)
    ensures SameCore(full, NoteScanDegraded(s, id, cycle, now), NoteScanDegraded(t, id, cycle, now))
  {
    hide CoreCase, CoreEvents, Commit, BoundKind, DegradedCase;
    if id in s.cases.m {
      var (c, d) := (s.cases.m[id], t.cases.m[id]);
      DegradedCore(full, c, cycle, now);
      DegradedCore(full, d, cycle, now);
      CoreKeeps(full, DegradedCase(c, cycle, now), DegradedCase(d, cycle, now));
      var e := [NewEvent(id, Loop, ScanDegraded(cycle))];
      CommitSameCore(full, s, t, DegradedCase(c, cycle, now), DegradedCase(d, cycle, now), e, e);
    }
  }

  lemma DegradedCore(full: bool, c: SecurityCase, cycle: string, now: int)
    ensures CoreCase(full, DegradedCase(c, cycle, now)) == CoreCase(full, DegradedCase(CoreCase(full, c), cycle, now))
  {
  }

  // --- and what engineering traffic does is invisible ---

  lemma SameCoreTransitive(full: bool, s: State, t: State, u: State)
    requires SameCore(full, s, t) && SameCore(full, t, u)
    ensures SameCore(full, s, u) && SameCore(full, t, s)
  {
  }

  /** A request as a function of what it stores. */
  lemma RequestAsCommit(s: State, id: string, f: Finding, passes: nat, stamp: Stamp)
    requires CaseMoves.OwnIds(s)
    ensures var r := RequestHandoff(s, id, f, passes, stamp);
            if !CaseMoves.StoresHandoff(s, id, f) then r.state == s
            else exists h, o ::
              && BuildHandoff(f, s.cases.m[id], if passes == 0 then s.cases.m[id].requiredPasses else passes, stamp) == Ok(Bundle(h, [o]))
              && r.state == LinkedState(s, s.cases.m[id], h, o, stamp.now)
  {
    hide HandoffReady, IdempotencyKey, HandoffByKey, Commit, RequestHandoff, BuildHandoff, HandedOffCase, BoundKind;
    if id in s.cases.m && HandoffReady(f) {
      Preservation.RequestHandoffCases(s, id, f, passes, stamp);
      var built := BuildHandoff(f, s.cases.m[id], if passes == 0 then s.cases.m[id].requiredPasses else passes, stamp);
      assert built.value.objectives == [built.value.objectives[0]];
      assert built == Ok(Bundle(built.value.handoff, [built.value.objectives[0]]));
    } else {
      Preservation.RequestUnready(s, id, f, passes, stamp);
    }
  }

  function LinkedState(s: State, c: SecurityCase, h: Handoff, o: Objective, now: int): State {
    var s1 := Preservation.WithHandoff(s, h, o);
    if CaseMoves.MayAskHandoff(c.status) then
      Commit(s1, HandedOffCase(c, h.handoffId, now), [NewEvent(c.caseId, Loop, HandoffAsked(h.handoffId, h.objectiveKey))])
    else s1
  }

  lemma WithHandoffInvisible(s: State, h: Handoff, o: Objective)
    ensures SameCore(true, Preservation.WithHandoff(s, h, o), s)
  {
    hide CoreCase, CoreEvents;
  }

  lemma LinkInvisible(s: State, c: SecurityCase, h: Handoff, o: Objective, now: int)
    requires c.caseId in s.cases.m && s.cases.m[c.caseId] == c
    ensures SameCore(true, LinkedState(s, c, h, o, now), s)
  {
    hide CoreCase, CoreEvents, SameCore, Commit, HandedOffCase, BoundKind;
    WithHandoffInvisible(s, h, o);
    if CaseMoves.MayAskHandoff(c.status) {
      var s1 := Preservation.WithHandoff(s, h, o);
      var (c1, e) := (HandedOffCase(c, h.handoffId, now), [NewEvent(c.caseId, Loop, HandoffAsked(h.handoffId, h.objectiveKey))]);
      NotTerminal(c);
      HandedOffCore(c, h.handoffId, now);
      AskedInvisible(c.caseId, h);
      CommitInvisible(true, s1, c1, e);
      SameCoreTransitive(true, Commit(s1, c1, e), s1, s);
    }
  }

  lemma NotTerminal(c: SecurityCase)
    requires CaseMoves.MayAskHandoff(c.status)
    ensures !Terminal(c.status)
  {
  }

  lemma RequestInvisible(s: State, id: string, f: Finding, passes: nat, stamp: Stamp)
    requires CaseMoves.OwnIds(s)
    ensures SameCore(true, RequestHandoff(s, id, f, passes, stamp).state, s)
  {
    RequestAsCommit(s, id, f, passes, stamp);
    hide CoreCase, CoreEvents, RequestHandoff, BuildHandoff, LinkedState, HandoffReady, IdempotencyKey, HandoffByKey;
    if CaseMoves.StoresHandoff(s, id, f) {
      var h, o :|
        && BuildHandoff(f, s.cases.m[id], if passes == 0 then s.cases.m[id].requiredPasses else passes, stamp) == Ok(Bundle(h, [o]))
        && RequestHandoff(s, id, f, passes, stamp).state == LinkedState(s, s.cases.m[id], h, o, stamp.now);
      LinkInvisible(s, s.cases.m[id], h, o, stamp.now);
    }
  }

  lemma HandedOffCore(c: SecurityCase, handoffId: string, now: int)
    requires !Terminal(c.status)
    ensures CoreCase(true, HandedOffCase(c, handoffId, now)) == CoreCase(true, c) && HandedOffCase(c, handoffId, now).caseId == c.caseId
  {
  }

  lemma AskedInvisible(id: string, h: Handoff)
    ensures CoreEvents(true, [NewEvent(id, Loop, HandoffAsked(h.handoffId, h.objectiveKey))]) == []
  {
    hide BoundText;
    assert [NewEvent(id, Loop, HandoffAsked(h.handoffId, h.objectiveKey))][..0] == [];
  }

  lemma IssueInvisible(full: bool, s: State, id: string, url: string, issue: string, now: int)
    requires CaseMoves.OwnIds(s)
    ensures SameCore(full, RecordIssue(s, id, url, issue, now), s)
  {
    hide CoreEvents, Commit, CoreCase, BoundKind;
    if id in s.cases.m {
      IssuedCore(full, s.cases.m[id], url, issue, now);
      IssueEventInvisible(full, id, url, issue);
      CommitInvisible(full, s, IssuedCase(s.cases.m[id], url, issue, now), [NewEvent(id, Loop, IssueOpened(url, issue))]);
    }
  }

  lemma IssuedCore(full: bool, c: SecurityCase, url: string, issue: string, now: int)
    ensures CoreCase(full, IssuedCase(c, url, issue, now)) == CoreCase(full, c)
  {
  }

  lemma IssueEventInvisible(full: bool, id: string, url: string, issue: string)
    ensures CoreEvents(full, [NewEvent(id, Loop, IssueOpened(url, issue))]) == []
  {
    hide BoundText;
    assert [NewEvent(id, Loop, IssueOpened(url, issue))][..0] == [];
  }

  /** A callback moves no case into or out of resolved, and touches no counter. */
  lemma UpdateInvisible(s: State, u: Lhp.HandoffUpdate, now: int)
    requires CaseMoves.OwnIds(s)
    ensures SameCore(true, RecordEngineeringUpdate(s, u, now).state, s)
  {
    Preservation.UpdateCases(s, u, now);
    hide CoreEvents, Commit, CoreCase, BoundKind, AcceptCallback, UpdatedCase, RecordEngineeringUpdate, CallbackFor,
         Lhp.AllowedHandoffTransition;
    if Preservation.AcceptedNow(s, u) {
      var s1 := Preservation.WithHandoffStatus(s, u.handoffId, u.status, now);
      var h1 := s.handoffs.m[u.handoffId].(status := u.status, updatedAt := now);
      if u.caseId in s.cases.m {
        var c := s.cases.m[u.caseId];
        var c1 := UpdatedCase(c, u, now);
        var e := NewEvent(c.caseId, EngineeringLoop, EngineeringUpdated(u.updateType, u.status, u.handoffId));
        UpdatedCore(c, u, now);
        UpdateEventInvisible(c.caseId, u);
        CommitInvisible(true, s1, c1, [e]);
        AcceptInvisible(Commit(s1, c1, [e]), u, h1, Some(c1));
        assert SameCore(true, s1, s);
        SameCoreTransitive(true, AcceptCallback(Commit(s1, c1, [e]), u, h1, Some(c1)).state, Commit(s1, c1, [e]), s1);
        SameCoreTransitive(true, AcceptCallback(Commit(s1, c1, [e]), u, h1, Some(c1)).state, s1, s);
      } else {
        AcceptInvisible(s1, u, h1, None);
        assert SameCore(true, s1, s);
        SameCoreTransitive(true, AcceptCallback(s1, u, h1, None).state, s1, s);
      }
    }
  }

  lemma AcceptInvisible(s: State, u: Lhp.HandoffUpdate, h: Handoff, c: Option<SecurityCase>)
    ensures SameCore(true, AcceptCallback(s, u, h, c).state, s)
  {
    hide InboxRecord, CoreCase, CoreEvents;
  }

  lemma UpdatedCore(c: SecurityCase, u: Lhp.HandoffUpdate, now: int)
    ensures CoreCase(true, UpdatedCase(c, u, now)) == CoreCase(true, c) && UpdatedCase(c, u, now).caseId == c.caseId
  {
  }

  lemma UpdateEventInvisible(id: string, u: Lhp.HandoffUpdate)
    ensures CoreEvents(true, [NewEvent(id, EngineeringLoop, EngineeringUpdated(u.updateType, u.status, u.handoffId))]) == []
  {
    hide BoundText;
    assert [NewEvent(id, EngineeringLoop, EngineeringUpdated(u.updateType, u.status, u.handoffId))][..0] == [];
  }

  // --- between the two upper rungs even engineering traffic acts alike ---

  lemma LinkKeeps(c: SecurityCase, d: SecurityCase)
    requires CoreCase(false, c) == CoreCase(false, d)
    ensures c.status == d.status && c.handoffIds == d.handoffIds
  {
    assert CoreCase(false, c).status == c.status && CoreCase(false, d).status == d.status;
    assert CoreCase(false, c).handoffIds == c.handoffIds && CoreCase(false, d).handoffIds == d.handoffIds;
  }

  lemma HandedOffLinks(c: SecurityCase, handoffId: string, now: int)
    ensures CoreCase(false, HandedOffCase(c, handoffId, now)) == CoreCase(false, HandedOffCase(CoreCase(false, c), handoffId, now))
  {
  }

  lemma LinkedStateSame(s: State, t: State, c: SecurityCase, d: SecurityCase, h: Handoff, o: Objective, now: int)
    requires SameCore(false, s, t) && CoreCase(false, c) == CoreCase(false, d)
    ensures SameCore(false, LinkedState(s, c, h, o, now), LinkedState(t, d, h, o, now))
  {
    CoreKeeps(false, c, d);
    LinkKeeps(c, d);
    HandedOffLinks(c, h.handoffId, now);
    HandedOffLinks(d, h.handoffId, now);
    hide CoreCase, CoreEvents, Commit, HandedOffCase, BoundKind;
    var (s1, t1) := (Preservation.WithHandoff(s, h, o), Preservation.WithHandoff(t, h, o));
    assert SameCore(false, s1, t1);
    if CaseMoves.MayAskHandoff(c.status) {
      var e := [NewEvent(c.caseId, Loop, HandoffAsked(h.handoffId, h.objectiveKey))];
      var (c1, d1) := (HandedOffCase(c, h.handoffId, now), HandedOffCase(d, h.handoffId, now));
      CoreKeeps(false, c1, d1);
      CommitSameCore(false, s1, t1, c1, d1, e, e);
    }
  }

  lemma BuiltSame(f: Finding, c: SecurityCase, d: SecurityCase, passes: nat, stamp: Stamp)
    requires c.caseId == d.caseId
    ensures BuildHandoff(f, c, passes, stamp) == BuildHandoff(f, d, passes, stamp)
  {
  }

  lemma StoresSame(s: State, t: State, id: string, f: Finding)
    requires SameCore(false, s, t)
    ensures CaseMoves.StoresHandoff(s, id, f) == CaseMoves.StoresHandoff(t, id, f)
  {
    hide HandoffReady, IdempotencyKey, CoreCase, CoreEvents;
    assert HandoffByKey(s, IdempotencyKey(id, f)) == HandoffByKey(t, IdempotencyKey(id, f)) by {
      KeySame(s, t, IdempotencyKey(id, f));
    }
  }

  lemma KeySame(s: State, t: State, key: string)
    requires s.handoffs == t.handoffs
    ensures HandoffByKey(s, key) == HandoffByKey(t, key)
  {
  }

  lemma RequestSame(s: State, t: State, id: string, f: Finding, passes: nat, stamp: Stamp)
    requires SameCore(false, s, t) && CaseMoves.OwnIds(s) && CaseMoves.OwnIds(t)
    ensures SameCore(false, RequestHandoff(s, id, f, passes, stamp).state, RequestHandoff(t, id, f, passes, stamp).state)
  {
    RequestAsCommit(s, id, f, passes, stamp);
    RequestAsCommit(t, id, f, passes, stamp);
    StoresSame(s, t, id, f);
    hide SameCore, CoreEvents, RequestHandoff, BuildHandoff, LinkedState, HandoffReady, IdempotencyKey, HandoffByKey;
    if CaseMoves.StoresHandoff(s, id, f) {
      assert CoreCase(false, s.cases.m[id]) == CoreCase(false, t.cases.m[id]) by { SameAt(s, t, id); }
      var (c, d) := (s.cases.m[id], t.cases.m[id]);
      CoreKeeps(false, c, d);
      hide CoreCase;
      BuiltSame(f, c, d, if passes == 0 then c.requiredPasses else passes, stamp);
      var h, o :|
        && BuildHandoff(f, c, if passes == 0 then c.requiredPasses else passes, stamp) == Ok(Bundle(h, [o]))
        && RequestHandoff(s, id, f, passes, stamp).state == LinkedState(s, c, h, o, stamp.now);
      LinkedStateSame(s, t, c, d, h, o, stamp.now);
    }
  }

  lemma SameAt(s: State, t: State, id: string)
    requires SameCore(false, s, t) && id in s.cases.m
    ensures id in t.cases.m && CoreCase(false, s.cases.m[id]) == CoreCase(false, t.cases.m[id])
  {
  }

  lemma UpdatedLinks(c: SecurityCase, u: Lhp.HandoffUpdate, now: int)
    ensures CoreCase(false, UpdatedCase(c, u, now)) == CoreCase(false, UpdatedCase(CoreCase(false, c), u, now))
    ensures UpdatedCase(c, u, now).caseId == c.caseId
  {
  }

  lemma UpdateSame(s: State, t: State, u: Lhp.HandoffUpdate, now: int)
    requires SameCore(false, s, t)
    ensures SameCore(false, RecordEngineeringUpdate(s, u, now).state, RecordEngineeringUpdate(t, u, now).state)
  {
    Preservation.UpdateCases(s, u, now);
    Preservation.UpdateCases(t, u, now);
    hide CoreEvents, Commit, BoundKind, AcceptCallback, UpdatedCase, RecordEngineeringUpdate, Lhp.AllowedHandoffTransition, CoreCase;
    assert Preservation.AcceptedNow(s, u) == Preservation.AcceptedNow(t, u);
    if Preservation.AcceptedNow(s, u) {
      var (s1, t1) := (Preservation.WithHandoffStatus(s, u.handoffId, u.status, now), Preservation.WithHandoffStatus(t, u.handoffId, u.status, now));
      var h1 := s.handoffs.m[u.handoffId].(status := u.status, updatedAt := now);
      assert SameCore(false, s1, t1);
      if u.caseId in s.cases.m {
        var (c, d) := (s.cases.m[u.caseId], t.cases.m[u.caseId]);
        UpdatedLinks(c, u, now);
        UpdatedLinks(d, u, now);
        CoreKeeps(false, c, d);
        var (c1, d1) := (UpdatedCase(c, u, now), UpdatedCase(d, u, now));
        LinkKeeps(c1, d1);
        var e := NewEvent(c.caseId, EngineeringLoop, EngineeringUpdated(u.updateType, u.status, u.handoffId));
        CommitSameCore(false, s1, t1, c1, d1, [e], [e]);
        AcceptSame(Commit(s1, c1, [e]), Commit(t1, d1, [e]), u, h1, Some(c1), Some(d1));
      } else {
        AcceptSame(s1, t1, u, h1, None, None);
      }
    }
  }

  lemma AcceptSame(s: State, t: State, u: Lhp.HandoffUpdate, h: Handoff, c: Option<SecurityCase>, d: Option<SecurityCase>)
    requires SameCore(false, s, t) && c.Some? == d.Some? && (c.Some? ==> c.value.status == d.value.status)
    ensures SameCore(false, AcceptCallback(s, u, h, c).state, AcceptCallback(t, u, h, d).state)
  {
    hide InboxRecord, CoreCase, CoreEvents;
  }
}
