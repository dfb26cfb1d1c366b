/**
 A crash between two writes of one operation (app/cases/store.py): the six files then hold a
 prefix of what the run has put, and the store read from them is not one that operations leave.
 What it still satisfies.
 */
module Crash {
  import opened Wrappers
  import opened Dicts
  import opened Models
  import opened Policy
  import opened Lifecycle
  import opened Audit
  import opened Runs
  import opened Invariants
  import opened Preservation
  import opened WriteLog
  import opened Verifier
  import opened Restart
  import opened Lives
  import CaseMoves
  import Engineering
  import Ladder
  import LhpTokens
  import Playback
  import Lhp = LhpHandoff

  // --- what a cut store satisfies ---

  predicate Orphan(s: State, h: string) {
    h in s.handoffs.m && forall o | o in s.objectives.m :: s.objectives.m[o].handoffId != h
  }

  /** Every objective has its own handoff, and all handoffs but at most one have an objective. */
  ghost predicate ObjectivesOwned(s: State) {
    && (forall o | o in s.objectives.m :: ObjectiveOf(s, o, s.objectives.m[o].handoffId))
    && (forall o, p | o in s.objectives.m && p in s.objectives.m
        && s.objectives.m[o].handoffId == s.objectives.m[p].handoffId :: o == p)
    && (forall h, k | Orphan(s, h) && Orphan(s, k) :: h == k)
  }

  /** Ids and references hold as after whole operations, and the trail does once `pending` is added. */
  ghost predicate Safe(s: State, pending: seq<Event>) {
    && CasesKeyed(s) && HandoffsKeyed(s) && CallbacksKeyed(s) && Linked(s) && ObjectivesOwned(s)
    && Audited(s.(events := s.events + pending))
  }

  /** The next event to come, if any. */
  function NextEvent(rest: seq<Write>): seq<Event> {
    if rest == [] then [] else if rest[0].EventWrite? then [rest[0].e] else NextEvent(rest[1..])
  }

  /** The trail is complete, or lacks the one event that was about to be written. */
  ghost predicate Behind(s: State, rest: seq<Write>) {
    Safe(s, []) || Safe(s, NextEvent(rest))
  }

  /** So it is wherever the writes are cut. */
  ghost predicate AllBehind(s: State, ws: seq<Write>)
    decreases |ws|
  {
    Behind(s, ws) && (ws != [] ==> AllBehind(Put(s, ws[0]), ws[1..]))
  }

  lemma {:induction false} CutIsBehind(s: State, ws: seq<Write>, k: nat)
    requires k <= |ws| && AllBehind(s, ws)
    ensures Behind(Play(s, ws[..k]), ws[k..])
    decreases k
  {
    hide Behind, Put;
    if k == 0 {
      assert ws[..0] == [] && ws[0..] == ws;
    } else {
      assert ws[..k][0] == ws[0] && ws[..k][1..] == ws[1..][..k - 1] && ws[1..][k - 1..] == ws[k..];
      CutIsBehind(Put(s, ws[0]), ws[1..], k - 1);
    }
  }

  lemma InvIsSafe(policy: CasePolicy, s: State)
    requires Inv(policy, s)
    ensures Safe(s, [])
  {
    hide CasesKeyed, HandoffsKeyed, CallbacksKeyed, Linked, Sane, Audited;
    assert s.(events := s.events + []) == s;
    forall h ensures !Orphan(s, h) {
      if h in s.handoffs.m {
        var o :| ObjectiveOf(s, o, h);
      }
    }
  }

  // --- how single writes keep it ---

  lemma CommitOwned(s: State, c: SecurityCase, events: seq<Event>)
    requires ObjectivesOwned(s)
    ensures ObjectivesOwned(Put(s, CaseWrite(c)))
  {
    SameOwned(s, Put(s, CaseWrite(c)));
  }

  lemma SameOwned(s: State, t: State)
    requires ObjectivesOwned(s) && t.handoffs == s.handoffs && t.objectives == s.objectives
    ensures ObjectivesOwned(t)
  {
    forall o | o in t.objectives.m ensures ObjectiveOf(t, o, t.objectives.m[o].handoffId) {
      assert ObjectiveOf(s, o, s.objectives.m[o].handoffId);
    }
    forall h, k | Orphan(t, h) && Orphan(t, k) ensures h == k {
      assert Orphan(s, h) && Orphan(s, k);
    }
  }

  /** A case is stored: its event is pending. */
  lemma CaseStored(s: State, c: SecurityCase, e: Event)
    requires Safe(s, []) && Fits(s, c, [e])
    ensures Safe(Put(s, CaseWrite(c)), [e]) && Safe(Commit(s, c, [e]), [])
  {
    hide Fits, CasesKeyed, HandoffsKeyed, CallbacksKeyed, Linked, ObjectivesOwned, Audited;
    assert s.(events := s.events + []) == s;
    var t := Commit(s, c, [e]);
    CommitAudited(s, c, [e]);
    CommitCases(s, c, [e]);
    CommitOwned(s, c, [e]);
    SameOwned(s, t);
    assert t.(events := t.events + []) == t;
    assert HandoffsKeyed(t) && CallbacksKeyed(t) by { SameHandoffTables(s, t); }
    var m := Put(s, CaseWrite(c));
    assert m.(events := m.events + [e]) == t;
    assert CasesKeyed(m) && HandoffsKeyed(m) && CallbacksKeyed(m) && Linked(m) by { SameTables(t, m); }
  }

  lemma SameTables(s: State, t: State)
    requires t.cases == s.cases && t.handoffs == s.handoffs && t.callbacks == s.callbacks
    ensures CasesKeyed(s) ==> CasesKeyed(t)
    ensures HandoffsKeyed(s) ==> HandoffsKeyed(t)
    ensures CallbacksKeyed(s) ==> CallbacksKeyed(t)
    ensures Linked(s) ==> Linked(t)
  {
    if Linked(s) {
      forall k | k in t.cases.m ensures CaseLinked(t, t.cases.m[k]) {
        assert CaseLinked(s, s.cases.m[k]);
      }
    }
  }

  lemma SameHandoffTables(s: State, t: State)
    requires t.handoffs == s.handoffs && t.callbacks == s.callbacks
    ensures HandoffsKeyed(s) ==> HandoffsKeyed(t)
    ensures CallbacksKeyed(s) ==> CallbacksKeyed(t)
  {
  }

  lemma EventStored(s: State, e: Event)
    requires Safe(s, [e])
    ensures Safe(Put(s, EventWrite(e)), [])
  {
    hide CasesKeyed, HandoffsKeyed, CallbacksKeyed, Linked, ObjectivesOwned, Audited;
    var t := Put(s, EventWrite(e));
    assert t.(events := t.events + []) == s.(events := s.events + [e]);
    SameTables(s, t);
    SameOwned(s, t);
  }

  lemma CallbackStored(s: State, r: Callback)
    requires Safe(s, []) && r.eventId != ""
    ensures Safe(Put(s, CallbackWrite(r)), [])
  {
    hide CasesKeyed, HandoffsKeyed, Linked, ObjectivesOwned, Replay, LogOf, Project;
    var t := Put(s, CallbackWrite(r));
    SameOwned(s, t);
    assert CasesKeyed(t) && HandoffsKeyed(t) && Linked(t) by { SameRest(s, t); }
  }

  lemma SameRest(s: State, t: State)
    requires t.cases == s.cases && t.handoffs == s.handoffs
    requires CasesKeyed(s) && HandoffsKeyed(s) && Linked(s)
    ensures CasesKeyed(t) && HandoffsKeyed(t) && Linked(t)
  {
    forall k | k in t.cases.m ensures CaseLinked(t, t.cases.m[k]) {
      assert CaseLinked(s, s.cases.m[k]);
    }
  }

  /** Marking a stored objective keeps its owner. */
  lemma ObjectiveMarked(s: State, o: Objective, count: nat, now: int, e: Event)
    requires Safe(s, [e]) && o.objectiveId in s.objectives.m
    requires s.objectives.m[o.objectiveId].handoffId == o.handoffId && s.objectives.m[o.objectiveId].caseId == o.caseId
    ensures var t := Put(s, ObjectiveWrite(PassedObjective(o, count, now)));
            && Safe(t, [e]) && t.objectives.m.Keys == s.objectives.m.Keys
            && forall k | k in s.objectives.m ::
                 t.objectives.m[k].handoffId == s.objectives.m[k].handoffId && t.objectives.m[k].caseId == s.objectives.m[k].caseId
  {
    hide CasesKeyed, HandoffsKeyed, CallbacksKeyed, Linked, Replay, LogOf, Project;
    var t := Put(s, ObjectiveWrite(PassedObjective(o, count, now)));
    SameTables(s, t);
    OwnersKept(s, t);
  }

  lemma OwnersKept(s: State, t: State)
    requires ObjectivesOwned(s) && t.handoffs == s.handoffs && t.objectives.m.Keys == s.objectives.m.Keys
    requires forall k | k in s.objectives.m ::
               t.objectives.m[k].handoffId == s.objectives.m[k].handoffId && t.objectives.m[k].caseId == s.objectives.m[k].caseId
    ensures ObjectivesOwned(t)
  {
    forall o | o in t.objectives.m ensures ObjectiveOf(t, o, t.objectives.m[o].handoffId) {
      assert ObjectiveOf(s, o, s.objectives.m[o].handoffId);
    }
    forall h, k | Orphan(t, h) && Orphan(t, k) ensures h == k {
      assert Orphan(s, h) && Orphan(s, k);
    }
  }

  // --- sequences of writes ---

  lemma BehindHere(s: State, w: Write, rest: seq<Write>)
    requires Safe(s, []) || (w.EventWrite? && Safe(s, [w.e]))
    requires AllBehind(Put(s, w), rest)
    ensures AllBehind(s, [w] + rest)
  {
    hide Safe, Put;
    assert ([w] + rest)[0] == w && ([w] + rest)[1..] == rest;
  }

  lemma NothingLeft(s: State)
    requires Safe(s, [])
    ensures AllBehind(s, [])
  {
    hide Safe;
  }

  /** A case and its event: before, between and after them. */
  lemma MoveBehind(s: State, c: SecurityCase, e: Event, rest: seq<Write>)
    requires Safe(s, []) && Fits(s, c, [e]) && AllBehind(Commit(s, c, [e]), rest)
    ensures AllBehind(s, MoveWrites(c, e) + rest)
  {
    hide Safe, Fits, AllBehind;
    CaseStored(s, c, e);
    var m := Put(s, CaseWrite(c));
    assert Put(m, EventWrite(e)) == Commit(s, c, [e]);
    hide Put, Commit;
    BehindHere(m, EventWrite(e), rest);
    BehindHere(s, CaseWrite(c), [EventWrite(e)] + rest);
    assert [CaseWrite(c)] + ([EventWrite(e)] + rest) == MoveWrites(c, e) + rest;
  }

  lemma OneMoveBehind(s: State, c: SecurityCase, e: Event)
    requires Safe(s, []) && Fits(s, c, [e])
    ensures AllBehind(s, MoveWrites(c, e)) && Safe(Commit(s, c, [e]), [])
  {
    hide Safe, Fits, AllBehind;
    CaseStored(s, c, e);
    NothingLeft(Commit(s, c, [e]));
    MoveBehind(s, c, e, []);
    assert MoveWrites(c, e) + [] == MoveWrites(c, e);
  }

  // --- an event that tells what a case became ---

  /** `d` is the stored case `c` after one event that tells all that changed. */
  ghost predicate Told(s: State, c: SecurityCase, d: SecurityCase, e: Event) {
    && c.caseId in s.cases.m && s.cases.m[c.caseId] == c && e.caseId == d.caseId == c.caseId && d.fingerprint == c.fingerprint
    && CaseLinked(s, d) && Advance(Project(c), e.kind) == Project(d)
  }

  lemma ToldFits(s: State, c: SecurityCase, d: SecurityCase, e: Event)
    requires Safe(s, []) && Told(s, c, d, e)
    ensures Fits(s, d, [e])
  {
    hide CasesKeyed, HandoffsKeyed, CallbacksKeyed, Linked, ObjectivesOwned, CaseLinked, Project, Advance, LogOf, Replay;
    assert s.(events := s.events + []) == s;
    ReplayOne(LogOf(s.events, c.caseId), e);
  }

  lemma ToldBehind(s: State, c: SecurityCase, d: SecurityCase, e: Event)
    requires Safe(s, []) && Told(s, c, d, e)
    ensures AllBehind(s, MoveWrites(d, e)) && Safe(Commit(s, d, [e]), [])
  {
    hide Safe, Told, AllBehind, Fits;
    ToldFits(s, c, d, e);
    OneMoveBehind(s, d, e);
  }

  /** The moves that change no links. */
  lemma FollowsTold(policy: CasePolicy, s: State, c: SecurityCase, d: SecurityCase, actor: Actor, k: EventKind)
    requires Inv(policy, s) && c.caseId in s.cases.m && s.cases.m[c.caseId] == c && Follows(policy, c, d, BoundKind(k))
    ensures Told(s, c, d, NewEvent(c.caseId, actor, k))
  {
    hide CaseSane, Advance, Project, BoundKind;
    StoredCase(policy, s, c.caseId);
    hide Inv;
  }

  lemma FollowsBehind(policy: CasePolicy, s: State, c: SecurityCase, d: SecurityCase, actor: Actor, k: EventKind)
    requires Inv(policy, s) && c.caseId in s.cases.m && s.cases.m[c.caseId] == c && Follows(policy, c, d, BoundKind(k))
    ensures AllBehind(s, MoveWrites(d, NewEvent(c.caseId, actor, k)))
  {
    hide Inv, Safe, Told, AllBehind, Follows, BoundKind, Commit;
    InvIsSafe(policy, s);
    FollowsTold(policy, s, c, d, actor, k);
    ToldBehind(s, c, d, NewEvent(c.caseId, actor, k));
  }

  // --- operation by operation ---

  lemma NoneBehind(policy: CasePolicy, s: State)
    requires Inv(policy, s)
    ensures AllBehind(s, [])
  {
    hide Inv, Safe, AllBehind;
    InvIsSafe(policy, s);
    NothingLeft(s);
  }

  lemma NotedBehind(policy: CasePolicy, s: State, a: Action)
    requires Inv(policy, s) && (a.op.NoteDegraded? || a.op.DoAcknowledge? || a.op.NoteIssue?)
    ensures AllBehind(s, StepWrites(policy, s, a))
  {
    hide Inv, AllBehind, CaseSane, CaseLinked, Follows, BoundKind, MoveWrites, DegradedCase, AcknowledgedCase, IssuedCase;
    NoneBehind(policy, s);
    var (id, now) := (a.op.caseId, a.stamp.now);
    if id in s.cases.m {
      StoredCase(policy, s, id);
      var c := s.cases.m[id];
      match a.op
      case NoteDegraded(_, cycle) =>
        DegradedCaseSane(policy, c, cycle, now);
        FollowsBehind(policy, s, c, DegradedCase(c, cycle, now), Loop, ScanDegraded(cycle));
      case DoAcknowledge(_, operator) =>
        AcknowledgedCaseSane(policy, c, operator, now);
        FollowsBehind(policy, s, c, AcknowledgedCase(c, operator, now), Operator, Acknowledged(operator));
      case NoteIssue(_, url, issue) =>
        IssuedCaseSane(policy, c, url, issue, now);
        FollowsBehind(policy, s, c, IssuedCase(c, url, issue, now), Loop, IssueOpened(url, issue));
    }
  }

  lemma TransitionBehind(policy: CasePolicy, s: State, id: string, reason: Option<string>, actor: Actor, now: int)
    requires Inv(policy, s)
    ensures AllBehind(s, TransitionWrites(s, id, reason, actor, now))
  {
    hide Inv, AllBehind, CaseSane, CaseLinked, Follows, BoundKind, MoveWrites, MovedCase, AllowedTransition;
    NoneBehind(policy, s);
    if id in s.cases.m {
      StoredCase(policy, s, id);
      var c := s.cases.m[id];
      MovedCaseSane(policy, c, reason, now);
      FollowsBehind(policy, s, c, MovedCase(c, reason, now), actor, MoveEvent(c.status, reason));
    }
  }

  lemma ReopenedTold(s: State, c: SecurityCase, f: Finding, cycle: string, now: int, changed: bool)
    requires c.caseId in s.cases.m && s.cases.m[c.caseId] == c && Terminal(c.status) && CaseLinked(s, c)
    ensures Told(s, c, FailedCase(c, f, cycle, now), NewEvent(c.caseId, Loop, Reopened(f.findingId, changed)))
  {
    hide BoundText;
  }

  lemma TriagedTold(s: State, c: SecurityCase, now: int)
    requires c.caseId in s.cases.m && s.cases.m[c.caseId] == c && CaseLinked(s, c)
    ensures Told(s, c, TriagedCase(c, now), NewEvent(c.caseId, Loop, MovedToTriaged(Open)))
  {
    hide BoundText;
  }

  /** The second of two moves, from the store that the first one leaves. */
  lemma ThenTriagedBehind(s: State, c: SecurityCase, e: Event, now: int)
    requires Safe(s, []) && Fits(s, c, [e])
    ensures AllBehind(s, MoveWrites(c, e) + MoveWrites(TriagedCase(c, now), NewEvent(c.caseId, Loop, MovedToTriaged(Open))))
  {
    hide Safe, AllBehind, Told, BoundKind, TriagedCase, Replay, LogOf, Project;
    var t := Commit(s, c, [e]);
    CaseStored(s, c, e);
    LinkKept(s, t, c);
    TriagedTold(t, c, now);
    ToldBehind(t, c, TriagedCase(c, now), NewEvent(c.caseId, Loop, MovedToTriaged(Open)));
    MoveBehind(s, c, e, MoveWrites(TriagedCase(c, now), NewEvent(c.caseId, Loop, MovedToTriaged(Open))));
  }

  lemma OpenedFits(policy: CasePolicy, s: State, f: Finding, cycle: string, stamp: Stamp)
    requires Inv(policy, s) && stamp.caseId !in s.cases.m && forall k | k in s.cases.m :: s.cases.m[k].fingerprint != f.fingerprint
    ensures var c := OpenedCase(policy, f, cycle, stamp);
            c.caseId == stamp.caseId && Fits(s, c, [NewEvent(c.caseId, Loop, CaseOpened(f.findingId, f.severity))])
  {
    var c := OpenedCase(policy, f, cycle, stamp);
    var e := NewEvent(c.caseId, Loop, CaseOpened(f.findingId, f.severity));
    assert c.caseId == stamp.caseId && c.fingerprint == f.fingerprint && c.handoffIds == [] && Project(c) == Unborn();
    UnbornHasNoLog(s, stamp.caseId);
    assert [] + [e] == [e];
    assert Advance(Unborn(), e.kind) == Unborn();
    ReplayOne([], e);
    assert Replay([]) == Unborn();
    hide Inv, OpenedCase, Replay, Project, LogOf;
  }

  lemma FailingBehind(policy: CasePolicy, s: State, f: Finding, existing: Option<SecurityCase>, cycle: string, stamp: Stamp)
    requires Inv(policy, s) && stamp.caseId !in s.cases.m
    requires existing.Some? ==> existing.value.caseId in s.cases.m && s.cases.m[existing.value.caseId] == existing.value
    requires existing.None? ==> forall k | k in s.cases.m :: s.cases.m[k].fingerprint != f.fingerprint
    ensures AllBehind(s, FailingWrites(policy, f, existing, cycle, stamp))
  {
    hide Inv, Safe, AllBehind, Told, Fits, BoundKind, MoveWrites, OpenedCase, FailedCase, TriagedCase, Follows, CaseSane, CaseLinked;
    InvIsSafe(policy, s);
    match existing
    case None =>
      var c := OpenedCase(policy, f, cycle, stamp);
      OpenedFits(policy, s, f, cycle, stamp);
      ThenTriagedBehind(s, c, NewEvent(c.caseId, Loop, CaseOpened(f.findingId, f.severity)), stamp.now);
    case Some(c) =>
      var (changed, c1) := (f.signature != c.signature, FailedCase(c, f, cycle, stamp.now));
      StoredCase(policy, s, c.caseId);
      FailedCaseSane(policy, c, f, cycle, stamp.now, changed);
      CaseMoves.FailingIdentity(c, f, cycle, stamp.now);
      if Terminal(c.status) {
        var e := NewEvent(c.caseId, Loop, Reopened(f.findingId, changed));
        ReopenedTold(s, c, f, cycle, stamp.now, changed);
        ToldFits(s, c, c1, e);
        ThenTriagedBehind(s, c1, e, stamp.now);
      } else {
        FollowsBehind(policy, s, c, c1, Loop, RefreshFailing(f.findingId, changed));
      }
  }

  lemma ObserveBehind(policy: CasePolicy, s: State, f: Finding, cycle: string, stamp: Stamp)
    requires Inv(policy, s) && stamp.caseId !in s.cases.m
    ensures AllBehind(s, ObserveWrites(policy, s, f, cycle, stamp))
  {
    hide Inv, Safe, AllBehind, FailingWrites, MoveWrites, BoundKind, PassedCase, CaseByFingerprint, Follows, CaseSane, CaseLinked;
    var m := Put(s, FindingWrite(f));
    var existing := CaseByFingerprint(m, f.fingerprint);
    InvIsSafe(policy, s);
    PutFindingKeepsInv(policy, s, f);
    Engineering.InvHandoffs(policy, m);
    CaseMoves.FoundCase(m, f);
    if existing.Some? {
      var c := existing.value;
      StoredCase(policy, m, c.caseId);
      PassedCaseSane(policy, c, cycle, stamp.now);
      var c1 := PassedCase(c, cycle, stamp.now);
      FollowsBehind(policy, m, c, c1, Loop, PositiveRecheck(c1.passCount, c1.requiredPasses));
    }
    FailingBehind(policy, m, f, existing, cycle, stamp);
    NoneBehind(policy, m);
    var rest := if !f.passed then FailingWrites(policy, f, existing, cycle, stamp)
                else if existing.Some? then PassingWrites(existing.value, cycle, stamp.now) else [];
    BehindHere(s, FindingWrite(f), rest);
  }

  lemma HandoffKeyedAlone(s: State, h: Handoff)
    requires HandoffsKeyed(s) && h.handoffId !in s.handoffs.m && h.idempotencyKey != ""
    requires forall k | k in s.handoffs.m :: s.handoffs.m[k].idempotencyKey != h.idempotencyKey
    ensures HandoffsKeyed(Put(s, HandoffWrite(h)))
  {
  }

  lemma SameAudit(s: State, t: State)
    requires t.cases == s.cases && t.events == s.events && Audited(s)
    ensures Audited(t.(events := t.events + []))
  {
    assert t.events + [] == s.events;
    hide Replay, LogOf, Project;
  }

  /** A new handoff without its objective yet. */
  lemma HandoffStored(policy: CasePolicy, s: State, h: Handoff)
    requires Inv(policy, s) && h.handoffId !in s.handoffs.m && h.idempotencyKey != ""
    requires forall k | k in s.handoffs.m :: s.handoffs.m[k].idempotencyKey != h.idempotencyKey
    ensures Safe(Put(s, HandoffWrite(h)), [])
  {
    hide CasesKeyed, HandoffsKeyed, CallbacksKeyed, ObjectivesLinked, ObjectivesOwned, Linked, Sane, Audited;
    var m := Put(s, HandoffWrite(h));
    LinkedGrows(s, m);
    SameCaseTables(s, m);
    HandoffKeyedAlone(s, h);
    OnlyOrphan(s, h);
    SameAudit(s, m);
  }

  lemma SameCaseTables(s: State, t: State)
    requires t.cases == s.cases && t.callbacks == s.callbacks && CasesKeyed(s) && CallbacksKeyed(s)
    ensures CasesKeyed(t) && CallbacksKeyed(t)
  {
  }

  lemma OnlyOrphan(s: State, h: Handoff)
    requires ObjectivesLinked(s) && h.handoffId !in s.handoffs.m
    ensures ObjectivesOwned(Put(s, HandoffWrite(h)))
  {
    var m := Put(s, HandoffWrite(h));
    forall o | o in m.objectives.m ensures ObjectiveOf(m, o, m.objectives.m[o].handoffId) {
      assert ObjectiveOf(s, o, s.objectives.m[o].handoffId);
    }
    forall k ensures Orphan(m, k) ==> k == h.handoffId {
      if k in s.handoffs.m {
        var o :| ObjectiveOf(s, o, k);
        assert o in m.objectives.m;
      }
    }
  }

  lemma HandedOffTold(policy: CasePolicy, s: State, c: SecurityCase, h: Handoff, now: int)
    requires Inv(policy, s) && c.caseId in s.cases.m && s.cases.m[c.caseId] == c
    requires h.handoffId in s.handoffs.m && s.handoffs.m[h.handoffId] == h && h.caseId == c.caseId && BoundText(h.handoffId) == h.handoffId
    ensures Told(s, c, HandedOffCase(c, h.handoffId, now), NewEvent(c.caseId, Loop, HandoffAsked(h.handoffId, h.objectiveKey)))
  {
    hide Inv, CaseSane, CaseLinked, Project, Advance, HandedOffCase, BoundKind, BoundText;
    StoredCase(policy, s, c.caseId);
    HandedOffCaseSane(policy, c, h, now);
    HandedOffCaseLinked(s, c, h, now);
  }

  lemma LinkedBehind(policy: CasePolicy, s: State, c: SecurityCase, h: Handoff, o: Objective, now: int)
    requires Inv(policy, s) && c.caseId in s.cases.m && s.cases.m[c.caseId] == c
    requires h.handoffId !in s.handoffs.m && o.objectiveId !in s.objectives.m
    requires o.handoffId == h.handoffId && o.caseId == h.caseId == c.caseId && h.idempotencyKey != "" && BoundText(h.handoffId) == h.handoffId
    requires forall k | k in s.handoffs.m :: s.handoffs.m[k].idempotencyKey != h.idempotencyKey
    ensures AllBehind(s, [HandoffWrite(h)] + [ObjectiveWrite(o)])
    ensures AllBehind(s, [HandoffWrite(h)] + [ObjectiveWrite(o)]
                         + MoveWrites(HandedOffCase(c, h.handoffId, now), NewEvent(c.caseId, Loop, HandoffAsked(h.handoffId, h.objectiveKey))))
  {
    hide Inv, Safe, AllBehind, Told, MoveWrites, HandedOffCase, BoundKind, BoundText, Commit, Put, WithHandoff;
    var t := WithHandoff(s, h, o);
    BothStored(s, h, o);
    InvIsSafe(policy, s);
    HandoffStored(policy, s, h);
    NewHandoffKeepsInv(policy, s, h, o);
    HandedOffTold(policy, t, c, h, now);
    NoneBehind(policy, t);
    InvIsSafe(policy, t);
    var moved := MoveWrites(HandedOffCase(c, h.handoffId, now), NewEvent(c.caseId, Loop, HandoffAsked(h.handoffId, h.objectiveKey)));
    ToldBehind(t, c, HandedOffCase(c, h.handoffId, now), NewEvent(c.caseId, Loop, HandoffAsked(h.handoffId, h.objectiveKey)));
    TwoBehind(s, HandoffWrite(h), ObjectiveWrite(o), []);
    TwoBehind(s, HandoffWrite(h), ObjectiveWrite(o), moved);
    assert [HandoffWrite(h)] + [ObjectiveWrite(o)] + [] == [HandoffWrite(h)] + [ObjectiveWrite(o)];
  }

  lemma BothStored(s: State, h: Handoff, o: Objective)
    ensures var t := WithHandoff(s, h, o);
            && Put(Put(s, HandoffWrite(h)), ObjectiveWrite(o)) == t
            && t.cases == s.cases && h.handoffId in t.handoffs.m && t.handoffs.m[h.handoffId] == h
  {
  }

  lemma TwoBehind(s: State, w: Write, v: Write, rest: seq<Write>)
    requires Safe(s, []) && Safe(Put(s, w), []) && AllBehind(Put(Put(s, w), v), rest)
    ensures AllBehind(s, [w] + [v] + rest)
  {
    hide Safe, AllBehind, Put;
    BehindHere(Put(s, w), v, rest);
    BehindHere(s, w, [v] + rest);
    assert [w] + ([v] + rest) == [w] + [v] + rest;
  }

  lemma RequestBehind(policy: CasePolicy, s: State, id: string, f: Finding, passes: nat, stamp: Stamp)
    requires Inv(policy, s) && stamp.handoffId !in s.handoffs.m && stamp.objectiveId !in s.objectives.m
    requires BoundText(stamp.handoffId) == stamp.handoffId
    ensures AllBehind(s, RequestWrites(s, id, f, passes, stamp))
  {
    hide Inv, AllBehind, MoveWrites, HandoffReady, IdempotencyKey, HandoffByKey, HandedOffCase, BoundText, BoundKind, CaseSane, CaseLinked,
         AllowedTransition, LhpTokens.SanitizeToken;
    NoneBehind(policy, s);
    if id in s.cases.m && HandoffReady(f) {
      var c := s.cases.m[id];
      var p := if passes == 0 then c.requiredPasses else passes;
      StoredCase(policy, s, id);
      BuiltHandoff(f, c, p, stamp);
      var bundle := BuildHandoff(f, c, p, stamp).value;
      var (h, o) := (bundle.handoff, bundle.objectives[0]);
      assert ObjectiveWrites(bundle.objectives) == [ObjectiveWrite(o)];
      hide BuildHandoff;
      if HandoffByKey(s, h.idempotencyKey).None? {
        LinkedBehind(policy, s, c, h, o, stamp.now);
        assert [HandoffWrite(h)] + [ObjectiveWrite(o)] + [] == [HandoffWrite(h)] + [ObjectiveWrite(o)];
      }
    }
  }

  lemma UpdateBehind(policy: CasePolicy, s: State, u: Lhp.HandoffUpdate, now: int)
    requires Inv(policy, s)
    ensures AllBehind(s, UpdateWrites(s, u, now))
  {
    hide Inv, Safe, AllBehind, Told, MoveWrites, UpdatedCase, InboxRecord, BoundKind, CaseSane, CaseLinked, Follows, CallbackFor, Commit,
         Lhp.AllowedHandoffTransition;
    NoneBehind(policy, s);
    if u.handoffId in s.handoffs.m {
      var h1 := s.handoffs.m[u.handoffId].(status := u.status, updatedAt := now);
      var m := Put(s, HandoffWrite(h1));
      InvIsSafe(policy, s);
      HandoffStatusKeepsInv(policy, s, u.handoffId, u.status, now);
      assert m == WithHandoffStatus(s, u.handoffId, u.status, now);
      InvIsSafe(policy, m);
      if u.caseId in s.cases.m {
        StoredCase(policy, m, u.caseId);
        var c := s.cases.m[u.caseId];
        var c1 := UpdatedCase(c, u, now);
        UpdatedCaseSane(policy, c, u, now);
        var e := NewEvent(c1.caseId, EngineeringLoop, EngineeringUpdated(u.updateType, u.status, u.handoffId));
        var r := InboxRecord(u, u.status, Some(c1.status));
        CaseMoves.UpdatedIdentity(c, u, now);
        FollowsTold(policy, m, c, c1, EngineeringLoop, EngineeringUpdated(u.updateType, u.status, u.handoffId));
        ToldFits(m, c, c1, e);
        CaseStored(m, c1, e);
        InboxBehind(Commit(m, c1, [e]), u, Some(c1.status));
        MoveBehind(m, c1, e, [CallbackWrite(r)]);
        BehindHere(s, HandoffWrite(h1), MoveWrites(c1, e) + [CallbackWrite(r)]);
      } else {
        InboxBehind(m, u, None);
        BehindHere(s, HandoffWrite(h1), [CallbackWrite(InboxRecord(u, u.status, None))]);
      }
    }
  }

  lemma InboxBehind(s: State, u: Lhp.HandoffUpdate, status: Option<CaseStatus>)
    requires Safe(s, [])
    ensures AllBehind(s, [CallbackWrite(InboxRecord(u, u.status, status))])
  {
    var r := InboxRecord(u, u.status, status);
    LhpTokens.TokenShape(u.eventId, Lhp.ID_LIMIT);
    assert r.eventId != "";
    hide InboxRecord, Safe, AllBehind, Put, LhpTokens.SanitizeToken;
    CallbackStored(s, r);
    NothingLeft(Put(s, CallbackWrite(r)));
    BehindHere(s, CallbackWrite(r), []);
    assert [CallbackWrite(r)] + [] == [CallbackWrite(r)];
  }

  lemma BehindNext(s: State, ws: seq<Write>, e: Event)
    requires ws != [] && Safe(s, [e]) && NextEvent(ws) == [e] && AllBehind(Put(s, ws[0]), ws[1..])
    ensures AllBehind(s, ws)
  {
    hide Safe, Put, NextEvent;
  }

  /** While objectives are marked, the event of the resolution is the next to come. */
  lemma {:induction false} MarksBehind(s: State, list: seq<Objective>, count: nat, now: int, e: Event)
    requires Safe(s, [e])
    requires forall o | o in list :: o.objectiveId in s.objectives.m
               && s.objectives.m[o.objectiveId].handoffId == o.handoffId && s.objectives.m[o.objectiveId].caseId == o.caseId
    ensures AllBehind(s, PassWrites(list, count, now) + [EventWrite(e)])
    ensures NextEvent(PassWrites(list, count, now) + [EventWrite(e)]) == [e]
    decreases |list|
  {
    hide Safe, AllBehind, Put, PassedObjective, PassWrites;
    if list == [] {
      Playback.NothingPassed(list, count, now);
      EventStored(s, e);
      NothingLeft(Put(s, EventWrite(e)));
      assert PassWrites(list, count, now) + [EventWrite(e)] == [EventWrite(e)];
      assert [EventWrite(e)][1..] == [];
      BehindNext(s, [EventWrite(e)], e);
    } else {
      var w := ObjectiveWrite(PassedObjective(list[0], count, now));
      var ws := PassWrites(list, count, now) + [EventWrite(e)];
      PassWritesFront(list, count, now);
      ObjectiveMarked(s, list[0], count, now, e);
      assert ws[0] == w && ws[1..] == PassWrites(list[1..], count, now) + [EventWrite(e)];
      MarksBehind(Put(s, w), list[1..], count, now, e);
      BehindNext(s, ws, e);
    }
  }

  lemma PassWritesFront(list: seq<Objective>, count: nat, now: int)
    requires list != []
    ensures PassWrites(list, count, now) == [ObjectiveWrite(PassedObjective(list[0], count, now))] + PassWrites(list[1..], count, now)
  {
    hide PassedObjective;
  }

  lemma VerifyBehind(policy: CasePolicy, settings: VerifierSettings, s: State, id: string, reason: string, now: int)
    requires Inv(policy, s) && UnderOwnIds(s.objectives)
    ensures AllBehind(s, VerifyWrites(settings, s, id, reason, now))
  {
    hide Inv, Safe, AllBehind, Told, PassWrites, ListObjectives, ResolvedCase, BoundKind, CaseSane, CaseLinked, Follows, CanResolve, UnderOwnIds, Fits;
    NoneBehind(policy, s);
    if id in s.cases.m {
      var c := s.cases.m[id];
      StoredCase(policy, s, id);
      InvIsSafe(policy, s);
      ResolvedCaseSane(policy, c, reason, now);
      var (k, c1) := (CaseResolved(c.status, c.passCount, c.requiredPasses, reason), ResolvedCase(c, reason, now));
      var e := NewEvent(id, Actor.Verifier, k);
      FollowsTold(policy, s, c, c1, Actor.Verifier, k);
      ToldFits(s, c, c1, e);
      CaseStored(s, c1, e);
      var list := ListObjectives(s, None, Some(id));
      ListedIff(s, id);
      var m := Put(s, CaseWrite(c1));
      MarksBehind(m, list, c.passCount, now, e);
      BehindHere(s, CaseWrite(c1), PassWrites(list, c.passCount, now) + [EventWrite(e)]);
      assert [CaseWrite(c1)] + (PassWrites(list, c.passCount, now) + [EventWrite(e)])
          == [CaseWrite(c1)] + PassWrites(list, c.passCount, now) + [EventWrite(e)];
    }
  }

  lemma StepBehind(policy: CasePolicy, s: State, a: Action)
    requires Inv(policy, s) && UnderOwnIds(s.objectives) && Admissible(s, a)
    ensures AllBehind(s, StepWrites(policy, s, a))
  {
    if a.op.NoteDegraded? || a.op.DoAcknowledge? || a.op.NoteIssue? {
      hide Inv, StepWrites, AllBehind;
      NotedBehind(policy, s, a);
    } else {
      hide Inv, AllBehind, Scrubbed, BoundText, UnderOwnIds, Lhp.ValidateUpdate,
           ObserveWrites, TransitionWrites, RequestWrites, UpdateWrites, VerifyWrites;
      NoneBehind(policy, s);
      match a.op
      case Observe(f, cycle, _) => ObserveBehind(policy, s, f, cycle, a.stamp);
      case DoTriage(id, actor) => TransitionBehind(policy, s, id, None, actor, a.stamp.now);
      case DoNeedsHuman(id, reason, actor) => TransitionBehind(policy, s, id, Some(reason), actor, a.stamp.now);
      case AskHandoff(id, f, passes) => RequestBehind(policy, s, id, f, passes, a.stamp);
      case Deliver(raw) =>
        if Lhp.ValidateUpdate(raw).Ok? {
          UpdateBehind(policy, s, Lhp.ValidateUpdate(raw).value, a.stamp.now);
        }
      case Verify(id, reason, settings) => VerifyBehind(policy, settings, s, id, reason, a.stamp.now);
    }
  }

  // --- a crash anywhere in a run ---

  lemma {:induction false} LaterWrites(rest: seq<Write>, more: seq<Write>)
    ensures NextEvent(rest + more) == if NextEvent(rest) == [] then NextEvent(more) else NextEvent(rest)
  {
    if rest == [] {
      assert rest + more == more;
    } else {
      assert (rest + more)[0] == rest[0] && (rest + more)[1..] == rest[1..] + more;
      LaterWrites(rest[1..], more);
    }
  }

  lemma BehindLonger(s: State, rest: seq<Write>, more: seq<Write>)
    requires Behind(s, rest)
    ensures Behind(s, rest + more)
  {
    hide Safe;
    LaterWrites(rest, more);
  }

  /**
   Wherever a crash cuts the writes of a run, ids and references in what was written hold as after
   whole operations: one case per fingerprint, one handoff per key, every link of a case resolves,
   every objective has its handoff, and at most one handoff lacks its objective. The trail tells
   every case as stored, or does so once the one event is added that was to be written next.
   */
  lemma {:induction false} CrashLeavesBehind(policy: CasePolicy, actions: seq<Action>, k: nat)
    requires AdmissibleRun(policy, actions) && k <= |RunLog(policy, actions)|
    ensures Behind(Play(EmptyState(), RunLog(policy, actions)[..k]), RunLog(policy, actions)[k..])
  {
    hide Inv, Behind, AllBehind, Step, StepWrites, Play, Admissible, UnderOwnIds;
    var log := RunLog(policy, actions);
    if actions == [] {
      Playback.PlayNothing(EmptyState());
      EmptyInv(policy);
      NoneBehind(policy, EmptyState());
      CutIsBehind(EmptyState(), [], 0);
    } else {
      var before, a := actions[..|actions| - 1], actions[|actions| - 1];
      var (s, front) := (Run(policy, before), RunLog(policy, before));
      var ws := StepWrites(policy, s, a);
      assert log == front + ws;
      if k <= |front| {
        CrashLeavesBehind(policy, before, k);
        assert log[..k] == front[..k] && log[k..] == front[k..] + ws;
        BehindLonger(Play(EmptyState(), front[..k]), front[k..], ws);
      } else {
        var j := k - |front|;
        Reachable(policy, before);
        Playback.RunIsItsLog(policy, before);
        StepBehind(policy, s, a);
        CutIsBehind(s, ws, j);
        assert log[..k] == front + ws[..j] && log[k..] == ws[j..];
        Playback.PlayAppend(EmptyState(), front, ws[..j]);
      }
    }
  }

  /** And a new process reads back just that, up to trace ids and one more bounding of texts. */
  lemma CrashReadsBack(policy: CasePolicy, actions: seq<Action>, k: nat)
    requires AdmissibleRun(policy, actions) && PlainRun(actions) && k <= |RunLog(policy, actions)|
    ensures Alike(Play(EmptyState(), RunLog(policy, actions)[..k]), Reload(FilesOf(RunLog(policy, actions)[..k])))
  {
    hide Run, AdmissibleFrom, PlainRun, Play, RunLog, FilesOf, Reload, PlainStore, Alike;
    var log := RunLog(policy, actions);
    LogIsPlain(policy, actions);
    var cut := log[..k];
    assert PlainLog(cut) by { CutPlain(log, k); }
    hide PlainLog;
    EmptyIsPlain();
    PlayPlain(EmptyState(), cut);
    AlikeSelf(Play(EmptyState(), cut));
    ReloadAlike(Play(EmptyState(), cut), cut);
  }

  lemma CutPlain(log: seq<Write>, k: nat)
    requires PlainLog(log) && k <= |log|
    ensures PlainLog(log[..k])
  {
    hide PlainWrite;
  }

  lemma EmptyIsPlain()
    ensures PlainStore(EmptyState())
  {
    hide PlainWrite;
  }

  lemma AlikeSelf(s: State)
    ensures Alike(s, s)
  {
    hide ScrubFinding, EventOnReload;
  }
}
