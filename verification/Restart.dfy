/**
 Restarts of the durable store (app/cases/store.py): what a run has appended to the six files,
 and what a new process reads back from them.
 */
module Restart {
  import opened Wrappers
  import opened Dicts
  import opened Models
  import opened Labels
  import opened Policy
  import opened Lifecycle
  import opened Runs
  import opened Invariants
  import opened Jsonl
  import opened LhpTokens
  import opened WriteLog
  import opened Verifier
  import Playback
  import Preservation
  import ReachableStores
  import Sorting
  import Lhp = LhpHandoff

  // --- the six files ---

  /** The records of each file, in the order they were appended. */
  datatype Files = Files(
    cases: seq<SecurityCase>, events: seq<Event>, findings: seq<Finding>,
    handoffs: seq<Handoff>, objectives: seq<Objective>, callbacks: seq<Callback>)

  /** Every write goes to the end of the file of its kind. */
  function Filed(d: Files, w: Write): Files {
    match w
    case CaseWrite(c) => d.(cases := d.cases + [c])
    case EventWrite(e) => d.(events := d.events + [e])
    case FindingWrite(f) => d.(findings := d.findings + [f])
    case HandoffWrite(h) => d.(handoffs := d.handoffs + [h])
    case ObjectiveWrite(o) => d.(objectives := d.objectives + [o])
    case CallbackWrite(r) => d.(callbacks := d.callbacks + [r])
  }

  function FilesOf(log: seq<Write>): Files {
    if log == [] then Files([], [], [], [], [], []) else Filed(FilesOf(log[..|log| - 1]), log[|log| - 1])
  }

  function CaseKey(c: SecurityCase): string { c.caseId }
  function FindingKey(f: Finding): string { f.findingId }
  function HandoffKey(h: Handoff): string { h.handoffId }
  function ObjectiveKey(o: Objective): string { o.objectiveId }
  function CallbackKey(r: Callback): string { r.eventId }

  /** The store holds exactly what was written. */
  ghost predicate Holds(s: State, d: Files) {
    && s.cases == Remember(d.cases, CaseKey) && s.events == d.events && s.findings == Remember(d.findings, FindingKey)
    && s.handoffs == Remember(d.handoffs, HandoffKey) && s.objectives == Remember(d.objectives, ObjectiveKey)
    && s.callbacks == Remember(d.callbacks, CallbackKey)
  }

  lemma OneMore<V>(records: seq<V>, key: V -> string, v: V)
    ensures Remember(records + [v], key) == Remember(records, key).Put(key(v), v)
  {
    assert (records + [v])[..|records|] == records;
  }

  lemma PutHolds(s: State, d: Files, w: Write)
    requires Holds(s, d)
    ensures Holds(Put(s, w), Filed(d, w))
  {
    match w
    case CaseWrite(c) => OneMore(d.cases, CaseKey, c);
    case EventWrite(_) =>
    case FindingWrite(f) => OneMore(d.findings, FindingKey, f);
    case HandoffWrite(h) => OneMore(d.handoffs, HandoffKey, h);
    case ObjectiveWrite(o) => OneMore(d.objectives, ObjectiveKey, o);
    case CallbackWrite(r) => OneMore(d.callbacks, CallbackKey, r);
    hide Remember;
  }

  /** Playing a log builds up exactly what its files hold. */
  lemma {:induction false} PlayedHolds(log: seq<Write>)
    ensures Holds(Play(EmptyState(), log), FilesOf(log))
  {
    hide Play, Put, Filed, Holds;
    if log == [] {
      Playback.PlayNothing(EmptyState());
      NothingHeld();
    } else {
      var n := |log| - 1;
      PlayedHolds(log[..n]);
      assert log == log[..n] + [log[n]];
      Playback.PlayAppend(EmptyState(), log[..n], [log[n]]);
      Playback.PlayOne(Play(EmptyState(), log[..n]), log[n]);
      PutHolds(Play(EmptyState(), log[..n]), FilesOf(log[..n]), log[n]);
    }
  }

  lemma NothingHeld()
    ensures Holds(EmptyState(), Files([], [], [], [], [], []))
  {
  }

  /** The files after a run: its operations' writes, in order, each in the file of its kind. */
  function RunFiles(policy: CasePolicy, actions: seq<Action>): Files {
    FilesOf(RunLog(policy, actions))
  }

  /** The store after any run is exactly what that run has written to the six files. */
  lemma RunWrites(policy: CasePolicy, actions: seq<Action>)
    ensures Holds(Run(policy, actions), RunFiles(policy, actions))
  {
    hide Holds, FilesOf, Play;
    Playback.RunIsItsLog(policy, actions);
    PlayedHolds(RunLog(policy, actions));
  }

  // --- loading ---

  function ObjectiveOnReload(o: Objective): Objective {
    o.(objectiveId := SanitizeToken(o.objectiveId, Lhp.ID_LIMIT), caseId := SanitizeToken(o.caseId, Lhp.ID_LIMIT),
       handoffId := SanitizeToken(o.handoffId, Lhp.ID_LIMIT), objectiveKey := SanitizeToken(o.objectiveKey, Lhp.ID_LIMIT),
       objectiveType := SanitizeToken(o.objectiveType, Lhp.ID_LIMIT))
  }

  function CallbackOnReload(r: Callback): Callback {
    r.(eventId := SanitizeToken(r.eventId, Lhp.ID_LIMIT), handoffId := SanitizeToken(r.handoffId, Lhp.ID_LIMIT),
       caseId := SanitizeToken(r.caseId, Lhp.ID_LIMIT))
  }

  function EventOnReload(e: Event): Event {
    e.(kind := BoundKind(e.kind))
  }

  function EventsOnReload(events: seq<Event>): seq<Event> {
    seq(|events|, i requires 0 <= i < |events| => EventOnReload(events[i]))
  }

  /** The store that a new process reads from the six files. */
  function Reload(d: Files): State {
    State(Load(LinesOf(d.cases), CaseKey, ScrubCase), EventsOnReload(d.events), Load(LinesOf(d.findings), FindingKey, ScrubFinding),
          Load(LinesOf(d.handoffs), HandoffKey, HandoffOnReload), Load(LinesOf(d.objectives), ObjectiveKey, ObjectiveOnReload),
          Load(LinesOf(d.callbacks), CallbackKey, CallbackOnReload))
  }

  /** A restart keeps every case: reloading what any run has written to the case file gives its dictionary back, order included. */
  lemma RestartKeepsCases(policy: CasePolicy, actions: seq<Action>)
    requires AdmissibleRun(policy, actions)
    ensures Reload(RunFiles(policy, actions)).cases == Run(policy, actions).cases
  {
    hide Run, AdmissibleFrom, Load, LinesOf, Remember, RunFiles, ScrubCase;
    RunWrites(policy, actions);
    assert forall c: SecurityCase :: CaseKey(ScrubCase(c)) == CaseKey(c) by { ScrubKeepsCaseId(); }
    ReloadExactIff(RunFiles(policy, actions).cases, CaseKey, ScrubCase);
    var cases := Run(policy, actions).cases;
    forall k | k in cases.m ensures ScrubCase(cases.m[k]) == cases.m[k] {
      ReachableStores.StoredCasesAreStable(policy, actions, k);
    }
  }

  lemma ScrubKeepsCaseId()
    ensures forall c: SecurityCase :: CaseKey(ScrubCase(c)) == CaseKey(c)
  {
  }

  // --- plain records ---

  /** A generated id or a hash: a token already. */
  predicate Plain(id: string) {
    SanitizeToken(id, Lhp.ID_LIMIT) == id
  }

  /** Only the trace id changes on reload. */
  predicate PlainHandoff(h: Handoff) {
    Plain(h.handoffId) && Plain(h.caseId) && Plain(h.objectiveKey) && Plain(h.idempotencyKey) && Plain(h.fingerprint)
  }

  /** What re-validation does to a record is at most to bound its texts once more, or to fill in a trace id. */
  predicate PlainWrite(w: Write) {
    match w
    case CaseWrite(c) => ScrubCase(c) == c && Plain(c.caseId)
    case EventWrite(e) => EventOnReload(EventOnReload(e)) == EventOnReload(e)
    case FindingWrite(f) => ScrubFinding(ScrubFinding(f)) == ScrubFinding(f)
    case HandoffWrite(h) => PlainHandoff(h)
    case ObjectiveWrite(o) => ObjectiveOnReload(o) == o
    case CallbackWrite(r) => CallbackOnReload(r) == r
  }

  ghost predicate PlainLog(log: seq<Write>) {
    forall i | 0 <= i < |log| :: PlainWrite(log[i])
  }

  ghost predicate PlainStore(s: State) {
    && (forall k | k in s.cases.m :: PlainWrite(CaseWrite(s.cases.m[k])))
    && (forall i | 0 <= i < |s.events| :: PlainWrite(EventWrite(s.events[i])))
    && (forall k | k in s.findings.m :: PlainWrite(FindingWrite(s.findings.m[k])))
    && (forall k | k in s.handoffs.m :: PlainWrite(HandoffWrite(s.handoffs.m[k])))
    && (forall k | k in s.objectives.m :: PlainWrite(ObjectiveWrite(s.objectives.m[k])))
    && (forall k | k in s.callbacks.m :: PlainWrite(CallbackWrite(s.callbacks.m[k])))
  }

  ghost predicate PlainAction(a: Action) {
    && (a.op.Observe? ==> Plain(a.stamp.caseId))
    && (a.op.AskHandoff? ==> Plain(a.stamp.handoffId) && Plain(a.stamp.objectiveId) && Plain(a.op.finding.fingerprint))
  }

  ghost predicate PlainRun(actions: seq<Action>) {
    forall i | 0 <= i < |actions| :: PlainAction(actions[i])
  }

  lemma PutPlain(s: State, w: Write)
    requires PlainStore(s) && PlainWrite(w)
    ensures PlainStore(Put(s, w))
  {
    hide PlainWrite;
  }

  lemma {:induction false} PlayPlain(s: State, ws: seq<Write>)
    requires PlainStore(s) && PlainLog(ws)
    ensures PlainStore(Play(s, ws))
    decreases |ws|
  {
    hide PlainStore, PlainWrite, Put;
    if ws != [] {
      PutPlain(s, ws[0]);
      PlayPlain(Put(s, ws[0]), ws[1..]);
    }
  }

  // --- every operation writes plain records ---

  lemma EventPlain(id: string, actor: Actor, k: EventKind)
    ensures PlainWrite(EventWrite(NewEvent(id, actor, k)))
  {
    hide BoundText;
    assert forall s: string :: BoundText(BoundText(BoundText(s))) == BoundText(BoundText(s)) by { BoundTwice(); }
  }

  lemma BoundTwice()
    ensures forall s: string :: BoundText(BoundText(BoundText(s))) == BoundText(BoundText(s))
  {
    forall s: string ensures BoundText(BoundText(BoundText(s))) == BoundText(BoundText(s)) {
      SanitizeLabelStabilises(s, 400);
    }
    hide SanitizeLabel;
  }

  /** The same id and texts, whatever else changed. */
  predicate SameTexts(c: SecurityCase, d: SecurityCase) {
    d.caseId == c.caseId && d.title == c.title && d.resourceId == c.resourceId && d.summary == c.summary
  }

  lemma MovePlain(c: SecurityCase, d: SecurityCase, id: string, actor: Actor, k: EventKind)
    requires PlainWrite(CaseWrite(c)) && SameTexts(c, d)
    ensures PlainLog(MoveWrites(d, NewEvent(id, actor, k)))
  {
    hide SanitizeLabel, Plain;
    EventPlain(id, actor, k);
    hide BoundKind, EventOnReload;
  }

  lemma AppendPlain(a: seq<Write>, b: seq<Write>)
    requires PlainLog(a) && PlainLog(b)
    ensures PlainLog(a + b)
  {
    hide PlainWrite;
  }

  lemma OpenedPlain(policy: CasePolicy, f: Finding, cycle: string, stamp: Stamp)
    requires Scrubbed(f) && Plain(stamp.caseId)
    ensures PlainWrite(CaseWrite(OpenedCase(policy, f, cycle, stamp)))
  {
    Preservation.OpenedCaseSane(policy, f, cycle, stamp);
    hide SanitizeLabel, Plain;
  }

  /** Failing observations keep the texts of an existing case. */
  lemma FailedPlain(c: SecurityCase, f: Finding, cycle: string, now: int)
    ensures SameTexts(c, FailedCase(c, f, cycle, now)) && SameTexts(FailedCase(c, f, cycle, now), TriagedCase(FailedCase(c, f, cycle, now), now))
  {
  }

  lemma CasePlainAgain(c: SecurityCase, d: SecurityCase)
    requires PlainWrite(CaseWrite(c)) && SameTexts(c, d)
    ensures PlainWrite(CaseWrite(d))
  {
    hide SanitizeLabel, Plain;
  }

  lemma FailingPlain(policy: CasePolicy, f: Finding, existing: Option<SecurityCase>, cycle: string, stamp: Stamp)
    requires Scrubbed(f) && Plain(stamp.caseId) && (existing.Some? ==> PlainWrite(CaseWrite(existing.value)))
    ensures PlainLog(FailingWrites(policy, f, existing, cycle, stamp))
  {
    hide PlainWrite, PlainLog, MoveWrites, BoundKind, Scrubbed, Plain, FailedCase, SameTexts;
    var triaged := MovedToTriaged(Open);
    match existing
    case None =>
      var c := OpenedCase(policy, f, cycle, stamp);
      var k := CaseOpened(f.findingId, f.severity);
      OpenedPlain(policy, f, cycle, stamp);
      assert SameTexts(c, c) && SameTexts(c, TriagedCase(c, stamp.now)) by { TriagedTexts(c, stamp.now); }
      hide OpenedCase, TriagedCase;
      MovePlain(c, c, c.caseId, Loop, k);
      MovePlain(c, TriagedCase(c, stamp.now), c.caseId, Loop, triaged);
      AppendPlain(MoveWrites(c, NewEvent(c.caseId, Loop, k)), MoveWrites(TriagedCase(c, stamp.now), NewEvent(c.caseId, Loop, triaged)));
    case Some(c) =>
      var (changed, c1) := (f.signature != c.signature, FailedCase(c, f, cycle, stamp.now));
      var k := Reopened(f.findingId, changed);
      FailedPlain(c, f, cycle, stamp.now);
      hide TriagedCase;
      CasePlainAgain(c, c1);
      MovePlain(c, c1, c.caseId, Loop, RefreshFailing(f.findingId, changed));
      MovePlain(c, c1, c.caseId, Loop, k);
      MovePlain(c1, TriagedCase(c1, stamp.now), c.caseId, Loop, triaged);
      AppendPlain(MoveWrites(c1, NewEvent(c.caseId, Loop, k)), MoveWrites(TriagedCase(c1, stamp.now), NewEvent(c.caseId, Loop, triaged)));
  }

  lemma TriagedTexts(c: SecurityCase, now: int)
    ensures SameTexts(c, c) && SameTexts(c, TriagedCase(c, now))
  {
  }

  lemma PassingPlain(c: SecurityCase, cycle: string, now: int)
    requires PlainWrite(CaseWrite(c))
    ensures PlainLog(PassingWrites(c, cycle, now))
  {
    hide PlainWrite, MoveWrites, BoundKind;
    var c1 := PassedCase(c, cycle, now);
    MovePlain(c, c1, c.caseId, Loop, PositiveRecheck(c1.passCount, c1.requiredPasses));
  }

  lemma FindingPlain(f: Finding)
    requires Scrubbed(f)
    ensures PlainWrite(FindingWrite(f))
  {
    var raw: Finding :| f == ScrubFinding(raw);
    SanitizeLabelStabilises(raw.title, TITLE_LIMIT);
    SanitizeLabelStabilises(raw.resource, RESOURCE_LIMIT);
    SanitizeLabelStabilises(raw.summary, SUMMARY_LIMIT);
    hide SanitizeLabel;
  }

  lemma ObservePlain(policy: CasePolicy, s: State, f: Finding, cycle: string, stamp: Stamp)
    requires PlainStore(s) && Scrubbed(f) && Plain(stamp.caseId)
    ensures PlainLog(ObserveWrites(policy, s, f, cycle, stamp))
  {
    hide PlainWrite, PlainLog, Scrubbed, Plain, FailingWrites, PassingWrites, CaseByFingerprint;
    var existing := CaseByFingerprint(Put(s, FindingWrite(f)), f.fingerprint);
    if existing.Some? {
      FoundPlain(s, f);
    }
    FindingPlain(f);
    OnePlain(FindingWrite(f));
    NonePlain();
    FailingPlain(policy, f, existing, cycle, stamp);
    if existing.Some? {
      PassingPlain(existing.value, cycle, stamp.now);
    }
    AppendPlain([FindingWrite(f)], if !f.passed then FailingWrites(policy, f, existing, cycle, stamp)
                                   else if existing.Some? then PassingWrites(existing.value, cycle, stamp.now) else []);
  }

  lemma FoundPlain(s: State, f: Finding)
    requires PlainStore(s) && CaseByFingerprint(Put(s, FindingWrite(f)), f.fingerprint).Some?
    ensures PlainWrite(CaseWrite(CaseByFingerprint(Put(s, FindingWrite(f)), f.fingerprint).value))
  {
    hide PlainWrite, CaseByFingerprint;
  }

  lemma OnePlain(w: Write)
    requires PlainWrite(w)
    ensures PlainLog([w])
  {
    hide PlainWrite;
  }

  lemma NonePlain()
    ensures PlainLog([])
  {
  }

  lemma NotedPlain(policy: CasePolicy, s: State, a: Action)
    requires PlainStore(s) && (a.op.NoteDegraded? || a.op.DoAcknowledge? || a.op.NoteIssue?)
    ensures PlainLog(StepWrites(policy, s, a))
  {
    hide PlainWrite, PlainLog, BoundKind, MoveWrites;
    NonePlain();
    var (id, now) := (a.op.caseId, a.stamp.now);
    if id in s.cases.m {
      var c := s.cases.m[id];
      match a.op
      case NoteDegraded(_, cycle) => MovePlain(c, DegradedCase(c, cycle, now), id, Loop, ScanDegraded(cycle));
      case DoAcknowledge(_, operator) => MovePlain(c, AcknowledgedCase(c, operator, now), id, Operator, Acknowledged(operator));
      case NoteIssue(_, url, issue) => MovePlain(c, IssuedCase(c, url, issue, now), id, Loop, IssueOpened(url, issue));
    }
  }

  lemma TransitionPlain(s: State, id: string, reason: Option<string>, actor: Actor, now: int)
    requires PlainStore(s)
    ensures PlainLog(TransitionWrites(s, id, reason, actor, now))
  {
    hide PlainWrite, PlainLog, BoundKind, MoveWrites, AllowedTransition;
    NonePlain();
    if id in s.cases.m {
      var c := s.cases.m[id];
      MovePlain(c, MovedCase(c, reason, now), id, actor, MoveEvent(c.status, reason));
    }
  }

  lemma BuiltPlain(f: Finding, c: SecurityCase, passes: nat, stamp: Stamp)
    requires HandoffReady(f) && Plain(c.caseId) && Plain(stamp.handoffId) && Plain(stamp.objectiveId) && Plain(f.fingerprint)
    ensures var bundle := BuildHandoff(f, c, passes, stamp).value;
            PlainHandoff(bundle.handoff) && PlainLog(ObjectiveWrites(bundle.objectives))
  {
    StoredKeyIsToken(c.caseId, f);
    TokenIdempotent(OrElse(f.objectiveKey, f.checkId + "-remediation-v1"), Lhp.ID_LIMIT);
    TokenIdempotent(OrElse(f.objectiveKey, f.checkId + "-recheck-v1"), Lhp.ID_LIMIT);
    TokenIdempotent(f.objectiveType, Lhp.ID_LIMIT);
    hide SanitizeToken, HandoffReady, IdempotencyKey;
    var o := BuildHandoff(f, c, passes, stamp).value.objectives[0];
    assert ObjectiveOnReload(o) == o;
    assert PlainWrite(ObjectiveWrite(o));
  }

  lemma RequestPlain(s: State, id: string, f: Finding, passes: nat, stamp: Stamp)
    requires PlainStore(s) && Plain(stamp.handoffId) && Plain(stamp.objectiveId) && Plain(f.fingerprint)
    ensures PlainLog(RequestWrites(s, id, f, passes, stamp))
  {
    hide PlainLog, BoundKind, MoveWrites, AllowedTransition, HandoffByKey, HandoffReady, IdempotencyKey, Plain, PlainHandoff, HandedOffCase,
         ObjectiveWrites, ScrubCase, SanitizeToken;
    NonePlain();
    if id in s.cases.m && HandoffReady(f) {
      var c := s.cases.m[id];
      assert PlainWrite(CaseWrite(c));
      var p := if passes == 0 then c.requiredPasses else passes;
      BuiltPlain(f, c, p, stamp);
      var built := BuildHandoff(f, c, p, stamp).value;
      hide BuildHandoff;
      var h := built.handoff;
      OnePlain(HandoffWrite(h));
      AppendPlain([HandoffWrite(h)], ObjectiveWrites(built.objectives));
      assert SameTexts(c, HandedOffCase(c, h.handoffId, stamp.now)) by { HandedOffTexts(c, h.handoffId, stamp.now); }
      MovePlain(c, HandedOffCase(c, h.handoffId, stamp.now), id, Loop, HandoffAsked(h.handoffId, h.objectiveKey));
      var moved := MoveWrites(HandedOffCase(c, h.handoffId, stamp.now), NewEvent(id, Loop, HandoffAsked(h.handoffId, h.objectiveKey)));
      AppendPlain([HandoffWrite(h)] + ObjectiveWrites(built.objectives), moved);
      AppendPlain([HandoffWrite(h)] + ObjectiveWrites(built.objectives), []);
    }
  }

  lemma HandedOffTexts(c: SecurityCase, h: string, now: int)
    ensures SameTexts(c, HandedOffCase(c, h, now))
  {
  }

  lemma InboxPlain(u: Lhp.HandoffUpdate, status: Lhp.HandoffStatus, c: Option<CaseStatus>)
    ensures PlainWrite(CallbackWrite(InboxRecord(u, status, c)))
  {
    TokenIdempotent(u.eventId, Lhp.ID_LIMIT);
    TokenIdempotent(u.handoffId, Lhp.ID_LIMIT);
    TokenIdempotent(u.caseId, Lhp.ID_LIMIT);
    hide SanitizeToken;
  }

  lemma StatusPlain(h: Handoff, status: Lhp.HandoffStatus, now: int)
    requires PlainWrite(HandoffWrite(h))
    ensures PlainWrite(HandoffWrite(h.(status := status, updatedAt := now)))
  {
    hide Plain;
  }

  lemma UpdatedTexts(c: SecurityCase, u: Lhp.HandoffUpdate, now: int)
    ensures SameTexts(c, UpdatedCase(c, u, now))
  {
  }

  lemma UpdatePlain(s: State, u: Lhp.HandoffUpdate, now: int)
    requires PlainStore(s)
    ensures PlainLog(UpdateWrites(s, u, now))
  {
    hide PlainWrite, PlainLog, BoundKind, MoveWrites, CallbackFor, Lhp.AllowedHandoffTransition, UpdatedCase, InboxRecord, SameTexts;
    NonePlain();
    if u.handoffId in s.handoffs.m {
      var h1 := s.handoffs.m[u.handoffId].(status := u.status, updatedAt := now);
      StatusPlain(s.handoffs.m[u.handoffId], u.status, now);
      OnePlain(HandoffWrite(h1));
      if u.caseId in s.cases.m {
        var c := s.cases.m[u.caseId];
        var c1 := UpdatedCase(c, u, now);
        UpdatedTexts(c, u, now);
        var (k, record) := (EngineeringUpdated(u.updateType, u.status, u.handoffId), CallbackWrite(InboxRecord(u, u.status, Some(c1.status))));
        MovePlain(c, c1, c.caseId, EngineeringLoop, k);
        InboxPlain(u, u.status, Some(c1.status));
        OnePlain(record);
        AppendPlain(MoveWrites(c1, NewEvent(c.caseId, EngineeringLoop, k)), [record]);
        AppendPlain([HandoffWrite(h1)], MoveWrites(c1, NewEvent(c.caseId, EngineeringLoop, k)) + [record]);
      } else {
        InboxPlain(u, u.status, None);
        OnePlain(CallbackWrite(InboxRecord(u, u.status, None)));
        AppendPlain([HandoffWrite(h1)], [CallbackWrite(InboxRecord(u, u.status, None))]);
      }
    }
  }

  lemma PassedPlain(o: Objective, count: nat, now: int)
    requires PlainWrite(ObjectiveWrite(o))
    ensures PlainWrite(ObjectiveWrite(PassedObjective(o, count, now)))
  {
    hide SanitizeToken;
  }

  lemma PassWritesPlain(s: State, id: string, count: nat, now: int)
    requires PlainStore(s) && UnderOwnIds(s.objectives)
    ensures PlainLog(PassWrites(ListObjectives(s, None, Some(id)), count, now))
  {
    hide PlainWrite, ListObjectives, PassedObjective;
    ListedIff(s, id);
    var list := ListObjectives(s, None, Some(id));
    forall i | 0 <= i < |list| ensures PlainWrite(PassWrites(list, count, now)[i]) {
      assert list[i] in list;
      PassedPlain(list[i], count, now);
    }
  }

  lemma VerifyPlain(settings: VerifierSettings, s: State, id: string, reason: string, now: int)
    requires PlainStore(s) && UnderOwnIds(s.objectives)
    ensures PlainLog(VerifyWrites(settings, s, id, reason, now))
  {
    hide PlainWrite, PlainLog, BoundKind, ListObjectives, PassWrites, CanResolve, UnderOwnIds, SameTexts, ResolvedCase;
    NonePlain();
    if id in s.cases.m {
      var c := s.cases.m[id];
      var passes := PassWrites(ListObjectives(s, None, Some(id)), c.passCount, now);
      var e := NewEvent(id, Actor.Verifier, CaseResolved(c.status, c.passCount, c.requiredPasses, reason));
      ResolvedTexts(c, reason, now);
      CasePlainAgain(c, ResolvedCase(c, reason, now));
      OnePlain(CaseWrite(ResolvedCase(c, reason, now)));
      PassWritesPlain(s, id, c.passCount, now);
      AppendPlain([CaseWrite(ResolvedCase(c, reason, now))], passes);
      EventPlain(id, Actor.Verifier, CaseResolved(c.status, c.passCount, c.requiredPasses, reason));
      OnePlain(EventWrite(e));
      AppendPlain([CaseWrite(ResolvedCase(c, reason, now))] + passes, [EventWrite(e)]);
    }
  }

  lemma ResolvedTexts(c: SecurityCase, reason: string, now: int)
    ensures SameTexts(c, ResolvedCase(c, reason, now))
  {
  }

  lemma StepWritesPlain(policy: CasePolicy, s: State, a: Action)
    requires PlainStore(s) && UnderOwnIds(s.objectives) && Admissible(s, a) && PlainAction(a)
    ensures PlainLog(StepWrites(policy, s, a))
  {
    if a.op.NoteDegraded? || a.op.DoAcknowledge? || a.op.NoteIssue? {
      hide StepWrites, PlainLog, PlainStore;
      NotedPlain(policy, s, a);
    } else {
      hide PlainLog, PlainStore, Plain, Scrubbed, BoundText, UnderOwnIds, Lhp.ValidateUpdate,
           ObserveWrites, TransitionWrites, RequestWrites, UpdateWrites, VerifyWrites;
      NonePlain();
      match a.op
      case Observe(f, cycle, _) => ObservePlain(policy, s, f, cycle, a.stamp);
      case DoTriage(id, actor) => TransitionPlain(s, id, None, actor, a.stamp.now);
      case DoNeedsHuman(id, reason, actor) => TransitionPlain(s, id, Some(reason), actor, a.stamp.now);
      case AskHandoff(id, f, passes) => RequestPlain(s, id, f, passes, a.stamp);
      case Deliver(raw) =>
        if Lhp.ValidateUpdate(raw).Ok? {
          UpdatePlain(s, Lhp.ValidateUpdate(raw).value, a.stamp.now);
        }
      case Verify(id, reason, settings) => VerifyPlain(settings, s, id, reason, a.stamp.now);
    }
  }
}
