/**
 Lives of the durable store: operations and restarts in any order. A restart reads the six files
 back; whatever comes after it acts, and raises, as it would have without it.
 */
module Lives {
  import opened Wrappers
  import opened Dicts
  import opened Models
  import opened Policy
  import opened Lifecycle
  import opened Runs
  import opened Invariants
  import opened Jsonl
  import opened WriteLog
  import opened Restart
  import opened Verifier
  import Callbacks
  import CaseMoves
  import Engineering
  import Playback
  import Preservation
  import Sorting
  import Lhp = LhpHandoff

  // --- stores that differ in what re-validation changes ---

  /** The same cases, objectives and inbox, in the same order; handoffs up to their trace ids;
      findings and events up to one more bounding of their texts. */
  ghost predicate Alike(s: State, t: State) {
    && t.cases == s.cases && t.objectives == s.objectives && t.callbacks == s.callbacks
    && SameHandoffs(s.handoffs, t.handoffs) && SameFindings(s.findings, t.findings) && SameTrail(s.events, t.events)
  }

  ghost predicate SameTrail(d: seq<Event>, e: seq<Event>) {
    |e| == |d| && forall i | 0 <= i < |d| :: e[i] == d[i] || e[i] == EventOnReload(d[i])
  }

  ghost predicate SameFindings(d: Dict<string, Finding>, e: Dict<string, Finding>) {
    && e.keys == d.keys && e.m.Keys == d.m.Keys
    && forall f | f in d.m :: e.m[f] == d.m[f] || e.m[f] == ScrubFinding(d.m[f])
  }

  ghost predicate SameHandoffs(d: Dict<string, Handoff>, e: Dict<string, Handoff>) {
    && e.keys == d.keys && e.m.Keys == d.m.Keys
    && forall h | h in d.m :: SameButTrace(d.m[h], e.m[h])
  }

  ghost predicate SameButTrace(h: Handoff, g: Handoff) {
    g == h.(traceId := g.traceId)
  }

  // --- writes that are alike ---

  ghost predicate AlikeWrite(w: Write, v: Write) {
    match w
    case HandoffWrite(h) => v.HandoffWrite? && SameButTrace(h, v.h)
    case _ => v == w
  }

  ghost predicate AlikeLog(a: seq<Write>, b: seq<Write>) {
    |a| == |b| && forall i | 0 <= i < |a| :: AlikeWrite(a[i], b[i])
  }

  lemma AlikeRefl(a: seq<Write>)
    ensures AlikeLog(a, a)
  {
  }

  lemma AlikePlain(a: seq<Write>, b: seq<Write>)
    requires AlikeLog(a, b) && PlainLog(a)
    ensures PlainLog(b)
  {
    forall i | 0 <= i < |b| ensures PlainWrite(b[i]) {
      assert AlikeWrite(a[i], b[i]) && PlainWrite(a[i]);
      AlikeWritePlain(a[i], b[i]);
    }
  }

  lemma AlikeWritePlain(w: Write, v: Write)
    requires AlikeWrite(w, v) && PlainWrite(w)
    ensures PlainWrite(v)
  {
    hide Plain, ScrubCase, ScrubFinding, EventOnReload, ObjectiveOnReload, CallbackOnReload;
  }

  lemma HandoffAlike(d: Dict<string, Handoff>, e: Dict<string, Handoff>, h: Handoff, g: Handoff)
    requires SameHandoffs(d, e) && SameButTrace(h, g)
    ensures SameHandoffs(d.Put(h.handoffId, h), e.Put(g.handoffId, g))
  {
    assert h.handoffId == g.handoffId;
    hide SameButTrace;
  }

  lemma FindingAlike(d: Dict<string, Finding>, e: Dict<string, Finding>, f: Finding)
    requires SameFindings(d, e)
    ensures SameFindings(d.Put(f.findingId, f), e.Put(f.findingId, f))
  {
    hide ScrubFinding;
  }

  lemma EventAlike(d: seq<Event>, e: seq<Event>, x: Event)
    requires SameTrail(d, e)
    ensures SameTrail(d + [x], e + [x])
  {
    hide EventOnReload;
  }

  lemma PutAlike(s: State, t: State, w: Write, v: Write)
    requires Alike(s, t) && AlikeWrite(w, v)
    ensures Alike(Put(s, w), Put(t, v))
  {
    hide SameTrail, SameFindings, SameHandoffs;
    match w
    case HandoffWrite(h) => HandoffAlike(s.handoffs, t.handoffs, h, v.h);
    case FindingWrite(f) => FindingAlike(s.findings, t.findings, f);
    case EventWrite(e) => EventAlike(s.events, t.events, e);
    case _ =>
  }

  lemma {:induction false} PlayAlike(s: State, t: State, a: seq<Write>, b: seq<Write>)
    requires Alike(s, t) && AlikeLog(a, b)
    ensures Alike(Play(s, a), Play(t, b))
    decreases |a|
  {
    hide Alike, AlikeWrite, Put;
    if a != [] {
      PutAlike(s, t, a[0], b[0]);
      PlayAlike(Put(s, a[0]), Put(t, b[0]), a[1..], b[1..]);
    }
  }

  // --- operations write alike ---

  lemma {:induction false} FindAlike(keys: seq<string>, d: map<string, Handoff>, e: map<string, Handoff>, key: string)
    requires forall k | k in keys :: k in d && k in e && SameButTrace(d[k], e[k])
    ensures FindHandoff(keys, d, key) == FindHandoff(keys, e, key)
  {
    if keys != [] && d[keys[0]].idempotencyKey != key {
      FindAlike(keys[1..], d, e, key);
    }
  }

  lemma KeyAlike(s: State, t: State, key: string)
    requires SameHandoffs(s.handoffs, t.handoffs)
    ensures HandoffByKey(s, key).Some? == HandoffByKey(t, key).Some?
  {
    hide SameButTrace;
    FindAlike(s.handoffs.keys, s.handoffs.m, t.handoffs.m, key);
    hide FindHandoff;
  }

  /** What an operation on cases alone writes does not depend on the rest. */
  lemma CaseWritesAlike(policy: CasePolicy, s: State, t: State, a: Action)
    requires t.cases == s.cases && t.objectives == s.objectives && !a.op.AskHandoff? && !a.op.Deliver?
    ensures StepWrites(policy, t, a) == StepWrites(policy, s, a)
  {
    hide FailingWrites, PassingWrites, MoveWrites, BoundKind, DegradedCase, MovedCase, AcknowledgedCase,
         IssuedCase, ResolvedCase, PassWrites, CanResolve, AllowedTransition, FindCase, SelectObjectives, Sorting.SortBy;
  }

  lemma RequestWritesAlike(s: State, t: State, id: string, f: Finding, passes: nat, stamp: Stamp)
    requires Alike(s, t)
    ensures RequestWrites(t, id, f, passes, stamp) == RequestWrites(s, id, f, passes, stamp)
  {
    hide SameHandoffs, SameFindings, SameTrail, MoveWrites, BoundKind, BuildHandoff, HandoffByKey, AllowedTransition, HandedOffCase, ObjectiveWrites;
    if id in s.cases.m {
      var c := s.cases.m[id];
      var built := BuildHandoff(f, c, if passes == 0 then c.requiredPasses else passes, stamp);
      if built.Ok? {
        KeyAlike(s, t, built.value.handoff.idempotencyKey);
      }
    }
  }

  lemma UpdateWritesAlike(s: State, t: State, u: Lhp.HandoffUpdate, now: int)
    requires Alike(s, t)
    ensures AlikeLog(UpdateWrites(s, u, now), UpdateWrites(t, u, now))
  {
    hide SameFindings, SameTrail, MoveWrites, BoundKind, UpdatedCase, InboxRecord, Lhp.AllowedHandoffTransition;
  }

  lemma StepWritesAlike(policy: CasePolicy, s: State, t: State, a: Action)
    requires Alike(s, t)
    ensures AlikeLog(StepWrites(policy, s, a), StepWrites(policy, t, a))
  {
    AlikeRefl(StepWrites(policy, s, a));
    if a.op.AskHandoff? {
      hide Alike, AlikeLog, RequestWrites;
      RequestWritesAlike(s, t, a.op.caseId, a.op.finding, a.op.passes, a.stamp);
    } else if a.op.Deliver? {
      hide Alike, AlikeLog, UpdateWrites, Lhp.ValidateUpdate;
      AlikeRefl([]);
      if Lhp.ValidateUpdate(a.op.raw).Ok? {
        UpdateWritesAlike(s, t, Lhp.ValidateUpdate(a.op.raw).value, a.stamp.now);
      }
    } else {
      CaseWritesAlike(policy, s, t, a);
      hide Alike, AlikeLog, StepWrites;
    }
  }

  // --- and raise alike ---

  lemma TransitionRaisesAlike(s: State, t: State, id: string, reason: Option<string>, actor: Actor, now: int)
    requires t.cases == s.cases
    ensures Transition(s, id, reason, actor, now).result.Err? == Transition(t, id, reason, actor, now).result.Err?
  {
    hide Commit, BoundKind, MovedCase, AllowedTransition;
  }

  lemma RequestRaisesAlike(s: State, t: State, id: string, f: Finding, passes: nat, stamp: Stamp)
    requires Alike(s, t)
    ensures RequestHandoff(s, id, f, passes, stamp).result.Err? == RequestHandoff(t, id, f, passes, stamp).result.Err?
  {
    hide SameHandoffs, SameFindings, SameTrail, Commit, BoundKind, BuildHandoff, HandoffByKey, AllowedTransition, HandedOffCase, PutObjectives, ListObjectives;
    if id in s.cases.m {
      var c := s.cases.m[id];
      var built := BuildHandoff(f, c, if passes == 0 then c.requiredPasses else passes, stamp);
      if built.Ok? {
        KeyAlike(s, t, built.value.handoff.idempotencyKey);
      }
    }
  }

  lemma DeliveryRaisesAlike(policy: CasePolicy, s: State, t: State, a: Action)
    requires Alike(s, t) && a.op.Deliver?
    ensures Perform(policy, s, a).1 == Perform(policy, t, a).1
  {
    Callbacks.DeliveryRaisesIff(policy, s, a);
    Callbacks.DeliveryRaisesIff(policy, t, a);
    hide SameFindings, SameTrail, Perform, Lhp.ValidateUpdate, Lhp.AllowedHandoffTransition;
  }

  lemma RaisesAlike(policy: CasePolicy, s: State, t: State, a: Action)
    requires Alike(s, t)
    ensures Perform(policy, s, a).1 == Perform(policy, t, a).1
  {
    if a.op.Deliver? {
      DeliveryRaisesAlike(policy, s, t, a);
    } else {
      assert t.cases == s.cases;
      hide Alike, ObserveFinding, NoteScanDegraded, Transition, Lifecycle.Acknowledge, RecordIssue, RequestHandoff, RecordEngineeringUpdate,
           VerifyCase;
      match a.op
      case DoTriage(id, actor) => TransitionRaisesAlike(s, t, id, None, actor, a.stamp.now);
      case DoNeedsHuman(id, reason, actor) => TransitionRaisesAlike(s, t, id, Some(reason), actor, a.stamp.now);
      case AskHandoff(id, f, passes) => RequestRaisesAlike(s, t, id, f, passes, a.stamp);
      case _ =>
    }
  }

  lemma AdmissibleAlike(s: State, t: State, a: Action)
    requires Alike(s, t)
    ensures Admissible(s, a) <==> Admissible(t, a)
  {
    assert s.cases == t.cases && s.handoffs.m.Keys == t.handoffs.m.Keys && s.objectives == t.objectives;
    hide Alike, Scrubbed, BoundText;
  }

  // --- a restart gives back what is alike ---

  lemma Remapped<V>(d: Dict<string, V>, f: V -> V)
    requires forall k | k in d.m :: f(d.m[k]) == d.m[k]
    ensures MapValues(d, f) == d
  {
    assert MapValues(d, f).m == d.m;
  }

  lemma HandoffsRemapped(d: Dict<string, Handoff>, e: Dict<string, Handoff>)
    requires SameHandoffs(d, e) && forall k | k in d.m :: PlainHandoff(d.m[k])
    ensures SameHandoffs(d, MapValues(e, HandoffOnReload))
  {
    hide HandoffOnReload, PlainHandoff, SameButTrace;
    forall k | k in d.m ensures SameButTrace(d.m[k], HandoffOnReload(e.m[k])) {
      HandoffRemapped(d.m[k], e.m[k]);
    }
  }

  lemma HandoffRemapped(h: Handoff, g: Handoff)
    requires SameButTrace(h, g) && PlainHandoff(h)
    ensures SameButTrace(h, HandoffOnReload(g))
  {
    hide LhpTokens.SanitizeToken;
  }

  lemma FindingsRemapped(d: Dict<string, Finding>, e: Dict<string, Finding>)
    requires SameFindings(d, e) && forall k | k in d.m :: ScrubFinding(ScrubFinding(d.m[k])) == ScrubFinding(d.m[k])
    ensures SameFindings(d, MapValues(e, ScrubFinding))
  {
    hide ScrubFinding;
  }

  lemma TrailRemapped(d: seq<Event>, e: seq<Event>)
    requires SameTrail(d, e) && forall i | 0 <= i < |d| :: EventOnReload(EventOnReload(d[i])) == EventOnReload(d[i])
    ensures SameTrail(d, EventsOnReload(e))
  {
    hide EventOnReload;
  }

  /** The files loaded: everything they hold, re-validated. */
  lemma ReloadIs(m: State, d: Files, log: seq<Write>)
    requires m == Play(EmptyState(), log) && d == FilesOf(log) && PlainLog(log)
    ensures Reload(d)
         == State(MapValues(m.cases, ScrubCase), EventsOnReload(m.events), MapValues(m.findings, ScrubFinding),
                  MapValues(m.handoffs, HandoffOnReload), MapValues(m.objectives, ObjectiveOnReload), MapValues(m.callbacks, CallbackOnReload))
  {
    hide Play, FilesOf, PlainLog, ScrubCase, ScrubFinding, HandoffOnReload, ObjectiveOnReload, CallbackOnReload, EventsOnReload,
         CaseKey, FindingKey, HandoffKey, ObjectiveKey, CallbackKey, Load, LinesOf, Remember;
    PlayedHolds(log);
    FiledKeysKept(log);
    ReloadMeaning(d.cases, CaseKey, ScrubCase);
    ReloadMeaning(d.findings, FindingKey, ScrubFinding);
    ReloadMeaning(d.handoffs, HandoffKey, HandoffOnReload);
    ReloadMeaning(d.objectives, ObjectiveKey, ObjectiveOnReload);
    ReloadMeaning(d.callbacks, CallbackKey, CallbackOnReload);
  }

  /** Re-validation keeps the id of every record in every file. */
  ghost predicate FileKeysKept(d: Files) {
    && KeepsKeys(d.cases, CaseKey, ScrubCase) && KeepsKeys(d.findings, FindingKey, ScrubFinding)
    && KeepsKeys(d.handoffs, HandoffKey, HandoffOnReload) && KeepsKeys(d.objectives, ObjectiveKey, ObjectiveOnReload)
    && KeepsKeys(d.callbacks, CallbackKey, CallbackOnReload)
  }

  lemma {:induction false} FiledKeysKept(log: seq<Write>)
    requires PlainLog(log)
    ensures FileKeysKept(FilesOf(log))
  {
    hide PlainWrite, FileKeysKept, Filed;
    if log == [] {
      NoKeys();
    } else {
      var n := |log| - 1;
      FiledKeysKept(log[..n]);
      FiledKeyKept(FilesOf(log[..n]), log[n]);
    }
  }

  lemma NoKeys()
    ensures FileKeysKept(Files([], [], [], [], [], []))
  {
  }

  lemma FiledKeyKept(d: Files, w: Write)
    requires FileKeysKept(d) && PlainWrite(w)
    ensures FileKeysKept(Filed(d, w))
  {
    assert w.CaseWrite? ==> CaseKey(ScrubCase(w.c)) == CaseKey(w.c);
    assert w.FindingWrite? ==> FindingKey(ScrubFinding(w.f)) == FindingKey(w.f);
    assert w.HandoffWrite? ==> HandoffKey(HandoffOnReload(w.h)) == HandoffKey(w.h);
    assert w.ObjectiveWrite? ==> ObjectiveKey(ObjectiveOnReload(w.o)) == ObjectiveKey(w.o);
    assert w.CallbackWrite? ==> CallbackKey(CallbackOnReload(w.r)) == CallbackKey(w.r);
    hide ScrubCase, ScrubFinding, HandoffOnReload, ObjectiveOnReload, CallbackOnReload, EventOnReload, PlainHandoff,
         CaseKey, FindingKey, HandoffKey, ObjectiveKey, CallbackKey;
  }

  lemma ExactKinds(s: State, m: State)
    requires PlainStore(s) && m.cases == s.cases && m.objectives == s.objectives && m.callbacks == s.callbacks
    ensures MapValues(m.cases, ScrubCase) == s.cases
    ensures MapValues(m.objectives, ObjectiveOnReload) == s.objectives
    ensures MapValues(m.callbacks, CallbackOnReload) == s.callbacks
  {
    hide ScrubCase, ObjectiveOnReload, CallbackOnReload, PlainHandoff, EventOnReload, ScrubFinding;
    forall k | k in s.cases.m ensures ScrubCase(s.cases.m[k]) == s.cases.m[k] {
      assert PlainWrite(CaseWrite(s.cases.m[k]));
    }
    forall k | k in s.objectives.m ensures ObjectiveOnReload(s.objectives.m[k]) == s.objectives.m[k] {
      assert PlainWrite(ObjectiveWrite(s.objectives.m[k]));
    }
    forall k | k in s.callbacks.m ensures CallbackOnReload(s.callbacks.m[k]) == s.callbacks.m[k] {
      assert PlainWrite(CallbackWrite(s.callbacks.m[k]));
    }
    Remapped(m.cases, ScrubCase);
    Remapped(m.objectives, ObjectiveOnReload);
    Remapped(m.callbacks, CallbackOnReload);
  }

  lemma RoughKinds(s: State, m: State)
    requires PlainStore(s) && SameHandoffs(s.handoffs, m.handoffs) && SameFindings(s.findings, m.findings) && SameTrail(s.events, m.events)
    ensures SameHandoffs(s.handoffs, MapValues(m.handoffs, HandoffOnReload))
    ensures SameFindings(s.findings, MapValues(m.findings, ScrubFinding))
    ensures SameTrail(s.events, EventsOnReload(m.events))
  {
    hide ScrubCase, ObjectiveOnReload, CallbackOnReload, HandoffOnReload, PlainHandoff, EventOnReload, ScrubFinding, EventsOnReload,
         SameHandoffs, SameFindings, SameTrail;
    forall k | k in s.handoffs.m ensures PlainHandoff(s.handoffs.m[k]) {
      assert PlainWrite(HandoffWrite(s.handoffs.m[k]));
    }
    forall k | k in s.findings.m ensures ScrubFinding(ScrubFinding(s.findings.m[k])) == ScrubFinding(s.findings.m[k]) {
      assert PlainWrite(FindingWrite(s.findings.m[k]));
    }
    forall i | 0 <= i < |s.events| ensures EventOnReload(EventOnReload(s.events[i])) == EventOnReload(s.events[i]) {
      assert PlainWrite(EventWrite(s.events[i]));
    }
    HandoffsRemapped(s.handoffs, m.handoffs);
    FindingsRemapped(s.findings, m.findings);
    TrailRemapped(s.events, m.events);
  }

  /** If the files hold what is alike to a plain store, then so is what is read from them. */
  lemma ReloadAlike(s: State, log: seq<Write>)
    requires PlainStore(s) && PlainLog(log) && Alike(s, Play(EmptyState(), log))
    ensures Alike(s, Reload(FilesOf(log)))
  {
    hide Play, FilesOf, PlainLog, PlainStore, Reload, SameHandoffs, SameFindings, SameTrail, MapValues, EventsOnReload;
    var m := Play(EmptyState(), log);
    ReloadIs(m, FilesOf(log), log);
    ExactKinds(s, m);
    RoughKinds(s, m);
  }

  // --- whole lives ---

  datatype LifeOp = Act(a: Action) | Reboot

  /** The store in memory, and everything appended to its files so far. */
  datatype Durable = Durable(state: State, log: seq<Write>)

  function Live(policy: CasePolicy, d: Durable, op: LifeOp): Durable {
    match op
    case Act(a) => Durable(Step(policy, d.state, a), d.log + StepWrites(policy, d.state, a))
    case Reboot => Durable(Reload(FilesOf(d.log)), d.log)
  }

  function LiveAll(policy: CasePolicy, life: seq<LifeOp>): Durable {
    if life == [] then Durable(EmptyState(), []) else Live(policy, LiveAll(policy, life[..|life| - 1]), life[|life| - 1])
  }

  /** The life without its restarts. */
  function ActionsOf(life: seq<LifeOp>): seq<Action> {
    if life == [] then []
    else ActionsOf(life[..|life| - 1]) + if life[|life| - 1].Act? then [life[|life| - 1].a] else []
  }

  /** Memory and files are both alike to the store that never restarted. */
  ghost predicate InTune(policy: CasePolicy, s: State, d: Durable) {
    && Inv(policy, s) && UnderOwnIds(s.objectives) && PlainStore(s) && PlainLog(d.log)
    && Alike(s, d.state) && Alike(s, Play(EmptyState(), d.log))
  }

  lemma ActInTune(policy: CasePolicy, s: State, d: Durable, a: Action)
    requires InTune(policy, s, d) && Admissible(s, a) && PlainAction(a)
    ensures InTune(policy, Step(policy, s, a), Live(policy, d, Act(a)))
  {
    hide Inv, PlainStore, PlainLog, Step, StepWrites, Play, SameHandoffs, SameFindings, SameTrail, AlikeLog, Admissible, PlainAction, UnderOwnIds;
    var (ws, vs) := (StepWrites(policy, s, a), StepWrites(policy, d.state, a));
    Preservation.StepKeepsInv(policy, s, a);
    Playback.StepIsItsWrites(policy, s, a);
    Playback.StepIsItsWrites(policy, d.state, a);
    Playback.PlayKeepsOwnIds(s, ws);
    StepWritesPlain(policy, s, a);
    StepWritesAlike(policy, s, d.state, a);
    AlikePlain(ws, vs);
    AppendPlain(d.log, vs);
    PlayPlain(s, ws);
    PlayAlike(s, d.state, ws, vs);
    PlayAlike(s, Play(EmptyState(), d.log), ws, vs);
    Playback.PlayAppend(EmptyState(), d.log, vs);
  }

  lemma {:induction false} LifeInTune(policy: CasePolicy, life: seq<LifeOp>)
    requires AdmissibleRun(policy, ActionsOf(life)) && PlainRun(ActionsOf(life))
    ensures InTune(policy, Run(policy, ActionsOf(life)), LiveAll(policy, life))
  {
    hide Inv, InTune, Step, Live, Admissible, PlainAction;
    if life == [] {
      EmptyInTune(policy);
    } else {
      var front, op := life[..|life| - 1], life[|life| - 1];
      var actions := ActionsOf(life);
      if op.Act? {
        assert actions[..|actions| - 1] == ActionsOf(front) && actions[|actions| - 1] == op.a;
        LifeInTune(policy, front);
        ActInTune(policy, Run(policy, ActionsOf(front)), LiveAll(policy, front), op.a);
      } else {
        assert actions == ActionsOf(front);
        LifeInTune(policy, front);
        RebootInTune(policy, Run(policy, actions), LiveAll(policy, front));
      }
    }
  }

  lemma RebootInTune(policy: CasePolicy, s: State, d: Durable)
    requires InTune(policy, s, d)
    ensures InTune(policy, s, Live(policy, d, Reboot))
  {
    hide Inv, Alike, PlainStore, PlainLog, Play, Reload, FilesOf, UnderOwnIds;
    ReloadAlike(s, d.log);
  }

  lemma EmptyInTune(policy: CasePolicy)
    ensures InTune(policy, EmptyState(), Durable(EmptyState(), []))
  {
    Preservation.EmptyInv(policy);
    hide Inv;
  }

  /**
   Restarts cannot be noticed. However many of them lie between the operations of a life, its
   store stays alike to the one of the same run without them, the same operations are admissible
   next, and each raises with the restarts exactly when it raises without.
   */
  lemma RestartIsTransparent(policy: CasePolicy, life: seq<LifeOp>, next: Action)
    requires AdmissibleRun(policy, ActionsOf(life)) && PlainRun(ActionsOf(life))
    ensures var (s, t) := (Run(policy, ActionsOf(life)), LiveAll(policy, life).state);
            && Alike(s, t) && (Admissible(s, next) <==> Admissible(t, next))
            && Perform(policy, s, next).1 == Perform(policy, t, next).1
  {
    hide Inv, Alike, Run, LiveAll, Admissible, Perform, PlainStore, PlainLog, Play;
    LifeInTune(policy, life);
    var (s, t) := (Run(policy, ActionsOf(life)), LiveAll(policy, life).state);
    AdmissibleAlike(s, t, next);
    RaisesAlike(policy, s, t, next);
  }

  /** Every run writes plain records alone. */
  lemma LogIsPlain(policy: CasePolicy, actions: seq<Action>)
    requires AdmissibleRun(policy, actions) && PlainRun(actions)
    ensures PlainLog(RunLog(policy, actions)) && PlainStore(Run(policy, actions))
    ensures Alike(Run(policy, actions), Play(EmptyState(), RunLog(policy, actions)))
  {
    hide Inv, Alike, Run, AdmissibleFrom, PlainRun, LiveAll, PlainStore, PlainLog;
    var life := seq(|actions|, i requires 0 <= i < |actions| => Act(actions[i]));
    OnlyActions(policy, actions, life);
    LifeInTune(policy, life);
  }

  /** In particular a restart right after any run gives it back. */
  lemma RestartGivesBack(policy: CasePolicy, actions: seq<Action>)
    requires AdmissibleRun(policy, actions) && PlainRun(actions)
    ensures Alike(Run(policy, actions), Reload(RunFiles(policy, actions)))
  {
    hide Inv, Alike, Run, AdmissibleFrom, PlainRun, PlainStore, PlainLog, Reload, FilesOf, Play;
    LogIsPlain(policy, actions);
    ReloadAlike(Run(policy, actions), RunLog(policy, actions));
  }

  lemma {:induction false} OnlyActions(policy: CasePolicy, actions: seq<Action>, life: seq<LifeOp>)
    requires |life| == |actions| && forall i | 0 <= i < |life| :: life[i] == Act(actions[i])
    ensures ActionsOf(life) == actions
    ensures LiveAll(policy, life) == Durable(Run(policy, actions), RunLog(policy, actions))
  {
    hide Step, StepWrites;
    if actions != [] {
      var n := |actions| - 1;
      OnlyActions(policy, actions[..n], life[..n]);
      assert actions == actions[..n] + [actions[n]];
    }
  }
}
