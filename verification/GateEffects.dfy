/** What the gate grants, and what a cycle makes of it: cases, handoffs, objectives, issue links and counters. */
module GateEffects {
  import opened Wrappers
  import opened Dicts
  import opened Models
  import opened Policy
  import opened Lifecycle
  import opened Ledger
  import opened PostureCycle
  import opened Runs
  import opened Invariants
  import CaseMoves
  import Engineering
  import LadderRuns
  import Labels
  import LhpTokens
  import Preservation
  import Sorting
  import Lhp = LhpHandoff

  // --- the decision ---

  /** At least as severe as the floor. */
  predicate ReachesFloor(severity: Severity, floor: Severity) {
    match floor
    case UNKNOWN => true
    case LOW => severity != UNKNOWN
    case MEDIUM => severity == MEDIUM || severity == HIGH
    case HIGH => severity == HIGH
  }

  /** The day's count and the day's cost have room for one more; a new day starts from nothing. */
  predicate HasRoom(settings: PostureSettings, t: Tally, countDay: int, costDay: int) {
    var counted := if t.day == countDay then t.acted else 0;
    var spent := if t.day == countDay == costDay then t.cost else 0.0;
    && counted < settings.maxPerDay
    && spent + (if settings.costEach < 0.0 then 0.0 else settings.costEach) <= settings.maxCost
  }

  predicate Passes(f: Finding, mode: Mode, settings: PostureSettings, t: Tally, countDay: int, costDay: int) {
    && !f.passed && mode != Shadow && ReachesFloor(f.severity, settings.severityFloor) && HasRoom(settings, t, countDay, costDay)
  }

  /** Handoffs are for severe findings that warrant one, on the two upper rungs, while they are enabled. */
  predicate Warranted(f: Finding, mode: Mode, settings: PostureSettings) {
    (mode == HandoffDry || mode == HandoffLive) && f.warrantsHandoff && settings.handoffEnabled && f.severity == HIGH
  }

  /** The gate grants exactly this, and names the first ground for refusing. */
  lemma GateGrantsIff(f: Finding, mode: Mode, settings: PostureSettings, t: Tally, countDay: int, costDay: int)
    ensures var d := Gate(f, mode, settings, t, countDay, costDay).0;
            && (d.act <==> Passes(f, mode, settings, t, countDay, costDay))
            && (d.openCase <==> d.act)
            && (d.buildHandoff <==> d.act && Warranted(f, mode, settings))
            && (d.postHandoff <==> d.act && Warranted(f, mode, settings) && mode == HandoffLive)
            && (d.reason == GatedOk <==> d.act)
            && (d.reason == NotFiring <==> f.passed)
            && (d.reason == ShadowMode <==> !f.passed && mode == Shadow)
            && (d.reason == BelowFloor <==> !f.passed && mode != Shadow && !ReachesFloor(f.severity, settings.severityFloor))
            && (d.reason == FindingsExhausted
                <==> && !f.passed && mode != Shadow && ReachesFloor(f.severity, settings.severityFloor)
                     && settings.maxPerDay <= if t.day == countDay then t.acted else 0)
  {
  }

  // --- the texts of a handoff ---

  /** What a handoff asks of a finding: a title that says something, else a summary, unless both are
      empty; an objective key that says something, if any; and an objective type. */
  ghost predicate HasTexts(f: Finding) {
    && (if f.title != "" then Labels.Says(f.title) else f.summary != "" ==> Labels.Says(f.summary))
    && (f.objectiveKey != "" ==> Labels.Says(f.objectiveKey)) && Labels.Says(f.objectiveType)
  }

  lemma ReadyIff(f: Finding)
    ensures HandoffReady(f) <==> HasTexts(f)
  {
    Labels.BlankSaysNothing(f.title);
    Labels.BlankSaysNothing(f.summary);
    Labels.BlankSaysNothing(f.objectiveKey);
    Labels.BlankSaysNothing(f.objectiveType);
    var remediate := "Remediate " + f.checkId;
    assert remediate[0] == 'R';
    assert Labels.Says(remediate);
    Labels.BlankSaysNothing(remediate);
    hide Labels.Says, Labels.Blank;
  }

  // --- one finding ---

  /** What the surroundings supply for a finding: enriched as promised, through its constructor, with new ids. */
  ghost predicate Suits(s: State, x: Firing) {
    && WellFormed(x) && Scrubbed(x.enriched) && BoundText(x.stamp.handoffId) == x.stamp.handoffId
    && x.stamp.caseId !in s.cases.m && x.stamp.handoffId !in s.handoffs.m && x.stamp.objectiveId !in s.objectives.m
  }

  /** The finding was acted on: it passes the gate, and the cycle has room for it. */
  predicate ActsOn(settings: PostureSettings, mode: Mode, w: World, x: Firing) {
    Passes(x.raw, mode, settings, w.tally, x.countDay, x.costDay) && |w.acted| < settings.maxPerCycle
  }

  ghost predicate HasCase(s: State, fingerprint: string) {
    exists k | k in s.cases.m :: s.cases.m[k].fingerprint == fingerprint
  }

  ghost predicate HasKey(s: State, key: string) {
    exists h | h in s.handoffs.m :: s.handoffs.m[h].idempotencyKey == key
  }

  /** How the counters of the report move. */
  ghost predicate Counted(settings: PostureSettings, mode: Mode, w: World, x: Firing, r: World) {
    if ActsOn(settings, mode, w, x) then
      && r.report.casesOpened == w.report.casesOpened + (if HasCase(w.state, x.raw.fingerprint) then 0 else 1)
      && r.report.casesRefreshed == w.report.casesRefreshed + (if HasCase(w.state, x.raw.fingerprint) then 1 else 0)
      && r.report.gatedOut == w.report.gatedOut && r.report.deferred == w.report.deferred
      && r.report.handoffsBuilt == w.report.handoffsBuilt + (if Warranted(x.raw, mode, settings) && !r.raised then 1 else 0)
      && r.report.issuesOpened
         == w.report.issuesOpened + (if Warranted(x.raw, mode, settings) && mode == HandoffLive && !r.raised && x.issueUrl != "" then 1 else 0)
    else
      && r.report.casesOpened == w.report.casesOpened && r.report.casesRefreshed == w.report.casesRefreshed
      && r.report.handoffsBuilt == w.report.handoffsBuilt && r.report.issuesOpened == w.report.issuesOpened
      && (if Passes(x.raw, mode, settings, w.tally, x.countDay, x.costDay) then
            r.report.deferred == w.report.deferred + 1 && r.report.gatedOut == w.report.gatedOut
          else
            && r.report.deferred == w.report.deferred && |r.report.gatedOut| == |w.report.gatedOut| + 1
            && r.report.gatedOut[..|w.report.gatedOut|] == w.report.gatedOut
            && r.report.gatedOut[|w.report.gatedOut|].0 == x.raw.checkId)
  }

  /** The handoff of a finding for case `id`. */
  ghost predicate HandoffFor(h: Handoff, x: Firing, id: string) {
    && h.caseId == id && h.status == Lhp.Requested && h.fingerprint == x.raw.fingerprint
    && h.createdAt == h.updatedAt == x.stamp.now && h.traceId == "" && h.idempotencyKey == IdempotencyKey(id, x.enriched)
    && h.objectiveKey == LhpTokens.SanitizeToken(
         if x.enriched.objectiveKey != "" then x.enriched.objectiveKey else x.enriched.checkId + "-remediation-v1", 180)
  }

  /** Its objective: open, and with the threshold of the policy. */
  ghost predicate ObjectiveFor(policy: CasePolicy, o: Objective, x: Firing, id: string) {
    && o.handoffId == x.stamp.handoffId && o.caseId == id && o.createdAt == x.stamp.now && o.lastChecked == None
    && o.status == Pending && o.passCount == 0 && o.requiredPasses == policy.defaultRequired
    && o.objectiveKey == LhpTokens.SanitizeToken(
         if x.enriched.objectiveKey != "" then x.enriched.objectiveKey else x.enriched.checkId + "-recheck-v1", 180)
    && o.objectiveType == LhpTokens.SanitizeToken(x.enriched.objectiveType, 180)
  }

  /** What storing a handoff and its objective for case `id` makes of both tables. */
  ghost predicate StoredFor(policy: CasePolicy, s: State, x: Firing, t: State, id: string) {
    && t.handoffs.m.Keys == s.handoffs.m.Keys + {x.stamp.handoffId}
    && (forall h | h in s.handoffs.m :: t.handoffs.m[h] == s.handoffs.m[h])
    && HandoffFor(t.handoffs.m[x.stamp.handoffId], x, id)
    && t.objectives.m.Keys == s.objectives.m.Keys + {x.stamp.objectiveId}
    && (forall o | o in s.objectives.m :: t.objectives.m[o] == s.objectives.m[o])
    && ObjectiveFor(policy, t.objectives.m[x.stamp.objectiveId], x, id)
  }

  /** How handoffs and objectives move; `id` is the case of the control. */
  ghost predicate HandedOff(policy: CasePolicy, settings: PostureSettings, mode: Mode, w: World, x: Firing, r: World, id: string) {
    if Warranted(x.raw, mode, settings) && HasTexts(x.enriched) && !HasKey(w.state, IdempotencyKey(id, x.enriched))
    then StoredFor(policy, w.state, x, r.state, id)
    else r.state.handoffs == w.state.handoffs && r.state.objectives == w.state.objectives
  }

  /** When the handoff step raises, and what becomes of the issue link of the control's case. */
  ghost predicate Linked(settings: PostureSettings, mode: Mode, w: World, x: Firing, r: World, id: string)
    requires id in r.state.cases.m
  {
    && (r.raised
        <==> && Warranted(x.raw, mode, settings)
             && (|| !HasTexts(x.enriched)
                 || (&& !HasKey(w.state, IdempotencyKey(id, x.enriched))
                     && id in w.state.cases.m && w.state.cases.m[id].status == VerificationPending)))
    && r.state.cases.m[id].issueUrl
       == (if Warranted(x.raw, mode, settings) && mode == HandoffLive && !r.raised && x.issueUrl != "" then x.issueUrl
           else if id in w.state.cases.m then w.state.cases.m[id].issueUrl
           else "")
  }

  /** All that the loop makes of one firing finding. */
  ghost predicate Effects(policy: CasePolicy, settings: PostureSettings, mode: Mode, w: World, x: Firing, r: World) {
    && Counted(settings, mode, w, x, r)
    && (r.acted == if ActsOn(settings, mode, w, x) then w.acted + [x] else w.acted)
    && (if ActsOn(settings, mode, w, x) then
          && HasCase(r.state, x.raw.fingerprint)
          && forall id | id in r.state.cases.m && r.state.cases.m[id].fingerprint == x.raw.fingerprint ::
               HandedOff(policy, settings, mode, w, x, r, id) && Linked(settings, mode, w, x, r, id)
        else r.state == w.state && !r.raised)
  }

  // --- the request and the issue step ---

  lemma KeyIff(s: State, key: string)
    requires HandoffsKeyed(s) && key != ""
    ensures HandoffByKey(s, key).Some? <==> HasKey(s, key)
  {
  }

  /** The finding and its case as the handoff step finds them. */
  ghost predicate Ready(policy: CasePolicy, s: State, x: Firing, id: string) {
    && Inv(policy, s) && id in s.cases.m && s.cases.m[id].status != Resolved
    && x.stamp.handoffId !in s.handoffs.m && x.stamp.objectiveId !in s.objectives.m && BoundText(x.stamp.handoffId) == x.stamp.handoffId
    && x.enriched.fingerprint == x.raw.fingerprint
  }

  ghost predicate Stores(s: State, x: Firing, id: string) {
    HasTexts(x.enriched) && !HasKey(s, IdempotencyKey(id, x.enriched))
  }

  lemma KeyNotEmpty(id: string, f: Finding)
    ensures IdempotencyKey(id, f) != ""
  {
    LhpTokens.TokenShape(id + ":engineering:" + OrElse(f.objectiveKey, f.checkId) + ":v1", Lhp.ID_LIMIT);
  }

  lemma BuiltFor(policy: CasePolicy, x: Firing, c: SecurityCase)
    requires HandoffReady(x.enriched) && c.requiredPasses == policy.defaultRequired && x.enriched.fingerprint == x.raw.fingerprint
    ensures var bundle := BuildHandoff(x.enriched, c, c.requiredPasses, x.stamp).value;
            && HandoffFor(bundle.handoff, x, c.caseId) && bundle.handoff.handoffId == x.stamp.handoffId
            && ObjectiveFor(policy, bundle.objectives[0], x, c.caseId) && bundle.objectives[0].objectiveId == x.stamp.objectiveId
  {
    hide HandoffReady, LhpTokens.SanitizeToken;
  }

  lemma PutFor(policy: CasePolicy, s: State, x: Firing, t: State, id: string, h: Handoff, o: Objective)
    requires t.handoffs == s.handoffs.Put(h.handoffId, h) && t.objectives == s.objectives.Put(o.objectiveId, o)
    requires h.handoffId == x.stamp.handoffId && x.stamp.handoffId !in s.handoffs.m
    requires o.objectiveId == x.stamp.objectiveId && x.stamp.objectiveId !in s.objectives.m
    requires HandoffFor(h, x, id) && ObjectiveFor(policy, o, x, id)
    ensures StoredFor(policy, s, x, t, id)
  {
    hide HandoffFor, ObjectiveFor;
  }

  /** Both tables after a request. */
  lemma RequestTables(policy: CasePolicy, s: State, x: Firing, id: string)
    requires Ready(policy, s, x, id) && HandoffReady(x.enriched)
    ensures var t := RequestHandoff(s, id, x.enriched, 0, x.stamp).state;
            if HandoffByKey(s, IdempotencyKey(id, x.enriched)).None? then StoredFor(policy, s, x, t, id)
            else t.handoffs == s.handoffs && t.objectives == s.objectives
  {
    hide Inv, HandoffReady, HandoffByKey, IdempotencyKey, HandedOffCase, RequestHandoff, BuildHandoff, CaseSane, BoundText, BoundKind,
         StoredFor, HandoffFor, ObjectiveFor;
    var (f, c) := (x.enriched, s.cases.m[id]);
    Preservation.StoredCase(policy, s, id);
    RequiredIsDefault(policy, c);
    Preservation.RequestHandoffCases(s, id, f, 0, x.stamp);
    BuiltFor(policy, x, c);
    var bundle := BuildHandoff(f, c, c.requiredPasses, x.stamp).value;
    var t := RequestHandoff(s, id, f, 0, x.stamp).state;
    if HandoffByKey(s, IdempotencyKey(id, f)).None? {
      Preservation.BuiltHandoff(f, c, c.requiredPasses, x.stamp);
      PutFor(policy, s, x, t, id, bundle.handoff, bundle.objectives[0]);
    }
  }

  lemma RequestEffects(policy: CasePolicy, s: State, x: Firing, id: string)
    requires Ready(policy, s, x, id)
    ensures var r := RequestHandoff(s, id, x.enriched, 0, x.stamp);
            && (r.result.Err? <==> !HasTexts(x.enriched) || (Stores(s, x, id) && s.cases.m[id].status == VerificationPending))
            && (if Stores(s, x, id) then StoredFor(policy, s, x, r.state, id)
                else r.state.handoffs == s.handoffs && r.state.objectives == s.objectives)
            && (r.result.Ok? ==> r.result.value.Some?)
  {
    hide Inv, HandoffReady, HasTexts, HandoffByKey, IdempotencyKey, RequestHandoff, HasKey, BoundText, StoredFor;
    var f := x.enriched;
    ReadyIff(f);
    KeyNotEmpty(id, f);
    Engineering.InvHandoffs(policy, s);
    KeyIff(s, IdempotencyKey(id, f));
    Engineering.RequestRaisesIff(policy, s, id, f, 0, x.stamp);
    if HandoffReady(f) {
      RequestTables(policy, s, x, id);
    } else {
      Preservation.RequestUnready(s, id, f, 0, x.stamp);
    }
    if RequestHandoff(s, id, f, 0, x.stamp).result.Ok? {
      LadderRuns.RequestIsSome(s, id, f, x.stamp);
    }
  }

  lemma RequiredIsDefault(policy: CasePolicy, c: SecurityCase)
    requires CaseSane(policy, c)
    ensures c.requiredPasses == policy.defaultRequired
  {
  }

  /** The cases keep their ids, controls and issue links. */
  ghost predicate SameUrls(s: State, t: State) {
    && t.cases.m.Keys == s.cases.m.Keys
    && forall k | k in s.cases.m :: t.cases.m[k].issueUrl == s.cases.m[k].issueUrl && t.cases.m[k].fingerprint == s.cases.m[k].fingerprint
  }

  lemma HandedOffUrl(s: State, t: State, id: string, h: string, now: int)
    requires id in s.cases.m && (t.cases.m == s.cases.m || t.cases.m == s.cases.m[id := HandedOffCase(s.cases.m[id], h, now)])
    ensures SameUrls(s, t)
  {
    var c := HandedOffCase(s.cases.m[id], h, now);
    assert c.issueUrl == s.cases.m[id].issueUrl && c.fingerprint == s.cases.m[id].fingerprint;
    hide HandedOffCase;
  }

  lemma RequestKeepsUrl(policy: CasePolicy, s: State, x: Firing, id: string)
    requires Ready(policy, s, x, id)
    ensures SameUrls(s, RequestHandoff(s, id, x.enriched, 0, x.stamp).state)
    ensures CaseMoves.OwnIds(RequestHandoff(s, id, x.enriched, 0, x.stamp).state)
  {
    hide Inv, RequestHandoff, CaseMoves.StoresHandoff, CaseMoves.MayAskHandoff, HandedOffCase, SameUrls, BoundText;
    var t := RequestHandoff(s, id, x.enriched, 0, x.stamp).state;
    Engineering.InvHandoffs(policy, s);
    CaseMoves.OwnIdsOf(s);
    CaseMoves.RequestMoves(policy, s, id, x.enriched, 0, x.stamp);
    HandedOffUrl(s, t, id, x.stamp.handoffId, x.stamp.now);
    Preservation.RequestKeepsInv(policy, s, id, x.enriched, 0, x.stamp);
    Engineering.InvHandoffs(policy, t);
    CaseMoves.OwnIdsOf(t);
  }

  /** Linking an issue changes the link of its case alone. */
  lemma IssueSets(s: State, id: string, url: string, now: int)
    requires CaseMoves.OwnIds(s) && id in s.cases.m
    ensures var t := RecordIssue(s, id, url, "", now);
            && t.handoffs == s.handoffs && t.objectives == s.objectives && t.cases.m.Keys == s.cases.m.Keys
            && t.cases.m[id].issueUrl == url && t.cases.m[id].fingerprint == s.cases.m[id].fingerprint
            && forall k | k in s.cases.m && k != id :: t.cases.m[k] == s.cases.m[k]
  {
    hide BoundKind;
  }

  /** The whole handoff step of one finding. */
  ghost predicate StepDone(policy: CasePolicy, w: World, x: Firing, id: string, post: bool, r: World)
    requires id in w.state.cases.m
  {
    && (r.raised <==> !HasTexts(x.enriched) || (Stores(w.state, x, id) && w.state.cases.m[id].status == VerificationPending))
    && (if Stores(w.state, x, id) then StoredFor(policy, w.state, x, r.state, id)
        else r.state.handoffs == w.state.handoffs && r.state.objectives == w.state.objectives)
    && r.state.cases.m.Keys == w.state.cases.m.Keys
    && (forall k | k in w.state.cases.m :: r.state.cases.m[k].fingerprint == w.state.cases.m[k].fingerprint)
    && r.state.cases.m[id].issueUrl == (if post && !r.raised && x.issueUrl != "" then x.issueUrl else w.state.cases.m[id].issueUrl)
    && (forall k | k in w.state.cases.m && k != id :: r.state.cases.m[k].issueUrl == w.state.cases.m[k].issueUrl)
    && r.acted == w.acted
    && r.report == w.report.(
         handoffsBuilt := w.report.handoffsBuilt + (if r.raised then 0 else 1),
         issuesOpened := w.report.issuesOpened + (if post && !r.raised && x.issueUrl != "" then 1 else 0))
  }

  lemma StoredSame(policy: CasePolicy, s: State, x: Firing, t: State, u: State, id: string)
    requires StoredFor(policy, s, x, t, id) && u.handoffs == t.handoffs && u.objectives == t.objectives
    ensures StoredFor(policy, s, x, u, id)
  {
    hide HandoffFor, ObjectiveFor;
  }

  lemma HandOffIs(w: World, x: Firing, id: string, post: bool)
    requires RequestHandoff(w.state, id, x.enriched, 0, x.stamp).result.Ok? ==> RequestHandoff(w.state, id, x.enriched, 0, x.stamp).result.value.Some?
    ensures var (t, raises) := (RequestHandoff(w.state, id, x.enriched, 0, x.stamp).state, RequestHandoff(w.state, id, x.enriched, 0, x.stamp).result.Err?);
            var links := post && !raises && x.issueUrl != "";
            (HandOff(w, x, id, post)
             == w.(state := if links then RecordIssue(t, id, x.issueUrl, "", x.stamp.now) else t, raised := w.raised || raises,
                   report := w.report.(handoffsBuilt := w.report.handoffsBuilt + (if raises then 0 else 1),
                                       issuesOpened := w.report.issuesOpened + (if links then 1 else 0))))
  {
    hide RequestHandoff, RecordIssue;
  }

  /** Linking an issue after the request, seen from before it. */
  lemma UrlsThen(s: State, t: State, u: State, id: string)
    requires SameUrls(s, t) && u.cases.m.Keys == t.cases.m.Keys
    requires id in t.cases.m && u.cases.m[id].fingerprint == t.cases.m[id].fingerprint
    requires forall k | k in t.cases.m && k != id :: u.cases.m[k] == t.cases.m[k]
    ensures u.cases.m.Keys == s.cases.m.Keys
    ensures forall k | k in s.cases.m :: u.cases.m[k].fingerprint == s.cases.m[k].fingerprint
    ensures forall k | k in s.cases.m && k != id :: u.cases.m[k].issueUrl == s.cases.m[k].issueUrl
  {
    forall k | k in s.cases.m
      ensures u.cases.m[k].fingerprint == s.cases.m[k].fingerprint && (k != id ==> u.cases.m[k].issueUrl == s.cases.m[k].issueUrl)
    {
      assert k in t.cases.m;
      if k != id {
        assert u.cases.m[k] == t.cases.m[k];
      }
    }
  }

  ghost predicate Tables(policy: CasePolicy, s: State, x: Firing, t: State, id: string) {
    if Stores(s, x, id) then StoredFor(policy, s, x, t, id) else t.handoffs == s.handoffs && t.objectives == s.objectives
  }

  lemma TablesThen(policy: CasePolicy, s: State, x: Firing, t: State, u: State, id: string)
    requires Tables(policy, s, x, t, id) && u.handoffs == t.handoffs && u.objectives == t.objectives
    ensures Tables(policy, s, x, u, id)
  {
    hide Stores, StoredFor;
    if Stores(s, x, id) {
      StoredSame(policy, s, x, t, u, id);
    }
  }

  /** The cases after the handoff step: the link of one changed, or none. */
  ghost predicate UrlsAfter(s: State, u: State, id: string, links: bool, url: string) {
    && u.cases.m.Keys == s.cases.m.Keys && id in s.cases.m
    && (forall k | k in s.cases.m :: u.cases.m[k].fingerprint == s.cases.m[k].fingerprint)
    && (forall k | k in s.cases.m && k != id :: u.cases.m[k].issueUrl == s.cases.m[k].issueUrl)
    && u.cases.m[id].issueUrl == if links then url else s.cases.m[id].issueUrl
  }

  lemma RequestedUrls(s: State, t: State, id: string, now: int, links: bool, url: string)
    requires SameUrls(s, t) && CaseMoves.OwnIds(t) && id in s.cases.m
    ensures UrlsAfter(s, if links then RecordIssue(t, id, url, "", now) else t, id, links, url)
    ensures RecordIssue(t, id, url, "", now).handoffs == t.handoffs && RecordIssue(t, id, url, "", now).objectives == t.objectives
  {
    hide RecordIssue, CaseMoves.OwnIds;
    IssueSets(t, id, url, now);
    UrlsThen(s, t, RecordIssue(t, id, url, "", now), id);
    hide SameUrls;
    UrlsHere(s, t, id);
  }

  lemma UrlsHere(s: State, t: State, id: string)
    requires SameUrls(s, t) && id in s.cases.m
    ensures UrlsAfter(s, t, id, false, "")
  {
  }

  lemma HandOffEffects(policy: CasePolicy, w: World, x: Firing, id: string, post: bool)
    requires Ready(policy, w.state, x, id) && !w.raised
    ensures id in w.state.cases.m && StepDone(policy, w, x, id, post, HandOff(w, x, id, post))
  {
    hide HandOff, RequestHandoff, RecordIssue, HasTexts, Stores, StoredFor, CaseMoves.OwnIds, Ready, SameUrls, Tables, UrlsAfter, StepDone;
    var s := w.state;
    var r := RequestHandoff(s, id, x.enriched, 0, x.stamp);
    var t := r.state;
    ReadyCase(policy, s, x, id);
    RequestDone(policy, s, x, id);
    RequestKeepsUrl(policy, s, x, id);
    HandOffIs(w, x, id, post);
    var links := post && !r.result.Err? && x.issueUrl != "";
    RequestedUrls(s, t, id, x.stamp.now, links, x.issueUrl);
    TablesThen(policy, s, x, t, RecordIssue(t, id, x.issueUrl, "", x.stamp.now), id);
    StepFrom(policy, w, x, id, post, HandOff(w, x, id, post), r.result.Err?);
  }

  lemma RequestDone(policy: CasePolicy, s: State, x: Firing, id: string)
    requires Ready(policy, s, x, id) && id in s.cases.m
    ensures var r := RequestHandoff(s, id, x.enriched, 0, x.stamp);
            && Tables(policy, s, x, r.state, id) && (r.result.Ok? ==> r.result.value.Some?)
            && (r.result.Err? <==> !HasTexts(x.enriched) || (Stores(s, x, id) && s.cases.m[id].status == VerificationPending))
  {
    hide RequestHandoff, HasTexts, Stores, StoredFor, Ready;
    RequestEffects(policy, s, x, id);
  }

  lemma StepFrom(policy: CasePolicy, w: World, x: Firing, id: string, post: bool, r: World, raises: bool)
    requires id in w.state.cases.m
    requires raises <==> !HasTexts(x.enriched) || (Stores(w.state, x, id) && w.state.cases.m[id].status == VerificationPending)
    requires r.raised == raises && r.acted == w.acted
    requires r.report == w.report.(handoffsBuilt := w.report.handoffsBuilt + (if raises then 0 else 1),
                                   issuesOpened := w.report.issuesOpened + (if post && !raises && x.issueUrl != "" then 1 else 0))
    requires Tables(policy, w.state, x, r.state, id)
    requires UrlsAfter(w.state, r.state, id, post && !raises && x.issueUrl != "", x.issueUrl)
    ensures StepDone(policy, w, x, id, post, r)
  {
    hide HasTexts, Stores, StoredFor;
  }

  lemma ReadyCase(policy: CasePolicy, s: State, x: Firing, id: string)
    requires Ready(policy, s, x, id)
    ensures id in s.cases.m
  {
  }

  lemma UrlAt(s: State, t: State, id: string)
    requires SameUrls(s, t) && id in s.cases.m
    ensures id in t.cases.m && t.cases.m[id].issueUrl == s.cases.m[id].issueUrl
  {
  }

  // --- the observation before it ---

  /** What the observation of an acted-on finding leaves for the handoff step. */
  ghost predicate Observed(policy: CasePolicy, s: State, x: Firing, t: State, id: string, created: bool) {
    && Ready(policy, t, x, id) && t.cases.m[id].fingerprint == x.raw.fingerprint
    && t.handoffs == s.handoffs && t.objectives == s.objectives
    && created == !HasCase(s, x.raw.fingerprint)
    && (id in s.cases.m ==>
          && t.cases.m[id].issueUrl == s.cases.m[id].issueUrl
          && (t.cases.m[id].status == VerificationPending <==> s.cases.m[id].status == VerificationPending))
    && (id !in s.cases.m ==> t.cases.m[id].issueUrl == "" && t.cases.m[id].status != VerificationPending)
  }

  lemma FailedKeeps(c: SecurityCase, f: Finding, cycle: string, now: int)
    ensures var d := CaseMoves.AfterFailure(c, f, cycle, now);
            d.issueUrl == c.issueUrl && (d.status == VerificationPending <==> c.status == VerificationPending)
  {
  }

  lemma OpenedPlain(policy: CasePolicy, f: Finding, cycle: string, stamp: Stamp)
    ensures var d := TriagedCase(OpenedCase(policy, f, cycle, stamp), stamp.now);
            d.issueUrl == "" && d.status == Triaged
  {
  }

  lemma CreatedIff(policy: CasePolicy, s: State, f: Finding, cycle: string, stamp: Stamp)
    requires CasesKeyed(s) && !f.passed
    ensures ObserveFinding(policy, s, f, cycle, stamp).1.created <==> !HasCase(s, f.fingerprint)
  {
    hide FailedCase, TriagedCase, OpenedCase, Commit, BoundKind, CaseByFingerprint, CasesKeyed;
    var s1 := s.(findings := s.findings.Put(f.findingId, f));
    CaseMoves.SameCasesKeyed(s, s1);
    CaseMoves.FoundCase(s1, f);
  }

  lemma ObserveFirst(policy: CasePolicy, s: State, x: Firing, cycle: string)
    requires Inv(policy, s) && Suits(s, x)
    ensures var (t, seen) := ObserveFinding(policy, s, x.enriched, cycle, x.stamp);
            Observed(policy, s, x, t, seen.subject.caseId, seen.created)
  {
    hide Inv, ObserveFinding, Scrubbed, AtRest, CaseMoves.MovedBy, HasCase, BoundText, CaseMoves.AfterFailure, TriagedCase, OpenedCase;
    var f := x.enriched;
    var (t, seen) := ObserveFinding(policy, s, f, cycle, x.stamp);
    var id := seen.subject.caseId;
    Engineering.InvHandoffs(policy, s);
    RestsIn(policy, s);
    LadderRuns.FailingSubject(policy, s, f, cycle, x.stamp);
    CreatedIff(policy, s, f, cycle, x.stamp);
    Preservation.ObserveKeepsInv(policy, s, f, cycle, x.stamp);
    CaseMoves.ObserveMoves(policy, s, f, cycle, true, x.stamp, id);
    OpenedPlain(policy, f, cycle, x.stamp);
    if id in s.cases.m {
      CaseMoves.StatusMoves(s, s.cases.m[id], Action(Observe(f, cycle, true), x.stamp));
      FailedMoves(s, s.cases.m[id], f, cycle, x.stamp);
      FailedKeeps(s.cases.m[id], f, cycle, x.stamp.now);
    }
  }

  lemma FailedMoves(s: State, c: SecurityCase, f: Finding, cycle: string, stamp: Stamp)
    requires !f.passed && (c.fingerprint == f.fingerprint || CaseMoves.MovedBy(s, c, Action(Observe(f, cycle, true), stamp)).fingerprint == f.fingerprint)
    ensures CaseMoves.MovedBy(s, c, Action(Observe(f, cycle, true), stamp)) == CaseMoves.AfterFailure(c, f, cycle, stamp.now)
  {
  }

  lemma RestsIn(policy: CasePolicy, s: State)
    requires Inv(policy, s)
    ensures forall k | k in s.cases.m :: AtRest(s.cases.m[k].status)
  {
    hide AtRest, HandoffsKeyed, ObjectivesLinked, Invariants.Linked, Audited, CallbacksKeyed, CasesKeyed, LabelsStable;
  }

  // --- all of it ---

  /** The world after the observation, before the handoff step. */
  ghost predicate Charged(w: World, x: Firing, c: World, created: bool) {
    && c.acted == w.acted + [x] && !c.raised
    && c.report == (if created then w.report.(casesOpened := w.report.casesOpened + 1)
                    else w.report.(casesRefreshed := w.report.casesRefreshed + 1))
  }

  lemma ChargingCharged(policy: CasePolicy, settings: PostureSettings, w: World, t: Tally, x: Firing, cycle: string)
    ensures Charged(w, x, LadderRuns.Charging(policy, settings, w.(tally := t), x, cycle), ObserveFinding(policy, w.state, x.enriched, cycle, x.stamp).1.created)
  {
    hide ObserveFinding, Recorded, Rolled;
  }

  /** The case of the control is the only one with its fingerprint. */
  lemma OnlyCase(policy: CasePolicy, s: State, x: Firing, c: State, id: string, created: bool, r: State)
    requires Observed(policy, s, x, c, id, created) && r.cases.m.Keys == c.cases.m.Keys
    requires forall k | k in c.cases.m :: r.cases.m[k].fingerprint == c.cases.m[k].fingerprint
    ensures forall k | k in r.cases.m && r.cases.m[k].fingerprint == x.raw.fingerprint :: k == id
    ensures HasCase(r, x.raw.fingerprint)
  {
    hide Inv, BoundText, HasCase;
    Engineering.InvHandoffs(policy, c);
    assert id in r.cases.m && r.cases.m[id].fingerprint == x.raw.fingerprint;
    assert HasCase(r, x.raw.fingerprint) by { CaseThere(r, id, x.raw.fingerprint); }
  }

  lemma CaseThere(s: State, id: string, fingerprint: string)
    requires id in s.cases.m && s.cases.m[id].fingerprint == fingerprint
    ensures HasCase(s, fingerprint)
  {
  }

  lemma SameTables(policy: CasePolicy, s: State, x: Firing, c: State, t: State, id: string)
    requires c.handoffs == s.handoffs && c.objectives == s.objectives
    ensures StoredFor(policy, c, x, t, id) <==> StoredFor(policy, s, x, t, id)
    ensures Stores(c, x, id) <==> Stores(s, x, id)
  {
    hide HandoffFor, ObjectiveFor, HasTexts, IdempotencyKey;
  }

  lemma WarrantedCounted(settings: PostureSettings, mode: Mode, w: World, x: Firing, c: World, created: bool, r: World)
    requires Charged(w, x, c, created) && created == !HasCase(w.state, x.raw.fingerprint)
    requires ActsOn(settings, mode, w, x)
    requires if Warranted(x.raw, mode, settings) then
               r.report == c.report.(
                 handoffsBuilt := c.report.handoffsBuilt + (if r.raised then 0 else 1),
                 issuesOpened := c.report.issuesOpened + (if mode == HandoffLive && !r.raised && x.issueUrl != "" then 1 else 0))
             else r.report == c.report
    ensures Counted(settings, mode, w, x, r)
  {
    hide HasCase, Warranted, Passes;
  }

  lemma WarrantedHandedOff(policy: CasePolicy, settings: PostureSettings, mode: Mode, w: World, x: Firing, c: World, id: string, r: World)
    requires c.state.handoffs == w.state.handoffs && c.state.objectives == w.state.objectives && Warranted(x.raw, mode, settings)
    requires if Stores(c.state, x, id) then StoredFor(policy, c.state, x, r.state, id)
             else r.state.handoffs == c.state.handoffs && r.state.objectives == c.state.objectives
    ensures HandedOff(policy, settings, mode, w, x, r, id)
  {
    SameTables(policy, w.state, x, c.state, r.state, id);
    hide HasTexts, HasKey, StoredFor, IdempotencyKey, Warranted;
  }

  lemma WarrantedLinked(policy: CasePolicy, settings: PostureSettings, mode: Mode, w: World, x: Firing, c: World, id: string, created: bool, r: World)
    requires Observed(policy, w.state, x, c.state, id, created) && StepDone(policy, c, x, id, mode == HandoffLive, r)
    requires Warranted(x.raw, mode, settings)
    ensures Linked(settings, mode, w, x, r, id)
  {
    SameTables(policy, w.state, x, c.state, r.state, id);
    hide Inv, HasTexts, HasKey, StoredFor, IdempotencyKey, Warranted, HasCase, BoundText;
  }

  lemma ObservedFacts(policy: CasePolicy, s: State, x: Firing, t: State, id: string, created: bool)
    requires Observed(policy, s, x, t, id, created)
    ensures id in t.cases.m && t.handoffs == s.handoffs && t.objectives == s.objectives && created == !HasCase(s, x.raw.fingerprint)
  {
  }

  lemma StepFacts(policy: CasePolicy, c: World, x: Firing, id: string, post: bool, r: World)
    requires id in c.state.cases.m && StepDone(policy, c, x, id, post, r)
    ensures r.acted == c.acted && r.state.cases.m.Keys == c.state.cases.m.Keys
    ensures forall k | k in c.state.cases.m :: r.state.cases.m[k].fingerprint == c.state.cases.m[k].fingerprint
    ensures if Stores(c.state, x, id) then StoredFor(policy, c.state, x, r.state, id)
            else r.state.handoffs == c.state.handoffs && r.state.objectives == c.state.objectives
    ensures r.report == c.report.(
              handoffsBuilt := c.report.handoffsBuilt + (if r.raised then 0 else 1),
              issuesOpened := c.report.issuesOpened + (if post && !r.raised && x.issueUrl != "" then 1 else 0))
  {
    hide Stores, StoredFor, HasTexts;
  }

  lemma ChargedFacts(w: World, x: Firing, c: World, created: bool)
    requires Charged(w, x, c, created)
    ensures c.acted == w.acted + [x] && !c.raised
  {
  }

  /** From the parts to the whole. */
  lemma EffectsFrom(policy: CasePolicy, settings: PostureSettings, mode: Mode, w: World, x: Firing, r: World, id: string)
    requires ActsOn(settings, mode, w, x) && Counted(settings, mode, w, x, r) && r.acted == w.acted + [x]
    requires id in r.state.cases.m && HandedOff(policy, settings, mode, w, x, r, id) && Linked(settings, mode, w, x, r, id)
    requires HasCase(r.state, x.raw.fingerprint)
    requires forall k | k in r.state.cases.m && r.state.cases.m[k].fingerprint == x.raw.fingerprint :: k == id
    ensures Effects(policy, settings, mode, w, x, r)
  {
    hide Counted, HandedOff, Linked, HasCase, ActsOn;
  }

  /** With a handoff step. */
  lemma WarrantedEffects(policy: CasePolicy, settings: PostureSettings, mode: Mode, w: World, x: Firing, c: World, id: string, created: bool, r: World)
    requires Observed(policy, w.state, x, c.state, id, created) && Charged(w, x, c, created) && id in c.state.cases.m
    requires StepDone(policy, c, x, id, mode == HandoffLive, r)
    requires ActsOn(settings, mode, w, x) && Warranted(x.raw, mode, settings)
    ensures Effects(policy, settings, mode, w, x, r)
  {
    hide Observed, StepDone, Counted, HandedOff, Linked, ActsOn, Warranted, HasCase, Charged, Effects, Stores, StoredFor;
    ObservedFacts(policy, w.state, x, c.state, id, created);
    StepFacts(policy, c, x, id, mode == HandoffLive, r);
    ChargedFacts(w, x, c, created);
    OnlyCase(policy, w.state, x, c.state, id, created, r.state);
    WarrantedLinked(policy, settings, mode, w, x, c, id, created, r);
    WarrantedCounted(settings, mode, w, x, c, created, r);
    WarrantedHandedOff(policy, settings, mode, w, x, c, id, r);
    EffectsFrom(policy, settings, mode, w, x, r, id);
  }

  lemma UnwarrantedLinked(policy: CasePolicy, settings: PostureSettings, mode: Mode, w: World, x: Firing, c: World, id: string, created: bool)
    requires Observed(policy, w.state, x, c.state, id, created) && !c.raised && !Warranted(x.raw, mode, settings)
    ensures Linked(settings, mode, w, x, c, id) && HandedOff(policy, settings, mode, w, x, c, id)
  {
    hide Inv, HasTexts, HasKey, StoredFor, IdempotencyKey, Warranted, HasCase, BoundText;
  }

  /** Without one. */
  lemma UnwarrantedEffects(policy: CasePolicy, settings: PostureSettings, mode: Mode, w: World, x: Firing, c: World, id: string, created: bool)
    requires Observed(policy, w.state, x, c.state, id, created) && Charged(w, x, c, created)
    requires ActsOn(settings, mode, w, x) && !Warranted(x.raw, mode, settings)
    ensures Effects(policy, settings, mode, w, x, c)
  {
    hide Observed, Counted, HandedOff, Linked, ActsOn, Warranted, HasCase, Charged, Effects;
    ObservedFacts(policy, w.state, x, c.state, id, created);
    ChargedFacts(w, x, c, created);
    OnlyCase(policy, w.state, x, c.state, id, created, c.state);
    UnwarrantedLinked(policy, settings, mode, w, x, c, id, created);
    WarrantedCounted(settings, mode, w, x, c, created, c);
    EffectsFrom(policy, settings, mode, w, x, c, id);
  }

  lemma ActedEffects(policy: CasePolicy, settings: PostureSettings, mode: Mode, w: World, x: Firing, cycle: string)
    requires Inv(policy, w.state) && Suits(w.state, x) && ActsOn(settings, mode, w, x)
    ensures Effects(policy, settings, mode, w, x, Process(policy, settings, mode, w, x, cycle))
  {
    hide Inv, HandOff, ObserveFinding, Passes, Warranted, Observed, Charged, StepDone, Effects, LadderRuns.Charging, ActOn, Suits, Gate;
    GateGrantsIff(x.raw, mode, settings, w.tally, x.countDay, x.costDay);
    var (d, t1) := Gate(x.raw, mode, settings, w.tally, x.countDay, x.costDay);
    var created := ObserveFinding(policy, w.state, x.enriched, cycle, x.stamp).1.created;
    var (c, id) := (LadderRuns.Charging(policy, settings, w.(tally := t1), x, cycle), LadderRuns.SubjectId(policy, w.state, x, cycle));
    LadderRuns.ActOnShape(policy, settings, w.(tally := t1), x, d, cycle);
    ObserveFirst(policy, w.state, x, cycle);
    ChargingCharged(policy, settings, w, t1, x, cycle);
    assert c.state == ObserveFinding(policy, w.state, x.enriched, cycle, x.stamp).0 by { ChargingState(policy, settings, w, t1, x, cycle); }
    if Warranted(x.raw, mode, settings) {
      ReadyForStep(policy, w, x, c, id, created);
      HandOffEffects(policy, c, x, id, mode == HandoffLive);
      WarrantedEffects(policy, settings, mode, w, x, c, id, created, HandOff(c, x, id, mode == HandoffLive));
    } else {
      UnwarrantedEffects(policy, settings, mode, w, x, c, id, created);
    }
  }

  lemma ChargingState(policy: CasePolicy, settings: PostureSettings, w: World, t: Tally, x: Firing, cycle: string)
    ensures LadderRuns.Charging(policy, settings, w.(tally := t), x, cycle).state == ObserveFinding(policy, w.state, x.enriched, cycle, x.stamp).0
  {
    hide ObserveFinding, Recorded, Rolled;
  }

  lemma ReadyForStep(policy: CasePolicy, w: World, x: Firing, c: World, id: string, created: bool)
    requires Observed(policy, w.state, x, c.state, id, created) && Charged(w, x, c, created)
    ensures Ready(policy, c.state, x, id) && !c.raised
  {
    hide Inv, BoundText, HasCase;
  }

  lemma PassedOverEffects(policy: CasePolicy, settings: PostureSettings, mode: Mode, w: World, x: Firing, cycle: string)
    requires !ActsOn(settings, mode, w, x) && !w.raised
    ensures Effects(policy, settings, mode, w, x, Process(policy, settings, mode, w, x, cycle))
  {
    hide Gate, ActOn, Passes, Warranted, HasCase, HandedOff, Linked;
    GateGrantsIff(x.raw, mode, settings, w.tally, x.countDay, x.costDay);
  }

  /**
   All that the loop makes of one firing finding. It acts on it if and only if the finding passes
   the gate and the cycle has room. A handoff and its objective are then stored if and only if the
   finding warrants one, handoffs are enabled, its severity is high, the mode is one of the upper
   two, its texts say something and no handoff has the key. The step raises for a missing text, or
   for a case pending verification without a handoff under the key. The issue is linked if and only
   if in addition the mode is live, one was opened, and the step did not raise.
   */
  lemma ProcessEffects(policy: CasePolicy, settings: PostureSettings, mode: Mode, w: World, x: Firing, cycle: string)
    requires Inv(policy, w.state) && Suits(w.state, x) && !w.raised
    ensures Effects(policy, settings, mode, w, x, Process(policy, settings, mode, w, x, cycle))
    ensures Inv(policy, Process(policy, settings, mode, w, x, cycle).state)
  {
    hide Inv, Effects, ActsOn, Process, Suits;
    if ActsOn(settings, mode, w, x) {
      ActedEffects(policy, settings, mode, w, x, cycle);
    } else {
      PassedOverEffects(policy, settings, mode, w, x, cycle);
    }
    ProcessKeepsInv(policy, settings, mode, w, x, cycle);
  }

  lemma ProcessKeepsInv(policy: CasePolicy, settings: PostureSettings, mode: Mode, w: World, x: Firing, cycle: string)
    requires Inv(policy, w.state) && Suits(w.state, x)
    ensures Inv(policy, Process(policy, settings, mode, w, x, cycle).state)
  {
    hide Inv, Gate, HandOff, ObserveFinding, Ready, Observed, Charged, LadderRuns.Charging, Recorded, Rolled, Scrubbed, BoundText;
    var (d, t1) := Gate(x.raw, mode, settings, w.tally, x.countDay, x.costDay);
    LadderRuns.ActOnShape(policy, settings, w.(tally := t1), x, d, cycle);
    ObserveFirst(policy, w.state, x, cycle);
    var (c, id) := (LadderRuns.Charging(policy, settings, w.(tally := t1), x, cycle), LadderRuns.SubjectId(policy, w.state, x, cycle));
    ChargingState(policy, settings, w, t1, x, cycle);
    Preservation.ObserveKeepsInv(policy, w.state, x.enriched, cycle, x.stamp);
    assert x.stamp.handoffId !in c.state.handoffs.m && x.stamp.objectiveId !in c.state.objectives.m by {
      ObservedTables(policy, w.state, x, c.state, id, ObserveFinding(policy, w.state, x.enriched, cycle, x.stamp).1.created);
    }
    HandOffKeepsInv(policy, c, x, id, d.postHandoff);
  }

  lemma ObservedTables(policy: CasePolicy, s: State, x: Firing, t: State, id: string, created: bool)
    requires Observed(policy, s, x, t, id, created)
    ensures t.handoffs == s.handoffs && t.objectives == s.objectives
  {
  }

  lemma HandOffKeepsInv(policy: CasePolicy, w: World, x: Firing, id: string, post: bool)
    requires Inv(policy, w.state) && x.stamp.handoffId !in w.state.handoffs.m && x.stamp.objectiveId !in w.state.objectives.m
    requires BoundText(x.stamp.handoffId) == x.stamp.handoffId
    ensures Inv(policy, HandOff(w, x, id, post).state)
  {
    hide Inv, RequestHandoff, RecordIssue, BoundText;
    Preservation.RequestKeepsInv(policy, w.state, id, x.enriched, 0, x.stamp);
    Preservation.IssueKeepsInv(policy, RequestHandoff(w.state, id, x.enriched, 0, x.stamp).state, id, x.issueUrl, "", x.stamp.now);
  }

  // --- a whole cycle ---

  /** The findings of a cycle find what they need, one after the other. */
  ghost predicate AllSuit(policy: CasePolicy, settings: PostureSettings, mode: Mode, w: World, xs: seq<Firing>, cycle: string)
    decreases |xs|
  {
    xs != [] && !w.raised ==>
      Suits(w.state, xs[0]) && AllSuit(policy, settings, mode, Process(policy, settings, mode, w, xs[0], cycle), xs[1..], cycle)
  }

  /** Up to each finding, and through it. */
  lemma {:induction false} EachEffects(policy: CasePolicy, settings: PostureSettings, mode: Mode, w: World, xs: seq<Firing>, cycle: string, i: nat)
    requires Inv(policy, w.state) && AllSuit(policy, settings, mode, w, xs, cycle) && i < |xs|
    ensures var before := ProcessAll(policy, settings, mode, w, xs[..i], cycle);
            && (before.raised ==> ProcessAll(policy, settings, mode, w, xs[..i + 1], cycle) == before)
            && (!before.raised ==> Effects(policy, settings, mode, before, xs[i], ProcessAll(policy, settings, mode, w, xs[..i + 1], cycle)))
    decreases |xs|
  {
    hide Inv, Effects, Process, Suits;
    if w.raised {
    } else if i == 0 {
      ProcessEffects(policy, settings, mode, w, xs[0], cycle);
      assert xs[..1][1..] == [] && xs[..0] == [];
    } else {
      ProcessEffects(policy, settings, mode, w, xs[0], cycle);
      assert xs[..i][1..] == xs[1..][..i - 1] && xs[..i + 1][1..] == xs[1..][..i] && xs[..i][0] == xs[0] == xs[..i + 1][0];
      EachEffects(policy, settings, mode, Process(policy, settings, mode, w, xs[0], cycle), xs[1..], cycle, i - 1);
    }
  }

  ghost predicate PassingSuit(s: State, passing: seq<Passing>) {
    forall i | 0 <= i < |passing| :: passing[i].finding.passed && Scrubbed(passing[i].finding) && passing[i].stamp.caseId !in s.cases.m
  }

  lemma {:induction false} PassingKeepsInv(policy: CasePolicy, w: World, passing: seq<Passing>, cycle: string)
    requires Inv(policy, w.state) && PassingSuit(w.state, passing)
    ensures var r := ObservePassing(policy, w, passing, cycle);
            && Inv(policy, r.state) && r.raised == w.raised && r.acted == w.acted
            && r.state.handoffs == w.state.handoffs && r.state.objectives == w.state.objectives
            && r.state.cases.m.Keys == w.state.cases.m.Keys
    decreases |passing|
  {
    hide Inv, Scrubbed, ObserveFinding;
    if passing != [] {
      var x := passing[0];
      Preservation.ObserveKeepsInv(policy, w.state, x.finding, cycle, x.stamp);
      PassedTables(policy, w.state, x.finding, cycle, x.stamp);
      PassingKeepsInv(policy, LadderRuns.AfterPassing(policy, w, x, cycle), passing[1..], cycle);
    }
  }

  lemma PassedTables(policy: CasePolicy, s: State, f: Finding, cycle: string, stamp: Stamp)
    requires f.passed && Inv(policy, s)
    ensures var t := ObserveFinding(policy, s, f, cycle, stamp).0;
            t.handoffs == s.handoffs && t.objectives == s.objectives && t.cases.m.Keys == s.cases.m.Keys
  {
    hide Inv, CaseByFingerprint, RecordPassing, RecordFailing, CaseFromFinding;
    var s1 := s.(findings := s.findings.Put(f.findingId, f));
    Engineering.InvHandoffs(policy, s);
    CaseMoves.SameCasesKeyed(s, s1);
    CaseMoves.FoundCase(s1, f);
    if CaseByFingerprint(s1, f.fingerprint).Some? {
      PassedKeeps(s1, CaseByFingerprint(s1, f.fingerprint).value, cycle, stamp.now);
    }
  }

  lemma PassedKeeps(s: State, c: SecurityCase, cycle: string, now: int)
    requires c.caseId in s.cases.m
    ensures var t := RecordPassing(s, c, cycle, now).0;
            t.handoffs == s.handoffs && t.objectives == s.objectives && t.cases.m.Keys == s.cases.m.Keys
  {
    PassedId(c, cycle, now);
    hide PassedCase, BoundKind;
  }

  lemma PassedId(c: SecurityCase, cycle: string, now: int)
    ensures PassedCase(c, cycle, now).caseId == c.caseId
  {
  }

  /** The world of a cycle before its `i`-th finding by priority. */
  function Before(policy: CasePolicy, settings: PostureSettings, mode: Mode, s: State, t: Tally, scan: Scan, i: nat): World
    requires i <= |Sorting.SortBy(scan.firing, Priority)|
  {
    ProcessAll(policy, settings, mode, ObservePassing(policy, World(s, t, StartReport(scan), [], false), scan.passing, scan.cycle),
               Sorting.SortBy(scan.firing, Priority)[..i], scan.cycle)
  }

  /** In any cycle of any mode but shadow, every finding in turn has exactly these effects until one raises. */
  lemma CycleEffects(policy: CasePolicy, settings: PostureSettings, mode: Mode, s: State, t: Tally, scan: Scan, i: nat)
    requires mode != Shadow && Inv(policy, s) && PassingSuit(s, scan.passing) && i < |Sorting.SortBy(scan.firing, Priority)|
    requires AllSuit(policy, settings, mode, Before(policy, settings, mode, s, t, scan, 0), Sorting.SortBy(scan.firing, Priority), scan.cycle)
    ensures var (before, after) := (Before(policy, settings, mode, s, t, scan, i), Before(policy, settings, mode, s, t, scan, i + 1));
            if before.raised then after == before
            else Effects(policy, settings, mode, before, Sorting.SortBy(scan.firing, Priority)[i], after)
    ensures Before(policy, settings, mode, s, t, scan, |Sorting.SortBy(scan.firing, Priority)|) == Cycle(policy, settings, mode, s, t, scan)
    ensures !Before(policy, settings, mode, s, t, scan, 0).raised
    ensures Before(policy, settings, mode, s, t, scan, 0).state.handoffs == s.handoffs
    ensures Before(policy, settings, mode, s, t, scan, 0).state.objectives == s.objectives
  {
    hide Inv, Effects, Process, Suits, ObservePassing, Sorting.SortBy, PassingSuit;
    var w0 := World(s, t, StartReport(scan), [], false);
    var w := ObservePassing(policy, w0, scan.passing, scan.cycle);
    var xs := Sorting.SortBy(scan.firing, Priority);
    PassingKeepsInv(policy, w0, scan.passing, scan.cycle);
    assert Before(policy, settings, mode, s, t, scan, 0) == w by { assert xs[..0] == []; }
    assert xs[..|xs|] == xs;
    EachEffects(policy, settings, mode, w, xs, scan.cycle, i);
  }

  // --- the kill switch ---

  lemma ObserveKeepsTables(policy: CasePolicy, s: State, f: Finding, cycle: string, stamp: Stamp)
    ensures var t := ObserveFinding(policy, s, f, cycle, stamp).0; t.handoffs == s.handoffs && t.objectives == s.objectives
  {
    hide CaseByFingerprint, FailedCase, PassedCase, TriagedCase, OpenedCase, BoundKind;
  }

  lemma {:induction false} ProcessAllUnwarranted(policy: CasePolicy, settings: PostureSettings, mode: Mode, w: World, xs: seq<Firing>, cycle: string)
    requires forall x | x in xs :: !Warranted(x.raw, mode, settings)
    ensures var r := ProcessAll(policy, settings, mode, w, xs, cycle);
            && r.state.handoffs == w.state.handoffs && r.state.objectives == w.state.objectives
            && r.report.handoffsBuilt == w.report.handoffsBuilt && r.report.issuesOpened == w.report.issuesOpened && r.raised == w.raised
    decreases |xs|
  {
    hide Process, Warranted;
    if xs != [] && !w.raised {
      assert xs[0] in xs && forall x | x in xs[1..] :: x in xs;
      ProcessUnwarranted(policy, settings, mode, w, xs[0], cycle);
      ProcessAllUnwarranted(policy, settings, mode, Process(policy, settings, mode, w, xs[0], cycle), xs[1..], cycle);
    }
  }

  lemma ProcessUnwarranted(policy: CasePolicy, settings: PostureSettings, mode: Mode, w: World, x: Firing, cycle: string)
    requires !Warranted(x.raw, mode, settings) && !w.raised
    ensures var r := Process(policy, settings, mode, w, x, cycle);
            && r.state.handoffs == w.state.handoffs && r.state.objectives == w.state.objectives
            && r.report.handoffsBuilt == w.report.handoffsBuilt && r.report.issuesOpened == w.report.issuesOpened && !r.raised
  {
    hide Gate, ObserveFinding, HandOff, Recorded, Rolled, Warranted, Passes;
    GateGrantsIff(x.raw, mode, settings, w.tally, x.countDay, x.costDay);
    ObserveKeepsTables(policy, w.state, x.enriched, cycle, x.stamp);
  }

  lemma {:induction false} PassingTables(policy: CasePolicy, w: World, passing: seq<Passing>, cycle: string)
    ensures var r := ObservePassing(policy, w, passing, cycle);
            && r.state.handoffs == w.state.handoffs && r.state.objectives == w.state.objectives && r.raised == w.raised
            && r.report.handoffsBuilt == w.report.handoffsBuilt && r.report.issuesOpened == w.report.issuesOpened
    decreases |passing|
  {
    hide ObserveFinding;
    if passing != [] {
      ObserveKeepsTables(policy, w.state, passing[0].finding, cycle, passing[0].stamp);
      PassingTables(policy, LadderRuns.AfterPassing(policy, w, passing[0], cycle), passing[1..], cycle);
    }
  }

  /** With handoffs disabled no cycle of any mode, whatever its findings, stores a handoff or an
      objective, opens an issue, or raises. */
  lemma DisabledHandsNothingOff(policy: CasePolicy, settings: PostureSettings, mode: Mode, s: State, t: Tally, scan: Scan)
    requires !settings.handoffEnabled
    ensures var r := Cycle(policy, settings, mode, s, t, scan);
            && r.state.handoffs == s.handoffs && r.state.objectives == s.objectives
            && r.report.handoffsBuilt == 0 && r.report.issuesOpened == 0 && !r.raised
  {
    hide ObservePassing, ProcessAll, Sorting.SortBy;
    var w := World(s, t, StartReport(scan), [], false);
    PassingTables(policy, w, scan.passing, scan.cycle);
    ProcessAllUnwarranted(policy, settings, mode, ObservePassing(policy, w, scan.passing, scan.cycle), Sorting.SortBy(scan.firing, Priority), scan.cycle);
  }

  // --- which findings come first ---

  lemma EligibleIff(settings: PostureSettings, x: Firing)
    ensures Eligible(settings, x) <==> ReachesFloor(x.raw.severity, settings.severityFloor)
  {
  }

  ghost predicate Descending(xs: seq<Firing>) {
    forall i, j | 0 <= i < j < |xs| :: xs[i].raw.score >= xs[j].raw.score
  }

  lemma {:induction false} EligibleAre(settings: PostureSettings, xs: seq<Firing>)
    requires Descending(xs)
    ensures Descending(EligibleOf(settings, xs))
    ensures forall x :: x in EligibleOf(settings, xs) <==> x in xs && ReachesFloor(x.raw.severity, settings.severityFloor)
  {
    hide Eligible, ReachesFloor;
    if xs != [] {
      EligibleAre(settings, xs[1..]);
      EligibleIff(settings, xs[0]);
      assert xs == [xs[0]] + xs[1..];
      var rest := EligibleOf(settings, xs[1..]);
      forall i | 0 <= i < |rest| ensures xs[0].raw.score >= rest[i].raw.score {
        assert rest[i] in rest;
        assert rest[i] in xs[1..];
        var k :| 0 <= k < |xs[1..]| && xs[1..][k] == rest[i];
        assert xs[k + 1] == rest[i];
      }
    }
  }

  /** A beginning of the ranking. */
  ghost predicate Highest(settings: PostureSettings, firing: seq<Firing>, acted: seq<Firing>) {
    && Descending(acted)
    && (forall x | x in acted :: x in firing && ReachesFloor(x.raw.severity, settings.severityFloor))
    && (forall x, y | x in firing && ReachesFloor(x.raw.severity, settings.severityFloor) && x !in acted && y in acted ::
          y.raw.score >= x.raw.score)
  }

  lemma BeginningIsHighest(settings: PostureSettings, firing: seq<Firing>, ranked: seq<Firing>, n: nat)
    requires n <= |ranked| && Descending(ranked)
    requires forall x :: x in ranked <==> x in firing && ReachesFloor(x.raw.severity, settings.severityFloor)
    ensures Highest(settings, firing, ranked[..n])
  {
    hide ReachesFloor;
    var acted := ranked[..n];
    forall x | x in acted ensures x in ranked {
    }
    forall x, y | x in firing && ReachesFloor(x.raw.severity, settings.severityFloor) && x !in acted && y in acted
      ensures y.raw.score >= x.raw.score
    {
      assert x in ranked;
      var j :| 0 <= j < |ranked| && ranked[j] == x;
      var i :| 0 <= i < n && acted[i] == y;
      assert ranked[i] == y;
      forall k | 0 <= k < n ensures ranked[k] != x {
        assert acted[k] == ranked[k] && acted[k] in acted;
      }
    }
  }

  lemma SortedDescends(xs: seq<Firing>)
    ensures Descending(Sorting.SortBy(xs, Priority))
    ensures forall x :: x in Sorting.SortBy(xs, Priority) <==> x in xs
  {
    hide Sorting.SortBy;
    var ys := Sorting.SortBy(xs, Priority);
    Sorting.SortMeaning(xs, Priority);
    forall i, j | 0 <= i < j < |ys| ensures ys[i].raw.score >= ys[j].raw.score {
      assert Priority(ys[i]) <= Priority(ys[j]);
    }
    forall x ensures x in ys <==> x in xs {
      assert x in multiset(ys) <==> x in multiset(xs);
    }
  }

  /**
   The findings a cycle acts on are severe enough and come in order of descending score, and no
   severe enough finding that it passes over has a higher score than one that it acts on.
   */
  lemma ActsOnHighest(policy: CasePolicy, settings: PostureSettings, mode: Mode, s: State, t: Tally, scan: Scan, day: int)
    requires mode != Shadow && OnDay(scan.firing, day) && AllFiring(scan.firing)
    requires !Cycle(policy, settings, mode, s, t, scan).raised
    ensures Highest(settings, scan.firing, Cycle(policy, settings, mode, s, t, scan).acted)
  {
    hide Cycle, Sorting.SortBy, EligibleOf, Highest, Descending, ReachesFloor;
    var acted := Cycle(policy, settings, mode, s, t, scan).acted;
    var ranked := EligibleOf(settings, Sorting.SortBy(scan.firing, Priority));
    CycleIsTopK(policy, settings, mode, s, t, scan, day);
    SortedDescends(scan.firing);
    EligibleAre(settings, Sorting.SortBy(scan.firing, Priority));
    BeginningIsHighest(settings, scan.firing, ranked, |acted|);
  }

  // --- and the report says whether the scan was sound ---

  lemma ProcessKeepsHealth(policy: CasePolicy, settings: PostureSettings, mode: Mode, w: World, x: Firing, cycle: string)
    ensures Process(policy, settings, mode, w, x, cycle).report.degraded == w.report.degraded
  {
    hide Gate, ObserveFinding, RequestHandoff, RecordIssue, Rolled, Recorded;
  }

  lemma {:induction false} ProcessAllKeepsHealth(policy: CasePolicy, settings: PostureSettings, mode: Mode, w: World, xs: seq<Firing>, cycle: string)
    ensures ProcessAll(policy, settings, mode, w, xs, cycle).report.degraded == w.report.degraded
    decreases |xs|
  {
    hide Process;
    if xs != [] && !w.raised {
      ProcessKeepsHealth(policy, settings, mode, w, xs[0], cycle);
      ProcessAllKeepsHealth(policy, settings, mode, Process(policy, settings, mode, w, xs[0], cycle), xs[1..], cycle);
    }
  }

  lemma {:induction false} PassingKeepsHealth(policy: CasePolicy, w: World, passing: seq<Passing>, cycle: string)
    ensures ObservePassing(policy, w, passing, cycle).report.degraded == w.report.degraded
    decreases |passing|
  {
    hide ObserveFinding;
    if passing != [] {
      PassingKeepsHealth(policy, LadderRuns.AfterPassing(policy, w, passing[0], cycle), passing[1..], cycle);
    }
  }

  /** In every mode. */
  lemma ReportSaysDegraded(policy: CasePolicy, settings: PostureSettings, mode: Mode, s: State, t: Tally, scan: Scan)
    ensures Cycle(policy, settings, mode, s, t, scan).report.degraded == scan.degraded
    ensures mode == Shadow ==> Cycle(policy, settings, mode, s, t, scan).state == s && Cycle(policy, settings, mode, s, t, scan).tally == t
  {
    hide ObservePassing, ProcessAll, Sorting.SortBy;
    var w := World(s, t, StartReport(scan), [], false);
    PassingKeepsHealth(policy, w, scan.passing, scan.cycle);
    ProcessAllKeepsHealth(policy, settings, mode, ObservePassing(policy, w, scan.passing, scan.cycle), Sorting.SortBy(scan.firing, Priority), scan.cycle);
  }
}
