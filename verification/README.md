# SOC case governance, verified

A Dafny model of the part of the SOC agent that decides what happens to a security case: the
case service, the verifier and the transition policy; the store and its append-only log; the
posture loop with its daily budget and its rollout modes; the verification loop that rereads a
fixed control; the handoff protocol with the engineering loop; the text and token normalisers
that deduplication and reload depend on; and the lead check, which reads BGP neighbours and
route maps out of a running configuration.

## How it is built

The store is a value, `Lifecycle.State`, and each operation of the service and of the verifier is
a function on it. `Runs` lets these operations interleave in any order; the clock, generated ids,
scan results, enrichment and issue links are inputs of each step. An observation also records
whether its scan was healthy; the service is not told, so this is history only. A run is
admissible when generated ids are new, the bound on event payloads leaves handoff ids as they
are, and observed findings went through their constructor. Nothing else is assumed of a run, and
the whole-run theorems are about all of them; the restart theorems add that generated ids and
hashes are tokens (`Restart.PlainRun`).

The classes keep the form of the program: `InMemoryStore` changes its dictionaries in place,
`SecurityCaseService` and `SecurityVerifier` fetch copies, change them field by field, put them
back and append events, `PostureLoop` and `PostureVerificationLoop` loop over findings and cases.
Each method is proved to leave exactly the store that the function of its name describes, and to
have put exactly the records that `WriteLog` lists for it, one by one and in that order; so what
is proved about runs, about what they write to disk and about crashes holds of the classes.
`LadderRuns.CycleIsARun` and `VerificationLoop.SweepIsARun` show that whole cycles and sweeps are
runs too.

| file | content |
|---|---|
| Models, Policy, Lifecycle | records, transition table, what every operation does |
| Runs, Invariants, Preservation, CaseMoves | runs, what every reachable store satisfies, what one step does to one case |
| AllClear, ReachableStores, Audit, Engineering, Callbacks | whole-run theorems |
| Protocol, Keys, Actors, Digest, Firsts | which updates go through and the ordinary way to an all-clear; what a key says; who is named in the trail; a case as a digest of its failures; order of first occurrence |
| ScanHealth, LooseEnds, SeverityTrail | exact conditions of the promises that the code keeps only in part |
| Dicts, CaseStore, CaseService, Verifier, PostureLoops | the classes |
| Listings, DryRun | what the lists of the store and the answers of service and verifier say |
| WriteLog, Playback | the records each operation puts, in order; that a run is what they build up |
| Jsonl, Restart, Lives, Crash | the log behind one dictionary; the six files of a run; runs with restarts in between; a crash inside an operation |
| Ledger, Budget, PostureCycle, LoopBudget, Sorting | gate, daily budget, selection, the budget over whole cycles |
| GateEffects | what the gate grants, and all that a cycle makes of each finding |
| Ladder, LadderRuns | rollout modes |
| VerificationLoop, SweepReports, Progress, Thresholds | rereads and sweeps; what they report and achieve; the objectives' own thresholds |
| Labels, TextContent, LhpTokens, LhpJson, LhpSigning, LhpPayload, LhpHandoff | text and what it keeps, tokens, JSON, signatures, payloads, handoff table |
| ConfigLines, RouteMaps, BgpCheck | the lines of a configuration as shapes of text; route maps, neighbours and the check on them |

## Where the code and its documentation part

The model follows the code. These are the differences found, each with the member that shows it.

- A degraded scan is documented never to help a case resolve (app/cases/policy.py:8-10). The
  verification loop keeps that (`VerificationLoop.DegradedReadNeverHelps`). The posture loop folds
  passing findings of a degraded scan, so a cycle that acts on nothing of a control helps its case
  exactly when the scan holds a passing finding of it, degraded or not (`ScanHealth.CycleHelpsIff`),
  and degraded cycles alone can bring about an all-clear (`ScanHealth.DegradedAllClear`). If no
  degraded pass is folded from some moment on, every resolution rests on the required number of
  healthy passes if and only if the streak up to then holds no degraded pass, or its healthy passes
  and those still owed are enough (`ScanHealth.RestsOnHealthyIff`). The second case exists because
  degraded passes do no harm to a streak that has enough healthy ones beside them. A guard on the
  scan before folding (app/posture/loop.py:104) would keep the promise on all runs
  (`ScanHealth.RefusingDegradedSuffices`).
- Every mutation is documented to append an event (app/cases/service.py:3-7). This holds for the
  status, the counter, the degraded flag, the handoff links, the issue link, the acknowledgement
  and the resolution of a case (`ReachableStores.EventSourcing`). An operation changes cases,
  handoffs, objectives or the inbox without an event in exactly two situations: a request that
  stores its handoff and then raises, and an accepted update that names no stored case
  (`LooseEnds.UnrecordedIff`). What is changed with an event need not be readable from it: the
  severity of a case can be read from its trail if and only if no refresh or reopening in it says
  that the signature changed (`SeverityTrail.SeverityReadableIff`). One that says it did not keeps
  the severity readable, because the signature is a hash over it.
- A request that raises for the status of its case leaves a handoff that no case ever lists
  (`LooseEnds.RaisedRequestLeavesItsHandoff`); a stored handoff is listed by its case, from then on,
  exactly when the request that stored it did not raise (`LooseEnds.HandoffListedIff`).
- A fix reported by engineering is documented to put the case up for verification
  (docs/soc-agent/rollout.md:15-18). It does so exactly from the two statuses of
  `Engineering.EntersVerificationIff`. A case that left the handoff statuses once, for instance by
  being resolved and reopened, never enters them again, because the second request finds the
  first handoff (`Engineering.HandedOffOnceOnly`), and no sweep looks at it again
  (`VerificationLoop.NeverSweptAgain`).
- An update names a handoff and a case independently, and the code does not compare them: with the
  handoff of one case another can be taken into verification
  (`LooseEnds.ForeignUpdateMovesNamedCase`). The events of an accepted update are about the owner of
  its handoff exactly when it names that case or none that is stored (`LooseEnds.UpdateIsAboutOwnerIff`).
- A resolution marks every objective of its case as passed with the case's count, whatever the
  objective asks for. It meets their own thresholds if and only if none asks for more than the
  threshold of the policy, or, if the case was there before and its first signal is a pass, for more
  than one above its count (`Thresholds.ThresholdsMetIff`). With requests that leave the threshold to
  the case it always does (`Thresholds.DefaultThresholdsAreMet`); after a request for one pass more
  it does not (`Thresholds.ThresholdMissed`).
- Scrubbing a label is not idempotent. One application is enough exactly when the text has at most
  one word, or every word that begins before the cut keeps a printable character and the cut does
  not fall just after a blank (`Labels.SanitizeLabelIdempotentIff`). From the second application on
  it is stable; cases are scrubbed twice and so survive a reload.
- Two different event ids can share a token, and then the second is taken for a redelivery. It is if
  and only if both have the same first 180 token characters, an id without any counting as `unknown`
  (`Callbacks.CountedAsSameIff`). Ids collide by dropped characters, by the cut, or as `unknown`
  (`Callbacks.DistinctEventsCanCollide`, `Callbacks.EventsCollideByCut`, `Callbacks.EventsCollideAsUnknown`).
- A reload is not the identity on a fresh handoff: an empty trace id comes back as `unknown`
  (`Jsonl.HandoffSettlesAfterOneReload`). Nothing that the service does later depends on it
  (`Lives.RestartIsTransparent`).
- The daily budget is documented to survive restarts (app/posture/ledger.py:3-6). A restart keeps
  it for its day, on every continuation, if and only if the last charge of that day was saved
  (`Budget.RestartKeepsPromiseIff`), and saving swallows its errors (app/posture/ledger.py:87-88).
  Whatever an investigation costs, a restart that forgets a charge lets the day exceed its count or
  its cost (`Budget.LossyRestartOverspends`, `Budget.FailedSaveForgets`).
- The posture-check page (docs/soc-agent/posture-checks.md:13) says that the route check fails
  when a neighbour lacks all of its protections; the code fails it when either the RPKI or the
  prefix protection is missing (`BgpCheck.CheckRpki`).

## Model

| member | source | states |
|---|---|---|
| AllClear.ResolutionIff | app/cases/policy.py:90-98 | in any admissible run a case becomes resolved at a step if and only if the step is a live verification of it, the last scan signal about it was a passing observation of its control (of a healthy scan or not), and at least the required passes were observed since its last failing observation; history is read from the run alone |
| ScanHealth.CycleCounts | app/posture/loop.py:103-153 | what any live cycle, on a degraded scan or a healthy one, makes of the counter of any unresolved case: zero if it acted on a finding of the control, otherwise one more per passing finding of it |
| ScanHealth.CycleHelpsIff | app/posture/loop.py:103-106 | so a cycle that acts on nothing of a control raises its counter if and only if the scan holds a passing finding of it |
| ScanHealth.RestsOnHealthyIff | app/cases/policy.py:8-10 | after any run: every resolution on every continuation that folds no degraded pass of the control rests on the required number of passes from healthy scans if and only if the streak so far holds no degraded pass, or its healthy passes and those still owed reach that number |
| ScanHealth.RefusingDegradedSuffices | app/posture/loop.py:103-106 | on a run that folds no degraded pass of the control every resolution rests on the required number of healthy passes |
| ScanHealth.DegradedAllClear | app/posture/loop.py:103-106 | for every policy, rollout mode and control: one failure, as many degraded posture cycles as passes are required and a live verification form an admissible run that ends in a resolution without one healthy pass |
| AllClear.RunRemembers | app/cases/service.py:250-286 | over every run the counter of an active case equals the passes since the last failure of its control, and its degraded flag says whether the last scan signal was a degraded note |
| AllClear.PassesThenVerifyResolves | app/cases/verifier.py:41-60 | the converse direction over runs: from every reachable store every unresolved case resolves after enough passing observations and one live verification |
| AllClear.AllClearIsReachable | app/cases/service.py:262-286 | for every policy and control there is an admissible run from the empty store that ends in an all-clear |
| AllClear.ReopensIff | app/cases/service.py:244-272 | a resolved case leaves that status exactly by a failing observation of its own control, and is then triaged, not open |
| AllClear.StaysResolved | app/cases/service.py:280-281 | without such an observation it stays resolved through any continuation, callbacks and operator actions included |
| AllClear.ResolutionsAreSeparated | app/cases/service.py:248-262 | two resolutions of one case have between them a failing observation of its control followed by a full fresh streak of passes |
| Policy.TransitionTargets | app/cases/policy.py:24-84 | who may move a case where, target by target: only the verifier resolves and from any active status, every active case can be escalated, only finished ones open again |
| Policy.WaitingTargets | app/cases/policy.py:24-84 | and the same for blocked, failed, investigating, waiting for approval and context requested |
| Preservation.StepKeepsInv | app/cases/service.py:67-354 | every operation, raising or not, keeps identities, references, resting statuses, stable texts and the audit trail |
| Preservation.Reachable | app/cases/service.py:58-354 | so they hold after every admissible run |
| CaseMoves.StepMoves | app/cases/service.py:67-354 | one operation changes at most the case it is about, exactly as stated; cases are never deleted and new ones come only from failing observations |
| CaseMoves.StatusMoves | app/cases/service.py:167-335 | the status part of that, as a function of the old status and the operation |
| ReachableStores.EventSourcing | app/cases/service.py:337-354 | replaying a case's own events through a step function that knows nothing of the store gives its stored status, counter, flag, links and resolution |
| ReachableStores.SameTrailSameCase | app/cases/store.py:91-97 | two runs that leave equal trails for a case leave it equal in all of these |
| Actors.RunNamesActors | app/cases/service.py:337-354 | over every run the trail names the verifier for resolutions, engineering for updates, the operator for acknowledgements and the loop for the rest |
| Digest.RunTellsFailures | app/cases/service.py:230-264 | over every run the record of a case tells the failing observations of its control: their distinct finding ids, the severity, signature and time of the last, the signature of the one before, the bounded texts and the time of the first |
| Firsts.DistinctAre | app/cases/service.py:263-264 | those ids are exactly the ones that occur, none twice, in the order of their first occurrence |
| Digest.FieldsMove | app/cases/service.py:87-165 | field by field: the identity never changes, and each time, cycle and name is set by its own operations alone |
| Digest.ObservationAnswers | app/cases/service.py:67-85 | an observation answers opened, reopened and changed exactly when the store before it says so |
| Digest.ObservationSubject | app/cases/service.py:236-274 | and the case it answers with is the stored one of the control |
| ReachableStores.RefreshedSeverityIsNotAudited | app/cases/service.py:253-270 | one pair of inputs behind the next row: two refreshing failures that differ in severity and both change the signature append the same event and store different severities |
| SeverityTrail.SeverityReadableIff | app/cases/service.py:247-270 | over all runs whose signatures are a function of control, severity and verdict that tells severities apart: all runs with the same trail of a case agree on its severity if and only if no refresh or reopening in the trail says that the signature changed; until one does, the opening event states the severity |
| LooseEnds.UnrecordedIff | app/cases/service.py:119-221 | an operation on a reachable store changes cases, handoffs, objectives or the inbox without an event if and only if it is a request that stores a handoff on a case pending verification or resolved, or an accepted update that names no stored case |
| ReachableStores.ReferentialIntegrity | app/cases/service.py:128-148 | one case per fingerprint, one handoff per idempotency key, and every handoff link of a case names a stored handoff of that case with exactly one objective |
| ReachableStores.CasesAtRest | app/cases/policy.py:24-48 | between operations a case has one of eight statuses, and one with engineering has a handoff |
| ReachableStores.StoredCasesAreStable | app/cases/models.py:391-397 | every case of every reachable store passes its validator unchanged |
| Playback.StepIsItsWrites | app/cases/service.py:67-354 | every operation, raising or not, leaves exactly what its writes build up: both records of an opened or reopened case, handoff and objectives before the case, the inbox record last, the event of a resolution after its objectives |
| Playback.RunIsItsLog | app/cases/store.py:80-151 | so the store after any run is its log of writes, played from the empty store |
| Restart.RunWrites | app/cases/store.py:186-213 | the store after any run is exactly what the six files hold when each write of the run, in source order, went to the end of the file of its kind |
| Restart.RestartKeepsCases | app/cases/store.py:172-174 | reloading the case file that any run has written gives its case dictionary back, order included |
| Restart.StepWritesPlain | app/cases/models.py:391-397 | every record that an operation writes survives its validator up to trace ids and one more bounding of texts |
| Lives.RestartGivesBack | app/cases/store.py:172-184 | loading the files of any run gives back cases, objectives and inbox exactly, order included, handoffs up to their trace ids, and findings and events up to one more bounding of their texts |
| Lives.RestartIsTransparent | app/cases/store.py:172-213 | with any number of restarts anywhere between the operations of a run the store stays alike in that sense to the one without them, the same operations are admissible next, and each raises exactly when it raises without |
| Crash.CrashLeavesBehind | app/cases/store.py:186-213 | wherever a crash cuts the writes of a run: one case per fingerprint, one handoff per key, every link of a case and every objective resolves, at most one handoff lacks its objective, and the trail tells every case as stored or lacks only the one event that was to be written next |
| Crash.CrashReadsBack | app/cases/store.py:172-184 | a new process reads back exactly that cut, up to trace ids and one more bounding of texts |
| Engineering.RequestRaisesIff | app/cases/service.py:119-141 | on a reachable store a request raises exactly for a blank required text, or for a case pending verification or resolved that has no handoff under the key |
| LooseEnds.RaisedRequestLeavesItsHandoff | app/cases/service.py:128-140 | when a request raises for the status, its handoff is stored without an event, the repeated request finds it and succeeds, and neither then nor on any continuation does a case list it |
| LooseEnds.HandoffListedIff | app/cases/service.py:136-148 | a handoff that a request stores is listed by its case, then and on every continuation, if and only if that request did not raise |
| Engineering.DisciplinedRequestsSucceed | app/cases/service.py:119-154 | on runs whose objective key is a function of the fingerprint, a well-formed request on a case that is not resolved never raises |
| Engineering.HandedOffOnceOnly | app/cases/service.py:128-132 | on such runs a case that left the handoff statuses never enters one again |
| Engineering.CallbackEffect | app/cases/service.py:193-199 | where each update leaves a case at rest: the status map, the override for applied changes and the transition table put together |
| Protocol.UpdateSucceedsIff | app/cases/service.py:182-221 | an update new to the inbox under a stored handoff succeeds if and only if the old status is one of those listed for the reported one, target by target; the handoff then has that status, the answer and the inbox hold what it led to, and otherwise nothing changes |
| Protocol.UpdateAnswers | app/cases/service.py:172-221 | an update that goes through, new or redelivered, answers with its handoff and its case as they are stored after it and says which of the two it was |
| Protocol.DeliverySucceedsIff | app/lhp.py:329-385 | an update as it arrives goes through if and only if its four ids say something, only the NOC reports the verifier's statuses, and it is a redelivery or may follow the status of a stored handoff |
| Protocol.OrdinaryWayWorks | app/lhp.py:64-79 | for every control that can be handed off: failure, request, accepted, in progress and implemented raise nowhere, leave the handoff implemented and the case pending verification, and as many healthy rereads as the policy asks for resolve it |
| Engineering.EntersVerificationIff | app/cases/service.py:182-199 | an update moves a case into verification exactly when it is accepted, names the case, says applied or implemented, and finds it requested or in progress |
| LooseEnds.ForeignUpdateMovesNamedCase | app/cases/service.py:182-199 | with a handoff just requested for one case, for every other case that is requested or in progress there is an accepted update that takes it into verification while the owner of the handoff stays as it was |
| LooseEnds.UpdateIsAboutOwnerIff | app/cases/service.py:182-207 | the events of an accepted update are about the owner of its handoff if and only if it names that case, or none that is stored |
| Engineering.NeverVerified | app/lhp.py:210-220 | over all runs no handoff becomes verified or resolved |
| Engineering.ProtocolIsOneWay | app/lhp.py:64-79 | cancelled and expired are absorbing and requested is never entered again, on every continuation |
| Engineering.ImplementedAfterInProgress | app/lhp.py:64-79 | a handoff is change-planned or implemented only after it was in progress |
| Callbacks.EssentialRunAgrees | app/cases/service.py:172-189 | deleting every redelivered or rejected update from a run leaves the whole store identical |
| Callbacks.AcceptedExactlyOnce | app/cases/service.py:172-219 | over any run an event token is accepted exactly once if it is in the inbox, and never otherwise |
| Callbacks.RedeliveriesAreQuiet | app/cases/service.py:172-180 | after an acceptance every later update with the same token changes nothing, whatever happened in between |
| Callbacks.CountedAsSameIff | app/cases/service.py:172-180 | after an accepted update and any continuation that accepts none under the same token as a later one, that later one, well formed and new to the inbox before, is answered as a duplicate if and only if the two raw ids have the same first 180 token characters, an id without any counting as `unknown` |
| Callbacks.DistinctEventsCanCollide | app/lhp.py:116-119 | a family that collides: ids that differ by any run of characters outside the token alphabet, at any place |
| Callbacks.EventsCollideByCut | app/lhp.py:116-119 | a second: ids that differ only behind 180 token characters |
| Callbacks.EventsCollideAsUnknown | app/lhp.py:116-119 | a third: ids without token characters, and the id `unknown` |
| CaseService.SecurityCaseService.ObserveFinding | app/cases/service.py:67-85 | the method leaves the store, puts the records in the order, and returns the result that the functions say |
| CaseService.SecurityCaseService.RecordFailing | app/cases/service.py:225-274 | the same for opening, refreshing and reopening, with the nested move to triaged |
| CaseService.SecurityCaseService.RecordPassing | app/cases/service.py:276-294 | the same for a positive recheck, and nothing for a finished case |
| CaseService.SecurityCaseService.NoteScanDegraded | app/cases/service.py:87-98 | the same for a degraded scan, which leaves the counter alone |
| CaseService.SecurityCaseService.Transition | app/cases/service.py:315-335 | the same for the plain moves, refusals included |
| CaseService.SecurityCaseService.RequestHandoff | app/cases/service.py:119-154 | the same for handoff requests: reuse by key, store before check, raise, link |
| CaseService.SecurityCaseService.RecordEngineeringUpdate | app/cases/service.py:167-221 | the same for callbacks: duplicate, unknown handoff, refused transition, missing case, override |
| CaseService.SecurityCaseService.Acknowledge | app/cases/service.py:108-117 | the same for acknowledgements |
| CaseService.SecurityCaseService.RecordIssue | app/cases/service.py:156-165 | the same for issue links |
| Verifier.SecurityVerifier.VerifyCase | app/cases/verifier.py:41-83 | the loop over the case's objectives, oldest first, ends in the store of the lifecycle function: all objectives of the case passed and no other touched; the case is put first and the event last |
| Verifier.PassEachIsPassObjectives | app/cases/verifier.py:63-67 | marking a case's listed objectives one by one in creation order marks exactly the objectives of the case |
| DryRun.WouldResolveIff | app/cases/verifier.py:41-60 | for any settings and stored case the answer says would-resolve if and only if the same call with resolving switched on would move the case to resolved, and resolved if and only if this call did; a call that is not live leaves the store equal |
| DryRun.WouldResolveOverRuns | app/cases/policy.py:90-98 | over every run it says so, live or not, if and only if the case is unresolved, its last scan signal was a pass and the streak read from the actions reaches the threshold |
| DryRun.ResolutionMarks | app/cases/verifier.py:62-67 | a call that resolves marks every objective of the case and no other as passed, with the count of the case and checked now, and touches nothing else but the case and the trail |
| CaseStore.InMemoryStore.GetCaseByFingerprint | app/cases/store.py:71-78 | the scan finds the first case in insertion order, and nothing for an empty fingerprint |
| CaseStore.InMemoryStore.GetHandoffByIdempotencyKey | app/cases/store.py:117-124 | the same for handoffs by key |
| CaseStore.InMemoryStore.ListCases | app/cases/store.py:84-89 | all cases or those of one status, stably sorted by opening time |
| CaseStore.InMemoryStore.ListObjectives | app/cases/store.py:130-139 | the objectives of a handoff or a case, stably sorted by creation time |
| Listings.ListedObjectives | app/cases/store.py:130-139 | an objective is in a list if and only if it is stored, of the given handoff if one is given and of the given case if one is given, each once, oldest first |
| Listings.ListOfHandoff | app/cases/service.py:131-134 | on every reachable store the list of a stored handoff is its one objective, of the handoff's own case |
| Listings.RepeatedRequest | app/cases/service.py:130-134 | so a request whose key is taken answers with the stored handoff and that one objective, and leaves the store equal |
| Listings.RequestAnswers | app/cases/service.py:119-155 | any request of any run that does not raise answers with the handoff of its key and that one objective as they are stored after it, and with nothing exactly when the case is not stored |
| Listings.MoveAnswers | app/cases/service.py:315-333 | a plain move answers with nothing, raises, or answers with the case as stored after it, exactly when the case is not stored, may not move there, or may |
| Listings.ListedCases | app/cases/store.py:84-89 | a case is in a list if and only if it is stored and has the given status if one is given, each once, oldest first |
| Keys.KeyReads | app/cases/models.py:264-264 | for plain texts the idempotency key reads case, engineering, objective and version, uncut |
| Keys.KeyNamesCase | app/cases/models.py:264-264 | keys of different cases differ, whatever their findings |
| CaseStore.InMemoryStore.ListEvents | app/cases/store.py:95-97 | the events of one case in order |
| CaseStore.InMemoryStore.PutCase | app/cases/store.py:80-82 | the last write of an id wins and keeps its place |
| Sorting.SortMeaning | app/cases/store.py:89-89 | the library sort: ordered and a permutation |
| Sorting.SortIsStable | app/posture/loop.py:109-109 | items with equal keys keep their order |
| Jsonl.ReloadMeaning | app/cases/store.py:172-229 | reloading what was written gives the in-memory dictionary, order included, with every record re-validated |
| Jsonl.ReloadExactIff | app/cases/store.py:172-229 | it gives exactly that dictionary if and only if every surviving record is stable under re-validation |
| Jsonl.RememberOrder | app/cases/store.py:172-184 | that dictionary is in the order of the first write under every id |
| Jsonl.RememberHolds | app/cases/store.py:172-184 | and holds the last |
| Jsonl.CrashRecoversPrefix | app/cases/store.py:215-229 | losing any suffix of whole lines, with any unreadable rest, recovers exactly the state after a prefix of the writes |
| Jsonl.TornTailSwallowsOneWrite | app/cases/store.py:186-188 | after an unterminated tail the next load misses exactly the first later write |
| Jsonl.JsonlTable.Put | app/cases/store.py:186-213 | a write goes to memory and file, and memory and a reload keep agreeing unless the tail was torn |
| Jsonl.JsonlTable.Open | app/cases/store.py:172-184 | opening reads the file line by line into the last-write-wins dictionary |
| Jsonl.HandoffSettlesAfterOneReload | app/lhp.py:290-304 | a fresh handoff changes on its first reload and never again; key and status are kept |
| Ledger.DailyBudgetSafe | app/posture/ledger.py:30-88 | with a forward clock and no restart that loses count, no day ever sees more recorded findings or cost than allowed, across cycles, day changes between check and record, and restarts |
| Budget.RestartKeepsPromiseIff | app/posture/ledger.py:30-88 | after any run without a loss so far, one more restart keeps its day within budget on every continuation if and only if the last charge of that day was saved; a failed save leaves the old file or an unreadable one |
| Budget.NothingLostIff | app/posture/ledger.py:30-44 | a restart reloads every charge of its day if and only if the last one was saved |
| LoopBudget.LoopBudgetSafe | app/posture/loop.py:75-168 | the budget over whole lives of the loop: any sequence of cycles, restarts and other changes to the store |
| LoopBudget.BooksAreTheLoops | app/posture/loop.py:110-132 | the charges counted there are those of the cycles: after each cycle the books hold the ledger it left, with one charge per finding it acted on |
| Budget.SavedBudgetSafe | app/posture/ledger.py:62-88 | in particular when every save succeeds, because then no restart loses anything |
| Budget.LossyRestartOverspends | app/posture/ledger.py:30-44 | for any cost per investigation: after a restart whose ledger lacks at least one charge of its day, as many firing findings as it still allows bring the day over its count or its cost |
| Budget.FailedSaveForgets | app/posture/ledger.py:79-88 | one swallowed save error that leaves no readable file and a restart do that, for every budget that allows a finding at all |
| Ledger.EvaluateGate | app/posture/governance.py:27-62 | the decision cascade and its effect on the ledger, with the two budget questions possibly on different days |
| GateEffects.GateGrantsIff | app/posture/governance.py:27-62 | the decision field by field: what acts, what builds and what posts a handoff, and the first ground for refusing |
| GateEffects.ReadyIff | app/cases/models.py:239-283 | a handoff can be built if and only if title, else summary, objective key if any, and objective type say something |
| GateEffects.CycleEffects | app/posture/loop.py:109-166 | for every finding of every cycle of the three live modes, until one raises: the loop acts on it if and only if it passes the gate within the cap; a handoff and its objective are stored for the case of the control if and only if the mode is an upper one, the finding warrants it, handoffs are enabled, its severity is HIGH, its texts say something and no handoff has the key, and they carry the keys, the type and the threshold meant for them; the issue is linked if and only if in addition the mode is live, one was opened and nothing raised; and every counter of the report moves accordingly |
| GateEffects.DisabledHandsNothingOff | app/posture/governance.py:51-53 | with handoffs disabled no cycle of any mode stores a handoff or an objective, opens an issue, or raises |
| GateEffects.ActsOnHighest | app/posture/loop.py:109-109 | the findings acted on come by descending score, and none severe enough that was passed over has a higher one |
| GateEffects.ReportSaysDegraded | app/posture/loop.py:84-101 | in every mode the report says degraded exactly when the scan was, and in shadow mode the store and the ledger stay as they are |
| Ledger.DailyLedger.Load | app/posture/ledger.py:30-44 | a state file counts only on its own day |
| Ledger.DailyLedger.RecordFinding | app/posture/ledger.py:62-66 | rolls the day, charges once, saves the result |
| Ledger.DailyLedger.FindingsRemaining | app/posture/ledger.py:54-56 | rolls the day and answers with the rest of the count, never negative |
| Ledger.DailyLedger.WithinCostBudget | app/posture/ledger.py:58-60 | rolls the day and compares; a negative cost counts as nothing |
| Ledger.DailyLedger.Probe | app/posture/ledger.py:68-71 | counts probes of a host since the day began |
| PostureCycle.CycleIsTopK | app/posture/loop.py:103-144 | a cycle within one day, whatever day its ledger was last used on, acts on exactly the first k eligible firing findings by descending score, ties in scan order, and gated, deferred, opened and refreshed add up to firing |
| PostureCycle.QuotaIsLeast | app/posture/governance.py:41-48 | that k is bounded by the cycle cap, the remaining count and the cost budget, and stops short only at one of them |
| PostureCycle.CycleLedger | app/posture/loop.py:110-132 | the ledger after a cycle is that of its gate and record operations, one charge per finding acted on |
| PostureLoops.PostureLoop.RunOnce | app/posture/loop.py:75-168 | the two loops leave the store, ledger, state file and report that the cycle function says, and shadow mode writes nothing |
| PostureLoops.PostureLoop.Handle | app/posture/loop.py:109-166 | the body for one firing finding: gate, defer, observe, charge, hand off, link |
| PostureLoops.PostureLoop.HandOff | app/posture/loop.py:155-165 | the handoff step: a raised request ends the cycle, an issue is linked only when posting is allowed and one was opened |
| LadderRuns.ModeLadder | app/posture/loop.py:103-166 | from an empty store, with the same cycles, rereads, verifier steps and callbacks: no cycle raises on any rung; on case_only every callback raises, and on the two upper rungs each raises on both or on neither; all rungs end with equal ledgers and with stores and reports equal up to handoff data, the upper two up to issue links; case_only holds no handoff data and handoff_dry no issue link |
| LadderRuns.SameCoreMeans | app/config.py:157-169 | equal up to handoff data means: same cases, fingerprints, counters, degraded flags and resolved-or-active |
| LadderRuns.CycleIsARun | app/posture/loop.py:103-166 | a cycle is a run of observations, requests and issue links, with no verifier step |
| LadderRuns.ProcessGood | app/posture/loop.py:146-166 | the handoff step after a failing observation never raises on loop-driven stores |
| Ladder.UpdateInvisible | app/cases/service.py:167-221 | a callback moves no case into or out of resolved and touches no counter, flag or other event |
| Ladder.RequestInvisible | app/cases/service.py:119-154 | the same of a handoff request, raising or not |
| Progress.VerificationProgress | app/posture/verification.py:57-90 | with a live verifier a verifiable case is resolved after some rereads exactly when one of them was a healthy pass that brought the counter to the threshold; otherwise it keeps its status and count; once resolved its count is the threshold, or one more than at the start if it began at the threshold with a pass, and all its objectives are passed with exactly that count, their own thresholds unchanged |
| Progress.ResolvesOnNthPass | app/posture/verification.py:66-90 | from count zero without a failing sight the counter is the number of healthy passes |
| Progress.ResolvesOnNthHealthyRead | app/posture/verification.py:57-90 | so in the store that the loop leaves, a case at count zero whose rereads show no failure is resolved if and only if at least N of them were healthy passes, however many degraded or absent reads lie between |
| Thresholds.ThresholdsMetIff | app/cases/verifier.py:62-67 | when the loop resolves a case, all its objectives meet their own thresholds if and only if none asks for more than the final count, which from a count below the threshold of the policy is that threshold |
| Thresholds.DefaultThresholdsAreMet | app/cases/verifier.py:62-67 | on runs whose requests leave the threshold to the case they always do |
| Thresholds.ThresholdMissed | app/cases/verifier.py:62-67 | for every control that can be handed off: an admissible run with a request for one pass more than the policy asks for and an applied update, after which as many healthy rereads as the policy asks for resolve the case with an objective passed below its own threshold |
| VerificationLoop.DegradedReadNeverHelps | app/posture/verification.py:78-82 | a degraded read keeps the count and closes the resolution gate |
| VerificationLoop.SweepIsIndependent | app/posture/verification.py:50-55 | a sweep rereads every verifiable case of its snapshot by its own reading, in whatever order, moves no other case and opens none |
| VerificationLoop.SweepReportsResolutions | app/posture/verification.py:84-90 | its report lists a case as resolved exactly when the sweep moved it there |
| SweepReports.SweepReportIs | app/posture/verification.py:50-90 | the whole report: how many were checked, and the lists of skipped, degraded, still failing and resolved, each in the order of the cases and exactly by what the reading of each case pending verification or in progress says |
| VerificationLoop.SweepIsARun | app/posture/verification.py:66-90 | a sweep is a run of observations, degraded notes and verifier steps |
| VerificationLoop.NeverSweptAgain | app/posture/verification.py:22-23 | a case that left the handoff statuses is passed over by every later sweep |
| PostureLoops.PostureVerificationLoop.RunOnce | app/posture/verification.py:50-55 | the loop over the snapshot leaves the store and report of the sweep function |
| PostureLoops.PostureVerificationLoop.VerifyCaseNow | app/posture/verification.py:57-64 | the single check after a callback |
| PostureLoops.PostureVerificationLoop.VerifyCase | app/posture/verification.py:66-90 | skip, degraded, resolved, still failing |
| Labels.SanitizeLabelStabilises | app/cases/models.py:94-101 | applied three times equals applied twice |
| Labels.SanitizeLabelIdempotentIff | app/cases/models.py:94-101 | one application is enough exactly when the text has at most one word, or every word that begins before the cut keeps a printable character and the cut does not fall just after a blank |
| Labels.SanitizeLabelNotIdempotent | app/cases/models.py:99-101 | a family that fails by the first cause: a word without a printable character leaves two blanks |
| Labels.SanitizeLabelNotIdempotentExample | app/cases/models.py:99-101 | one text of that family |
| Labels.SanitizeLabelCutAfterBlank | app/cases/models.py:101-101 | a family that fails by the second: the cut just after a blank leaves that blank at the end |
| TextContent.LabelShows | app/cases/models.py:94-101 | a label shows the printable characters of its text in order up to the cut, and loses none unless it is cut |
| TextContent.HandoffTextCarries | app/lhp.py:134-147 | a handoff text carries every character that is neither blank nor blocked, in order up to the cut |
| TextContent.EmptyBecomesDash | app/lhp.py:147-147 | a text with no such character becomes a dash |
| TextContent.PayloadTextCarries | app/lhp.py:150-182 | so do the texts of a payload, values of no known kind, and whatever lies below the last level |
| TextContent.EventTextShows | app/cases/models.py:440-458 | a text of an event payload keeps every printable character of its source unless it fills its four hundred |
| TextContent.FindingTextsShow | app/cases/models.py:213-221 | title, resource and summary of a finding keep every printable character of their sources unless they fill 200, 120 and 600 |
| Models.CaseFromScrubbedFindingIsStable | app/cases/service.py:296-313 | the texts of a case built from a scrubbed finding survive every reload |
| LhpTokens.TokenShape | app/lhp.py:116-119 | a token is nonempty, short and of token characters |
| LhpTokens.TokenFixedIff | app/lhp.py:116-119 | sanitising leaves a text alone exactly when it has that shape |
| LhpTokens.TokenIdempotent | app/lhp.py:116-125 | so the stored key and the looked-up key agree |
| LhpTokens.TokensCollide | app/lhp.py:116-119 | the family of dropped characters, at any place |
| LhpTokens.TokensCollideIff | app/lhp.py:116-119 | two texts share a token if and only if their token characters agree up to the limit, a text without any counting as `unknown` |
| LhpTokens.TokensCollideByCut | app/lhp.py:116-119 | the family of the cut |
| LhpTokens.TokensCollideAsUnknown | app/lhp.py:116-119 | the family without token characters |
| LhpJson.ReadRender | app/lhp.py:96-99 | compact JSON reads back as the value it was written for, whatever follows it: every text, number, list and mapping |
| LhpJson.EscapeRoundTrip | app/lhp.py:96-99 | an escaped text reads, up to its closing quote, as the text |
| LhpJson.RenderInjective | app/lhp.py:96-99 | so two values are written alike if and only if they are equal |
| LhpJson.RenderIsOneLine | app/lhp.py:96-99 | and what is written holds no raw line feed |
| LhpSigning.SignedMessageDecodes | app/lhp.py:185-198 | the signed message determines method token, path, timestamp token and canonical body, even when the path has line feeds |
| LhpSigning.SignedMessagesAgreeIff | app/lhp.py:185-198 | two requests are signed alike if and only if their method tokens, paths, timestamp tokens and JSON values agree |
| LhpSigning.MethodCaseIsDropped | app/lhp.py:189-196 | requests whose ASCII methods differ only in the case of letters are signed alike |
| LhpPayload.SanitizePayload | app/lhp.py:150-182 | the recursive sanitiser, proved against its function |
| LhpPayload.FillMapping | app/lhp.py:171-180 | the loop that fills a mapping, later keys overwriting earlier ones that sanitise alike |
| LhpPayload.SanitizeBounds | app/lhp.py:150-182 | for every tree: at most the given container levels, 50 items, 100 entries, distinct keys of at most 80 characters of the token alphabet without any of the six markers |
| LhpPayload.SafeTextIsClean | app/lhp.py:134-147 | every sanitised text is nonempty, on one line, within its limit and free of blocked characters |
| LhpPayload.SanitizeWrites | app/lhp.py:150-182 | a payload within the bounds loses nothing: it comes out with models replaced by their dumps, each for one level, and dates by their texts |
| LhpPayload.SanitizeKeepsBounded | app/lhp.py:150-182 | without models and dates it passes through untouched |
| LhpPayload.ItemsKept | app/lhp.py:166-170 | a list keeps its first fifty items, each with one level less |
| LhpPayload.MappingKept | app/lhp.py:171-181 | a mapping keeps, of its first hundred entries, for every sanitised key the last value under it |
| LhpPayload.MappingInOrder | app/lhp.py:171-181 | and its keys come in the order in which they first occur |
| RouteMaps.ParseRouteMaps | app/posture/scanner.py:134-149 | the line automaton collects for each map exactly the lines that follow a header of it with only indented non-header lines between |
| RouteMaps.BelongsIff | app/posture/scanner.py:138-149 | that meaning, one line at a time |
| RouteMaps.RejectsIff | app/posture/scanner.py:152-160 | a map that the parser collected rejects exactly when some line that belongs to it mentions RPKI |
| ConfigLines.RemoteAsIff | app/posture/scanner.py:112-112 | the reader accepts exactly blanks, `neighbor`, a word, `remote-as` and digits, with the value they spell |
| ConfigLines.InboundMapIff | app/posture/scanner.py:113-113 | exactly blanks, `neighbor`, a word, `route-map`, a word and `in`, with nothing of a word after it |
| ConfigLines.MaxPrefixIff | app/posture/scanner.py:114-114 | exactly blanks, `neighbor`, a word and `maximum-prefix`, with nothing of a word after it |
| ConfigLines.RouterBgpIff | app/posture/scanner.py:111-111 | exactly blanks, `router bgp` and digits |
| ConfigLines.HeaderIff | app/posture/scanner.py:115-115 | exactly blanks, `route-map`, a word, `permit` or `deny` and a digit |
| ConfigLines.MentionsRpkiIff | app/posture/scanner.py:152-154 | an ASCII text mentions RPKI exactly when it holds the four letters side by side in any case |
| ConfigLines.StripKeeps | app/posture/scanner.py:146-146 | stripping takes whitespace off both ends and nothing else |
| BgpCheck.OwnAsIff | app/posture/scanner.py:119-122 | the router's own number is that of its first `router bgp` line, or the fallback if there is none or it is 0 |
| BgpCheck.ParseNeighbors | app/posture/scanner.py:118-131 | the three passes leave every neighbour of some `remote-as` line, in the order of their first, with the number of its last, its last inbound map if any, and whether some line caps it, all as shapes of text |
| BgpCheck.CheckRpki | app/posture/scanner.py:171-205 | one router: there is a finding exactly when some neighbour is external by its last `remote-as` line; it passes exactly when each of these has a `maximum-prefix` line and an active cache or, by its last inbound `route-map` line, a map with a line about RPKI; otherwise it names exactly the others in the order of the configuration; lines are shapes of text, not readers |

## Left out

- Tool calls, issue creation and the HTTP interface (app/main.py, app/posture/handoff.py): scan reports, issue urls and stamps are inputs of the model.
- Enrichment by the agent graph: an arbitrary finding that keeps check, identity, verdict and objective key.
- The other posture checks: the scan reports they produce are inputs.
- Whether the validator cache is active, which the program reads from a second command: an input of the route check.
- Splitting the configuration into lines, which the program does at line feeds in one place and at every line boundary in another: the model takes the lines.
- Lives.RestartIsTransparent: restarts come between operations; a run is not continued after a crash inside one.
- Crash.CrashLeavesBehind: the process dies and what it has appended stays; a system that loses whole lines is considered file by file (`Jsonl.CrashRecoversPrefix`).
- LooseEnds.UnrecordedIff: the findings table is not counted, because every observation stores its finding and one that passes for no case appends nothing.
- SeverityTrail.SeverityReadableIff: signatures are an arbitrary function of control, severity and verdict that tells severities apart, not a hash.
- Private insight records, shadow-mode listings and trace envelopes: output without effect on the store.
- Red-team validation, allowlists and settings parsing: small membership checks.
- Secret redaction by regular expressions, SHA-256 and HMAC: arbitrary functions or arbitrary strings.
- Case fields that nothing here reads (category, control domain, confidence, techniques, origin, site): carried by the program, absent from the records.
- Budget.RestartKeepsPromiseIff: a failed save leaves the old file or an unreadable one; a write that fails after the last byte counts as saved.
- Locks and several processes on one directory: operations happen one at a time.
- Writes torn in the middle of a line: a line is blank, unparsable or a record, and a file may end in an unterminated unparsable tail.
- Several clock readings within one operation: one reading serves the whole operation, except for the three days a finding's gate and charge may see.
- Rounding of costs and scores: they are reals.
- The order of JSON members: `Render` takes members in the order given, which the program sorts.
- Characters outside ASCII: which are printable, letters, digits or have a lower case is an arbitrary set or map.
- The free texts of the trail are compared up to the bound that event payloads cut them to, and the finding ids of a case are not part of it.
- Callback payloads and hashes: the inbox record keeps ids and the two statuses.
- Hosts of a cycle: the cap on scanned hosts is not modelled, since the scan is an input.
- `closed`, `context_requested`, `investigating` and `waiting_approval` are in the transition table, but no operation of the service leads to them.
