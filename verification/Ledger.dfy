/**
 The daily budget (app/posture/ledger.py) and the gate that consults it (app/posture/governance.py).
 Days are numbered; every reading of the clock is an argument.
 */
module Ledger {
  import opened Wrappers
  import opened Models

  /** What the ledger counts, in memory or in its state file. */
  datatype Tally = Tally(day: int, acted: nat, cost: real)

  function Charge(cost: real): real {
    if cost < 0.0 then 0.0 else cost
  }

  function Rolled(t: Tally, today: int): Tally {
    if today == t.day then t else Tally(today, 0, 0.0)
  }

  function Remaining(t: Tally, maxPerDay: int): nat {
    if maxPerDay <= t.acted then 0 else maxPerDay - t.acted
  }

  predicate FitsCost(t: Tally, next: real, maxCost: real) {
    t.cost + Charge(next) <= maxCost
  }

  function Recorded(t: Tally, cost: real): Tally {
    t.(acted := t.acted + 1, cost := t.cost + Charge(cost))
  }

  /** Whether saving the ledger worked. Its errors are swallowed, and then the state file is whatever it is. */
  datatype Save = Saved | Unsaved(leaves: Option<Tally>)

  function FileAfter(save: Save, t: Tally): Option<Tally> {
    match save
    case Saved => Some(t)
    case Unsaved(leaves) => leaves
  }

  function Restored(file: Option<Tally>, today: int): Tally {
    if file.Some? && file.value.day == today then file.value else Tally(today, 0, 0.0)
  }

  class DailyLedger {
    var day: int
    var findingsActed: nat
    var costUsd: real
    var probes: map<string, nat>
    var file: Option<Tally>      // the state file's content
    const persistent: bool       // whether there is a state file

    ghost function View(): Tally
      reads this
    {
      Tally(day, findingsActed, costUsd)
    }

    constructor Load(file: Option<Tally>, persistent: bool, today: int)
      ensures View() == if persistent then Restored(file, today) else Tally(today, 0, 0.0)
      ensures this.file == file && this.persistent == persistent && probes == map[]
    {
      this.file, this.persistent, probes := file, persistent, map[];
      day, findingsActed, costUsd := today, 0, 0.0;
      if persistent && file.Some? && file.value.day == today {
        findingsActed, costUsd := file.value.acted, file.value.cost;
      }
    }

    method RollDay(today: int)
      modifies this
      ensures View() == Rolled(old(View()), today) && file == old(file)
      ensures probes == if today == old(day) then old(probes) else map[]
    {
      if today != day {
        day, findingsActed, costUsd, probes := today, 0, 0.0, map[];
      }
    }

    method FindingsRemaining(maxPerDay: int, today: int) returns (n: nat)
      modifies this
      ensures View() == Rolled(old(View()), today) && file == old(file)
      ensures n == Remaining(View(), maxPerDay)
    {
      RollDay(today);
      n := if maxPerDay - findingsActed < 0 then 0 else maxPerDay - findingsActed;
    }

    method WithinCostBudget(next: real, maxCost: real, today: int) returns (fits: bool)
      modifies this
      ensures View() == Rolled(old(View()), today) && file == old(file)
      ensures fits <==> FitsCost(View(), next, maxCost)
    {
      RollDay(today);
      fits := costUsd + Charge(next) <= maxCost;
    }

    method RecordFinding(cost: real, today: int, save: Save)
      modifies this
      ensures View() == Recorded(Rolled(old(View()), today), cost)
      ensures file == if persistent then FileAfter(save, View()) else old(file)
    {
      RollDay(today);
      findingsActed := findingsActed + 1;
      costUsd := costUsd + Charge(cost);
      if persistent {
        file := FileAfter(save, Tally(day, findingsActed, costUsd));
      }
    }

    method Probe(host: string, today: int) returns (n: nat)
      modifies this
      ensures View() == Rolled(old(View()), today) && file == old(file)
      ensures n == 1 + if today == old(day) && host in old(probes) then old(probes)[host] else 0
      ensures probes == (if today == old(day) then old(probes) else map[])[host := n]
    {
      RollDay(today);
      n := 1 + if host in probes then probes[host] else 0;
      probes := probes[host := n];
    }
  }

  // --- the gate ---

  datatype Mode = Shadow | CaseOnly | HandoffDry | HandoffLive

  predicate OpensCases(mode: Mode) {
    mode != Shadow
  }

  predicate BuildsHandoff(mode: Mode) {
    mode == HandoffDry || mode == HandoffLive
  }

  predicate PostsHandoff(mode: Mode) {
    mode == HandoffLive
  }

  datatype PostureSettings = PostureSettings(
    severityFloor: Severity, maxPerDay: int, maxCost: real, costEach: real, maxPerCycle: int, handoffEnabled: bool)

  datatype Reason = NotFiring | ShadowMode | BelowFloor | FindingsExhausted | CostExhausted | GatedOk

  datatype Decision = Decision(act: bool, openCase: bool, buildHandoff: bool, postHandoff: bool, reason: Reason)

  function Refused(reason: Reason): Decision {
    Decision(false, false, false, false, reason)
  }

  function Granted(f: Finding, mode: Mode, settings: PostureSettings): Decision {
    var eligible := f.warrantsHandoff && settings.handoffEnabled && f.severity == HIGH;
    Decision(true, OpensCases(mode), eligible && BuildsHandoff(mode), eligible && PostsHandoff(mode), GatedOk)
  }

  /** The decision and the ledger after it; the two budget questions may fall on different days. */
  function Gate(f: Finding, mode: Mode, settings: PostureSettings, t: Tally, countDay: int, costDay: int): (Decision, Tally) {
    if f.passed then (Refused(NotFiring), t)
    else if mode == Shadow then (Refused(ShadowMode), t)
    else if SeverityRank(f.severity) < SeverityRank(settings.severityFloor) then (Refused(BelowFloor), t)
    else
      var t1 := Rolled(t, countDay);
      if Remaining(t1, settings.maxPerDay) == 0 then (Refused(FindingsExhausted), t1)
      else
        var t2 := Rolled(t1, costDay);
        if !FitsCost(t2, settings.costEach, settings.maxCost) then (Refused(CostExhausted), t2)
        else (Granted(f, mode, settings), t2)
  }

  method EvaluateGate(f: Finding, mode: Mode, settings: PostureSettings, ledger: DailyLedger, countDay: int, costDay: int)
    returns (d: Decision)
    modifies ledger
    ensures (d, ledger.View()) == Gate(f, mode, settings, old(ledger.View()), countDay, costDay)
    ensures ledger.file == old(ledger.file)
  {
    if f.passed {
      return Refused(NotFiring);
    }
    if mode == Shadow {
      return Refused(ShadowMode);
    }
    if SeverityRank(f.severity) < SeverityRank(settings.severityFloor) {
      return Refused(BelowFloor);
    }
    var remaining := ledger.FindingsRemaining(settings.maxPerDay, countDay);
    if remaining <= 0 {
      return Refused(FindingsExhausted);
    }
    var fits := ledger.WithinCostBudget(settings.costEach, settings.maxCost, costDay);
    if !fits {
      return Refused(CostExhausted);
    }
    d := Granted(f, mode, settings);
  }

  // --- budget safety over days, cycles and restarts ---

  /** What the process does with the ledger: consider a finding (gate, then record unless the
      cycle cap defers it), or restart. */
  datatype LedgerOp =
    | Consider(finding: Finding, countDay: int, costDay: int, recordDay: int, deferred: bool, save: Save)
    | Restart(today: int)

  datatype Entry = Entry(day: int, cost: real)

  /** The ledger, its file, and every charge ever recorded. */
  datatype Books = Books(tally: Tally, file: Option<Tally>, charges: seq<Entry>)

  function Apply(settings: PostureSettings, mode: Mode, b: Books, op: LedgerOp): Books {
    match op
    case Consider(f, countDay, costDay, recordDay, deferred, save) =>
      var (d, t1) := Gate(f, mode, settings, b.tally, countDay, costDay);
      if !d.act || deferred then b.(tally := t1)
      else
        var t2 := Recorded(Rolled(t1, recordDay), settings.costEach);
        Books(t2, FileAfter(save, t2), b.charges + [Entry(recordDay, Charge(settings.costEach))])
    case Restart(today) => b.(tally := Restored(b.file, today))
  }

  function ApplyAll(settings: PostureSettings, mode: Mode, b: Books, ops: seq<LedgerOp>): Books {
    if ops == [] then b
    else Apply(settings, mode, ApplyAll(settings, mode, b, ops[..|ops| - 1]), ops[|ops| - 1])
  }

  function CountOn(charges: seq<Entry>, day: int): nat {
    if charges == [] then 0
    else CountOn(charges[..|charges| - 1], day) + if charges[|charges| - 1].day == day then 1 else 0
  }

  function CostOn(charges: seq<Entry>, day: int): real {
    if charges == [] then 0.0
    else CostOn(charges[..|charges| - 1], day)
         + if charges[|charges| - 1].day == day then charges[|charges| - 1].cost else 0.0
  }

  /** The first and the last day an operation reads. */
  function FirstDay(op: LedgerOp): int {
    match op
    case Consider(_, countDay, _, _, _, _) => countDay
    case Restart(today) => today
  }

  function LastDay(op: LedgerOp): int {
    match op
    case Consider(_, _, _, recordDay, _, _) => recordDay
    case Restart(today) => today
  }

  /** The clock never runs backwards. */
  ghost predicate Monotone(start: int, ops: seq<LedgerOp>) {
    && (forall i | 0 <= i < |ops| :: start <= FirstDay(ops[i]) && ForwardOp(ops[i]))
    && (forall i, j | 0 <= i < j < |ops| :: LastDay(ops[i]) <= FirstDay(ops[j]))
  }

  predicate ForwardOp(op: LedgerOp) {
    op.Consider? ==> op.countDay <= op.costDay <= op.recordDay
  }

  ghost predicate WithinBudget(settings: PostureSettings, charges: seq<Entry>, day: int) {
    (CountOn(charges, day) > 0 ==> CountOn(charges, day) <= settings.maxPerDay && CostOn(charges, day) <= settings.maxCost)
  }

  /** The books at a time: the ledger counts exactly the charges of its day, no charge lies in the
      future, and no day is over budget. */
  ghost predicate InStep(settings: PostureSettings, b: Books, now: int) {
    && b.tally.day <= now
    && b.tally.acted == CountOn(b.charges, b.tally.day) && b.tally.cost == CostOn(b.charges, b.tally.day)
    && (forall d | b.tally.day < d :: CountOn(b.charges, d) == 0 && CostOn(b.charges, d) == 0.0)
    && (forall d :: 0.0 <= CostOn(b.charges, d) && WithinBudget(settings, b.charges, d))
  }

  /** A restart that brings back what the ledger would have counted anyway. */
  predicate NothingLost(b: Books, op: LedgerOp) {
    op.Restart? ==> Restored(b.file, op.today) == Rolled(b.tally, op.today)
  }

  ghost predicate LossFree(settings: PostureSettings, mode: Mode, b: Books, ops: seq<LedgerOp>) {
    ops != [] ==>
      && LossFree(settings, mode, b, ops[..|ops| - 1])
      && NothingLost(ApplyAll(settings, mode, b, ops[..|ops| - 1]), ops[|ops| - 1])
  }

  lemma ChargeOn(charges: seq<Entry>, e: Entry, day: int)
    ensures CountOn(charges + [e], day) == CountOn(charges, day) + if e.day == day then 1 else 0
    ensures CostOn(charges + [e], day) == CostOn(charges, day) + if e.day == day then e.cost else 0.0
  {
    assert (charges + [e])[..|charges|] == charges;
  }

  lemma RolledInStep(settings: PostureSettings, b: Books, now: int, today: int)
    requires InStep(settings, b, now) && now <= today
    ensures InStep(settings, b.(tally := Rolled(b.tally, today)), today)
  {
  }

  lemma RecordedInStep(settings: PostureSettings, b: Books, today: int, file: Option<Tally>)
    requires InStep(settings, b, today) && b.tally.day == today
    requires b.tally.acted + 1 <= settings.maxPerDay && FitsCost(b.tally, settings.costEach, settings.maxCost)
    ensures InStep(settings, Books(Recorded(b.tally, settings.costEach), file, b.charges + [Entry(today, Charge(settings.costEach))]), today)
  {
    var charges := b.charges + [Entry(today, Charge(settings.costEach))];
    forall d
      ensures CountOn(charges, d) == CountOn(b.charges, d) + if d == today then 1 else 0
      ensures CostOn(charges, d) == CostOn(b.charges, d) + if d == today then Charge(settings.costEach) else 0.0
    {
      ChargeOn(b.charges, Entry(today, Charge(settings.costEach)), d);
    }
    hide CountOn, CostOn;
  }

  lemma NonNegative(settings: PostureSettings, b: Books, now: int)
    requires InStep(settings, b, now)
    ensures 0.0 <= b.tally.cost
  {
  }

  lemma LaterInStep(settings: PostureSettings, b: Books, now: int, later: int)
    requires InStep(settings, b, now) && now <= later
    ensures InStep(settings, b, later)
  {
  }

  lemma ApplyInStep(settings: PostureSettings, mode: Mode, b: Books, now: int, op: LedgerOp)
    requires InStep(settings, b, now) && now <= FirstDay(op) && ForwardOp(op) && NothingLost(b, op)
    ensures InStep(settings, Apply(settings, mode, b, op), LastDay(op))
  {
    hide InStep, SeverityRank, Granted, Restored;
    match op
    case Restart(today) => RolledInStep(settings, b, now, today);
    case Consider(f, countDay, costDay, recordDay, deferred, save) =>
      var b1 := b.(tally := Rolled(b.tally, countDay));
      var b2 := b1.(tally := Rolled(b1.tally, costDay));
      var b3 := b2.(tally := Rolled(b2.tally, recordDay));
      LaterInStep(settings, b, now, recordDay);
      RolledInStep(settings, b, now, countDay);
      LaterInStep(settings, b1, countDay, recordDay);
      RolledInStep(settings, b1, countDay, costDay);
      LaterInStep(settings, b2, costDay, recordDay);
      RolledInStep(settings, b2, costDay, recordDay);
      if Remaining(b1.tally, settings.maxPerDay) > 0 && FitsCost(b2.tally, settings.costEach, settings.maxCost) {
        NonNegative(settings, b2, costDay);
        RecordedInStep(settings, b3, recordDay, Apply(settings, mode, b, op).file);
      }
  }

  function Reached(start: int, ops: seq<LedgerOp>): int {
    if ops == [] then start else LastDay(ops[|ops| - 1])
  }

  lemma {:induction false} ApplyAllInStep(settings: PostureSettings, mode: Mode, b: Books, start: int, ops: seq<LedgerOp>)
    requires InStep(settings, b, start) && Monotone(start, ops) && LossFree(settings, mode, b, ops)
    ensures InStep(settings, ApplyAll(settings, mode, b, ops), Reached(start, ops))
  {
    hide InStep, Apply, NothingLost;
    if ops != [] {
      var n := |ops| - 1;
      ApplyAllInStep(settings, mode, b, start, ops[..n]);
      ApplyInStep(settings, mode, ApplyAll(settings, mode, b, ops[..n]), Reached(start, ops[..n]), ops[n]);
    }
  }

  function NewBooks(start: int): Books {
    Books(Tally(start, 0, 0.0), None, [])
  }

  /**
   Daily budget safety: starting from nothing, with a clock that never runs backwards and no
   restart that loses count, no day ever sees more recorded findings or more recorded cost than
   allowed, across any number of considered findings, day changes between check and record, and
   restarts.
   */
  lemma DailyBudgetSafe(settings: PostureSettings, mode: Mode, start: int, ops: seq<LedgerOp>, day: int)
    requires Monotone(start, ops) && LossFree(settings, mode, NewBooks(start), ops)
    ensures WithinBudget(settings, ApplyAll(settings, mode, NewBooks(start), ops).charges, day)
  {
    assert InStep(settings, NewBooks(start), start);
    ApplyAllInStep(settings, mode, NewBooks(start), start, ops);
  }
}
