/** Which restarts keep the daily budget: exactly those after which the last charge of the day is still on file. */
module Budget {
  import opened Wrappers
  import opened Models
  import opened Ledger

  // --- the last charge of a run, and the file it left ---

  datatype LastCharge = LastCharge(day: int, saved: bool)

  predicate Charges(settings: PostureSettings, mode: Mode, b: Books, op: LedgerOp) {
    |Apply(settings, mode, b, op).charges| > |b.charges|
  }

  /** The day of the last charge and whether it was saved; nothing before the first charge. */
  function LastOf(settings: PostureSettings, mode: Mode, b: Books, ops: seq<LedgerOp>): Option<LastCharge> {
    if ops == [] then None
    else
      var op := ops[|ops| - 1];
      if op.Consider? && Charges(settings, mode, ApplyAll(settings, mode, b, ops[..|ops| - 1]), op)
      then Some(LastCharge(op.recordDay, op.save.Saved?))
      else LastOf(settings, mode, b, ops[..|ops| - 1])
  }

  /** The last charge of the day, if there was one, was saved. */
  predicate LastKept(last: Option<LastCharge>, today: int) {
    last.Some? && last.value.day == today ==> last.value.saved
  }

  /** A failed save leaves the file as it was or unreadable: it could not be opened, or not be written to the end. */
  predicate PlainFailure(b: Books, op: LedgerOp) {
    op.Consider? && op.save.Unsaved? ==> op.save.leaves == b.file || op.save.leaves == None
  }

  ghost predicate PlainFailures(settings: PostureSettings, mode: Mode, b: Books, ops: seq<LedgerOp>) {
    ops != [] ==>
      && PlainFailures(settings, mode, b, ops[..|ops| - 1])
      && PlainFailure(ApplyAll(settings, mode, b, ops[..|ops| - 1]), ops[|ops| - 1])
  }

  /** What the file knows of the charges: all of the last one's day if that was saved, otherwise at least one less. */
  ghost predicate FileFollows(settings: PostureSettings, b: Books, last: Option<LastCharge>) {
    match last
    case None => b.file == None && b.charges == []
    case Some(l) =>
      && l.day <= b.tally.day && 0 < CountOn(b.charges, l.day) && Charge(settings.costEach) <= CostOn(b.charges, l.day)
      && (forall d | l.day < d :: CountOn(b.charges, d) == 0 && CostOn(b.charges, d) == 0.0)
      && (l.saved ==> b.file == Some(Tally(l.day, CountOn(b.charges, l.day), CostOn(b.charges, l.day))))
      && (!l.saved && b.file.Some? ==>
            && b.file.value.day <= l.day
            && (b.file.value.day == l.day ==> Lacks(settings, b.file.value, b.charges)))
  }

  /** At least one charge of its day is missing from a tally. */
  ghost predicate Lacks(settings: PostureSettings, t: Tally, charges: seq<Entry>) {
    t.acted < CountOn(charges, t.day) && t.cost + Charge(settings.costEach) <= CostOn(charges, t.day)
  }

  /** What one operation does to the charges and to the file. */
  lemma ApplyShape(settings: PostureSettings, mode: Mode, b: Books, op: LedgerOp)
    ensures var c := Apply(settings, mode, b, op);
            if op.Consider? && Charges(settings, mode, b, op) then
              && c.charges == b.charges + [Entry(op.recordDay, Charge(settings.costEach))]
              && c.tally.day == op.recordDay && c.file == FileAfter(op.save, c.tally)
            else c.charges == b.charges && c.file == b.file
  {
    hide FitsCost, SeverityRank, Granted;
  }

  lemma ApplyDay(settings: PostureSettings, mode: Mode, b: Books, now: int, op: LedgerOp)
    requires b.tally.day <= now <= FirstDay(op) && ForwardOp(op)
    ensures b.tally.day <= Apply(settings, mode, b, op).tally.day
  {
    hide FitsCost, SeverityRank, Granted;
  }

  lemma ChargeFollows(settings: PostureSettings, mode: Mode, b: Books, now: int, op: LedgerOp, last: Option<LastCharge>)
    requires InStep(settings, b, now) && now <= FirstDay(op) && FileFollows(settings, b, last) && PlainFailure(b, op)
    requires ForwardOp(op) && op.Consider? && Charges(settings, mode, b, op)
    requires InStep(settings, Apply(settings, mode, b, op), LastDay(op))
    ensures FileFollows(settings, Apply(settings, mode, b, op), Some(LastCharge(op.recordDay, op.save.Saved?)))
  {
    hide Apply, InStep, FileFollows, Charges;
    ApplyShape(settings, mode, b, op);
    ChargedFollows(settings, b, now, Apply(settings, mode, b, op), op.recordDay, op.save, last);
  }

  lemma ChargedFollows(settings: PostureSettings, b: Books, now: int, c: Books, day: int, save: Save, last: Option<LastCharge>)
    requires InStep(settings, b, now) && now <= day && FileFollows(settings, b, last) && InStep(settings, c, day)
    requires c.charges == b.charges + [Entry(day, Charge(settings.costEach))] && c.tally.day == day && c.file == FileAfter(save, c.tally)
    requires save.Unsaved? ==> save.leaves == b.file || save.leaves == None
    ensures FileFollows(settings, c, Some(LastCharge(day, save.Saved?)))
  {
    assert 0.0 <= Charge(settings.costEach) && 0.0 <= CostOn(b.charges, day);
    ChargeOn(b.charges, Entry(day, Charge(settings.costEach)), day);
    hide CountOn, CostOn, WithinBudget, Charge;
    if save.Unsaved? && last.Some? && c.file.Some? {
      StillLacks(settings, b, day, c.file.value, last.value);
    }
  }

  /** A file that was left as it was lacks the new charge, if it is of that day at all. */
  lemma StillLacks(settings: PostureSettings, b: Books, day: int, t: Tally, last: LastCharge)
    requires b.file == Some(t) && FileFollows(settings, b, Some(last)) && last.day <= day && 0.0 <= Charge(settings.costEach)
    ensures t.day <= day
    ensures t.day == day ==> Lacks(settings, t, b.charges + [Entry(day, Charge(settings.costEach))])
  {
    ChargeOn(b.charges, Entry(day, Charge(settings.costEach)), day);
    hide CountOn, CostOn, Charge;
  }

  lemma QuietFollows(settings: PostureSettings, mode: Mode, b: Books, now: int, op: LedgerOp, last: Option<LastCharge>)
    requires InStep(settings, b, now) && now <= FirstDay(op) && ForwardOp(op)
    requires FileFollows(settings, b, last) && !(op.Consider? && Charges(settings, mode, b, op))
    ensures FileFollows(settings, Apply(settings, mode, b, op), last)
  {
    ApplyShape(settings, mode, b, op);
    ApplyDay(settings, mode, b, now, op);
    hide Apply, CountOn, CostOn, WithinBudget, Lacks;
  }

  lemma {:induction false} RunFollows(settings: PostureSettings, mode: Mode, start: int, ops: seq<LedgerOp>)
    requires Monotone(start, ops) && LossFree(settings, mode, NewBooks(start), ops) && PlainFailures(settings, mode, NewBooks(start), ops)
    ensures var b := ApplyAll(settings, mode, NewBooks(start), ops);
            InStep(settings, b, Reached(start, ops)) && FileFollows(settings, b, LastOf(settings, mode, NewBooks(start), ops))
  {
    hide InStep, FileFollows, Apply, NothingLost, PlainFailure, Charges;
    if ops == [] {
      NewFollows(settings, start);
    } else {
      var n := |ops| - 1;
      var b := ApplyAll(settings, mode, NewBooks(start), ops[..n]);
      var last := LastOf(settings, mode, NewBooks(start), ops[..n]);
      RunFollows(settings, mode, start, ops[..n]);
      ApplyInStep(settings, mode, b, Reached(start, ops[..n]), ops[n]);
      if ops[n].Consider? && Charges(settings, mode, b, ops[n]) {
        ChargeFollows(settings, mode, b, Reached(start, ops[..n]), ops[n], last);
      } else {
        QuietFollows(settings, mode, b, Reached(start, ops[..n]), ops[n], last);
      }
    }
  }

  lemma NewFollows(settings: PostureSettings, start: int)
    ensures InStep(settings, NewBooks(start), start) && FileFollows(settings, NewBooks(start), None)
  {
  }

  /** A restart loses nothing exactly when the last charge of its day was saved. */
  lemma NothingLostIff(settings: PostureSettings, b: Books, now: int, last: Option<LastCharge>, today: int)
    requires InStep(settings, b, now) && FileFollows(settings, b, last) && now <= today
    ensures NothingLost(b, Restart(today)) <==> LastKept(last, today)
    ensures !LastKept(last, today) ==> b.tally.day == today && Lacks(settings, Restored(b.file, today), b.charges)
  {
    assert CountOn([], today) == 0 && CostOn([], today) == 0.0;
    hide WithinBudget, CountOn, CostOn;
  }

  // --- a restart that loses count overspends ---

  function Repeat(op: LedgerOp, n: nat): seq<LedgerOp> {
    if n == 0 then [] else Repeat(op, n - 1) + [op]
  }

  predicate Fires(settings: PostureSettings, f: Finding) {
    !f.passed && SeverityRank(f.severity) >= SeverityRank(settings.severityFloor)
  }

  /** A finding considered and recorded within one day. */
  function Today(f: Finding, day: int): LedgerOp {
    Consider(f, day, day, day, false, Saved)
  }

  /** The ledger is behind the charges of its day. */
  ghost predicate Behind(settings: PostureSettings, b: Books) {
    Lacks(settings, b.tally, b.charges)
  }

  lemma BehindStep(settings: PostureSettings, mode: Mode, b: Books, f: Finding)
    requires mode != Shadow && Fires(settings, f) && Behind(settings, b)
    ensures var c := Apply(settings, mode, b, Today(f, b.tally.day));
            && Behind(settings, c) && c.tally.day == b.tally.day
            && (if b.tally.acted < settings.maxPerDay && FitsCost(b.tally, settings.costEach, settings.maxCost)
                then c.tally.acted == b.tally.acted + 1 else c == b)
  {
    hide CountOn, CostOn, SeverityRank;
    ChargeOn(b.charges, Entry(b.tally.day, Charge(settings.costEach)), b.tally.day);
  }

  /** Considered over and over, a firing finding is recorded until the ledger says stop. */
  lemma {:induction false} BehindStaysBehind(settings: PostureSettings, mode: Mode, b: Books, f: Finding, n: nat)
    requires mode != Shadow && Fires(settings, f) && Behind(settings, b)
    ensures var c := ApplyAll(settings, mode, b, Repeat(Today(f, b.tally.day), n));
            && Behind(settings, c) && c.tally.day == b.tally.day
            && (|| c.tally.acted == b.tally.acted + n || c.tally.acted >= settings.maxPerDay
                || !FitsCost(c.tally, settings.costEach, settings.maxCost))
  {
    hide Behind, Apply, Fires, FitsCost;
    if n > 0 {
      var op := Today(f, b.tally.day);
      BehindStaysBehind(settings, mode, b, f, n - 1);
      assert Repeat(op, n)[..|Repeat(op, n)| - 1] == Repeat(op, n - 1);
      BehindStep(settings, mode, ApplyAll(settings, mode, b, Repeat(op, n - 1)), f);
    }
  }

  /**
   Whatever an investigation costs: if the reloaded ledger lacks at least one charge of its day,
   then as many firing findings as it still allows bring the day over its count or its cost.
   */
  lemma LossyRestartOverspends(settings: PostureSettings, mode: Mode, b: Books, f: Finding, today: int)
    requires mode != Shadow && Fires(settings, f)
    requires Lacks(settings, Restored(b.file, today), b.charges) && Restored(b.file, today).acted <= settings.maxPerDay
    ensures var n: nat := settings.maxPerDay - Restored(b.file, today).acted;
            !WithinBudget(settings, ApplyAll(settings, mode, Apply(settings, mode, b, Restart(today)), Repeat(Today(f, today), n)).charges, today)
  {
    hide CountOn, CostOn, ApplyAll, Fires;
    BehindStaysBehind(settings, mode, Apply(settings, mode, b, Restart(today)), f, settings.maxPerDay - Restored(b.file, today).acted);
  }

  // --- so the promise holds exactly when the last charge of the day is on file ---

  /** The day stays within budget on every continuation without a further loss. */
  ghost predicate KeepsPromise(settings: PostureSettings, mode: Mode, b: Books, today: int) {
    forall more | Monotone(today, more) && LossFree(settings, mode, b, more) ::
      WithinBudget(settings, ApplyAll(settings, mode, b, more).charges, today)
  }

  lemma {:induction false} RepeatIs(op: LedgerOp, n: nat)
    ensures |Repeat(op, n)| == n && forall i | 0 <= i < n :: Repeat(op, n)[i] == op
  {
    if n > 0 { RepeatIs(op, n - 1); }
  }

  lemma {:induction false} RepeatLossFree(settings: PostureSettings, mode: Mode, b: Books, op: LedgerOp, n: nat)
    requires op.Consider?
    ensures LossFree(settings, mode, b, Repeat(op, n))
  {
    hide Apply;
    if n > 0 {
      RepeatLossFree(settings, mode, b, op, n - 1);
      assert Repeat(op, n)[..|Repeat(op, n)| - 1] == Repeat(op, n - 1);
    }
  }

  lemma LossBreaksPromise(settings: PostureSettings, mode: Mode, b: Books, today: int, f: Finding, n: nat)
    requires !WithinBudget(settings, ApplyAll(settings, mode, b, Repeat(Today(f, today), n)).charges, today)
    ensures !KeepsPromise(settings, mode, b, today)
  {
    hide WithinBudget, ApplyAll, LossFree, Repeat;
    RepeatIs(Today(f, today), n);
    RepeatLossFree(settings, mode, b, Today(f, today), n);
    assert Monotone(today, Repeat(Today(f, today), n));
  }

  lemma InStepKeepsPromise(settings: PostureSettings, mode: Mode, b: Books, today: int)
    requires InStep(settings, b, today)
    ensures KeepsPromise(settings, mode, b, today)
  {
    forall more | Monotone(today, more) && LossFree(settings, mode, b, more)
      ensures WithinBudget(settings, ApplyAll(settings, mode, b, more).charges, today)
    {
      ApplyAllInStep(settings, mode, b, today, more);
    }
  }

  /**
   After any run whose restarts so far lost nothing, one more restart keeps the promise for its
   day on every continuation if and only if the last charge of that day was saved. The finding
   only witnesses that something can fire.
   */
  lemma RestartKeepsPromiseIff(settings: PostureSettings, mode: Mode, start: int, ops: seq<LedgerOp>, today: int, f: Finding)
    requires mode != Shadow && Fires(settings, f) && Monotone(start, ops) && Reached(start, ops) <= today
    requires LossFree(settings, mode, NewBooks(start), ops) && PlainFailures(settings, mode, NewBooks(start), ops)
    ensures KeepsPromise(settings, mode, Apply(settings, mode, ApplyAll(settings, mode, NewBooks(start), ops), Restart(today)), today)
       <==> LastKept(LastOf(settings, mode, NewBooks(start), ops), today)
  {
    hide InStep, FileFollows, ApplyAll, LossFree, PlainFailures, LastOf, LastKept, KeepsPromise, Lacks, WithinBudget, Repeat, Fires, Monotone;
    var b := ApplyAll(settings, mode, NewBooks(start), ops);
    var last := LastOf(settings, mode, NewBooks(start), ops);
    RunFollows(settings, mode, start, ops);
    NothingLostIff(settings, b, Reached(start, ops), last, today);
    if LastKept(last, today) {
      RolledInStep(settings, b, Reached(start, ops), today);
      InStepKeepsPromise(settings, mode, Apply(settings, mode, b, Restart(today)), today);
    } else {
      ActedWithin(settings, b, Reached(start, ops), Restored(b.file, today));
      LossyRestartOverspends(settings, mode, b, f, today);
      LossBreaksPromise(settings, mode, Apply(settings, mode, b, Restart(today)), today, f, settings.maxPerDay - Restored(b.file, today).acted);
    }
  }

  lemma ActedWithin(settings: PostureSettings, b: Books, now: int, t: Tally)
    requires InStep(settings, b, now) && Lacks(settings, t, b.charges)
    ensures t.acted <= settings.maxPerDay
  {
    hide CountOn, CostOn;
  }

  // --- two ends of that scale ---

  predicate AllSaved(ops: seq<LedgerOp>) {
    forall i | 0 <= i < |ops| :: ops[i].Consider? ==> ops[i].save.Saved?
  }

  lemma {:induction false} SavedIsKept(settings: PostureSettings, mode: Mode, b: Books, ops: seq<LedgerOp>)
    requires AllSaved(ops)
    ensures PlainFailures(settings, mode, b, ops)
    ensures LastOf(settings, mode, b, ops).Some? ==> LastOf(settings, mode, b, ops).value.saved
  {
    hide Charges, ApplyAll;
    if ops != [] {
      SavedIsKept(settings, mode, b, ops[..|ops| - 1]);
    }
  }

  lemma {:induction false} SavedIsLossFree(settings: PostureSettings, mode: Mode, start: int, ops: seq<LedgerOp>)
    requires Monotone(start, ops) && AllSaved(ops)
    ensures LossFree(settings, mode, NewBooks(start), ops)
  {
    hide InStep, FileFollows, ApplyAll, NothingLost, LastOf, PlainFailures;
    if ops != [] {
      var n := |ops| - 1;
      SavedIsLossFree(settings, mode, start, ops[..n]);
      SavedIsKept(settings, mode, NewBooks(start), ops[..n]);
      RunFollows(settings, mode, start, ops[..n]);
      var (b, last) := (ApplyAll(settings, mode, NewBooks(start), ops[..n]), LastOf(settings, mode, NewBooks(start), ops[..n]));
      if ops[n].Restart? {
        NothingLostIff(settings, b, Reached(start, ops[..n]), last, ops[n].today);
      } else {
        ConsideringLosesNothing(b, ops[n]);
      }
    }
  }

  lemma ConsideringLosesNothing(b: Books, op: LedgerOp)
    requires op.Consider?
    ensures NothingLost(b, op)
  {
  }

  /** In particular the budget is safe when every save succeeds. */
  lemma SavedBudgetSafe(settings: PostureSettings, mode: Mode, start: int, ops: seq<LedgerOp>, day: int)
    requires Monotone(start, ops) && AllSaved(ops)
    ensures WithinBudget(settings, ApplyAll(settings, mode, NewBooks(start), ops).charges, day)
  {
    hide LossFree, WithinBudget;
    SavedIsLossFree(settings, mode, start, ops);
    DailyBudgetSafe(settings, mode, start, ops, day);
  }

  /** And one swallowed save error and a restart are enough to break it, for every budget that allows a finding at all. */
  lemma FailedSaveForgets(settings: PostureSettings, mode: Mode, f: Finding, day: int)
    requires mode != Shadow && Fires(settings, f)
    requires 1 <= settings.maxPerDay && Charge(settings.costEach) <= settings.maxCost
    ensures var b := Apply(settings, mode, NewBooks(day), Consider(f, day, day, day, false, Unsaved(None)));
            !WithinBudget(settings, ApplyAll(settings, mode, Apply(settings, mode, b, Restart(day)), Repeat(Today(f, day), settings.maxPerDay)).charges, day)
  {
    hide Fires, Apply, ApplyAll, Repeat, WithinBudget, Lacks, Restored;
    var b := Apply(settings, mode, NewBooks(day), Consider(f, day, day, day, false, Unsaved(None)));
    FirstIsLost(settings, mode, f, day);
    LossyRestartOverspends(settings, mode, b, f, day);
  }

  lemma FirstIsLost(settings: PostureSettings, mode: Mode, f: Finding, day: int)
    requires mode != Shadow && Fires(settings, f)
    requires 1 <= settings.maxPerDay && Charge(settings.costEach) <= settings.maxCost
    ensures var b := Apply(settings, mode, NewBooks(day), Consider(f, day, day, day, false, Unsaved(None)));
            Lacks(settings, Restored(b.file, day), b.charges) && Restored(b.file, day).acted == 0
  {
    var op := Consider(f, day, day, day, false, Unsaved(None));
    FirstCharges(settings, mode, f, day);
    ApplyShape(settings, mode, NewBooks(day), op);
    OneLacks(settings, day);
    hide Apply, Fires, Charges, Charge, Lacks;
    assert NewBooks(day).charges + [Entry(day, Charge(settings.costEach))] == [Entry(day, Charge(settings.costEach))];
  }

  lemma FirstCharges(settings: PostureSettings, mode: Mode, f: Finding, day: int)
    requires mode != Shadow && Fires(settings, f)
    requires 1 <= settings.maxPerDay && Charge(settings.costEach) <= settings.maxCost
    ensures Charges(settings, mode, NewBooks(day), Consider(f, day, day, day, false, Unsaved(None)))
  {
    hide SeverityRank;
  }

  lemma OneLacks(settings: PostureSettings, day: int)
    ensures Lacks(settings, Tally(day, 0, 0.0), [Entry(day, Charge(settings.costEach))])
  {
    hide Charge;
    assert [Entry(day, Charge(settings.costEach))][..0] == [];
    assert CountOn([], day) == 0 && CostOn([], day) == 0.0;
  }
}
