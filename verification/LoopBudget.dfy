/** The daily budget over the life of the posture loop: whole cycles, restarts, and anything else that touches the store. */
module LoopBudget {
  import opened Models
  import opened Policy
  import opened Lifecycle
  import opened Ledger
  import opened Runs
  import PostureCycle

  datatype LoopStep =
    | RunCycle(scan: PostureCycle.Scan)
    | Reboot(today: int)
    | Elsewhere(action: Action)

  /** The store, and the ledger with its file and every charge. */
  datatype Life = Life(state: State, books: Books)

  function LedgerOpsOf(policy: CasePolicy, settings: PostureSettings, mode: Mode, l: Life, step: LoopStep): seq<LedgerOp> {
    match step
    case RunCycle(scan) => PostureCycle.CycleLedgerOps(policy, settings, mode, l.state, l.books.tally, scan)
    case Reboot(today) => [Restart(today)]
    case Elsewhere(_) => []
  }

  function Live(policy: CasePolicy, settings: PostureSettings, mode: Mode, l: Life, step: LoopStep): Life {
    var books := ApplyAll(settings, mode, l.books, LedgerOpsOf(policy, settings, mode, l, step));
    match step
    case RunCycle(scan) => Life(PostureCycle.Cycle(policy, settings, mode, l.state, l.books.tally, scan).state, books)
    case Reboot(_) => Life(l.state, books)
    case Elsewhere(a) => Life(Step(policy, l.state, a), books)
  }

  function LiveAll(policy: CasePolicy, settings: PostureSettings, mode: Mode, l: Life, steps: seq<LoopStep>): Life {
    if steps == [] then l
    else Live(policy, settings, mode, LiveAll(policy, settings, mode, l, steps[..|steps| - 1]), steps[|steps| - 1])
  }

  function AllLedgerOps(policy: CasePolicy, settings: PostureSettings, mode: Mode, l: Life, steps: seq<LoopStep>): seq<LedgerOp> {
    if steps == [] then []
    else AllLedgerOps(policy, settings, mode, l, steps[..|steps| - 1])
         + LedgerOpsOf(policy, settings, mode, LiveAll(policy, settings, mode, l, steps[..|steps| - 1]), steps[|steps| - 1])
  }

  lemma {:induction false} ApplyAllAppend(settings: PostureSettings, mode: Mode, b: Books, xs: seq<LedgerOp>, ys: seq<LedgerOp>)
    ensures ApplyAll(settings, mode, b, xs + ys) == ApplyAll(settings, mode, ApplyAll(settings, mode, b, xs), ys)
  {
    hide Apply;
    if ys == [] {
      assert xs + ys == xs;
    } else {
      var n := |ys| - 1;
      assert (xs + ys)[..|xs| + n] == xs + ys[..n];
      ApplyAllAppend(settings, mode, b, xs, ys[..n]);
    }
  }

  lemma {:induction false} BooksOfLife(policy: CasePolicy, settings: PostureSettings, mode: Mode, l: Life, steps: seq<LoopStep>)
    ensures LiveAll(policy, settings, mode, l, steps).books
         == ApplyAll(settings, mode, l.books, AllLedgerOps(policy, settings, mode, l, steps))
  {
    hide ApplyAll, LedgerOpsOf;
    if steps == [] {
      assert ApplyAll(settings, mode, l.books, []) == l.books by { NothingApplied(settings, mode, l.books); }
    } else {
      var n := |steps| - 1;
      BooksOfLife(policy, settings, mode, l, steps[..n]);
      ApplyAllAppend(settings, mode, l.books, AllLedgerOps(policy, settings, mode, l, steps[..n]),
                     LedgerOpsOf(policy, settings, mode, LiveAll(policy, settings, mode, l, steps[..n]), steps[n]));
    }
  }

  lemma NothingApplied(settings: PostureSettings, mode: Mode, b: Books)
    ensures ApplyAll(settings, mode, b, []) == b
  {
  }

  /** The books of a life keep the ledger of its cycles: after each one they hold what it left, with one charge per finding acted on. */
  lemma BooksAreTheLoops(policy: CasePolicy, settings: PostureSettings, mode: Mode, l: Life, scan: PostureCycle.Scan)
    ensures var w := PostureCycle.Cycle(policy, settings, mode, l.state, l.books.tally, scan);
            var l1 := Live(policy, settings, mode, l, RunCycle(scan));
            && l1.state == w.state && l1.books.tally == w.tally
            && |l1.books.charges| == |l.books.charges| + |w.acted|
  {
    hide ApplyAll, PostureCycle.ProcessAll, PostureCycle.LedgerOps, PostureCycle.ObservePassing, PostureCycle.Sorting.SortBy;
    if mode == Shadow {
      NothingApplied(settings, mode, l.books);
    } else {
      var w0 := PostureCycle.World(l.state, l.books.tally, PostureCycle.StartReport(scan), [], false);
      var w := PostureCycle.ObservePassing(policy, w0, scan.passing, scan.cycle);
      PostureCycle.PassingCounts(policy, w0, scan.passing, scan.cycle);
      PostureCycle.CycleLedger(policy, settings, mode, w, PostureCycle.Sorting.SortBy(scan.firing, PostureCycle.Priority), scan.cycle, l.books);
    }
  }

  /**
   Over any number of cycles, restarts and other changes to the store, with a clock that never
   runs backwards and no restart that loses count, no day sees more findings acted on or more
   cost than allowed.
   */
  lemma LoopBudgetSafe(policy: CasePolicy, settings: PostureSettings, mode: Mode, s: State, start: int, steps: seq<LoopStep>, day: int)
    requires var ops := AllLedgerOps(policy, settings, mode, Life(s, NewBooks(start)), steps);
             Monotone(start, ops) && LossFree(settings, mode, NewBooks(start), ops)
    ensures WithinBudget(settings, LiveAll(policy, settings, mode, Life(s, NewBooks(start)), steps).books.charges, day)
  {
    hide AllLedgerOps, LiveAll, ApplyAll, Monotone, LossFree, WithinBudget;
    BooksOfLife(policy, settings, mode, Life(s, NewBooks(start)), steps);
    DailyBudgetSafe(settings, mode, start, AllLedgerOps(policy, settings, mode, Life(s, NewBooks(start)), steps), day);
  }
}
