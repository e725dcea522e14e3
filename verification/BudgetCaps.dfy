/** What the ceilings mean: when a call is refused, and what a workspace's day can never exceed. */
module BudgetCaps {
  import opened Wrappers
  import opened BudgetPricing
  import opened BudgetLedger
  import opened BudgetGateway

  // ---- When a reservation is refused ----

  /** What a request may still take from its run: the smaller of the first ceiling and today's, less what calls hold. */
  function RunRoom(w: World, input: ReserveInput): int {
    var ceiling := if input.run in w.ledger.runs then Min(w.ledger.runs[input.run].total, input.total) else input.total;
    Max(0, ceiling - HeldByRun(w.calls, input.run))
  }

  /** What it may still take from its workspace's day: the cap less what calls of that day hold. */
  function WindowRoom(w: World, input: ReserveInput, window: Window): int
    requires input.cap.Some?
  {
    Max(0, input.cap.value - HeldByWindow(w.calls, window))
  }

  /** The outcome in terms of what the accepted calls hold, without the ledgers. */
  function Outcome(w: World, owner: map<RunId, Workspace>, input: ReserveInput, day: Day): ReserveResult {
    if !LegalReserve(input) then Failed(BadAmount)
    else if input.amount > RunRoom(w, input) then Rejected(RunRoom(w, input), RunScope)
    else if input.cap.None? then Accepted(RunRoom(w, input) - input.amount, None)
    else if input.run !in owner then Failed(WindowUnavailable)
    else
      var window := Window(owner[input.run], day);
      if input.amount > WindowRoom(w, input, window) then Rejected(WindowRoom(w, input, window), WorkspaceScope)
      else Accepted(RunRoom(w, input) - input.amount, Some(day))
  }

  /**
   * In every history a reservation is decided by what the accepted calls hold: it is refused for the
   * run exactly if the run's calls leave too little under its ceiling, for the workspace exactly if
   * the calls charged to that workspace and day leave too little under the cap, and accepted else.
   */
  lemma ReservationIsDecidedByHeldAmounts(owner: map<RunId, Workspace>, steps: seq<Step>, input: ReserveInput, day: Day)
    ensures Reserve(Run(owner, steps).ledger, owner, input, day).1 == Outcome(Run(owner, steps), owner, input, day)
  {
    var w := Run(owner, steps);
    BudgetConserved(owner, steps);
    var window := Window(if input.run in owner then owner[input.run] else 0, day);
    NothingHeld(w.calls, input.run, window);
    if input.run !in w.ledger.runs {
      assert HeldByRun(w.calls, input.run) == 0;
    }
    if window !in w.ledger.windows {
      assert HeldByWindow(w.calls, window) == 0;
    }
  }

  /** No refused request charges anybody. */
  lemma RefusalChargesNobody(owner: map<RunId, Workspace>, steps: seq<Step>, run: RunId, plan: Plan, total: int,
                             cap: Option<int>, day: Day)
    requires Planned(plan).Ok?
    requires !Outcome(Run(owner, steps), owner, ReserveInput(run, Planned(plan).value, total, cap), day).Accepted?
    ensures Apply(Run(owner, steps), owner, Begin(run, plan, total, cap, day)).calls == Run(owner, steps).calls
  {
    ReservationIsDecidedByHeldAmounts(owner, steps, ReserveInput(run, Planned(plan).value, total, cap), day);
  }

  /**
   * What a request that is not accepted leaves behind: nothing if it failed, and if it was rejected
   * at most its own empty rows.
   */
  lemma RefusalLeavesTheRows(l: Ledger, owner: map<RunId, Workspace>, input: ReserveInput, day: Day)
    requires !Reserve(l, owner, input, day).1.Accepted?
    ensures var (after, r) := Reserve(l, owner, input, day);
      if r.Failed? then after == l
      else
        && after.runs == (if input.run in l.runs then l.runs else l.runs[input.run := RunRow(input.total, 0, 0)])
        && (forall window :: window in l.windows ==> window in after.windows && after.windows[window] == l.windows[window])
        && (forall window :: window in after.windows && window !in l.windows ==> after.windows[window] == 0)
  {
  }

  // ---- The workspace's day ----

  /** The step reserves for this workspace and day. */
  predicate ChargesWindow(owner: map<RunId, Workspace>, step: Step, window: Window) {
    step.Begin? && step.cap.Some? && step.run in owner && Window(owner[step.run], step.day) == window
  }

  predicate CapsAtMost(owner: map<RunId, Workspace>, steps: seq<Step>, window: Window, bound: nat) {
    forall k :: 0 <= k < |steps| && ChargesWindow(owner, steps[k], window) ==> steps[k].cap.value <= bound
  }

  function Charged(l: Ledger, window: Window): int {
    if window in l.windows then l.windows[window] else 0
  }

  lemma BeginKeepsCap(w: World, owner: map<RunId, Workspace>, input: ReserveInput, day: Day, plan: Plan, window: Window,
                      bound: nat)
    requires Charged(w.ledger, window) <= bound
    requires input.cap.Some? && input.run in owner && Window(owner[input.run], day) == window ==> input.cap.value <= bound
    ensures Charged(BeginOn(w, owner, input, day, plan).ledger, window) <= bound
  {
  }

  lemma ReleaseKeepsCap(l: Ledger, owner: map<RunId, Workspace>, run: RunId, amount: int, day: Option<Day>, window: Window,
                        bound: nat)
    requires Charged(l, window) <= bound
    ensures Charged(Release(l, owner, run, amount, day), window) <= bound
  {
  }

  lemma StepKeepsCap(w: World, owner: map<RunId, Workspace>, step: Step, window: Window, bound: nat)
    requires Charged(w.ledger, window) <= bound
    requires ChargesWindow(owner, step, window) ==> step.cap.value <= bound
    ensures Charged(Apply(w, owner, step).ledger, window) <= bound
  {
    match step
    case Begin(run, plan, total, cap, day) =>
      if Planned(plan).Ok? {
        BeginKeepsCap(w, owner, ReserveInput(run, Planned(plan).value, total, cap), day, plan, window, bound);
      }
    case Record(_, _, _) =>
    case GiveBack(i) =>
      if i < |w.calls| {
        var c := w.calls[i];
        ReleaseKeepsCap(w.ledger, owner, c.run, ReservationToRelease(c.reservation, c.cost), DayOf(c), window, bound);
      }
  }

  /**
   * The daily cap holds of the day and not of the single call: whatever runs a workspace has and
   * however their calls interleave, what they hold of one day never exceeds the largest cap deployed
   * for it that day.
   */
  lemma {:induction false} DayStaysWithinCap(owner: map<RunId, Workspace>, steps: seq<Step>, window: Window, bound: nat)
    requires CapsAtMost(owner, steps, window, bound)
    ensures Charged(Run(owner, steps).ledger, window) <= bound
    ensures HeldByWindow(Run(owner, steps).calls, window) <= bound
  {
    if steps != [] {
      var n := |steps| - 1;
      DayStaysWithinCap(owner, steps[..n], window, bound);
      StepKeepsCap(Run(owner, steps[..n]), owner, steps[n], window, bound);
    }
    BudgetConserved(owner, steps);
    NothingHeld(Run(owner, steps).calls, 0, window);
  }

  // ---- The recorded cost ----

  function SpentBy(calls: seq<Call>, run: RunId): int {
    if calls == [] then 0
    else
      var c := calls[|calls| - 1];
      SpentBy(calls[..|calls| - 1], run) + if c.run == run && c.cost.Some? then c.cost.value else 0
  }

  lemma {:induction false} SpentUpdate(calls: seq<Call>, i: nat, c: Call, run: RunId)
    requires i < |calls| && c.run == calls[i].run
    ensures SpentBy(calls[i := c], run) == SpentBy(calls, run)
      + (if c.run == run && c.cost.Some? then c.cost.value else 0)
      - (if c.run == run && calls[i].cost.Some? then calls[i].cost.value else 0)
    decreases |calls|
  {
    var n := |calls| - 1;
    if i < n {
      SpentUpdate(calls[..n], i, c, run);
      assert calls[i := c][..n] == calls[..n][i := c];
    } else {
      assert calls[i := c][..n] == calls[..n];
    }
  }

  lemma SpentAppend(calls: seq<Call>, c: Call, run: RunId)
    requires c.cost.None?
    ensures SpentBy(calls + [c], run) == SpentBy(calls, run)
  {
  }

  lemma {:induction false} NothingSpent(calls: seq<Call>, run: RunId)
    requires forall i :: 0 <= i < |calls| ==> calls[i].run != run
    ensures SpentBy(calls, run) == 0
  {
    if calls != [] {
      NothingSpent(calls[..|calls| - 1], run);
    }
  }

  predicate RowSpent(w: World, run: RunId) {
    run in w.ledger.runs ==> w.ledger.runs[run].actual == SpentBy(w.calls, run)
  }

  lemma BeginActual(l: Ledger, owner: map<RunId, Workspace>, input: ReserveInput, day: Day, run: RunId)
    ensures var l' := Reserve(l, owner, input, day).0;
      run in l'.runs ==> l'.runs[run].actual == if run in l.runs then l.runs[run].actual else 0
  {
  }

  lemma StepKeepsSpent(w: World, owner: map<RunId, Workspace>, step: Step, run: RunId)
    requires Balanced(w, owner) && RowSpent(w, run)
    ensures RowSpent(Apply(w, owner, step), run)
  {
    var next := Apply(w, owner, step);
    match step
    case Begin(r, plan, total, cap, day) =>
      if Planned(plan).Ok? {
        BeginActual(w.ledger, owner, ReserveInput(r, Planned(plan).value, total, cap), day, run);
        if run !in w.ledger.runs {
          NothingSpent(w.calls, run);
        }
        if |next.calls| > |w.calls| {
          SpentAppend(w.calls, next.calls[|w.calls|], run);
        }
      }
    case Record(i, _, cost) =>
      if i < |w.calls| && w.calls[i].cost.None? && cost >= 0 {
        SpentUpdate(w.calls, i, next.calls[i], run);
      }
    case GiveBack(i) =>
      if i < |w.calls| && w.calls[i].cost.Some? && !w.calls[i].settled {
        SpentUpdate(w.calls, i, next.calls[i], run);
      }
  }

  /** The actual cost on a run's row is the sum of the costs its finished calls reported, each counted once. */
  lemma {:induction false} ActualCostIsTheSum(owner: map<RunId, Workspace>, steps: seq<Step>, run: RunId)
    ensures RowSpent(Run(owner, steps), run)
  {
    if steps != [] {
      var n := |steps| - 1;
      ActualCostIsTheSum(owner, steps[..n], run);
      BudgetConserved(owner, steps[..n]);
      StepKeepsSpent(Run(owner, steps[..n]), owner, steps[n], run);
    }
  }
}
