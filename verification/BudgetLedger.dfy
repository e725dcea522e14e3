/** The two provider ledgers: one ceiling per run, one window per workspace and day. */
module BudgetLedger {
  import opened Wrappers
  import opened BudgetPricing

  type RunId = nat
  type Workspace = nat
  type Day = nat

  datatype RunRow = RunRow(total: int, reserved: int, actual: int)

  datatype Window = Window(workspace: Workspace, day: Day)

  datatype Ledger = Ledger(runs: map<RunId, RunRow>, windows: map<Window, int>)

  datatype Scope = RunScope | WorkspaceScope

  datatype ReserveResult =
    | Accepted(remaining: int, window: Option<Day>)
    | Rejected(remaining: int, exhausted: Scope)
    | Failed(error: BudgetError)

  /** The ceilings come with each request: the run's total and, if deployed, the workspace's daily cap. */
  datatype ReserveInput = ReserveInput(run: RunId, amount: int, total: int, cap: Option<int>)

  predicate LegalReserve(input: ReserveInput) {
    input.amount > 0 && input.total > 0 && (input.cap.Some? ==> input.cap.value > 0)
  }

  /** `INSERT … ON CONFLICT DO NOTHING`: only the first reservation fixes the ceiling. */
  function EnsureRun(runs: map<RunId, RunRow>, run: RunId, total: int): map<RunId, RunRow> {
    if run in runs then runs else runs[run := RunRow(total, 0, 0)]
  }

  function EnsureWindow(windows: map<Window, int>, w: Window): map<Window, int> {
    if w in windows then windows else windows[w := 0]
  }

  function RunRemaining(row: RunRow, total: int): int {
    Max(0, Min(row.total, total) - row.reserved)
  }

  /** One `reserve` transaction on the database day `day`; `owner` is the workspace each run belongs to. */
  function Reserve(l: Ledger, owner: map<RunId, Workspace>, input: ReserveInput, day: Day): (Ledger, ReserveResult) {
    if !LegalReserve(input) then (l, Failed(BadAmount))
    else
      var runs := EnsureRun(l.runs, input.run, input.total);
      var row := runs[input.run];
      var remaining := RunRemaining(row, input.total);
      var charged := runs[input.run := row.(reserved := row.reserved + input.amount)];
      if input.amount > remaining then (l.(runs := runs), Rejected(remaining, RunScope))
      else if input.cap.None? then
        (l.(runs := charged), Accepted(remaining - input.amount, None))
      else if input.run !in owner then (l, Failed(WindowUnavailable))
      else
        var w := Window(owner[input.run], day);
        var windows := EnsureWindow(l.windows, w);
        var windowRemaining := Max(0, input.cap.value - windows[w]);
        if input.amount > windowRemaining then
          (Ledger(runs, windows), Rejected(windowRemaining, WorkspaceScope))
        else
          (Ledger(charged, windows[w := windows[w] + input.amount]),
           Accepted(remaining - input.amount, Some(day)))
  }

  /** One `release` transaction; a missing row is not updated. */
  function Release(l: Ledger, owner: map<RunId, Workspace>, run: RunId, amount: int, day: Option<Day>): Ledger {
    if amount <= 0 then l
    else
      var runs := if run in l.runs
                  then l.runs[run := l.runs[run].(reserved := Max(0, l.runs[run].reserved - amount))]
                  else l.runs;
      var windows := if day.Some? && run in owner && Window(owner[run], day.value) in l.windows
                     then var w := Window(owner[run], day.value); l.windows[w := Max(0, l.windows[w] - amount)]
                     else l.windows;
      Ledger(runs, windows)
  }

  function RecordActual(l: Ledger, run: RunId, actual: int): Ledger {
    if actual < 0 || run !in l.runs then l
    else l.(runs := l.runs[run := l.runs[run].(actual := l.runs[run].actual + actual)])
  }

  /** The Postgres store: every method is one transaction on the two tables. */
  class PostgresRunProviderBudgetStore {
    var runs: map<RunId, RunRow>
    var windows: map<Window, int>
    const owner: map<RunId, Workspace>

    constructor (owner: map<RunId, Workspace>)
      ensures this.owner == owner && State() == Ledger(map[], map[])
    {
      this.owner, runs, windows := owner, map[], map[];
    }

    function State(): Ledger
      reads this
    {
      Ledger(runs, windows)
    }

    method ReserveBudget(input: ReserveInput, day: Day) returns (r: ReserveResult)
      modifies this
      ensures (State(), r) == Reserve(old(State()), owner, input, day)
    {
      if input.amount <= 0 || input.total <= 0 || (input.cap.Some? && input.cap.value <= 0) {
        return Failed(BadAmount);
      }
      var before := runs;
      if input.run !in runs {
        runs := runs[input.run := RunRow(input.total, 0, 0)];
      }
      var current := runs[input.run];
      var effective := Min(current.total, input.total);
      var remaining := Max(0, effective - current.reserved);
      if input.amount > remaining {
        return Rejected(remaining, RunScope);
      }
      var chargedDay: Option<Day> := None;
      if input.cap.Some? {
        if input.run !in owner {
          runs := before;  // the transaction is rolled back
          return Failed(WindowUnavailable);
        }
        var w := Window(owner[input.run], day);
        if w !in windows {
          windows := windows[w := 0];
        }
        var windowRemaining := Max(0, input.cap.value - windows[w]);
        if input.amount > windowRemaining {
          return Rejected(windowRemaining, WorkspaceScope);
        }
        windows := windows[w := windows[w] + input.amount];
        chargedDay := Some(day);
      }
      runs := runs[input.run := current.(reserved := current.reserved + input.amount)];
      r := Accepted(remaining - input.amount, chargedDay);
    }

    method ReleaseBudget(run: RunId, amount: int, day: Option<Day>) returns (r: Result<(), BudgetError>)
      modifies this
      ensures State() == Release(old(State()), owner, run, amount, day)
      ensures r.Err? <==> amount <= 0
    {
      if amount <= 0 {
        return Err(BadAmount);
      }
      if run in runs {
        runs := runs[run := runs[run].(reserved := Max(0, runs[run].reserved - amount))];
      }
      if day.Some? && run in owner {
        var w := Window(owner[run], day.value);
        if w in windows {
          windows := windows[w := Max(0, windows[w] - amount)];
        }
      }
      r := Ok(());
    }

    method RecordActualCost(run: RunId, actual: int) returns (r: Result<(), BudgetError>)
      modifies this
      ensures State() == RecordActual(old(State()), run, actual)
      ensures r.Err? <==> actual < 0
    {
      if actual < 0 {
        return Err(BadAmount);
      }
      if run in runs {
        runs := runs[run := runs[run].(actual := runs[run].actual + actual)];
      }
      r := Ok(());
    }
  }
}
