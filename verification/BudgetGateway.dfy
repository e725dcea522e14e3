/** The gateway that reserves before a provider call and settles after it. */
module BudgetGateway {
  import opened Wrappers
  import opened BudgetPricing
  import opened BudgetLedger

  /** Usage as the provider reports it; no cost when the model has no pricing. */
  datatype Response = Response(cost: Option<int>)

  /** How the outside world answers one call: which of its three writes and calls succeed. */
  datatype Weather = Weather(response: Option<Response>, recordCommits: bool, releaseCommits: bool)

  datatype CallResult = Answered(response: Response) | Refused(error: BudgetError) | ProviderFailed

  /** What settling a finished call does to the ledger: telemetry first, then the release. */
  function Settle(l: Ledger, owner: map<RunId, Workspace>, run: RunId, reservation: int, day: Option<Day>,
                  cost: Option<int>, w: Weather): Ledger
  {
    if cost.None? || cost.value < 0 || !w.recordCommits then l
    else
      var recorded := RecordActual(l, run, cost.value);
      if w.releaseCommits then Release(recorded, owner, run, ReservationToRelease(reservation, cost), day)
      else recorded
  }

  class BudgetedModelGateway {
    const store: PostgresRunProviderBudgetStore
    const total: int
    const cap: Option<int>
    const pricing: Option<Pricing>
    const outputLimit: Option<int>
    const safety: real

    /** Legal options: a non-negative ceiling, a positive workspace cap, a multiplier from 1 to 10. */
    predicate Valid() {
      total >= 0 && (cap.Some? ==> cap.value >= 1) && 1.0 <= safety <= 10.0
    }

    constructor (store: PostgresRunProviderBudgetStore, total: int, cap: Option<int>, pricing: Option<Pricing>,
                 outputLimit: Option<int>, safety: real)
      requires total >= 0 && (cap.Some? ==> cap.value >= 1) && 1.0 <= safety <= 10.0
      ensures Valid() && this.store == store && this.total == total && this.cap == cap
      ensures this.pricing == pricing && this.outputLimit == outputLimit && this.safety == safety
    {
      this.store, this.total, this.cap := store, total, cap;
      this.pricing, this.outputLimit, this.safety := pricing, outputLimit, safety;
    }

    /** `generate`, and `stream` with at most one completed event. No run id means no budget context. */
    method Generate(run: Option<RunId>, request: Request, day: Day, weather: Weather) returns (r: CallResult)
      requires Valid()
      modifies store
      ensures
        if total == 0 then r == Refused(BudgetDisabled) && store.State() == old(store.State())
        else if run.None? then r == Refused(ContextMissing) && store.State() == old(store.State())
        else
          match Reservation(request, pricing, outputLimit, safety)
          case Err(e) => r == Refused(e) && store.State() == old(store.State())
          case Ok(amount) =>
            var (reserved, result) :=
              Reserve(old(store.State()), store.owner, ReserveInput(run.value, amount, total, cap), day);
            match result
            case Failed(e) => r == Refused(e) && store.State() == reserved
            case Rejected(_, scope) =>
              && r == Refused(if scope.RunScope? then RunBudgetExceeded else WorkspaceBudgetExceeded)
              && store.State() == reserved
            case Accepted(_, window) =>
              if weather.response.None? then r == ProviderFailed && store.State() == reserved
              else
                && r == Answered(weather.response.value)
                && store.State()
                   == Settle(reserved, store.owner, run.value, amount, window, weather.response.value.cost, weather)
    {
      if total == 0 {
        return Refused(BudgetDisabled);
      }
      if run.None? {
        return Refused(ContextMissing);
      }
      var estimate := Reservation(request, pricing, outputLimit, safety);
      if estimate.Err? {
        return Refused(estimate.error);
      }
      var amount := estimate.value;
      var reservation := store.ReserveBudget(ReserveInput(run.value, amount, total, cap), day);
      match reservation {
        case Failed(e) =>
          return Refused(e);
        case Rejected(_, scope) =>
          return Refused(if scope.RunScope? then RunBudgetExceeded else WorkspaceBudgetExceeded);
        case Accepted(_, window) =>
          if weather.response.None? {
            return ProviderFailed;
          }
          var response := weather.response.value;
          if response.cost.Some? && response.cost.value >= 0 && weather.recordCommits {
            var _ := store.RecordActualCost(run.value, response.cost.value);
            var release := ReservationToRelease(amount, response.cost);
            if release > 0 && weather.releaseCommits {
              var _ := store.ReleaseBudget(run.value, release, window);
            }
          }
          return Answered(response);
      }
    }
  }

  // ---- Histories of concurrent calls ----

  /** What a reservation is estimated from. */
  datatype Plan = Plan(request: Request, pricing: Pricing, outputLimit: Option<int>, safety: real)

  /** Tokens as the provider reports them. */
  datatype Usage = Usage(input: int, cached: int, output: int)

  /**
   * An accepted call: what it reserved and why, where it was charged, what it gave back, what it
   * cost. `settled` says that its release has been committed.
   */
  datatype Call = Call(run: RunId, window: Option<Window>, reservation: int, released: int, cost: Option<int>,
                       settled: bool, plan: Plan)

  datatype World = World(ledger: Ledger, calls: seq<Call>)

  /**
   * One database transaction of some call. `Begin` is a reservation of a new call under whatever
   * ceilings are deployed then; `Record` stores the cost of a finished call, `GiveBack` releases
   * what it did not need. A call that fails, or whose record is lost, never gets that far; one
   * whose release is lost stays recorded and unsettled.
   */
  datatype Step =
    | Begin(run: RunId, plan: Plan, total: int, cap: Option<int>, day: Day)
    | Record(call: nat, usage: Usage, cost: int)
    | GiveBack(call: nat)

  function Planned(plan: Plan): Result<int, BudgetError> {
    Reservation(plan.request, Some(plan.pricing), plan.outputLimit, plan.safety)
  }

  function BeginOn(w: World, owner: map<RunId, Workspace>, input: ReserveInput, day: Day, plan: Plan): World {
    var (ledger, result) := Reserve(w.ledger, owner, input, day);
    if result.Accepted? then
      var window := if result.window.Some? && input.run in owner
                    then Some(Window(owner[input.run], result.window.value)) else None;
      World(ledger, w.calls + [Call(input.run, window, input.amount, 0, None, false, plan)])
    else w.(ledger := ledger)
  }

  function DayOf(c: Call): Option<Day> {
    if c.window.Some? then Some(c.window.value.day) else None
  }

  function Apply(w: World, owner: map<RunId, Workspace>, step: Step): World {
    match step
    case Begin(run, plan, total, cap, day) =>
      if Planned(plan).Err? then w
      else BeginOn(w, owner, ReserveInput(run, Planned(plan).value, total, cap), day, plan)
    case Record(i, _, cost) =>
      if i >= |w.calls| || w.calls[i].cost.Some? || cost < 0 then w
      else World(RecordActual(w.ledger, w.calls[i].run, cost), w.calls[i := w.calls[i].(cost := Some(cost))])
    case GiveBack(i) =>
      if i >= |w.calls| || w.calls[i].cost.None? || w.calls[i].settled then w
      else
        var c := w.calls[i];
        var release := ReservationToRelease(c.reservation, c.cost);
        World(Release(w.ledger, owner, c.run, release, DayOf(c)),
              w.calls[i := c.(released := release, settled := true)])
  }

  /**
   * What the gateway does after an answer is these two transactions, or the first alone if the release
   * is lost. If the record is lost, or there is no sensible cost, it is neither, and the whole
   * reservation stays charged.
   */
  lemma SettleIsRecordThenGiveBack(w: World, owner: map<RunId, Workspace>, i: nat, usage: Usage, cost: Option<int>,
                                   weather: Weather)
    requires i < |w.calls| && w.calls[i].cost.None? && !w.calls[i].settled
    ensures var c := w.calls[i];
      Settle(w.ledger, owner, c.run, c.reservation, DayOf(c), cost, weather)
      == if cost.None? || cost.value < 0 || !weather.recordCommits then w.ledger
         else
           var recorded := Apply(w, owner, Record(i, usage, cost.value));
           (if weather.releaseCommits then Apply(recorded, owner, GiveBack(i)) else recorded).ledger
  {
  }

  const START := World(Ledger(map[], map[]), [])

  function Run(owner: map<RunId, Workspace>, steps: seq<Step>): World {
    if steps == [] then START
    else Apply(Run(owner, steps[..|steps| - 1]), owner, steps[|steps| - 1])
  }

  /** What the calls charged to a run still hold: reservation minus what was released. */
  function HeldByRun(calls: seq<Call>, run: RunId): int {
    if calls == [] then 0
    else
      var c := calls[|calls| - 1];
      HeldByRun(calls[..|calls| - 1], run) + if c.run == run then c.reservation - c.released else 0
  }

  function HeldByWindow(calls: seq<Call>, window: Window): int {
    if calls == [] then 0
    else
      var c := calls[|calls| - 1];
      HeldByWindow(calls[..|calls| - 1], window) + if c.window == Some(window) then c.reservation - c.released else 0
  }

  /** Money out of the door plus money that may still go out: real cost of finished calls, full reservation of the others. */
  function Exposure(calls: seq<Call>, run: RunId): int {
    if calls == [] then 0
    else
      var c := calls[|calls| - 1];
      Exposure(calls[..|calls| - 1], run)
      + if c.run != run then 0 else if c.cost.Some? then c.cost.value else c.reservation
  }

  lemma {:induction false} HeldUpdate(calls: seq<Call>, i: nat, c: Call, run: RunId, window: Window)
    requires i < |calls| && c.run == calls[i].run && c.window == calls[i].window
    ensures HeldByRun(calls[i := c], run) == HeldByRun(calls, run)
      + if c.run == run then (c.reservation - c.released) - (calls[i].reservation - calls[i].released) else 0
    ensures HeldByWindow(calls[i := c], window) == HeldByWindow(calls, window)
      + if c.window == Some(window) then (c.reservation - c.released) - (calls[i].reservation - calls[i].released) else 0
    decreases |calls|
  {
    var n := |calls| - 1;
    if i < n {
      HeldUpdate(calls[..n], i, c, run, window);
      assert calls[i := c][..n] == calls[..n][i := c];
    } else {
      assert calls[i := c][..n] == calls[..n];
    }
  }

  lemma HeldAppend(calls: seq<Call>, c: Call, run: RunId, window: Window)
    ensures HeldByRun(calls + [c], run) == HeldByRun(calls, run) + if c.run == run then c.reservation - c.released else 0
    ensures HeldByWindow(calls + [c], window)
         == HeldByWindow(calls, window) + if c.window == Some(window) then c.reservation - c.released else 0
  {
  }

  predicate LegalCall(c: Call) {
    && 0 <= c.released <= c.reservation
    && c.released <= (if c.cost.Some? then ReservationToRelease(c.reservation, c.cost) else 0)
    && (!c.settled ==> c.released == 0)
  }

  lemma {:induction false} HeldBounds(calls: seq<Call>, i: nat, run: RunId, window: Window)
    requires forall j :: 0 <= j < |calls| ==> LegalCall(calls[j])
    requires i < |calls|
    ensures calls[i].run == run ==> calls[i].reservation - calls[i].released <= HeldByRun(calls, run)
    ensures calls[i].window == Some(window) ==> calls[i].reservation - calls[i].released <= HeldByWindow(calls, window)
    decreases |calls|
  {
    var n := |calls| - 1;
    HeldNonNegative(calls[..n], run, window);
    if i < n {
      HeldBounds(calls[..n], i, run, window);
    }
  }

  lemma {:induction false} HeldNonNegative(calls: seq<Call>, run: RunId, window: Window)
    requires forall j :: 0 <= j < |calls| ==> LegalCall(calls[j])
    ensures HeldByRun(calls, run) >= 0 && HeldByWindow(calls, window) >= 0
    decreases |calls|
  {
    if calls != [] {
      HeldNonNegative(calls[..|calls| - 1], run, window);
    }
  }

  // ---- The conservation invariant ----

  ghost predicate RunsBalance(w: World) {
    && (forall run :: run in w.ledger.runs ==>
          w.ledger.runs[run].reserved == HeldByRun(w.calls, run) <= w.ledger.runs[run].total)
    && (forall i :: 0 <= i < |w.calls| ==> w.calls[i].run in w.ledger.runs)
  }

  ghost predicate WindowsBalance(w: World) {
    && (forall window :: window in w.ledger.windows ==>
          w.ledger.windows[window] == HeldByWindow(w.calls, window))
    && (forall i :: 0 <= i < |w.calls| ==>
          w.calls[i].window.Some? ==> w.calls[i].window.value in w.ledger.windows)
  }

  ghost predicate Balanced(w: World, owner: map<RunId, Workspace>) {
    && RunsBalance(w)
    && WindowsBalance(w)
    && (forall i :: 0 <= i < |w.calls| ==> LegalCall(w.calls[i]))
    && (forall i :: 0 <= i < |w.calls| && w.calls[i].window.Some? ==>
          w.calls[i].run in owner && w.calls[i].window.value.workspace == owner[w.calls[i].run])
  }

  lemma {:induction false} NothingHeld(calls: seq<Call>, run: RunId, window: Window)
    ensures (forall i :: 0 <= i < |calls| ==> calls[i].run != run) ==> HeldByRun(calls, run) == 0
    ensures (forall i :: 0 <= i < |calls| ==> calls[i].window != Some(window)) ==> HeldByWindow(calls, window) == 0
  {
    if calls != [] {
      NothingHeld(calls[..|calls| - 1], run, window);
    }
  }

  /** A reservation, row by row: new rows start empty, and only an accepted one adds its amount. */
  lemma ReserveEffect(l: Ledger, owner: map<RunId, Workspace>, input: ReserveInput, day: Day)
    ensures var (l', r) := Reserve(l, owner, input, day);
      && l.runs.Keys <= l'.runs.Keys <= l.runs.Keys + {input.run}
      && (forall run :: run in l'.runs ==>
            && (run in l.runs ==> l'.runs[run].total == l.runs[run].total)
            && l'.runs[run].reserved == (if run in l.runs then l.runs[run].reserved else 0)
                                      + if r.Accepted? && run == input.run then input.amount else 0)
      && (r.Accepted? ==>
            && input.run in l'.runs && input.amount > 0
            && l'.runs[input.run].reserved <= l'.runs[input.run].total
            && (r.window.Some? ==>
                  && r.window.value == day
                  && input.run in owner
                  && Window(owner[input.run], day) in l'.windows))
      && (!r.Accepted? && input.run !in l.runs && input.run in l'.runs ==> l'.runs[input.run].total > 0)
  {
  }

  lemma ReserveEffectOnWindows(l: Ledger, owner: map<RunId, Workspace>, input: ReserveInput, day: Day)
    ensures var (l', r) := Reserve(l, owner, input, day);
      && l.windows.Keys <= l'.windows.Keys
      && (forall w :: w in l'.windows ==>
            l'.windows[w] == (if w in l.windows then l.windows[w] else 0)
              + if r.Accepted? && r.window.Some? && w == Window(owner[input.run], day) then input.amount else 0)
  {
  }

  lemma BeginKeepsRunRow(w: World, owner: map<RunId, Workspace>, input: ReserveInput, day: Day, plan: Plan, run: RunId)
    requires RunsBalance(w) && run in BeginOn(w, owner, input, day, plan).ledger.runs
    ensures var next := BeginOn(w, owner, input, day, plan);
      next.ledger.runs[run].reserved == HeldByRun(next.calls, run) <= next.ledger.runs[run].total
  {
    var next := BeginOn(w, owner, input, day, plan);
    ReserveEffect(w.ledger, owner, input, day);
    if run !in w.ledger.runs {
      NothingHeld(w.calls, run, Window(0, 0));
    }
    if |next.calls| > |w.calls| {
      HeldAppend(w.calls, next.calls[|w.calls|], run, Window(0, 0));
    }
  }

  lemma BeginKeepsRuns(w: World, owner: map<RunId, Workspace>, input: ReserveInput, day: Day, plan: Plan)
    requires RunsBalance(w)
    ensures RunsBalance(BeginOn(w, owner, input, day, plan))
  {
    var next := BeginOn(w, owner, input, day, plan);
    ReserveEffect(w.ledger, owner, input, day);
    forall run | run in next.ledger.runs
      ensures next.ledger.runs[run].reserved == HeldByRun(next.calls, run) <= next.ledger.runs[run].total
    {
      BeginKeepsRunRow(w, owner, input, day, plan, run);
    }
  }

  lemma BeginKeepsWindows(w: World, owner: map<RunId, Workspace>, input: ReserveInput, day: Day, plan: Plan)
    requires Balanced(w, owner)
    ensures WindowsBalance(BeginOn(w, owner, input, day, plan))
  {
    var next := BeginOn(w, owner, input, day, plan);
    ReserveEffect(w.ledger, owner, input, day);
    ReserveEffectOnWindows(w.ledger, owner, input, day);
    forall window | window in next.ledger.windows
      ensures next.ledger.windows[window] == HeldByWindow(next.calls, window)
    {
      if window !in w.ledger.windows {
        NothingHeld(w.calls, 0, window);
      }
      if |next.calls| > |w.calls| {
        HeldAppend(w.calls, next.calls[|w.calls|], 0, window);
      }
    }
  }

  lemma BeginKeepsBalance(w: World, owner: map<RunId, Workspace>, input: ReserveInput, day: Day, plan: Plan)
    requires Balanced(w, owner)
    ensures Balanced(BeginOn(w, owner, input, day, plan), owner)
  {
    BeginKeepsRuns(w, owner, input, day, plan);
    BeginKeepsWindows(w, owner, input, day, plan);
    ReserveEffect(w.ledger, owner, input, day);
  }

  /** The `GREATEST(0, …)` clamp never truncates: both rows hold at least what is given back. */
  lemma ClampNeverTruncates(w: World, owner: map<RunId, Workspace>, i: nat)
    requires Balanced(w, owner) && i < |w.calls| && w.calls[i].cost.Some? && !w.calls[i].settled
    ensures var c := w.calls[i];
      var release := ReservationToRelease(c.reservation, c.cost);
      && 0 <= release <= w.ledger.runs[c.run].reserved
      && (c.window.Some? ==> release <= w.ledger.windows[c.window.value])
  {
    var c := w.calls[i];
    HeldBounds(w.calls, i, c.run, if c.window.Some? then c.window.value else Window(0, 0));
    ReleaseWithinReservation(c.reservation, c.cost);
  }

  lemma ReleaseWithinReservation(reservation: int, cost: Option<int>)
    requires reservation >= 0
    ensures 0 <= ReservationToRelease(reservation, cost) <= reservation
  {
    if cost.Some? && cost.value >= 0 {
      assert cost.value as real * SETTLED_COST_MARGIN >= 0.0;
    }
  }

  lemma GiveBackLedger(w: World, owner: map<RunId, Workspace>, i: nat)
    requires Balanced(w, owner) && i < |w.calls| && w.calls[i].cost.Some? && !w.calls[i].settled
    ensures var c := w.calls[i];
      var release := ReservationToRelease(c.reservation, c.cost);
      var l, l' := w.ledger, Apply(w, owner, GiveBack(i)).ledger;
      && l'.runs.Keys == l.runs.Keys && l'.windows.Keys == l.windows.Keys
      && (forall run :: run in l.runs ==>
            && l'.runs[run].total == l.runs[run].total
            && l'.runs[run].reserved == l.runs[run].reserved - if run == c.run then release else 0)
      && (forall window :: window in l.windows ==>
            l'.windows[window] == l.windows[window] - if c.window == Some(window) then release else 0)
  {
    ClampNeverTruncates(w, owner, i);
  }

  lemma GiveBackKeepsSums(w: World, owner: map<RunId, Workspace>, i: nat)
    requires Balanced(w, owner) && i < |w.calls| && w.calls[i].cost.Some? && !w.calls[i].settled
    ensures RunsBalance(Apply(w, owner, GiveBack(i))) && WindowsBalance(Apply(w, owner, GiveBack(i)))
  {
    var next := Apply(w, owner, GiveBack(i));
    ClampNeverTruncates(w, owner, i);
    GiveBackLedger(w, owner, i);
    var c := next.calls[i];
    assert next.calls == w.calls[i := c];
    forall run | run in next.ledger.runs
      ensures next.ledger.runs[run].reserved == HeldByRun(next.calls, run) <= next.ledger.runs[run].total
    {
      HeldUpdate(w.calls, i, c, run, Window(0, 0));
    }
    forall window | window in next.ledger.windows
      ensures next.ledger.windows[window] == HeldByWindow(next.calls, window)
    {
      HeldUpdate(w.calls, i, c, 0, window);
    }
  }

  lemma GiveBackKeepsBalance(w: World, owner: map<RunId, Workspace>, i: nat)
    requires Balanced(w, owner)
    ensures Balanced(Apply(w, owner, GiveBack(i)), owner)
  {
    if i < |w.calls| && w.calls[i].cost.Some? && !w.calls[i].settled {
      GiveBackKeepsSums(w, owner, i);
      ReleaseWithinReservation(w.calls[i].reservation, w.calls[i].cost);
    }
  }

  /** Recording a cost moves no reservation. */
  lemma RecordKeepsBalance(w: World, owner: map<RunId, Workspace>, i: nat, usage: Usage, cost: int)
    requires Balanced(w, owner)
    ensures Balanced(Apply(w, owner, Record(i, usage, cost)), owner)
  {
    var next := Apply(w, owner, Record(i, usage, cost));
    if i < |w.calls| && w.calls[i].cost.None? && cost >= 0 {
      var c := next.calls[i];
      assert LegalCall(w.calls[i]);
      ReleaseWithinReservation(c.reservation, c.cost);
      forall run
        ensures HeldByRun(next.calls, run) == HeldByRun(w.calls, run)
      {
        HeldUpdate(w.calls, i, c, run, Window(0, 0));
      }
      forall window
        ensures HeldByWindow(next.calls, window) == HeldByWindow(w.calls, window)
      {
        HeldUpdate(w.calls, i, c, 0, window);
      }
    }
  }

  // ---- The main results, over every interleaving ----

  /** Both ledgers always equal the sum over accepted calls of reservation minus released. */
  lemma {:induction false} BudgetConserved(owner: map<RunId, Workspace>, steps: seq<Step>)
    ensures Balanced(Run(owner, steps), owner)
  {
    if steps != [] {
      var w := Run(owner, steps[..|steps| - 1]);
      BudgetConserved(owner, steps[..|steps| - 1]);
      match steps[|steps| - 1]
      case Begin(run, plan, total, cap, day) =>
        if Planned(plan).Ok? {
          BeginKeepsBalance(w, owner, ReserveInput(run, Planned(plan).value, total, cap), day, plan);
        }
      case Record(i, usage, cost) => RecordKeepsBalance(w, owner, i, usage, cost);
      case GiveBack(i) => GiveBackKeepsBalance(w, owner, i);
    }
  }

  lemma StepKeepsCeiling(w: World, owner: map<RunId, Workspace>, step: Step, run: RunId)
    requires run in w.ledger.runs
    ensures run in Apply(w, owner, step).ledger.runs
    ensures Apply(w, owner, step).ledger.runs[run].total == w.ledger.runs[run].total
  {
  }

  /** The ceiling first recorded for a run is never changed by a later deployment. */
  lemma {:induction false} CeilingIsFinal(owner: map<RunId, Workspace>, steps: seq<Step>, k: nat, run: RunId)
    requires k <= |steps| && run in Run(owner, steps[..k]).ledger.runs
    ensures run in Run(owner, steps).ledger.runs
    ensures Run(owner, steps).ledger.runs[run].total == Run(owner, steps[..k]).ledger.runs[run].total
    decreases |steps|
  {
    var n := |steps|;
    if k == n {
      assert steps[..k] == steps;
    } else {
      assert steps[..n - 1][..k] == steps[..k];
      CeilingIsFinal(owner, steps[..n - 1], k, run);
      StepKeepsCeiling(Run(owner, steps[..n - 1]), owner, steps[n - 1], run);
    }
  }

  lemma {:induction false} ExposureWithinHeld(calls: seq<Call>, run: RunId)
    requires forall i :: 0 <= i < |calls| ==> LegalCall(calls[i])
    requires forall i :: 0 <= i < |calls| && calls[i].cost.Some? ==> 0 <= calls[i].cost.value <= calls[i].reservation
    ensures Exposure(calls, run) <= HeldByRun(calls, run)
    decreases |calls|
  {
    if calls != [] {
      var n := |calls| - 1;
      ExposureWithinHeld(calls[..n], run);
      var c := calls[n];
      if c.cost.Some? {
        KeptCoversCost(c.reservation, c.cost);
      }
    }
  }

  // ---- Spending, from the token bounds to the ceiling ----

  /** The reservation of every call was computed from legal rates and covers the dearest usage within its bounds. */
  predicate CoveredPlan(plan: Plan) {
    LegalRates(plan.pricing)
    && (Planned(plan).Ok? ==> Covered(plan.request, plan.pricing, plan.outputLimit, plan.safety))
  }

  /** The reported cost is that of the reported tokens, and the tokens are within the plan's bounds. */
  predicate Metered(plan: Plan, usage: Usage, cost: int) {
    && Planned(plan).Ok?
    && cost == CostUsdMicros(usage.input, usage.cached, usage.output, plan.pricing)
    && WithinTokenBounds(plan.request, plan.outputLimit, usage.input, usage.output)
  }

  predicate CoveredPlans(steps: seq<Step>) {
    forall k :: 0 <= k < |steps| && steps[k].Begin? ==> CoveredPlan(steps[k].plan)
  }

  /** Every record that is made for an accepted call is metered. */
  ghost predicate MeteredRecords(owner: map<RunId, Workspace>, steps: seq<Step>) {
    forall k :: 0 <= k < |steps| && steps[k].Record? ==> MeteredAt(Run(owner, steps[..k]), steps[k])
  }

  predicate MeteredAt(w: World, step: Step)
    requires step.Record?
  {
    step.call < |w.calls| ==> Metered(w.calls[step.call].plan, step.usage, step.cost)
  }

  /** A call reserved what its plan says, and did not cost more. */
  predicate WithinPlan(c: Call) {
    && CoveredPlan(c.plan) && Planned(c.plan) == Ok(c.reservation)
    && (c.cost.Some? ==> 0 <= c.cost.value <= c.reservation)
  }

  predicate AllWithinPlan(calls: seq<Call>) {
    forall i :: 0 <= i < |calls| ==> WithinPlan(calls[i])
  }

  lemma MeteredCostIsCovered(c: Call, usage: Usage, cost: int)
    requires WithinPlan(c) && Metered(c.plan, usage, cost)
    ensures 0 <= cost <= c.reservation
  {
    var plan := c.plan;
    CostCoveredExactly(plan.request, plan.pricing, plan.outputLimit, plan.safety);
    assert CostsAtMost(usage.input, usage.cached, usage.output, plan.pricing, c.reservation);
  }

  lemma StepKeepsPlans(w: World, owner: map<RunId, Workspace>, step: Step)
    requires AllWithinPlan(w.calls)
    requires step.Begin? ==> CoveredPlan(step.plan)
    requires step.Record? ==> MeteredAt(w, step)
    ensures AllWithinPlan(Apply(w, owner, step).calls)
  {
    if step.Record? && step.call < |w.calls| {
      MeteredCostIsCovered(w.calls[step.call], step.usage, step.cost);
    }
  }

  lemma {:induction false} PlansAreKept(owner: map<RunId, Workspace>, steps: seq<Step>)
    requires CoveredPlans(steps) && MeteredRecords(owner, steps)
    ensures AllWithinPlan(Run(owner, steps).calls)
  {
    if steps != [] {
      var n := |steps| - 1;
      forall k | 0 <= k < n && steps[..n][k].Record?
        ensures MeteredAt(Run(owner, steps[..n][..k]), steps[..n][k])
      {
        assert steps[..n][..k] == steps[..k];
      }
      PlansAreKept(owner, steps[..n]);
      StepKeepsPlans(Run(owner, steps[..n]), owner, steps[n]);
    }
  }

  /**
   * If every plan is covered, which is decided before the call, and every provider keeps to the
   * token bounds of its call, then in every interleaving the real cost of a run's finished calls
   * plus the full reservations still open stay within the ceiling first recorded for that run.
   */
  lemma SpendWithinCeiling(owner: map<RunId, Workspace>, steps: seq<Step>, run: RunId)
    requires CoveredPlans(steps) && MeteredRecords(owner, steps)
    requires run in Run(owner, steps).ledger.runs
    ensures Exposure(Run(owner, steps).calls, run) <= Run(owner, steps).ledger.runs[run].total
  {
    BudgetConserved(owner, steps);
    PlansAreKept(owner, steps);
    var calls := Run(owner, steps).calls;
    ExposureWithinHeld(calls, run);
  }
}
