/**
 * Whole histories of one run: API handlers, queued and redelivered jobs, workers walking the agent
 * graph, and the sweepers, interleaved transaction by transaction.
 */
module RunHistory {
  import opened Wrappers
  import opened FileRevisions
  import opened RunRecord

  // ---- What gave the run each control version ----

  datatype Entry =
    | CreatedEntry
    | ActionEntry(action: Action)
    | ClaimedEntry
    | GateEntry(scope: Scope)
    | CompletedEntry
    | FailedEntry
    | ExpiredEntry

  function StatusOf(e: Entry): RunStatus {
    match e
    case CreatedEntry => PENDING
    case ActionEntry(PauseAction) => PAUSED
    case ActionEntry(CancelAction) => CANCELLED
    case ActionEntry(_) => PENDING
    case ClaimedEntry => RUNNING
    case GateEntry(_) => PAUSED
    case CompletedEntry => COMPLETED
    case FailedEntry => FAILED
    case ExpiredEntry => CANCELLED
  }

  /** The one job that the producer of a PENDING version queues. */
  function JobOf(e: Entry, version: nat): Option<Job> {
    match e
    case CreatedEntry => Some(Job(version, Start, None))
    case ActionEntry(ResumeAction) => Some(Job(version, Resume, None))
    case ActionEntry(ApproveAction(scope)) => Some(Job(version, Approve, Some(scope)))
    case ActionEntry(RetryAction) => Some(Job(version, Retry, None))
    case _ => None
  }

  // ---- The worker program ----

  /** Where a worker stands between two of its transactions. */
  datatype Phase =
    | AtAgent(agent: Agent)
    | Prepared(agent: Agent)
    | Executing(agent: Agent)
    | FailingTask(agent: Agent, retryable: bool)
    | AtPlanGate
    | AtContentGate
    | CheckingRoutes
    | Validating(repairs: nat)
    | Throwing(retryable: bool)
    | Over

  /** `token` is the control version its claim returned; `maxRepairs` is 0 also where no repairer is set up. */
  datatype Worker = Worker(job: Job, token: nat, phase: Phase, outputs: map<Agent, Output>, bypassed: bool,
                           maxRepairs: nat)

  /** The fixed edges of the graph. */
  function After(agent: Agent): Phase {
    match agent
    case Sophia => AtAgent(Mike)
    case Mike => AtAgent(Emma)
    case Emma => AtAgent(Bob)
    case Bob => AtPlanGate
    case Alex => AtAgent(David)
    case David => AtAgent(Sarah)
    case Sarah => AtAgent(Adrian)
    case Adrian => AtContentGate
  }

  /**
   * The outside world at one step: `fails` makes the transaction raise and roll back, `skip` is the
   * project type's or plan's verdict on the agent, `result` the agent's answer (none: it failed),
   * `patch` the files an agent or a repair hands in (none for a repair: nothing to repair, or the
   * repair failed before it had files), `references` whether the run carries attachments,
   * `validates` whether the sandbox passed the project.
   */
  datatype Answer = Answer(
    now: Time,
    fails: bool,
    skip: bool,
    parses: bool,
    result: Option<Output>,
    patch: Option<seq<PatchFile>>,
    rejected: bool,
    references: bool,
    validates: bool,
    retryable: bool,
    attemptsLeft: bool)

  /** A plan gate that let a plan of Mike's through, and whether the run had references then. */
  datatype Opening = Opening(plan: Output, references: bool)

  /** What one worker step leaves. */
  datatype Advanced = Advanced(run: Run, files: seq<Revision>, worker: Worker, opening: Option<Opening>)

  function Go(run: Run, files: seq<Revision>, worker: Worker, phase: Phase): Advanced {
    Advanced(run, files, worker.(phase := phase), None)
  }

  /** A completed task is restored from its stored output instead of being executed. */
  function Restore(run: Run, files: seq<Revision>, worker: Worker, agent: Agent, task: Task, a: Answer): Advanced {
    if task.output.None? || !a.parses then Go(run, files, worker, Throwing(a.retryable))
    else
      Advanced(run, files, worker.(phase := After(agent), outputs := worker.outputs[agent := task.output.value]), None)
  }

  function RunAgentStep(run: Run, files: seq<Revision>, worker: Worker, agent: Agent, a: Answer): Advanced {
    if a.skip then
      var (run', r) := SkipTask(run, worker.token, agent, a.now);
      Go(run', files, worker, if r.Stopped? then Over else After(agent))
    else
      var (run', r) := PrepareTask(run, worker.token, agent, a.now);
      match r
      case Stopped => Go(run', files, worker, Over)
      case NoSuchTask => Go(run', files, worker, Throwing(a.retryable))
      case TaskOk(task) =>
        if task.status == TaskCompleted then Restore(run', files, worker, agent, task, a)
        else Go(run', files, worker, Prepared(agent))
  }

  function StartStep(run: Run, files: seq<Revision>, worker: Worker, agent: Agent, a: Answer): Advanced {
    var (run', r) := StartTask(run, worker.token, agent, a.now);
    match r
    case Stopped => Go(run', files, worker, Over)
    case NoSuchTask => Go(run', files, worker, Throwing(a.retryable))
    case TaskOk(task) =>
      if task.status == TaskCompleted then Restore(run', files, worker, agent, task, a)
      else Go(run', files, worker, Executing(agent))
  }

  /** Only Alex and David hand files in. */
  function HandedIn(agent: Agent, a: Answer): Option<seq<PatchFile>> {
    if agent == Alex || agent == David then Some(if a.patch.Some? then a.patch.value else []) else None
  }

  function Conclude(run: Run, files: seq<Revision>, r: CompleteResult, worker: Worker, agent: Agent, a: Answer): Advanced
    requires a.result.Some?
  {
    match r
    case CompleteStopped => Go(run, files, worker, Over)
    case Done(_) =>
      Advanced(run, files, worker.(phase := After(agent), outputs := worker.outputs[agent := a.result.value]), None)
    case FileConflict => Go(run, files, worker, FailingTask(agent, a.retryable))
    case Threw => Go(run, files, worker, FailingTask(agent, a.retryable))
  }

  function ExecuteStep(run: Run, files: seq<Revision>, worker: Worker, agent: Agent, a: Answer): Advanced {
    if a.result.None? || a.fails then Go(run, files, worker, FailingTask(agent, a.retryable))
    else
      var (run', files', r) :=
        CompleteTask(run, files, worker.token, agent, a.result.value, HandedIn(agent, a), a.rejected, a.now);
      Conclude(run', files', r, worker, agent, a)
  }

  function PlanGateStep(run: Run, files: seq<Revision>, worker: Worker, a: Answer): Advanced {
    if Mike !in worker.outputs then Go(run, files, worker, Throwing(a.retryable))
    else if Alex in worker.outputs then Go(run, files, worker, AtAgent(Alex))
    else if a.fails then Go(run, files, worker, Throwing(a.retryable))
    else if !worker.outputs[Mike].requiresApproval && !a.references then
      Advanced(run, files, worker.(phase := AtAgent(Alex)), Some(Opening(worker.outputs[Mike], a.references)))
    else if worker.job.command == Approve && worker.job.scope == Some(PlanScope) && !worker.bypassed then
      Advanced(run, files, worker.(phase := AtAgent(Alex), bypassed := true), None)
    else Go(RequestApproval(run, worker.token, PlanScope, a.now).0, files, worker, Over)
  }

  function ContentGateStep(run: Run, files: seq<Revision>, worker: Worker, a: Answer): Advanced {
    if Adrian !in worker.outputs || !worker.outputs[Adrian].hasCopyVariants then Go(run, files, worker, CheckingRoutes)
    else if worker.job.command == Approve && worker.job.scope == Some(ContentScope) && !worker.bypassed then
      Advanced(run, files, worker.(phase := CheckingRoutes, bypassed := true), None)
    else if a.fails then Go(run, files, worker, Throwing(a.retryable))
    else Go(RequestApproval(run, worker.token, ContentScope, a.now).0, files, worker, Over)
  }

  /** One repair for planned routes that no file serves; whatever becomes of it, validation follows. */
  function RoutesStep(run: Run, files: seq<Revision>, worker: Worker, a: Answer): Advanced {
    if worker.maxRepairs < 1 || a.fails || a.patch.None? then Go(run, files, worker, Validating(0))
    else
      var (run', files', r) := ApplyRepair(run, files, worker.token, a.patch.value, a.now);
      Go(run', files', worker,
         if r.RepairStopped? then Over else if r.Repaired? && r.paths != [] then Validating(1) else Validating(0))
  }

  /** One round of the validation loop: completion, or a repair that wrote something, or the validation's error. */
  function ValidateStep(run: Run, files: seq<Revision>, worker: Worker, repairs: nat, a: Answer): Advanced {
    if a.validates then
      if a.fails then Go(run, files, worker, Throwing(a.retryable))
      else Go(CompleteRun(run, worker.token, a.now).0, files, worker, Over)
    else if a.fails || repairs >= worker.maxRepairs || a.patch.None? then Go(run, files, worker, Throwing(a.retryable))
    else
      var (run', files', r) := ApplyRepair(run, files, worker.token, a.patch.value, a.now);
      Go(run', files', worker,
         if r.RepairStopped? then Over
         else if r.Repaired? && r.paths != [] then Validating(repairs + 1) else Throwing(a.retryable))
  }

  function Advance(run: Run, files: seq<Revision>, worker: Worker, a: Answer): Advanced {
    match worker.phase
    case AtAgent(agent) =>
      if a.fails then Go(run, files, worker, Throwing(a.retryable)) else RunAgentStep(run, files, worker, agent, a)
    case Prepared(agent) =>
      if a.fails then Go(run, files, worker, Throwing(a.retryable)) else StartStep(run, files, worker, agent, a)
    case Executing(agent) => ExecuteStep(run, files, worker, agent, a)
    case FailingTask(agent, retryable) =>
      if a.fails then Go(run, files, worker, Throwing(a.retryable))
      else
        var (run', failed) := FailTask(run, worker.token, agent, a.now);
        Go(run', files, worker,
           match failed
           case FailStopped => Over
           case FailRecorded => Throwing(retryable)
           case FailThrew => Throwing(a.retryable))
    case AtPlanGate => PlanGateStep(run, files, worker, a)
    case AtContentGate => ContentGateStep(run, files, worker, a)
    case CheckingRoutes => RoutesStep(run, files, worker, a)
    case Validating(repairs) => ValidateStep(run, files, worker, repairs, a)
    case Throwing(retryable) =>
      if (retryable && a.attemptsLeft) || a.fails then Go(run, files, worker, Over)
      else Go(FailRun(run, worker.token, a.now).0, files, worker, Over)
    case Over => Go(run, files, worker, Over)
  }

  // ---- The system ----

  datatype LookKind = ForExpiry | ForReminder | ForPurge

  /** A sweeper's read of the run: what it saw, and the cutoff it compared with. */
  datatype Look = Look(kind: LookKind, version: nat, stamp: Time, cutoff: Time, now: Time)

  /**
   * `entries[v]` is what produced version `v`, `times[v]` the clock when it was committed; `jobs`
   * holds every job a producer may have queued; `produced` every output an agent ever handed in
   * under an active token; `openings` the plan gates that opened unasked; `reminders` the
   * versions at which a reminder was recorded.
   */
  datatype World = World(
    run: Run,
    files: seq<Revision>,
    entries: seq<Entry>,
    times: seq<Time>,
    jobs: set<Job>,
    workers: seq<Worker>,
    produced: set<(Agent, Output)>,
    openings: seq<Opening>,
    looks: seq<Look>,
    reminders: seq<nat>,
    clock: Time)

  datatype Step =
    | Tick(d: nat)
    | Act(action: Action, seenStatus: RunStatus, seenVersion: nat, at: Time)
    | Mark(version: nat, at: Time)
    | Deliver(job: Job, at: Time, restored: map<Agent, Output>, maxRepairs: nat)
    | Work(i: nat, answer: Answer)
    | Crash(i: nat)
    | LookAt(kind: LookKind, cutoff: Time, at: Time)
    | ExpireSeen(k: nat)
    | RemindSeen(k: nat)
    | PurgeSeen(k: nat)
    | OtherEvent
    | UserEdit(path: Path, content: string, expectedVersion: nat)

  /** Just after the API has created the run and is about to queue its first job. */
  const START := World(NEW_RUN, [], [CreatedEntry], [0], {Job(0, Start, None)}, [], {}, [], [], [], 0)

  /** The new row, and the entry it needs if its version rose. */
  function Moved(w: World, run: Run, e: Entry): World {
    if run.version == w.run.version then w.(run := run)
    else w.(run := run, entries := w.entries + [e], times := w.times + [w.clock])
  }

  /** What a worker that raises the version does so with. */
  function EntryOf(worker: Worker): Entry {
    match worker.phase
    case AtPlanGate => GateEntry(PlanScope)
    case AtContentGate => GateEntry(ContentScope)
    case Validating(_) => CompletedEntry
    case _ => FailedEntry
  }

  function StampOf(run: Run, kind: LookKind): Time {
    var stamp := if kind.ForPurge? then run.cancelledAt else run.pausedAt;
    if stamp.Some? then stamp.value else 0
  }

  predicate Seen(run: Run, kind: LookKind, cutoff: Time) {
    match kind
    case ForExpiry => ExpiryCandidate(run, cutoff)
    case ForReminder => ReminderCandidate(run, cutoff)
    case ForPurge => PurgeCandidate(run, cutoff)
  }

  /** Handlers stamp a time that is not in the future; `Act` reads the run before it writes. */
  function ActOn(w: World, action: Action, seenStatus: RunStatus, seenVersion: nat, at: Time): World {
    var transition := ResolveTransition(action, seenStatus, at);
    if at > w.clock || transition.None? then w
    else
      var (patch, command) := transition.value;
      var (run, ok) := TransitionRun(w.run, seenStatus, seenVersion, patch);
      if !ok then w
      else
        var scope := if action.ApproveAction? then Some(action.scope) else None;
        var jobs := if command.Some? then w.jobs + {Job(run.version, command.value, scope)} else w.jobs;
        Moved(w, run, ActionEntry(action)).(jobs := jobs)
  }

  /** LangGraph may hand any outputs of earlier jobs back to a new one, or none. */
  predicate Remembered(outputs: map<Agent, Output>, produced: set<(Agent, Output)>) {
    forall agent :: agent in outputs ==> (agent, outputs[agent]) in produced
  }

  /** The output an executing worker has just handed in under an active token. */
  function Handed(worker: Worker, r: Advanced): set<(Agent, Output)> {
    if worker.phase.Executing? && r.worker.phase == After(worker.phase.agent) && worker.phase.agent in r.worker.outputs
    then {(worker.phase.agent, r.worker.outputs[worker.phase.agent])} else {}
  }

  function DeliverOn(w: World, job: Job, at: Time, restored: map<Agent, Output>, maxRepairs: nat): World {
    if job !in w.jobs || !Remembered(restored, w.produced) then w
    else
      var (run, claim) := Claim(w.run, job, at);
      var next := Moved(w, run, ClaimedEntry);
      if !claim.Ready? then next
      else next.(workers := w.workers + [Worker(job, claim.version, AtAgent(Sophia), restored, false, maxRepairs)])
  }

  /** A worker's transaction lands in the shared state. */
  function Land(w: World, i: nat, r: Advanced): World
    requires i < |w.workers|
  {
    var worker := w.workers[i];
    var next := Moved(w, r.run, EntryOf(worker));
    next.(files := r.files, workers := w.workers[i := r.worker],
          produced := w.produced + Handed(worker, r),
          openings := if r.opening.Some? then w.openings + [r.opening.value] else w.openings)
  }

  function WorkOn(w: World, i: nat, a: Answer): World
    requires i < |w.workers|
  {
    Land(w, i, Advance(w.run, w.files, w.workers[i], a))
  }

  function Apply(w: World, step: Step): World {
    match step
    case Tick(d) => w.(clock := w.clock + d)
    case Act(action, seenStatus, seenVersion, at) => ActOn(w, action, seenStatus, seenVersion, at)
    case Mark(version, at) => w.(run := MarkRunFailed(w.run, version, at))
    case Deliver(job, at, restored, maxRepairs) => DeliverOn(w, job, at, restored, maxRepairs)
    case Work(i, a) => if i < |w.workers| && a.now <= w.clock then WorkOn(w, i, a) else w
    case Crash(i) => if i < |w.workers| then w.(workers := w.workers[i := w.workers[i].(phase := Over)]) else w
    case LookAt(kind, cutoff, at) =>
      if at > w.clock || !Seen(w.run, kind, cutoff) then w
      else w.(looks := w.looks + [Look(kind, w.run.version, StampOf(w.run, kind), cutoff, at)])
    case ExpireSeen(k) =>
      if k >= |w.looks| || !w.looks[k].kind.ForExpiry? then w
      else Moved(w, Expire(w.run, w.looks[k].version, w.looks[k].now).0, ExpiredEntry)
    case RemindSeen(k) =>
      if k >= |w.looks| || !w.looks[k].kind.ForReminder? then w
      else
        var (run, ok) := Remind(w.run, w.looks[k].now);
        if ok then w.(run := run, reminders := w.reminders + [w.run.version]) else w
    case PurgeSeen(k) =>
      if k >= |w.looks| || !w.looks[k].kind.ForPurge? then w else w.(run := Purge(w.run, w.looks[k].now).0)
    case OtherEvent => w.(run := Append(w.run, Foreign))
    case UserEdit(path, content, expectedVersion) => w.(files := Put(w.files, path, content, expectedVersion).0)
  }

  function RunAll(steps: seq<Step>): World {
    if steps == [] then START
    else Apply(RunAll(steps[..|steps| - 1]), steps[|steps| - 1])
  }
}
