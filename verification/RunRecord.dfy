/** One agent run: its row, its tasks, its numbered events, and the transactions that change them. */
module RunRecord {
  import opened Wrappers
  import opened FileRevisions

  type Time = int

  datatype RunStatus = PENDING | RUNNING | PAUSED | COMPLETED | FAILED | CANCELLED

  datatype Agent = Sophia | Mike | Emma | Bob | Alex | David | Sarah | Adrian

  datatype Scope = PlanScope | ContentScope

  datatype Command = Start | Resume | Approve | Retry

  /** A queued job; only an approval carries a scope. */
  datatype Job = Job(version: nat, command: Command, scope: Option<Scope>)

  datatype RunError = WorkerError | EnqueueFailed | ApprovalExpired

  /** An agent's answer, as far as the gates read it. */
  datatype Output = Output(content: nat, requiresApproval: bool, hasCopyVariants: bool)

  datatype TaskStatus = TaskPending | TaskRunning | TaskCompleted | TaskFailed | TaskSkipped

  /** `input` says that the row still holds what the agent was asked. */
  datatype Task = Task(status: TaskStatus, attempt: nat, output: Option<Output>, input: bool)

  datatype Artifact = AgentOutput | SeoPackage | ContentPackage

  datatype EventKind =
    | StatusChanged(command: Command, version: nat)
    | TaskCreated(agent: Agent)
    | TaskSkippedEvent(agent: Agent)
    | TaskStarted(agent: Agent, attempt: nat)
    | TaskCompletedEvent(agent: Agent, attempt: nat)
    | ArtifactCreated(agent: Agent, artifact: Artifact)
    | CodeGenerated(agent: Agent, paths: seq<Path>)
    | RepairGenerated(paths: seq<Path>)
    | TaskFailedEvent(agent: Agent, attempt: nat)
    | ApprovalRequired(scope: Scope)
    | RunCompletedEvent
    | RunFailedEvent
    | ReminderDue
    | DataPurged
    | Foreign

  datatype RunEvent = RunEvent(sequence: nat, kind: EventKind)

  /**
   * `redacted` says that purging has replaced the prompt by the redaction marker, cleared the
   * checkpoint and deleted the attachment links, which one transaction does together.
   */
  datatype Run = Run(
    status: RunStatus,
    version: nat,
    startedAt: Option<Time>,
    pausedAt: Option<Time>,
    completedAt: Option<Time>,
    cancelledAt: Option<Time>,
    reminderSentAt: Option<Time>,
    purgedAt: Option<Time>,
    heartbeat: Option<Time>,
    error: Option<RunError>,
    redacted: bool,
    eventSequence: nat,
    events: seq<RunEvent>,
    tasks: map<Agent, Task>)

  const NEW_RUN := Run(PENDING, 0, None, None, None, None, None, None, None, None, false, 0, [], map[])

  function Append(run: Run, kind: EventKind): Run {
    run.(eventSequence := run.eventSequence + 1, events := run.events + [RunEvent(run.eventSequence + 1, kind)])
  }

  function AppendAll(run: Run, kinds: seq<EventKind>): Run {
    if kinds == [] then run else Append(AppendAll(run, kinds[..|kinds| - 1]), kinds[|kinds| - 1])
  }

  // ---- Claiming ----

  datatype ClaimResult = Missing | Stale | Ready(version: nat)

  function Claim(run: Run, job: Job, now: Time): (Run, ClaimResult) {
    if run.status == RUNNING && run.version == job.version + 1 then (run, Ready(run.version))
    else if run.status != PENDING || run.version != job.version then (run, Stale)
    else
      var claimed := run.(status := RUNNING, version := run.version + 1, heartbeat := Some(now),
                          startedAt := if run.startedAt.Some? then run.startedAt else Some(now));
      (Append(claimed, StatusChanged(job.command, claimed.version)), Ready(claimed.version))
  }

  // ---- Task mutations, all fenced by `touchActiveRun` ----

  predicate Active(run: Run, token: nat) {
    run.status == RUNNING && run.version == token
  }

  function Touch(run: Run, now: Time): Run {
    run.(heartbeat := Some(now))
  }

  datatype TaskResult = Stopped | TaskOk(task: Task) | NoSuchTask

  function PrepareTask(run: Run, token: nat, agent: Agent, now: Time): (Run, TaskResult) {
    if !Active(run, token) then (run, Stopped)
    else if agent in run.tasks then (Touch(run, now), TaskOk(run.tasks[agent]))
    else
      var task := Task(TaskPending, 0, None, true);
      (Append(Touch(run, now).(tasks := run.tasks[agent := task]), TaskCreated(agent)), TaskOk(task))
  }

  function SkipTask(run: Run, token: nat, agent: Agent, now: Time): (Run, TaskResult) {
    if !Active(run, token) then (run, Stopped)
    else if agent in run.tasks then (Touch(run, now), TaskOk(run.tasks[agent]))
    else
      var task := Task(TaskSkipped, 0, None, true);
      (Append(Touch(run, now).(tasks := run.tasks[agent := task]), TaskSkippedEvent(agent)), TaskOk(task))
  }

  function StartTask(run: Run, token: nat, agent: Agent, now: Time): (Run, TaskResult) {
    if !Active(run, token) then (run, Stopped)
    else if agent !in run.tasks then (run, NoSuchTask)
    else if run.tasks[agent].status == TaskCompleted then (Touch(run, now), TaskOk(run.tasks[agent]))
    else
      var task := run.tasks[agent].(status := TaskRunning, attempt := run.tasks[agent].attempt + 1);
      (Append(Touch(run, now).(tasks := run.tasks[agent := task]), TaskStarted(agent, task.attempt)), TaskOk(task))
  }

  /** `Threw`: the transaction raised an error and was rolled back. */
  datatype CompleteResult = CompleteStopped | Done(task: Task) | FileConflict | Threw

  function CompletionEvents(agent: Agent, attempt: nat, paths: Option<seq<Path>>): seq<EventKind> {
    [TaskCompletedEvent(agent, attempt), ArtifactCreated(agent, AgentOutput)]
    + (if agent == Sarah then [ArtifactCreated(agent, SeoPackage)] else [])
    + (if agent == Adrian then [ArtifactCreated(agent, ContentPackage)] else [])
    + (if paths.Some? then [CodeGenerated(agent, paths.value)] else [])
  }

  /** The task row and the events of a completion. */
  function Completed(run: Run, agent: Agent, output: Output, paths: Option<seq<Path>>): Run
    requires agent in run.tasks
  {
    var task := run.tasks[agent].(status := TaskCompleted, output := Some(output));
    AppendAll(run.(tasks := run.tasks[agent := task]), CompletionEvents(agent, task.attempt, paths))
  }

  /** The rest of `completeTask` once the file patch has been tried. */
  function Commit(run: Run, files: seq<Revision>, agent: Agent, output: Output, handsIn: bool, written: seq<Revision>,
                  result: PatchResult, rejected: bool, now: Time): (Run, seq<Revision>, CompleteResult)
    requires agent in run.tasks
  {
    if result.Conflict? then (Touch(run, now), files, FileConflict)
    else if result.UniqueViolation? || (agent == David && rejected) then (run, files, Threw)
    else
      (Completed(Touch(run, now), agent, output, if handsIn then Some(result.paths) else None), written,
       Done(run.tasks[agent].(status := TaskCompleted, output := Some(output))))
  }

  /** `rejected` stands for David's own checks of his report and schema, which raise an error. */
  function CompleteTask(run: Run, files: seq<Revision>, token: nat, agent: Agent, output: Output,
                        patch: Option<seq<PatchFile>>, rejected: bool, now: Time): (Run, seq<Revision>, CompleteResult)
  {
    if !Active(run, token) then (run, files, CompleteStopped)
    else if agent !in run.tasks then (run, files, Threw)
    else if run.tasks[agent].status == TaskCompleted then (Touch(run, now), files, Done(run.tasks[agent]))
    else
      var (written, result) := ApplyPatch(files, if patch.Some? then patch.value else []);
      Commit(run, files, agent, output, patch.Some?, written, result, rejected, now)
  }

  /** `FailThrew`: a task row that does not exist cannot be updated. */
  datatype FailResult = FailStopped | FailRecorded | FailThrew

  function FailTask(run: Run, token: nat, agent: Agent, now: Time): (Run, FailResult) {
    if !Active(run, token) then (run, FailStopped)
    else if agent !in run.tasks then (run, FailThrew)
    else
      var task := run.tasks[agent].(status := TaskFailed);
      (Append(Touch(run, now).(tasks := run.tasks[agent := task]), TaskFailedEvent(agent, task.attempt)), FailRecorded)
  }

  /** Of a repair's files only those with new content are written; `Repaired` lists them. */
  datatype RepairResult = RepairStopped | Repaired(paths: seq<Path>) | RepairConflict | RepairThrew

  function ApplyRepair(run: Run, files: seq<Revision>, token: nat, patch: seq<PatchFile>, now: Time)
    : (Run, seq<Revision>, RepairResult)
  {
    if !Active(run, token) then (run, files, RepairStopped)
    else
      var (written, result) := ApplyPatch(files, patch);
      if result.Conflict? then (Touch(run, now), files, RepairConflict)
      else if result.UniqueViolation? then (run, files, RepairThrew)
      else (Append(Touch(run, now), RepairGenerated(result.paths)), written, Repaired(result.paths))
  }

  // ---- The exits from RUNNING ----

  function RequestApproval(run: Run, token: nat, scope: Scope, now: Time): (Run, bool) {
    if !Active(run, token) then (run, false)
    else
      (Append(run.(status := PAUSED, version := run.version + 1, pausedAt := Some(now), heartbeat := Some(now)),
              ApprovalRequired(scope)), true)
  }

  function CompleteRun(run: Run, token: nat, now: Time): (Run, bool) {
    if !Active(run, token) then (run, false)
    else
      (Append(run.(status := COMPLETED, version := run.version + 1, completedAt := Some(now), heartbeat := Some(now)),
              RunCompletedEvent), true)
  }

  function FailRun(run: Run, token: nat, now: Time): (Run, bool) {
    if !Active(run, token) then (run, false)
    else
      (Append(run.(status := FAILED, version := run.version + 1, error := Some(WorkerError), completedAt := Some(now),
                   heartbeat := Some(now)), RunFailedEvent), true)
  }

  // ---- The API ----

  datatype Action = PauseAction | ResumeAction | ApproveAction(scope: Scope) | CancelAction | RetryAction

  /** A field of an update: left alone, set, or cleared. */
  datatype Change = Keep | Set(at: Time) | Clear

  datatype Patch = Patch(status: RunStatus, startedAt: Change, pausedAt: Change, completedAt: Change,
                         cancelledAt: Change, reminderSentAt: Change, clearsError: bool)

  function Changed(before: Option<Time>, c: Change): Option<Time> {
    match c
    case Keep => before
    case Set(at) => Some(at)
    case Clear => None
  }

  /** `resolveRunTransition`: the patch, and the job command to queue once it is committed. */
  function ResolveTransition(action: Action, current: RunStatus, at: Time): Option<(Patch, Option<Command>)> {
    match action
    case PauseAction =>
      if current != PENDING && current != RUNNING then None
      else Some((Patch(PAUSED, Keep, Set(at), Keep, Keep, Keep, false), None))
    case ResumeAction =>
      if current != PAUSED then None
      else Some((Patch(PENDING, Keep, Clear, Keep, Keep, Clear, false), Some(Resume)))
    case ApproveAction(_) =>
      if current != PAUSED then None
      else Some((Patch(PENDING, Keep, Clear, Keep, Keep, Clear, false), Some(Approve)))
    case CancelAction =>
      if current != PENDING && current != RUNNING && current != PAUSED then None
      else Some((Patch(CANCELLED, Keep, Keep, Keep, Set(at), Keep, false), None))
    case RetryAction =>
      if current != FAILED then None
      else Some((Patch(PENDING, Clear, Clear, Clear, Clear, Keep, true), Some(Retry)))
  }

  /** Compare-and-swap on the status and version the handler read before. */
  function TransitionRun(run: Run, seenStatus: RunStatus, seenVersion: nat, patch: Patch): (Run, bool) {
    if run.status != seenStatus || run.version != seenVersion then (run, false)
    else
      (run.(status := patch.status, version := run.version + 1, startedAt := Changed(run.startedAt, patch.startedAt),
            pausedAt := Changed(run.pausedAt, patch.pausedAt),
            completedAt := Changed(run.completedAt, patch.completedAt),
            cancelledAt := Changed(run.cancelledAt, patch.cancelledAt),
            reminderSentAt := Changed(run.reminderSentAt, patch.reminderSentAt),
            error := if patch.clearsError then None else run.error), true)
  }

  /** Does not raise the version. */
  function MarkRunFailed(run: Run, version: nat, now: Time): Run {
    if run.status != PENDING || run.version != version then run
    else run.(status := FAILED, completedAt := Some(now), error := Some(EnqueueFailed))
  }

  // ---- The sweepers ----

  predicate ExpiryCandidate(run: Run, pausedBefore: Time) {
    run.status == PAUSED && run.pausedAt.Some? && run.pausedAt.value < pausedBefore
  }

  function Expire(run: Run, seenVersion: nat, now: Time): (Run, bool) {
    if run.status != PAUSED || run.version != seenVersion then (run, false)
    else
      (run.(status := CANCELLED, version := run.version + 1, cancelledAt := Some(now), error := Some(ApprovalExpired)),
       true)
  }

  predicate ReminderCandidate(run: Run, pausedBefore: Time) {
    ExpiryCandidate(run, pausedBefore) && run.reminderSentAt.None?
  }

  /** The swap compares the status and the empty reminder, not the version. */
  function Remind(run: Run, now: Time): (Run, bool) {
    if run.status != PAUSED || run.reminderSentAt.Some? then (run, false)
    else (Append(run.(reminderSentAt := Some(now)), ReminderDue), true)
  }

  predicate PurgeCandidate(run: Run, cancelledBefore: Time) {
    && run.status == CANCELLED && run.purgedAt.None?
    && run.cancelledAt.Some? && run.cancelledAt.value < cancelledBefore
    && run.error == Some(ApprovalExpired)
  }

  function Purge(run: Run, now: Time): (Run, bool) {
    if run.status != CANCELLED || run.purgedAt.Some? then (run, false)
    else
      var tasks := map agent | agent in run.tasks :: run.tasks[agent].(input := false, output := None);
      (Append(run.(redacted := true, purgedAt := Some(now), tasks := tasks), DataPurged), true)
  }
}
