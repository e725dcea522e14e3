/** Which events one transaction adds to the log, and what it does to the task rows with them. */
module RunWrites {
  import opened Wrappers
  import opened FileRevisions
  import opened RunRecord
  import opened RunHistory
  import opened RunLaws

  /** The log is `kinds` longer. */
  predicate Wrote(before: seq<RunEvent>, after: seq<RunEvent>, kinds: seq<EventKind>) {
    && |after| == |before| + |kinds|
    && after[..|before|] == before
    && forall i :: 0 <= i < |kinds| ==> after[|before| + i].kind == kinds[i]
  }

  /** What the log has beyond an earlier one. */
  function News(before: seq<RunEvent>, after: seq<RunEvent>): seq<EventKind>
    requires |before| <= |after|
  {
    seq(|after| - |before|, i requires 0 <= i < |after| - |before| => after[|before| + i].kind)
  }

  lemma NewsAreWritten(before: seq<RunEvent>, after: seq<RunEvent>, kinds: seq<EventKind>)
    requires Wrote(before, after, kinds)
    ensures News(before, after) == kinds
  {
  }

  /** One event, which no task row goes with. */
  predicate AboutNoTask(kind: EventKind) {
    && !kind.TaskCreated? && !kind.TaskSkippedEvent? && !kind.TaskStarted?
    && !kind.TaskCompletedEvent? && !kind.TaskFailedEvent?
  }

  /** The task rows and the new events go together: a row of `g` changes with the events that say so. */
  ghost predicate TaskWrites(tasks: map<Agent, Task>, tasks': map<Agent, Task>, kinds: seq<EventKind>, g: Agent) {
    || (tasks' == tasks && kinds == [])
    || (g !in tasks && tasks' == tasks[g := Task(TaskPending, 0, None, true)] && kinds == [TaskCreated(g)])
    || (g !in tasks && tasks' == tasks[g := Task(TaskSkipped, 0, None, true)] && kinds == [TaskSkippedEvent(g)])
    || (g in tasks && tasks' == tasks[g := tasks[g].(status := TaskRunning, attempt := tasks[g].attempt + 1)]
        && kinds == [TaskStarted(g, tasks[g].attempt + 1)])
    || (g in tasks && tasks' == tasks[g := tasks[g].(status := TaskFailed)]
        && kinds == [TaskFailedEvent(g, tasks[g].attempt)])
    || (g in tasks && IsCompletion(tasks, tasks', g) && exists paths :: kinds == CompletionEvents(g, tasks[g].attempt, paths))
  }

  predicate IsCompletion(tasks: map<Agent, Task>, tasks': map<Agent, Task>, g: Agent)
    requires g in tasks
  {
    && g in tasks' && tasks'[g].output.Some?
    && tasks' == tasks[g := tasks[g].(status := TaskCompleted, output := tasks'[g].output)]
  }

  ghost predicate Writes(run: Run, run': Run, g: Agent) {
    && |run.events| <= |run'.events| && run'.events[..|run.events|] == run.events
    && TaskWrites(run.tasks, run'.tasks, News(run.events, run'.events), g)
  }

  lemma WritesThese(run: Run, run': Run, kinds: seq<EventKind>, g: Agent)
    requires Wrote(run.events, run'.events, kinds) && TaskWrites(run.tasks, run'.tasks, kinds, g)
    ensures Writes(run, run', g)
  {
    NewsAreWritten(run.events, run'.events, kinds);
  }

  // ---- One transaction ----

  lemma {:induction false} AppendAllWrote(run: Run, kinds: seq<EventKind>)
    ensures Wrote(run.events, AppendAll(run, kinds).events, kinds)
  {
    if kinds != [] {
      AppendAllWrote(run, kinds[..|kinds| - 1]);
    }
  }

  lemma PrepareWrites(run: Run, token: nat, agent: Agent, now: Time)
    ensures Writes(run, PrepareTask(run, token, agent, now).0, agent)
  {
    var creates := Active(run, token) && agent !in run.tasks;
    WritesThese(run, PrepareTask(run, token, agent, now).0, if creates then [TaskCreated(agent)] else [], agent);
  }

  lemma SkipWrites(run: Run, token: nat, agent: Agent, now: Time)
    ensures Writes(run, SkipTask(run, token, agent, now).0, agent)
  {
    var creates := Active(run, token) && agent !in run.tasks;
    WritesThese(run, SkipTask(run, token, agent, now).0, if creates then [TaskSkippedEvent(agent)] else [], agent);
  }

  lemma StartWrites(run: Run, token: nat, agent: Agent, now: Time)
    ensures Writes(run, StartTask(run, token, agent, now).0, agent)
  {
    var starts := Active(run, token) && agent in run.tasks && run.tasks[agent].status != TaskCompleted;
    WritesThese(run, StartTask(run, token, agent, now).0,
      if starts then [TaskStarted(agent, run.tasks[agent].attempt + 1)] else [], agent);
  }

  lemma FailWrites(run: Run, token: nat, agent: Agent, now: Time)
    ensures Writes(run, FailTask(run, token, agent, now).0, agent)
  {
    var fails := Active(run, token) && agent in run.tasks;
    WritesThese(run, FailTask(run, token, agent, now).0,
      if fails then [TaskFailedEvent(agent, run.tasks[agent].attempt)] else [], agent);
  }

  lemma CompletedWrites(run: Run, agent: Agent, output: Output, paths: Option<seq<Path>>)
    requires agent in run.tasks
    ensures Writes(run, Completed(run, agent, output, paths), agent)
  {
    var task := run.tasks[agent].(status := TaskCompleted, output := Some(output));
    var kinds := CompletionEvents(agent, task.attempt, paths);
    AppendAllWrote(run.(tasks := run.tasks[agent := task]), kinds);
    CompletedKeeps(run, agent, output, paths);
    assert kinds == CompletionEvents(agent, run.tasks[agent].attempt, paths);
    WritesThese(run, Completed(run, agent, output, paths), kinds, agent);
  }

  lemma NothingWritten(run: Run, run': Run, g: Agent)
    requires run'.events == run.events && run'.tasks == run.tasks
    ensures Writes(run, run', g)
  {
    WritesThese(run, run', [], g);
  }

  lemma CommitWrites(run: Run, files: seq<Revision>, agent: Agent, output: Output, handsIn: bool, written: seq<Revision>,
                     result: PatchResult, rejected: bool, now: Time)
    requires agent in run.tasks
    ensures Writes(run, Commit(run, files, agent, output, handsIn, written, result, rejected, now).0, agent)
  {
    if result.Written? && !(agent == David && rejected) {
      CompletedWrites(Touch(run, now), agent, output, if handsIn then Some(result.paths) else None);
    } else {
      NothingWritten(run, Commit(run, files, agent, output, handsIn, written, result, rejected, now).0, agent);
    }
  }

  lemma CompleteWrites(run: Run, files: seq<Revision>, token: nat, agent: Agent, output: Output,
                       patch: Option<seq<PatchFile>>, rejected: bool, now: Time)
    ensures Writes(run, CompleteTask(run, files, token, agent, output, patch, rejected, now).0, agent)
  {
    if Active(run, token) && agent in run.tasks && run.tasks[agent].status != TaskCompleted {
      var (written, result) := ApplyPatch(files, if patch.Some? then patch.value else []);
      CommitWrites(run, files, agent, output, patch.Some?, written, result, rejected, now);
    } else {
      NothingWritten(run, CompleteTask(run, files, token, agent, output, patch, rejected, now).0, agent);
    }
  }

  lemma ExecuteWrites(run: Run, files: seq<Revision>, worker: Worker, agent: Agent, a: Answer)
    ensures Writes(run, ExecuteStep(run, files, worker, agent, a).run, agent)
  {
    if a.result.Some? && !a.fails {
      var next := CompleteTask(run, files, worker.token, agent, a.result.value, HandedIn(agent, a), a.rejected, a.now);
      CompleteWrites(run, files, worker.token, agent, a.result.value, HandedIn(agent, a), a.rejected, a.now);
      ConcludeKeeps(next.0, next.1, next.2, worker, agent, a);
    } else {
      NothingWritten(run, ExecuteStep(run, files, worker, agent, a).run, agent);
    }
  }

  /** The log has one event more, about no task, or is the same; the tasks are the same. */
  predicate OneOtherEvent(run: Run, run': Run) {
    && run'.tasks == run.tasks
    && (run'.events == run.events
        || (|run'.events| == |run.events| + 1 && run'.events[..|run.events|] == run.events
            && AboutNoTask(run'.events[|run.events|].kind)))
  }

  lemma RepairWrites(run: Run, files: seq<Revision>, token: nat, patch: seq<PatchFile>, now: Time)
    ensures OneOtherEvent(run, ApplyRepair(run, files, token, patch, now).0)
  {
  }

  lemma ExitsWrite(run: Run, token: nat, scope: Scope, now: Time)
    ensures OneOtherEvent(run, RequestApproval(run, token, scope, now).0)
    ensures OneOtherEvent(run, CompleteRun(run, token, now).0)
    ensures OneOtherEvent(run, FailRun(run, token, now).0)
  {
  }

  /** The agent whose task a worker in this phase may touch. */
  function AgentAt(phase: Phase): Agent {
    match phase
    case AtAgent(g) => g
    case Prepared(g) => g
    case Executing(g) => g
    case FailingTask(g, _) => g
    case _ => Sophia
  }

  lemma NodeWrites(run: Run, files: seq<Revision>, worker: Worker, agent: Agent, a: Answer)
    ensures Writes(run, RunAgentStep(run, files, worker, agent, a).run, agent)
    ensures Writes(run, StartStep(run, files, worker, agent, a).run, agent)
  {
    PrepareWrites(run, worker.token, agent, a.now);
    SkipWrites(run, worker.token, agent, a.now);
    StartWrites(run, worker.token, agent, a.now);
    assert RunAgentStep(run, files, worker, agent, a).run
      == if a.skip then SkipTask(run, worker.token, agent, a.now).0 else PrepareTask(run, worker.token, agent, a.now).0;
    assert StartStep(run, files, worker, agent, a).run == StartTask(run, worker.token, agent, a.now).0;
  }

  /** What a step at the end of the graph writes comes from one of these transactions. */
  lemma EndRuns(run: Run, files: seq<Revision>, worker: Worker, a: Answer)
    requires worker.phase.CheckingRoutes? || worker.phase.Validating?
    ensures var run' := Advance(run, files, worker, a).run;
      || run' == run || run' == CompleteRun(run, worker.token, a.now).0
      || (a.patch.Some? && run' == ApplyRepair(run, files, worker.token, a.patch.value, a.now).0)
  {
  }

  lemma GateRuns(run: Run, files: seq<Revision>, worker: Worker, a: Answer)
    requires worker.phase.AtPlanGate? || worker.phase.AtContentGate?
    ensures var run' := Advance(run, files, worker, a).run;
      run' == run
      || run' == RequestApproval(run, worker.token, if worker.phase.AtPlanGate? then PlanScope else ContentScope, a.now).0
  {
  }

  lemma EndWrites(run: Run, files: seq<Revision>, worker: Worker, a: Answer)
    requires worker.phase.CheckingRoutes? || worker.phase.Validating?
    ensures OneOtherEvent(run, Advance(run, files, worker, a).run)
  {
    EndRuns(run, files, worker, a);
    ExitsWrite(run, worker.token, PlanScope, a.now);
    if a.patch.Some? {
      RepairWrites(run, files, worker.token, a.patch.value, a.now);
    }
  }

  lemma GateWrites(run: Run, files: seq<Revision>, worker: Worker, a: Answer)
    requires worker.phase.AtPlanGate? || worker.phase.AtContentGate?
    ensures OneOtherEvent(run, Advance(run, files, worker, a).run)
  {
    GateRuns(run, files, worker, a);
    ExitsWrite(run, worker.token, PlanScope, a.now);
    ExitsWrite(run, worker.token, ContentScope, a.now);
  }

  /** The worker stands at an agent. */
  predicate InNode(phase: Phase) {
    phase.AtAgent? || phase.Prepared? || phase.Executing? || phase.FailingTask?
  }

  /** Whatever a worker step does at an agent, the agent's task row and the events change together. */
  lemma NodeStepWrites(run: Run, files: seq<Revision>, worker: Worker, a: Answer)
    requires InNode(worker.phase)
    ensures Writes(run, Advance(run, files, worker, a).run, AgentAt(worker.phase))
  {
    match worker.phase
    case AtAgent(g) =>
      NodeWrites(run, files, worker, g, a);
      NothingWritten(run, run, g);
    case Prepared(g) =>
      NodeWrites(run, files, worker, g, a);
      NothingWritten(run, run, g);
    case Executing(g) => ExecuteWrites(run, files, worker, g, a);
    case FailingTask(g, _) =>
      FailWrites(run, worker.token, g, a.now);
      NothingWritten(run, run, g);
  }

  /** Elsewhere it leaves the task rows alone and adds one event at most. */
  lemma OtherStepWrites(run: Run, files: seq<Revision>, worker: Worker, a: Answer)
    requires !InNode(worker.phase)
    ensures OneOtherEvent(run, Advance(run, files, worker, a).run)
  {
    match worker.phase
    case AtPlanGate => GateWrites(run, files, worker, a);
    case AtContentGate => GateWrites(run, files, worker, a);
    case CheckingRoutes => EndWrites(run, files, worker, a);
    case Validating(_) => EndWrites(run, files, worker, a);
    case _ => ExitsWrite(run, worker.token, PlanScope, a.now);
  }
}
