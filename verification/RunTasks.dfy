/** What one worker step does to the task rows. */
module RunTasks {
  import opened Wrappers
  import opened FileRevisions
  import opened RunRecord
  import opened RunHistory
  import opened RunLaws

  /** Only the task of the agent the worker stands at may change, and only as its phase allows. */
  predicate TaskMove(tasks: map<Agent, Task>, tasks': map<Agent, Task>, phase: Phase, phase': Phase, result: Option<Output>) {
    tasks' == tasks || TaskSetAt(tasks, tasks', phase, phase', result)
  }

  predicate TaskSetAt(tasks: map<Agent, Task>, tasks': map<Agent, Task>, phase: Phase, phase': Phase,
                      result: Option<Output>)
  {
    match phase
    case AtAgent(g) =>
      && g !in tasks
      && (tasks' == tasks[g := Task(TaskPending, 0, None, true)] || tasks' == tasks[g := Task(TaskSkipped, 0, None, true)])
    case Prepared(g) =>
      && g in tasks && tasks[g].status != TaskCompleted && phase' == Executing(g)
      && tasks' == tasks[g := tasks[g].(status := TaskRunning, attempt := tasks[g].attempt + 1)]
    case Executing(g) =>
      && g in tasks && tasks[g].status != TaskCompleted && result.Some? && phase' == After(g)
      && tasks' == tasks[g := tasks[g].(status := TaskCompleted, output := result)]
    case FailingTask(g, _) => g in tasks && tasks' == tasks[g := tasks[g].(status := TaskFailed)]
    case _ => false
  }

  lemma CommitTasks(run: Run, files: seq<Revision>, agent: Agent, output: Output, handsIn: bool, written: seq<Revision>,
                    result: PatchResult, rejected: bool, now: Time)
    requires agent in run.tasks
    ensures var c := Commit(run, files, agent, output, handsIn, written, result, rejected, now);
      && (!c.2.Done? ==> c.0.tasks == run.tasks)
      && (c.2.Done? ==>
            c.0.tasks == run.tasks[agent := run.tasks[agent].(status := TaskCompleted, output := Some(output))])
  {
    if result.Written? && !(agent == David && rejected) {
      CompletedKeeps(Touch(run, now), agent, output, if handsIn then Some(result.paths) else None);
    }
  }

  lemma CompleteTasks(run: Run, files: seq<Revision>, token: nat, agent: Agent, output: Output,
                      patch: Option<seq<PatchFile>>, rejected: bool, now: Time)
    ensures var c := CompleteTask(run, files, token, agent, output, patch, rejected, now);
      || c.0.tasks == run.tasks
      || (c.2.Done? && agent in run.tasks && run.tasks[agent].status != TaskCompleted
          && c.0.tasks == run.tasks[agent := run.tasks[agent].(status := TaskCompleted, output := Some(output))])
  {
    if Active(run, token) && agent in run.tasks && run.tasks[agent].status != TaskCompleted {
      var (written, result) := ApplyPatch(files, if patch.Some? then patch.value else []);
      CommitTasks(run, files, agent, output, patch.Some?, written, result, rejected, now);
    }
  }

  lemma ExecuteTasks(run: Run, files: seq<Revision>, worker: Worker, agent: Agent, a: Answer)
    requires worker.phase == Executing(agent)
    ensures var r := ExecuteStep(run, files, worker, agent, a);
      TaskMove(run.tasks, r.run.tasks, worker.phase, r.worker.phase, a.result)
  {
    if a.result.Some? && !a.fails {
      var patch := HandedIn(agent, a);
      var next := CompleteTask(run, files, worker.token, agent, a.result.value, patch, a.rejected, a.now);
      CompleteTasks(run, files, worker.token, agent, a.result.value, patch, a.rejected, a.now);
      ConcludeKeeps(next.0, next.1, next.2, worker, agent, a);
    }
  }

  lemma PrepareTasks(run: Run, files: seq<Revision>, worker: Worker, agent: Agent, a: Answer)
    requires worker.phase == AtAgent(agent)
    ensures var r := RunAgentStep(run, files, worker, agent, a);
      TaskMove(run.tasks, r.run.tasks, worker.phase, r.worker.phase, a.result)
  {
  }

  lemma StartTasks(run: Run, files: seq<Revision>, worker: Worker, agent: Agent, a: Answer)
    requires worker.phase == Prepared(agent)
    ensures var r := StartStep(run, files, worker, agent, a);
      TaskMove(run.tasks, r.run.tasks, worker.phase, r.worker.phase, a.result)
  {
  }

  lemma AdvanceTasks(run: Run, files: seq<Revision>, worker: Worker, a: Answer)
    ensures var r := Advance(run, files, worker, a);
      TaskMove(run.tasks, r.run.tasks, worker.phase, r.worker.phase, a.result)
  {
    match worker.phase
    case AtAgent(agent) => PrepareTasks(run, files, worker, agent, a);
    case Prepared(agent) => StartTasks(run, files, worker, agent, a);
    case Executing(agent) => ExecuteTasks(run, files, worker, agent, a);
    case _ =>
  }

  // ---- The outputs a worker carries ----

  predicate GainsOutput(run: Run, worker: Worker, worker': Worker, result: Option<Output>, g: Agent) {
    && worker'.phase == After(g) && g in worker'.outputs
    && worker'.outputs == worker.outputs[g := worker'.outputs[g]]
    && if worker.phase.Executing? then result == Some(worker'.outputs[g])
       else g in run.tasks && run.tasks[g].status == TaskCompleted && run.tasks[g].output == Some(worker'.outputs[g])
  }

  /** A worker's outputs only grow by what it restored from a task row or has just handed in. */
  predicate OutputMove(run: Run, worker: Worker, worker': Worker, result: Option<Output>) {
    match worker.phase
    case Executing(g) =>
      if worker'.phase == After(g) then GainsOutput(run, worker, worker', result, g) else worker'.outputs == worker.outputs
    case AtAgent(g) => worker'.outputs == worker.outputs || GainsOutput(run, worker, worker', result, g)
    case Prepared(g) => worker'.outputs == worker.outputs || GainsOutput(run, worker, worker', result, g)
    case _ => worker'.outputs == worker.outputs
  }

  lemma ExecuteOutputs(run: Run, files: seq<Revision>, worker: Worker, agent: Agent, a: Answer)
    requires worker.phase == Executing(agent)
    ensures OutputMove(run, worker, ExecuteStep(run, files, worker, agent, a).worker, a.result)
  {
    if a.result.Some? && !a.fails {
      var next := CompleteTask(run, files, worker.token, agent, a.result.value, HandedIn(agent, a), a.rejected, a.now);
      assert OutputMove(run, worker, Conclude(next.0, next.1, next.2, worker, agent, a).worker, a.result);
    }
  }

  lemma PrepareOutputs(run: Run, files: seq<Revision>, worker: Worker, agent: Agent, a: Answer)
    requires worker.phase == AtAgent(agent)
    ensures OutputMove(run, worker, RunAgentStep(run, files, worker, agent, a).worker, a.result)
  {
  }

  lemma StartOutputs(run: Run, files: seq<Revision>, worker: Worker, agent: Agent, a: Answer)
    requires worker.phase == Prepared(agent)
    ensures OutputMove(run, worker, StartStep(run, files, worker, agent, a).worker, a.result)
  {
  }

  lemma AdvanceOutputs(run: Run, files: seq<Revision>, worker: Worker, a: Answer)
    ensures OutputMove(run, worker, Advance(run, files, worker, a).worker, a.result)
  {
    match worker.phase
    case AtAgent(agent) => PrepareOutputs(run, files, worker, agent, a);
    case Prepared(agent) => StartOutputs(run, files, worker, agent, a);
    case Executing(agent) => ExecuteOutputs(run, files, worker, agent, a);
    case _ =>
  }

  // ---- Where outputs come from ----

  /** Everything carried or stored was handed in by an agent of this run. */
  predicate Sourced(w: World) {
    && (forall i :: 0 <= i < |w.workers| ==> Remembered(w.workers[i].outputs, w.produced))
    && (forall g :: g in w.run.tasks && w.run.tasks[g].output.Some? ==> (g, w.run.tasks[g].output.value) in w.produced)
  }

  lemma LandKeepsSources(w: World, i: nat, r: Advanced, result: Option<Output>)
    requires Sourced(w) && i < |w.workers|
    requires TaskMove(w.run.tasks, r.run.tasks, w.workers[i].phase, r.worker.phase, result)
    requires OutputMove(w.run, w.workers[i], r.worker, result)
    ensures Sourced(Land(w, i, r))
  {
  }

  lemma PurgeKeepsTasks(run: Run, now: Time)
    ensures Purge(run, now).0.tasks.Keys == run.tasks.Keys
    ensures forall g :: g in run.tasks ==>
      Purge(run, now).0.tasks[g] == run.tasks[g] || Purge(run, now).0.tasks[g] == run.tasks[g].(input := false, output := None)
  {
  }

  lemma WorkKeepsSources(w: World, i: nat, a: Answer)
    requires Sourced(w) && i < |w.workers|
    ensures Sourced(WorkOn(w, i, a))
  {
    AdvanceTasks(w.run, w.files, w.workers[i], a);
    AdvanceOutputs(w.run, w.files, w.workers[i], a);
    LandKeepsSources(w, i, Advance(w.run, w.files, w.workers[i], a), a.result);
  }

  lemma DeliverKeepsSources(w: World, job: Job, at: Time, restored: map<Agent, Output>, maxRepairs: nat)
    requires Sourced(w)
    ensures Sourced(DeliverOn(w, job, at, restored, maxRepairs))
  {
  }

  lemma StepKeepsSources(w: World, step: Step)
    requires Sourced(w)
    ensures Sourced(Apply(w, step))
  {
    match step
    case Work(i, a) =>
      if i < |w.workers| {
        WorkKeepsSources(w, i, a);
      }
    case Deliver(job, at, restored, maxRepairs) => DeliverKeepsSources(w, job, at, restored, maxRepairs);
    case PurgeSeen(k) =>
      if k < |w.looks| {
        PurgeKeepsTasks(w.run, w.looks[k].now);
      }
    case _ =>
  }

  lemma {:induction false} OutputsAreSourced(steps: seq<Step>)
    ensures Sourced(RunAll(steps))
  {
    if steps != [] {
      OutputsAreSourced(steps[..|steps| - 1]);
      StepKeepsSources(RunAll(steps[..|steps| - 1]), steps[|steps| - 1]);
    }
  }
}
