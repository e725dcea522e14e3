/** Over whole histories: each agent's effects commit once, and its output never changes. */
module RunOnce {
  import opened Wrappers
  import opened FileRevisions
  import opened RunRecord
  import opened RunHistory
  import opened RunLaws
  import opened RunTasks
  import opened RunEffects

  predicate NoLiveWorker(w: World, job: Job) {
    forall i :: 0 <= i < |w.workers| && w.workers[i].job == job ==> w.workers[i].phase.Over?
  }

  /** Deliveries of one job do not overlap: a job is delivered again only after its last worker has ended. */
  predicate DeliveriesDoNotOverlap(steps: seq<Step>) {
    forall k :: 0 <= k < |steps| && steps[k].Deliver? ==> NoLiveWorker(RunAll(steps[..k]), steps[k].job)
  }

  predicate OneWorkerPerJob(w: World) {
    forall i, j :: 0 <= i < j < |w.workers| && !w.workers[i].phase.Over? && !w.workers[j].phase.Over? ==>
      w.workers[i].job != w.workers[j].job
  }

  /** While a worker with an active token executes an agent, that agent's task is RUNNING. */
  predicate InFlight(run: Run, worker: Worker) {
    Active(run, worker.token) ==>
      match worker.phase
      case Executing(g) => g in run.tasks && run.tasks[g].status == TaskRunning
      case FailingTask(g, _) => g in run.tasks && run.tasks[g].status == TaskRunning
      case _ => true
  }

  ghost predicate Solo(w: World) {
    && OneWorkerPerJob(w)
    && (forall i :: 0 <= i < |w.workers| ==> InFlight(w.run, w.workers[i]))
    && Exact(w.run)
  }

  // ---- A worker step ----

  lemma ExecuteInFlight(run: Run, files: seq<Revision>, worker: Worker, agent: Agent, a: Answer)
    requires worker.phase == Executing(agent) && Active(run, worker.token) && InFlight(run, worker)
    ensures var r := ExecuteStep(run, files, worker, agent, a);
      InFlight(r.run, r.worker) && (r.worker.phase.FailingTask? ==> r.run.tasks == run.tasks)
  {
    if a.result.Some? && !a.fails {
      var patch := HandedIn(agent, a);
      var next := CompleteTask(run, files, worker.token, agent, a.result.value, patch, a.rejected, a.now);
      CompleteTasks(run, files, worker.token, agent, a.result.value, patch, a.rejected, a.now);
      ConcludeKeeps(next.0, next.1, next.2, worker, agent, a);
      UnfinishedTasks(run, files, worker.token, agent, a.result.value, patch, a.rejected, a.now);
    }
  }

  lemma UnfinishedTasks(run: Run, files: seq<Revision>, token: nat, agent: Agent, output: Output,
                        patch: Option<seq<PatchFile>>, rejected: bool, now: Time)
    ensures var c := CompleteTask(run, files, token, agent, output, patch, rejected, now);
      !c.2.Done? ==> c.0.tasks == run.tasks
  {
  }

  lemma StartInFlight(run: Run, files: seq<Revision>, worker: Worker, agent: Agent, a: Answer)
    requires worker.phase == Prepared(agent)
    ensures InFlight(StartStep(run, files, worker, agent, a).run, StartStep(run, files, worker, agent, a).worker)
  {
    if Active(run, worker.token) && agent in run.tasks && run.tasks[agent].status != TaskCompleted {
      assert StartStep(run, files, worker, agent, a).worker.phase == Executing(agent);
    }
  }

  lemma AdvanceInFlight(run: Run, files: seq<Revision>, worker: Worker, a: Answer)
    requires Active(run, worker.token) && InFlight(run, worker)
    ensures InFlight(Advance(run, files, worker, a).run, Advance(run, files, worker, a).worker)
  {
    match worker.phase
    case AtAgent(agent) => PrepareNotInFlight(run, files, worker, agent, a);
    case Prepared(agent) => StartInFlight(run, files, worker, agent, a);
    case Executing(agent) => ExecuteInFlight(run, files, worker, agent, a);
    case FailingTask(_, _) =>
    case Validating(repairs) => EndsNotInFlight(run, files, worker, repairs, a);
    case CheckingRoutes => EndsNotInFlight(run, files, worker, 0, a);
    case _ => GatesNotInFlight(run, files, worker, a);
  }

  predicate NotInFlight(phase: Phase) {
    !phase.Executing? && !phase.FailingTask?
  }

  lemma RestoreNotInFlight(run: Run, files: seq<Revision>, worker: Worker, agent: Agent, task: Task, a: Answer)
    ensures NotInFlight(Restore(run, files, worker, agent, task, a).worker.phase)
  {
  }

  lemma PrepareNotInFlight(run: Run, files: seq<Revision>, worker: Worker, agent: Agent, a: Answer)
    ensures NotInFlight(RunAgentStep(run, files, worker, agent, a).worker.phase)
  {
    var prepared := PrepareTask(run, worker.token, agent, a.now);
    if !a.skip && prepared.1.TaskOk? && prepared.1.task.status == TaskCompleted {
      RestoreNotInFlight(prepared.0, files, worker, agent, prepared.1.task, a);
    }
  }

  lemma GatesNotInFlight(run: Run, files: seq<Revision>, worker: Worker, a: Answer)
    ensures NotInFlight(PlanGateStep(run, files, worker, a).worker.phase)
    ensures NotInFlight(ContentGateStep(run, files, worker, a).worker.phase)
  {
  }

  lemma EndsNotInFlight(run: Run, files: seq<Revision>, worker: Worker, repairs: nat, a: Answer)
    ensures NotInFlight(RoutesStep(run, files, worker, a).worker.phase)
    ensures NotInFlight(ValidateStep(run, files, worker, repairs, a).worker.phase)
  {
  }

  /** With the executing task RUNNING, no worker step takes a completed task back. */
  lemma CompletedStaysComplete(run: Run, run': Run, worker: Worker, phase': Phase, result: Option<Output>, g: Agent)
    requires Active(run, worker.token) && InFlight(run, worker)
    requires TaskMove(run.tasks, run'.tasks, worker.phase, phase', result)
    requires Complete(run.tasks, g)
    ensures Complete(run'.tasks, g) && run'.tasks[g] == run.tasks[g]
  {
  }

  lemma ExactMoves(run: Run, run': Run)
    requires Exact(run) && EffectMove(run, run')
    requires forall g :: Complete(run.tasks, g) ==> Complete(run'.tasks, g)
    ensures Exact(run')
  {
  }

  lemma SameTasksExact(run: Run, run': Run)
    requires Exact(run) && WritesNoEffect(run, run')
    requires forall g :: Complete(run'.tasks, g) <==> Complete(run.tasks, g)
    ensures Exact(run')
  {
  }

  lemma LandKeepsWorkers(w: World, i: nat, r: Advanced)
    requires Consistent(w) && Solo(w) && i < |w.workers|
    requires Active(w.run, w.workers[i].token) && !w.workers[i].phase.Over?
    requires WorkerMoves(w.run, r.run, w.workers[i].token, EntryOf(w.workers[i]))
    requires r.worker.job == w.workers[i].job && InFlight(r.run, r.worker)
    ensures OneWorkerPerJob(Land(w, i, r))
    ensures forall j :: 0 <= j < |w.workers| ==> InFlight(r.run, Land(w, i, r).workers[j])
  {
  }

  lemma WorkKeepsSolo(w: World, i: nat, a: Answer)
    requires Consistent(w) && Solo(w) && i < |w.workers|
    ensures Solo(WorkOn(w, i, a))
  {
    var worker := w.workers[i];
    var r := Advance(w.run, w.files, worker, a);
    AdvanceKeepsIdentity(w.run, w.files, worker, a);
    if worker.phase.Over? {
      assert r == Go(w.run, w.files, worker, Over);
    } else if !Active(w.run, worker.token) {
      InactiveWorkerWritesNothing(w.run, w.files, worker, a);
      LandIdle(w, i, r);
    } else {
      ActiveHasNoError(w, worker.token);
      AdvanceMoves(w.run, w.files, worker, a);
      AdvanceTasks(w.run, w.files, worker, a);
      AdvanceEffects(w.run, w.files, worker, a);
      assert InFlight(w.run, worker);
      AdvanceInFlight(w.run, w.files, worker, a);
      forall g | Complete(w.run.tasks, g)
        ensures Complete(r.run.tasks, g)
      {
        CompletedStaysComplete(w.run, r.run, worker, r.worker.phase, a.result, g);
      }
      ExactMoves(w.run, r.run);
      LandKeepsWorkers(w, i, r);
    }
  }

  lemma LandIdle(w: World, i: nat, r: Advanced)
    requires Solo(w) && i < |w.workers| && !Active(w.run, w.workers[i].token)
    requires r.run == w.run && r.worker.job == w.workers[i].job && r.worker.token == w.workers[i].token
    requires !w.workers[i].phase.Over?
    ensures Solo(Land(w, i, r))
  {
  }

  // ---- The other steps ----

  lemma DeliverKeepsSolo(w: World, job: Job, at: Time, restored: map<Agent, Output>, maxRepairs: nat)
    requires Consistent(w) && Solo(w) && NoLiveWorker(w, job)
    ensures Solo(DeliverOn(w, job, at, restored, maxRepairs))
  {
    var run := Claim(w.run, job, at).0;
    SameTasksExact(w.run, run);
    forall i | 0 <= i < |w.workers|
      ensures InFlight(run, w.workers[i])
    {
      assert TokenFits(w.entries, w.workers[i]);
      assert InFlight(w.run, w.workers[i]);
    }
  }

  /** None of these leaves a token active that was not, or touches what tasks are complete. */
  lemma OtherStepsKeepSolo(w: World, step: Step)
    requires Consistent(w) && Solo(w) && !step.Work? && !step.Deliver? && !step.Crash?
    ensures Solo(Apply(w, step))
  {
    var next := Apply(w, step);
    assert next.workers == w.workers;
    OtherStepsWriteNoEffect(w, step);
    SameTasksExact(w.run, next.run);
    forall i | 0 <= i < |w.workers|
      ensures InFlight(next.run, w.workers[i])
    {
      assert InFlight(w.run, w.workers[i]);
    }
  }

  lemma OtherStepsWriteNoEffect(w: World, step: Step)
    requires !step.Work? && !step.Deliver? && !step.Crash?
    ensures var next := Apply(w, step);
      && WritesNoEffect(w.run, next.run)
      && (forall g :: Complete(next.run.tasks, g) <==> Complete(w.run.tasks, g))
      && (forall token :: Active(next.run, token) ==> Active(w.run, token) && next.run.tasks == w.run.tasks)
  {
  }

  lemma StepKeepsSolo(w: World, step: Step)
    requires Consistent(w) && Solo(w)
    requires step.Deliver? ==> NoLiveWorker(w, step.job)
    ensures Solo(Apply(w, step))
  {
    match step
    case Work(i, a) =>
      if i < |w.workers| && a.now <= w.clock {
        WorkKeepsSolo(w, i, a);
      }
    case Deliver(job, at, restored, maxRepairs) => DeliverKeepsSolo(w, job, at, restored, maxRepairs);
    case Crash(i) =>
    case _ => OtherStepsKeepSolo(w, step);
  }

  lemma PrefixDoesNotOverlap(steps: seq<Step>, n: nat)
    requires DeliveriesDoNotOverlap(steps) && n <= |steps|
    ensures DeliveriesDoNotOverlap(steps[..n])
  {
    forall k | 0 <= k < n && steps[..n][k].Deliver?
      ensures NoLiveWorker(RunAll(steps[..n][..k]), steps[..n][k].job)
    {
      assert steps[..n][..k] == steps[..k];
    }
  }

  lemma {:induction false} SoloForever(steps: seq<Step>)
    requires DeliveriesDoNotOverlap(steps)
    ensures Solo(RunAll(steps))
  {
    if steps != [] {
      var n := |steps| - 1;
      PrefixDoesNotOverlap(steps, n);
      SoloForever(steps[..n]);
      HistoryConsistent(steps[..n]);
      StepKeepsSolo(RunAll(steps[..n]), steps[n]);
    } else {
      forall e
        ensures Count([], e) == 0
      {
      }
    }
  }

  // ---- Main results ----

  /**
   * Across redelivery, crash, pause, resume and retry, each agent's completion, its artifacts and
   * its code event are in the log exactly once if its task is COMPLETED, and not at all otherwise.
   */
  lemma EffectsHappenExactlyOnce(steps: seq<Step>, e: Effect)
    requires DeliveriesDoNotOverlap(steps)
    ensures Count(RunAll(steps).run.events, e)
      == if Complete(RunAll(steps).run.tasks, e.agent) && Expected(e) then 1 else 0
  {
    SoloForever(steps);
  }

  lemma PurgeMarkStays(w: World, step: Step)
    requires Consistent(w) && w.run.purgedAt.Some?
    ensures Apply(w, step).run.purgedAt.Some?
  {
    if step.Work? && step.i < |w.workers| {
      var worker := w.workers[step.i];
      if Active(w.run, worker.token) {
        ActiveHasNoError(w, worker.token);
      }
      AdvanceMoves(w.run, w.files, worker, step.answer);
      WorkerKeepsPurge(w.run, Advance(w.run, w.files, worker, step.answer).run, worker.token, EntryOf(worker));
    }
  }

  lemma WorkerKeepsPurge(run: Run, run': Run, token: nat, e: Entry)
    requires WorkerMoves(run, run', token, e)
    ensures run'.purgedAt == run.purgedAt
  {
  }

  /** The task is complete with that output, or the whole run has been purged. */
  predicate Holds(run: Run, g: Agent, output: Option<Output>) {
    Complete(run.tasks, g) && (run.tasks[g].output == output || (run.tasks[g].output.None? && run.purgedAt.Some?))
  }

  lemma WorkKeepsOutput(w: World, i: nat, a: Answer, g: Agent)
    requires Consistent(w) && Solo(w) && Complete(w.run.tasks, g) && i < |w.workers|
    ensures Complete(WorkOn(w, i, a).run.tasks, g) && WorkOn(w, i, a).run.tasks[g] == w.run.tasks[g]
  {
    var worker := w.workers[i];
    if Active(w.run, worker.token) {
      AdvanceTasks(w.run, w.files, worker, a);
      assert InFlight(w.run, worker);
      var r := Advance(w.run, w.files, worker, a);
      CompletedStaysComplete(w.run, r.run, worker, r.worker.phase, a.result, g);
    } else {
      InactiveWorkerWritesNothing(w.run, w.files, worker, a);
    }
  }

  lemma StepKeepsOutput(w: World, step: Step, g: Agent, output: Option<Output>)
    requires Consistent(w) && Solo(w) && Holds(w.run, g, output)
    ensures Holds(Apply(w, step).run, g, output)
  {
    if w.run.purgedAt.Some? {
      PurgeMarkStays(w, step);
    }
    if step.Work? {
      if step.i < |w.workers| && step.answer.now <= w.clock {
        WorkKeepsOutput(w, step.i, step.answer, g);
      }
    } else {
      OtherStepsKeepOutput(w, step, g);
    }
  }

  lemma OtherStepsKeepOutput(w: World, step: Step, g: Agent)
    requires Complete(w.run.tasks, g) && !step.Work?
    ensures var run := Apply(w, step).run;
      && Complete(run.tasks, g)
      && (run.tasks[g] == w.run.tasks[g] || (run.tasks[g].output.None? && run.purgedAt.Some?))
  {
  }

  /** A task becomes COMPLETED at most once and its output never changes, except that purging redacts it. */
  lemma {:induction false} CompletedOutputIsFinal(steps: seq<Step>, k: nat, g: Agent)
    requires DeliveriesDoNotOverlap(steps) && k <= |steps| && Complete(RunAll(steps[..k]).run.tasks, g)
    ensures Holds(RunAll(steps).run, g, RunAll(steps[..k]).run.tasks[g].output)
    decreases |steps|
  {
    var n := |steps|;
    if k == n {
      assert steps[..k] == steps;
    } else {
      assert steps[..n - 1][..k] == steps[..k];
      PrefixDoesNotOverlap(steps, n - 1);
      CompletedOutputIsFinal(steps[..n - 1], k, g);
      SoloForever(steps[..n - 1]);
      HistoryConsistent(steps[..n - 1]);
      StepKeepsOutput(RunAll(steps[..n - 1]), steps[n - 1], g, RunAll(steps[..k]).run.tasks[g].output);
    }
  }

  /** Nothing stands in the way of restoring the output. */
  predicate Restorable(run: Run, worker: Worker, a: Answer, g: Agent)
    requires g in run.tasks
  {
    && Active(run, worker.token) && run.tasks[g].output.Some?
    && !a.fails && a.parses && !(worker.phase.AtAgent? && a.skip)
  }

  /** What is left of an agent node whose task is COMPLETED. */
  predicate RestoresOrStops(run: Run, files: seq<Revision>, worker: Worker, a: Answer, g: Agent, r: Advanced)
    requires g in run.tasks
  {
    && (r.worker.phase == After(g) || r.worker.phase.Throwing? || r.worker.phase.Over?)
    && r.run.tasks == run.tasks && r.run.events == run.events && r.files == files
    && (Restorable(run, worker, a, g) ==>
          && r.worker.phase == After(g)
          && g in r.worker.outputs && r.worker.outputs[g] == run.tasks[g].output.value)
    && (Active(run, worker.token) && !(worker.phase.AtAgent? && a.skip) && !Restorable(run, worker, a, g) ==>
          r.worker.phase.Throwing?)
  }

  /**
   * In any history, overlapping deliveries included, and whatever the world answers: a worker that
   * comes to an agent whose task is COMPLETED never executes that agent and writes no task, event or
   * file. It goes on exactly with the stored output, or past a skipped agent, or not at all.
   */
  lemma CompletedIsRestored(run: Run, files: seq<Revision>, worker: Worker, a: Answer, g: Agent)
    requires worker.phase == AtAgent(g) || worker.phase == Prepared(g)
    requires Complete(run.tasks, g)
    ensures var r := Advance(run, files, worker, a);
      RestoresOrStops(run, files, worker, a, g, r) && r.worker.phase != Executing(g)
  {
    if worker.phase.AtAgent? {
      PrepareRestores(run, files, worker, a, g);
    } else {
      StartRestores(run, files, worker, a, g);
    }
  }

  lemma PrepareRestores(run: Run, files: seq<Revision>, worker: Worker, a: Answer, g: Agent)
    requires worker.phase == AtAgent(g) && Complete(run.tasks, g)
    ensures RestoresOrStops(run, files, worker, a, g, Advance(run, files, worker, a))
  {
    PrepareKeepsComplete(run, worker.token, g, a.now);
  }

  lemma StartRestores(run: Run, files: seq<Revision>, worker: Worker, a: Answer, g: Agent)
    requires worker.phase == Prepared(g) && Complete(run.tasks, g)
    ensures RestoresOrStops(run, files, worker, a, g, Advance(run, files, worker, a))
  {
    StartKeepsComplete(run, worker.token, g, a.now);
  }

  lemma PrepareKeepsComplete(run: Run, token: nat, g: Agent, now: Time)
    requires Complete(run.tasks, g)
    ensures var (run', r) := PrepareTask(run, token, g, now);
      && run'.tasks == run.tasks && run'.events == run.events
      && r == if Active(run, token) then TaskOk(run.tasks[g]) else Stopped
    ensures var (run', r) := SkipTask(run, token, g, now);
      && run'.tasks == run.tasks && run'.events == run.events
      && r == if Active(run, token) then TaskOk(run.tasks[g]) else Stopped
  {
  }

  lemma StartKeepsComplete(run: Run, token: nat, g: Agent, now: Time)
    requires Complete(run.tasks, g)
    ensures var (run', r) := StartTask(run, token, g, now);
      && run'.tasks == run.tasks && run'.events == run.events
      && r == if Active(run, token) then TaskOk(run.tasks[g]) else Stopped
  {
  }

  lemma EmptyPatch(files: seq<Revision>)
    ensures ApplyPatch(files, []) == (files, Written([]))
  {
  }
}
