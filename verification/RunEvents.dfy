/** The run's event log: one numbered sequence, whoever writes. */
module RunEvents {
  import opened Wrappers
  import opened FileRevisions
  import opened RunRecord
  import opened RunHistory

  /** The events are numbered exactly 1 to `eventSequence`. */
  predicate Numbered(run: Run) {
    run.eventSequence == |run.events| && forall i :: 0 <= i < |run.events| ==> run.events[i].sequence == i + 1
  }

  /** Nothing is renumbered, rewritten or removed. */
  predicate LogsOn(run: Run, run': Run) {
    Numbered(run) ==> Numbered(run') && run.events <= run'.events
  }

  lemma {:induction false} AppendAllLogsOn(run: Run, kinds: seq<EventKind>)
    ensures LogsOn(run, AppendAll(run, kinds))
  {
    if kinds != [] {
      AppendAllLogsOn(run, kinds[..|kinds| - 1]);
    }
  }

  lemma CommitLogsOn(run: Run, files: seq<Revision>, agent: Agent, output: Output, handsIn: bool, written: seq<Revision>,
                     result: PatchResult, rejected: bool, now: Time)
    requires agent in run.tasks
    ensures LogsOn(run, Commit(run, files, agent, output, handsIn, written, result, rejected, now).0)
  {
    if result.Written? {
      var task := run.tasks[agent].(status := TaskCompleted, output := Some(output));
      var paths := if handsIn then Some(result.paths) else None;
      AppendAllLogsOn(Touch(run, now).(tasks := run.tasks[agent := task]), CompletionEvents(agent, task.attempt, paths));
    }
  }

  lemma CompleteLogsOn(run: Run, files: seq<Revision>, token: nat, agent: Agent, output: Output,
                       patch: Option<seq<PatchFile>>, rejected: bool, now: Time)
    ensures LogsOn(run, CompleteTask(run, files, token, agent, output, patch, rejected, now).0)
  {
    if Active(run, token) && agent in run.tasks && run.tasks[agent].status != TaskCompleted {
      var (written, result) := ApplyPatch(files, if patch.Some? then patch.value else []);
      CommitLogsOn(run, files, agent, output, patch.Some?, written, result, rejected, now);
    }
  }

  lemma ExecuteLogsOn(run: Run, files: seq<Revision>, worker: Worker, agent: Agent, a: Answer)
    ensures LogsOn(run, ExecuteStep(run, files, worker, agent, a).run)
  {
    if a.result.Some? && !a.fails {
      var patch := HandedIn(agent, a);
      var next := CompleteTask(run, files, worker.token, agent, a.result.value, patch, a.rejected, a.now);
      CompleteLogsOn(run, files, worker.token, agent, a.result.value, patch, a.rejected, a.now);
      assert Conclude(next.0, next.1, next.2, worker, agent, a).run == next.0;
    }
  }

  lemma PrepareLogsOn(run: Run, token: nat, agent: Agent, now: Time)
    ensures LogsOn(run, PrepareTask(run, token, agent, now).0)
    ensures LogsOn(run, SkipTask(run, token, agent, now).0)
  {
  }

  lemma StartLogsOn(run: Run, token: nat, agent: Agent, now: Time)
    ensures LogsOn(run, StartTask(run, token, agent, now).0)
    ensures LogsOn(run, FailTask(run, token, agent, now).0)
  {
  }

  lemma TaskStepsLogOn(run: Run, files: seq<Revision>, worker: Worker, agent: Agent, a: Answer)
    ensures LogsOn(run, RunAgentStep(run, files, worker, agent, a).run)
    ensures LogsOn(run, StartStep(run, files, worker, agent, a).run)
    ensures LogsOn(run, FailTask(run, worker.token, agent, a.now).0)
  {
    PrepareLogsOn(run, worker.token, agent, a.now);
    StartLogsOn(run, worker.token, agent, a.now);
    assert RunAgentStep(run, files, worker, agent, a).run
      == if a.skip then SkipTask(run, worker.token, agent, a.now).0 else PrepareTask(run, worker.token, agent, a.now).0;
    assert StartStep(run, files, worker, agent, a).run == StartTask(run, worker.token, agent, a.now).0;
  }

  lemma GatesLogOn(run: Run, files: seq<Revision>, worker: Worker, a: Answer)
    ensures LogsOn(run, PlanGateStep(run, files, worker, a).run)
    ensures LogsOn(run, ContentGateStep(run, files, worker, a).run)
  {
  }

  lemma EndsLogOn(run: Run, files: seq<Revision>, worker: Worker, repairs: nat, a: Answer)
    ensures LogsOn(run, RoutesStep(run, files, worker, a).run)
    ensures LogsOn(run, ValidateStep(run, files, worker, repairs, a).run)
    ensures LogsOn(run, FailRun(run, worker.token, a.now).0)
  {
  }

  lemma AdvanceLogsOn(run: Run, files: seq<Revision>, worker: Worker, a: Answer)
    ensures LogsOn(run, Advance(run, files, worker, a).run)
  {
    match worker.phase
    case AtAgent(agent) => TaskStepsLogOn(run, files, worker, agent, a);
    case Prepared(agent) => TaskStepsLogOn(run, files, worker, agent, a);
    case FailingTask(agent, _) => TaskStepsLogOn(run, files, worker, agent, a);
    case Executing(agent) => ExecuteLogsOn(run, files, worker, agent, a);
    case AtPlanGate => GatesLogOn(run, files, worker, a);
    case AtContentGate => GatesLogOn(run, files, worker, a);
    case CheckingRoutes => EndsLogOn(run, files, worker, 0, a);
    case Validating(repairs) => EndsLogOn(run, files, worker, repairs, a);
    case Throwing(_) => EndsLogOn(run, files, worker, 0, a);
    case Over =>
  }

  lemma StepLogsOn(w: World, step: Step)
    ensures LogsOn(w.run, Apply(w, step).run)
  {
    if step.Work? && step.i < |w.workers| {
      AdvanceLogsOn(w.run, w.files, w.workers[step.i], step.answer);
    }
  }

  /** With all writers interleaved, a run's events are numbered exactly 1 to eventSequence. */
  lemma {:induction false} EventsAreNumbered(steps: seq<Step>)
    ensures Numbered(RunAll(steps).run)
  {
    if steps != [] {
      EventsAreNumbered(steps[..|steps| - 1]);
      StepLogsOn(RunAll(steps[..|steps| - 1]), steps[|steps| - 1]);
    }
  }

  /** A reader that has seen a prefix of the log never has to look at it again. */
  lemma {:induction false} LogIsAppendOnly(steps: seq<Step>, k: nat)
    requires k <= |steps|
    ensures RunAll(steps[..k]).run.events <= RunAll(steps).run.events
    decreases |steps|
  {
    var n := |steps|;
    if k == n {
      assert steps[..k] == steps;
    } else {
      assert steps[..n - 1][..k] == steps[..k];
      LogIsAppendOnly(steps[..n - 1], k);
      EventsAreNumbered(steps[..n - 1]);
      StepLogsOn(RunAll(steps[..n - 1]), steps[n - 1]);
    }
  }
}
