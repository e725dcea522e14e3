/** The project files of a run: every patch commits once, with its task, and revisions stay numbered. */
module RunFiles {
  import opened Wrappers
  import opened FileRevisions
  import opened RunRecord
  import opened RunHistory
  import opened RunLaws
  import opened RunTasks
  import opened RunEffects
  import opened RunOnce
  import FileLaws

  // ---- One transaction ----

  /** The whole patch is in the files, and the newest event lists the paths it wrote. */
  predicate Lands(files: seq<Revision>, files': seq<Revision>, events: seq<RunEvent>, g: Agent, patch: seq<PatchFile>) {
    var (written, result) := ApplyPatch(files, patch);
    && result.Written? && files' == written
    && |events| > 0 && events[|events| - 1].kind == CodeGenerated(g, result.paths)
  }

  /** Either the task is completed and its patch, if it has one, lands; or task and files are as before. */
  predicate TaskAndPatch(run: Run, files: seq<Revision>, run': Run, files': seq<Revision>, g: Agent,
                         patch: Option<seq<PatchFile>>)
  {
    if !Complete(run.tasks, g) && Complete(run'.tasks, g)
    then if patch.Some? then Lands(files, files', run'.events, g, patch.value) else files' == files
    else run'.tasks == run.tasks && files' == files
  }

  lemma CodeIsLast(run: Run, agent: Agent, output: Output, paths: seq<Path>)
    requires agent in run.tasks
    ensures var events := Completed(run, agent, output, Some(paths)).events;
      |events| > 0 && events[|events| - 1].kind == CodeGenerated(agent, paths)
  {
    var kinds := CompletionEvents(agent, run.tasks[agent].attempt, Some(paths));
    assert kinds[|kinds| - 1] == CodeGenerated(agent, paths);
  }

  lemma CommitIsWhole(run: Run, files: seq<Revision>, agent: Agent, output: Output, handsIn: bool,
                      written: seq<Revision>, result: PatchResult, rejected: bool, now: Time)
    requires agent in run.tasks && run.tasks[agent].status != TaskCompleted
    ensures var c := Commit(run, files, agent, output, handsIn, written, result, rejected, now);
      if Complete(c.0.tasks, agent)
      then
        && result.Written? && c.1 == written
        && (handsIn ==> |c.0.events| > 0 && c.0.events[|c.0.events| - 1].kind == CodeGenerated(agent, result.paths))
      else c.0.tasks == run.tasks && c.1 == files
  {
    CommitTasks(run, files, agent, output, handsIn, written, result, rejected, now);
    if result.Written? && !(agent == David && rejected) && handsIn {
      CodeIsLast(Touch(run, now), agent, output, result.paths);
    }
  }

  /**
   * An executing worker's step completes the task and lands its patch in one transaction, or does
   * neither: there is no patch without its completion and no completion without its patch.
   */
  lemma PatchCommitsWithTheTask(run: Run, files: seq<Revision>, worker: Worker, agent: Agent, a: Answer)
    requires worker.phase == Executing(agent)
    ensures var r := Advance(run, files, worker, a);
      TaskAndPatch(run, files, r.run, r.files, agent, HandedIn(agent, a))
  {
    if a.result.Some? && !a.fails {
      var patch := HandedIn(agent, a);
      var next := CompleteTask(run, files, worker.token, agent, a.result.value, patch, a.rejected, a.now);
      ConcludeKeeps(next.0, next.1, next.2, worker, agent, a);
      if Active(run, worker.token) && agent in run.tasks && run.tasks[agent].status != TaskCompleted {
        var (written, result) := ApplyPatch(files, if patch.Some? then patch.value else []);
        CommitIsWhole(run, files, agent, a.result.value, patch.Some?, written, result, a.rejected, a.now);
        EmptyPatch(files);
      }
    }
  }

  predicate Repairing(phase: Phase) {
    phase.CheckingRoutes? || phase.Validating?
  }

  /** A repair's files are written under an active token only, and whole. */
  lemma RepairFiles(run: Run, files: seq<Revision>, worker: Worker, a: Answer)
    requires Repairing(worker.phase)
    ensures var r := Advance(run, files, worker, a);
      r.files == files
      || (Active(run, worker.token) && a.patch.Some? && r.files == ApplyPatch(files, a.patch.value).0)
  {
  }

  /** A repair that commits leaves the paths it wrote in the newest event. */
  lemma RepairIsLogged(run: Run, files: seq<Revision>, worker: Worker, a: Answer)
    requires Repairing(worker.phase) && Advance(run, files, worker, a).files != files
    ensures var events := Advance(run, files, worker, a).run.events;
      && a.patch.Some? && ApplyPatch(files, a.patch.value).1.Written?
      && |events| == |run.events| + 1
      && events[|run.events|].kind == RepairGenerated(ApplyPatch(files, a.patch.value).1.paths)
  {
  }

  /** David's work is never completed against his own checks of it. */
  lemma RejectedWorkIsNotCompleted(run: Run, files: seq<Revision>, worker: Worker, a: Answer)
    requires worker.phase == Executing(David) && a.rejected && !Complete(run.tasks, David)
    ensures var r := Advance(run, files, worker, a);
      r.run.tasks == run.tasks && r.files == files && !r.worker.phase.AtAgent?
  {
    if a.result.Some? && !a.fails {
      var patch := HandedIn(David, a);
      var next := CompleteTask(run, files, worker.token, David, a.result.value, patch, a.rejected, a.now);
      ConcludeKeeps(next.0, next.1, next.2, worker, David, a);
    }
  }

  lemma OtherPhasesKeepFiles(run: Run, files: seq<Revision>, worker: Worker, a: Answer)
    requires !Repairing(worker.phase) && !worker.phase.Executing?
    ensures Advance(run, files, worker, a).files == files
  {
  }

  // ---- Over whole histories ----

  predicate StepCompletes(w: World, step: Step, g: Agent) {
    !Complete(w.run.tasks, g) && Complete(Apply(w, step).run.tasks, g)
  }

  /** The step is the one of a worker executing `g`, and the patch it handed in lands. */
  predicate LandsPatch(w: World, step: Step, g: Agent) {
    && step.Work? && step.i < |w.workers| && w.workers[step.i].phase == Executing(g)
    && HandedIn(g, step.answer).Some?
    && Lands(w.files, Apply(w, step).files, Apply(w, step).run.events, g, HandedIn(g, step.answer).value)
  }

  lemma OnlyExecutionCompletes(w: World, step: Step, g: Agent)
    requires StepCompletes(w, step, g)
    ensures step.Work? && step.i < |w.workers| && step.answer.now <= w.clock && w.workers[step.i].phase == Executing(g)
  {
    if step.Work? {
      if step.i < |w.workers| {
        AdvanceTasks(w.run, w.files, w.workers[step.i], step.answer);
      }
    } else if !step.Deliver? && !step.Crash? {
      OtherStepsWriteNoEffect(w, step);
    }
  }

  lemma CompletionLandsPatch(w: World, step: Step, g: Agent)
    requires StepCompletes(w, step, g) && (g == Alex || g == David)
    ensures LandsPatch(w, step, g)
  {
    OnlyExecutionCompletes(w, step, g);
    PatchCommitsWithTheTask(w.run, w.files, w.workers[step.i], g, step.answer);
  }

  /** How many steps of a history complete an agent's task. */
  function Completions(steps: seq<Step>, g: Agent): nat {
    if steps == [] then 0
    else
      Completions(steps[..|steps| - 1], g)
      + if StepCompletes(RunAll(steps[..|steps| - 1]), steps[|steps| - 1], g) then 1 else 0
  }

  lemma {:induction false} CompletedOnce(steps: seq<Step>, g: Agent)
    requires DeliveriesDoNotOverlap(steps)
    ensures Completions(steps, g) == if Complete(RunAll(steps).run.tasks, g) then 1 else 0
  {
    if steps != [] {
      var n := |steps| - 1;
      PrefixDoesNotOverlap(steps, n);
      CompletedOnce(steps[..n], g);
      if Complete(RunAll(steps[..n]).run.tasks, g) {
        assert steps[..n] == steps[..|steps|][..n];
        CompletedOutputIsFinal(steps, n, g);
      }
    }
  }

  /**
   * Across redelivery, crash, pause, resume and retry the patch of Alex, and that of David, commits
   * exactly once if the task is COMPLETED and never otherwise: one step completes the task, and that
   * step lands the whole patch and logs the paths it wrote.
   */
  lemma PatchesCommitExactlyOnce(steps: seq<Step>, g: Agent)
    requires DeliveriesDoNotOverlap(steps) && (g == Alex || g == David)
    ensures Completions(steps, g) == if Complete(RunAll(steps).run.tasks, g) then 1 else 0
    ensures forall k :: 0 <= k < |steps| && StepCompletes(RunAll(steps[..k]), steps[k], g) ==>
      LandsPatch(RunAll(steps[..k]), steps[k], g)
  {
    CompletedOnce(steps, g);
    forall k | 0 <= k < |steps| && StepCompletes(RunAll(steps[..k]), steps[k], g)
      ensures LandsPatch(RunAll(steps[..k]), steps[k], g)
    {
      CompletionLandsPatch(RunAll(steps[..k]), steps[k], g);
    }
  }

  /** Who may change the files: the completion of Alex or David, a repair under its token, or a user. */
  predicate MayWriteFiles(w: World, step: Step) {
    || step.UserEdit?
    || StepCompletes(w, step, Alex) || StepCompletes(w, step, David)
    || (step.Work? && step.i < |w.workers| && Repairing(w.workers[step.i].phase)
        && Active(w.run, w.workers[step.i].token))
  }

  lemma OnlyTheseWriteFiles(w: World, step: Step)
    requires Apply(w, step).files != w.files
    ensures MayWriteFiles(w, step)
  {
    if step.Work? && step.i < |w.workers| && step.answer.now <= w.clock {
      var worker := w.workers[step.i];
      if worker.phase.Executing? {
        PatchCommitsWithTheTask(w.run, w.files, worker, worker.phase.agent, step.answer);
      } else if Repairing(worker.phase) {
        RepairFiles(w.run, w.files, worker, step.answer);
      } else {
        OtherPhasesKeepFiles(w.run, w.files, worker, step.answer);
      }
    }
  }

  // ---- The file laws hold of the files of a run ----

  /** The write of a step, as the file laws know it. */
  function FileStep(w: World, step: Step): seq<FileLaws.Step> {
    if Apply(w, step).files == w.files then []
    else
      match step
      case UserEdit(path, content, expectedVersion) => [FileLaws.Edit(path, content, expectedVersion)]
      case Work(i, a) => if a.patch.Some? then [FileLaws.Patch(a.patch.value)] else []
      case _ => []
  }

  function FileSteps(steps: seq<Step>): seq<FileLaws.Step> {
    if steps == [] then []
    else FileSteps(steps[..|steps| - 1]) + FileStep(RunAll(steps[..|steps| - 1]), steps[|steps| - 1])
  }

  lemma StepWritesFiles(w: World, step: Step)
    ensures Apply(w, step).files == FileLaws.Run(w.files, FileStep(w, step))
  {
    if Apply(w, step).files != w.files {
      OnlyTheseWriteFiles(w, step);
      if step.Work? {
        WorkWritesFiles(w, step.i, step.answer);
      }
      OneWrite(w.files, FileStep(w, step)[0]);
    }
  }

  lemma OneWrite(files: seq<Revision>, write: FileLaws.Step)
    ensures FileLaws.Run(files, [write]) == FileLaws.Apply(files, write)
  {
    assert [write][..0] == [];
  }

  lemma WorkWritesFiles(w: World, i: nat, a: Answer)
    requires i < |w.workers| && Apply(w, Work(i, a)).files != w.files
    ensures a.patch.Some? && Apply(w, Work(i, a)).files == ApplyPatch(w.files, a.patch.value).0
  {
    var worker := w.workers[i];
    EmptyPatch(w.files);
    if worker.phase.Executing? {
      PatchCommitsWithTheTask(w.run, w.files, worker, worker.phase.agent, a);
    } else if Repairing(worker.phase) {
      RepairFiles(w.run, w.files, worker, a);
    } else {
      OtherPhasesKeepFiles(w.run, w.files, worker, a);
    }
  }

  lemma {:induction false} RunsConcat(files: seq<Revision>, a: seq<FileLaws.Step>, b: seq<FileLaws.Step>)
    ensures FileLaws.Run(files, a + b) == FileLaws.Run(FileLaws.Run(files, a), b)
  {
    if b == [] {
      assert a + b == a;
    } else {
      assert (a + b)[..|a + b| - 1] == a + b[..|b| - 1];
      RunsConcat(files, a, b[..|b| - 1]);
    }
  }

  /** The files of a run history are those of a history of patches and edits; so they stay numbered 1 to n per path. */
  lemma {:induction false} FilesFollowTheFileLaws(steps: seq<Step>)
    ensures RunAll(steps).files == FileLaws.Run([], FileSteps(steps))
    ensures FileLaws.WellNumbered(RunAll(steps).files)
  {
    if steps != [] {
      var n := |steps| - 1;
      FilesFollowTheFileLaws(steps[..n]);
      StepWritesFiles(RunAll(steps[..n]), steps[n]);
      RunsConcat([], FileSteps(steps[..n]), FileStep(RunAll(steps[..n]), steps[n]));
    }
    FileLaws.VersionsAreConsecutive(FileSteps(steps));
  }
}
