/** Automatic repairs: no worker writes more of them than it may spend. */
module RunRepairs {
  import opened Wrappers
  import opened FileRevisions
  import FileLaws
  import opened RunRecord
  import opened RunHistory
  import opened RunLaws
  import opened RunTasks
  import opened RunApproval
  import opened RunFiles

  /** The step is worker `i`'s, in its route check or its validation loop, and it changes files. */
  predicate WritesRepair(w: World, step: Step, i: nat) {
    && step.Work? && step.i == i && i < |w.workers| && Repairing(w.workers[i].phase)
    && Apply(w, step).files != w.files
  }

  function RepairsBy(steps: seq<Step>, i: nat): nat {
    if steps == [] then 0
    else
      RepairsBy(steps[..|steps| - 1], i)
      + if WritesRepair(RunAll(steps[..|steps| - 1]), steps[|steps| - 1], i) then 1 else 0
  }

  /** How far the counter of the validation loop covers the repairs written so far. */
  predicate Spent(worker: Worker, written: nat) {
    match worker.phase
    case Validating(repairs) => written <= repairs <= worker.maxRepairs
    case Throwing(_) => written <= worker.maxRepairs
    case Over => written <= worker.maxRepairs
    case _ => written == 0
  }

  /** A patch that writes no path changes nothing. */
  lemma {:induction false} NoPathsNoRows(rows: seq<Revision>, plans: seq<FilePlan>)
    requires WrittenPaths(plans) == [] && WriteAll(rows, plans).Some?
    ensures WriteAll(rows, plans).value == rows
    decreases |plans|
  {
    if plans != [] {
      NoPathsNoRows(rows, plans[1..]);
    }
  }

  lemma RepairThatWrites(run: Run, files: seq<Revision>, token: nat, patch: seq<PatchFile>, now: Time)
    ensures var (_, files', r) := ApplyRepair(run, files, token, patch, now);
      files' != files ==> r.Repaired? && r.paths != []
  {
    var plans := Plans(files, patch);
    if WriteAll(files, plans).Some? && WrittenPaths(plans) == [] {
      NoPathsNoRows(files, plans);
    }
  }

  /** And one that writes some path adds its row. */
  lemma RepairWritesExactly(run: Run, files: seq<Revision>, token: nat, patch: seq<PatchFile>, now: Time)
    ensures var (_, files', r) := ApplyRepair(run, files, token, patch, now);
      files' != files <==> r.Repaired? && r.paths != []
  {
    RepairThatWrites(run, files, token, patch, now);
    if Active(run, token) && ApplyPatch(files, patch).1.Written? {
      FileLaws.PatchListsWhatItWrote(files, patch);
    }
  }

  lemma RoutesSpend(run: Run, files: seq<Revision>, worker: Worker, a: Answer)
    requires worker.phase.CheckingRoutes?
    ensures var r := RoutesStep(run, files, worker, a);
      Spent(r.worker, if r.files != files then 1 else 0)
  {
    if a.patch.Some? {
      RepairThatWrites(run, files, worker.token, a.patch.value, a.now);
    }
  }

  lemma ValidationSpends(run: Run, files: seq<Revision>, worker: Worker, a: Answer, written: nat)
    requires worker.phase.Validating? && Spent(worker, written)
    ensures var r := ValidateStep(run, files, worker, worker.phase.repairs, a);
      Spent(r.worker, written + if r.files != files then 1 else 0)
  {
    if a.patch.Some? {
      RepairThatWrites(run, files, worker.token, a.patch.value, a.now);
    }
  }

  lemma AdvanceSpends(run: Run, files: seq<Revision>, worker: Worker, a: Answer, written: nat)
    requires Spent(worker, written)
    ensures var r := Advance(run, files, worker, a);
      Spent(r.worker, written + if Repairing(worker.phase) && r.files != files then 1 else 0)
  {
    if worker.phase.CheckingRoutes? {
      RoutesSpend(run, files, worker, a);
    } else if worker.phase.Validating? {
      ValidationSpends(run, files, worker, a, written);
    } else {
      AdvancePhases(run, files, worker, a);
    }
  }

  predicate AllSpent(steps: seq<Step>, i: nat) {
    var w := RunAll(steps);
    if i < |w.workers| then Spent(w.workers[i], RepairsBy(steps, i)) else RepairsBy(steps, i) == 0
  }

  lemma StepSpends(w: World, step: Step, i: nat, written: nat)
    requires if i < |w.workers| then Spent(w.workers[i], written) else written == 0
    ensures var next := Apply(w, step);
      var after := written + if WritesRepair(w, step, i) then 1 else 0;
      if i < |next.workers| then Spent(next.workers[i], after) else after == 0
  {
    if step.Work? {
      if step.i == i && i < |w.workers| && step.answer.now <= w.clock {
        AdvanceSpends(w.run, w.files, w.workers[i], step.answer, written);
      }
    }
  }

  lemma {:induction false} SpentForever(steps: seq<Step>, i: nat)
    ensures AllSpent(steps, i)
  {
    if steps != [] {
      var n := |steps| - 1;
      SpentForever(steps[..n], i);
      StepSpends(RunAll(steps[..n]), steps[n], i, RepairsBy(steps[..n], i));
    }
  }

  /**
   * In every history a worker writes at most `maxRepairs` repairs, the one for missing routes
   * included, whatever the sandbox and the model say.
   */
  lemma RepairsAreBounded(steps: seq<Step>, i: nat)
    requires i < |RunAll(steps).workers|
    ensures RepairsBy(steps, i) <= RunAll(steps).workers[i].maxRepairs
  {
    SpentForever(steps, i);
  }

  /**
   * A round that does not validate is followed by another exactly when its repair has changed a file;
   * otherwise the validation's error is thrown, or the run has been taken away.
   */
  lemma RoundGoesOnExactly(run: Run, files: seq<Revision>, worker: Worker, a: Answer)
    requires worker.phase.Validating? && !a.validates
    ensures var r := Advance(run, files, worker, a);
      if r.files != files
      then r.worker.phase == Validating(worker.phase.repairs + 1) && Active(run, worker.token)
      else r.worker.phase == Throwing(a.retryable) || (r.worker.phase.Over? && !Active(run, worker.token))
  {
    if a.patch.Some? {
      RepairWritesExactly(run, files, worker.token, a.patch.value, a.now);
    }
  }

  /** The repair for missing routes counts as one exactly when it has changed a file. */
  lemma RouteRepairCountsExactly(run: Run, files: seq<Revision>, worker: Worker, a: Answer)
    requires worker.phase.CheckingRoutes?
    ensures var r := Advance(run, files, worker, a);
      if r.files != files then r.worker.phase == Validating(1) && Active(run, worker.token)
      else r.worker.phase == Validating(0) || (r.worker.phase.Over? && !Active(run, worker.token))
  {
    if a.patch.Some? {
      RepairWritesExactly(run, files, worker.token, a.patch.value, a.now);
    }
  }

  /** A repair for missing routes never decides a run: whatever becomes of it, validation follows or the run was stopped. */
  lemma RouteRepairIsAdvisory(run: Run, files: seq<Revision>, worker: Worker, a: Answer)
    requires worker.phase.CheckingRoutes?
    ensures Advance(run, files, worker, a).worker.phase.Validating?
      || (Advance(run, files, worker, a).worker.phase.Over? && !Active(run, worker.token))
    ensures Frame(Advance(run, files, worker, a).run) == Frame(run)
  {
    RoutesMove(run, files, worker, a, GateEntry(PlanScope));
    RoutesMove(run, files, worker, a, CompletedEntry);
  }

  predicate Finishes(run: Run, run': Run) {
    run.status != COMPLETED && run'.status == COMPLETED
  }

  /** A run completes only by the worker whose token is active, right after its project passed validation. */
  lemma CompletionIsValidated(w: World, step: Step)
    requires Finishes(w.run, Apply(w, step).run)
    ensures step.Work? && step.i < |w.workers| && step.answer.validates
    ensures w.workers[step.i].phase.Validating? && Active(w.run, w.workers[step.i].token)
  {
    if step.Work? && step.i < |w.workers| {
      OnlyValidationCompletes(w.run, w.files, w.workers[step.i], step.answer);
    }
  }

  lemma OnlyValidationCompletes(run: Run, files: seq<Revision>, worker: Worker, a: Answer)
    requires Finishes(run, Advance(run, files, worker, a).run)
    ensures worker.phase.Validating? && a.validates && Active(run, worker.token)
  {
    if !Active(run, worker.token) {
      InactiveWorkerWritesNothing(run, files, worker, a);
    } else {
      match worker.phase
      case AtAgent(agent) => TaskStepsMove(run, files, worker, agent, a, FailedEntry);
      case Prepared(agent) => TaskStepsMove(run, files, worker, agent, a, FailedEntry);
      case FailingTask(agent, _) => StartMoves(run, worker.token, agent, a.now, FailedEntry);
      case Executing(agent) => ExecuteMoves(run, files, worker, agent, a, FailedEntry);
      case CheckingRoutes => RoutesMove(run, files, worker, a, FailedEntry);
      case _ =>
    }
  }
}
