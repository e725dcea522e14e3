/** The two approval gates: who is asked, exactly when, and what no run does unasked. */
module RunGates {
  import opened Wrappers
  import opened FileRevisions
  import opened RunRecord
  import opened RunHistory
  import opened RunLaws
  import opened RunTasks
  import opened RunApproval
  import opened RunRepairs
  import opened RunSweeps

  /** Adrian's answer proposes copy that a person has to see. */
  predicate AsksContent(worker: Worker) {
    Adrian in worker.outputs && worker.outputs[Adrian].hasCopyVariants
  }

  predicate HoldsContentApproval(worker: Worker) {
    worker.job.command == Approve && worker.job.scope == Some(ContentScope)
  }

  /** The API accepted an `approve` of the content for this run. */
  predicate ContentApproved(entries: seq<Entry>) {
    exists v :: 0 <= v < |entries| && entries[v] == ActionEntry(ApproveAction(ContentScope))
  }

  predicate PastContentGate(phase: Phase) {
    phase.CheckingRoutes? || phase.Validating?
  }

  // ---- Nothing passes the content gate unasked ----

  /** A worker past the gate with copy variants runs a content approval. */
  predicate ContentCleared(worker: Worker) {
    PastContentGate(worker.phase) && AsksContent(worker) ==> HoldsContentApproval(worker)
  }

  lemma ContentGateClears(run: Run, files: seq<Revision>, worker: Worker, a: Answer)
    requires worker.phase.AtContentGate?
    ensures ContentCleared(Advance(run, files, worker, a).worker)
  {
  }

  lemma AdvanceKeepsCleared(run: Run, files: seq<Revision>, worker: Worker, a: Answer)
    requires ContentCleared(worker)
    ensures ContentCleared(Advance(run, files, worker, a).worker)
  {
    if worker.phase.AtContentGate? {
      ContentGateClears(run, files, worker, a);
    } else {
      AdvancePhases(run, files, worker, a);
      AdvanceOutputs(run, files, worker, a);
      AdvanceKeepsIdentity(run, files, worker, a);
    }
  }

  predicate AllContentCleared(w: World) {
    forall i :: 0 <= i < |w.workers| ==> ContentCleared(w.workers[i])
  }

  lemma StepKeepsContentCleared(w: World, step: Step)
    requires AllContentCleared(w)
    ensures AllContentCleared(Apply(w, step))
  {
    if step.Work? && step.i < |w.workers| && step.answer.now <= w.clock {
      AdvanceKeepsCleared(w.run, w.files, w.workers[step.i], step.answer);
      assert Apply(w, step).workers
        == w.workers[step.i := Advance(w.run, w.files, w.workers[step.i], step.answer).worker];
    } else if !step.Work? && !step.Deliver? {
      OtherStepsKeepWork(w, step);
    }
  }

  lemma {:induction false} ContentClearedForever(steps: seq<Step>)
    ensures AllContentCleared(RunAll(steps))
  {
    if steps != [] {
      ContentClearedForever(steps[..|steps| - 1]);
      StepKeepsContentCleared(RunAll(steps[..|steps| - 1]), steps[|steps| - 1]);
    }
  }

  lemma ContentJobMeansApproval(w: World, i: nat)
    requires Consistent(w) && i < |w.workers| && HoldsContentApproval(w.workers[i])
    ensures w.workers[i].job.version < |w.entries|
    ensures w.entries[w.workers[i].job.version] == ActionEntry(ApproveAction(ContentScope))
    ensures ContentApproved(w.entries)
  {
    assert JobFits(w.entries, w.workers[i].job);
  }

  /**
   * No worker checks, validates or completes a project for which Adrian proposed copy variants unless
   * its own job was queued by an `approve` of the content that the API accepted. A plan approval,
   * a resume, a retry and the first start never let it pass.
   */
  lemma VariantsNeedApproval(steps: seq<Step>, i: nat)
    requires i < |RunAll(steps).workers|
    requires PastContentGate(RunAll(steps).workers[i].phase) && AsksContent(RunAll(steps).workers[i])
    ensures var w, job := RunAll(steps), RunAll(steps).workers[i].job;
      job.version < |w.entries| && w.entries[job.version] == ActionEntry(ApproveAction(ContentScope))
    ensures ContentApproved(RunAll(steps).entries)
  {
    HistoryConsistent(steps);
    ContentClearedForever(steps);
    assert ContentCleared(RunAll(steps).workers[i]);
    ContentJobMeansApproval(RunAll(steps), i);
  }

  /** So a run completes with copy variants in hand only after the content was approved. */
  lemma CompletionWithVariantsIsApproved(steps: seq<Step>, step: Step)
    requires Finishes(RunAll(steps).run, Apply(RunAll(steps), step).run)
    ensures step.Work? && step.i < |RunAll(steps).workers|
    ensures AsksContent(RunAll(steps).workers[step.i]) ==> ContentApproved(RunAll(steps).entries)
  {
    CompletionIsValidated(RunAll(steps), step);
    if AsksContent(RunAll(steps).workers[step.i]) {
      VariantsNeedApproval(steps, step.i);
    }
  }

  // ---- A person is asked exactly when needed ----

  /** The worker stands at the content gate and only a person can let it pass. */
  predicate ContentIsAsked(worker: Worker) {
    worker.phase.AtContentGate? && AsksContent(worker) && !(HoldsContentApproval(worker) && !worker.bypassed)
  }

  /** The worker stands at the plan gate and only a person can let it pass. */
  predicate PlanIsAsked(worker: Worker, references: bool) {
    && worker.phase.AtPlanGate? && Mike in worker.outputs && Alex !in worker.outputs
    && (worker.outputs[Mike].requiresApproval || references)
    && !(HoldsPlanApproval(worker) && !worker.bypassed)
  }

  predicate Asked(worker: Worker, a: Answer, scope: Scope) {
    match scope
    case PlanScope => PlanIsAsked(worker, a.references)
    case ContentScope => ContentIsAsked(worker)
  }

  /** The content gate parks the run exactly when a person is needed; it opens exactly when none is. */
  lemma ContentGateAsksExactly(run: Run, files: seq<Revision>, worker: Worker, a: Answer)
    requires worker.phase.AtContentGate?
    ensures var r := Advance(run, files, worker, a);
      && (r.worker.phase.CheckingRoutes? <==> !ContentIsAsked(worker))
      && (r.run != run <==> ContentIsAsked(worker) && Active(run, worker.token) && !a.fails)
      && (r.run != run ==> r.run.status == PAUSED && r.run.version == run.version + 1 && r.worker.phase.Over?)
  {
  }

  /** The same of the plan gate, for a worker that has Mike's plan. */
  lemma PlanGateAsksExactly(run: Run, files: seq<Revision>, worker: Worker, a: Answer)
    requires worker.phase.AtPlanGate? && Mike in worker.outputs
    requires !a.fails || Alex in worker.outputs
    ensures var r := Advance(run, files, worker, a);
      && (r.worker.phase == AtAgent(Alex) <==> !PlanIsAsked(worker, a.references))
      && (r.run != run <==> PlanIsAsked(worker, a.references) && Active(run, worker.token))
      && (r.run != run ==> r.run.status == PAUSED && r.run.version == run.version + 1 && r.worker.phase.Over?)
  {
  }

  predicate AddsGateEntry(w: World, step: Step, scope: Scope) {
    var next := Apply(w, step);
    |next.entries| == |w.entries| + 1 && next.entries[|w.entries|] == GateEntry(scope)
  }

  /** The step is that of a worker with an active token for which a person has to be asked. */
  predicate ParksAsked(w: World, step: Step, scope: Scope) {
    && step.Work? && step.i < |w.workers| && Active(w.run, w.workers[step.i].token)
    && Asked(w.workers[step.i], step.answer, scope)
  }

  lemma GateStepIsAsked(run: Run, files: seq<Revision>, worker: Worker, a: Answer, scope: Scope)
    requires EntryOf(worker) == GateEntry(scope) && Advance(run, files, worker, a).run.version != run.version
    ensures Active(run, worker.token) && Asked(worker, a, scope)
  {
  }

  lemma GateEntryIsAsked(w: World, step: Step, scope: Scope)
    requires AddsGateEntry(w, step, scope)
    ensures ParksAsked(w, step, scope)
  {
    assert step.Work? && step.i < |w.workers| && step.answer.now <= w.clock;
    var worker := w.workers[step.i];
    assert EntryOf(worker) == GateEntry(scope);
    GateStepIsAsked(w.run, w.files, worker, step.answer, scope);
  }

  /** Every pause that stands for an approval goes back to a worker at that gate that had to ask. */
  lemma EveryGatePauseWasAsked(steps: seq<Step>, v: nat, scope: Scope) returns (k: nat)
    requires v < |RunAll(steps).entries| && RunAll(steps).entries[v] == GateEntry(scope)
    ensures k < |steps| && RunAll(steps[..k]).run.version + 1 == v
    ensures ParksAsked(RunAll(steps[..k]), steps[k], scope)
  {
    HistoryConsistent(steps);
    FirstEntryIsCreation(steps);
    k := MomentOfEntry(steps, v);
    OneStepUp(steps, k);
    HistoryConsistent(steps[..k]);
    HistoryConsistent(steps[..k + 1]);
    VersionsNeverFall(steps, k + 1);
    assert steps[..k + 1][..k] == steps[..k];
    var w, next := RunAll(steps[..k]), RunAll(steps[..k + 1]);
    assert next == Apply(w, steps[k]);
    assert next.entries[v] == RunAll(steps).entries[v];
    GateEntryIsAsked(w, steps[k], scope);
  }

  lemma FirstEntryIsCreation(steps: seq<Step>)
    ensures |RunAll(steps).entries| > 0 && RunAll(steps).entries[0] == CreatedEntry
  {
    VersionsNeverFall(steps, 0);
    assert steps[..0] == [];
    assert RunAll([]).entries == [CreatedEntry];
  }
}
