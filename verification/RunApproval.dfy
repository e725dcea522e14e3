/** Approval safety across services: what must have happened before Alex touches a run. */
module RunApproval {
  import opened Wrappers
  import opened FileRevisions
  import opened RunRecord
  import opened RunHistory
  import opened RunLaws
  import opened RunTasks

  predicate AfterPlanGate(agent: Agent) {
    agent in {Alex, David, Sarah, Adrian}
  }

  /** The worker has passed the plan gate, or carries an output of Alex, which lets it pass. */
  predicate Beyond(worker: Worker) {
    || Alex in worker.outputs
    || match worker.phase
       case AtAgent(g) => AfterPlanGate(g)
       case Prepared(g) => AfterPlanGate(g)
       case Executing(g) => AfterPlanGate(g)
       case FailingTask(g, _) => AfterPlanGate(g)
       case AtContentGate => true
       case CheckingRoutes => true
       case Validating(_) => true
       case _ => false
  }

  /** The API accepted an `approve` of the plan for this run. */
  predicate PlanApproved(entries: seq<Entry>) {
    exists v :: 0 <= v < |entries| && entries[v] == ActionEntry(ApproveAction(PlanScope))
  }

  /** A plan gate let a plan through, or a person did. */
  predicate Cleared(w: World) {
    |w.openings| > 0 || PlanApproved(w.entries)
  }

  predicate HoldsPlanApproval(worker: Worker) {
    worker.job.command == Approve && worker.job.scope == Some(PlanScope)
  }

  // ---- One worker step ----

  /** How the phase may move; only the plan gate leads from before it to beyond it. */
  predicate PhaseMove(worker: Worker, phase': Phase, gateOpens: bool) {
    match phase'
    case Over => true
    case Throwing(_) => true
    case FailingTask(g, _) => worker.phase == Executing(g)
    case Prepared(g) => worker.phase == AtAgent(g)
    case Executing(g) => worker.phase == Prepared(g)
    case CheckingRoutes => worker.phase.AtContentGate?
    case Validating(_) => worker.phase.CheckingRoutes? || worker.phase.Validating?
    case AtPlanGate => LeadsTo(worker.phase, phase')
    case AtContentGate => LeadsTo(worker.phase, phase')
    case AtAgent(g) =>
      LeadsTo(worker.phase, phase')
      || (worker.phase.AtPlanGate? && (Alex in worker.outputs || gateOpens || HoldsPlanApproval(worker)))
  }

  predicate LeadsTo(phase: Phase, phase': Phase) {
    match phase
    case AtAgent(g) => phase' == After(g)
    case Prepared(g) => phase' == After(g)
    case Executing(g) => phase' == After(g)
    case _ => false
  }

  lemma ExecutePhases(run: Run, files: seq<Revision>, worker: Worker, agent: Agent, a: Answer)
    requires worker.phase == Executing(agent)
    ensures PhaseMove(worker, ExecuteStep(run, files, worker, agent, a).worker.phase, false)
    ensures ExecuteStep(run, files, worker, agent, a).opening.None?
  {
    if a.result.Some? && !a.fails {
      var next := CompleteTask(run, files, worker.token, agent, a.result.value, HandedIn(agent, a), a.rejected, a.now);
      assert PhaseMove(worker, Conclude(next.0, next.1, next.2, worker, agent, a).worker.phase, false);
    }
  }

  lemma MayGoOn(worker: Worker, agent: Agent)
    requires worker.phase == AtAgent(agent) || worker.phase == Prepared(agent)
    ensures PhaseMove(worker, After(agent), false)
  {
  }

  lemma PreparePhases(run: Run, files: seq<Revision>, worker: Worker, agent: Agent, a: Answer)
    requires worker.phase == AtAgent(agent)
    ensures PhaseMove(worker, RunAgentStep(run, files, worker, agent, a).worker.phase, false)
    ensures RunAgentStep(run, files, worker, agent, a).opening.None?
  {
    MayGoOn(worker, agent);
  }

  lemma StartPhases(run: Run, files: seq<Revision>, worker: Worker, agent: Agent, a: Answer)
    requires worker.phase == Prepared(agent)
    ensures PhaseMove(worker, StartStep(run, files, worker, agent, a).worker.phase, false)
    ensures StartStep(run, files, worker, agent, a).opening.None?
  {
    MayGoOn(worker, agent);
  }

  /** A gate opens on a plan of Mike's that asks for no approval, in a run without references. */
  predicate Opens(worker: Worker, opening: Option<Opening>, a: Answer) {
    opening.Some? ==>
      && worker.phase.AtPlanGate? && Mike in worker.outputs
      && opening.value == Opening(worker.outputs[Mike], a.references)
      && !worker.outputs[Mike].requiresApproval && !a.references
  }

  lemma AdvancePhases(run: Run, files: seq<Revision>, worker: Worker, a: Answer)
    ensures var r := Advance(run, files, worker, a);
      PhaseMove(worker, r.worker.phase, r.opening.Some?) && Opens(worker, r.opening, a)
  {
    match worker.phase
    case AtAgent(agent) => PreparePhases(run, files, worker, agent, a);
    case Prepared(agent) => StartPhases(run, files, worker, agent, a);
    case Executing(agent) => ExecutePhases(run, files, worker, agent, a);
    case _ =>
  }

  // ---- The invariant ----

  predicate HasOutputOf(produced: set<(Agent, Output)>, agent: Agent) {
    exists p :: p in produced && p.0 == agent
  }

  /** A gate may open unasked: a plan that Mike handed in asks for no approval, and the run has no references. */
  predicate Unasked(opening: Opening, produced: set<(Agent, Output)>) {
    !opening.plan.requiresApproval && !opening.references && (Mike, opening.plan) in produced
  }

  /** Nothing lies beyond the plan gate unless the run has been cleared. */
  predicate PlanFenced(w: World) {
    && (!Cleared(w) ==> forall i :: 0 <= i < |w.workers| ==> !Beyond(w.workers[i]))
    && (!Cleared(w) ==> !HasOutputOf(w.produced, Alex) && Alex !in w.run.tasks)
    && (forall k :: 0 <= k < |w.openings| ==> Unasked(w.openings[k], w.produced))
  }

  lemma ClearedStays(w: World, step: Step)
    requires Consistent(w) && Cleared(w)
    ensures Cleared(Apply(w, step))
  {
    StepKeepsConsistent(w, step);
    if PlanApproved(w.entries) {
      var v :| 0 <= v < |w.entries| && w.entries[v] == ActionEntry(ApproveAction(PlanScope));
      assert Apply(w, step).entries[v] == w.entries[v];
    }
  }

  /** The worker's job was queued by an `approve` of the plan that the API accepted. */
  lemma PlanJobMeansApproval(w: World, i: nat)
    requires Consistent(w) && i < |w.workers| && HoldsPlanApproval(w.workers[i])
    ensures w.workers[i].job.version < |w.entries|
    ensures w.entries[w.workers[i].job.version] == ActionEntry(ApproveAction(PlanScope))
    ensures PlanApproved(w.entries)
  {
    assert JobFits(w.entries, w.workers[i].job);
  }

  lemma LandKeepsPlan(w: World, i: nat, r: Advanced, a: Answer)
    requires PlanFenced(w) && Sourced(w) && i < |w.workers|
    requires HoldsPlanApproval(w.workers[i]) ==> PlanApproved(w.entries)
    requires TaskMove(w.run.tasks, r.run.tasks, w.workers[i].phase, r.worker.phase, a.result)
    requires OutputMove(w.run, w.workers[i], r.worker, a.result)
    requires PhaseMove(w.workers[i], r.worker.phase, r.opening.Some?) && Opens(w.workers[i], r.opening, a)
    requires !Cleared(w) && !Cleared(Land(w, i, r))
    ensures PlanFenced(Land(w, i, r))
  {
  }

  lemma LandKeepsOpenings(w: World, i: nat, r: Advanced, a: Answer)
    requires PlanFenced(w) && Sourced(w) && i < |w.workers| && Opens(w.workers[i], r.opening, a)
    ensures var next := Land(w, i, r);
      forall k :: 0 <= k < |next.openings| ==> Unasked(next.openings[k], next.produced)
  {
  }

  lemma WorkKeepsPlan(w: World, i: nat, a: Answer)
    requires Consistent(w) && PlanFenced(w) && Sourced(w) && i < |w.workers|
    requires Cleared(w) ==> Cleared(WorkOn(w, i, a))
    ensures PlanFenced(WorkOn(w, i, a))
  {
    var r := Advance(w.run, w.files, w.workers[i], a);
    AdvanceTasks(w.run, w.files, w.workers[i], a);
    AdvanceOutputs(w.run, w.files, w.workers[i], a);
    AdvancePhases(w.run, w.files, w.workers[i], a);
    LandKeepsOpenings(w, i, r, a);
    if HoldsPlanApproval(w.workers[i]) {
      PlanJobMeansApproval(w, i);
    }
    if !Cleared(w) && !Cleared(Land(w, i, r)) {
      LandKeepsPlan(w, i, r, a);
    }
  }

  lemma DeliverKeepsPlan(w: World, job: Job, at: Time, restored: map<Agent, Output>, maxRepairs: nat)
    requires PlanFenced(w)
    requires Cleared(w) ==> Cleared(DeliverOn(w, job, at, restored, maxRepairs))
    ensures PlanFenced(DeliverOn(w, job, at, restored, maxRepairs))
  {
  }

  /** What was handed in, the openings and the tasks are the same; a worker is the same or has crashed. */
  predicate SameWork(w: World, next: World) {
    && next.produced == w.produced && next.openings == w.openings
    && next.run.tasks.Keys == w.run.tasks.Keys
    && |next.workers| == |w.workers|
    && forall i :: 0 <= i < |w.workers| ==>
         next.workers[i] == w.workers[i] || next.workers[i] == w.workers[i].(phase := Over)
  }

  lemma OtherStepsKeepWork(w: World, step: Step)
    requires !step.Work? && !step.Deliver?
    ensures SameWork(w, Apply(w, step))
  {
    match step
    case Act(action, seenStatus, seenVersion, at) => ActKeepsWork(w, action, seenStatus, seenVersion, at);
    case PurgeSeen(k) =>
      if k < |w.looks| {
        PurgeKeepsTasks(w.run, w.looks[k].now);
      }
    case _ =>
  }

  lemma ActKeepsWork(w: World, action: Action, seenStatus: RunStatus, seenVersion: nat, at: Time)
    ensures SameWork(w, ActOn(w, action, seenStatus, seenVersion, at))
  {
  }

  lemma SameWorkKeepsPlan(w: World, next: World)
    requires PlanFenced(w) && SameWork(w, next)
    requires Cleared(w) ==> Cleared(next)
    ensures PlanFenced(next)
  {
  }

  lemma StepKeepsPlan(w: World, step: Step)
    requires Consistent(w) && PlanFenced(w) && Sourced(w)
    ensures PlanFenced(Apply(w, step))
  {
    if Cleared(w) {
      ClearedStays(w, step);
    }
    if step.Work? {
      if step.i < |w.workers| && step.answer.now <= w.clock {
        WorkKeepsPlan(w, step.i, step.answer);
      }
    } else if step.Deliver? {
      DeliverKeepsPlan(w, step.job, step.at, step.restored, step.maxRepairs);
    } else {
      OtherStepsKeepWork(w, step);
      SameWorkKeepsPlan(w, Apply(w, step));
    }
  }

  lemma {:induction false} PlanIsFenced(steps: seq<Step>)
    ensures PlanFenced(RunAll(steps))
  {
    if steps != [] {
      var w := RunAll(steps[..|steps| - 1]);
      PlanIsFenced(steps[..|steps| - 1]);
      HistoryConsistent(steps[..|steps| - 1]);
      OutputsAreSourced(steps[..|steps| - 1]);
      StepKeepsPlan(w, steps[|steps| - 1]);
    }
  }

  /**
   * Alex is executed in a run, and even gets a task row, only if some plan gate of that run saw a
   * plan of Mike's that asks for no approval and found no references, or the API accepted an
   * `approve` with scope `plan` for it. Resume, retry, content approvals and redelivery never do.
   */
  lemma AlexNeedsClearance(steps: seq<Step>)
    requires Alex in RunAll(steps).run.tasks
      || exists i :: 0 <= i < |RunAll(steps).workers| && RunAll(steps).workers[i].phase == Executing(Alex)
    ensures Cleared(RunAll(steps))
    ensures forall k :: 0 <= k < |RunAll(steps).openings| ==>
      Unasked(RunAll(steps).openings[k], RunAll(steps).produced)
  {
    PlanIsFenced(steps);
  }

  // ---- References never switch the approval off ----

  predicate AsksPlanGate(w: World, step: Step) {
    step.Work? && step.i < |w.workers| && w.workers[step.i].phase.AtPlanGate?
  }

  /** Whenever a worker of this history stood at the plan gate, the run had references. */
  predicate AlwaysReferenced(steps: seq<Step>) {
    forall k :: 0 <= k < |steps| && AsksPlanGate(RunAll(steps[..k]), steps[k]) ==> steps[k].answer.references
  }

  lemma ReferencedStepOpensNothing(w: World, step: Step)
    requires AsksPlanGate(w, step) ==> step.answer.references
    ensures Apply(w, step).openings == w.openings
  {
    if step.Work? && step.i < |w.workers| {
      AdvancePhases(w.run, w.files, w.workers[step.i], step.answer);
    }
  }

  lemma {:induction false} ReferencesOpenNothing(steps: seq<Step>)
    requires AlwaysReferenced(steps)
    ensures RunAll(steps).openings == []
  {
    if steps != [] {
      var n := |steps| - 1;
      forall k | 0 <= k < n && AsksPlanGate(RunAll(steps[..n][..k]), steps[..n][k])
        ensures steps[..n][k].answer.references
      {
        assert steps[..n][..k] == steps[..k];
      }
      ReferencesOpenNothing(steps[..n]);
      ReferencedStepOpensNothing(RunAll(steps[..n]), steps[n]);
    }
  }

  /**
   * In a run with references nothing Mike says lets Alex start: whatever the plan asks for, a
   * person has approved it. Text in a reference cannot switch the approval off.
   */
  lemma ReferencesForceApproval(steps: seq<Step>)
    requires AlwaysReferenced(steps)
    requires Alex in RunAll(steps).run.tasks
      || exists i :: 0 <= i < |RunAll(steps).workers| && RunAll(steps).workers[i].phase == Executing(Alex)
    ensures PlanApproved(RunAll(steps).entries)
  {
    AlexNeedsClearance(steps);
    ReferencesOpenNothing(steps);
  }
}
