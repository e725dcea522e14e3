/** The order of the agents: nobody is reached before everyone ahead has a task row. */
module RunOrder {
  import opened Wrappers
  import opened FileRevisions
  import opened RunRecord
  import opened RunHistory
  import opened RunLaws
  import opened RunTasks
  import opened RunApproval

  const PLANNERS: set<Agent> := {Sophia, Mike, Emma, Bob}

  /** Who comes before an agent. */
  function Ahead(agent: Agent): set<Agent> {
    match agent
    case Sophia => {}
    case Mike => {Sophia}
    case Emma => {Sophia, Mike}
    case Bob => {Sophia, Mike, Emma}
    case Alex => PLANNERS
    case David => PLANNERS + {Alex}
    case Sarah => PLANNERS + {Alex, David}
    case Adrian => PLANNERS + {Alex, David, Sarah}
  }

  /** Whom a worker in this phase has left behind. */
  function Passed(phase: Phase): set<Agent> {
    match phase
    case AtAgent(g) => Ahead(g)
    case Prepared(g) => Ahead(g)
    case Executing(g) => Ahead(g)
    case FailingTask(g, _) => Ahead(g)
    case AtPlanGate => PLANNERS
    case AtContentGate => PLANNERS + {Alex, David, Sarah, Adrian}
    case CheckingRoutes => PLANNERS + {Alex, David, Sarah, Adrian}
    case Validating(_) => PLANNERS + {Alex, David, Sarah, Adrian}
    case Throwing(_) => {}
    case Over => {}
  }

  lemma AfterPasses(g: Agent)
    ensures Passed(After(g)) == Ahead(g) + {g}
  {
  }

  lemma TasksOnlyGrow(tasks: map<Agent, Task>, tasks': map<Agent, Task>, phase: Phase, phase': Phase,
                      result: Option<Output>)
    requires TaskMove(tasks, tasks', phase, phase', result)
    ensures tasks.Keys <= tasks'.Keys
  {
  }

  lemma ExecutedHasTask(run: Run, files: seq<Revision>, worker: Worker, agent: Agent, a: Answer)
    requires worker.phase == Executing(agent)
    ensures var r := ExecuteStep(run, files, worker, agent, a);
      r.worker.phase == After(agent) ==> agent in run.tasks
  {
    if a.result.Some? && !a.fails {
      var c := CompleteTask(run, files, worker.token, agent, a.result.value, HandedIn(agent, a), a.rejected, a.now);
      DoneHasTask(run, files, worker.token, agent, a.result.value, HandedIn(agent, a), a.rejected, a.now);
      assert Conclude(c.0, c.1, c.2, worker, agent, a).worker.phase == After(agent) ==> c.2.Done?;
    }
  }

  lemma DoneHasTask(run: Run, files: seq<Revision>, token: nat, agent: Agent, output: Output,
                    patch: Option<seq<PatchFile>>, rejected: bool, now: Time)
    ensures CompleteTask(run, files, token, agent, output, patch, rejected, now).2.Done? ==> agent in run.tasks
  {
  }

  lemma NodeHasTask(run: Run, files: seq<Revision>, worker: Worker, agent: Agent, a: Answer)
    requires worker.phase == AtAgent(agent) || worker.phase == Prepared(agent)
    ensures var r := Advance(run, files, worker, a);
      r.worker.phase == After(agent) || r.worker.phase == Prepared(agent) ==> agent in r.run.tasks
  {
  }

  lemma AdvancePasses(run: Run, files: seq<Revision>, worker: Worker, a: Answer)
    requires Passed(worker.phase) <= run.tasks.Keys
    ensures var r := Advance(run, files, worker, a);
      run.tasks.Keys <= r.run.tasks.Keys && Passed(r.worker.phase) <= r.run.tasks.Keys
  {
    var r := Advance(run, files, worker, a);
    AdvanceTasks(run, files, worker, a);
    TasksOnlyGrow(run.tasks, r.run.tasks, worker.phase, r.worker.phase, a.result);
    AdvancePhases(run, files, worker, a);
    match worker.phase
    case AtAgent(g) =>
      NodeHasTask(run, files, worker, g, a);
      AfterPasses(g);
    case Prepared(g) =>
      NodeHasTask(run, files, worker, g, a);
      AfterPasses(g);
    case Executing(g) =>
      ExecutedHasTask(run, files, worker, g, a);
      AfterPasses(g);
    case _ =>
  }

  predicate InOrder(w: World) {
    forall i :: 0 <= i < |w.workers| ==> Passed(w.workers[i].phase) <= w.run.tasks.Keys
  }

  lemma StepKeepsOrder(w: World, step: Step)
    requires InOrder(w)
    ensures InOrder(Apply(w, step))
  {
    if step.Work? && step.i < |w.workers| && step.answer.now <= w.clock {
      AdvancePasses(w.run, w.files, w.workers[step.i], step.answer);
      var r := Advance(w.run, w.files, w.workers[step.i], step.answer);
      assert Apply(w, step).run == r.run && Apply(w, step).workers == w.workers[step.i := r.worker];
    } else if !step.Work? && !step.Deliver? {
      OtherStepsKeepWork(w, step);
    }
  }

  /**
   * In every history a worker stands at an agent only when each agent ahead of it has a task row in
   * the run, and behind the content gate only when all eight have: no agent is ever left out.
   */
  lemma {:induction false} AgentsComeInOrder(steps: seq<Step>)
    ensures InOrder(RunAll(steps))
  {
    if steps != [] {
      AgentsComeInOrder(steps[..|steps| - 1]);
      StepKeepsOrder(RunAll(steps[..|steps| - 1]), steps[|steps| - 1]);
    }
  }

  /** The content gate is reached only after Alex, David, Sarah and Adrian have a task row, like the four before them. */
  lemma ContentGateComesLast(steps: seq<Step>, i: nat)
    requires i < |RunAll(steps).workers| && RunAll(steps).workers[i].phase.AtContentGate?
    ensures PLANNERS + {Alex, David, Sarah, Adrian} <= RunAll(steps).run.tasks.Keys
  {
    AgentsComeInOrder(steps);
  }
}
