/** What overlapping deliveries of one job can do: the exact way a completed task is taken back. */
module RunOverlap {
  import opened Wrappers
  import opened FileRevisions
  import opened RunRecord
  import opened RunHistory
  import opened RunLaws
  import opened RunTasks
  import opened RunEffects
  import opened RunOnce

  lemma FailTaskTasks(run: Run, files: seq<Revision>, worker: Worker, a: Answer)
    requires worker.phase.FailingTask?
    ensures var g := worker.phase.agent;
      Advance(run, files, worker, a).run.tasks
      == if !a.fails && Active(run, worker.token) && g in run.tasks
         then run.tasks[g := run.tasks[g].(status := TaskFailed)] else run.tasks
  {
  }

  lemma WorkRegresses(run: Run, files: seq<Revision>, worker: Worker, a: Answer, g: Agent)
    requires Complete(run.tasks, g)
    ensures !Complete(Advance(run, files, worker, a).run.tasks, g)
      <==> !a.fails && worker.phase.FailingTask? && worker.phase.agent == g && Active(run, worker.token)
  {
    if worker.phase.FailingTask? {
      FailTaskTasks(run, files, worker, a);
    } else {
      AdvanceTasks(run, files, worker, a);
    }
  }

  /**
   * The one way a completed task is taken back, in any history: a worker still holding the active
   * token fails the task after another delivery of the same job completed it.
   */
  lemma OnlyALateFailureRegresses(w: World, step: Step, g: Agent)
    requires Complete(w.run.tasks, g)
    ensures !Complete(Apply(w, step).run.tasks, g) <==> IsLateFailure(w, step, g)
  {
    if step.Work? {
      if step.i < |w.workers| {
        WorkRegresses(w.run, w.files, w.workers[step.i], step.answer, g);
      }
    } else {
      OtherStepsKeepOutput(w, step, g);
    }
  }

  predicate IsLateFailure(w: World, step: Step, g: Agent) {
    && step.Work? && step.i < |w.workers| && step.answer.now <= w.clock && !step.answer.fails
    && w.workers[step.i].phase.FailingTask? && w.workers[step.i].phase.agent == g
    && Active(w.run, w.workers[step.i].token)
  }

  const SOPHIAS := Output(1, false, false)

  /** An answer at time 0; `result` is the agent's, and the transaction commits. */
  function Says(result: Option<Output>): Answer {
    Answer(0, false, false, true, result, None, false, false, false, false, false)
  }

  const DELIVERY := Deliver(Job(0, Start, None), 0, map[], 0)

  lemma NextWorld(steps: seq<Step>, step: Step)
    ensures RunAll(steps + [step]) == Apply(RunAll(steps), step)
  {
  }

  /** Where the example stands: the run RUNNING at version 1, every worker so far holding token 1. */
  predicate Example(w: World, phases: seq<Phase>, status: Option<TaskStatus>) {
    && Active(w.run, 1) && w.clock == 0 && Job(0, Start, None) in w.jobs
    && |w.workers| == |phases|
    && (forall i :: 0 <= i < |phases| ==> w.workers[i].token == 1 && w.workers[i].phase == phases[i])
    && (Sophia in w.run.tasks <==> status.Some?)
    && (status.Some? ==> w.run.tasks[Sophia].status == status.value)
  }

  lemma FirstDelivery()
    ensures Example(Apply(START, DELIVERY), [AtAgent(Sophia)], None)
  {
  }

  lemma Redelivery(w: World, phase: Phase, status: Option<TaskStatus>)
    requires Example(w, [phase], status)
    ensures Example(Apply(w, DELIVERY), [phase, AtAgent(Sophia)], status)
  {
  }

  /** One worker prepares and starts Sophia's task, which is not complete. */
  lemma PrepareAndStart(w: World, i: nat, phases: seq<Phase>, status: Option<TaskStatus>)
    requires Example(w, phases, status) && i < |phases| && phases[i] == AtAgent(Sophia)
    requires status != Some(TaskCompleted)
    ensures Example(Apply(Apply(w, Work(i, Says(None))), Work(i, Says(None))), phases[i := Executing(Sophia)],
                    Some(TaskRunning))
  {
    var prepared := Apply(w, Work(i, Says(None)));
    assert Example(prepared, phases[i := Prepared(Sophia)], if status.Some? then status else Some(TaskPending));
    assert phases[i := Prepared(Sophia)][i := Executing(Sophia)] == phases[i := Executing(Sophia)];
  }

  lemma Hand(w: World, phases: seq<Phase>)
    requires Example(w, phases, Some(TaskRunning)) && |phases| == 2 && phases[0] == Executing(Sophia)
    ensures Example(Apply(w, Work(0, Says(Some(SOPHIAS)))), phases[0 := AtAgent(Mike)], Some(TaskCompleted))
  {
    var a := Says(Some(SOPHIAS));
    var c := CompleteTask(w.run, w.files, 1, Sophia, SOPHIAS, None, false, 0);
    EmptyPatch(w.files);
    CompletedKeeps(Touch(w.run, 0), Sophia, SOPHIAS, None);
    assert Frame(c.0) == Frame(w.run);
    assert c.0.status == Frame(c.0).status && c.0.version == Frame(c.0).version;
    assert Advance(w.run, w.files, w.workers[0], a) == Conclude(c.0, c.1, c.2, w.workers[0], Sophia, a);
  }

  lemma FailLate(w: World, phases: seq<Phase>)
    requires Example(w, phases, Some(TaskCompleted)) && |phases| == 2 && phases[1] == Executing(Sophia)
    ensures !Complete(Apply(Apply(w, Work(1, Says(None))), Work(1, Says(None))).run.tasks, Sophia)
  {
  }

  const OVERLAP: seq<Step> :=
    [DELIVERY] + [Work(0, Says(None))] + [Work(0, Says(None))] + [DELIVERY] + [Work(1, Says(None))]
    + [Work(1, Says(None))] + [Work(0, Says(Some(SOPHIAS)))]

  /**
   * Overlapping deliveries break it: two workers of one job execute Sophia, the first completes
   * her, and the failure of the second takes the COMPLETED task back to FAILED.
   */
  lemma OverlapTakesACompletionBack()
    ensures Complete(RunAll(OVERLAP).run.tasks, Sophia)
    ensures !Complete(RunAll(OVERLAP + [Work(1, Says(None))] + [Work(1, Says(None))]).run.tasks, Sophia)
  {
    var ask := Work(0, Says(None));
    var s1 := [DELIVERY];
    NextWorld([], DELIVERY);
    assert [] + [DELIVERY] == s1;
    FirstDelivery();
    NextWorld(s1, ask);
    NextWorld(s1 + [ask], ask);
    PrepareAndStart(RunAll(s1), 0, [AtAgent(Sophia)], None);
    var s3 := s1 + [ask] + [ask];
    NextWorld(s3, DELIVERY);
    Redelivery(RunAll(s3), Executing(Sophia), Some(TaskRunning));
    ContinueOverlap(s3 + [DELIVERY]);
  }

  lemma ContinueOverlap(steps: seq<Step>)
    requires Example(RunAll(steps), [Executing(Sophia), AtAgent(Sophia)], Some(TaskRunning))
    ensures var done := steps + [Work(1, Says(None))] + [Work(1, Says(None))] + [Work(0, Says(Some(SOPHIAS)))];
      && Complete(RunAll(done).run.tasks, Sophia)
      && !Complete(RunAll(done + [Work(1, Says(None))] + [Work(1, Says(None))]).run.tasks, Sophia)
  {
    var ask, hand := Work(1, Says(None)), Work(0, Says(Some(SOPHIAS)));
    var both := [Executing(Sophia), Executing(Sophia)];
    NextWorld(steps, ask);
    NextWorld(steps + [ask], ask);
    PrepareAndStart(RunAll(steps), 1, [Executing(Sophia), AtAgent(Sophia)], Some(TaskRunning));
    var s := steps + [ask] + [ask];
    assert [Executing(Sophia), AtAgent(Sophia)][1 := Executing(Sophia)] == both;
    NextWorld(s, hand);
    Hand(RunAll(s), both);
    NextWorld(s + [hand], ask);
    NextWorld(s + [hand] + [ask], ask);
    FailLate(RunAll(s + [hand]), both[0 := AtAgent(Mike)]);
  }
}
