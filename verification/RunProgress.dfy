/** A worker that nobody disturbs: it never leaves its run RUNNING, and with good answers it gets to the end. */
module RunProgress {
  import opened Wrappers
  import opened FileRevisions
  import opened RunRecord
  import opened RunHistory
  import opened RunLaws
  import opened RunTasks
  import opened RunEffects
  import opened RunOnce
  import opened RunOrder
  import opened RunProcessor

  // ---- The end of a thrown worker ----

  /** No attempt is left, or none would help, and the last transaction goes through. */
  predicate ThrownForGood(phase: Phase, a: Answer) {
    phase.Throwing? && !(phase.retryable && a.attemptsLeft) && !a.fails
  }

  /**
   * A worker that throws for good with its token active leaves the run FAILED one version up with the
   * worker's error; with an attempt left, or without its token, it leaves the run as it is.
   */
  lemma ThrownForGoodFails(run: Run, files: seq<Revision>, worker: Worker, a: Answer)
    requires worker.phase.Throwing?
    ensures var r := Advance(run, files, worker, a);
      && r.worker.phase.Over? && r.files == files
      && if ThrownForGood(worker.phase, a) && Active(run, worker.token)
         then
           && r.run.status == FAILED && r.run.version == run.version + 1
           && r.run.error == Some(WorkerError) && r.run.tasks == run.tasks
         else r.run == run
  {
  }

  // ---- Failing and stopping on the way ----

  /** Without its token a worker ends at the next transaction it tries for an agent. */
  lemma StoppedWorkerEnds(run: Run, files: seq<Revision>, worker: Worker, a: Answer)
    requires !Active(run, worker.token) && !a.fails
    requires worker.phase.AtAgent? || worker.phase.Prepared? || worker.phase.FailingTask?
      || (worker.phase.Executing? && a.result.Some?)
    ensures Advance(run, files, worker, a).worker.phase.Over?
  {
  }

  /** An execution either completes its task and goes on, or goes on to record that it failed. */
  lemma FailedExecutionIsRecorded(run: Run, files: seq<Revision>, worker: Worker, a: Answer, g: Agent)
    requires worker.phase == Executing(g) && Active(run, worker.token)
    ensures var r := Advance(run, files, worker, a);
      if Complete(r.run.tasks, g) && a.result.Some? && !a.fails then r.worker.phase == After(g)
      else r.worker.phase == FailingTask(g, a.retryable) && r.run.tasks == run.tasks
  {
    if a.result.Some? && !a.fails {
      var output, patch := a.result.value, HandedIn(g, a);
      var c := CompleteTask(run, files, worker.token, g, output, patch, a.rejected, a.now);
      CompleteEnds(run, files, worker.token, g, output, patch, a.rejected, a.now);
      ConcludeKeeps(c.0, c.1, c.2, worker, g, a);
    }
  }

  lemma CompleteEnds(run: Run, files: seq<Revision>, token: nat, agent: Agent, output: Output,
                     patch: Option<seq<PatchFile>>, rejected: bool, now: Time)
    requires Active(run, token)
    ensures var c := CompleteTask(run, files, token, agent, output, patch, rejected, now);
      && !c.2.CompleteStopped?
      && (c.2.Done? <==> Complete(c.0.tasks, agent))
      && (!c.2.Done? ==> c.0.tasks == run.tasks)
  {
    CompleteTasks(run, files, token, agent, output, patch, rejected, now);
    if agent in run.tasks && run.tasks[agent].status != TaskCompleted {
      var (written, result) := ApplyPatch(files, if patch.Some? then patch.value else []);
      CommitTasks(run, files, agent, output, patch.Some?, written, result, rejected, now);
    }
  }

  /** The failure is then on the task's row, and the error goes to the catch block as it was raised. */
  lemma FailureReachesTheTask(run: Run, files: seq<Revision>, worker: Worker, a: Answer, g: Agent, retryable: bool)
    requires worker.phase == FailingTask(g, retryable) && Active(run, worker.token) && g in run.tasks && !a.fails
    ensures var r := Advance(run, files, worker, a);
      && r.worker.phase == Throwing(retryable)
      && r.run.tasks == run.tasks[g := run.tasks[g].(status := TaskFailed)]
  {
  }

  // ---- Left alone ----

  /** The run has left RUNNING by one of the worker's own exits. */
  predicate Settled(run: Run, token: nat) {
    run.version == token + 1 && (run.status == PAUSED || run.status == COMPLETED || run.status == FAILED)
  }

  predicate SettlesOrGoesOn(r: Advanced) {
    if r.worker.phase.Over? then Settled(r.run, r.worker.token) else Active(r.run, r.worker.token)
  }

  /** Every transaction commits, and the queue has no attempt left. */
  predicate LastAttempt(a: Answer) {
    !a.fails && !a.attemptsLeft
  }

  lemma FrameKeepsActive(run: Run, run': Run, token: nat)
    requires Frame(run') == Frame(run) && Active(run, token)
    ensures Active(run', token)
  {
    assert run'.status == Frame(run').status && run'.version == Frame(run').version;
  }

  lemma ExecuteSettles(run: Run, files: seq<Revision>, worker: Worker, agent: Agent, a: Answer)
    requires Active(run, worker.token) && worker.phase == Executing(agent) && LastAttempt(a)
    ensures SettlesOrGoesOn(ExecuteStep(run, files, worker, agent, a))
  {
    if a.result.Some? {
      var output, patch := a.result.value, HandedIn(agent, a);
      var c := CompleteTask(run, files, worker.token, agent, output, patch, a.rejected, a.now);
      ActiveCompletes(run, files, worker.token, agent, output, patch, a.rejected, a.now);
      ConcludeKeeps(c.0, c.1, c.2, worker, agent, a);
      assert !Conclude(c.0, c.1, c.2, worker, agent, a).worker.phase.Over?;
    }
  }

  lemma ActiveCompletes(run: Run, files: seq<Revision>, token: nat, agent: Agent, output: Output,
                        patch: Option<seq<PatchFile>>, rejected: bool, now: Time)
    requires Active(run, token)
    ensures var c := CompleteTask(run, files, token, agent, output, patch, rejected, now);
      Active(c.0, token) && !c.2.CompleteStopped?
  {
    if agent in run.tasks && run.tasks[agent].status != TaskCompleted {
      var (written, result) := ApplyPatch(files, if patch.Some? then patch.value else []);
      ActiveCommits(run, files, token, agent, output, patch.Some?, written, result, rejected, now);
    }
  }

  lemma ActiveCommits(run: Run, files: seq<Revision>, token: nat, agent: Agent, output: Output, handsIn: bool,
                      written: seq<Revision>, result: PatchResult, rejected: bool, now: Time)
    requires Active(run, token) && agent in run.tasks
    ensures var c := Commit(run, files, agent, output, handsIn, written, result, rejected, now);
      Active(c.0, token) && !c.2.CompleteStopped?
  {
    if result.Written? {
      CompletedKeeps(Touch(run, now), agent, output, if handsIn then Some(result.paths) else None);
      FrameKeepsActive(Touch(run, now),
        Completed(Touch(run, now), agent, output, if handsIn then Some(result.paths) else None), token);
    }
  }

  lemma NodeSettles(run: Run, files: seq<Revision>, worker: Worker, agent: Agent, a: Answer)
    requires Active(run, worker.token) && (worker.phase == AtAgent(agent) || worker.phase == Prepared(agent))
    requires LastAttempt(a)
    ensures SettlesOrGoesOn(Advance(run, files, worker, a))
  {
    assert !After(agent).Over?;
  }

  lemma EndSettles(run: Run, files: seq<Revision>, worker: Worker, a: Answer)
    requires Active(run, worker.token) && LastAttempt(a)
    requires worker.phase.CheckingRoutes? || worker.phase.Validating? || worker.phase.Throwing?
    ensures SettlesOrGoesOn(Advance(run, files, worker, a))
  {
  }

  lemma AdvanceSettles(run: Run, files: seq<Revision>, worker: Worker, a: Answer)
    requires Active(run, worker.token) && !worker.phase.Over? && LastAttempt(a)
    ensures SettlesOrGoesOn(Advance(run, files, worker, a))
  {
    match worker.phase
    case AtAgent(g) => NodeSettles(run, files, worker, g, a);
    case Prepared(g) => NodeSettles(run, files, worker, g, a);
    case Executing(g) => ExecuteSettles(run, files, worker, g, a);
    case CheckingRoutes => EndSettles(run, files, worker, a);
    case Validating(_) => EndSettles(run, files, worker, a);
    case Throwing(_) => EndSettles(run, files, worker, a);
    case _ =>
  }

  /**
   * On its last attempt a worker that nobody disturbs never ends with its run still RUNNING: the run
   * is PAUSED, COMPLETED or FAILED, one version above the worker's token.
   */
  lemma {:induction false} LastAttemptSettles(c: Config, answers: seq<Answer>)
    requires Active(c.run, c.worker.token) && !c.worker.phase.Over?
    requires forall k :: 0 <= k < |answers| ==> LastAttempt(answers[k])
    ensures var d := Drive(c, answers);
      if d.worker.phase.Over? then Settled(d.run, c.worker.token) else Active(d.run, c.worker.token)
    decreases |answers|
  {
    if answers != [] {
      AdvanceSettles(c.run, c.files, c.worker, answers[0]);
      AdvanceKeepsIdentity(c.run, c.files, c.worker, answers[0]);
      var next := Next(c, answers[0]);
      if !next.worker.phase.Over? {
        LastAttemptSettles(next, answers[1..]);
      }
    }
  }

  // ---- Good answers ----

  /** Nothing fails, no agent is left out, every agent answers, no file is in the way, and the sandbox is content. */
  predicate Good(a: Answer) {
    !a.fails && !a.skip && a.parses && a.result.Some? && a.patch.None? && !a.rejected && a.validates
  }

  predicate StoredOutputs(tasks: map<Agent, Task>) {
    forall g :: g in tasks && tasks[g].status == TaskCompleted ==> tasks[g].output.Some?
  }

  predicate Underway(phase: Phase) {
    !phase.FailingTask? && !phase.Throwing? && !phase.Over?
  }

  /** The worker is on its way: its token is active, what it may restore is there, and Mike's plan is in hand. */
  predicate OnTheWay(c: Config) {
    && Active(c.run, c.worker.token) && StoredOutputs(c.run.tasks) && Underway(c.worker.phase)
    && (c.worker.phase.Executing? ==> c.worker.phase.agent in c.run.tasks)
    && (c.worker.phase.Prepared? ==> c.worker.phase.agent in c.run.tasks)
    && (Mike in Passed(c.worker.phase) ==> Mike in c.worker.outputs)
  }

  /** How many agents remain, this one included. */
  function FromHere(agent: Agent): nat {
    match agent
    case Sophia => 8
    case Mike => 7
    case Emma => 6
    case Bob => 5
    case Alex => 4
    case David => 3
    case Sarah => 2
    case Adrian => 1
  }

  /** How many answers are enough from here. */
  function Left(phase: Phase): nat {
    match phase
    case AtAgent(g) => 4 * FromHere(g) + 3
    case Prepared(g) => 4 * FromHere(g) + 2
    case Executing(g) => 4 * FromHere(g) + 1
    case AtPlanGate => 20
    case AtContentGate => 3
    case CheckingRoutes => 2
    case Validating(_) => 1
    case _ => 0
  }

  /** The worker has completed the run, or a gate has parked it for a person. */
  predicate Arrived(run: Run, token: nat) {
    run.version == token + 1 && (run.status == COMPLETED || run.status == PAUSED)
  }

  predicate GetsOn(c: Config, d: Config) {
    || (OnTheWay(d) && d.worker.token == c.worker.token && Left(d.worker.phase) < Left(c.worker.phase))
    || (d.worker.phase.Over? && Arrived(d.run, c.worker.token))
  }

  lemma LeftAfter(g: Agent)
    ensures Left(After(g)) < 4 * FromHere(g) + 1 && Underway(After(g)) && !After(g).Executing? && !After(g).Prepared?
    ensures Mike in Passed(After(g)) <==> g != Sophia
    ensures Mike in Ahead(g) <==> g != Sophia && g != Mike
  {
  }

  lemma RestoredGetsOn(c: Config, run: Run, g: Agent, output: Output)
    requires OnTheWay(c) && (c.worker.phase == AtAgent(g) || c.worker.phase == Prepared(g))
    requires Active(run, c.worker.token) && StoredOutputs(run.tasks)
    ensures GetsOn(c, Config(run, c.files, c.worker.(phase := After(g), outputs := c.worker.outputs[g := output])))
  {
    LeftAfter(g);
  }

  lemma NodeGetsOn(c: Config, run: Run, g: Agent, phase: Phase)
    requires OnTheWay(c) && Active(run, c.worker.token) && StoredOutputs(run.tasks) && g in run.tasks
    requires (c.worker.phase == AtAgent(g) && phase == Prepared(g)) || (c.worker.phase == Prepared(g) && phase == Executing(g))
    ensures GetsOn(c, Config(run, c.files, c.worker.(phase := phase)))
  {
  }

  lemma PrepareGetsOn(c: Config, g: Agent, a: Answer)
    requires OnTheWay(c) && c.worker.phase == AtAgent(g) && Good(a)
    ensures GetsOn(c, Next(c, a))
  {
    var (run', r) := PrepareTask(c.run, c.worker.token, g, a.now);
    PreparedStaysActive(c.run, c.worker.token, g, a.now);
    if r.task.status == TaskCompleted {
      RestoredGetsOn(c, run', g, r.task.output.value);
    } else {
      NodeGetsOn(c, run', g, Prepared(g));
    }
  }

  lemma PreparedStaysActive(run: Run, token: nat, g: Agent, now: Time)
    requires Active(run, token) && StoredOutputs(run.tasks)
    ensures var (run', r) := PrepareTask(run, token, g, now);
      && Active(run', token) && StoredOutputs(run'.tasks) && g in run'.tasks
      && r == TaskOk(run'.tasks[g])
  {
  }

  lemma StartedStaysActive(run: Run, token: nat, g: Agent, now: Time)
    requires Active(run, token) && StoredOutputs(run.tasks) && g in run.tasks
    ensures var (run', r) := StartTask(run, token, g, now);
      && Active(run', token) && StoredOutputs(run'.tasks) && g in run'.tasks
      && r == TaskOk(run'.tasks[g])
  {
  }

  lemma StartGetsOn(c: Config, g: Agent, a: Answer)
    requires OnTheWay(c) && c.worker.phase == Prepared(g) && Good(a)
    ensures GetsOn(c, Next(c, a))
  {
    var (run', r) := StartTask(c.run, c.worker.token, g, a.now);
    StartedStaysActive(c.run, c.worker.token, g, a.now);
    if r.task.status == TaskCompleted {
      RestoredGetsOn(c, run', g, r.task.output.value);
    } else {
      NodeGetsOn(c, run', g, Executing(g));
    }
  }

  lemma GoodCompletion(run: Run, files: seq<Revision>, token: nat, g: Agent, a: Answer)
    requires Active(run, token) && StoredOutputs(run.tasks) && g in run.tasks && Good(a)
    ensures var c := CompleteTask(run, files, token, g, a.result.value, HandedIn(g, a), a.rejected, a.now);
      c.2.Done? && Active(c.0, token) && StoredOutputs(c.0.tasks)
  {
    EmptyPatch(files);
    ActiveCompletes(run, files, token, g, a.result.value, HandedIn(g, a), a.rejected, a.now);
    CompleteTasks(run, files, token, g, a.result.value, HandedIn(g, a), a.rejected, a.now);
  }

  lemma ExecuteGetsOn(c: Config, g: Agent, a: Answer)
    requires OnTheWay(c) && c.worker.phase == Executing(g) && Good(a)
    ensures GetsOn(c, Next(c, a))
  {
    LeftAfter(g);
    GoodCompletion(c.run, c.files, c.worker.token, g, a);
    var d := CompleteTask(c.run, c.files, c.worker.token, g, a.result.value, HandedIn(g, a), a.rejected, a.now);
    ConcludeKeeps(d.0, d.1, d.2, c.worker, g, a);
    assert Next(c, a) == Config(d.0, d.1, Conclude(d.0, d.1, d.2, c.worker, g, a).worker);
  }

  lemma GoodStepGetsOn(c: Config, a: Answer)
    requires OnTheWay(c) && Good(a)
    ensures GetsOn(c, Next(c, a))
  {
    match c.worker.phase
    case AtAgent(g) => PrepareGetsOn(c, g, a);
    case Prepared(g) => StartGetsOn(c, g, a);
    case Executing(g) => ExecuteGetsOn(c, g, a);
    case _ =>
  }

  lemma {:induction false} GoodAnswersArrive(c: Config, answers: seq<Answer>)
    requires OnTheWay(c) && |answers| >= Left(c.worker.phase)
    requires forall k :: 0 <= k < |answers| ==> Good(answers[k])
    ensures Drive(c, answers).worker.phase.Over? && Arrived(Drive(c, answers).run, c.worker.token)
    decreases |answers|
  {
    GoodStepGetsOn(c, answers[0]);
    var next := Next(c, answers[0]);
    if !next.worker.phase.Over? {
      GoodAnswersArrive(next, answers[1..]);
    }
  }

  /**
   * A delivery that claims its run, first or again, brings it to an end that is no failure: if nothing
   * goes wrong and nobody interferes, 35 transactions complete the run or park it at a gate, whatever
   * earlier workers had already completed.
   */
  lemma ClaimedRunArrives(run: Run, files: seq<Revision>, job: Job, now: Time, restored: map<Agent, Output>,
                          maxRepairs: nat, answers: seq<Answer>)
    requires Claim(run, job, now).1.Ready? && StoredOutputs(run.tasks)
    requires |answers| >= 35 && forall k :: 0 <= k < |answers| ==> Good(answers[k])
    ensures var (claimed, claim) := Claim(run, job, now);
      var worker := Worker(job, claim.version, AtAgent(Sophia), restored, false, maxRepairs);
      var d := Drive(Config(claimed, files, worker), answers);
      d.worker.phase.Over? && Arrived(d.run, job.version + 1)
  {
    var (claimed, claim) := Claim(run, job, now);
    GoodAnswersArrive(Config(claimed, files, Worker(job, claim.version, AtAgent(Sophia), restored, false, maxRepairs)),
      answers);
  }

  /** In every history, exactly two kinds of delivery start a worker: of the pending version, and of the run's own claim. */
  lemma DeliveryResumes(steps: seq<Step>, job: Job, at: Time, restored: map<Agent, Output>, maxRepairs: nat)
    requires job in RunAll(steps).jobs && Remembered(restored, RunAll(steps).produced)
    ensures var w, next := RunAll(steps), Apply(RunAll(steps), Deliver(job, at, restored, maxRepairs));
      if (w.run.status == PENDING && w.run.version == job.version) || Active(w.run, job.version + 1)
      then
        && next.workers == w.workers + [Worker(job, job.version + 1, AtAgent(Sophia), restored, false, maxRepairs)]
        && Active(next.run, job.version + 1) && next.run.tasks == w.run.tasks
      else next == w
  {
  }
}
