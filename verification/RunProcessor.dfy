/** The worker as a program: claim a job, walk the agent graph, validate, complete or fail. */
module RunProcessor {
  import opened Wrappers
  import opened FileRevisions
  import opened RunRecord
  import opened RunRepository
  import opened RunHistory

  /** The run, the project files and the worker between two transactions. */
  datatype Config = Config(run: Run, files: seq<Revision>, worker: Worker)

  function Next(c: Config, a: Answer): Config {
    var r := Advance(c.run, c.files, c.worker, a);
    Config(r.run, r.files, r.worker)
  }

  /** The worker left alone until it is over or, when the answers run out, cut off. */
  function Drive(c: Config, answers: seq<Answer>): Config
    decreases |answers|
  {
    if c.worker.phase.Over? || answers == [] then c else Drive(Next(c, answers[0]), answers[1..])
  }

  /** The first `used` answers take `c` to `d`. */
  predicate Leads(c: Config, d: Config, answers: seq<Answer>, used: nat) {
    used <= |answers| && Drive(c, answers) == Drive(d, answers[used..])
  }

  lemma LeadsOn(c: Config, d: Config, e: Config, answers: seq<Answer>, used: nat, more: nat)
    requires Leads(c, d, answers, used) && Leads(d, e, answers[used..], more)
    ensures Leads(c, e, answers, used + more)
  {
  }

  lemma OneStepLeads(c: Config, answers: seq<Answer>)
    requires answers != [] && !c.worker.phase.Over?
    ensures Leads(c, Next(c, answers[0]), answers, 1)
  {
  }

  lemma StaysLeads(c: Config, answers: seq<Answer>)
    ensures Leads(c, c, answers, 0)
  {
  }

  class RunGraphWorker {
    const repository: PrismaRunRepository
    const id: RunId
    var worker: Worker

    constructor (repository: PrismaRunRepository, id: RunId, worker: Worker)
      ensures this.repository == repository && this.id == id && this.worker == worker
    {
      this.repository, this.id, this.worker := repository, id, worker;
    }

    predicate Valid()
      reads this, repository
    {
      id in repository.runs
    }

    function State(): Config
      requires Valid()
      reads this, repository, repository.files
    {
      Config(repository.runs[id], repository.files.rows, worker)
    }

    method Restored(agent: Agent, task: Task, a: Answer)
      requires Valid()
      modifies this
      ensures Valid()
      ensures worker == Restore(repository.runs[id], repository.files.rows, old(worker), agent, task, a).worker
    {
      if task.output.None? || !a.parses {
        worker := worker.(phase := Throwing(a.retryable));
      } else {
        worker := worker.(phase := After(agent), outputs := worker.outputs[agent := task.output.value]);
      }
    }

    /** The node goes on with `phase`, is done, or the worker has stopped. */
    predicate LeftOr(agent: Agent, phase: Phase)
      reads this
    {
      worker.phase == phase || worker.phase == After(agent) || worker.phase.Throwing? || worker.phase.Over?
    }

    /** The first transaction of an agent node: skip or prepare. */
    method Prepare(agent: Agent, answers: seq<Answer>)
      requires Valid() && answers != [] && worker.phase == AtAgent(agent)
      modifies this, repository
      ensures Valid() && Leads(old(State()), State(), answers, 1)
      ensures LeftOr(agent, Prepared(agent))
    {
      OneStepLeads(State(), answers);
      var a := answers[0];
      if a.fails {
        worker := worker.(phase := Throwing(a.retryable));
      } else if a.skip {
        var skipped := repository.SkipRunTask(id, worker.token, agent, a.now);
        worker := worker.(phase := if skipped.Stopped? then Over else After(agent));
      } else {
        var prepared := repository.PrepareRunTask(id, worker.token, agent, a.now);
        if !prepared.TaskOk? {
          worker := worker.(phase := if prepared.Stopped? then Over else Throwing(a.retryable));
        } else if prepared.task.status == TaskCompleted {
          Restored(agent, prepared.task, a);
        } else {
          worker := worker.(phase := Prepared(agent));
        }
      }
    }

    method StartAgent(agent: Agent, answers: seq<Answer>)
      requires Valid() && answers != [] && worker.phase == Prepared(agent)
      modifies this, repository
      ensures Valid() && Leads(old(State()), State(), answers, 1)
      ensures LeftOr(agent, Executing(agent))
    {
      OneStepLeads(State(), answers);
      var a := answers[0];
      if a.fails {
        worker := worker.(phase := Throwing(a.retryable));
        return;
      }
      var started := repository.StartRunTask(id, worker.token, agent, a.now);
      match started {
        case Stopped => worker := worker.(phase := Over);
        case NoSuchTask => worker := worker.(phase := Throwing(a.retryable));
        case TaskOk(task) =>
          if task.status == TaskCompleted {
            Restored(agent, task, a);
          } else {
            worker := worker.(phase := Executing(agent));
          }
      }
    }

    method ExecuteAgent(agent: Agent, answers: seq<Answer>)
      requires Valid() && answers != [] && worker.phase == Executing(agent)
      modifies this, repository, repository.files
      ensures Valid() && Leads(old(State()), State(), answers, 1)
      ensures LeftOr(agent, After(agent)) || (worker.phase.FailingTask? && worker.phase.agent == agent)
    {
      OneStepLeads(State(), answers);
      var a := answers[0];
      if a.result.None? || a.fails {
        worker := worker.(phase := FailingTask(agent, a.retryable));
        return;
      }
      var completed := repository.CompleteRunTask(id, worker.token, agent, a.result.value, HandedIn(agent, a), a.rejected,
        a.now);
      match completed {
        case CompleteStopped => worker := worker.(phase := Over);
        case Done(_) =>
          worker := worker.(phase := After(agent), outputs := worker.outputs[agent := a.result.value]);
        case FileConflict => worker := worker.(phase := FailingTask(agent, a.retryable));
        case Threw => worker := worker.(phase := FailingTask(agent, a.retryable));
      }
    }

    method FailAgent(agent: Agent, retryable: bool, answers: seq<Answer>)
      requires Valid() && answers != [] && worker.phase == FailingTask(agent, retryable)
      modifies this, repository
      ensures Valid() && Leads(old(State()), State(), answers, 1)
      ensures LeftOr(agent, After(agent))
    {
      OneStepLeads(State(), answers);
      var a := answers[0];
      if a.fails {
        worker := worker.(phase := Throwing(a.retryable));
        return;
      }
      var failed := repository.FailRunTask(id, worker.token, agent, a.now);
      worker := worker.(phase := match failed
                                 case FailStopped => Over
                                 case FailRecorded => Throwing(retryable)
                                 case FailThrew => Throwing(a.retryable));
    }

    method ExecuteOrFail(agent: Agent, answers: seq<Answer>) returns (used: nat)
      requires Valid() && answers != [] && worker.phase == Executing(agent)
      modifies this, repository, repository.files
      ensures Valid() && Leads(old(State()), State(), answers, used)
      ensures used == |answers| || LeftOr(agent, After(agent))
    {
      ghost var before := State();
      ExecuteAgent(agent, answers);
      used := 1;
      if used < |answers| && worker.phase.FailingTask? {
        ghost var here := State();
        FailAgent(agent, worker.phase.retryable, answers[used..]);
        LeadsOn(before, here, State(), answers, used, 1);
        used := used + 1;
      }
    }

    method PrepareAndStart(agent: Agent, answers: seq<Answer>) returns (used: nat)
      requires Valid() && answers != [] && worker.phase == AtAgent(agent)
      modifies this, repository
      ensures Valid() && Leads(old(State()), State(), answers, used) && used > 0
      ensures used == |answers| || LeftOr(agent, Executing(agent))
    {
      ghost var before := State();
      Prepare(agent, answers);
      used := 1;
      if used < |answers| && worker.phase == Prepared(agent) {
        ghost var here := State();
        StartAgent(agent, answers[used..]);
        LeadsOn(before, here, State(), answers, used, 1);
        used := used + 1;
      }
    }

    /** `runAgent`: the whole node, or as much of it as the answers reach. */
    method RunAgent(agent: Agent, answers: seq<Answer>) returns (used: nat)
      requires Valid() && answers != [] && worker.phase == AtAgent(agent)
      modifies this, repository, repository.files
      ensures Valid() && Leads(old(State()), State(), answers, used) && used > 0
      ensures used == |answers| || LeftOr(agent, After(agent))
    {
      ghost var before := State();
      used := PrepareAndStart(agent, answers);
      if used < |answers| && worker.phase == Executing(agent) {
        ghost var here := State();
        var more := ExecuteOrFail(agent, answers[used..]);
        LeadsOn(before, here, State(), answers, used, more);
        used := used + more;
      }
    }

    /** `approvalGate`: passes, or parks the run until a person approves the plan. */
    method PlanGate(answers: seq<Answer>)
      requires Valid() && answers != [] && worker.phase.AtPlanGate?
      modifies this, repository
      ensures Valid() && Leads(old(State()), State(), answers, 1) && Between(worker.phase)
    {
      OneStepLeads(State(), answers);
      var a := answers[0];
      if Mike !in worker.outputs {
        worker := worker.(phase := Throwing(a.retryable));
        return;
      }
      if Alex in worker.outputs {
        worker := worker.(phase := AtAgent(Alex));
        return;
      }
      if a.fails {
        worker := worker.(phase := Throwing(a.retryable));
        return;
      }
      if !worker.outputs[Mike].requiresApproval && !a.references {
        worker := worker.(phase := AtAgent(Alex));
        return;
      }
      if worker.job.command == Approve && worker.job.scope == Some(PlanScope) && !worker.bypassed {
        worker := worker.(phase := AtAgent(Alex), bypassed := true);
        return;
      }
      var _ := repository.RequestRunApproval(id, worker.token, PlanScope, a.now);
      worker := worker.(phase := Over);
    }

    /** `contentApprovalGate`: only copy variants need a person. */
    method ContentGate(answers: seq<Answer>)
      requires Valid() && answers != [] && worker.phase.AtContentGate?
      modifies this, repository
      ensures Valid() && Leads(old(State()), State(), answers, 1) && Between(worker.phase)
    {
      OneStepLeads(State(), answers);
      var a := answers[0];
      if Adrian !in worker.outputs || !worker.outputs[Adrian].hasCopyVariants {
        worker := worker.(phase := CheckingRoutes);
        return;
      }
      if worker.job.command == Approve && worker.job.scope == Some(ContentScope) && !worker.bypassed {
        worker := worker.(phase := CheckingRoutes, bypassed := true);
        return;
      }
      if a.fails {
        worker := worker.(phase := Throwing(a.retryable));
        return;
      }
      var _ := repository.RequestRunApproval(id, worker.token, ContentScope, a.now);
      worker := worker.(phase := Over);
    }

    /** `#repairMissingRoutes`: advisory, so only a stopped run keeps validation from following. */
    method RepairMissingRoutes(answers: seq<Answer>)
      requires Valid() && answers != [] && worker.phase.CheckingRoutes?
      modifies this, repository, repository.files
      ensures Valid() && Leads(old(State()), State(), answers, 1)
      ensures worker.phase.Over? || worker.phase == Validating(0) || (worker.phase == Validating(1) && worker.maxRepairs > 0)
    {
      OneStepLeads(State(), answers);
      var a := answers[0];
      if worker.maxRepairs < 1 || a.fails || a.patch.None? {
        worker := worker.(phase := Validating(0));
        return;
      }
      var repaired := repository.ApplyRepairFiles(id, worker.token, a.patch.value, a.now);
      if repaired.RepairStopped? {
        worker := worker.(phase := Over);
      } else {
        worker := worker.(phase := Validating(if repaired.Repaired? && repaired.paths != [] then 1 else 0));
      }
    }

    /** One round of the validation loop: validate, then complete, repair or give the error up to the catch block. */
    method ValidateRound(answers: seq<Answer>)
      requires Valid() && answers != [] && worker.phase.Validating?
      modifies this, repository, repository.files
      ensures Valid() && Leads(old(State()), State(), answers, 1) && Between(worker.phase)
    {
      OneStepLeads(State(), answers);
      var a := answers[0];
      var repairsUsed := worker.phase.repairs;
      if a.validates && !a.fails {
        var _ := repository.CompleteAgentRun(id, worker.token, a.now);
        worker := worker.(phase := Over);
        return;
      }
      if a.validates || a.fails || repairsUsed >= worker.maxRepairs || a.patch.None? {
        worker := worker.(phase := Throwing(a.retryable));
        return;
      }
      var repaired := repository.ApplyRepairFiles(id, worker.token, a.patch.value, a.now);
      if repaired.RepairStopped? {
        worker := worker.(phase := Over);
      } else if repaired.Repaired? && repaired.paths != [] {
        worker := worker.(phase := Validating(repairsUsed + 1));
      } else {
        worker := worker.(phase := Throwing(a.retryable));
      }
    }

    /** The catch block of `process`. */
    method Catch(answers: seq<Answer>)
      requires Valid() && answers != [] && worker.phase.Throwing?
      modifies this, repository
      ensures Valid() && Leads(old(State()), State(), answers, 1) && Between(worker.phase)
    {
      OneStepLeads(State(), answers);
      var a := answers[0];
      if (worker.phase.retryable && a.attemptsLeft) || a.fails {
        worker := worker.(phase := Over);
        return;
      }
      var _ := repository.FailAgentRun(id, worker.token, a.now);
      worker := worker.(phase := Over);
    }

    /** One node of the graph, one round of the repair loop, or the catch block. */
    method Node(answers: seq<Answer>) returns (used: nat)
      requires Valid() && answers != [] && !worker.phase.Over?
      requires !worker.phase.Prepared? && !worker.phase.Executing? && !worker.phase.FailingTask?
      modifies this, repository, repository.files
      ensures Valid() && Leads(old(State()), State(), answers, used)
      ensures used == |answers| || Between(worker.phase)
      ensures used > 0
    {
      if worker.phase.AtAgent? {
        var agent := worker.phase.agent;
        used := RunAgent(agent, answers);
        return;
      }
      used := 1;
      match worker.phase {
        case AtPlanGate => PlanGate(answers);
        case AtContentGate => ContentGate(answers);
        case CheckingRoutes => RepairMissingRoutes(answers);
        case Validating(_) => ValidateRound(answers);
        case Throwing(_) => Catch(answers);
      }
    }

    /** `process` after a successful claim: node by node until the worker is over or cut off. */
    method Process(answers: seq<Answer>)
      requires Valid() && worker.phase == AtAgent(Sophia)
      modifies this, repository, repository.files
      ensures Valid() && State() == Drive(old(State()), answers)
    {
      ghost var before := State();
      var used := 0;
      StaysLeads(before, answers);
      while used < |answers| && !worker.phase.Over?
        invariant Valid() && Leads(before, State(), answers, used)
        invariant used == |answers| || Between(worker.phase)
        decreases |answers| - used
      {
        ghost var here := State();
        var more := Node(answers[used..]);
        LeadsOn(before, here, State(), answers, used, more);
        used := used + more;
      }
    }
  }

  /** Not in the middle of an agent node. */
  predicate Between(phase: Phase) {
    !phase.Prepared? && !phase.Executing? && !phase.FailingTask?
  }

  // ---- The program is one of the histories ----

  function Works(i: nat, answers: seq<Answer>): seq<Step> {
    seq(|answers|, k requires 0 <= k < |answers| => Work(i, answers[k]))
  }

  function At(w: World, i: nat): Config
    requires i < |w.workers|
  {
    Config(w.run, w.files, w.workers[i])
  }

  lemma WorkIsNext(w: World, i: nat, a: Answer)
    requires i < |w.workers| && a.now <= w.clock
    ensures var next := Apply(w, Work(i, a));
      i < |next.workers| && At(next, i) == Next(At(w, i), a) && next.clock == w.clock
  {
  }

  lemma {:induction false} OverIsOver(c: Config, answers: seq<Answer>)
    requires c.worker.phase.Over?
    ensures Drive(c, answers) == c && forall a :: Next(c, a) == c
  {
  }

  /** What the program does after a claim is what the worker's steps do in any history it is part of. */
  lemma {:induction false} ProgramIsAHistory(steps: seq<Step>, i: nat, answers: seq<Answer>)
    requires i < |RunAll(steps).workers|
    requires forall k :: 0 <= k < |answers| ==> answers[k].now <= RunAll(steps).clock
    ensures i < |RunAll(steps + Works(i, answers)).workers|
    ensures At(RunAll(steps + Works(i, answers)), i) == Drive(At(RunAll(steps), i), answers)
    decreases |answers|
  {
    if answers == [] {
      assert steps + Works(i, answers) == steps;
    } else {
      var w, first := RunAll(steps), steps + [Work(i, answers[0])];
      assert first[..|steps|] == steps;
      WorkIsNext(w, i, answers[0]);
      assert steps + Works(i, answers) == first + Works(i, answers[1..]);
      ProgramIsAHistory(first, i, answers[1..]);
      if w.workers[i].phase.Over? {
        OverIsOver(At(w, i), answers);
        OverIsOver(At(w, i), answers[1..]);
      }
    }
  }
}
