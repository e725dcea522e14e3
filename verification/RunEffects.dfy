/** What a worker step writes of an agent's effects: none, or all those of the one task it completes. */
module RunEffects {
  import opened Wrappers
  import opened FileRevisions
  import opened RunRecord
  import opened RunHistory
  import opened RunLaws
  import opened RunTasks

  /** What a completed agent leaves in the event log. */
  datatype Effect = Completion(agent: Agent) | ArtifactOf(agent: Agent, artifact: Artifact) | CodeOf(agent: Agent)

  predicate Shows(kind: EventKind, e: Effect) {
    match e
    case Completion(g) => kind.TaskCompletedEvent? && kind.agent == g
    case ArtifactOf(g, artifact) => kind == ArtifactCreated(g, artifact)
    case CodeOf(g) => kind.CodeGenerated? && kind.agent == g
  }

  function Count(events: seq<RunEvent>, e: Effect): nat {
    if events == [] then 0
    else Count(events[..|events| - 1], e) + if Shows(events[|events| - 1].kind, e) then 1 else 0
  }

  /** Sarah also leaves an SEO package, Adrian a content package; only Alex and David hand in code. */
  predicate Expected(e: Effect) {
    match e
    case Completion(_) => true
    case ArtifactOf(_, AgentOutput) => true
    case ArtifactOf(g, SeoPackage) => g == Sarah
    case ArtifactOf(g, ContentPackage) => g == Adrian
    case CodeOf(g) => g == Alex || g == David
  }

  predicate Complete(tasks: map<Agent, Task>, agent: Agent) {
    agent in tasks && tasks[agent].status == TaskCompleted
  }

  /** Every effect is in the log once if its agent's task is complete, and not at all otherwise. */
  ghost predicate Exact(run: Run) {
    forall e :: Count(run.events, e) == if Complete(run.tasks, e.agent) && Expected(e) then 1 else 0
  }

  // ---- What one transaction writes ----

  predicate Effectless(kind: EventKind) {
    !kind.TaskCompletedEvent? && !kind.ArtifactCreated? && !kind.CodeGenerated?
  }

  /** The log is the same, or one entry longer by something that is no agent effect. */
  predicate WritesNoEffect(run: Run, run': Run) {
    || run'.events == run.events
    || (|run'.events| > 0 && run'.events == run.events + [run'.events[|run'.events| - 1]]
        && Effectless(run'.events[|run'.events| - 1].kind))
  }

  function CountKinds(kinds: seq<EventKind>, e: Effect): nat {
    if kinds == [] then 0
    else CountKinds(kinds[..|kinds| - 1], e) + if Shows(kinds[|kinds| - 1], e) then 1 else 0
  }

  lemma {:induction false} CountAppended(run: Run, kinds: seq<EventKind>, e: Effect)
    ensures Count(AppendAll(run, kinds).events, e) == Count(run.events, e) + CountKinds(kinds, e)
  {
    if kinds != [] {
      var before := AppendAll(run, kinds[..|kinds| - 1]);
      CountAppended(run, kinds[..|kinds| - 1], e);
      assert AppendAll(run, kinds).events[..|before.events|] == before.events;
    }
  }

  lemma {:induction false} CountConcat(a: seq<EventKind>, b: seq<EventKind>, e: Effect)
    ensures CountKinds(a + b, e) == CountKinds(a, e) + CountKinds(b, e)
  {
    if b == [] {
      assert a + b == a;
    } else {
      CountConcat(a, b[..|b| - 1], e);
      assert (a + b)[..|a + b| - 1] == a + b[..|b| - 1];
    }
  }

  lemma CountOne(kind: EventKind, e: Effect)
    ensures CountKinds([kind], e) == if Shows(kind, e) then 1 else 0
  {
  }

  /** A completion writes each of its agent's effects once and no other agent's. */
  lemma CompletionCounts(agent: Agent, attempt: nat, paths: Option<seq<Path>>, e: Effect)
    requires paths.Some? <==> agent == Alex || agent == David
    ensures CountKinds(CompletionEvents(agent, attempt, paths), e) == if e.agent == agent && Expected(e) then 1 else 0
  {
    var first := [TaskCompletedEvent(agent, attempt), ArtifactCreated(agent, AgentOutput)];
    var seo := if agent == Sarah then [ArtifactCreated(agent, SeoPackage)] else [];
    var content := if agent == Adrian then [ArtifactCreated(agent, ContentPackage)] else [];
    var code := if paths.Some? then [CodeGenerated(agent, paths.value)] else [];
    assert CompletionEvents(agent, attempt, paths) == first + seo + content + code;
    CountConcat(first + seo + content, code, e);
    CountConcat(first + seo, content, e);
    CountConcat(first, seo, e);
    assert first == [TaskCompletedEvent(agent, attempt)] + [ArtifactCreated(agent, AgentOutput)];
    CountConcat([TaskCompletedEvent(agent, attempt)], [ArtifactCreated(agent, AgentOutput)], e);
    CountOne(TaskCompletedEvent(agent, attempt), e);
    CountOne(ArtifactCreated(agent, AgentOutput), e);
    CountOne(ArtifactCreated(agent, SeoPackage), e);
    CountOne(ArtifactCreated(agent, ContentPackage), e);
    if paths.Some? {
      CountOne(CodeGenerated(agent, paths.value), e);
    }
  }

  /** Either no effect and no completion, or one completion with all its effects. */
  ghost predicate EffectMove(run: Run, run': Run) {
    || (WritesNoEffect(run, run') && forall g :: Complete(run'.tasks, g) ==> Complete(run.tasks, g))
    || (exists g :: CompletesTask(run, run', g))
  }

  ghost predicate CompletesTask(run: Run, run': Run, g: Agent) {
    && g in run.tasks && !Complete(run.tasks, g)
    && (exists x :: run'.tasks == run.tasks[g := run.tasks[g].(status := TaskCompleted, output := Some(x))])
    && (forall e :: Count(run'.events, e) == Count(run.events, e) + if e.agent == g && Expected(e) then 1 else 0)
  }

  lemma CompletedWritesEffects(run: Run, agent: Agent, output: Output, paths: Option<seq<Path>>, now: Time)
    requires agent in run.tasks && run.tasks[agent].status != TaskCompleted
    requires paths.Some? <==> agent == Alex || agent == David
    ensures CompletesTask(run, Completed(Touch(run, now), agent, output, paths), agent)
  {
    var task := run.tasks[agent].(status := TaskCompleted, output := Some(output));
    var base := Touch(run, now).(tasks := run.tasks[agent := task]);
    var next := Completed(Touch(run, now), agent, output, paths);
    CompletedKeeps(Touch(run, now), agent, output, paths);
    assert next.tasks == run.tasks[agent := run.tasks[agent].(status := TaskCompleted, output := Some(output))];
    forall e
      ensures Count(next.events, e) == Count(run.events, e) + if e.agent == agent && Expected(e) then 1 else 0
    {
      CountAppended(base, CompletionEvents(agent, task.attempt, paths), e);
      CompletionCounts(agent, task.attempt, paths, e);
    }
  }

  lemma CommitEffects(run: Run, files: seq<Revision>, agent: Agent, output: Output, handsIn: bool, written: seq<Revision>,
                      result: PatchResult, rejected: bool, now: Time)
    requires agent in run.tasks && run.tasks[agent].status != TaskCompleted
    requires handsIn <==> agent == Alex || agent == David
    ensures EffectMove(run, Commit(run, files, agent, output, handsIn, written, result, rejected, now).0)
  {
    if result.Written? && !(agent == David && rejected) {
      CompletedWritesEffects(run, agent, output, if handsIn then Some(result.paths) else None, now);
    }
  }

  lemma ExecuteEffects(run: Run, files: seq<Revision>, worker: Worker, agent: Agent, a: Answer)
    ensures EffectMove(run, ExecuteStep(run, files, worker, agent, a).run)
  {
    if a.result.Some? && !a.fails {
      var patch := HandedIn(agent, a);
      var next := CompleteTask(run, files, worker.token, agent, a.result.value, patch, a.rejected, a.now);
      ConcludeKeeps(next.0, next.1, next.2, worker, agent, a);
      if Active(run, worker.token) && agent in run.tasks && run.tasks[agent].status != TaskCompleted {
        var (written, result) := ApplyPatch(files, if patch.Some? then patch.value else []);
        CommitEffects(run, files, agent, a.result.value, patch.Some?, written, result, a.rejected, a.now);
      }
    }
  }

  lemma PrepareWritesNoEffect(run: Run, token: nat, agent: Agent, now: Time)
    ensures WritesNoEffect(run, PrepareTask(run, token, agent, now).0)
    ensures WritesNoEffect(run, SkipTask(run, token, agent, now).0)
  {
  }

  lemma StartWritesNoEffect(run: Run, token: nat, agent: Agent, now: Time)
    ensures WritesNoEffect(run, StartTask(run, token, agent, now).0)
    ensures WritesNoEffect(run, FailTask(run, token, agent, now).0)
  {
  }

  lemma GatesWriteNoEffect(run: Run, files: seq<Revision>, worker: Worker, a: Answer)
    ensures WritesNoEffect(run, PlanGateStep(run, files, worker, a).run)
    ensures WritesNoEffect(run, ContentGateStep(run, files, worker, a).run)
  {
  }

  lemma FinishWritesNoEffect(run: Run, files: seq<Revision>, worker: Worker, repairs: nat, a: Answer)
    ensures WritesNoEffect(run, RoutesStep(run, files, worker, a).run)
    ensures WritesNoEffect(run, ValidateStep(run, files, worker, repairs, a).run)
  {
  }

  lemma AdvanceWritesNoEffect(run: Run, files: seq<Revision>, worker: Worker, a: Answer)
    requires !worker.phase.Executing?
    ensures WritesNoEffect(run, Advance(run, files, worker, a).run)
  {
    match worker.phase
    case AtAgent(agent) =>
      PrepareWritesNoEffect(run, worker.token, agent, a.now);
      assert RunAgentStep(run, files, worker, agent, a).run
        == if a.skip then SkipTask(run, worker.token, agent, a.now).0 else PrepareTask(run, worker.token, agent, a.now).0;
    case Prepared(agent) =>
      StartWritesNoEffect(run, worker.token, agent, a.now);
      assert StartStep(run, files, worker, agent, a).run == StartTask(run, worker.token, agent, a.now).0;
    case FailingTask(agent, _) => StartWritesNoEffect(run, worker.token, agent, a.now);
    case CheckingRoutes => FinishWritesNoEffect(run, files, worker, 0, a);
    case Validating(repairs) => FinishWritesNoEffect(run, files, worker, repairs, a);
    case Over =>
    case _ => GatesWriteNoEffect(run, files, worker, a);
  }

  lemma AdvanceEffects(run: Run, files: seq<Revision>, worker: Worker, a: Answer)
    ensures EffectMove(run, Advance(run, files, worker, a).run)
  {
    if worker.phase.Executing? {
      ExecuteEffects(run, files, worker, worker.phase.agent, a);
    } else {
      var r := Advance(run, files, worker, a);
      AdvanceTasks(run, files, worker, a);
      AdvanceWritesNoEffect(run, files, worker, a);
      NoCompletionElsewhere(run.tasks, r.run.tasks, worker.phase, r.worker.phase, a.result);
    }
  }

  lemma NoCompletionElsewhere(tasks: map<Agent, Task>, tasks': map<Agent, Task>, phase: Phase, phase': Phase,
                              result: Option<Output>)
    requires TaskMove(tasks, tasks', phase, phase', result) && !phase.Executing?
    ensures forall g :: Complete(tasks', g) ==> Complete(tasks, g)
  {
  }
}
