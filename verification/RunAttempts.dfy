/** Every attempt of every agent is in the event log, in order and under its own number. */
module RunAttempts {
  import opened Wrappers
  import opened FileRevisions
  import opened RunRecord
  import opened RunHistory
  import opened RunLaws
  import opened RunTasks
  import opened RunWrites

  /** What an agent's events have said so far: how its task came into being, its attempts, and whether all ends fit. */
  datatype Story = Story(created: nat, skipped: nat, starts: seq<nat>, endsFit: bool)

  /** A completion or failure fits if it carries the number of the attempt it ends. */
  function Tell(s: Story, kind: EventKind, g: Agent): Story {
    match kind
    case TaskCreated(agent) => if agent == g then s.(created := s.created + 1) else s
    case TaskSkippedEvent(agent) => if agent == g then s.(skipped := s.skipped + 1) else s
    case TaskStarted(agent, attempt) => if agent == g then s.(starts := s.starts + [attempt]) else s
    case TaskCompletedEvent(agent, attempt) =>
      if agent == g then s.(endsFit := s.endsFit && attempt == |s.starts|) else s
    case TaskFailedEvent(agent, attempt) =>
      if agent == g then s.(endsFit := s.endsFit && attempt == |s.starts|) else s
    case _ => s
  }

  function TellAll(s: Story, kinds: seq<EventKind>, g: Agent): Story {
    if kinds == [] then s else Tell(TellAll(s, kinds[..|kinds| - 1], g), kinds[|kinds| - 1], g)
  }

  function StoryOf(events: seq<RunEvent>, g: Agent): Story {
    if events == [] then Story(0, 0, [], true) else Tell(StoryOf(events[..|events| - 1], g), events[|events| - 1].kind, g)
  }

  lemma {:induction false} StoryGoesOn(before: seq<RunEvent>, after: seq<RunEvent>, g: Agent)
    requires |before| <= |after| && after[..|before|] == before
    ensures StoryOf(after, g) == TellAll(StoryOf(before, g), News(before, after), g)
    decreases |after|
  {
    if |after| == |before| {
      assert after == before && News(before, after) == [];
    } else {
      var n := |after| - 1;
      assert after[..n][..|before|] == before;
      StoryGoesOn(before, after[..n], g);
      assert News(before, after)[..|News(before, after)| - 1] == News(before, after[..n]);
    }
  }

  function UpTo(n: nat): seq<nat> {
    seq(n, i => i + 1)
  }

  /** The row of a task is what its story says. */
  predicate Fits(s: Story, tasks: map<Agent, Task>, g: Agent) {
    && s.endsFit
    && if g !in tasks then s == Story(0, 0, [], true)
       else
         && s.created + s.skipped == 1
         && s.starts == UpTo(tasks[g].attempt)
         && (tasks[g].status == TaskSkipped ==> s.skipped == 1 && tasks[g].attempt == 0)
         && (tasks[g].status == TaskPending ==> s.created == 1 && tasks[g].attempt == 0)
  }

  lemma TellOne(s: Story, kind: EventKind, g: Agent)
    ensures TellAll(s, [kind], g) == Tell(s, kind, g)
  {
    assert [kind][..0] == [];
  }

  lemma TellTwo(s: Story, kinds: seq<EventKind>, kind: EventKind, g: Agent)
    ensures TellAll(s, kinds + [kind], g) == Tell(TellAll(s, kinds, g), kind, g)
  {
    assert (kinds + [kind])[..|kinds|] == kinds;
  }

  lemma CompletionTold(s: Story, agent: Agent, attempt: nat, paths: Option<seq<Path>>, g: Agent)
    ensures TellAll(s, CompletionEvents(agent, attempt, paths), g) == Tell(s, TaskCompletedEvent(agent, attempt), g)
  {
    var first := [TaskCompletedEvent(agent, attempt)];
    TellOne(s, TaskCompletedEvent(agent, attempt), g);
    TellTwo(s, first, ArtifactCreated(agent, AgentOutput), g);
    var kinds := first + [ArtifactCreated(agent, AgentOutput)];
    assert kinds == [TaskCompletedEvent(agent, attempt), ArtifactCreated(agent, AgentOutput)];
    if agent == Sarah {
      TellTwo(s, kinds, ArtifactCreated(agent, SeoPackage), g);
      kinds := kinds + [ArtifactCreated(agent, SeoPackage)];
    }
    if agent == Adrian {
      TellTwo(s, kinds, ArtifactCreated(agent, ContentPackage), g);
      kinds := kinds + [ArtifactCreated(agent, ContentPackage)];
    }
    if paths.Some? {
      TellTwo(s, kinds, CodeGenerated(agent, paths.value), g);
      kinds := kinds + [CodeGenerated(agent, paths.value)];
    }
    assert kinds == CompletionEvents(agent, attempt, paths);
  }

  lemma AttemptsExtend(n: nat)
    ensures UpTo(n) + [n + 1] == UpTo(n + 1)
  {
  }

  /** One event and the row it goes with. */
  predicate OneWrite(tasks: map<Agent, Task>, tasks': map<Agent, Task>, kind: EventKind, h: Agent) {
    || (h !in tasks && tasks' == tasks[h := Task(TaskPending, 0, None, true)] && kind == TaskCreated(h))
    || (h !in tasks && tasks' == tasks[h := Task(TaskSkipped, 0, None, true)] && kind == TaskSkippedEvent(h))
    || (h in tasks && tasks' == tasks[h := tasks[h].(status := TaskRunning, attempt := tasks[h].attempt + 1)]
        && kind == TaskStarted(h, tasks[h].attempt + 1))
    || (h in tasks && tasks' == tasks[h := tasks[h].(status := TaskFailed)]
        && kind == TaskFailedEvent(h, tasks[h].attempt))
  }

  lemma OneWriteFits(s: Story, tasks: map<Agent, Task>, tasks': map<Agent, Task>, kind: EventKind, h: Agent, g: Agent)
    requires Fits(s, tasks, g) && OneWrite(tasks, tasks', kind, h)
    ensures Fits(Tell(s, kind, g), tasks', g)
  {
    if h == g {
      OwnWriteFits(s, tasks, tasks', kind, g);
    } else {
      assert Tell(s, kind, g) == s;
      assert (g in tasks' <==> g in tasks) && (g in tasks ==> tasks'[g] == tasks[g]);
    }
  }

  lemma OwnWriteFits(s: Story, tasks: map<Agent, Task>, tasks': map<Agent, Task>, kind: EventKind, g: Agent)
    requires Fits(s, tasks, g) && OneWrite(tasks, tasks', kind, g)
    ensures Fits(Tell(s, kind, g), tasks', g)
  {
    if g in tasks {
      AttemptsExtend(tasks[g].attempt);
    }
    assert UpTo(0) == [];
  }

  lemma CompletionFits(s: Story, tasks: map<Agent, Task>, tasks': map<Agent, Task>, h: Agent, g: Agent)
    requires Fits(s, tasks, g) && h in tasks && IsCompletion(tasks, tasks', h)
    ensures Fits(Tell(s, TaskCompletedEvent(h, tasks[h].attempt), g), tasks', g)
  {
  }

  lemma WritesFit(s: Story, tasks: map<Agent, Task>, tasks': map<Agent, Task>, kinds: seq<EventKind>, agent: Agent, g: Agent)
    requires Fits(s, tasks, g) && TaskWrites(tasks, tasks', kinds, agent)
    ensures Fits(TellAll(s, kinds, g), tasks', g)
  {
    if kinds == [] {
      assert tasks' == tasks;
    } else if |kinds| == 1 {
      assert OneWrite(tasks, tasks', kinds[0], agent);
      OneWriteFits(s, tasks, tasks', kinds[0], agent, g);
      assert kinds == [kinds[0]];
      TellOne(s, kinds[0], g);
    } else {
      var paths :| kinds == CompletionEvents(agent, tasks[agent].attempt, paths);
      CompletionTold(s, agent, tasks[agent].attempt, paths, g);
      CompletionFits(s, tasks, tasks', agent, g);
    }
  }

  predicate Logged(run: Run, g: Agent) {
    Fits(StoryOf(run.events, g), run.tasks, g)
  }

  lemma WritesKeepLogged(run: Run, run': Run, agent: Agent, g: Agent)
    requires Logged(run, g) && Writes(run, run', agent)
    ensures Logged(run', g)
  {
    StoryGoesOn(run.events, run'.events, g);
    WritesFit(StoryOf(run.events, g), run.tasks, run'.tasks, News(run.events, run'.events), agent, g);
  }

  lemma OtherEventKeepsLogged(run: Run, run': Run, g: Agent)
    requires Logged(run, g) && OneOtherEvent(run, run')
    ensures Logged(run', g)
  {
    if run'.events != run.events {
      assert run'.events[..|run'.events| - 1] == run.events;
    }
  }

  /** Redaction keeps what the log says. */
  lemma PurgeLogged(run: Run, now: Time, g: Agent)
    requires Logged(run, g)
    ensures Logged(Purge(run, now).0, g)
  {
    PurgeKeepsTasks(run, now);
    var unredacted := Purge(run, now).0.(tasks := run.tasks);
    assert OneOtherEvent(run, unredacted);
    OtherEventKeepsLogged(run, unredacted, g);
  }

  lemma OtherStepsWrite(w: World, step: Step)
    requires !step.Work? && !step.PurgeSeen?
    ensures OneOtherEvent(w.run, Apply(w, step).run)
  {
  }

  /**
   * In every history, overlapping deliveries included: each agent's task was created once, as what it
   * is, its attempts are in the log under the numbers 1 to n in order, n being the number on its row,
   * and every completion and failure is logged under the number of the attempt it ends.
   */
  lemma {:induction false} AttemptsAreLogged(steps: seq<Step>, g: Agent)
    ensures Fits(StoryOf(RunAll(steps).run.events, g), RunAll(steps).run.tasks, g)
  {
    if steps != [] {
      AttemptsAreLogged(steps[..|steps| - 1], g);
      StepKeepsLogged(RunAll(steps[..|steps| - 1]), steps[|steps| - 1], g);
    }
  }

  lemma StepKeepsLogged(w: World, step: Step, g: Agent)
    requires Logged(w.run, g)
    ensures Logged(Apply(w, step).run, g)
  {
    match step
    case Work(i, a) =>
      if i < |w.workers| && a.now <= w.clock {
        WorkKeepsLogged(w.run, w.files, w.workers[i], a, g);
      }
    case PurgeSeen(k) =>
      if k < |w.looks| {
        PurgeLogged(w.run, w.looks[k].now, g);
      }
    case _ =>
      OtherStepsWrite(w, step);
      OtherEventKeepsLogged(w.run, Apply(w, step).run, g);
  }

  lemma WorkKeepsLogged(run: Run, files: seq<Revision>, worker: Worker, a: Answer, g: Agent)
    requires Logged(run, g)
    ensures Logged(Advance(run, files, worker, a).run, g)
  {
    if InNode(worker.phase) {
      NodeStepWrites(run, files, worker, a);
      WritesKeepLogged(run, Advance(run, files, worker, a).run, AgentAt(worker.phase), g);
    } else {
      OtherStepWrites(run, files, worker, a);
      OtherEventKeepsLogged(run, Advance(run, files, worker, a).run, g);
    }
  }
}
