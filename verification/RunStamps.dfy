/** The time stamps and the redaction of a run fit its status in every history. */
module RunStamps {
  import opened Wrappers
  import opened FileRevisions
  import opened RunRecord
  import opened RunHistory
  import opened RunLaws
  import opened RunTasks

  /** A worker has claimed the run since it was created or last retried. */
  function ClaimedSince(entries: seq<Entry>): bool {
    if entries == [] then false
    else
      match entries[|entries| - 1]
      case ClaimedEntry => true
      case ActionEntry(RetryAction) => false
      case _ => ClaimedSince(entries[..|entries| - 1])
  }

  /** The stamps say what the status says: when it started, paused, ended, was cancelled, was reminded. */
  predicate StampsFit(run: Run, entries: seq<Entry>) {
    && (run.startedAt.Some? <==> ClaimedSince(entries))
    && (run.status == PAUSED ==> run.pausedAt.Some?)
    && (run.pausedAt.Some? ==> run.status == PAUSED || run.status == CANCELLED)
    && (run.completedAt.Some? <==> run.status == COMPLETED || run.status == FAILED)
    && (run.cancelledAt.Some? <==> run.status == CANCELLED)
    && (run.reminderSentAt.Some? ==> run.status == PAUSED || run.status == CANCELLED)
    && (run.status == RUNNING ==> run.heartbeat.Some?)
  }

  predicate RedactionFits(run: Run) {
    run.redacted ==>
      run.status == CANCELLED && forall g :: g in run.tasks ==> run.tasks[g].output.None? && !run.tasks[g].input
  }

  // ---- A worker step ----

  /** Everything but the stamps of an exit stays; any write beats the heart. */
  predicate StampMoves(run: Run, run': Run, e: Entry, now: Time) {
    || run' == run
    || (&& run.status == RUNNING && run'.heartbeat == Some(now) && run'.startedAt == run.startedAt
        && run'.cancelledAt == run.cancelledAt && run'.reminderSentAt == run.reminderSentAt
        && run'.redacted == run.redacted
        && ((run'.status == RUNNING && run'.version == run.version
             && run'.pausedAt == run.pausedAt && run'.completedAt == run.completedAt)
            || (run'.version == run.version + 1 && run'.status == StatusOf(e)
                && run'.pausedAt == (if e.GateEntry? then Some(now) else run.pausedAt)
                && run'.completedAt == (if e.GateEntry? then run.completedAt else Some(now)))))
  }

  lemma FrameStamps(run: Run, run': Run, e: Entry, now: Time)
    requires run.status == RUNNING && Frame(run') == Frame(run) && run'.heartbeat == Some(now)
    ensures StampMoves(run, run', e, now)
  {
    var f, f' := Frame(run), Frame(run');
    assert f'.status == run'.status && f'.version == run'.version && f'.startedAt == run'.startedAt;
    assert f'.pausedAt == run'.pausedAt && f'.completedAt == run'.completedAt && f'.cancelledAt == run'.cancelledAt;
    assert f'.reminderSentAt == run'.reminderSentAt && f'.redacted == run'.redacted;
  }

  lemma NodeStamps(run: Run, token: nat, agent: Agent, now: Time, e: Entry)
    ensures StampMoves(run, PrepareTask(run, token, agent, now).0, e, now)
    ensures StampMoves(run, SkipTask(run, token, agent, now).0, e, now)
  {
  }

  lemma StartStamps(run: Run, token: nat, agent: Agent, now: Time, e: Entry)
    ensures StampMoves(run, StartTask(run, token, agent, now).0, e, now)
    ensures StampMoves(run, FailTask(run, token, agent, now).0, e, now)
  {
  }

  lemma {:induction false} AppendAllHeartbeat(run: Run, kinds: seq<EventKind>)
    ensures AppendAll(run, kinds).heartbeat == run.heartbeat
  {
    if kinds != [] {
      AppendAllHeartbeat(run, kinds[..|kinds| - 1]);
    }
  }

  lemma CompletedHeartbeat(run: Run, agent: Agent, output: Output, paths: Option<seq<Path>>)
    requires agent in run.tasks
    ensures Completed(run, agent, output, paths).heartbeat == run.heartbeat
  {
    var task := run.tasks[agent].(status := TaskCompleted, output := Some(output));
    AppendAllHeartbeat(run.(tasks := run.tasks[agent := task]), CompletionEvents(agent, task.attempt, paths));
  }

  lemma CommitStamps(run: Run, files: seq<Revision>, agent: Agent, output: Output, handsIn: bool, written: seq<Revision>,
                     result: PatchResult, rejected: bool, now: Time, e: Entry)
    requires agent in run.tasks && run.status == RUNNING
    ensures StampMoves(run, Commit(run, files, agent, output, handsIn, written, result, rejected, now).0, e, now)
  {
    var next := Commit(run, files, agent, output, handsIn, written, result, rejected, now).0;
    if result.Written? && !(agent == David && rejected) {
      CompletedKeeps(Touch(run, now), agent, output, if handsIn then Some(result.paths) else None);
      CompletedHeartbeat(Touch(run, now), agent, output, if handsIn then Some(result.paths) else None);
      FrameStamps(run, next, e, now);
    }
  }

  lemma CompleteStamps(run: Run, files: seq<Revision>, token: nat, agent: Agent, output: Output,
                       patch: Option<seq<PatchFile>>, rejected: bool, now: Time, e: Entry)
    ensures StampMoves(run, CompleteTask(run, files, token, agent, output, patch, rejected, now).0, e, now)
  {
    if Active(run, token) && agent in run.tasks && run.tasks[agent].status != TaskCompleted {
      var (written, result) := ApplyPatch(files, if patch.Some? then patch.value else []);
      CommitStamps(run, files, agent, output, patch.Some?, written, result, rejected, now, e);
    }
  }

  lemma ExecuteStamps(run: Run, files: seq<Revision>, worker: Worker, agent: Agent, a: Answer, e: Entry)
    ensures StampMoves(run, ExecuteStep(run, files, worker, agent, a).run, e, a.now)
  {
    if a.result.Some? && !a.fails {
      var next := CompleteTask(run, files, worker.token, agent, a.result.value, HandedIn(agent, a), a.rejected, a.now);
      CompleteStamps(run, files, worker.token, agent, a.result.value, HandedIn(agent, a), a.rejected, a.now, e);
      ConcludeKeeps(next.0, next.1, next.2, worker, agent, a);
    }
  }

  lemma ExitStamps(run: Run, token: nat, scope: Scope, now: Time)
    ensures StampMoves(run, RequestApproval(run, token, scope, now).0, GateEntry(scope), now)
    ensures StampMoves(run, CompleteRun(run, token, now).0, CompletedEntry, now)
    ensures StampMoves(run, FailRun(run, token, now).0, FailedEntry, now)
  {
  }

  lemma RepairStamps(run: Run, files: seq<Revision>, token: nat, patch: seq<PatchFile>, now: Time, e: Entry)
    ensures StampMoves(run, ApplyRepair(run, files, token, patch, now).0, e, now)
  {
  }

  lemma NodeStepStamps(run: Run, files: seq<Revision>, worker: Worker, agent: Agent, a: Answer, e: Entry)
    ensures StampMoves(run, RunAgentStep(run, files, worker, agent, a).run, e, a.now)
    ensures StampMoves(run, StartStep(run, files, worker, agent, a).run, e, a.now)
  {
    NodeStamps(run, worker.token, agent, a.now, e);
    StartStamps(run, worker.token, agent, a.now, e);
    assert RunAgentStep(run, files, worker, agent, a).run
      == if a.skip then SkipTask(run, worker.token, agent, a.now).0 else PrepareTask(run, worker.token, agent, a.now).0;
    assert StartStep(run, files, worker, agent, a).run == StartTask(run, worker.token, agent, a.now).0;
  }

  lemma GateStamps(run: Run, files: seq<Revision>, worker: Worker, a: Answer)
    requires worker.phase.AtPlanGate? || worker.phase.AtContentGate?
    ensures StampMoves(run, Advance(run, files, worker, a).run, EntryOf(worker), a.now)
  {
    ExitStamps(run, worker.token, PlanScope, a.now);
    ExitStamps(run, worker.token, ContentScope, a.now);
  }

  lemma RoutesStamps(run: Run, files: seq<Revision>, worker: Worker, a: Answer)
    requires worker.phase.CheckingRoutes?
    ensures StampMoves(run, Advance(run, files, worker, a).run, EntryOf(worker), a.now)
  {
    if a.patch.Some? {
      RepairStamps(run, files, worker.token, a.patch.value, a.now, EntryOf(worker));
    }
  }

  lemma ValidationStamps(run: Run, files: seq<Revision>, worker: Worker, a: Answer)
    requires worker.phase.Validating?
    ensures StampMoves(run, Advance(run, files, worker, a).run, EntryOf(worker), a.now)
  {
    ExitStamps(run, worker.token, PlanScope, a.now);
    if a.patch.Some? {
      RepairStamps(run, files, worker.token, a.patch.value, a.now, EntryOf(worker));
    }
  }

  /** Whatever a worker writes to its run, it beats the heart with its clock. */
  lemma AdvanceStamps(run: Run, files: seq<Revision>, worker: Worker, a: Answer)
    ensures StampMoves(run, Advance(run, files, worker, a).run, EntryOf(worker), a.now)
  {
    match worker.phase
    case AtAgent(g) => NodeStepStamps(run, files, worker, g, a, EntryOf(worker));
    case Prepared(g) => NodeStepStamps(run, files, worker, g, a, EntryOf(worker));
    case Executing(g) => ExecuteStamps(run, files, worker, g, a, EntryOf(worker));
    case FailingTask(g, _) => StartStamps(run, worker.token, g, a.now, EntryOf(worker));
    case AtPlanGate => GateStamps(run, files, worker, a);
    case AtContentGate => GateStamps(run, files, worker, a);
    case CheckingRoutes => RoutesStamps(run, files, worker, a);
    case Validating(_) => ValidationStamps(run, files, worker, a);
    case Throwing(_) => ExitStamps(run, worker.token, PlanScope, a.now);
    case Over =>
  }

  // ---- Whole histories ----

  predicate Stamped(w: World) {
    StampsFit(w.run, w.entries) && RedactionFits(w.run)
  }

  lemma EntrySnoc(entries: seq<Entry>, e: Entry)
    ensures ClaimedSince(entries + [e])
      == match e
         case ClaimedEntry => true
         case ActionEntry(RetryAction) => false
         case _ => ClaimedSince(entries)
  {
    assert (entries + [e])[..|entries|] == entries;
  }

  lemma WorkStampsFit(run: Run, run': Run, entries: seq<Entry>, e: Entry, now: Time)
    requires StampsFit(run, entries) && StampMoves(run, run', e, now)
    requires e.GateEntry? || e.CompletedEntry? || e.FailedEntry?
    ensures StampsFit(run', if run'.version == run.version then entries else entries + [e])
  {
    EntrySnoc(entries, e);
  }

  lemma WorkStamped(w: World, i: nat, a: Answer)
    requires Consistent(w) && Stamped(w) && i < |w.workers|
    ensures Stamped(WorkOn(w, i, a))
  {
    var worker := w.workers[i];
    var r := Advance(w.run, w.files, worker, a);
    AdvanceStamps(w.run, w.files, worker, a);
    WorkStampsFit(w.run, r.run, w.entries, EntryOf(worker), a.now);
  }

  lemma ClaimStamped(w: World, job: Job, at: Time, restored: map<Agent, Output>, maxRepairs: nat)
    requires Consistent(w) && Stamped(w)
    ensures var next := DeliverOn(w, job, at, restored, maxRepairs);
      Stamped(next)
  {
    EntrySnoc(w.entries, ClaimedEntry);
  }

  lemma ActStamped(w: World, action: Action, seenStatus: RunStatus, seenVersion: nat, at: Time)
    requires Consistent(w) && Stamped(w)
    ensures var next := ActOn(w, action, seenStatus, seenVersion, at);
      Stamped(next)
  {
    EntrySnoc(w.entries, ActionEntry(action));
  }

  lemma PurgeStamped(w: World, k: nat)
    requires Stamped(w)
    ensures Stamped(Apply(w, PurgeSeen(k)))
  {
  }

  lemma OtherStepsStamped(w: World, step: Step)
    requires Consistent(w) && Stamped(w)
    requires !step.Work? && !step.Deliver? && !step.Act? && !step.PurgeSeen?
    ensures Stamped(Apply(w, step))
  {
    EntrySnoc(w.entries, ExpiredEntry);
  }

  lemma {:induction false} StampedForever(steps: seq<Step>)
    ensures Stamped(RunAll(steps))
  {
    if steps != [] {
      var w, step := RunAll(steps[..|steps| - 1]), steps[|steps| - 1];
      StampedForever(steps[..|steps| - 1]);
      HistoryConsistent(steps[..|steps| - 1]);
      match step
      case Work(i, a) =>
        if i < |w.workers| && a.now <= w.clock {
          WorkStamped(w, i, a);
        }
      case Deliver(job, at, restored, maxRepairs) => ClaimStamped(w, job, at, restored, maxRepairs);
      case Act(action, seenStatus, seenVersion, at) => ActStamped(w, action, seenStatus, seenVersion, at);
      case PurgeSeen(k) => PurgeStamped(w, k);
      case _ => OtherStepsStamped(w, step);
    } else {
      assert ClaimedSince([CreatedEntry]) == ClaimedSince([CreatedEntry][..0]);
    }
  }

  /**
   * In every history the stamps on a run's row say what its status says: it has a start exactly if a
   * worker has claimed it since it was created or last retried, an end exactly if it is COMPLETED or
   * FAILED, a cancellation exactly if it is CANCELLED, and no pause or reminder outlives its pause.
   */
  lemma StampsFollowTheStatus(steps: seq<Step>)
    ensures StampsFit(RunAll(steps).run, RunAll(steps).entries)
  {
    StampedForever(steps);
  }

  /** A redacted run holds no agent's input or output any more. */
  lemma RedactionIsComplete(steps: seq<Step>, g: Agent)
    requires RunAll(steps).run.redacted && g in RunAll(steps).run.tasks
    ensures RunAll(steps).run.tasks[g].output.None? && !RunAll(steps).run.tasks[g].input
  {
    StampedForever(steps);
  }

  /** A worker that changes its run leaves its own clock as the heartbeat, and the start as it was. */
  lemma WorkerBeatsTheHeart(w: World, i: nat, a: Answer)
    requires i < |w.workers| && Apply(w, Work(i, a)).run != w.run
    ensures Apply(w, Work(i, a)).run.heartbeat == Some(a.now)
    ensures Apply(w, Work(i, a)).run.startedAt == w.run.startedAt
  {
    AdvanceStamps(w.run, w.files, w.workers[i], a);
  }

  /** A claim keeps the first start: a resumed run does not look as if it had just begun. */
  lemma ClaimKeepsTheStart(w: World, job: Job, at: Time, restored: map<Agent, Output>, maxRepairs: nat)
    ensures var next := Apply(w, Deliver(job, at, restored, maxRepairs));
      next.run.startedAt == w.run.startedAt || (w.run.startedAt.None? && next.run.startedAt == Some(at))
  {
  }

  // ---- What a person may do when ----

  /** The statuses in which the API accepts an action. */
  function Allows(action: Action): set<RunStatus> {
    match action
    case PauseAction => {PENDING, RUNNING}
    case ResumeAction => {PAUSED}
    case ApproveAction(_) => {PAUSED}
    case CancelAction => {PENDING, RUNNING, PAUSED}
    case RetryAction => {FAILED}
  }

  /**
   * An action that a handler takes on what the run is now goes through exactly if the run's status
   * allows it; one taken on an older version never does.
   */
  lemma ActionIsTakenExactly(steps: seq<Step>, action: Action, seenStatus: RunStatus, seenVersion: nat, at: Time)
    requires at <= RunAll(steps).clock
    ensures var w, next := RunAll(steps), Apply(RunAll(steps), Act(action, seenStatus, seenVersion, at));
      if seenStatus == w.run.status && seenVersion == w.run.version && seenStatus in Allows(action)
      then
        && next.run.version == w.run.version + 1 && next.run.status == StatusOf(ActionEntry(action))
        && next.entries == w.entries + [ActionEntry(action)]
        && (next.run.status == PENDING ==> exists job :: job in next.jobs && job.version == next.run.version)
      else next == w
  {
    var w, next := RunAll(steps), Apply(RunAll(steps), Act(action, seenStatus, seenVersion, at));
    HistoryConsistent(steps);
    var transition := ResolveTransition(action, seenStatus, at);
    if transition.Some? && transition.value.1.Some? && next.run.version != w.run.version {
      var scope := if action.ApproveAction? then Some(action.scope) else None;
      assert Job(next.run.version, transition.value.1.value, scope) in next.jobs;
    }
  }

  /** A mark for a failed enqueue never hits a run that a worker has claimed or that has moved on. */
  lemma MarkHitsOnlyTheWaitingVersion(steps: seq<Step>, version: nat, at: Time)
    ensures var w, next := RunAll(steps), Apply(RunAll(steps), Mark(version, at));
      if w.run.status == PENDING && w.run.version == version
      then
        && next.run.status == FAILED && next.run.version == version && next.run.completedAt == Some(at)
        && next.run.error == Some(EnqueueFailed)
      else next == w
  {
  }
}
