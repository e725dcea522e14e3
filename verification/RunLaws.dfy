/** What every history of a run keeps: versions, jobs, tokens, events and errors. */
module RunLaws {
  import opened Wrappers
  import opened FileRevisions
  import opened RunRecord
  import opened RunHistory

  // ---- One transaction of a worker ----

  /** The row without its heartbeat, its tasks and its events. */
  function Frame(run: Run): Run {
    run.(heartbeat := None, eventSequence := 0, events := [], tasks := map[])
  }

  /** The row leaves RUNNING for what `e` says, one version up. */
  predicate ExitsBy(run: Run, run': Run, e: Entry) {
    && run'.version == run.version + 1
    && run'.status == StatusOf(e)
    && run'.error == (if e.FailedEntry? then Some(WorkerError) else run.error)
    && run'.purgedAt == run.purgedAt && run'.redacted == run.redacted
    && run'.reminderSentAt == run.reminderSentAt && run'.cancelledAt == run.cancelledAt
  }

  /** A worker step needs its token to be active; it keeps the frame or makes one exit. */
  predicate WorkerMoves(run: Run, run': Run, token: nat, e: Entry) {
    run' == run || (Active(run, token) && (Frame(run') == Frame(run) || ExitsBy(run, run', e)))
  }

  lemma {:induction false} AppendAllKeeps(run: Run, kinds: seq<EventKind>)
    ensures Frame(AppendAll(run, kinds)) == Frame(run) && AppendAll(run, kinds).tasks == run.tasks
  {
    if kinds != [] {
      AppendAllKeeps(run, kinds[..|kinds| - 1]);
    }
  }

  lemma CompletedKeeps(run: Run, agent: Agent, output: Output, paths: Option<seq<Path>>)
    requires agent in run.tasks
    ensures Frame(Completed(run, agent, output, paths)) == Frame(run)
    ensures Completed(run, agent, output, paths).tasks
      == run.tasks[agent := run.tasks[agent].(status := TaskCompleted, output := Some(output))]
  {
    var task := run.tasks[agent].(status := TaskCompleted, output := Some(output));
    AppendAllKeeps(run.(tasks := run.tasks[agent := task]), CompletionEvents(agent, task.attempt, paths));
  }

  lemma CommitMoves(run: Run, files: seq<Revision>, token: nat, agent: Agent, output: Output, handsIn: bool,
                    written: seq<Revision>, result: PatchResult, rejected: bool, now: Time, e: Entry)
    requires agent in run.tasks && Active(run, token)
    ensures WorkerMoves(run, Commit(run, files, agent, output, handsIn, written, result, rejected, now).0, token, e)
  {
    if result.Written? {
      CompletedKeeps(Touch(run, now), agent, output, if handsIn then Some(result.paths) else None);
    }
  }

  lemma CompleteMoves(run: Run, files: seq<Revision>, token: nat, agent: Agent, output: Output,
                      patch: Option<seq<PatchFile>>, rejected: bool, now: Time, e: Entry)
    ensures WorkerMoves(run, CompleteTask(run, files, token, agent, output, patch, rejected, now).0, token, e)
  {
    if Active(run, token) && agent in run.tasks && run.tasks[agent].status != TaskCompleted {
      var (written, result) := ApplyPatch(files, if patch.Some? then patch.value else []);
      CommitMoves(run, files, token, agent, output, patch.Some?, written, result, rejected, now, e);
    }
  }

  lemma ConcludeKeeps(run: Run, files: seq<Revision>, r: CompleteResult, worker: Worker, agent: Agent, a: Answer)
    requires a.result.Some?
    ensures var next := Conclude(run, files, r, worker, agent, a);
      && next.run == run && next.files == files && next.opening.None?
      && next.worker.job == worker.job && next.worker.token == worker.token && next.worker.bypassed == worker.bypassed
  {
  }

  lemma ExecuteMoves(run: Run, files: seq<Revision>, worker: Worker, agent: Agent, a: Answer, e: Entry)
    ensures WorkerMoves(run, ExecuteStep(run, files, worker, agent, a).run, worker.token, e)
  {
    if a.result.Some? && !a.fails {
      var next := CompleteTask(run, files, worker.token, agent, a.result.value, HandedIn(agent, a), a.rejected, a.now);
      CompleteMoves(run, files, worker.token, agent, a.result.value, HandedIn(agent, a), a.rejected, a.now, e);
      ConcludeKeeps(next.0, next.1, next.2, worker, agent, a);
    }
  }

  lemma PrepareMoves(run: Run, token: nat, agent: Agent, now: Time, e: Entry)
    ensures WorkerMoves(run, PrepareTask(run, token, agent, now).0, token, e)
    ensures WorkerMoves(run, SkipTask(run, token, agent, now).0, token, e)
  {
  }

  lemma StartMoves(run: Run, token: nat, agent: Agent, now: Time, e: Entry)
    ensures WorkerMoves(run, StartTask(run, token, agent, now).0, token, e)
    ensures WorkerMoves(run, FailTask(run, token, agent, now).0, token, e)
  {
  }

  lemma TaskStepsMove(run: Run, files: seq<Revision>, worker: Worker, agent: Agent, a: Answer, e: Entry)
    ensures WorkerMoves(run, RunAgentStep(run, files, worker, agent, a).run, worker.token, e)
    ensures WorkerMoves(run, StartStep(run, files, worker, agent, a).run, worker.token, e)
  {
    PrepareMoves(run, worker.token, agent, a.now, e);
    StartMoves(run, worker.token, agent, a.now, e);
    assert RunAgentStep(run, files, worker, agent, a).run
      == if a.skip then SkipTask(run, worker.token, agent, a.now).0 else PrepareTask(run, worker.token, agent, a.now).0;
    assert StartStep(run, files, worker, agent, a).run == StartTask(run, worker.token, agent, a.now).0;
  }

  lemma GatesMove(run: Run, files: seq<Revision>, worker: Worker, a: Answer)
    requires Active(run, worker.token) ==> run.error.None?
    ensures WorkerMoves(run, PlanGateStep(run, files, worker, a).run, worker.token, GateEntry(PlanScope))
    ensures WorkerMoves(run, ContentGateStep(run, files, worker, a).run, worker.token, GateEntry(ContentScope))
  {
  }

  lemma RoutesMove(run: Run, files: seq<Revision>, worker: Worker, a: Answer, e: Entry)
    ensures WorkerMoves(run, RoutesStep(run, files, worker, a).run, worker.token, e)
  {
  }

  lemma EndsMove(run: Run, files: seq<Revision>, worker: Worker, repairs: nat, a: Answer)
    requires Active(run, worker.token) ==> run.error.None?
    ensures WorkerMoves(run, ValidateStep(run, files, worker, repairs, a).run, worker.token, CompletedEntry)
    ensures WorkerMoves(run, FailRun(run, worker.token, a.now).0, worker.token, FailedEntry)
  {
  }

  lemma AdvanceMoves(run: Run, files: seq<Revision>, worker: Worker, a: Answer)
    requires Active(run, worker.token) ==> run.error.None?
    ensures WorkerMoves(run, Advance(run, files, worker, a).run, worker.token, EntryOf(worker))
  {
    match worker.phase
    case AtAgent(agent) => TaskStepsMove(run, files, worker, agent, a, EntryOf(worker));
    case Prepared(agent) => TaskStepsMove(run, files, worker, agent, a, EntryOf(worker));
    case FailingTask(agent, _) => StartMoves(run, worker.token, agent, a.now, EntryOf(worker));
    case Executing(agent) => ExecuteMoves(run, files, worker, agent, a, EntryOf(worker));
    case AtPlanGate => GatesMove(run, files, worker, a);
    case AtContentGate => GatesMove(run, files, worker, a);
    case CheckingRoutes => RoutesMove(run, files, worker, a, EntryOf(worker));
    case Validating(repairs) => EndsMove(run, files, worker, repairs, a);
    case Throwing(_) => EndsMove(run, files, worker, 0, a);
    case Over =>
  }

  /** The fence: without an active token a worker step changes neither the run nor a file. */
  lemma InactiveWorkerWritesNothing(run: Run, files: seq<Revision>, worker: Worker, a: Answer)
    requires !Active(run, worker.token)
    ensures Advance(run, files, worker, a).run == run && Advance(run, files, worker, a).files == files
  {
  }

  lemma AdvanceKeepsIdentity(run: Run, files: seq<Revision>, worker: Worker, a: Answer)
    ensures Advance(run, files, worker, a).worker.job == worker.job
    ensures Advance(run, files, worker, a).worker.token == worker.token
  {
    if worker.phase.Executing? && a.result.Some? && !a.fails {
      var agent := worker.phase.agent;
      var next := CompleteTask(run, files, worker.token, agent, a.result.value, HandedIn(agent, a), a.rejected, a.now);
      ConcludeKeeps(next.0, next.1, next.2, worker, agent, a);
    }
  }

  // ---- Versions, jobs and tokens ----

  /** The last entry fixes the status, except that a failed enqueue turns PENDING into FAILED in place. */
  predicate StatusFits(run: Run, entries: seq<Entry>) {
    && |entries| == run.version + 1
    && (run.status == StatusOf(entries[run.version])
        || (run.status == FAILED && StatusOf(entries[run.version]) == PENDING))
  }

  /** Only a PENDING version is claimed. */
  predicate ClaimsFollowPending(entries: seq<Entry>) {
    forall v :: 0 <= v < |entries| && entries[v].ClaimedEntry? ==> v > 0 && StatusOf(entries[v - 1]) == PENDING
  }

  predicate JobFits(entries: seq<Entry>, job: Job) {
    job.version < |entries| && JobOf(entries[job.version], job.version) == Some(job)
  }

  /** A worker's token is the version its job's claim produced. */
  predicate TokenFits(entries: seq<Entry>, worker: Worker) {
    && worker.token == worker.job.version + 1 < |entries|
    && entries[worker.token].ClaimedEntry?
  }

  predicate Fenced(w: World) {
    && StatusFits(w.run, w.entries)
    && |w.times| == |w.entries|
    && ClaimsFollowPending(w.entries)
    && (forall job :: job in w.jobs ==> JobFits(w.entries, job))
    && (forall i :: 0 <= i < |w.workers| ==> w.workers[i].job in w.jobs && TokenFits(w.entries, w.workers[i]))
  }

  /** An error is recorded exactly on failed and on expired runs. */
  predicate ErrorFits(run: Run, entries: seq<Entry>) {
    && |entries| > run.version
    && (run.error.Some? <==> run.status == FAILED || entries[run.version].ExpiredEntry?)
    && (run.error == Some(ApprovalExpired) <==> entries[run.version].ExpiredEntry?)
  }

  lemma MovedFits(w: World, run: Run, e: Entry)
    requires Fenced(w)
    requires run.version == w.run.version || run.version == w.run.version + 1
    requires run.version == w.run.version ==>
      run.status == w.run.status || (run.status == FAILED && StatusOf(w.entries[w.run.version]) == PENDING)
    requires run.version > w.run.version ==> run.status == StatusOf(e)
    requires run.version > w.run.version && e.ClaimedEntry? ==> StatusOf(w.entries[w.run.version]) == PENDING
    ensures Fenced(Moved(w, run, e)) && w.entries <= Moved(w, run, e).entries
  {
  }

  // ---- Every step keeps the run fenced ----

  predicate Consistent(w: World) {
    Fenced(w) && ErrorFits(w.run, w.entries)
  }

  lemma ActiveHasNoError(w: World, token: nat)
    requires Consistent(w) && Active(w.run, token)
    ensures w.run.error.None?
  {
  }

  /** The job an action queues is the one its entry stands for. */
  lemma ActionJobFits(action: Action, seenStatus: RunStatus, at: Time, version: nat)
    requires ResolveTransition(action, seenStatus, at).Some?
    ensures var (patch, command) := ResolveTransition(action, seenStatus, at).value;
      && patch.status == StatusOf(ActionEntry(action))
      && (command.Some? ==>
            JobOf(ActionEntry(action), version)
            == Some(Job(version, command.value, if action.ApproveAction? then Some(action.scope) else None)))
  {
  }

  lemma ActKeeps(w: World, action: Action, seenStatus: RunStatus, seenVersion: nat, at: Time)
    requires Consistent(w)
    ensures Consistent(ActOn(w, action, seenStatus, seenVersion, at))
    ensures w.entries <= ActOn(w, action, seenStatus, seenVersion, at).entries
  {
    var transition := ResolveTransition(action, seenStatus, at);
    if at <= w.clock && transition.Some? && w.run.status == seenStatus && w.run.version == seenVersion {
      ActionJobFits(action, seenStatus, at, w.run.version + 1);
    }
  }

  lemma DeliverKeeps(w: World, job: Job, at: Time, restored: map<Agent, Output>, maxRepairs: nat)
    requires Consistent(w)
    ensures Consistent(DeliverOn(w, job, at, restored, maxRepairs))
    ensures w.entries <= DeliverOn(w, job, at, restored, maxRepairs).entries
  {
    if job in w.jobs && Remembered(restored, w.produced) {
      var (run, claim) := Claim(w.run, job, at);
      assert JobFits(w.entries, job);
      MovedFits(w, run, ClaimedEntry);
      var next := DeliverOn(w, job, at, restored, maxRepairs);
      if claim.Ready? {
        assert TokenFits(next.entries, next.workers[|w.workers|]);
      }
    }
  }

  lemma WorkKeeps(w: World, i: nat, a: Answer)
    requires Consistent(w) && i < |w.workers|
    ensures Consistent(WorkOn(w, i, a)) && w.entries <= WorkOn(w, i, a).entries
  {
    var worker := w.workers[i];
    var r := Advance(w.run, w.files, worker, a);
    if Active(w.run, worker.token) {
      ActiveHasNoError(w, worker.token);
    }
    AdvanceMoves(w.run, w.files, worker, a);
    AdvanceKeepsIdentity(w.run, w.files, worker, a);
    WorkerRowFits(w, r.run, worker.token, EntryOf(worker));
    MovedFits(w, r.run, EntryOf(worker));
    assert TokenFits(w.entries, worker);
  }

  /** What the moves of a worker mean for the version, the status and the error. */
  lemma WorkerRowFits(w: World, run: Run, token: nat, e: Entry)
    requires Consistent(w) && WorkerMoves(w.run, run, token, e)
    requires e.GateEntry? || e.CompletedEntry? || e.FailedEntry?
    ensures run.version == w.run.version || (run.version == w.run.version + 1 && run.status == StatusOf(e))
    ensures run.version == w.run.version ==> run.status == w.run.status
    ensures ErrorFits(run, Moved(w, run, e).entries)
  {
  }

  lemma SweepersKeep(w: World, step: Step)
    requires Consistent(w)
    requires step.ExpireSeen? || step.RemindSeen? || step.PurgeSeen? || step.Mark? || step.OtherEvent?
    ensures Consistent(Apply(w, step)) && w.entries <= Apply(w, step).entries
  {
    if step.ExpireSeen? && step.k < |w.looks| {
      MovedFits(w, Expire(w.run, w.looks[step.k].version, w.looks[step.k].now).0, ExpiredEntry);
    }
  }

  lemma StepKeepsConsistent(w: World, step: Step)
    requires Consistent(w)
    ensures Consistent(Apply(w, step)) && w.entries <= Apply(w, step).entries
  {
    match step
    case Act(action, seenStatus, seenVersion, at) => ActKeeps(w, action, seenStatus, seenVersion, at);
    case Deliver(job, at, restored, maxRepairs) => DeliverKeeps(w, job, at, restored, maxRepairs);
    case Work(i, a) =>
      if i < |w.workers| {
        WorkKeeps(w, i, a);
      }
    case Mark(_, _) => SweepersKeep(w, step);
    case ExpireSeen(_) => SweepersKeep(w, step);
    case RemindSeen(_) => SweepersKeep(w, step);
    case PurgeSeen(_) => SweepersKeep(w, step);
    case OtherEvent => SweepersKeep(w, step);
    case _ =>
  }

  lemma {:induction false} HistoryConsistent(steps: seq<Step>)
    ensures Consistent(RunAll(steps))
  {
    if steps != [] {
      HistoryConsistent(steps[..|steps| - 1]);
      StepKeepsConsistent(RunAll(steps[..|steps| - 1]), steps[|steps| - 1]);
    }
  }

  /** Versions never fall, and what produced a version is never rewritten. */
  lemma {:induction false} VersionsNeverFall(steps: seq<Step>, k: nat)
    requires k <= |steps|
    ensures RunAll(steps[..k]).entries <= RunAll(steps).entries
    ensures RunAll(steps[..k]).run.version <= RunAll(steps).run.version
    decreases |steps|
  {
    var n := |steps|;
    HistoryConsistent(steps);
    HistoryConsistent(steps[..k]);
    if k == n {
      assert steps[..k] == steps;
    } else {
      assert steps[..n - 1][..k] == steps[..k];
      VersionsNeverFall(steps[..n - 1], k);
      HistoryConsistent(steps[..n - 1]);
      StepKeepsConsistent(RunAll(steps[..n - 1]), steps[n - 1]);
    }
  }

  // ---- Fencing ----

  /** A worker writes to the run or its files only while the run is RUNNING at the worker's own token. */
  lemma WorkerWritesOnlyUnderItsToken(w: World, i: nat, a: Answer)
    requires i < |w.workers|
    ensures Apply(w, Work(i, a)).run != w.run ==> Active(w.run, w.workers[i].token)
    ensures Apply(w, Work(i, a)).files != w.files ==> Active(w.run, w.workers[i].token)
  {
    if !Active(w.run, w.workers[i].token) {
      InactiveWorkerWritesNothing(w.run, w.files, w.workers[i], a);
    }
  }

  lemma NotActiveAgain(before: World, w: World, token: nat)
    requires Consistent(before) && Consistent(w) && before.entries <= w.entries
    requires token < |before.entries| && before.entries[token].ClaimedEntry? && !Active(before.run, token)
    ensures !Active(w.run, token)
  {
  }

  lemma WorkerTokenIsClaim(w: World, i: nat)
    requires Consistent(w) && i < |w.workers|
    ensures w.workers[i].token < |w.entries| && w.entries[w.workers[i].token].ClaimedEntry?
  {
  }

  /**
   * Once the run has left RUNNING at a worker's token, by whatever exit, no step of a worker with
   * that token ever changes the run or a file again, whatever happens in between.
   */
  lemma LeftTokenStaysFenced(steps: seq<Step>, k: nat, i: nat, a: Answer)
    requires k <= |steps| && i < |RunAll(steps).workers|
    requires RunAll(steps).workers[i].token < |RunAll(steps[..k]).entries|
    requires !Active(RunAll(steps[..k]).run, RunAll(steps).workers[i].token)
    ensures !Active(RunAll(steps).run, RunAll(steps).workers[i].token)
    ensures Apply(RunAll(steps), Work(i, a)).run == RunAll(steps).run
    ensures Apply(RunAll(steps), Work(i, a)).files == RunAll(steps).files
  {
    var before, w := RunAll(steps[..k]), RunAll(steps);
    VersionsNeverFall(steps, k);
    HistoryConsistent(steps);
    HistoryConsistent(steps[..k]);
    WorkerTokenIsClaim(w, i);
    NotActiveAgain(before, w, w.workers[i].token);
    WorkerWritesOnlyUnderItsToken(w, i, a);
  }

  // ---- Claims and jobs ----

  /** At most one job carries a version, and it is the job of what produced that version. */
  lemma OneJobPerVersion(steps: seq<Step>, a: Job, b: Job)
    requires a in RunAll(steps).jobs && b in RunAll(steps).jobs && a.version == b.version
    ensures a == b
    ensures a.version < |RunAll(steps).entries| && JobOf(RunAll(steps).entries[a.version], a.version) == Some(a)
  {
    HistoryConsistent(steps);
    assert JobFits(RunAll(steps).entries, a) && JobFits(RunAll(steps).entries, b);
  }

  /**
   * A worker, first delivery or redelivery, runs exactly the command and scope of the accepted
   * action that produced the version just below its token, and that version was PENDING.
   */
  lemma WorkerRunsTheAcceptedAction(steps: seq<Step>, i: nat)
    requires i < |RunAll(steps).workers|
    ensures var w, worker := RunAll(steps), RunAll(steps).workers[i];
      && 0 < worker.token < |w.entries|
      && w.entries[worker.token].ClaimedEntry?
      && StatusOf(w.entries[worker.token - 1]) == PENDING
      && JobOf(w.entries[worker.token - 1], worker.token - 1) == Some(worker.job)
  {
    HistoryConsistent(steps);
    var w := RunAll(steps);
    assert TokenFits(w.entries, w.workers[i]);
    assert JobFits(w.entries, w.workers[i].job);
  }

  lemma WorkKeepsStatus(w: World, i: nat, a: Answer)
    requires Consistent(w) && i < |w.workers|
    ensures WorkOn(w, i, a).run.version == w.run.version ==> WorkOn(w, i, a).run.status == w.run.status
  {
    var worker := w.workers[i];
    var run := Advance(w.run, w.files, worker, a).run;
    if Active(w.run, worker.token) {
      ActiveHasNoError(w, worker.token);
    }
    AdvanceMoves(w.run, w.files, worker, a);
    WorkerRowFits(w, run, worker.token, EntryOf(worker));
  }

  /** Each version is PENDING at most once: PENDING is entered only together with a new version. */
  lemma PendingOnlyWithANewVersion(steps: seq<Step>, step: Step)
    requires Apply(RunAll(steps), step).run.status == PENDING
    requires Apply(RunAll(steps), step).run.version == RunAll(steps).run.version
    ensures RunAll(steps).run.status == PENDING
  {
    HistoryConsistent(steps);
    if step.Work? && step.i < |RunAll(steps).workers| {
      WorkKeepsStatus(RunAll(steps), step.i, step.answer);
    }
  }

  lemma TokenFixesJob(w: World, i: nat, j: nat)
    requires Consistent(w) && i < |w.workers| && j < |w.workers|
    requires w.workers[i].token == w.workers[j].token
    ensures w.workers[i].job == w.workers[j].job
  {
    assert JobFits(w.entries, w.workers[i].job) && JobFits(w.entries, w.workers[j].job);
  }

  /** Workers that hold one token run one job: a second claim of a version only ever is a redelivery. */
  lemma OneTokenOneJob(steps: seq<Step>, i: nat, j: nat)
    requires i < |RunAll(steps).workers| && j < |RunAll(steps).workers|
    requires RunAll(steps).workers[i].token == RunAll(steps).workers[j].token
    ensures RunAll(steps).workers[i].job == RunAll(steps).workers[j].job
  {
    HistoryConsistent(steps);
    TokenFixesJob(RunAll(steps), i, j);
  }

  // ---- Final statuses and errors ----

  predicate Ended(run: Run) {
    run.status == COMPLETED || run.status == CANCELLED
  }

  /** COMPLETED and CANCELLED are never left. */
  lemma {:induction false} FinalStatusesStay(steps: seq<Step>, k: nat)
    requires k <= |steps| && Ended(RunAll(steps[..k]).run)
    ensures RunAll(steps).run.status == RunAll(steps[..k]).run.status
    ensures RunAll(steps).run.version == RunAll(steps[..k]).run.version
    decreases |steps|
  {
    var n := |steps|;
    if k == n {
      assert steps[..k] == steps;
    } else {
      assert steps[..n - 1][..k] == steps[..k];
      FinalStatusesStay(steps[..n - 1], k);
      LastStepStays(steps);
    }
  }

  lemma LastStepStays(steps: seq<Step>)
    requires steps != [] && Ended(RunAll(steps[..|steps| - 1]).run)
    ensures RunAll(steps).run.status == RunAll(steps[..|steps| - 1]).run.status
    ensures RunAll(steps).run.version == RunAll(steps[..|steps| - 1]).run.version
  {
    HistoryConsistent(steps[..|steps| - 1]);
    FinalStepStays(RunAll(steps[..|steps| - 1]), steps[|steps| - 1]);
  }

  lemma FinalStepStays(w: World, step: Step)
    requires Consistent(w) && Ended(w.run)
    ensures Apply(w, step).run.status == w.run.status && Apply(w, step).run.version == w.run.version
  {
    if step.Work? && step.i < |w.workers| {
      InactiveWorkerWritesNothing(w.run, w.files, w.workers[step.i], step.answer);
    }
  }

  /** A stored error marks a failed run or a run that expiry cancelled, and no other. */
  lemma ErrorsMarkFailuresAndExpiries(steps: seq<Step>)
    ensures var w := RunAll(steps);
      && w.run.version < |w.entries|
      && (w.run.error.Some?
          <==> w.run.status == FAILED || (w.run.status == CANCELLED && w.entries[w.run.version].ExpiredEntry?))
      && (w.run.error == Some(ApprovalExpired) <==> w.entries[w.run.version].ExpiredEntry?)
  {
    HistoryConsistent(steps);
  }
}
