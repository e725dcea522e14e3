/** The run tables of one project behind the worker, the API and the sweepers; a method is a transaction. */
module RunRepository {
  import opened Wrappers
  import opened FileRevisions
  import opened RunRecord

  type RunId = nat

  type AttachmentId = nat

  /** What a caller asks for; attachment ids are unique in a request. */
  datatype Request = Request(prompt: string, attachments: set<AttachmentId>)

  /** The columns of a run that its creation fixes. */
  datatype Submission = Submission(run: RunId, request: Request)

  datatype CreateResult =
    | Created(run: RunId)
    | Replayed(run: RunId)
    | KeyConflict(run: RunId)
    | BadAttachments(ids: set<AttachmentId>)

  class PrismaRunRepository {
    var runs: map<RunId, Run>
    var submissions: map<string, Submission>
    const files: ProjectFiles

    constructor (files: ProjectFiles)
      ensures runs == map[] && submissions == map[] && this.files == files
    {
      runs, submissions, this.files := map[], map[], files;
    }

    /** The row of a run after a transaction, everything else as before. */
    twostate predicate Became(id: RunId, run: Run)
      reads this
    {
      runs == old(runs)[id := run]
    }

    /**
     * One run per idempotency key: the same request again is answered with the run it made, a
     * different one is a conflict. Every attachment must be among the project's clean ones.
     * `id` is the key the database generates for a new row.
     */
    method CreateRun(id: RunId, key: string, request: Request, clean: set<AttachmentId>) returns (r: CreateResult)
      requires id !in runs
      modifies this
      ensures key in old(submissions) ==>
        var first := old(submissions)[key];
        && r == (if first.request == request then Replayed(first.run) else KeyConflict(first.run))
        && runs == old(runs) && submissions == old(submissions)
      ensures key !in old(submissions) && !(request.attachments <= clean) ==>
        && r == BadAttachments(request.attachments - clean)
        && runs == old(runs) && submissions == old(submissions)
      ensures key !in old(submissions) && request.attachments <= clean ==>
        && r == Created(id)
        && Became(id, NEW_RUN) && submissions == old(submissions)[key := Submission(id, request)]
    {
      if key in submissions {
        var first := submissions[key];
        return if first.request == request then Replayed(first.run) else KeyConflict(first.run);
      }
      var invalid := request.attachments - clean;
      if invalid != {} {
        return BadAttachments(invalid);
      }
      assert forall attachment :: attachment in request.attachments ==> attachment !in invalid;
      runs, submissions := runs[id := NEW_RUN], submissions[key := Submission(id, request)];
      r := Created(id);
    }

    /** `eventSequence` is raised first, and the event takes the new value as its number. */
    method AppendEvent(id: RunId, kind: EventKind)
      requires id in runs
      modifies this`runs
      ensures Became(id, Append(old(runs)[id], kind))
    {
      var run := runs[id];
      var sequence := run.eventSequence + 1;
      runs := runs[id := run.(eventSequence := sequence, events := run.events + [RunEvent(sequence, kind)])];
    }

    method ClaimRun(id: RunId, job: Job, now: Time) returns (r: ClaimResult)
      modifies this`runs
      ensures id !in old(runs) ==> r == Missing && runs == old(runs)
      ensures id in old(runs) ==> Became(id, Claim(old(runs)[id], job, now).0)
      ensures id in old(runs) ==> r == Claim(old(runs)[id], job, now).1
    {
      if id !in runs {
        return Missing;
      }
      var current := runs[id];
      if current.status == RUNNING && current.version == job.version + 1 {
        return Ready(current.version);
      }
      if current.status != PENDING || current.version != job.version {
        return Stale;
      }
      runs := runs[id := current.(status := RUNNING, version := current.version + 1, heartbeat := Some(now),
        startedAt := if current.startedAt.Some? then current.startedAt else Some(now))];
      AppendEvent(id, StatusChanged(job.command, current.version + 1));
      r := Ready(current.version + 1);
    }

    /** The fence of every worker write. */
    method TouchActiveRun(id: RunId, token: nat, now: Time) returns (ok: bool)
      modifies this`runs
      ensures ok == (id in old(runs) && Active(old(runs)[id], token))
      ensures if ok then Became(id, Touch(old(runs)[id], now)) else runs == old(runs)
    {
      ok := id in runs && runs[id].status == RUNNING && runs[id].version == token;
      if ok {
        runs := runs[id := runs[id].(heartbeat := Some(now))];
      }
    }

    method PrepareRunTask(id: RunId, token: nat, agent: Agent, now: Time) returns (r: TaskResult)
      modifies this`runs
      ensures id !in old(runs) ==> r == Stopped && runs == old(runs)
      ensures id in old(runs) ==> Became(id, PrepareTask(old(runs)[id], token, agent, now).0)
      ensures id in old(runs) ==> r == PrepareTask(old(runs)[id], token, agent, now).1
    {
      var active := TouchActiveRun(id, token, now);
      if !active {
        return Stopped;
      }
      if agent in runs[id].tasks {
        return TaskOk(runs[id].tasks[agent]);
      }
      var task := Task(TaskPending, 0, None, true);
      runs := runs[id := runs[id].(tasks := runs[id].tasks[agent := task])];
      AppendEvent(id, TaskCreated(agent));
      r := TaskOk(task);
    }

    method SkipRunTask(id: RunId, token: nat, agent: Agent, now: Time) returns (r: TaskResult)
      modifies this`runs
      ensures id !in old(runs) ==> r == Stopped && runs == old(runs)
      ensures id in old(runs) ==> Became(id, SkipTask(old(runs)[id], token, agent, now).0)
      ensures id in old(runs) ==> r == SkipTask(old(runs)[id], token, agent, now).1
    {
      var active := TouchActiveRun(id, token, now);
      if !active {
        return Stopped;
      }
      if agent in runs[id].tasks {
        return TaskOk(runs[id].tasks[agent]);
      }
      var task := Task(TaskSkipped, 0, None, true);
      runs := runs[id := runs[id].(tasks := runs[id].tasks[agent := task])];
      AppendEvent(id, TaskSkippedEvent(agent));
      r := TaskOk(task);
    }

    method StartRunTask(id: RunId, token: nat, agent: Agent, now: Time) returns (r: TaskResult)
      modifies this`runs
      ensures id !in old(runs) ==> r == Stopped && runs == old(runs)
      ensures id in old(runs) ==> Became(id, StartTask(old(runs)[id], token, agent, now).0)
      ensures id in old(runs) ==> r == StartTask(old(runs)[id], token, agent, now).1
    {
      var before := runs;
      var active := TouchActiveRun(id, token, now);
      if !active {
        return Stopped;
      }
      if agent !in runs[id].tasks {
        runs := before;  // the transaction is rolled back
        return NoSuchTask;
      }
      var current := runs[id].tasks[agent];
      if current.status == TaskCompleted {
        return TaskOk(current);
      }
      var task := current.(status := TaskRunning, attempt := current.attempt + 1);
      runs := runs[id := runs[id].(tasks := runs[id].tasks[agent := task])];
      AppendEvent(id, TaskStarted(agent, task.attempt));
      r := TaskOk(task);
    }

    method CompleteRunTask(id: RunId, token: nat, agent: Agent, output: Output, patch: Option<seq<PatchFile>>,
                           rejected: bool, now: Time) returns (r: CompleteResult)
      modifies this`runs, files
      ensures id !in old(runs) ==> r == CompleteStopped && runs == old(runs) && files.rows == old(files.rows)
      ensures id in old(runs) ==>
        var (run, rows, result) := CompleteTask(old(runs)[id], old(files.rows), token, agent, output, patch,
                                                        rejected, now);
        Became(id, run) && files.rows == rows && r == result
    {
      var before := runs;
      var active := TouchActiveRun(id, token, now);
      if !active {
        return CompleteStopped;
      }
      if agent !in runs[id].tasks {
        runs := before;
        return Threw;
      }
      var current := runs[id].tasks[agent];
      if current.status == TaskCompleted {
        return Done(current);
      }
      var beforeFiles := files.rows;
      var written := files.ApplyGeneratedFiles(if patch.Some? then patch.value else []);
      r := Settle(id, agent, output, patch.Some?, written, rejected, now, before, beforeFiles);
    }

    /** What follows from the file patch; `before` and `beforeFiles` are what a roll-back restores. */
    method Settle(id: RunId, agent: Agent, output: Output, handsIn: bool, written: PatchResult, rejected: bool,
                  now: Time, before: map<RunId, Run>, beforeFiles: seq<Revision>) returns (r: CompleteResult)
      requires id in before && runs == before[id := Touch(before[id], now)] && agent in before[id].tasks
      modifies this`runs, files
      ensures
        var (run, rows, outcome) :=
          Commit(before[id], beforeFiles, agent, output, handsIn, old(files.rows), written, rejected, now);
        runs == before[id := run] && files.rows == rows && r == outcome
    {
      if written.Conflict? {
        files.rows := beforeFiles;
        return FileConflict;
      }
      if written.UniqueViolation? || (agent == David && rejected) {
        runs := before;
        files.rows := beforeFiles;
        assert before[id := before[id]] == before;
        return Threw;
      }
      var task := CommitCompletion(id, agent, output, if handsIn then Some(written.paths) else None);
      r := Done(task);
    }

    /** The last writes of the transaction: the task row and its events. */
    method CommitCompletion(id: RunId, agent: Agent, output: Output, paths: Option<seq<Path>>) returns (task: Task)
      requires id in runs && agent in runs[id].tasks
      modifies this`runs
      ensures task == old(runs)[id].tasks[agent].(status := TaskCompleted, output := Some(output))
      ensures Became(id, Completed(old(runs)[id], agent, output, paths))
    {
      task := runs[id].tasks[agent].(status := TaskCompleted, output := Some(output));
      runs := runs[id := runs[id].(tasks := runs[id].tasks[agent := task])];
      AppendCompletionEvents(id, agent, task.attempt, paths);
    }

    method AppendCompletionEvents(id: RunId, agent: Agent, attempt: nat, paths: Option<seq<Path>>)
      requires id in runs
      modifies this`runs
      ensures Became(id, AppendAll(old(runs)[id], CompletionEvents(agent, attempt, paths)))
    {
      var kinds := CompletionEvents(agent, attempt, paths);
      ghost var start := runs[id];
      for i := 0 to |kinds|
        invariant id in runs && runs == old(runs)[id := AppendAll(start, kinds[..i])]
      {
        assert kinds[..i + 1][..i] == kinds[..i];
        AppendEvent(id, kinds[i]);
      }
      assert kinds[..|kinds|] == kinds;
    }

    method FailRunTask(id: RunId, token: nat, agent: Agent, now: Time) returns (r: FailResult)
      modifies this`runs
      ensures id !in old(runs) ==> r == FailStopped && runs == old(runs)
      ensures id in old(runs) ==> Became(id, FailTask(old(runs)[id], token, agent, now).0)
      ensures id in old(runs) ==> r == FailTask(old(runs)[id], token, agent, now).1
    {
      var before := runs;
      var active := TouchActiveRun(id, token, now);
      if !active {
        return FailStopped;
      }
      if agent !in runs[id].tasks {
        runs := before;  // the transaction is rolled back
        return FailThrew;
      }
      var task := runs[id].tasks[agent].(status := TaskFailed);
      runs := runs[id := runs[id].(tasks := runs[id].tasks[agent := task])];
      AppendEvent(id, TaskFailedEvent(agent, task.attempt));
      r := FailRecorded;
    }

    method ApplyRepairFiles(id: RunId, token: nat, patch: seq<PatchFile>, now: Time) returns (r: RepairResult)
      modifies this`runs, files
      ensures id !in old(runs) ==> r == RepairStopped && runs == old(runs) && files.rows == old(files.rows)
      ensures id in old(runs) ==>
        var (run, rows, result) := ApplyRepair(old(runs)[id], old(files.rows), token, patch, now);
        Became(id, run) && files.rows == rows && r == result
    {
      var before, beforeFiles := runs, files.rows;
      var active := TouchActiveRun(id, token, now);
      if !active {
        return RepairStopped;
      }
      var written := files.ApplyGeneratedFiles(patch);
      if written.Conflict? {
        files.rows := beforeFiles;
        return RepairConflict;
      }
      if written.UniqueViolation? {
        runs := before;
        files.rows := beforeFiles;
        return RepairThrew;
      }
      AppendEvent(id, RepairGenerated(written.paths));
      r := Repaired(written.paths);
    }

    method RequestRunApproval(id: RunId, token: nat, scope: Scope, now: Time) returns (ok: bool)
      modifies this`runs
      ensures id !in old(runs) ==> !ok && runs == old(runs)
      ensures id in old(runs) ==> Became(id, RequestApproval(old(runs)[id], token, scope, now).0)
      ensures id in old(runs) ==> ok == RequestApproval(old(runs)[id], token, scope, now).1
    {
      ok := id in runs && runs[id].status == RUNNING && runs[id].version == token;
      if ok {
        runs := runs[id := runs[id].(status := PAUSED, version := runs[id].version + 1, pausedAt := Some(now),
          heartbeat := Some(now))];
        AppendEvent(id, ApprovalRequired(scope));
      }
    }

    method CompleteAgentRun(id: RunId, token: nat, now: Time) returns (ok: bool)
      modifies this`runs
      ensures id !in old(runs) ==> !ok && runs == old(runs)
      ensures id in old(runs) ==> Became(id, CompleteRun(old(runs)[id], token, now).0)
      ensures id in old(runs) ==> ok == CompleteRun(old(runs)[id], token, now).1
    {
      ok := id in runs && runs[id].status == RUNNING && runs[id].version == token;
      if ok {
        runs := runs[id := runs[id].(status := COMPLETED, version := runs[id].version + 1, completedAt := Some(now),
          heartbeat := Some(now))];
        AppendEvent(id, RunCompletedEvent);
      }
    }

    method FailAgentRun(id: RunId, token: nat, now: Time) returns (ok: bool)
      modifies this`runs
      ensures id !in old(runs) ==> !ok && runs == old(runs)
      ensures id in old(runs) ==> Became(id, FailRun(old(runs)[id], token, now).0)
      ensures id in old(runs) ==> ok == FailRun(old(runs)[id], token, now).1
    {
      ok := id in runs && runs[id].status == RUNNING && runs[id].version == token;
      if ok {
        runs := runs[id := runs[id].(status := FAILED, version := runs[id].version + 1, error := Some(WorkerError),
          completedAt := Some(now), heartbeat := Some(now))];
        AppendEvent(id, RunFailedEvent);
      }
    }

    method Transition(id: RunId, seenStatus: RunStatus, seenVersion: nat, patch: Patch) returns (ok: bool)
      modifies this`runs
      ensures id !in old(runs) ==> !ok && runs == old(runs)
      ensures id in old(runs) ==> Became(id, TransitionRun(old(runs)[id], seenStatus, seenVersion, patch).0)
      ensures id in old(runs) ==> ok == TransitionRun(old(runs)[id], seenStatus, seenVersion, patch).1
    {
      ok := id in runs && runs[id].status == seenStatus && runs[id].version == seenVersion;
      if ok {
        var run := runs[id];
        runs := runs[id := run.(status := patch.status, version := run.version + 1,
          startedAt := Changed(run.startedAt, patch.startedAt), pausedAt := Changed(run.pausedAt, patch.pausedAt),
          completedAt := Changed(run.completedAt, patch.completedAt),
          cancelledAt := Changed(run.cancelledAt, patch.cancelledAt),
          reminderSentAt := Changed(run.reminderSentAt, patch.reminderSentAt),
          error := if patch.clearsError then None else run.error)];
      }
    }

    method MarkFailed(id: RunId, version: nat, now: Time)
      modifies this`runs
      ensures if id !in old(runs) then runs == old(runs) else Became(id, MarkRunFailed(old(runs)[id], version, now))
    {
      if id in runs && runs[id].status == PENDING && runs[id].version == version {
        runs := runs[id := runs[id].(status := FAILED, completedAt := Some(now), error := Some(EnqueueFailed))];
      }
    }

    method ExpireRun(id: RunId, seenVersion: nat, now: Time) returns (ok: bool)
      modifies this`runs
      ensures id !in old(runs) ==> !ok && runs == old(runs)
      ensures id in old(runs) ==> Became(id, Expire(old(runs)[id], seenVersion, now).0)
      ensures id in old(runs) ==> ok == Expire(old(runs)[id], seenVersion, now).1
    {
      ok := id in runs && runs[id].status == PAUSED && runs[id].version == seenVersion;
      if ok {
        runs := runs[id := runs[id].(status := CANCELLED, version := runs[id].version + 1, cancelledAt := Some(now),
          error := Some(ApprovalExpired))];
      }
    }

    method RemindRun(id: RunId, now: Time) returns (ok: bool)
      modifies this`runs
      ensures id !in old(runs) ==> !ok && runs == old(runs)
      ensures id in old(runs) ==> Became(id, Remind(old(runs)[id], now).0)
      ensures id in old(runs) ==> ok == Remind(old(runs)[id], now).1
    {
      ok := id in runs && runs[id].status == PAUSED && runs[id].reminderSentAt.None?;
      if ok {
        runs := runs[id := runs[id].(reminderSentAt := Some(now))];
        AppendEvent(id, ReminderDue);
      }
    }

    method PurgeRun(id: RunId, now: Time) returns (ok: bool)
      modifies this`runs
      ensures id !in old(runs) ==> !ok && runs == old(runs)
      ensures id in old(runs) ==> Became(id, Purge(old(runs)[id], now).0)
      ensures id in old(runs) ==> ok == Purge(old(runs)[id], now).1
    {
      ok := id in runs && runs[id].status == CANCELLED && runs[id].purgedAt.None?;
      if ok {
        var run := runs[id];
        runs := runs[id := run.(redacted := true, purgedAt := Some(now),
          tasks := map agent | agent in run.tasks :: run.tasks[agent].(input := false, output := None))];
        AppendEvent(id, DataPurged);
      }
    }
  }
}
