/** Whole histories of the instance table: API, workers and reconciler interleaved. */
module DatabaseHistory {
  import opened Wrappers
  import opened DatabaseLifecycle
  import opened DatabaseProcessor

  /** What gave an instance its next operation version. */
  datatype Entry = CreatedBy | DestroyRequested | Recovered(command: Command)

  function CommandOf(e: Entry): Command {
    match e
    case CreatedBy => Provision
    case DestroyRequested => Destroy
    case Recovered(command) => command
  }

  /** `healthy` records that this worker's provider has reported HEALTHY. */
  datatype Worker = Worker(job: Job, phase: Phase, healthy: bool)

  /** `log[id][v]` is what produced version `v`; `jobs` holds every job a producer may have queued. */
  datatype World = World(table: Table, log: Logs, jobs: set<Job>, workers: seq<Worker>)

  datatype Step =
    | CreateInstance(id: InstanceId, artifact: bool, region: bool, now: Time)
    | DestroyAction(id: InstanceId, now: Time)
    | ClaimStep(job: Job, now: Time)
    | WorkerStep(worker: nat, outside: Outside, healthAttempts: nat)
    | RecoverStep(order: seq<InstanceId>, staleBefore: Time, now: Time, max: nat, limit: nat)
    | MarkFailed(job: Job, retryable: bool, now: Time)
    | MissingTwice(id: InstanceId, seen: Row)

  const START := World(map[], map[], {}, [])

  /** Every dispatch of a plan appends its entry. */
  function LogDispatches(log: Logs, dispatches: seq<Job>): Logs {
    if dispatches == [] then log
    else
      var before := LogDispatches(log, dispatches[..|dispatches| - 1]);
      var job := dispatches[|dispatches| - 1];
      if job.instance in before then before[job.instance := before[job.instance] + [Recovered(job.command)]] else before
  }

  /**
   * Job queueing follows the commit, so a queued job may be delivered any number of times, late or
   * never; MarkFailed is the producer's answer to a failed enqueue, and may come at any time.
   */
  function Apply(w: World, step: Step): World {
    match step
    case CreateInstance(id, artifact, region, now) =>
      if id in w.table then w
      else w.(table := Create(w.table, id, artifact, region, now), log := w.log[id := [CreatedBy]],
              jobs := w.jobs + {Job(id, 0, Provision)})
    case DestroyAction(id, now) =>
      var (t, r) := RequestDestroy(w.table, id, now);
      if !r.Accepted? || r.row.status.Deleted? then w
      else
        var job := Job(id, r.row.version, Destroy);
        if t == w.table || id !in w.log then w.(table := t, jobs := w.jobs + {job})
        else w.(table := t, log := w.log[id := w.log[id] + [DestroyRequested]], jobs := w.jobs + {job})
    case ClaimStep(job, now) =>
      if job !in w.jobs then w
      else
        var (t, claim) := Claim(w.table, job, now);
        w.(table := t, workers := w.workers + [Worker(job, AfterClaim(job, claim), false)])
    case WorkerStep(i, outside, healthAttempts) =>
      if i >= |w.workers| then w
      else
        var worker := w.workers[i];
        var (t, phase) := Advance(w.table, worker.job, worker.phase, outside, healthAttempts);
        w.(table := t, workers := w.workers[i := Worker(worker.job, phase, worker.healthy || phase.SawHealthy?)])
    case RecoverStep(order, staleBefore, now, max, limit) =>
      var plan := RecoverStale(w.table, order, staleBefore, now, max, limit);
      w.(table := plan.table, log := LogDispatches(w.log, plan.dispatches),
         jobs := w.jobs + set job | job in plan.dispatches)
    case MarkFailed(job, retryable, now) =>
      if job in w.jobs then w.(table := Fail(w.table, job, retryable, now)) else w
    case MissingTwice(id, seen) => w.(table := FailMissing(w.table, id, seen, 2))
  }

  function Run(steps: seq<Step>): World {
    if steps == [] then START
    else Apply(Run(steps[..|steps| - 1]), steps[|steps| - 1])
  }

  // ---- The invariant ----

  function CountRecoveries(log: seq<Entry>): nat {
    if log == [] then 0
    else CountRecoveries(log[..|log| - 1]) + if log[|log| - 1].Recovered? then 1 else 0
  }

  /** A destroy command goes back, recovery by recovery, to a destroy request. */
  predicate ChainAt(log: seq<Entry>, i: nat)
    requires i < |log|
  {
    log[i] == Recovered(Destroy) ==> i > 0 && CommandOf(log[i - 1]).Destroy?
  }

  predicate LogFits(row: Row, log: seq<Entry>) {
    && |log| == row.version + 1
    && log[0].CreatedBy?
    && (forall i :: 0 <= i < |log| ==> ChainAt(log, i))
    && CountRecoveries(log) == row.recoveries
    && (row.status in {Deleting, Deleted} ==> CommandOf(log[row.version]).Destroy?)
    && (row.status in {Queued, Provisioning, HealthCheck, Migrating, Ready} ==> CommandOf(log[row.version]).Provision?)
    && row.status !in {Active, Suspended}
  }

  type Logs = map<InstanceId, seq<Entry>>

  predicate JobFits(logs: Logs, job: Job) {
    && job.instance in logs
    && job.version < |logs[job.instance]|
    && job.command == CommandOf(logs[job.instance][job.version])
  }

  predicate RowsFit(t: Table, logs: Logs) {
    t.Keys == logs.Keys && forall id :: id in t ==> LogFits(t[id], logs[id])
  }

  predicate LogsGrow(logs: Logs, logs': Logs) {
    forall id :: id in logs ==> id in logs' && logs[id] <= logs'[id]
  }

  predicate JobsFit(jobs: set<Job>, logs: Logs) {
    forall job :: job in jobs ==> JobFits(logs, job)
  }

  predicate WorkersFit(workers: seq<Worker>, jobs: set<Job>) {
    forall i :: 0 <= i < |workers| ==> workers[i].job in jobs && PhaseOf(workers[i].job.command, workers[i].phase)
  }

  predicate Consistent(w: World) {
    RowsFit(w.table, w.log) && JobsFit(w.jobs, w.log) && WorkersFit(w.workers, w.jobs)
  }

  // ---- Single steps ----

  /** What a transaction that neither raises the version nor creates a row may do to a row. */
  predicate Moves(row: Row, row': Row) {
    && row'.version == row.version && row'.recoveries == row.recoveries
    && (row'.status == row.status || row'.status == Failed
        || (row'.status == Deleted && row.status == Deleting)
        || (row'.status in {Provisioning, HealthCheck, Migrating, Ready}))
  }

  lemma AdvanceMoves(t: Table, job: Job, phase: Phase, o: Outside, healthAttempts: nat)
    ensures var t' := Advance(t, job, phase, o, healthAttempts).0;
      && t'.Keys == t.Keys
      && (forall id :: id in t && id != job.instance ==> t'[id] == t[id])
      && (!Owns(t, job) ==> t' == t)
      && (job.instance in t ==> Moves(t[job.instance], t'[job.instance]))
  {
  }

  lemma AdvanceKeepsFit(t: Table, log: seq<Entry>, job: Job, phase: Phase, o: Outside, healthAttempts: nat)
    requires job.instance in t && LogFits(t[job.instance], log)
    requires job.version < |log| && job.command == CommandOf(log[job.version]) && PhaseOf(job.command, phase)
    ensures LogFits(Advance(t, job, phase, o, healthAttempts).0[job.instance], log)
    ensures PhaseOf(job.command, Advance(t, job, phase, o, healthAttempts).1)
  {
  }

  lemma ClaimKeepsFit(t: Table, log: seq<Entry>, job: Job, now: Time)
    requires job.instance in t && LogFits(t[job.instance], log)
    requires job.version < |log| && job.command == CommandOf(log[job.version])
    ensures Claim(t, job, now).0.Keys == t.Keys
    ensures LogFits(Claim(t, job, now).0[job.instance], log)
    ensures PhaseOf(job.command, AfterClaim(job, Claim(t, job, now).1))
  {
  }

  lemma AppendFits(row: Row, log: seq<Entry>, row': Row, e: Entry)
    requires LogFits(row, log)
    requires row'.version == row.version + 1
    requires row'.recoveries == row.recoveries + if e.Recovered? then 1 else 0
    requires e == Recovered(Destroy) ==> row.status == Deleting
    requires row'.status == Deleting || (row'.status == row.status && row.status !in {Deleted, Active, Suspended})
    requires row'.status == Deleting ==> CommandOf(e).Destroy?
    requires row'.status != Deleting ==> CommandOf(e).Provision?
    ensures LogFits(row', log + [e])
  {
    var next := log + [e];
    assert next[..|next| - 1] == log;
    forall i | 0 <= i < |next|
      ensures ChainAt(next, i)
    {
      if i < |log| {
        assert ChainAt(log, i);
      }
    }
  }

  /** A plan in progress, with the log its dispatches have written so far. */
  predicate PlanFits(logs: Logs, p: Plan) {
    && RowsFit(p.table, LogDispatches(logs, p.dispatches))
    && LogsGrow(logs, LogDispatches(logs, p.dispatches))
    && (forall i :: 0 <= i < |p.dispatches| ==> JobFits(LogDispatches(logs, p.dispatches), p.dispatches[i]))
  }

  predicate Recoverable(t: Table, id: InstanceId) {
    id in t ==> t[id].status !in {Ready, Active, Suspended, Deleted}
  }

  lemma RowUpdateFits(t: Table, logs: Logs, id: InstanceId, row: Row, log: seq<Entry>)
    requires RowsFit(t, logs) && LogFits(row, log)
    ensures RowsFit(t[id := row], logs[id := log])
  {
  }

  lemma LastDispatch(logs: Logs, dispatches: seq<Job>, job: Job)
    requires job.instance in LogDispatches(logs, dispatches)
    ensures var before := LogDispatches(logs, dispatches);
      LogDispatches(logs, dispatches + [job])
      == before[job.instance := before[job.instance] + [Recovered(job.command)]]
  {
  }

  lemma DispatchFits(logs: Logs, p: Plan, id: InstanceId, now: Time)
    requires PlanFits(logs, p) && id in p.table && Recoverable(p.table, id)
    requires p.table[id].status == Failed ==> p.table[id].retryable
    ensures PlanFits(logs, RecoverOne(p, id, now, p.table[id].recoveries + 1))
  {
    var q := RecoverOne(p, id, now, p.table[id].recoveries + 1);
    var before, row := LogDispatches(logs, p.dispatches), p.table[id];
    var job := Job(id, row.version + 1, if row.status == Deleting then Destroy else Provision);
    var log := before[id] + [Recovered(job.command)];
    LastDispatch(logs, p.dispatches, job);
    assert LogFits(row, before[id]);
    AppendFits(row, before[id], q.table[id], Recovered(job.command));
    RowUpdateFits(p.table, before, id, q.table[id], log);
    DispatchesStillFit(logs, before, p.dispatches, job, log);
  }

  lemma DispatchesStillFit(logs: Logs, before: Logs, dispatches: seq<Job>, job: Job, log: seq<Entry>)
    requires LogsGrow(logs, before) && job.instance in before && log == before[job.instance] + [Recovered(job.command)]
    requires job.version == |before[job.instance]|
    requires forall i :: 0 <= i < |dispatches| ==> JobFits(before, dispatches[i])
    ensures LogsGrow(logs, before[job.instance := log])
    ensures forall i :: 0 <= i < |dispatches + [job]| ==> JobFits(before[job.instance := log], (dispatches + [job])[i])
  {
  }

  lemma RecoverOneFits(logs: Logs, p: Plan, id: InstanceId, now: Time, max: nat)
    requires PlanFits(logs, p) && Recoverable(p.table, id)
    ensures PlanFits(logs, RecoverOne(p, id, now, max))
  {
    if id in p.table && (p.table[id].status == Failed ==> p.table[id].retryable) {
      if p.table[id].recoveries < max {
        DispatchFits(logs, p, id, now);
      } else {
        var log := LogDispatches(logs, p.dispatches);
        assert LogFits(p.table[id], log[id]);
        RowUpdateFits(p.table, log, id, RecoverOne(p, id, now, max).table[id], log[id]);
        assert log[id := log[id]] == log;
      }
    }
  }

  predicate AllRecoverable(t: Table, ids: seq<InstanceId>) {
    forall i :: 0 <= i < |ids| ==> Recoverable(t, ids[i])
  }

  lemma {:induction false} RecoverAllRecoverable(p: Plan, ids: seq<InstanceId>, now: Time, max: nat,
                                                 id: InstanceId)
    requires Recoverable(p.table, id)
    ensures Recoverable(RecoverAll(p, ids, now, max).table, id)
  {
    if ids != [] {
      RecoverAllRecoverable(p, ids[..|ids| - 1], now, max, id);
    }
  }

  lemma AllRecoverablePrefix(t: Table, ids: seq<InstanceId>)
    requires ids != [] && AllRecoverable(t, ids)
    ensures AllRecoverable(t, ids[..|ids| - 1]) && Recoverable(t, ids[|ids| - 1])
  {
    var init := ids[..|ids| - 1];
    forall i | 0 <= i < |init|
      ensures Recoverable(t, init[i])
    {
      assert init[i] == ids[i];
    }
  }

  lemma NoDispatchFits(w: World)
    requires Consistent(w)
    ensures PlanFits(w.log, Plan(w.table, [], 0))
  {
  }

  lemma {:induction false} RecoverAllFits(w: World, ids: seq<InstanceId>, now: Time, max: nat)
    requires Consistent(w) && AllRecoverable(w.table, ids)
    ensures PlanFits(w.log, RecoverAll(Plan(w.table, [], 0), ids, now, max))
    decreases |ids|
  {
    var start := Plan(w.table, [], 0);
    if ids == [] {
      NoDispatchFits(w);
    } else {
      var n := |ids| - 1;
      AllRecoverablePrefix(w.table, ids);
      RecoverAllFits(w, ids[..n], now, max);
      RecoverAllRecoverable(start, ids[..n], now, max, ids[n]);
      RecoverOneFits(w.log, RecoverAll(start, ids[..n], now, max), ids[n], now, max);
    }
  }

  lemma {:induction false} CandidatesRecoverable(t: Table, order: seq<InstanceId>, staleBefore: Time)
    ensures AllRecoverable(t, Candidates(t, order, staleBefore))
  {
    if order != [] {
      CandidatesRecoverable(t, order[..|order| - 1], staleBefore);
    }
  }

  lemma JobsStillFit(jobs: set<Job>, logs: Logs, logs': Logs)
    requires JobsFit(jobs, logs) && LogsGrow(logs, logs')
    ensures JobsFit(jobs, logs')
  {
  }

  lemma RecoverStepKeeps(w: World, order: seq<InstanceId>, staleBefore: Time, now: Time, max: nat, limit: nat)
    requires Consistent(w)
    ensures Consistent(Apply(w, RecoverStep(order, staleBefore, now, max, limit)))
    ensures LogsGrow(w.log, Apply(w, RecoverStep(order, staleBefore, now, max, limit)).log)
  {
    var next := Apply(w, RecoverStep(order, staleBefore, now, max, limit));
    var candidates := Candidates(w.table, order, staleBefore);
    var ids := TakeFirst(candidates, limit);
    var plan := RecoverAll(Plan(w.table, [], 0), ids, now, max);
    CandidatesRecoverable(w.table, order, staleBefore);
    RecoverAllFits(w, ids, now, max);
    JobsStillFit(w.jobs, w.log, next.log);
    forall job | job in next.jobs
      ensures JobFits(next.log, job)
    {
      if job !in w.jobs {
        var i :| 0 <= i < |plan.dispatches| && plan.dispatches[i] == job;
      }
    }
  }

  lemma DestroyKeeps(w: World, id: InstanceId, now: Time)
    requires Consistent(w)
    ensures Consistent(Apply(w, DestroyAction(id, now)))
    ensures LogsGrow(w.log, Apply(w, DestroyAction(id, now)).log)
  {
    var next := Apply(w, DestroyAction(id, now));
    if id in w.table {
      var row := w.table[id];
      assert LogFits(row, w.log[id]);
      if row.status in {Ready, Active, Suspended, Failed} {
        RequestFits(w, id, now);
      } else {
        assert next.table == w.table;
      }
    }
  }

  lemma RequestFits(w: World, id: InstanceId, now: Time)
    requires Consistent(w) && id in w.table && w.table[id].status in {Ready, Active, Suspended, Failed}
    ensures var next := RequestDestroy(w.table, id, now).1.row;
      var logs := w.log[id := w.log[id] + [DestroyRequested]];
      && RequestDestroy(w.table, id, now).0 == w.table[id := next] != w.table
      && RowsFit(w.table[id := next], logs)
      && LogsGrow(w.log, logs)
      && JobsFit(w.jobs + {Job(id, next.version, Destroy)}, logs)
  {
    var row, next := w.table[id], RequestDestroy(w.table, id, now).1.row;
    var log := w.log[id] + [DestroyRequested];
    assert LogFits(row, w.log[id]);
    AppendFits(row, w.log[id], next, DestroyRequested);
    RowUpdateFits(w.table, w.log, id, next, log);
    assert w.table[id := next][id] != w.table[id];
    JobsStillFit(w.jobs, w.log, w.log[id := log]);
  }

  lemma WorkerKeeps(w: World, i: nat, o: Outside, healthAttempts: nat)
    requires Consistent(w)
    ensures Consistent(Apply(w, WorkerStep(i, o, healthAttempts)))
  {
    if i < |w.workers| {
      var worker := w.workers[i];
      assert JobFits(w.log, worker.job);
      assert LogFits(w.table[worker.job.instance], w.log[worker.job.instance]);
      AdvanceMoves(w.table, worker.job, worker.phase, o, healthAttempts);
      AdvanceKeepsFit(w.table, w.log[worker.job.instance], worker.job, worker.phase, o, healthAttempts);
    }
  }

  lemma ClaimKeeps(w: World, job: Job, now: Time)
    requires Consistent(w)
    ensures Consistent(Apply(w, ClaimStep(job, now)))
  {
    if job in w.jobs {
      assert JobFits(w.log, job);
      assert LogFits(w.table[job.instance], w.log[job.instance]);
      ClaimKeepsFit(w.table, w.log[job.instance], job, now);
    }
  }

  lemma MarkKeeps(w: World, job: Job, retryable: bool, now: Time)
    requires Consistent(w)
    ensures Consistent(Apply(w, MarkFailed(job, retryable, now)))
  {
  }

  lemma CreateKeeps(w: World, id: InstanceId, artifact: bool, region: bool, now: Time)
    requires Consistent(w)
    ensures Consistent(Apply(w, CreateInstance(id, artifact, region, now)))
    ensures LogsGrow(w.log, Apply(w, CreateInstance(id, artifact, region, now)).log)
  {
    if id !in w.table {
      var next := Apply(w, CreateInstance(id, artifact, region, now));
      assert LogFits(next.table[id], [CreatedBy]);
      JobsStillFit(w.jobs, w.log, next.log);
    }
  }

  lemma StepKeepsConsistent(w: World, step: Step)
    requires Consistent(w)
    ensures Consistent(Apply(w, step))
    ensures LogsGrow(w.log, Apply(w, step).log)
  {
    match step
    case CreateInstance(id, artifact, region, now) => CreateKeeps(w, id, artifact, region, now);
    case DestroyAction(id, now) => DestroyKeeps(w, id, now);
    case ClaimStep(job, now) => ClaimKeeps(w, job, now);
    case WorkerStep(i, o, healthAttempts) => WorkerKeeps(w, i, o, healthAttempts);
    case RecoverStep(order, staleBefore, now, max, limit) => RecoverStepKeeps(w, order, staleBefore, now, max, limit);
    case MarkFailed(job, retryable, now) => MarkKeeps(w, job, retryable, now);
    case MissingTwice(id, seen) =>
      if id in w.table {
        assert LogFits(w.table[id], w.log[id]);
      }
  }
}
