/** Which way an instance's status moves, which deliveries are stale, and which jobs can be claimed. */
module DatabaseExits {
  import opened Wrappers
  import opened DatabaseLifecycle
  import opened DatabaseProcessor
  import opened DatabaseHistory
  import opened DatabaseLaws

  // ---- The edges between statuses ----

  /** A provision job of the row's own version is delivered, and its artifact and region are there. */
  predicate ClaimsProvision(w: World, step: Step, id: InstanceId)
    requires id in w.table
  {
    && step.ClaimStep? && step.job.instance == id && step.job.command.Provision?
    && step.job.version == w.table[id].version && w.table[id].artifact && w.table[id].region
  }

  /** A worker of the row's own version that has reached this phase makes its step. */
  predicate WorkerAt(w: World, step: Step, id: InstanceId)
    requires id in w.table
  {
    && step.WorkerStep? && step.worker < |w.workers|
    && w.workers[step.worker].job.instance == id && w.workers[step.worker].job.version == w.table[id].version
  }

  /** Every way into a status; any row may fail. */
  predicate Edge(w: World, step: Step, id: InstanceId, before: Status, after: Status)
    requires id in w.table
  {
    match after
    case Provisioning => before in {Queued, HealthCheck, Migrating, Failed} && ClaimsProvision(w, step, id)
    case HealthCheck => before == Provisioning && WorkerAt(w, step, id) && w.workers[step.worker].phase.Creating?
    case Migrating => before == HealthCheck && WorkerAt(w, step, id) && w.workers[step.worker].phase.SawHealthy?
    case Ready => before == Migrating && WorkerAt(w, step, id) && w.workers[step.worker].phase.Applying?
    case Failed => true
    case Deleting => RequestsDestroy(w, step, id)
    case Deleted => before == Deleting && WorkerAt(w, step, id) && w.workers[step.worker].phase.Tearing?
    case _ => false
  }

  lemma AdvanceEdge(w: World, i: nat, o: Outside, healthAttempts: nat)
    requires i < |w.workers| && w.workers[i].job.instance in w.table
    ensures var job := w.workers[i].job;
      var t := Advance(w.table, job, w.workers[i].phase, o, healthAttempts).0;
      job.instance in t
      && (t[job.instance].status != w.table[job.instance].status ==>
            Edge(w, WorkerStep(i, o, healthAttempts), job.instance, w.table[job.instance].status, t[job.instance].status))
  {
  }

  lemma ClaimEdge(w: World, job: Job, now: Time)
    requires Consistent(w) && job in w.jobs
    ensures var t := Claim(w.table, job, now).0;
      job.instance in w.table && job.instance in t
      && (t[job.instance].status != w.table[job.instance].status ==>
            Edge(w, ClaimStep(job, now), job.instance, w.table[job.instance].status, t[job.instance].status))
  {
    assert JobFits(w.log, job);
    assert LogFits(w.table[job.instance], w.log[job.instance]);
  }

  lemma {:induction false} RecoveryKeepsStatus(start: Table, ids: seq<InstanceId>, now: Time, max: nat, id: InstanceId)
    requires id in start
    ensures var q := RecoverAll(Plan(start, [], 0), ids, now, max);
      && id in q.table && q.table[id].status in {start[id].status, Failed}
      && q.table[id].external == start[id].external
  {
    if ids != [] {
      RecoveryKeepsStatus(start, ids[..|ids| - 1], now, max, id);
    }
  }

  lemma StepMovesAlongEdge(w: World, step: Step, id: InstanceId)
    requires Consistent(w) && id in w.table
    ensures id in Apply(w, step).table
    ensures Apply(w, step).table[id].status != w.table[id].status ==>
      Edge(w, step, id, w.table[id].status, Apply(w, step).table[id].status)
  {
    match step
    case ClaimStep(job, now) =>
      if job in w.jobs {
        ClaimEdge(w, job, now);
      }
    case WorkerStep(i, o, healthAttempts) =>
      if i < |w.workers| {
        assert JobFits(w.log, w.workers[i].job);
        AdvanceMoves(w.table, w.workers[i].job, w.workers[i].phase, o, healthAttempts);
        AdvanceEdge(w, i, o, healthAttempts);
      }
    case RecoverStep(order, staleBefore, now, max, limit) =>
      RecoveryKeepsStatus(w.table, TakeFirst(Candidates(w.table, order, staleBefore), limit), now, max, id);
    case _ =>
  }

  /** In every history a status changes only along these edges, each by its own kind of step. */
  lemma StatusMovesAlongEdges(steps: seq<Step>, step: Step, id: InstanceId)
    requires id in Run(steps).table
    ensures var before, next := Run(steps).table[id], Apply(Run(steps), step).table;
      && id in next
      && (next[id].status != before.status ==> Edge(Run(steps), step, id, before.status, next[id].status))
  {
    HistoryConsistent(steps);
    StepMovesAlongEdge(Run(steps), step, id);
  }

  // ---- Serving and deleted rows ----

  lemma UnmovedVersion(steps: seq<Step>, step: Step, id: InstanceId)
    requires id in Run(steps).table && Run(steps).table[id].status in {Ready, Deleted}
    ensures CountFor(DispatchesIn(Run(steps), step), id) == 0
  {
    if step.RecoverStep? {
      var w := Run(steps);
      var ids := TakeFirst(Candidates(w.table, step.order, step.staleBefore), step.limit);
      NotListed(w.table, step.order, step.staleBefore, id);
      NotDispatched(Plan(w.table, [], 0), ids, step.now, step.max, id);
    }
  }

  lemma {:induction false} NotListed(t: Table, order: seq<InstanceId>, staleBefore: Time, id: InstanceId)
    requires id in t && t[id].status in {Ready, Deleted}
    ensures id !in Candidates(t, order, staleBefore)
  {
    if order != [] {
      NotListed(t, order[..|order| - 1], staleBefore, id);
    }
  }

  lemma {:induction false} NotDispatched(p: Plan, ids: seq<InstanceId>, now: Time, max: nat, id: InstanceId)
    requires id !in ids && CountFor(p.dispatches, id) == 0
    ensures var q := RecoverAll(p, ids, now, max);
      && CountFor(q.dispatches, id) == 0
      && (id in p.table ==> id in q.table && q.table[id] == p.table[id])
  {
    if ids != [] {
      NotDispatched(p, ids[..|ids| - 1], now, max, id);
    }
  }

  /**
   * A READY instance keeps serving: the next step leaves it READY at its version, or fails it at its
   * version, or is an accepted destroy request one version up. No delivery provisions it again.
   */
  lemma ReadyExits(steps: seq<Step>, step: Step, id: InstanceId)
    requires id in Run(steps).table && Run(steps).table[id].status == Ready
    ensures var row := Run(steps).table[id];
      id in Apply(Run(steps), step).table
      && var row' := Apply(Run(steps), step).table[id];
      || (row'.status == Ready && row'.version == row.version)
      || (row'.status == Failed && row'.version == row.version)
      || (row'.status == Deleting && row'.version == row.version + 1 && RequestsDestroy(Run(steps), step, id))
  {
    StatusMovesAlongEdges(steps, step, id);
    VersionRisesByOne(steps, step, id);
    UnmovedVersion(steps, step, id);
  }

  /** A DELETED instance stays DELETED at its version; only a failure recorded for that version can mark it. */
  lemma DeletedExits(steps: seq<Step>, step: Step, id: InstanceId)
    requires id in Run(steps).table && Run(steps).table[id].status == Deleted
    ensures var row := Run(steps).table[id];
      id in Apply(Run(steps), step).table
      && var row' := Apply(Run(steps), step).table[id];
      row'.version == row.version && row'.status in {Deleted, Failed}
  {
    StatusMovesAlongEdges(steps, step, id);
    VersionRisesByOne(steps, step, id);
    UnmovedVersion(steps, step, id);
  }

  // ---- Stale deliveries ----

  /** The job has been done, or is not what the instance waits for. */
  predicate Settled(row: Row, job: Job) {
    || row.version != job.version
    || (job.command.Provision? && row.status in {Ready, Deleting, Deleted})
    || (job.command.Destroy? && row.status != Deleting)
  }

  /** A settled job that is delivered again changes no row, and its worker does nothing more. */
  lemma SettledJobIsStale(steps: seq<Step>, job: Job, now: Time)
    requires job in Run(steps).jobs && job.instance in Run(steps).table
    requires Settled(Run(steps).table[job.instance], job)
    ensures var w, next := Run(steps), Apply(Run(steps), ClaimStep(job, now));
      next.table == w.table && |next.workers| == |w.workers| + 1 && next.workers[|w.workers|].phase.Skipped?
  {
  }

  // ---- Jobs that can be claimed ----

  predicate Filled(row: Row) {
    row.artifact && row.region
  }

  /** Delivering the job now starts a worker on it: one that creates, or one that tears down what the row holds. */
  predicate IsTaken(w: World, job: Job, now: Time) {
    var next := Apply(w, ClaimStep(job, now));
    && job.instance in w.table
    && |next.workers| == |w.workers| + 1 && next.workers[|w.workers|].job == job
    && next.workers[|w.workers|].phase
       == if job.command.Destroy? then Tearing(w.table[job.instance].external) else Creating
  }

  /** The job of a new instance is taken as soon as it is delivered. */
  lemma CreatedJobIsTaken(steps: seq<Step>, id: InstanceId, now: Time, later: Time)
    requires id !in Run(steps).table
    ensures IsTaken(Apply(Run(steps), CreateInstance(id, true, true, now)), Job(id, 0, Provision), later)
  {
  }

  /** The job of an accepted destroy request is taken as soon as it is delivered. */
  lemma RequestedDestroyIsTaken(steps: seq<Step>, id: InstanceId, now: Time, later: Time)
    requires RequestsDestroy(Run(steps), DestroyAction(id, now), id) && Filled(Run(steps).table[id])
    ensures IsTaken(Apply(Run(steps), DestroyAction(id, now)), Job(id, Run(steps).table[id].version + 1, Destroy), later)
  {
    HistoryConsistent(steps);
    assert id in Run(steps).log;
  }

  /** Each dispatched job fits the row it leaves behind. */
  predicate DispatchCurrent(t: Table, job: Job) {
    && job.instance in t && t[job.instance].version == job.version
    && (job.command.Destroy? <==> t[job.instance].status == Deleting)
    && t[job.instance].status !in {Ready, Active, Deleted}
  }

  lemma {:induction false} DispatchesAreCurrent(start: Table, ids: seq<InstanceId>, now: Time, max: nat)
    requires Distinct(ids) && forall i :: 0 <= i < |ids| ==> Recoverable(start, ids[i])
    ensures var q := RecoverAll(Plan(start, [], 0), ids, now, max);
      && (forall i :: 0 <= i < |q.dispatches| ==> q.dispatches[i].instance in ids && DispatchCurrent(q.table, q.dispatches[i]))
      && (forall id :: id in start && id !in ids ==> id in q.table && q.table[id] == start[id])
      && q.table.Keys == start.Keys
  {
    if ids != [] {
      var n := |ids| - 1;
      var p := RecoverAll(Plan(start, [], 0), ids[..n], now, max);
      assert forall i :: 0 <= i < n ==> Recoverable(start, ids[..n][i]);
      DispatchesAreCurrent(start, ids[..n], now, max);
      assert Recoverable(start, ids[n]) && ids[n] !in ids[..n];
      OneDispatchIsCurrent(start, p, ids[..n], ids[n], now, max);
      assert ids[..n] + [ids[n]] == ids;
    }
  }

  lemma OneDispatchIsCurrent(start: Table, p: Plan, before: seq<InstanceId>, id: InstanceId, now: Time, max: nat)
    requires id !in before && Recoverable(start, id) && p.table.Keys == start.Keys
    requires id in start ==> p.table[id] == start[id]
    requires forall i :: 0 <= i < |p.dispatches| ==>
      p.dispatches[i].instance in before && DispatchCurrent(p.table, p.dispatches[i])
    ensures var q := RecoverOne(p, id, now, max);
      && q.table.Keys == start.Keys
      && (forall other :: other in start && other != id ==> q.table[other] == p.table[other])
      && (forall i :: 0 <= i < |q.dispatches| ==>
            q.dispatches[i].instance in before + [id] && DispatchCurrent(q.table, q.dispatches[i]))
  {
  }

  /** Whatever a recovery sweep hands to the queue is taken when it is delivered, and as what it was: provision or destroy. */
  lemma DispatchedJobIsTaken(steps: seq<Step>, step: Step, job: Job, later: Time)
    requires step.RecoverStep? && Distinct(step.order) && job in DispatchesIn(Run(steps), step)
    requires job.instance in Run(steps).table && Filled(Run(steps).table[job.instance])
    ensures IsTaken(Apply(Run(steps), step), job, later)
    ensures job.command.Destroy? <==> Run(steps).table[job.instance].status == Deleting
  {
    var w := Run(steps);
    var candidates := Candidates(w.table, step.order, step.staleBefore);
    var ids := TakeFirst(candidates, step.limit);
    CandidatesAreDistinct(w.table, step.order, step.staleBefore);
    CandidatesRecoverable(w.table, step.order, step.staleBefore);
    assert Distinct(ids) && forall i :: 0 <= i < |ids| ==> ids[i] == candidates[i];
    DispatchesAreCurrent(w.table, ids, step.now, step.max);
    RecoveryKeepsStatus(w.table, ids, step.now, step.max, job.instance);
    RecoveryKeepsColumns(w.table, ids, step.now, step.max, job.instance);
    RecoveryFailsNoDispatch(w.table, ids, step.now, step.max, job);
  }

  lemma {:induction false} RecoveryKeepsColumns(start: Table, ids: seq<InstanceId>, now: Time, max: nat, id: InstanceId)
    requires id in start
    ensures var t := RecoverAll(Plan(start, [], 0), ids, now, max).table;
      id in t && t[id].artifact == start[id].artifact && t[id].region == start[id].region
  {
    if ids != [] {
      RecoveryKeepsColumns(start, ids[..|ids| - 1], now, max, id);
    }
  }

  /** A dispatched row keeps its status. */
  lemma {:induction false} RecoveryFailsNoDispatch(start: Table, ids: seq<InstanceId>, now: Time, max: nat, job: Job)
    requires Distinct(ids) && job.instance in start && forall i :: 0 <= i < |ids| ==> Recoverable(start, ids[i])
    requires job in RecoverAll(Plan(start, [], 0), ids, now, max).dispatches
    ensures job.instance in RecoverAll(Plan(start, [], 0), ids, now, max).table
    ensures RecoverAll(Plan(start, [], 0), ids, now, max).table[job.instance].status == start[job.instance].status
    decreases |ids|
  {
    if ids != [] {
      var n := |ids| - 1;
      var p := RecoverAll(Plan(start, [], 0), ids[..n], now, max);
      assert forall i :: 0 <= i < n ==> Recoverable(start, ids[..n][i]);
      DispatchesAreCurrent(start, ids[..n], now, max);
      if job in p.dispatches {
        RecoveryFailsNoDispatch(start, ids[..n], now, max, job);
        assert job.instance in ids[..n];
      }
    }
  }

  // ---- Tearing down ----

  /** While its version stands, a worker that tears down has in hand the resource the row holds. */
  predicate TearsOwn(t: Table, worker: Worker) {
    worker.phase.Tearing? && Owns(t, worker.job) ==> worker.phase.external == t[worker.job.instance].external
  }

  predicate AllTearOwn(w: World) {
    forall i :: 0 <= i < |w.workers| ==> TearsOwn(w.table, w.workers[i])
  }

  /** No resource is recorded at a destroy version. */
  lemma DestroyVersionKeepsResource(w: World, step: Step, id: InstanceId)
    requires Consistent(w) && id in w.table
    requires CommandOf(w.log[id][w.table[id].version]).Destroy?
    ensures id in Apply(w, step).table && Apply(w, step).table[id].external == w.table[id].external
  {
    assert LogFits(w.table[id], w.log[id]);
    match step
    case RecoverStep(order, staleBefore, now, max, limit) =>
      RecoveryKeepsStatus(w.table, TakeFirst(Candidates(w.table, order, staleBefore), limit), now, max, id);
    case WorkerStep(i, o, healthAttempts) =>
      if i < |w.workers| {
        var worker := w.workers[i];
        AdvanceMoves(w.table, worker.job, worker.phase, o, healthAttempts);
        AdvanceKeepsResource(w.table, worker.job, worker.phase, o, healthAttempts, id);
      }
    case _ =>
  }

  lemma AdvanceKeepsResource(t: Table, job: Job, phase: Phase, o: Outside, healthAttempts: nat, id: InstanceId)
    requires id in t && t[id].status != Provisioning
    ensures id in Advance(t, job, phase, o, healthAttempts).0
    ensures Advance(t, job, phase, o, healthAttempts).0[id].external == t[id].external
  {
  }

  lemma StepKeepsTearing(w: World, step: Step)
    requires Consistent(w) && AllTearOwn(w)
    ensures AllTearOwn(Apply(w, step))
  {
    var next := Apply(w, step);
    StepKeepsConsistent(w, step);
    forall i | 0 <= i < |next.workers|
      ensures TearsOwn(next.table, next.workers[i])
    {
      if i < |w.workers| {
        WorkerKeepsTearing(w, step, i);
      }
    }
  }

  lemma WorkerKeepsTearing(w: World, step: Step, i: nat)
    requires Consistent(w) && AllTearOwn(w) && i < |w.workers|
    ensures i < |Apply(w, step).workers| && TearsOwn(Apply(w, step).table, Apply(w, step).workers[i])
  {
    var worker, next := w.workers[i], Apply(w, step);
    var id := worker.job.instance;
    assert JobFits(w.log, worker.job) && TearsOwn(w.table, worker);
    assert LogFits(w.table[id], w.log[id]);
    StepVersions(w, step, id);
    if next.workers[i].phase.Tearing? && Owns(next.table, worker.job) {
      assert worker.phase == next.workers[i].phase;
      DestroyVersionKeepsResource(w, step, id);
    }
  }

  lemma StepVersions(w: World, step: Step, id: InstanceId)
    requires Consistent(w) && id in w.table
    ensures id in Apply(w, step).table && Apply(w, step).table[id].version >= w.table[id].version
  {
    StepKeepsConsistent(w, step);
    assert LogFits(w.table[id], w.log[id]);
    assert LogFits(Apply(w, step).table[id], Apply(w, step).log[id]);
  }

  lemma {:induction false} TearingForever(steps: seq<Step>)
    ensures AllTearOwn(Run(steps))
  {
    if steps != [] {
      TearingForever(steps[..|steps| - 1]);
      HistoryConsistent(steps[..|steps| - 1]);
      StepKeepsTearing(Run(steps[..|steps| - 1]), steps[|steps| - 1]);
    }
  }

  /** An instance becomes DELETED only by a worker whose provider has just destroyed the very resource it held, if any. */
  lemma DeletedMeansDestroyed(steps: seq<Step>, step: Step, id: InstanceId)
    requires id in Run(steps).table && Run(steps).table[id].status != Deleted
    requires id in Apply(Run(steps), step).table && Apply(Run(steps), step).table[id].status == Deleted
    ensures var w := Run(steps);
      && WorkerAt(w, step, id)
      && w.workers[step.worker].phase == Tearing(w.table[id].external)
      && (w.table[id].external.Some? ==> step.outside.destroy.Ok?)
  {
    StatusMovesAlongEdges(steps, step, id);
    TearingForever(steps);
    assert TearsOwn(Run(steps).table, Run(steps).workers[step.worker]);
  }
}
