/** What every history of the instance table keeps. */
module DatabaseLaws {
  import opened Wrappers
  import opened DatabaseLifecycle
  import opened DatabaseProcessor
  import opened DatabaseHistory

  lemma {:induction false} HistoryConsistent(steps: seq<Step>)
    ensures Consistent(Run(steps))
  {
    if steps != [] {
      HistoryConsistent(steps[..|steps| - 1]);
      StepKeepsConsistent(Run(steps[..|steps| - 1]), steps[|steps| - 1]);
    }
  }

  lemma {:induction false} LogNeverRewritten(steps: seq<Step>, k: nat)
    requires k <= |steps|
    ensures LogsGrow(Run(steps[..k]).log, Run(steps).log)
    decreases |steps|
  {
    var n := |steps|;
    if k == n {
      assert steps[..k] == steps;
    } else {
      assert steps[..n - 1][..k] == steps[..k];
      LogNeverRewritten(steps[..n - 1], k);
      HistoryConsistent(steps[..n - 1]);
      StepKeepsConsistent(Run(steps[..n - 1]), steps[n - 1]);
      GrowthComposes(Run(steps[..k]).log, Run(steps[..n - 1]).log, Run(steps).log);
    }
  }

  lemma GrowthComposes(a: Logs, b: Logs, c: Logs)
    requires LogsGrow(a, b) && LogsGrow(b, c)
    ensures LogsGrow(a, c)
  {
  }

  lemma VersionIsLogged(steps: seq<Step>, id: InstanceId)
    requires id in Run(steps).table || id in Run(steps).log
    ensures id in Run(steps).log && id in Run(steps).table
    ensures Run(steps).table[id].version + 1 == |Run(steps).log[id]|
  {
    HistoryConsistent(steps);
    assert id in Run(steps).table;
    assert LogFits(Run(steps).table[id], Run(steps).log[id]);
  }

  /**
   * The operation version never falls, what produced each version is never rewritten, and there is
   * one log entry for every version.
   */
  lemma VersionsNeverFall(steps: seq<Step>, k: nat, id: InstanceId)
    requires k <= |steps| && id in Run(steps[..k]).table
    ensures id in Run(steps).table && id in Run(steps[..k]).log && id in Run(steps).log
    ensures Run(steps[..k]).table[id].version <= Run(steps).table[id].version
    ensures Run(steps[..k]).log[id] <= Run(steps).log[id]
    ensures Run(steps).table[id].version + 1 == |Run(steps).log[id]|
  {
    VersionIsLogged(steps[..k], id);
    LogNeverRewritten(steps, k);
    VersionIsLogged(steps, id);
  }

  /** Every transaction issued for a job: its claim, its worker's steps, its failure mark. */
  predicate IssuedFor(w: World, step: Step, job: Job) {
    match step
    case ClaimStep(j, _) => j == job
    case MarkFailed(j, _, _) => j == job
    case WorkerStep(i, _, _) => i < |w.workers| && w.workers[i].job == job
    case _ => false
  }

  lemma FencedStep(w: World, job: Job, step: Step)
    requires job.instance in w.table && job.version < w.table[job.instance].version
    requires IssuedFor(w, step, job)
    ensures Apply(w, step).table == w.table
  {
  }

  /** Once an instance has moved past a job's version, no transaction for that job changes any row again. */
  lemma OldWorkersAreFenced(steps: seq<Step>, k: nat, job: Job, step: Step)
    requires k <= |steps| && job.instance in Run(steps[..k]).table
    requires job.version < Run(steps[..k]).table[job.instance].version
    requires IssuedFor(Run(steps), step, job)
    ensures Apply(Run(steps), step).table == Run(steps).table
  {
    VersionsNeverFall(steps, k, job.instance);
    FencedStep(Run(steps), job, step);
  }

  // ---- Recoveries ----

  function CountFor(dispatches: seq<Job>, id: InstanceId): nat {
    if dispatches == [] then 0
    else CountFor(dispatches[..|dispatches| - 1], id) + if dispatches[|dispatches| - 1].instance == id then 1 else 0
  }

  function DispatchesIn(w: World, step: Step): seq<Job> {
    match step
    case RecoverStep(order, staleBefore, now, max, limit) =>
      RecoverStale(w.table, order, staleBefore, now, max, limit).dispatches
    case _ => []
  }

  /** How many recoveries of an instance a history hands to the queue. */
  function RecoveriesDispatched(steps: seq<Step>, id: InstanceId): nat {
    if steps == [] then 0
    else
      RecoveriesDispatched(steps[..|steps| - 1], id)
      + CountFor(DispatchesIn(Run(steps[..|steps| - 1]), steps[|steps| - 1]), id)
  }

  predicate MaxAtMost(steps: seq<Step>, bound: nat) {
    forall i :: 0 <= i < |steps| && steps[i].RecoverStep? ==> steps[i].max <= bound
  }

  function RecoveriesOf(t: Table, id: InstanceId): nat {
    if id in t then t[id].recoveries else 0
  }

  lemma {:induction false} PlanCounts(start: Table, ids: seq<InstanceId>, now: Time, max: nat, id: InstanceId,
                                      bound: nat)
    requires max <= bound && RecoveriesOf(start, id) <= bound
    ensures var q := RecoverAll(Plan(start, [], 0), ids, now, max);
      && RecoveriesOf(q.table, id) == RecoveriesOf(start, id) + CountFor(q.dispatches, id)
      && RecoveriesOf(q.table, id) <= bound
  {
    if ids != [] {
      var p := RecoverAll(Plan(start, [], 0), ids[..|ids| - 1], now, max);
      PlanCounts(start, ids[..|ids| - 1], now, max, id, bound);
      OneCounts(p, ids[|ids| - 1], now, max, id, bound);
    }
  }

  lemma OneCounts(p: Plan, candidate: InstanceId, now: Time, max: nat, id: InstanceId, bound: nat)
    requires max <= bound && RecoveriesOf(p.table, id) <= bound
    ensures var q := RecoverOne(p, candidate, now, max);
      && RecoveriesOf(q.table, id) - RecoveriesOf(p.table, id) == CountFor(q.dispatches, id) - CountFor(p.dispatches, id)
      && RecoveriesOf(q.table, id) <= bound
  {
  }

  lemma OtherStepsDispatchNothing(w: World, step: Step, id: InstanceId)
    requires !step.RecoverStep?
    ensures RecoveriesOf(Apply(w, step).table, id) == RecoveriesOf(w.table, id)
  {
  }

  /**
   * Over a whole history, whatever destroy requests come in between, an instance is handed to the
   * queue for recovery exactly as often as its counter says, and never more than the largest
   * attempt limit any sweep used.
   */
  lemma {:induction false} RecoveriesAreBounded(steps: seq<Step>, bound: nat, id: InstanceId)
    requires MaxAtMost(steps, bound)
    ensures RecoveriesDispatched(steps, id) == RecoveriesOf(Run(steps).table, id) <= bound
  {
    if steps != [] {
      var n := |steps| - 1;
      RecoveriesAreBounded(steps[..n], bound, id);
      var w := Run(steps[..n]);
      if steps[n].RecoverStep? {
        var s := steps[n];
        var ids := TakeFirst(Candidates(w.table, s.order, s.staleBefore), s.limit);
        PlanCounts(w.table, ids, s.now, s.max, id, bound);
      } else {
        OtherStepsDispatchNothing(w, steps[n], id);
      }
    }
  }

  // ---- Versions rise by recoveries and destroy requests alone ----

  /** The step is a destroy request that is accepted and not merely repeated. */
  predicate RequestsDestroy(w: World, step: Step, id: InstanceId) {
    && step.DestroyAction? && step.id == id
    && id in w.table && w.table[id].status in {Ready, Active, Suspended, Failed}
  }

  lemma {:induction false} PlanVersions(start: Table, ids: seq<InstanceId>, now: Time, max: nat, id: InstanceId)
    requires id in start
    ensures var q := RecoverAll(Plan(start, [], 0), ids, now, max);
      id in q.table && q.table[id].version == start[id].version + CountFor(q.dispatches, id)
  {
    if ids != [] {
      PlanVersions(start, ids[..|ids| - 1], now, max, id);
      OneVersion(RecoverAll(Plan(start, [], 0), ids[..|ids| - 1], now, max), ids[|ids| - 1], now, max, id);
    }
  }

  lemma OneVersion(p: Plan, candidate: InstanceId, now: Time, max: nat, id: InstanceId)
    requires id in p.table
    ensures var q := RecoverOne(p, candidate, now, max);
      && id in q.table
      && q.table[id].version - p.table[id].version == CountFor(q.dispatches, id) - CountFor(p.dispatches, id)
  {
  }

  lemma {:induction false} AtMostOneDispatch(p: Plan, ids: seq<InstanceId>, now: Time, max: nat, id: InstanceId)
    requires Distinct(ids)
    ensures CountFor(RecoverAll(p, ids, now, max).dispatches, id) <= CountFor(p.dispatches, id) + if id in ids then 1 else 0
  {
    if ids != [] {
      AtMostOneDispatch(p, ids[..|ids| - 1], now, max, id);
    }
  }

  lemma OtherStepsKeepVersion(w: World, step: Step, id: InstanceId)
    requires Consistent(w) && id in w.table && !step.RecoverStep?
    ensures id in Apply(w, step).table
    ensures Apply(w, step).table[id].version == w.table[id].version + if RequestsDestroy(w, step, id) then 1 else 0
  {
    if step.WorkerStep? && step.worker < |w.workers| {
      var worker := w.workers[step.worker];
      AdvanceMoves(w.table, worker.job, worker.phase, step.outside, step.healthAttempts);
    }
  }

  /**
   * The version of an instance rises by one for its dispatch in a recovery sweep and by one for an
   * accepted destroy request, and no other step moves it; a sweep dispatches an instance at most once.
   */
  lemma VersionRisesByOne(steps: seq<Step>, step: Step, id: InstanceId)
    requires id in Run(steps).table
    ensures var w, next := Run(steps), Apply(Run(steps), step);
      && id in next.table
      && next.table[id].version
         == w.table[id].version + CountFor(DispatchesIn(w, step), id) + (if RequestsDestroy(w, step, id) then 1 else 0)
      && (step.RecoverStep? && Distinct(step.order) ==> CountFor(DispatchesIn(w, step), id) <= 1)
  {
    HistoryConsistent(steps);
    var w := Run(steps);
    if step.RecoverStep? {
      var candidates := Candidates(w.table, step.order, step.staleBefore);
      var ids := TakeFirst(candidates, step.limit);
      PlanVersions(w.table, ids, step.now, step.max, id);
      if Distinct(step.order) {
        CandidatesAreDistinct(w.table, step.order, step.staleBefore);
        AtMostOneDispatch(Plan(w.table, [], 0), ids, step.now, step.max, id);
      }
    } else {
      OtherStepsKeepVersion(w, step, id);
    }
  }

  // ---- Fresh versions ----

  /** Dispatches carry versions above the row's, each above the ones before it. */
  predicate DispatchesRise(start: Table, p: Plan) {
    && (forall i :: 0 <= i < |p.dispatches| ==>
          var job := p.dispatches[i];
          && job.instance in start && job.instance in p.table
          && start[job.instance].version < job.version <= p.table[job.instance].version)
    && (forall i, j :: 0 <= i < j < |p.dispatches| && p.dispatches[i].instance == p.dispatches[j].instance ==>
          p.dispatches[i].version < p.dispatches[j].version)
    && p.table.Keys == start.Keys
    && (forall id :: id in start ==> start[id].version <= p.table[id].version)
  }

  lemma OneDispatchRises(start: Table, p: Plan, candidate: InstanceId, now: Time, max: nat)
    requires DispatchesRise(start, p)
    ensures DispatchesRise(start, RecoverOne(p, candidate, now, max))
  {
  }

  lemma {:induction false} AllDispatchesRise(start: Table, ids: seq<InstanceId>, now: Time, max: nat)
    ensures DispatchesRise(start, RecoverAll(Plan(start, [], 0), ids, now, max))
  {
    if ids != [] {
      AllDispatchesRise(start, ids[..|ids| - 1], now, max);
      OneDispatchRises(start, RecoverAll(Plan(start, [], 0), ids[..|ids| - 1], now, max), ids[|ids| - 1], now, max);
    }
  }

  /** Every recovery is queued under a fresh version: above that of every job the instance ever had. */
  lemma RecoveriesAreFresh(steps: seq<Step>, step: Step, i: nat, earlier: Job)
    requires i < |DispatchesIn(Run(steps), step)|
    requires earlier.instance == DispatchesIn(Run(steps), step)[i].instance
    requires earlier in Run(steps).jobs || earlier in DispatchesIn(Run(steps), step)[..i]
    ensures earlier.version < DispatchesIn(Run(steps), step)[i].version
  {
    var w := Run(steps);
    var ids := TakeFirst(Candidates(w.table, step.order, step.staleBefore), step.limit);
    AllDispatchesRise(w.table, ids, step.now, step.max);
    if earlier in w.jobs {
      HistoryConsistent(steps);
      assert JobFits(w.log, earlier);
      assert LogFits(w.table[earlier.instance], w.log[earlier.instance]);
    }
  }

  // ---- The version as an account ----

  function CountRequests(log: seq<Entry>): nat {
    if log == [] then 0
    else CountRequests(log[..|log| - 1]) + if log[|log| - 1].DestroyRequested? then 1 else 0
  }

  predicate CreatedOnce(log: seq<Entry>) {
    |log| > 0 && log[0].CreatedBy? && forall i :: 0 < i < |log| ==> !log[i].CreatedBy?
  }

  lemma {:induction false} LogSplits(log: seq<Entry>)
    requires CreatedOnce(log)
    ensures |log| == 1 + CountRecoveries(log) + CountRequests(log)
  {
    if |log| > 1 {
      LogSplits(log[..|log| - 1]);
    } else {
      assert log[..0] == [];
    }
  }

  lemma {:induction false} NeverCreatedAgain(steps: seq<Step>, id: InstanceId)
    requires id in Run(steps).log
    ensures CreatedOnce(Run(steps).log[id])
  {
    if steps != [] {
      var w := Run(steps[..|steps| - 1]);
      HistoryConsistent(steps[..|steps| - 1]);
      var step := steps[|steps| - 1];
      if id in w.log {
        NeverCreatedAgain(steps[..|steps| - 1], id);
        if step.RecoverStep? {
          DispatchesNeverCreate(w.log, DispatchesIn(w, step), id);
        }
      } else if step.RecoverStep? {
        DispatchesKeepKeys(w.log, DispatchesIn(w, step));
      }
    }
  }

  lemma {:induction false} DispatchesKeepKeys(logs: Logs, dispatches: seq<Job>)
    ensures LogDispatches(logs, dispatches).Keys == logs.Keys
  {
    if dispatches != [] {
      DispatchesKeepKeys(logs, dispatches[..|dispatches| - 1]);
    }
  }

  lemma {:induction false} DispatchesNeverCreate(logs: Logs, dispatches: seq<Job>, id: InstanceId)
    requires id in logs && CreatedOnce(logs[id])
    ensures id in LogDispatches(logs, dispatches) && CreatedOnce(LogDispatches(logs, dispatches)[id])
  {
    if dispatches != [] {
      DispatchesNeverCreate(logs, dispatches[..|dispatches| - 1], id);
    }
  }

  /** The version is an exact account: one for every recovery and one for every accepted destroy request. */
  lemma VersionIsAnAccount(steps: seq<Step>, id: InstanceId)
    requires id in Run(steps).table
    ensures id in Run(steps).log
    ensures Run(steps).table[id].version
      == Run(steps).table[id].recoveries + CountRequests(Run(steps).log[id])
  {
    HistoryConsistent(steps);
    assert LogFits(Run(steps).table[id], Run(steps).log[id]);
    NeverCreatedAgain(steps, id);
    LogSplits(Run(steps).log[id]);
  }

  // ---- Jobs ----

  /** Jobs that carry the same version carry the same command, namely that of what produced the version. */
  lemma VersionFixesCommand(steps: seq<Step>, a: Job, b: Job)
    requires a in Run(steps).jobs && b in Run(steps).jobs
    requires a.instance == b.instance && a.version == b.version
    ensures a == b
  {
    HistoryConsistent(steps);
    assert JobFits(Run(steps).log, a) && JobFits(Run(steps).log, b);
  }

  /** The destroy request a destroy command goes back to. */
  predicate RequestedAt(log: seq<Entry>, r: nat, v: nat) {
    r <= v < |log| && log[r].DestroyRequested? && forall i :: r < i <= v ==> log[i] == Recovered(Destroy)
  }

  lemma {:induction false} DestroyChain(log: seq<Entry>, v: nat) returns (r: nat)
    requires v < |log| && CommandOf(log[v]).Destroy?
    requires forall i :: 0 <= i < |log| ==> ChainAt(log, i)
    ensures RequestedAt(log, r, v)
    decreases v
  {
    if log[v].DestroyRequested? {
      r := v;
    } else {
      assert ChainAt(log, v);
      r := DestroyChain(log, v - 1);
    }
  }

  predicate WorkerDestroys(w: World, i: nat) {
    i < |w.workers| && w.workers[i].phase.Tearing?
  }

  /**
   * A worker tears a provider resource down only on the strength of a destroy request that was
   * accepted for this instance, with nothing but retries of that destroy in between.
   */
  lemma DestroyWasRequested(steps: seq<Step>, i: nat) returns (request: nat)
    requires WorkerDestroys(Run(steps), i)
    ensures Run(steps).workers[i].job.instance in Run(steps).log
    ensures RequestedAt(Run(steps).log[Run(steps).workers[i].job.instance], request, Run(steps).workers[i].job.version)
  {
    HistoryConsistent(steps);
    var w := Run(steps);
    var job := w.workers[i].job;
    assert JobFits(w.log, job);
    assert LogFits(w.table[job.instance], w.log[job.instance]);
    request := DestroyChain(w.log[job.instance], job.version);
  }

  // ---- READY ----

  predicate Delivered(w: World, id: InstanceId, version: nat) {
    exists i :: 0 <= i < |w.workers| && DeliveredBy(w.workers[i], id, version)
  }

  predicate DeliveredBy(worker: Worker, id: InstanceId, version: nat) {
    worker.job == Job(id, version, Provision) && worker.phase.Completed? && worker.healthy
  }

  predicate HealthSeen(worker: Worker) {
    (worker.phase.SawHealthy? || worker.phase.Applying? || (worker.phase.Completed? && worker.job.command.Provision?))
    ==> worker.healthy
  }

  predicate WorkersSawHealth(w: World) {
    forall i :: 0 <= i < |w.workers| ==> HealthSeen(w.workers[i])
  }

  lemma DeliveredStays(w: World, step: Step, id: InstanceId, version: nat)
    requires Delivered(w, id, version)
    ensures Delivered(Apply(w, step), id, version)
  {
    var i :| 0 <= i < |w.workers| && DeliveredBy(w.workers[i], id, version);
    assert DeliveredBy(Apply(w, step).workers[i], id, version);
  }

  /** Only the last transaction of a provisioning worker makes a row READY. */
  lemma OnlyMigrationMakesReady(w: World, step: Step, id: InstanceId)
    requires WorkersSawHealth(w) && Consistent(w)
    requires id in Apply(w, step).table && Apply(w, step).table[id].status == Ready
    ensures (id in w.table && w.table[id].status == Ready && w.table[id].version == Apply(w, step).table[id].version)
      || Delivered(Apply(w, step), id, Apply(w, step).table[id].version)
  {
    match step
    case RecoverStep(order, staleBefore, now, max, limit) =>
      var ids := TakeFirst(Candidates(w.table, order, staleBefore), limit);
      CandidatesRecoverable(w.table, order, staleBefore);
      ReadyRowsAreNotRecovered(Plan(w.table, [], 0), ids, now, max, id);
    case WorkerStep(i, o, healthAttempts) =>
      if i < |w.workers| {
        WorkerMakesReady(w, i, o, healthAttempts, id);
      }
    case _ =>
  }

  lemma AdvanceToReady(t: Table, job: Job, phase: Phase, o: Outside, healthAttempts: nat)
    requires job.instance in t && PhaseOf(job.command, phase)
    requires Advance(t, job, phase, o, healthAttempts).0[job.instance].status == Ready
    ensures Advance(t, job, phase, o, healthAttempts).0[job.instance].version == t[job.instance].version
    ensures t[job.instance].status == Ready
      || (phase.Applying? && Owns(t, job) && Advance(t, job, phase, o, healthAttempts).1.Completed?)
  {
  }

  lemma WorkerMakesReady(w: World, i: nat, o: Outside, healthAttempts: nat, id: InstanceId)
    requires WorkersSawHealth(w) && Consistent(w) && i < |w.workers|
    requires var next := Apply(w, WorkerStep(i, o, healthAttempts)); id in next.table && next.table[id].status == Ready
    ensures var next := Apply(w, WorkerStep(i, o, healthAttempts));
      (id in w.table && w.table[id].status == Ready && w.table[id].version == next.table[id].version)
      || Delivered(next, id, next.table[id].version)
  {
    var worker, next := w.workers[i], Apply(w, WorkerStep(i, o, healthAttempts));
    AdvanceMoves(w.table, worker.job, worker.phase, o, healthAttempts);
    if id == worker.job.instance && w.table[id].status != Ready {
      AdvanceToReady(w.table, worker.job, worker.phase, o, healthAttempts);
      assert HealthSeen(worker);
      assert DeliveredBy(next.workers[i], id, worker.job.version);
    }
  }

  lemma {:induction false} ReadyRowsAreNotRecovered(p: Plan, ids: seq<InstanceId>, now: Time, max: nat, id: InstanceId)
    requires AllRecoverable(p.table, ids)
    ensures var q := RecoverAll(p, ids, now, max);
      && q.table.Keys == p.table.Keys
      && (id in p.table ==> if id in ids then q.table[id].status in {p.table[id].status, Failed}
                            else q.table[id] == p.table[id])
  {
    if ids != [] {
      ReadyRowsAreNotRecovered(p, ids[..|ids| - 1], now, max, id);
    }
  }

  lemma StepKeepsHealth(w: World, step: Step)
    requires WorkersSawHealth(w) && Consistent(w)
    ensures WorkersSawHealth(Apply(w, step))
  {
  }

  /**
   * A READY instance was made so, under the version it has now, by a worker whose provider reported
   * HEALTHY and whose migration succeeded; no recovery, redelivery or other worker brings READY about.
   */
  lemma {:induction false} ReadyMeansHealthyAndMigrated(steps: seq<Step>, id: InstanceId)
    requires id in Run(steps).table && Run(steps).table[id].status == Ready
    ensures Delivered(Run(steps), id, Run(steps).table[id].version)
  {
    if steps != [] {
      var n := |steps| - 1;
      HistoryConsistent(steps[..n]);
      HealthAlwaysSeen(steps[..n]);
      OnlyMigrationMakesReady(Run(steps[..n]), steps[n], id);
      if id in Run(steps[..n]).table && Run(steps[..n]).table[id].status == Ready
         && Run(steps[..n]).table[id].version == Run(steps).table[id].version {
        ReadyMeansHealthyAndMigrated(steps[..n], id);
        DeliveredStays(Run(steps[..n]), steps[n], id, Run(steps).table[id].version);
      }
    }
  }

  lemma {:induction false} HealthAlwaysSeen(steps: seq<Step>)
    ensures WorkersSawHealth(Run(steps))
  {
    if steps != [] {
      HealthAlwaysSeen(steps[..|steps| - 1]);
      HistoryConsistent(steps[..|steps| - 1]);
      StepKeepsHealth(Run(steps[..|steps| - 1]), steps[|steps| - 1]);
    }
  }

  // ---- Provider resources ----

  predicate OneOwner(t: Table) {
    forall a, b :: a in t && b in t && t[a].external.Some? && t[a].external == t[b].external ==> a == b
  }

  predicate HasResource(row: Row) {
    row.status in {HealthCheck, Migrating, Ready} ==> row.external.Some?
  }

  predicate ResourcesFit(t: Table) {
    OneOwner(t) && forall id :: id in t ==> HasResource(t[id])
  }

  lemma {:induction false} RecoverKeepsResources(p: Plan, ids: seq<InstanceId>, now: Time, max: nat)
    requires ResourcesFit(p.table)
    ensures ResourcesFit(RecoverAll(p, ids, now, max).table)
  {
    if ids != [] {
      RecoverKeepsResources(p, ids[..|ids| - 1], now, max);
      var q := RecoverAll(p, ids[..|ids| - 1], now, max);
      var id := ids[|ids| - 1];
      if id in q.table {
        assert HasResource(q.table[id]);
      }
    }
  }

  lemma WorkerKeepsResources(t: Table, job: Job, phase: Phase, o: Outside, healthAttempts: nat)
    requires ResourcesFit(t)
    ensures ResourcesFit(Advance(t, job, phase, o, healthAttempts).0)
  {
  }

  lemma ClaimKeepsResources(t: Table, job: Job, now: Time)
    requires ResourcesFit(t)
    ensures ResourcesFit(Claim(t, job, now).0)
  {
  }

  lemma DestroyKeepsResources(t: Table, id: InstanceId, now: Time)
    requires ResourcesFit(t)
    ensures ResourcesFit(RequestDestroy(t, id, now).0)
  {
  }

  /** No two instances ever hold the same provider resource, and a serving instance holds one. */
  lemma {:induction false} ResourcesHaveOneOwner(steps: seq<Step>)
    ensures ResourcesFit(Run(steps).table)
  {
    if steps != [] {
      var w := Run(steps[..|steps| - 1]);
      ResourcesHaveOneOwner(steps[..|steps| - 1]);
      match steps[|steps| - 1]
      case WorkerStep(i, o, healthAttempts) =>
        if i < |w.workers| {
          WorkerKeepsResources(w.table, w.workers[i].job, w.workers[i].phase, o, healthAttempts);
        }
      case RecoverStep(order, staleBefore, now, max, limit) =>
        RecoverKeepsResources(Plan(w.table, [], 0), TakeFirst(Candidates(w.table, order, staleBefore), limit), now, max);
      case ClaimStep(job, now) => ClaimKeepsResources(w.table, job, now);
      case DestroyAction(id, now) => DestroyKeepsResources(w.table, id, now);
      case CreateInstance(_, _, _, _) =>
      case MarkFailed(_, _, _) =>
      case MissingTwice(_, _) =>
    }
  }
}
