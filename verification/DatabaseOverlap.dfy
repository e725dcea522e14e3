/** How a served or deleted instance can still be marked FAILED, and a requested destroy end in a new provisioning. */
module DatabaseOverlap {
  import opened Wrappers
  import opened DatabaseLifecycle
  import opened DatabaseProcessor
  import opened DatabaseHistory
  import opened DatabaseLaws
  import opened DatabaseExits

  // ---- Late failures ----

  /** A failure of the row's own version is recorded: by a worker, or by the producer that could not queue the job. */
  predicate LateFailure(w: World, step: Step, id: InstanceId)
    requires id in w.table
  {
    || (WorkerAt(w, step, id) && w.workers[step.worker].phase.Failing?)
    || (step.MarkFailed? && step.job in w.jobs && step.job.instance == id && step.job.version == w.table[id].version)
  }

  /** A sweep that listed the row as it is misses its resource for the second time. */
  predicate FoundMissing(w: World, step: Step, id: InstanceId)
    requires id in w.table
  {
    && step.MissingTwice? && step.id == id && w.table[id].status == Ready
    && step.seen.status in {Ready, Active, Suspended} && step.seen.version == w.table[id].version
  }

  lemma OtherStepsFailNothing(steps: seq<Step>, step: Step, id: InstanceId)
    requires id in Run(steps).table && Run(steps).table[id].status in {Ready, Deleted}
    requires step.RecoverStep?
    ensures id in Apply(Run(steps), step).table && Apply(Run(steps), step).table[id] == Run(steps).table[id]
  {
    var w := Run(steps);
    var ids := TakeFirst(Candidates(w.table, step.order, step.staleBefore), step.limit);
    NotListed(w.table, step.order, step.staleBefore, id);
    NotDispatched(Plan(w.table, [], 0), ids, step.now, step.max, id);
  }

  /**
   * The failure marks compare the version but not the status. So an instance that is READY or DELETED
   * becomes FAILED exactly when a failure of its own version is recorded late, or when a served
   * instance has been found without its resource twice.
   */
  lemma SettledFailsExactly(steps: seq<Step>, step: Step, id: InstanceId)
    requires id in Run(steps).table && Run(steps).table[id].status in {Ready, Deleted}
    ensures id in Apply(Run(steps), step).table
    ensures Apply(Run(steps), step).table[id].status == Failed
      <==> LateFailure(Run(steps), step, id) || FoundMissing(Run(steps), step, id)
  {
    StatusMovesAlongEdges(steps, step, id);
    match step
    case RecoverStep(_, _, _, _, _) => OtherStepsFailNothing(steps, step, id);
    case WorkerStep(i, o, healthAttempts) =>
      if i < |Run(steps).workers| {
        WorkerFailsExactly(Run(steps).table, Run(steps).workers[i], o, healthAttempts, id);
      }
    case _ =>
  }

  lemma WorkerFailsExactly(t: Table, worker: Worker, o: Outside, healthAttempts: nat, id: InstanceId)
    requires id in t && t[id].status in {Ready, Deleted}
    ensures var t' := Advance(t, worker.job, worker.phase, o, healthAttempts).0;
      id in t' && (t'[id].status == Failed <==>
        worker.job.instance == id && worker.job.version == t[id].version && worker.phase.Failing?)
  {
    AdvanceMoves(t, worker.job, worker.phase, o, healthAttempts);
  }

  // ---- Deliveries that do not overlap ----

  predicate Live(w: World, i: nat) {
    i < |w.workers| && !Final(w.workers[i].phase)
  }

  predicate SameOperation(w: World, i: nat, j: nat)
    requires i < |w.workers| && j < |w.workers|
  {
    w.workers[i].job.instance == w.workers[j].job.instance && w.workers[i].job.version == w.workers[j].job.version
  }

  /** No two live workers carry the same operation. */
  predicate Serial(w: World) {
    forall i, j :: 0 <= i < j < |w.workers| && Live(w, i) && Live(w, j) ==> !SameOperation(w, i, j)
  }

  ghost predicate NoOverlap(steps: seq<Step>) {
    forall k :: 0 <= k <= |steps| ==> Serial(Run(steps[..k]))
  }

  predicate IsSettled(t: Table, job: Job) {
    Owns(t, job) && t[job.instance].status in {Ready, Deleted}
  }

  /** Nobody is still at work on a version that has been settled. */
  predicate AtRest(w: World) {
    forall i :: 0 <= i < |w.workers| && Live(w, i) ==> !IsSettled(w.table, w.workers[i].job)
  }

  lemma WorkerSettles(t: Table, job: Job, phase: Phase, o: Outside, healthAttempts: nat)
    requires !IsSettled(t, job)
    ensures var (t', phase') := Advance(t, job, phase, o, healthAttempts);
      && (forall other: Job :: other.instance != job.instance ==>
            (IsSettled(t', other) <==> IsSettled(t, other)))
      && (IsSettled(t', job) ==> phase'.Completed?)
      && (forall other: Job :: other.instance == job.instance && other.version != job.version ==>
            (IsSettled(t', other) ==> IsSettled(t, other)))
  {
  }

  lemma WorkKeepsRest(w: World, i: nat, o: Outside, healthAttempts: nat)
    requires AtRest(w) && Serial(w) && i < |w.workers|
    ensures AtRest(Apply(w, WorkerStep(i, o, healthAttempts)))
  {
    var next := Apply(w, WorkerStep(i, o, healthAttempts));
    if Live(w, i) {
      WorkerSettles(w.table, w.workers[i].job, w.workers[i].phase, o, healthAttempts);
      forall j | 0 <= j < |next.workers| && Live(next, j)
        ensures !IsSettled(next.table, next.workers[j].job)
      {
        if j != i {
          assert next.workers[j] == w.workers[j] && Live(w, j);
          assert !SameOperation(w, i, j) && !SameOperation(w, j, i);
        }
      }
    }
  }

  lemma RecoverKeepsRest(w: World, order: seq<InstanceId>, staleBefore: Time, now: Time, max: nat, limit: nat)
    requires AtRest(w) && Consistent(w)
    ensures AtRest(Apply(w, RecoverStep(order, staleBefore, now, max, limit)))
  {
    var next := Apply(w, RecoverStep(order, staleBefore, now, max, limit));
    var ids := TakeFirst(Candidates(w.table, order, staleBefore), limit);
    forall i | 0 <= i < |next.workers| && Live(next, i)
      ensures !IsSettled(next.table, next.workers[i].job)
    {
      var id := w.workers[i].job.instance;
      assert Live(w, i) && JobFits(w.log, w.workers[i].job) && id in w.table;
      RecoveryKeepsStatus(w.table, ids, now, max, id);
      if next.table[id].status in {Ready, Deleted} {
        NotListed(w.table, order, staleBefore, id);
        NotDispatched(Plan(w.table, [], 0), ids, now, max, id);
      }
    }
  }

  lemma ClaimKeepsRest(w: World, job: Job, now: Time)
    requires AtRest(w) && Consistent(w)
    ensures AtRest(Apply(w, ClaimStep(job, now)))
  {
  }

  lemma StepKeepsRest(w: World, step: Step)
    requires AtRest(w) && Serial(w) && Consistent(w)
    ensures AtRest(Apply(w, step))
  {
    match step
    case ClaimStep(job, now) => ClaimKeepsRest(w, job, now);
    case WorkerStep(i, o, healthAttempts) =>
      if i < |w.workers| {
        WorkKeepsRest(w, i, o, healthAttempts);
      }
    case RecoverStep(order, staleBefore, now, max, limit) =>
      RecoverKeepsRest(w, order, staleBefore, now, max, limit);
    case CreateInstance(id, _, _, _) => CreateKeepsRest(w, step, id);
    case _ =>
  }

  lemma CreateKeepsRest(w: World, step: Step, id: InstanceId)
    requires AtRest(w) && Consistent(w) && step.CreateInstance? && step.id == id
    ensures AtRest(Apply(w, step))
  {
  }

  lemma {:induction false} RestAfter(steps: seq<Step>)
    requires NoOverlap(steps)
    ensures AtRest(Run(steps))
  {
    if steps != [] {
      var n := |steps| - 1;
      assert NoOverlap(steps[..n]) by {
        forall k | 0 <= k <= n
          ensures Serial(Run(steps[..n][..k]))
        {
          assert steps[..n][..k] == steps[..k];
        }
      }
      RestAfter(steps[..n]);
      HistoryConsistent(steps[..n]);
      assert Serial(Run(steps[..n]));
      StepKeepsRest(Run(steps[..n]), steps[n]);
    }
  }

  /**
   * While no two deliveries of one job are at work at once, no worker ever changes an instance that
   * is READY or DELETED at its version.
   */
  lemma SettledStaysWithoutOverlap(steps: seq<Step>, step: Step, id: InstanceId)
    requires NoOverlap(steps) && step.WorkerStep?
    requires id in Run(steps).table && Run(steps).table[id].status in {Ready, Deleted}
    ensures id in Apply(Run(steps), step).table && Apply(Run(steps), step).table[id] == Run(steps).table[id]
  {
    RestAfter(steps);
    RestKeepsSettled(Run(steps), step.worker, step.outside, step.healthAttempts, id);
  }

  lemma RestKeepsSettled(w: World, i: nat, o: Outside, healthAttempts: nat, id: InstanceId)
    requires AtRest(w) && id in w.table && w.table[id].status in {Ready, Deleted}
    ensures id in Apply(w, WorkerStep(i, o, healthAttempts)).table
    ensures Apply(w, WorkerStep(i, o, healthAttempts)).table[id] == w.table[id]
  {
    if i < |w.workers| {
      var worker := w.workers[i];
      AdvanceMoves(w.table, worker.job, worker.phase, o, healthAttempts);
      if Live(w, i) {
        assert !IsSettled(w.table, worker.job);
      } else {
        FinalChangesNothing(w.table, worker.job, worker.phase, o, healthAttempts);
      }
    }
  }

  lemma FinalChangesNothing(t: Table, job: Job, phase: Phase, o: Outside, healthAttempts: nat)
    requires Final(phase)
    ensures Advance(t, job, phase, o, healthAttempts).0 == t
  {
  }

  // ---- A served instance that fails ----

  const JOB := Job(0, 0, Provision)
  const GOOD := Outside(0, Ok(5), Ok(Healthy), Ok(()), Ok(()))
  const BAD := Outside(0, Err(false), Ok(Healthy), Ok(()), Ok(()))

  predicate Shows(w: World, status: Status, phases: seq<Phase>) {
    && w.table.Keys == {0} && w.table[0].status == status && w.table[0].version == 0
    && w.table[0].artifact && w.table[0].region && JOB in w.jobs
    && |w.workers| == |phases| && forall i :: 0 <= i < |phases| ==> w.workers[i].job == JOB && w.workers[i].phase == phases[i]
  }

  lemma NextWorld(steps: seq<Step>, step: Step)
    ensures Run(steps + [step]) == Apply(Run(steps), step)
  {
  }

  lemma Delivered(w: World, status: Status, phases: seq<Phase>)
    requires Shows(w, status, phases) && status in {Queued, Provisioning}
    ensures Shows(Apply(w, ClaimStep(JOB, 0)), Provisioning, phases + [Creating])
  {
  }

  lemma WorkerShows(w: World, status: Status, i: nat, o: Outside, phases: seq<Phase>, status': Status, phase': Phase)
    requires Shows(w, status, phases) && i < |phases|
    requires var (t, phase) := Advance(w.table, JOB, phases[i], o, 1);
      phase == phase' && 0 in t && t[0].status == status'
    ensures Shows(Apply(w, WorkerStep(i, o, 1)), status', phases[i := phase'])
  {
    AdvanceMoves(w.table, JOB, phases[i], o, 1);
  }

  const TWICE: seq<Step> := [] + [CreateInstance(0, true, true, 0)] + [ClaimStep(JOB, 0)] + [ClaimStep(JOB, 0)]

  const GO := WorkerStep(0, GOOD, 1)

  const SERVED: seq<Step> := TWICE + [WorkerStep(1, BAD, 1)] + [GO, GO] + [GO, GO]

  lemma BothAtWork()
    ensures Shows(Run(TWICE), Provisioning, [Creating, Creating])
  {
    var s1: seq<Step> := [] + [CreateInstance(0, true, true, 0)];
    NextWorld([], CreateInstance(0, true, true, 0));
    assert Shows(Run(s1), Queued, []);
    NextWorld(s1, ClaimStep(JOB, 0));
    Delivered(Run(s1), Queued, []);
    NextWorld(s1 + [ClaimStep(JOB, 0)], ClaimStep(JOB, 0));
    Delivered(Run(s1 + [ClaimStep(JOB, 0)]), Provisioning, [] + [Creating]);
    assert [] + [Creating] + [Creating] == [Creating, Creating];
  }

  lemma NextTwo(steps: seq<Step>, step: Step, more: Step)
    ensures Run(steps + [step, more]) == Apply(Apply(Run(steps), step), more)
  {
    NextWorld(steps, step);
    NextWorld(steps + [step], more);
    assert steps + [step, more] == steps + [step] + [more];
  }

  lemma BecomesHealthy(w: World)
    requires Shows(w, Provisioning, [Creating, Failing(false)])
    ensures Shows(Apply(Apply(w, GO), GO), HealthCheck, [SawHealthy, Failing(false)])
  {
    assert !ExternalTaken(w.table, 0, 5);
    WorkerShows(w, Provisioning, 0, GOOD, [Creating, Failing(false)], HealthCheck, Polling(0));
    assert [Creating, Failing(false)][0 := Polling(0)] == [Polling(0), Failing(false)];
    WorkerShows(Apply(w, GO), HealthCheck, 0, GOOD, [Polling(0), Failing(false)], HealthCheck, SawHealthy);
    assert [Polling(0), Failing(false)][0 := SawHealthy] == [SawHealthy, Failing(false)];
  }

  lemma BecomesReady(w: World)
    requires Shows(w, HealthCheck, [SawHealthy, Failing(false)])
    ensures Shows(Apply(Apply(w, GO), GO), Ready, [Completed, Failing(false)])
  {
    WorkerShows(w, HealthCheck, 0, GOOD, [SawHealthy, Failing(false)], Migrating, Applying);
    assert [SawHealthy, Failing(false)][0 := Applying] == [Applying, Failing(false)];
    WorkerShows(Apply(w, GO), Migrating, 0, GOOD, [Applying, Failing(false)], Ready, Completed);
    assert [Applying, Failing(false)][0 := Completed] == [Completed, Failing(false)];
  }

  lemma FirstServes()
    ensures Shows(Run(SERVED), Ready, [Completed, Failing(false)])
  {
    var s := TWICE + [WorkerStep(1, BAD, 1)];
    BothAtWork();
    NextWorld(TWICE, WorkerStep(1, BAD, 1));
    WorkerShows(Run(TWICE), Provisioning, 1, BAD, [Creating, Creating], Provisioning, Failing(false));
    assert [Creating, Creating][1 := Failing(false)] == [Creating, Failing(false)];
    NextTwo(s, GO, GO);
    BecomesHealthy(Run(s));
    NextTwo(s + [GO, GO], GO, GO);
    BecomesReady(Run(s + [GO, GO]));
  }

  /** Of two deliveries of one job one makes the instance READY, and the failure of the other makes it FAILED. */
  lemma OverlapFailsAServedInstance()
    ensures 0 in Run(SERVED).table && Run(SERVED).table[0].status == Ready
    ensures var t := Run(SERVED + [WorkerStep(1, GOOD, 1)]).table; 0 in t && t[0].status == Failed
  {
    FirstServes();
    NextWorld(SERVED, WorkerStep(1, GOOD, 1));
    SettledFailsExactly(SERVED, WorkerStep(1, GOOD, 1), 0);
  }

  // ---- Destroys that are recovered ----

  /**
   * A recovery reads the command off the status. So an operation that is a destroy is dispatched as a
   * provision if and only if the destroy has failed before.
   */
  lemma DestroyIsRecoveredAsProvisionExactly(steps: seq<Step>, step: Step, job: Job)
    requires step.RecoverStep? && Distinct(step.order) && job in DispatchesIn(Run(steps), step)
    requires job.instance in Run(steps).table && job.instance in Run(steps).log
    requires Run(steps).table[job.instance].version < |Run(steps).log[job.instance]|
    requires CommandOf(Run(steps).log[job.instance][Run(steps).table[job.instance].version]).Destroy?
    ensures job.command.Provision? <==> Run(steps).table[job.instance].status == Failed
  {
    var w := Run(steps);
    HistoryConsistent(steps);
    assert LogFits(w.table[job.instance], w.log[job.instance]);
    var candidates := Candidates(w.table, step.order, step.staleBefore);
    var ids := TakeFirst(candidates, step.limit);
    CandidatesAreDistinct(w.table, step.order, step.staleBefore);
    CandidatesRecoverable(w.table, step.order, step.staleBefore);
    assert Distinct(ids) && forall i :: 0 <= i < |ids| ==> ids[i] == candidates[i];
    DispatchesAreCurrent(w.table, ids, step.now, step.max);
    RecoveryFailsNoDispatch(w.table, ids, step.now, step.max, job);
  }

  /** A destroy was requested, its job could not be queued, and a sweep takes the instance up again. */
  const REQUESTED: seq<Step> :=
    [] + [CreateInstance(0, true, true, 0)] + [MarkFailed(JOB, false, 0)] + [DestroyAction(0, 0)]
    + [MarkFailed(Job(0, 1, Destroy), true, 0)]

  const REVIVED: seq<Step> := REQUESTED + [RecoverStep([0], 10, 20, 3, 10)] + [ClaimStep(Job(0, 2, Provision), 20)]

  lemma DestroyFailed()
    ensures var w := Run(REQUESTED);
      && w.table == map[0 := Row(Failed, 1, 0, 0, None, true, Some(0), true, true)]
      && w.log == map[0 := [CreatedBy, DestroyRequested]] && w.workers == []
  {
    var s1: seq<Step> := [] + [CreateInstance(0, true, true, 0)];
    NextWorld([], CreateInstance(0, true, true, 0));
    NextWorld(s1, MarkFailed(JOB, false, 0));
    var s2 := s1 + [MarkFailed(JOB, false, 0)];
    assert Run(s2).table == map[0 := Row(Failed, 0, 0, 0, None, false, Some(0), true, true)];
    assert Run(s2).log == map[0 := [CreatedBy]] && Run(s2).workers == [];
    NextWorld(s2, DestroyAction(0, 0));
    Requested(Run(s2));
    NextWorld(s2 + [DestroyAction(0, 0)], MarkFailed(Job(0, 1, Destroy), true, 0));
  }

  lemma Requested(w: World)
    requires w.table == map[0 := Row(Failed, 0, 0, 0, None, false, Some(0), true, true)]
    requires w.log == map[0 := [CreatedBy]]
    ensures var next := Apply(w, DestroyAction(0, 0));
      && next.table == map[0 := Row(Deleting, 1, 0, 0, None, false, Some(0), true, true)]
      && next.log == map[0 := [CreatedBy, DestroyRequested]] && next.workers == w.workers
      && Job(0, 1, Destroy) in next.jobs
  {
    var row := RequestDestroy(w.table, 0, 0).1.row;
    assert row == Row(Deleting, 1, 0, 0, None, false, Some(0), true, true);
    assert RequestDestroy(w.table, 0, 0).0[0] != w.table[0];
    assert [CreatedBy] + [DestroyRequested] == [CreatedBy, DestroyRequested];
  }

  lemma OneCandidate(t: Table, staleBefore: Time)
    requires 0 in t && Candidate(t[0], staleBefore)
    ensures Candidates(t, [0], staleBefore) == [0]
  {
    var order: seq<InstanceId> := [0];
    assert order[..0] == [] && Candidates(t, [], staleBefore) == [];
  }

  lemma OneRecovery(p: Plan, now: Time, max: nat)
    ensures RecoverAll(p, [0], now, max) == RecoverOne(p, 0, now, max)
  {
    var ids: seq<InstanceId> := [0];
    assert ids[..0] == [] && RecoverAll(p, [], now, max) == p;
  }

  lemma OneRowIsSwept(t: Table, staleBefore: Time, now: Time)
    requires 0 in t && Candidate(t[0], staleBefore)
    ensures RecoverStale(t, [0], staleBefore, now, 3, 10) == RecoverOne(Plan(t, [], 0), 0, now, 3)
  {
    OneCandidate(t, staleBefore);
    OneRecovery(Plan(t, [], 0), now, 3);
  }

  lemma SweptRow(t: Table)
    requires t == map[0 := Row(Failed, 1, 0, 0, None, true, Some(0), true, true)]
    ensures RecoverStale(t, [0], 10, 20, 3, 10)
      == Plan(map[0 := Row(Failed, 2, 1, 0, None, true, Some(20), true, true)], [Job(0, 2, Provision)], 0)
  {
    OneRowIsSwept(t, 10, 20);
  }

  lemma OneDispatch(log: Logs)
    requires log == map[0 := [CreatedBy, DestroyRequested]]
    ensures LogDispatches(log, [Job(0, 2, Provision)]) == map[0 := [CreatedBy, DestroyRequested, Recovered(Provision)]]
  {
    var dispatches := [Job(0, 2, Provision)];
    assert dispatches[..0] == [] && LogDispatches(log, dispatches[..0]) == log;
    assert [CreatedBy, DestroyRequested] + [Recovered(Provision)] == [CreatedBy, DestroyRequested, Recovered(Provision)];
  }

  lemma SweptAgain(w: World)
    requires w.table == map[0 := Row(Failed, 1, 0, 0, None, true, Some(0), true, true)]
    requires w.log == map[0 := [CreatedBy, DestroyRequested]] && w.workers == []
    ensures var next := Apply(w, RecoverStep([0], 10, 20, 3, 10));
      && next.table == map[0 := Row(Failed, 2, 1, 0, None, true, Some(20), true, true)]
      && next.log == map[0 := [CreatedBy, DestroyRequested, Recovered(Provision)]]
      && Job(0, 2, Provision) in next.jobs && next.workers == []
  {
    SweptRow(w.table);
    OneDispatch(w.log);
  }

  /** Somebody asked for the instance to be destroyed, nobody asked for anything since, and it is being provisioned. */
  lemma ARequestedDestroyCanProvision()
    ensures var w := Run(REVIVED);
      && 0 in w.table && w.table[0].status == Provisioning
      && 0 in w.log && w.log[0] == [CreatedBy, DestroyRequested, Recovered(Provision)]
  {
    DestroyFailed();
    NextWorld(REQUESTED, RecoverStep([0], 10, 20, 3, 10));
    SweptAgain(Run(REQUESTED));
    NextWorld(REQUESTED + [RecoverStep([0], 10, 20, 3, 10)], ClaimStep(Job(0, 2, Provision), 20));
  }
}
