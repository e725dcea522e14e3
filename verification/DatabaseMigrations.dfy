/** The migration run of an instance: a side row that only the worker's transactions write. */
module DatabaseMigrations {
  import opened Wrappers
  import opened DatabaseLifecycle
  import opened DatabaseProcessor
  import opened DatabaseHistory
  import opened DatabaseLaws
  import opened DatabaseExits
  import opened DatabaseOverlap

  /** RUNNING, SUCCEEDED and FAILED; an instance has one artifact and so at most one run. */
  datatype MigrationStatus = Underway | Succeeded | Broken

  type Migrations = map<InstanceId, MigrationStatus>

  /**
   * What a transaction does to the migration runs. Starting and completing are part of updates that are
   * guarded by version and status; failing marks whatever run of the instance is under way.
   */
  function Effect(m: Migrations, w: World, step: Step): Migrations {
    if !step.WorkerStep? || step.worker >= |w.workers| then m
    else
      var worker := w.workers[step.worker];
      var id := worker.job.instance;
      match worker.phase
      case SawHealthy => if OwnsIn(w.table, worker.job, HealthCheck) then m[id := Underway] else m
      case Applying =>
        if step.outside.migrate.Ok? && OwnsIn(w.table, worker.job, Migrating) then m[id := Succeeded] else m
      case Failing(_) => if id in m && m[id] == Underway then m[id := Broken] else m
      case _ => m
  }

  function MigrationsOf(steps: seq<Step>): Migrations {
    if steps == [] then map[]
    else Effect(MigrationsOf(steps[..|steps| - 1]), Run(steps[..|steps| - 1]), steps[|steps| - 1])
  }

  /** A served instance has a succeeded run, and one that is migrating has a run. */
  predicate RunsFit(t: Table, m: Migrations) {
    forall id :: id in t ==>
      && (t[id].status == Ready ==> id in m && m[id] == Succeeded)
      && (t[id].status == Migrating ==> id in m)
  }

  lemma EffectOnOthers(m: Migrations, w: World, step: Step, id: InstanceId)
    requires !step.WorkerStep? || step.worker >= |w.workers| || w.workers[step.worker].job.instance != id
    ensures id in Effect(m, w, step) <==> id in m
    ensures id in m ==> Effect(m, w, step)[id] == m[id]
  {
  }

  lemma WorkerKeepsRun(m: Migrations, w: World, i: nat, o: Outside, healthAttempts: nat)
    requires RunsFit(w.table, m) && i < |w.workers| && w.workers[i].job.instance in w.table
    ensures var id, t := w.workers[i].job.instance, Apply(w, WorkerStep(i, o, healthAttempts)).table;
      var m' := Effect(m, w, WorkerStep(i, o, healthAttempts));
      && id in t && (t[id].status == Ready ==> id in m' && m'[id] == Succeeded) && (t[id].status == Migrating ==> id in m')
  {
  }

  lemma StepKeepsRuns(steps: seq<Step>, step: Step, m: Migrations)
    requires RunsFit(Run(steps).table, m)
    ensures RunsFit(Apply(Run(steps), step).table, Effect(m, Run(steps), step))
  {
    var w, next := Run(steps), Apply(Run(steps), step);
    HistoryConsistent(steps);
    forall id | id in next.table && next.table[id].status in {Ready, Migrating}
      ensures id in Effect(m, w, step)
      ensures next.table[id].status == Ready ==> Effect(m, w, step)[id] == Succeeded
    {
      if step.WorkerStep? && step.worker < |w.workers| && w.workers[step.worker].job.instance == id {
        assert JobFits(w.log, w.workers[step.worker].job) && id in w.table;
        WorkerKeepsRun(m, w, step.worker, step.outside, step.healthAttempts);
      } else {
        OnlyWorkersServe(steps, step, id);
        EffectOnOthers(m, w, step, id);
      }
    }
  }

  /** Nobody else moves an instance into READY or MIGRATING. */
  lemma OnlyWorkersServe(steps: seq<Step>, step: Step, id: InstanceId)
    requires id in Apply(Run(steps), step).table && Apply(Run(steps), step).table[id].status in {Ready, Migrating}
    requires !step.WorkerStep? || step.worker >= |Run(steps).workers| || Run(steps).workers[step.worker].job.instance != id
    ensures id in Run(steps).table && Run(steps).table[id].status == Apply(Run(steps), step).table[id].status
  {
    if id in Run(steps).table {
      StatusMovesAlongEdges(steps, step, id);
    } else {
      NewRowIsQueued(steps, step, id);
    }
  }

  lemma NewRowIsQueued(steps: seq<Step>, step: Step, id: InstanceId)
    requires id !in Run(steps).table && id in Apply(Run(steps), step).table
    ensures step.CreateInstance?
  {
    HistoryConsistent(steps);
    match step
    case WorkerStep(i, o, healthAttempts) =>
      if i < |Run(steps).workers| {
        var worker := Run(steps).workers[i];
        AdvanceMoves(Run(steps).table, worker.job, worker.phase, o, healthAttempts);
        assert false;
      }
    case RecoverStep(order, staleBefore, now, max, limit) =>
      RecoveryAddsNoRow(Run(steps).table, TakeFirst(Candidates(Run(steps).table, order, staleBefore), limit), now, max);
    case ClaimStep(job, now) =>
      ClaimAddsNoRow(Run(steps).table, job, now);
    case _ =>
  }

  lemma ClaimAddsNoRow(t: Table, job: Job, now: Time)
    ensures DatabaseLifecycle.Claim(t, job, now).0.Keys == t.Keys
  {
  }

  lemma {:induction false} RecoveryAddsNoRow(start: Table, ids: seq<InstanceId>, now: Time, max: nat)
    ensures RecoverAll(Plan(start, [], 0), ids, now, max).table.Keys == start.Keys
  {
    if ids != [] {
      RecoveryAddsNoRow(start, ids[..|ids| - 1], now, max);
    }
  }

  lemma {:induction false} RunsAlwaysFit(steps: seq<Step>)
    ensures RunsFit(Run(steps).table, MigrationsOf(steps))
  {
    if steps != [] {
      RunsAlwaysFit(steps[..|steps| - 1]);
      StepKeepsRuns(steps[..|steps| - 1], steps[|steps| - 1], MigrationsOf(steps[..|steps| - 1]));
    }
  }

  /** In every history, overlapping and stale workers included, a READY instance has a succeeded migration run. */
  lemma ReadyMeansMigrationSucceeded(steps: seq<Step>, id: InstanceId)
    requires id in Run(steps).table && Run(steps).table[id].status == Ready
    ensures id in MigrationsOf(steps) && MigrationsOf(steps)[id] == Succeeded
  {
    RunsAlwaysFit(steps);
  }

  /** A worker of another version of the instance records its failure. */
  predicate StaleFailure(w: World, step: Step, id: InstanceId)
    requires id in w.table
  {
    && step.WorkerStep? && step.worker < |w.workers| && w.workers[step.worker].phase.Failing?
    && w.workers[step.worker].job.instance == id && w.workers[step.worker].job.version != w.table[id].version
  }

  /**
   * Failing compares no version for the migration run. So the run of an instance that is and stays
   * MIGRATING is taken out of its hands exactly when a worker of an earlier version fails late.
   */
  lemma MigrationIsBrokenExactly(steps: seq<Step>, step: Step, id: InstanceId)
    requires var w, next, m := Run(steps), Apply(Run(steps), step), MigrationsOf(steps);
      && id in w.table && w.table[id].status == Migrating && id in m && m[id] == Underway
      && id in next.table && next.table[id].status == Migrating && next.table[id].version == w.table[id].version
    ensures var m' := Effect(MigrationsOf(steps), Run(steps), step);
      id in m' && (m'[id] != Underway <==> StaleFailure(Run(steps), step, id))
  {
  }

  // ---- A migration that a stale worker marks as failed ----

  const NEXT_JOB := Job(0, 1, Provision)
  const ADVANCE := WorkerStep(1, GOOD, 1)

  /** A first worker of version 0 about to fail, a second one of version 1, and the row at version 1. */
  predicate Moved(w: World, status: Status, phase: Phase) {
    && w.table.Keys == {0} && w.table[0].status == status && w.table[0].version == 1
    && |w.workers| == 2 && w.workers[0].job == JOB && w.workers[0].phase == Failing(false)
    && w.workers[1].job == NEXT_JOB && w.workers[1].phase == phase
  }

  lemma SecondAdvances(w: World, status: Status, phase: Phase, status': Status, phase': Phase)
    requires Moved(w, status, phase)
    requires var (t, next) := Advance(w.table, NEXT_JOB, phase, GOOD, 1);
      next == phase' && 0 in t && t[0].status == status'
    ensures Moved(Apply(w, ADVANCE), status', phase')
  {
    AdvanceMoves(w.table, NEXT_JOB, phase, GOOD, 1);
  }

  const STALLED: seq<Step> :=
    [] + [CreateInstance(0, true, true, 0)] + [ClaimStep(JOB, 0)] + [WorkerStep(0, BAD, 1)]

  const RETAKEN: seq<Step> := STALLED + [RecoverStep([0], 10, 20, 3, 10), ClaimStep(NEXT_JOB, 20)]

  const MIGRATING: seq<Step> := RETAKEN + [ADVANCE] + [ADVANCE] + [ADVANCE]

  lemma FirstStalls()
    ensures var w := Run(STALLED);
      && w.table == map[0 := Row(Provisioning, 0, 0, 1, None, false, Some(0), true, true)]
      && |w.workers| == 1 && w.workers[0].job == JOB && w.workers[0].phase == Failing(false)
  {
    var s1: seq<Step> := [] + [CreateInstance(0, true, true, 0)];
    NextWorld([], CreateInstance(0, true, true, 0));
    assert Run(s1).table == map[0 := Row(Queued, 0, 0, 0, None, false, Some(0), true, true)];
    NextWorld(s1, ClaimStep(JOB, 0));
    var s2 := s1 + [ClaimStep(JOB, 0)];
    assert Run(s2).table == map[0 := Row(Provisioning, 0, 0, 1, None, false, Some(0), true, true)];
    NextWorld(s2, WorkerStep(0, BAD, 1));
  }

  lemma StalledIsSwept(t: Table)
    requires t == map[0 := Row(Provisioning, 0, 0, 1, None, false, Some(0), true, true)]
    ensures RecoverStale(t, [0], 10, 20, 3, 10)
      == Plan(map[0 := Row(Provisioning, 1, 1, 1, None, false, Some(20), true, true)], [NEXT_JOB], 0)
  {
    OneRowIsSwept(t, 10, 20);
  }

  lemma TakenOver(w: World)
    requires w.table == map[0 := Row(Provisioning, 1, 1, 1, None, false, Some(20), true, true)] && NEXT_JOB in w.jobs
    requires |w.workers| == 1 && w.workers[0].job == JOB && w.workers[0].phase == Failing(false)
    ensures Moved(Apply(w, ClaimStep(NEXT_JOB, 20)), Provisioning, Creating)
  {
  }

  lemma SecondTakesOver(w: World)
    requires w.table == map[0 := Row(Provisioning, 0, 0, 1, None, false, Some(0), true, true)]
    requires |w.workers| == 1 && w.workers[0].job == JOB && w.workers[0].phase == Failing(false)
    ensures Moved(Apply(Apply(w, RecoverStep([0], 10, 20, 3, 10)), ClaimStep(NEXT_JOB, 20)), Provisioning, Creating)
  {
    StalledIsSwept(w.table);
    TakenOver(Apply(w, RecoverStep([0], 10, 20, 3, 10)));
  }

  lemma SecondMigrates(w: World)
    requires Moved(w, Provisioning, Creating)
    ensures Moved(Apply(w, ADVANCE), HealthCheck, Polling(0))
    ensures Moved(Apply(Apply(w, ADVANCE), ADVANCE), HealthCheck, SawHealthy)
    ensures Moved(Apply(Apply(Apply(w, ADVANCE), ADVANCE), ADVANCE), Migrating, Applying)
  {
    assert !ExternalTaken(w.table, 0, 5);
    SecondAdvances(w, Provisioning, Creating, HealthCheck, Polling(0));
    SecondAdvances(Apply(w, ADVANCE), HealthCheck, Polling(0), HealthCheck, SawHealthy);
    SecondAdvances(Apply(Apply(w, ADVANCE), ADVANCE), HealthCheck, SawHealthy, Migrating, Applying);
  }

  lemma NextMigrations(steps: seq<Step>, step: Step)
    ensures MigrationsOf(steps + [step]) == Effect(MigrationsOf(steps), Run(steps), step)
  {
  }

  lemma SecondIsMigrating()
    ensures Moved(Run(MIGRATING), Migrating, Applying)
    ensures 0 in MigrationsOf(MIGRATING) && MigrationsOf(MIGRATING)[0] == Underway
  {
    FirstStalls();
    NextTwo(STALLED, RecoverStep([0], 10, 20, 3, 10), ClaimStep(NEXT_JOB, 20));
    SecondTakesOver(Run(STALLED));
    SecondMigrates(Run(RETAKEN));
    NextWorld(RETAKEN, ADVANCE);
    NextWorld(RETAKEN + [ADVANCE], ADVANCE);
    NextWorld(RETAKEN + [ADVANCE] + [ADVANCE], ADVANCE);
    NextMigrations(RETAKEN + [ADVANCE] + [ADVANCE], ADVANCE);
  }

  /** An instance is migrating and its migration run is FAILED: the mark of a worker that was fenced long ago. */
  lemma AStaleFailureBreaksAMigration()
    ensures var late := MIGRATING + [WorkerStep(0, GOOD, 1)];
      && 0 in Run(late).table && Run(late).table[0].status == Migrating
      && 0 in MigrationsOf(late) && MigrationsOf(late)[0] == Broken
  {
    SecondIsMigrating();
    NextWorld(MIGRATING, WorkerStep(0, GOOD, 1));
    NextMigrations(MIGRATING, WorkerStep(0, GOOD, 1));
  }
}
