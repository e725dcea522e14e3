/** The worker program that carries one database job through its transactions. */
module DatabaseProcessor {
  import opened Wrappers
  import opened DatabaseLifecycle

  datatype Health = Healthy | Unhealthy | Pending

  /** What the outside world answers at one step; an error says whether it is retryable. */
  datatype Outside = Outside(
    now: Time,
    provision: Result<ExternalId, bool>,
    health: Result<Health, bool>,
    migrate: Result<(), bool>,
    destroy: Result<(), bool>)

  /** Where the program stands between two of its transactions; the last four are final. */
  datatype Phase =
    | Creating
    | Polling(polls: nat)
    | SawHealthy
    | Applying
    | Tearing(external: Option<ExternalId>)
    | Failing(retryable: bool)
    | Completed
    | Skipped
    | GaveUp(retryable: bool)
    | Crashed

  predicate Final(phase: Phase) {
    phase.Completed? || phase.Skipped? || phase.GaveUp? || phase.Crashed?
  }

  function AfterClaim(job: Job, claim: ClaimResult): Phase {
    if !claim.Claimed? then Skipped
    else if job.command.Destroy? then Tearing(claim.record.external)
    else Creating
  }

  function Guarded(update: (Table, bool), next: Phase): (Table, Phase) {
    (update.0, if update.1 then next else Skipped)
  }

  /** One transaction of a worker that holds `job`. */
  function Advance(t: Table, job: Job, phase: Phase, o: Outside, healthAttempts: nat): (Table, Phase) {
    match phase
    case Creating =>
      if o.provision.Err? then (t, Failing(o.provision.error))
      else if OwnsIn(t, job, Provisioning) && ExternalTaken(t, job.instance, o.provision.value) then (t, Failing(false))
      else Guarded(RecordProvisioned(t, job, o.provision.value, o.now), Polling(0))
    case Polling(polls) =>
      if polls >= healthAttempts then (t, Failing(true))
      else if o.health.Err? then (t, Failing(o.health.error))
      else
        Guarded(RecordHealthCheck(t, job, o.now),
                match o.health.value
                case Unhealthy => Failing(true)
                case Healthy => SawHealthy
                case Pending => Polling(polls + 1))
    case SawHealthy => Guarded(StartMigration(t, job, o.now), Applying)
    case Applying =>
      if o.migrate.Err? then (t, Failing(o.migrate.error))
      else Guarded(CompleteMigration(t, job, o.now), Completed)
    case Tearing(external) =>
      if external.Some? && o.destroy.Err? then (t, Failing(o.destroy.error))
      else Guarded(CompleteDestroy(t, job, o.now), Completed)
    case Failing(retryable) => (Fail(t, job, retryable, o.now), GaveUp(retryable))
    case _ => (t, phase)
  }

  /** The program left alone; it crashes when the answers run out. */
  function Drive(t: Table, job: Job, phase: Phase, answers: seq<Outside>, healthAttempts: nat): (Table, Phase)
    decreases |answers|
  {
    if Final(phase) then (t, phase)
    else if answers == [] then (t, Crashed)
    else
      var (t', phase') := Advance(t, job, phase, answers[0], healthAttempts);
      Drive(t', job, phase', answers[1..], healthAttempts)
  }

  class DatabaseOperationProcessor {
    const repository: DatabaseInstances
    const healthAttempts: nat

    constructor (repository: DatabaseInstances, healthAttempts: nat)
      ensures this.repository == repository && this.healthAttempts == healthAttempts
    {
      this.repository, this.healthAttempts := repository, healthAttempts;
    }

    /** `process`. A retryable failure is thrown again while the queue has attempts left. */
    method Process(job: Job, now: Time, answers: seq<Outside>) returns (r: Phase)
      modifies repository
      ensures
        var (claimed, claim) := Claim(old(repository.rows), job, now);
        (repository.rows, r) == Drive(claimed, job, AfterClaim(job, claim), answers, healthAttempts)
    {
      var claim := repository.ClaimJob(job, now);
      if !claim.Claimed? {
        return Skipped;
      }
      if |answers| == 0 {
        return Crashed;
      }
      if job.command == Destroy {
        if claim.record.external.Some? && answers[0].destroy.Err? {
          r := FailAndStop(job, answers[0].destroy.error, answers[1..]);
          return;
        }
        var done := repository.DestroyCompleted(job, answers[0].now);
        return if done then Completed else Skipped;
      }
      if answers[0].provision.Err? {
        r := FailAndStop(job, answers[0].provision.error, answers[1..]);
        return;
      }
      var recorded := repository.Provisioned(job, answers[0].provision.value, answers[0].now);
      if recorded.Err? {
        r := FailAndStop(job, false, answers[1..]);
        return;
      }
      if !recorded.value {
        return Skipped;
      }
      r := AwaitHealthAndMigrate(job, answers[1..]);
    }

    /** The health-poll loop and, once healthy, the migration. */
    method AwaitHealthAndMigrate(job: Job, answers: seq<Outside>) returns (r: Phase)
      modifies repository
      ensures (repository.rows, r) == Drive(old(repository.rows), job, Polling(0), answers, healthAttempts)
    {
      ghost var goal := Drive(repository.rows, job, Polling(0), answers, healthAttempts);
      var healthy := false;
      var index := 0;
      var used := 0;
      while index < healthAttempts
        invariant 0 <= index && !healthy && used == index <= |answers| && index <= healthAttempts
        invariant goal == Drive(repository.rows, job, Polling(index), answers[used..], healthAttempts)
      {
        if used == |answers| {
          return Crashed;
        }
        var o := answers[used];
        assert answers[used..][1..] == answers[used + 1..];
        used := used + 1;
        if o.health.Err? {
          r := FailAndStop(job, o.health.error, answers[used..]);
          return;
        }
        var owned := repository.HealthChecked(job, o.now);
        if !owned {
          return Skipped;
        }
        if o.health.value == Unhealthy {
          r := FailAndStop(job, true, answers[used..]);
          return;
        }
        if o.health.value == Healthy {
          healthy := true;
          break;
        }
        index := index + 1;
      }
      if !healthy {
        if used == |answers| {
          return Crashed;
        }
        assert answers[used..][1..] == answers[used + 1..];
        r := FailAndStop(job, true, answers[used + 1..]);
        return;
      }
      assert goal == Drive(repository.rows, job, SawHealthy, answers[used..], healthAttempts);
      r := Migrate(job, answers[used..]);
    }

    method Migrate(job: Job, answers: seq<Outside>) returns (r: Phase)
      modifies repository
      ensures (repository.rows, r) == Drive(old(repository.rows), job, SawHealthy, answers, healthAttempts)
    {
      ghost var goal := Drive(repository.rows, job, SawHealthy, answers, healthAttempts);
      if |answers| == 0 {
        return Crashed;
      }
      var started := repository.MigrationStarted(job, answers[0].now);
      if !started {
        return Skipped;
      }
      assert goal == Drive(repository.rows, job, Applying, answers[1..], healthAttempts);
      if |answers| == 1 {
        return Crashed;
      }
      assert answers[1..][1..] == answers[2..];
      if answers[1].migrate.Err? {
        r := FailAndStop(job, answers[1].migrate.error, answers[2..]);
        return;
      }
      var done := repository.MigrationCompleted(job, answers[1].now);
      r := if done then Completed else Skipped;
      assert goal == Drive(repository.rows, job, r, answers[2..], healthAttempts);
    }

    /** The catch block. */
    method FailAndStop(job: Job, retryable: bool, answers: seq<Outside>) returns (r: Phase)
      modifies repository
      ensures (repository.rows, r) == Drive(old(repository.rows), job, Failing(retryable), answers, healthAttempts)
    {
      if |answers| == 0 {
        return Crashed;
      }
      repository.OperationFailed(job, retryable, answers[0].now);
      r := GaveUp(retryable);
    }
  }

  /** What the row must look like at each phase when nobody else touches it. */
  predicate InStep(t: Table, job: Job, phase: Phase) {
    && Owns(t, job)
    && match phase
       case Creating => t[job.instance].status == Provisioning
       case Polling(_) => t[job.instance].status == HealthCheck && t[job.instance].external.Some?
       case SawHealthy => t[job.instance].status == HealthCheck && t[job.instance].external.Some?
       case Applying => t[job.instance].status == Migrating && t[job.instance].external.Some?
       case Tearing(_) => t[job.instance].status == Deleting
       case Failing(_) => true
       case Completed =>
         if job.command.Destroy? then t[job.instance].status == Deleted
         else t[job.instance].status == Ready && t[job.instance].external.Some?
       case GaveUp(retryable) => t[job.instance].status == Failed && t[job.instance].retryable == retryable
       case Skipped => false
       case Crashed => true
  }

  predicate PhaseOf(command: Command, phase: Phase) {
    && (phase.Tearing? ==> command.Destroy?)
    && (phase.Creating? || phase.Polling? || phase.SawHealthy? || phase.Applying? ==> command.Provision?)
  }

  lemma {:induction false} DriveStaysInStep(t: Table, job: Job, phase: Phase, answers: seq<Outside>, healthAttempts: nat)
    requires InStep(t, job, phase) && PhaseOf(job.command, phase)
    ensures InStep(Drive(t, job, phase, answers, healthAttempts).0, job, Drive(t, job, phase, answers, healthAttempts).1)
    ensures Final(Drive(t, job, phase, answers, healthAttempts).1)
    decreases |answers|
  {
    if !Final(phase) && answers != [] {
      var (t', phase') := Advance(t, job, phase, answers[0], healthAttempts);
      DriveStaysInStep(t', job, phase', answers[1..], healthAttempts);
    }
  }

  /**
   * A claimed job that nobody disturbs is never skipped: unless it crashes it ends READY with a
   * provider resource (or DELETED), or FAILED with the error it met, and it keeps its version.
   */
  lemma UndisturbedJobSettles(t: Table, job: Job, now: Time, answers: seq<Outside>, healthAttempts: nat)
    requires Claim(t, job, now).1.Claimed?
    ensures var (claimed, claim) := Claim(t, job, now);
      var (after, phase) := Drive(claimed, job, AfterClaim(job, claim), answers, healthAttempts);
      && (phase.Completed? || phase.GaveUp? || phase.Crashed?)
      && job.instance in after && after[job.instance].version == job.version
      && (phase.Completed? && job.command.Destroy? ==> after[job.instance].status == Deleted)
      && (phase.Completed? && job.command.Provision? ==>
            after[job.instance].status == Ready && after[job.instance].external.Some?)
      && (phase.GaveUp? ==> after[job.instance].status == Failed && after[job.instance].retryable == phase.retryable)
  {
    var (claimed, claim) := Claim(t, job, now);
    DriveStaysInStep(claimed, job, AfterClaim(job, claim), answers, healthAttempts);
  }
}
