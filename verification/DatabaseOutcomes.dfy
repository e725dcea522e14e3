/** How an undisturbed job ends, read off what the outside world answers. */
module DatabaseOutcomes {
  import opened Wrappers
  import opened DatabaseLifecycle
  import opened DatabaseProcessor

  /** How many polls in a row find the resource pending. */
  function Pendings(answers: seq<Outside>): nat {
    if answers == [] || answers[0].health != Ok(Pending) then 0 else 1 + Pendings(answers[1..])
  }

  /** The verdict of the first poll that is not pending, if there is one within the allowed polls; then the migration's. */
  function HealthVerdict(answers: seq<Outside>, polls: nat): Phase {
    var n := Pendings(answers);
    if n >= polls then GaveUp(true)
    else if |answers| <= n then Crashed
    else
      match answers[n].health
      case Err(retryable) => GaveUp(retryable)
      case Ok(Unhealthy) => GaveUp(true)
      case Ok(_) =>
        if |answers| <= n + 2 then Crashed
        else if answers[n + 2].migrate.Err? then GaveUp(answers[n + 2].migrate.error)
        else Completed
  }

  function ProvisionVerdict(taken: bool, answers: seq<Outside>, polls: nat): Phase {
    if answers == [] then Crashed
    else if answers[0].provision.Err? then GaveUp(answers[0].provision.error)
    else if taken then GaveUp(false)
    else HealthVerdict(answers[1..], polls)
  }

  function DestroyVerdict(external: Option<ExternalId>, answers: seq<Outside>): Phase {
    if answers == [] then Crashed
    else if external.Some? && answers[0].destroy.Err? then GaveUp(answers[0].destroy.error)
    else Completed
  }

  /** The job ended as the verdict says, or was cut off before it could. */
  predicate EndsAs(phase: Phase, verdict: Phase) {
    phase == verdict || phase.Crashed?
  }

  lemma NextStep(t: Table, job: Job, phase: Phase, answers: seq<Outside>, healthAttempts: nat)
    requires !Final(phase) && answers != []
    ensures var (t', phase') := Advance(t, job, phase, answers[0], healthAttempts);
      Drive(t, job, phase, answers, healthAttempts) == Drive(t', job, phase', answers[1..], healthAttempts)
  {
  }

  lemma FailureEnds(t: Table, job: Job, retryable: bool, answers: seq<Outside>, healthAttempts: nat)
    ensures EndsAs(Drive(t, job, Failing(retryable), answers, healthAttempts).1, GaveUp(retryable))
    ensures answers != [] ==> Drive(t, job, Failing(retryable), answers, healthAttempts).1 == GaveUp(retryable)
  {
  }

  lemma HealthyEnds(t: Table, job: Job, answers: seq<Outside>, healthAttempts: nat)
    requires OwnsIn(t, job, HealthCheck)
    ensures var phase := Drive(t, job, SawHealthy, answers, healthAttempts).1;
      EndsAs(phase, if |answers| <= 1 then Crashed
                    else if answers[1].migrate.Err? then GaveUp(answers[1].migrate.error) else Completed)
      && (|answers| >= 3 ==> !phase.Crashed?)
  {
    if answers != [] {
      NextStep(t, job, SawHealthy, answers, healthAttempts);
      var (t1, p1) := Advance(t, job, SawHealthy, answers[0], healthAttempts);
      if |answers| > 1 {
        NextStep(t1, job, p1, answers[1..], healthAttempts);
        var (t2, p2) := Advance(t1, job, p1, answers[1], healthAttempts);
        if p2.Failing? {
          FailureEnds(t2, job, p2.retryable, answers[1..][1..], healthAttempts);
        }
      }
    }
  }

  lemma {:induction false} PollingEnds(t: Table, job: Job, polls: nat, answers: seq<Outside>, healthAttempts: nat)
    requires OwnsIn(t, job, HealthCheck) && polls <= healthAttempts
    ensures var phase := Drive(t, job, Polling(polls), answers, healthAttempts).1;
      EndsAs(phase, HealthVerdict(answers, healthAttempts - polls))
      && (|answers| >= healthAttempts - polls + 4 ==> !phase.Crashed?)
    decreases |answers|
  {
    if answers != [] {
      NextStep(t, job, Polling(polls), answers, healthAttempts);
      var (t1, p1) := Advance(t, job, Polling(polls), answers[0], healthAttempts);
      if p1.Failing? {
        FailureEnds(t1, job, p1.retryable, answers[1..], healthAttempts);
      } else if p1.SawHealthy? {
        HealthyEnds(t1, job, answers[1..], healthAttempts);
      } else {
        PollingEnds(t1, job, polls + 1, answers[1..], healthAttempts);
        PendingShifts(answers, healthAttempts - polls);
      }
    }
  }

  lemma PendingShifts(answers: seq<Outside>, polls: nat)
    requires answers != [] && answers[0].health == Ok(Pending) && polls > 0
    ensures HealthVerdict(answers, polls) == HealthVerdict(answers[1..], polls - 1)
  {
  }

  lemma CreationEnds(t: Table, job: Job, answers: seq<Outside>, healthAttempts: nat)
    requires OwnsIn(t, job, Provisioning)
    ensures var phase := Drive(t, job, Creating, answers, healthAttempts).1;
      var taken := answers != [] && answers[0].provision.Ok? && ExternalTaken(t, job.instance, answers[0].provision.value);
      EndsAs(phase, ProvisionVerdict(taken, answers, healthAttempts))
      && (|answers| >= healthAttempts + 5 ==> !phase.Crashed?)
  {
    if answers != [] {
      NextStep(t, job, Creating, answers, healthAttempts);
      var (t1, p1) := Advance(t, job, Creating, answers[0], healthAttempts);
      if p1.Failing? {
        FailureEnds(t1, job, p1.retryable, answers[1..], healthAttempts);
      } else {
        PollingEnds(t1, job, 0, answers[1..], healthAttempts);
      }
    }
  }

  lemma TearingEnds(t: Table, job: Job, external: Option<ExternalId>, answers: seq<Outside>, healthAttempts: nat)
    requires OwnsIn(t, job, Deleting)
    ensures var phase := Drive(t, job, Tearing(external), answers, healthAttempts).1;
      EndsAs(phase, DestroyVerdict(external, answers)) && (|answers| >= 2 ==> !phase.Crashed?)
  {
    if answers != [] {
      NextStep(t, job, Tearing(external), answers, healthAttempts);
      var (t1, p1) := Advance(t, job, Tearing(external), answers[0], healthAttempts);
      if p1.Failing? {
        FailureEnds(t1, job, p1.retryable, answers[1..], healthAttempts);
      }
    }
  }

  /**
   * A claimed job that nobody disturbs ends as the outside world decides, unless it is cut off. A
   * provision job gives up with the provider's own error, on a resource that someone else holds, on
   * the first poll that is not pending and not healthy, after the allowed number of pending polls, or
   * with the migration's error; otherwise it completes. A destroy job asks the provider only if there
   * is a resource. With enough answers it is not cut off.
   */
  lemma UndisturbedJobEndsAsAnswered(t: Table, job: Job, now: Time, answers: seq<Outside>, healthAttempts: nat)
    requires Claim(t, job, now).1.Claimed?
    ensures var (claimed, claim) := Claim(t, job, now);
      var phase := Drive(claimed, job, AfterClaim(job, claim), answers, healthAttempts).1;
      var taken := answers != [] && answers[0].provision.Ok?
                   && ExternalTaken(claimed, job.instance, answers[0].provision.value);
      && EndsAs(phase, if job.command.Destroy? then DestroyVerdict(t[job.instance].external, answers)
                       else ProvisionVerdict(taken, answers, healthAttempts))
      && (|answers| >= healthAttempts + 5 ==> !phase.Crashed?)
  {
    var (claimed, claim) := Claim(t, job, now);
    if job.command.Destroy? {
      TearingEnds(claimed, job, claim.record.external, answers, healthAttempts);
    } else {
      CreationEnds(claimed, job, answers, healthAttempts);
    }
  }
}
