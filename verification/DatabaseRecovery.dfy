/** Which instances a sweep recovers, what that leaves of each, and why a moving instance is left alone. */
module DatabaseRecovery {
  import opened Wrappers
  import opened DatabaseLifecycle
  import opened DatabaseProcessor
  import opened DatabaseHistory
  import opened DatabaseLaws

  // ---- Every transaction beats the heart ----

  function TimeOf(step: Step): Option<Time> {
    match step
    case CreateInstance(_, _, _, now) => Some(now)
    case DestroyAction(_, now) => Some(now)
    case ClaimStep(_, now) => Some(now)
    case WorkerStep(_, outside, _) => Some(outside.now)
    case RecoverStep(_, _, now, _, _) => Some(now)
    case MarkFailed(_, _, now) => Some(now)
    case MissingTwice(_, _) => None
  }

  predicate Beats(t: Table, t': Table, id: InstanceId, now: Time) {
    id in t' ==> (id in t && t'[id] == t[id]) || t'[id].heartbeat == Some(now)
  }

  lemma AdvanceBeats(t: Table, job: Job, phase: Phase, o: Outside, healthAttempts: nat, id: InstanceId)
    ensures Beats(t, Advance(t, job, phase, o, healthAttempts).0, id, o.now)
  {
  }

  /** A row that a transaction changes carries that transaction's time; only the mark for a missing resource does not. */
  lemma EveryTransactionBeatsTheHeart(steps: seq<Step>, step: Step, id: InstanceId)
    requires TimeOf(step).Some?
    ensures Beats(Run(steps).table, Apply(Run(steps), step).table, id, TimeOf(step).value)
  {
    var w := Run(steps);
    match step
    case WorkerStep(i, o, healthAttempts) =>
      if i < |w.workers| {
        AdvanceBeats(w.table, w.workers[i].job, w.workers[i].phase, o, healthAttempts, id);
      }
    case RecoverStep(order, staleBefore, now, max, limit) =>
      RecoveryBeats(w.table, TakeFirst(Candidates(w.table, order, staleBefore), limit), now, max, id);
    case _ =>
  }

  lemma {:induction false} RecoveryBeats(start: Table, ids: seq<InstanceId>, now: Time, max: nat, id: InstanceId)
    ensures Beats(start, RecoverAll(Plan(start, [], 0), ids, now, max).table, id, now)
  {
    if ids != [] {
      RecoveryBeats(start, ids[..|ids| - 1], now, max, id);
    }
  }

  // ---- Only a failure can be retried ----

  predicate RetryFits(t: Table) {
    forall id :: id in t && t[id].retryable ==> t[id].status == Failed
  }

  lemma {:induction false} RecoveryKeepsRetry(start: Table, ids: seq<InstanceId>, now: Time, max: nat)
    requires RetryFits(start)
    ensures RetryFits(RecoverAll(Plan(start, [], 0), ids, now, max).table)
  {
    if ids != [] {
      RecoveryKeepsRetry(start, ids[..|ids| - 1], now, max);
    }
  }

  /** A stored retryable error is on no row but a FAILED one: whatever takes the instance up again clears it. */
  lemma {:induction false} OnlyFailuresAreRetryable(steps: seq<Step>)
    ensures RetryFits(Run(steps).table)
  {
    if steps != [] {
      var w, step := Run(steps[..|steps| - 1]), steps[|steps| - 1];
      OnlyFailuresAreRetryable(steps[..|steps| - 1]);
      if step.RecoverStep? {
        RecoveryKeepsRetry(w.table, TakeFirst(Candidates(w.table, step.order, step.staleBefore), step.limit), step.now,
          step.max);
      } else {
        OtherStepsKeepRetry(w, step);
      }
    }
  }

  lemma OtherStepsKeepRetry(w: World, step: Step)
    requires RetryFits(w.table) && !step.RecoverStep?
    ensures RetryFits(Apply(w, step).table)
  {
  }

  // ---- What a recovery sweep does to one instance ----

  /** Under way, being deleted or failed, and without a sign of life since `staleBefore`. */
  predicate Stale(row: Row, staleBefore: Time) {
    && row.status !in {Ready, Active, Suspended, Deleted}
    && (row.heartbeat.None? || row.heartbeat.value <= staleBefore)
  }

  /** A failure that no retry would help is left as it is. */
  predicate GivenUp(row: Row) {
    row.status == Failed && !row.retryable
  }

  /** What a sweep leaves of a stale row: given up, used up, or fenced one version and one recovery up. */
  function Recovered(row: Row, now: Time, max: nat): Row {
    if GivenUp(row) then row
    else if row.recoveries >= max then row.(status := Failed, heartbeat := Some(now), retryable := false)
    else row.(version := row.version + 1, recoveries := row.recoveries + 1, heartbeat := Some(now))
  }

  predicate IsDispatched(row: Row, max: nat) {
    !GivenUp(row) && row.recoveries < max
  }

  function RecoveryJob(id: InstanceId, row: Row): Job {
    Job(id, row.version + 1, if row.status == Deleting then Destroy else Provision)
  }

  function CountExhausted(t: Table, ids: seq<InstanceId>, max: nat): nat {
    if ids == [] then 0
    else
      var id := ids[|ids| - 1];
      CountExhausted(t, ids[..|ids| - 1], max)
      + if id in t && !GivenUp(t[id]) && t[id].recoveries >= max then 1 else 0
  }

  /** The plan over distinct rows, row by row. */
  ghost predicate PlanIs(start: Table, ids: seq<InstanceId>, now: Time, max: nat, q: Plan) {
    && q.table.Keys == start.Keys
    && (forall id :: id in start ==> q.table[id] == if id in ids then Recovered(start[id], now, max) else start[id])
    && (forall job :: job in q.dispatches <==>
          job.instance in ids && job.instance in start && IsDispatched(start[job.instance], max)
          && job == RecoveryJob(job.instance, start[job.instance]))
    && q.exhausted == CountExhausted(start, ids, max)
  }

  lemma OneMoreRow(start: Table, ids: seq<InstanceId>, id: InstanceId, now: Time, max: nat, p: Plan)
    requires PlanIs(start, ids, now, max, p) && id !in ids
    ensures PlanIs(start, ids + [id], now, max, RecoverOne(p, id, now, max))
  {
    var q, all := RecoverOne(p, id, now, max), ids + [id];
    assert all[..|ids|] == ids && forall x :: x in all <==> x in ids || x == id;
    if id in start && IsDispatched(start[id], max) {
      assert q.dispatches == p.dispatches + [RecoveryJob(id, start[id])];
    }
  }

  lemma {:induction false} RecoveryPlanIs(start: Table, ids: seq<InstanceId>, now: Time, max: nat)
    requires Distinct(ids)
    ensures PlanIs(start, ids, now, max, RecoverAll(Plan(start, [], 0), ids, now, max))
  {
    if ids != [] {
      var n := |ids| - 1;
      RecoveryPlanIs(start, ids[..n], now, max);
      OneMoreRow(start, ids[..n], ids[n], now, max, RecoverAll(Plan(start, [], 0), ids[..n], now, max));
      assert ids[..n] + [ids[n]] == ids;
    }
  }

  /** The instances a sweep takes up: stale ones, the first `limit` of them in the database's order. */
  function TakenUp(t: Table, step: Step): seq<InstanceId>
    requires step.RecoverStep?
  {
    TakeFirst(Candidates(t, step.order, step.staleBefore), step.limit)
  }

  lemma StaleIsCandidate(row: Row, staleBefore: Time)
    ensures Stale(row, staleBefore) <==> Candidate(row, staleBefore)
  {
    match row.status
    case Ready =>
    case Active =>
    case Suspended =>
    case Deleted =>
    case Queued =>
    case Provisioning =>
    case HealthCheck =>
    case Migrating =>
    case Failed =>
    case Deleting =>
  }

  /**
   * A sweep takes up only stale instances, and all of them if its limit allows. Each of these is left
   * alone if it has been given up, failed for good if its recoveries are used up, and otherwise fenced
   * one version up and handed to the queue under that version, as a destroy exactly if it was being
   * deleted. Every other row stays as it is, and the used-up ones are counted.
   */
  lemma RecoveryIsExact(steps: seq<Step>, step: Step)
    requires step.RecoverStep? && Distinct(step.order)
    ensures var t := Run(steps).table;
      && PlanIs(t, TakenUp(t, step), step.now, step.max,
                RecoverStale(t, step.order, step.staleBefore, step.now, step.max, step.limit))
      && |TakenUp(t, step)| <= step.limit
      && (forall id :: id in TakenUp(t, step) ==> id in t && Stale(t[id], step.staleBefore))
      && (step.limit >= |step.order| ==>
            forall id :: id in t && id in step.order && Stale(t[id], step.staleBefore) ==> id in TakenUp(t, step))
  {
    var t := Run(steps).table;
    var candidates := Candidates(t, step.order, step.staleBefore);
    CandidatesAreDistinct(t, step.order, step.staleBefore);
    CandidatesAreFew(t, step.order, step.staleBefore);
    RecoveryPlanIs(t, TakenUp(t, step), step.now, step.max);
    forall id | id in t
      ensures Stale(t[id], step.staleBefore) <==> Candidate(t[id], step.staleBefore)
    {
      StaleIsCandidate(t[id], step.staleBefore);
    }
    forall id | id in TakenUp(t, step)
      ensures Listed(t, step.order, step.staleBefore, id)
    {
      assert id in candidates;
    }
    forall id | id in t && id in step.order && Stale(t[id], step.staleBefore)
      ensures id in candidates
    {
      assert Listed(t, step.order, step.staleBefore, id);
    }
  }

  lemma {:induction false} CandidatesAreFew(t: Table, order: seq<InstanceId>, staleBefore: Time)
    ensures |Candidates(t, order, staleBefore)| <= |order|
  {
    if order != [] {
      CandidatesAreFew(t, order[..|order| - 1], staleBefore);
    }
  }

  // ---- Destroy requests ----

  /**
   * A destroy request on what is already being deleted is accepted again and only queues its job
   * again; on a deleted instance, or one still under way, it changes nothing.
   */
  lemma RepeatedDestroyChangesNoRow(steps: seq<Step>, id: InstanceId, now: Time)
    requires id in Run(steps).table && !RequestsDestroy(Run(steps), DestroyAction(id, now), id)
    ensures var w, next := Run(steps), Apply(Run(steps), DestroyAction(id, now));
      && next.table == w.table && next.log == w.log
      && next.jobs == (if w.table[id].status == Deleting then w.jobs + {Job(id, w.table[id].version, Destroy)} else w.jobs)
  {
  }

  // ---- A worker needs its own status ----

  /** The status in which a worker of this phase may write. */
  function StatusFor(phase: Phase): Status {
    match phase
    case Creating => Provisioning
    case Polling(_) => HealthCheck
    case SawHealthy => HealthCheck
    case Applying => Migrating
    case _ => Deleting
  }

  /** A worker goes on, or writes anything but a failure, only while the row is at its version and in its status. */
  lemma WorkerNeedsItsStatus(t: Table, job: Job, phase: Phase, o: Outside, healthAttempts: nat)
    requires !Final(phase) && !phase.Failing?
    ensures var (t', phase') := Advance(t, job, phase, o, healthAttempts);
      t' != t || !(phase'.Skipped? || phase'.Failing?) ==> OwnsIn(t, job, StatusFor(phase))
  {
  }
}
