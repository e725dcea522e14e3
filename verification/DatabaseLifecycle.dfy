/** Generated-database rows and the transactions that move them. */
module DatabaseLifecycle {
  import opened Wrappers

  type InstanceId = nat
  type ExternalId = nat
  type Time = int

  datatype Status =
    | Queued | Provisioning | HealthCheck | Migrating | Ready | Active | Suspended | Failed | Deleting | Deleted

  /**
   * `artifact` and `region` say that those columns are filled; `retryable` that the stored error
   * carries `retryable: true`.
   */
  datatype Row = Row(
    status: Status,
    version: nat,
    recoveries: nat,
    attempt: nat,
    external: Option<ExternalId>,
    retryable: bool,
    heartbeat: Option<Time>,
    artifact: bool,
    region: bool)

  type Table = map<InstanceId, Row>

  datatype Command = Provision | Destroy

  datatype Job = Job(instance: InstanceId, version: nat, command: Command)

  datatype ClaimResult = Missing | Stale | Claimed(record: Row)

  datatype ActionResult = NotFound | InvalidStatus | Accepted(row: Row)

  // ---- Worker transactions ----

  predicate Owns(t: Table, job: Job) {
    job.instance in t && t[job.instance].version == job.version
  }

  predicate OwnsIn(t: Table, job: Job, status: Status) {
    Owns(t, job) && t[job.instance].status == status
  }

  function Claim(t: Table, job: Job, now: Time): (Table, ClaimResult) {
    if job.instance !in t then (t, Missing)
    else
      var row := t[job.instance];
      if row.version != job.version || !row.artifact || !row.region then (t, Stale)
      else if job.command.Destroy? then
        if row.status != Deleting then (t, Stale)
        else (t[job.instance := row.(heartbeat := Some(now), attempt := row.attempt + 1)], Claimed(row))
      else if row.status in {Ready, Active, Deleting, Deleted} then (t, Stale)
      else
        var next := row.(status := Provisioning, attempt := row.attempt + 1, heartbeat := Some(now), retryable := false);
        (t[job.instance := next], Claimed(next))
  }

  /** Two rows never share a provider resource: a database uniqueness constraint. */
  predicate ExternalTaken(t: Table, instance: InstanceId, external: ExternalId) {
    exists id :: id in t && id != instance && t[id].external == Some(external)
  }

  /** The guarded updates that a worker issues; each says whether its row matched. */
  function RecordProvisioned(t: Table, job: Job, external: ExternalId, now: Time): (Table, bool)
  {
    if !OwnsIn(t, job, Provisioning) || ExternalTaken(t, job.instance, external) then (t, false)
    else
      (t[job.instance := t[job.instance].(external := Some(external), status := HealthCheck, heartbeat := Some(now))],
       true)
  }

  function RecordHealthCheck(t: Table, job: Job, now: Time): (Table, bool) {
    if !OwnsIn(t, job, HealthCheck) then (t, false)
    else (t[job.instance := t[job.instance].(heartbeat := Some(now))], true)
  }

  function StartMigration(t: Table, job: Job, now: Time): (Table, bool) {
    if !OwnsIn(t, job, HealthCheck) then (t, false)
    else (t[job.instance := t[job.instance].(status := Migrating, heartbeat := Some(now))], true)
  }

  function CompleteMigration(t: Table, job: Job, now: Time): (Table, bool) {
    if !OwnsIn(t, job, Migrating) then (t, false)
    else (t[job.instance := t[job.instance].(status := Ready, heartbeat := Some(now), retryable := false)], true)
  }

  function CompleteDestroy(t: Table, job: Job, now: Time): (Table, bool) {
    if !OwnsIn(t, job, Deleting) then (t, false)
    else (t[job.instance := t[job.instance].(status := Deleted, heartbeat := Some(now), retryable := false)], true)
  }

  /** Guarded by the version alone: `fail`, the API's and the reconciler's failure marks. */
  function Fail(t: Table, job: Job, retryable: bool, now: Time): Table {
    if !Owns(t, job) then t
    else t[job.instance := t[job.instance].(status := Failed, retryable := retryable, heartbeat := Some(now))]
  }

  // ---- API transactions ----

  function Create(t: Table, id: InstanceId, artifact: bool, region: bool, now: Time): Table {
    if id in t then t else t[id := Row(Queued, 0, 0, 0, None, false, Some(now), artifact, region)]
  }

  function RequestDestroy(t: Table, id: InstanceId, now: Time): (Table, ActionResult) {
    if id !in t then (t, NotFound)
    else
      var row := t[id];
      if row.status in {Deleting, Deleted} then (t, Accepted(row))
      else if row.status !in {Ready, Active, Suspended, Failed} then (t, InvalidStatus)
      else
        var next := row.(status := Deleting, version := row.version + 1, heartbeat := Some(now), retryable := false);
        (t[id := next], Accepted(next))
  }

  // ---- Reconciliation transactions ----

  predicate Candidate(row: Row, staleBefore: Time) {
    && row.status in {Queued, Provisioning, HealthCheck, Migrating, Deleting, Failed}
    && (row.heartbeat.Some? ==> row.heartbeat.value <= staleBefore)
  }

  /** The rows the query returns: `order` is the database's ordering of the table. */
  function Candidates(t: Table, order: seq<InstanceId>, staleBefore: Time): seq<InstanceId> {
    if order == [] then []
    else
      var rest := Candidates(t, order[..|order| - 1], staleBefore);
      var id := order[|order| - 1];
      if id in t && Candidate(t[id], staleBefore) then rest + [id] else rest
  }

  function TakeFirst<T>(s: seq<T>, limit: nat): seq<T> {
    if |s| <= limit then s else s[..limit]
  }

  /** `exhausted` counts the instances whose recoveries are used up. */
  datatype Plan = Plan(table: Table, dispatches: seq<Job>, exhausted: nat)

  function RecoverOne(p: Plan, id: InstanceId, now: Time, max: nat): Plan {
    if id !in p.table then p
    else
      var row := p.table[id];
      if row.status == Failed && !row.retryable then p
      else if row.recoveries >= max then
        Plan(p.table[id := row.(status := Failed, heartbeat := Some(now), retryable := false)],
             p.dispatches, p.exhausted + 1)
      else
        Plan(p.table[id := row.(version := row.version + 1, recoveries := row.recoveries + 1, heartbeat := Some(now))],
             p.dispatches + [Job(id, row.version + 1, if row.status == Deleting then Destroy else Provision)],
             p.exhausted)
  }

  function RecoverAll(p: Plan, ids: seq<InstanceId>, now: Time, max: nat): Plan {
    if ids == [] then p
    else RecoverOne(RecoverAll(p, ids[..|ids| - 1], now, max), ids[|ids| - 1], now, max)
  }

  function RecoverStale(t: Table, order: seq<InstanceId>, staleBefore: Time, now: Time, max: nat, limit: nat): Plan {
    RecoverAll(Plan(t, [], 0), TakeFirst(Candidates(t, order, staleBefore), limit), now, max)
  }

  /** A tracked resource as the sweep listed it some time ago: `seen` is that snapshot. */
  function FailMissing(t: Table, id: InstanceId, seen: Row, observations: nat): Table {
    if observations < 2 || seen.status !in {Ready, Active, Suspended} then t
    else if id !in t || t[id].version != seen.version || t[id].status !in {Ready, Active, Suspended} then t
    else t[id := t[id].(status := Failed, retryable := false)]
  }

  predicate Distinct<T(==)>(s: seq<T>) {
    forall i, j :: 0 <= i < j < |s| ==> s[i] != s[j]
  }

  predicate Listed(t: Table, order: seq<InstanceId>, staleBefore: Time, id: InstanceId) {
    id in order && id in t && Candidate(t[id], staleBefore)
  }

  /** Each stale row is a candidate exactly once, so every compare-and-swap of the loop meets the row it read. */
  lemma {:induction false} CandidatesAreDistinct(t: Table, order: seq<InstanceId>, staleBefore: Time)
    requires Distinct(order)
    ensures Distinct(Candidates(t, order, staleBefore))
    ensures forall id :: id in Candidates(t, order, staleBefore) <==> Listed(t, order, staleBefore, id)
  {
    if order != [] {
      var n := |order| - 1;
      CandidatesAreDistinct(t, order[..n], staleBefore);
      assert forall id :: (Listed(t, order, staleBefore, id)
        <==> Listed(t, order[..n], staleBefore, id) || (id == order[n] && id in t && Candidate(t[id], staleBefore)));
      assert order[n] !in order[..n];
      assert !Listed(t, order[..n], staleBefore, order[n]);
    }
  }

  lemma RecoverAllSnoc(p: Plan, ids: seq<InstanceId>, i: nat, now: Time, max: nat)
    requires i < |ids|
    ensures RecoverAll(p, ids[..i + 1], now, max) == RecoverOne(RecoverAll(p, ids[..i], now, max), ids[i], now, max)
  {
    assert ids[..i + 1][..i] == ids[..i];
  }

  /** The instance table behind the three repositories. Every method is one transaction. */
  class DatabaseInstances {
    var rows: Table

    constructor ()
      ensures rows == map[]
    {
      rows := map[];
    }

    method ClaimJob(job: Job, now: Time) returns (r: ClaimResult)
      modifies this
      ensures (rows, r) == Claim(old(rows), job, now)
    {
      if job.instance !in rows {
        return Missing;
      }
      var current := rows[job.instance];
      if current.version != job.version || !current.artifact || !current.region {
        return Stale;
      }
      if job.command == Destroy {
        if current.status != Deleting {
          return Stale;
        }
        rows := rows[job.instance := current.(heartbeat := Some(now), attempt := current.attempt + 1)];
        return Claimed(current);
      }
      if current.status in {Ready, Active, Deleting, Deleted} {
        return Stale;
      }
      var updated := current.(status := Provisioning, attempt := current.attempt + 1, heartbeat := Some(now),
        retryable := false);
      rows := rows[job.instance := updated];
      r := Claimed(updated);
    }

    /** An error result is the uniqueness violation: the transaction is rolled back and throws. */
    method Provisioned(job: Job, external: ExternalId, now: Time) returns (r: Result<bool, ()>)
      modifies this
      ensures rows == RecordProvisioned(old(rows), job, external, now).0
      ensures r == if !OwnsIn(old(rows), job, Provisioning) then Ok(false)
                   else if ExternalTaken(old(rows), job.instance, external) then Err(()) else Ok(true)
    {
      if job.instance !in rows || rows[job.instance].version != job.version
         || rows[job.instance].status != Provisioning {
        return Ok(false);
      }
      if exists id :: id in rows && id != job.instance && rows[id].external == Some(external) {
        return Err(());
      }
      rows := rows[job.instance :=
        rows[job.instance].(external := Some(external), status := HealthCheck, heartbeat := Some(now))];
      r := Ok(true);
    }

    method HealthChecked(job: Job, now: Time) returns (ok: bool)
      modifies this
      ensures (rows, ok) == RecordHealthCheck(old(rows), job, now)
    {
      ok := OwnsIn(rows, job, HealthCheck);
      if ok {
        rows := rows[job.instance := rows[job.instance].(heartbeat := Some(now))];
      }
    }

    method MigrationStarted(job: Job, now: Time) returns (ok: bool)
      modifies this
      ensures (rows, ok) == StartMigration(old(rows), job, now)
    {
      ok := OwnsIn(rows, job, HealthCheck);
      if ok {
        rows := rows[job.instance := rows[job.instance].(status := Migrating, heartbeat := Some(now))];
      }
    }

    method MigrationCompleted(job: Job, now: Time) returns (ok: bool)
      modifies this
      ensures (rows, ok) == CompleteMigration(old(rows), job, now)
    {
      ok := OwnsIn(rows, job, Migrating);
      if ok {
        rows := rows[job.instance :=
          rows[job.instance].(status := Ready, heartbeat := Some(now), retryable := false)];
      }
    }

    method DestroyCompleted(job: Job, now: Time) returns (ok: bool)
      modifies this
      ensures (rows, ok) == CompleteDestroy(old(rows), job, now)
    {
      ok := OwnsIn(rows, job, Deleting);
      if ok {
        rows := rows[job.instance :=
          rows[job.instance].(status := Deleted, heartbeat := Some(now), retryable := false)];
      }
    }

    method OperationFailed(job: Job, retryable: bool, now: Time)
      modifies this
      ensures rows == Fail(old(rows), job, retryable, now)
    {
      if Owns(rows, job) {
        rows := rows[job.instance :=
          rows[job.instance].(status := Failed, retryable := retryable, heartbeat := Some(now))];
      }
    }

    method CreateDatabaseOperation(id: InstanceId, artifact: bool, region: bool, now: Time)
      modifies this
      ensures rows == Create(old(rows), id, artifact, region, now)
    {
      if id !in rows {
        rows := rows[id := Row(Queued, 0, 0, 0, None, false, Some(now), artifact, region)];
      }
    }

    method RequestDatabaseAction(id: InstanceId, now: Time) returns (r: ActionResult)
      modifies this
      ensures (rows, r) == RequestDestroy(old(rows), id, now)
    {
      if id !in rows {
        return NotFound;
      }
      var current := rows[id];
      if current.status == Deleting || current.status == Deleted {
        return Accepted(current);
      }
      if current.status !in {Ready, Active, Suspended, Failed} {
        return InvalidStatus;
      }
      var database := current.(status := Deleting, version := current.version + 1, heartbeat := Some(now),
        retryable := false);
      rows := rows[id := database];
      r := Accepted(database);
    }

    /** `candidates` is read before the loop; each update still compares against what was read. */
    method RecoverStaleOperations(order: seq<InstanceId>, staleBefore: Time, now: Time, max: nat, limit: nat)
      returns (dispatches: seq<Job>, exhausted: nat)
      requires Distinct(order)
      modifies this
      ensures Plan(rows, dispatches, exhausted) == RecoverStale(old(rows), order, staleBefore, now, max, limit)
    {
      var listed := rows;
      var candidates := TakeFirst(Candidates(rows, order, staleBefore), limit);
      CandidatesAreDistinct(rows, order, staleBefore);
      forall k | 0 <= k < |candidates|
        ensures Listed(rows, order, staleBefore, candidates[k])
      {
        assert candidates[k] in Candidates(rows, order, staleBefore);
      }
      dispatches, exhausted := [], 0;
      ghost var begin := Plan(rows, [], 0);
      for i := 0 to |candidates|
        invariant Plan(rows, dispatches, exhausted) == RecoverAll(begin, candidates[..i], now, max)
        invariant forall k :: i <= k < |candidates| ==>
          candidates[k] in rows && candidates[k] in listed && rows[candidates[k]] == listed[candidates[k]]
      {
        RecoverAllSnoc(begin, candidates, i, now, max);
        var id := candidates[i];
        var candidate := listed[id];
        assert forall k :: i < k < |candidates| ==> candidates[k] != id;
        if candidate.status == Failed && !candidate.retryable {
          continue;
        }
        if candidate.recoveries >= max {
          if rows[id].version != candidate.version || rows[id].recoveries != candidate.recoveries {
            continue;
          }
          rows := rows[id := rows[id].(status := Failed, heartbeat := Some(now), retryable := false)];
          exhausted := exhausted + 1;
          continue;
        }
        var nextVersion := candidate.version + 1;
        if rows[id].version != candidate.version || rows[id].recoveries != candidate.recoveries
           || rows[id].status != candidate.status {
          continue;
        }
        rows := rows[id := rows[id].(version := nextVersion, recoveries := rows[id].recoveries + 1,
          heartbeat := Some(now))];
        dispatches := dispatches + [Job(id, nextVersion, if candidate.status == Deleting then Destroy else Provision)];
      }
      assert candidates[..|candidates|] == candidates;
    }
  }
}
