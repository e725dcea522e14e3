/** Reconciliation findings and the sweeps that record them. */
module ReconciliationFindings {
  import opened Wrappers
  import opened DatabaseLifecycle

  type SweepId = nat
  type Person = nat

  datatype FindingStatus = Open | Approved | Cleaning | Resolved

  /** `count` is the number of observations since the finding was last opened. */
  datatype Finding = Finding(
    status: FindingStatus,
    sweep: SweepId,
    count: nat,
    firstSeen: Time,
    cleanupAfter: Option<Time>,
    approver: Option<Person>)

  datatype SweepStatus = Running | Succeeded | Unsuccessful

  datatype Sweep = Sweep(status: SweepStatus, startedAt: Time)

  /** Orphan findings are keyed by provider resource, missing-resource findings by instance. */
  datatype Db = Db(
    table: Table,
    sweeps: seq<Sweep>,
    orphans: map<ExternalId, Finding>,
    missing: map<InstanceId, Finding>)

  datatype ApproveResult = UnknownFinding | NotReady | ApprovalStands

  // ---- Observing and resolving ----

  /** One row per fingerprint: created, reopened after RESOLVED, or counted up. */
  function Observe(existing: Option<Finding>, sweep: SweepId, now: Time, cleanupAfter: Option<Time>): Finding {
    if existing.None? || existing.value.status == Resolved then
      Finding(Open, sweep, 1, now, cleanupAfter, None)
    else existing.value.(sweep := sweep, count := existing.value.count + 1)
  }

  function Lookup<K>(m: map<K, Finding>, k: K): Option<Finding> {
    if k in m then Some(m[k]) else None
  }

  function ObserveOrphan(db: Db, sweep: SweepId, external: ExternalId, now: Time, grace: int): Db {
    db.(orphans := db.orphans[external := Observe(Lookup(db.orphans, external), sweep, now, Some(now + grace))])
  }

  /** The second absence in a row fails a serving instance that has not moved since it was listed. */
  function ObserveMissing(db: Db, sweep: SweepId, id: InstanceId, seen: Row, now: Time): Db {
    var finding := Observe(Lookup(db.missing, id), sweep, now, None);
    db.(missing := db.missing[id := finding], table := FailMissing(db.table, id, seen, finding.count))
  }

  function ResolveMissing(db: Db, id: InstanceId): Db {
    if id in db.missing && db.missing[id].status in {Open, Approved}
    then db.(missing := db.missing[id := db.missing[id].(status := Resolved)])
    else db
  }

  function Close(f: Finding): Finding {
    f.(status := Resolved)
  }

  function ResolveOrphan(db: Db, external: ExternalId): Db {
    if external in db.orphans then db.(orphans := db.orphans[external := Close(db.orphans[external])]) else db
  }

  function ResolveUnseen(db: Db, seen: seq<ExternalId>): Db {
    db.(orphans := map external | external in db.orphans ::
          if external in seen then db.orphans[external] else Close(db.orphans[external]))
  }

  // ---- Sweeps ----

  function Abandon(sweeps: seq<Sweep>, abandonedBefore: Time): seq<Sweep> {
    seq(|sweeps|, i requires 0 <= i < |sweeps| =>
          if sweeps[i].status == Running && sweeps[i].startedAt <= abandonedBefore
          then sweeps[i].(status := Unsuccessful) else sweeps[i])
  }

  /** A claim whose sweep no longer runs goes back to APPROVED. */
  function Requeue(f: Finding, sweeps: seq<Sweep>): Finding {
    if f.status == Cleaning && f.sweep < |sweeps| && sweeps[f.sweep].status != Running
    then f.(status := Approved) else f
  }

  predicate AnyRunning(sweeps: seq<Sweep>) {
    exists i :: 0 <= i < |sweeps| && sweeps[i].status == Running
  }

  /** Two running sweeps violate a uniqueness constraint, which rolls the transaction back. */
  function BeginSweep(db: Db, now: Time, abandonedBefore: Time): (Db, Option<SweepId>) {
    var sweeps := Abandon(db.sweeps, abandonedBefore);
    if AnyRunning(sweeps) then (db, None)
    else
      (db.(sweeps := sweeps + [Sweep(Running, now)],
           orphans := map external | external in db.orphans :: Requeue(db.orphans[external], sweeps),
           missing := map id | id in db.missing :: Requeue(db.missing[id], sweeps)),
       Some(|sweeps|))
  }

  function EndSweep(db: Db, sweep: SweepId, status: SweepStatus): Db {
    if sweep < |db.sweeps| && db.sweeps[sweep].status == Running
    then db.(sweeps := db.sweeps[sweep := db.sweeps[sweep].(status := status)]) else db
  }

  // ---- Approval and cleanup ----

  predicate LiveTracker(t: Table, external: ExternalId) {
    exists id :: id in t && t[id].external == Some(external) && t[id].status != Deleted
  }

  predicate Claimable(db: Db, sweep: SweepId, external: ExternalId, now: Time) {
    && sweep < |db.sweeps| && db.sweeps[sweep].status == Running
    && external in db.orphans
    && var f := db.orphans[external];
       && f.sweep == sweep && f.status == Approved && f.count >= 2
       && f.cleanupAfter.Some? && f.cleanupAfter.value <= now
       && !LiveTracker(db.table, external)
  }

  function ClaimCleanup(db: Db, sweep: SweepId, external: ExternalId, now: Time): (Db, bool) {
    if Claimable(db, sweep, external, now)
    then (db.(orphans := db.orphans[external := db.orphans[external].(status := Cleaning)]), true)
    else (db, false)
  }

  /** Not scoped to a sweep: whoever calls it puts the finding back. */
  function ReleaseClaim(db: Db, external: ExternalId): Db {
    if external in db.orphans && db.orphans[external].status == Cleaning
    then db.(orphans := db.orphans[external := db.orphans[external].(status := Approved)]) else db
  }

  function Approve(db: Db, external: ExternalId, approver: Person): (Db, ApproveResult) {
    if external !in db.orphans then (db, UnknownFinding)
    else
      var f := db.orphans[external];
      if f.status == Approved then (db, ApprovalStands)
      else if f.status != Open || f.count < 2 then (db, NotReady)
      else
        (db.(orphans := db.orphans[external := f.(status := Approved, approver := Some(approver))]), ApprovalStands)
  }

  /** The reconciliation repository. Every method is one transaction. */
  class DatabaseReconciliationRepository {
    const instances: DatabaseInstances
    var sweeps: seq<Sweep>
    var orphans: map<ExternalId, Finding>
    var missing: map<InstanceId, Finding>

    constructor (instances: DatabaseInstances)
      ensures this.instances == instances && State() == Db(instances.rows, [], map[], map[])
    {
      this.instances, sweeps, orphans, missing := instances, [], map[], map[];
    }

    function State(): Db
      reads this, instances
    {
      Db(instances.rows, sweeps, orphans, missing)
    }

    method Begin(now: Time, abandonedBefore: Time) returns (r: Option<SweepId>)
      modifies this
      ensures (State(), r) == BeginSweep(old(State()), now, abandonedBefore)
    {
      var marked := Abandon(sweeps, abandonedBefore);
      if exists i :: 0 <= i < |marked| && marked[i].status == Running {
        return None;
      }
      orphans := map external | external in orphans :: Requeue(orphans[external], marked);
      missing := map id | id in missing :: Requeue(missing[id], marked);
      sweeps := marked + [Sweep(Running, now)];
      r := Some(|marked|);
    }

    method ObserveOrphanResource(sweep: SweepId, external: ExternalId, now: Time, grace: int) returns (r: Finding)
      modifies this
      ensures State() == ObserveOrphan(old(State()), sweep, external, now, grace)
      ensures external in orphans && r == orphans[external]
    {
      if external !in orphans || orphans[external].status == Resolved {
        r := Finding(Open, sweep, 1, now, Some(now + grace), None);
      } else {
        r := orphans[external].(sweep := sweep, count := orphans[external].count + 1);
      }
      orphans := orphans[external := r];
    }

    method ObserveMissingResource(sweep: SweepId, id: InstanceId, seen: Row, now: Time)
      modifies this, instances
      ensures State() == ObserveMissing(old(State()), sweep, id, seen, now)
    {
      var finding := Finding(Open, sweep, 1, now, None, None);
      if id in missing && missing[id].status != Resolved {
        finding := missing[id].(sweep := sweep, count := missing[id].count + 1);
      }
      missing := missing[id := finding];
      if finding.count < 2 || seen.status !in {Ready, Active, Suspended} {
        return;
      }
      if id in instances.rows && instances.rows[id].version == seen.version
         && instances.rows[id].status in {Ready, Active, Suspended} {
        instances.rows := instances.rows[id := instances.rows[id].(status := Failed, retryable := false)];
      }
    }

    method ResolveMissingResource(id: InstanceId)
      modifies this
      ensures State() == ResolveMissing(old(State()), id)
    {
      if id in missing && missing[id].status in {Open, Approved} {
        missing := missing[id := missing[id].(status := Resolved)];
      }
    }

    method ResolveOrphanResource(external: ExternalId)
      modifies this
      ensures State() == ResolveOrphan(old(State()), external)
    {
      if external in orphans && orphans[external].status in {Open, Approved, Cleaning} {
        orphans := orphans[external := orphans[external].(status := Resolved)];
      } else if external in orphans {
        assert orphans[external].status.Resolved?;
        assert Close(orphans[external]) == orphans[external];
        assert orphans[external := orphans[external]] == orphans;
      }
    }

    method ResolveUnseenOrphanResources(seen: seq<ExternalId>)
      modifies this
      ensures State() == ResolveUnseen(old(State()), seen)
    {
      orphans := map external | external in orphans ::
        if external in seen then orphans[external] else orphans[external].(status := Resolved);
    }

    method ClaimOrphanCleanup(sweep: SweepId, external: ExternalId, now: Time) returns (ok: bool)
      modifies this
      ensures (State(), ok) == ClaimCleanup(old(State()), sweep, external, now)
    {
      if sweep >= |sweeps| || sweeps[sweep].status != Running || external !in orphans {
        return false;
      }
      var f := orphans[external];
      if f.sweep != sweep || f.status != Approved || f.count < 2 || f.cleanupAfter.None? || f.cleanupAfter.value > now {
        return false;
      }
      if exists id :: id in instances.rows && instances.rows[id].external == Some(external)
                      && instances.rows[id].status != Deleted {
        return false;
      }
      orphans := orphans[external := f.(status := Cleaning)];
      ok := true;
    }

    method ReleaseOrphanCleanupClaim(external: ExternalId)
      modifies this
      ensures State() == ReleaseClaim(old(State()), external)
    {
      if external in orphans && orphans[external].status == Cleaning {
        orphans := orphans[external := orphans[external].(status := Approved)];
      }
    }

    method ApproveOrphanCleanup(external: ExternalId, approver: Person) returns (r: ApproveResult)
      modifies this
      ensures (State(), r) == Approve(old(State()), external, approver)
    {
      if external !in orphans {
        return UnknownFinding;
      }
      var finding := orphans[external];
      if finding.status == Approved {
        return ApprovalStands;
      }
      if finding.status != Open || finding.count < 2 {
        return NotReady;
      }
      orphans := orphans[external := finding.(status := Approved, approver := Some(approver))];
      r := ApprovalStands;
    }

    method FinishSweep(sweep: SweepId, status: SweepStatus)
      modifies this
      ensures State() == EndSweep(old(State()), sweep, status)
    {
      if sweep < |sweeps| && sweeps[sweep].status == Running {
        sweeps := sweeps[sweep := sweeps[sweep].(status := status)];
      }
    }
  }
}
