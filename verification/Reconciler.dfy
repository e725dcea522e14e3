/** One reconciliation sweep, and what it leaves behind when nothing else runs beside it. */
module Reconciler {
  import opened Wrappers
  import opened DatabaseLifecycle
  import opened ReconciliationFindings
  import opened ReconcilePasses

  /** A monotone clock; `ticks` is how far it moves before each reading. */
  class Clock {
    var time: Time
    var readings: nat
    const ticks: nat -> nat

    constructor (time: Time, ticks: nat -> nat)
      ensures this.time == time && readings == 0 && this.ticks == ticks
    {
      this.time, readings, this.ticks := time, 0, ticks;
    }

    method Now() returns (t: Time)
      modifies this
      ensures t == time >= old(time)
    {
      time := time + ticks(readings);
      readings := readings + 1;
      t := time;
    }
  }

  /** The provider's inventory; `unreachable` are the resources whose destroy call fails. */
  class DatabaseProvider {
    var resources: seq<ExternalId>
    const available: bool
    const unreachable: set<ExternalId>

    constructor (resources: seq<ExternalId>, available: bool, unreachable: set<ExternalId>)
      ensures this.resources == resources && this.available == available && this.unreachable == unreachable
    {
      this.resources, this.available, this.unreachable := resources, available, unreachable;
    }

    method ListManagedResources() returns (r: Option<seq<ExternalId>>)
      ensures r == if available then Some(resources) else None
    {
      r := if available then Some(resources) else None;
    }

    method DestroyResource(external: ExternalId) returns (ok: bool)
      modifies this
      ensures ok == (external !in unreachable)
      ensures resources == if ok then Without(old(resources), external) else old(resources)
    {
      ok := external !in unreachable;
      if ok {
        resources := Without(resources, external);
      }
    }
  }

  datatype Outcome = SweepCompleted(summary: Summary) | Locked | SweepFailed

  /** `enqueues(k)` says whether the queue takes the k-th dispatch of this sweep. */
  class DatabaseReconciler {
    const repository: DatabaseReconciliationRepository
    const provider: DatabaseProvider
    const clock: Clock
    const enqueues: nat -> bool
    const staleAfter: nat
    const grace: nat
    const abandonedAfter: nat
    const maxRecoveries: nat
    const batch: nat
    const cleanup: bool

    constructor (repository: DatabaseReconciliationRepository, provider: DatabaseProvider, clock: Clock,
                 enqueues: nat -> bool, staleAfter: nat, grace: nat, abandonedAfter: nat, maxRecoveries: nat,
                 batch: nat, cleanup: bool)
      ensures this.repository == repository && this.provider == provider && this.clock == clock
      ensures this.enqueues == enqueues && this.staleAfter == staleAfter && this.grace == grace
      ensures this.abandonedAfter == abandonedAfter && this.maxRecoveries == maxRecoveries
      ensures this.batch == batch && this.cleanup == cleanup
    {
      this.repository, this.provider, this.clock, this.enqueues := repository, provider, clock, enqueues;
      this.staleAfter, this.grace, this.abandonedAfter := staleAfter, grace, abandonedAfter;
      this.maxRecoveries, this.batch, this.cleanup := maxRecoveries, batch, cleanup;
    }

    /** Stops at the first dispatch the queue refuses and marks that instance failed. */
    method Dispatch(jobs: seq<Job>) returns (recovered: nat, ok: bool)
      modifies repository.instances, clock
      ensures recovered <= |jobs| && forall k :: 0 <= k < recovered ==> enqueues(k)
      ensures ok ==> recovered == |jobs| && repository.instances.rows == old(repository.instances.rows)
      ensures !ok ==> recovered < |jobs| && !enqueues(recovered)
      ensures !ok ==> repository.instances.rows == Fail(old(repository.instances.rows), jobs[recovered], true, clock.time)
      ensures clock.time >= old(clock.time)
    {
      recovered := 0;
      while recovered < |jobs|
        invariant recovered <= |jobs| && forall k :: 0 <= k < recovered ==> enqueues(k)
        invariant repository.instances.rows == old(repository.instances.rows) && clock.time == old(clock.time)
      {
        if !enqueues(recovered) {
          var now := clock.Now();
          repository.instances.OperationFailed(jobs[recovered], true, now);
          return recovered, false;
        }
        recovered := recovered + 1;
      }
      ok := true;
    }

    method SettleTracked(sweep: SweepId, r: TrackedResource, inventory: seq<ExternalId>) returns (absent: bool)
      requires r.seen.external.Some?
      modifies repository, repository.instances, clock
      ensures repository.sweeps == old(repository.sweeps) && repository.orphans == old(repository.orphans)
      ensures clock.time >= old(clock.time)
      ensures absent == !Provided(r.seen, inventory)
      ensures MissingSettled(old(repository.State()), repository.State(), r, !absent)
      ensures TouchesOnly(old(repository.State()), repository.State(), r.id)
    {
      ghost var db := repository.State();
      var now := clock.Now();
      if r.seen.external.value in inventory {
        repository.ResolveMissingResource(r.id);
        PresenceSettles(db, db, r);
        absent := false;
      } else {
        repository.ObserveMissingResource(sweep, r.id, r.seen, now);
        AbsenceSettles(db, db, sweep, r, now);
        absent := true;
      }
    }

    method ReconcileTracked(sweep: SweepId, tracked: seq<TrackedResource>, inventory: seq<ExternalId>)
      returns (missingResources: nat)
      requires DistinctIds(tracked)
      requires forall k :: 0 <= k < |tracked| ==> tracked[k].seen.external.Some?
      modifies repository, repository.instances, clock
      ensures repository.sweeps == old(repository.sweeps) && repository.orphans == old(repository.orphans)
      ensures clock.time >= old(clock.time)
      ensures missingResources == |Absent(tracked, inventory)|
      ensures SettledSoFar(old(repository.State()), repository.State(), tracked, inventory)
    {
      ghost var before := repository.State();
      missingResources := 0;
      for i := 0 to |tracked|
        invariant repository.sweeps == before.sweeps && repository.orphans == before.orphans
        invariant clock.time >= old(clock.time)
        invariant missingResources == |Absent(tracked[..i], inventory)|
        invariant SettledSoFar(before, repository.State(), tracked[..i], inventory)
      {
        ghost var db := repository.State();
        var absent := SettleTracked(sweep, tracked[i], inventory);
        if absent {
          missingResources := missingResources + 1;
        }
        AbsentGrows(tracked, i, inventory);
        OneMoreSettled(before, db, repository.State(), tracked[..i], tracked[i], inventory);
        assert tracked[..i + 1] == tracked[..i] + [tracked[i]];
      }
      assert tracked[..|tracked|] == tracked;
    }

    /** One provider resource: adopted, counted as an orphan, and cleaned up if a person allowed it. */
    method SettleResource(sweep: SweepId, external: ExternalId, tracked: set<ExternalId>) returns (r: Settlement)
      requires sweep < |repository.sweeps| && repository.sweeps[sweep].status == Running
      requires Dated(repository.State())
      modifies repository, provider, clock
      ensures SameButOrphans(old(repository.State()), repository.State())
      ensures OtherOrphansSame(old(repository.State()), repository.State(), external)
      ensures Dated(repository.State())
      ensures clock.time >= old(clock.time)
      ensures provider.resources
        == if r.Cleaned? then Without(old(provider.resources), external) else old(provider.resources)
      ensures r.Adopted? <==> external in tracked
      ensures Unresolved(repository.State(), external) <==> r.Left? || r.CleanupFailed?
      ensures r.Cleaned? || r.CleanupFailed? ==> cleanup && CleanableBy(old(repository.State()), external, clock.time)
      ensures r.Left? ==> !cleanup || !CleanableBy(old(repository.State()), external, old(clock.time))
      ensures r.CleanupFailed? ==> repository.orphans[external].status == Approved
    {
      ghost var before := repository.State();
      if external in tracked {
        repository.ResolveOrphanResource(external);
        return Adopted;
      }
      var seenAt := clock.Now();
      var observation := repository.ObserveOrphanResource(sweep, external, seenAt, grace);
      var now := clock.Now();
      var eligible := observation.status == Approved && observation.count >= 2
        && observation.cleanupAfter.Some? && observation.cleanupAfter.value <= now;
      if !cleanup || !eligible {
        return Left;
      }
      var claimAt := clock.Now();
      var claimed := repository.ClaimOrphanCleanup(sweep, external, claimAt);
      if !claimed {
        return Left;
      }
      var destroyed := provider.DestroyResource(external);
      if !destroyed {
        repository.ReleaseOrphanCleanupClaim(external);
        return CleanupFailed;
      }
      repository.ResolveOrphanResource(external);
      r := Cleaned;
    }

    method ReconcileProvider(sweep: SweepId, inventory: seq<ExternalId>, tracked: set<ExternalId>)
      returns (orphanCandidates: nat, cleanedResources: nat, ok: bool, ghost gone: set<ExternalId>)
      requires Distinct(inventory)
      requires sweep < |repository.sweeps| && repository.sweeps[sweep].status == Running
      requires Dated(repository.State())
      modifies repository, provider, clock
      ensures SameButOrphans(old(repository.State()), repository.State())
      ensures clock.time >= old(clock.time)
      ensures Removed(old(provider.resources), provider.resources, gone)
      ensures forall e :: e in gone ==> cleanup && CleanableBy(old(repository.State()), e, clock.time)
      ensures cleanedResources == |gone|
      ensures ok ==> orphanCandidates == |Untracked(inventory, tracked)|
      ensures ok ==> InventorySettled(old(repository.State()), repository.State(), inventory, tracked, gone)
      ensures ok ==> RightlyGone(old(repository.State()), inventory, tracked, gone, cleanup, old(clock.time), clock.time)
    {
      ghost var before := repository.State();
      orphanCandidates, cleanedResources, gone := 0, 0, {};
      for i := 0 to |inventory|
        invariant SameButOrphans(before, repository.State()) && Dated(repository.State())
        invariant clock.time >= old(clock.time)
        invariant Removed(old(provider.resources), provider.resources, gone)
        invariant orphanCandidates == |Untracked(inventory[..i], tracked)| && cleanedResources == |gone|
        invariant InventorySettled(before, repository.State(), inventory[..i], tracked, gone)
        invariant RightlyGone(before, inventory[..i], tracked, gone, cleanup, old(clock.time), clock.time)
      {
        var external := inventory[i];
        ghost var db := repository.State();
        assert external !in inventory[..i];
        assert Lookup(db.orphans, external) == Lookup(before.orphans, external);
        ghost var end := clock.time;
        var r := SettleResource(sweep, external, tracked);
        if r.CleanupFailed? {
          return orphanCandidates, cleanedResources, false, gone;
        }
        UntrackedGrows(inventory, i, tracked);
        OneMoreResource(before, db, repository.State(), inventory[..i], external, tracked, gone, r.Cleaned?);
        RightlyGoneGrows(before, inventory[..i], external, tracked, gone, if r.Cleaned? then gone + {external} else gone,
                         cleanup, old(clock.time), end, clock.time);
        if !r.Adopted? {
          orphanCandidates := orphanCandidates + 1;
        }
        if r.Cleaned? {
          gone := gone + {external};
          cleanedResources := cleanedResources + 1;
        }
        assert inventory[..i + 1] == inventory[..i] + [external];
      }
      assert inventory[..|inventory|] == inventory;
      ok := true;
    }

    /** Fences and hands out the stale operations; serving instances are left alone. */
    method Recover(startedAt: Time, staleOrder: seq<InstanceId>)
      returns (recovered: nat, exhausted: nat, sent: bool, ghost recoverAt: Time)
      requires Distinct(staleOrder)
      modifies repository.instances, clock
      ensures clock.time >= recoverAt >= old(clock.time)
      ensures var plan := RecoverStale(old(repository.instances.rows), staleOrder, startedAt - staleAfter, recoverAt,
                                       maxRecoveries, batch);
        sent ==> recovered == |plan.dispatches| && exhausted == plan.exhausted && repository.instances.rows == plan.table
      ensures sent ==> SameHolders(old(repository.instances.rows), repository.instances.rows)
      ensures sent ==> ServingUntouched(old(repository.instances.rows), repository.instances.rows)
    {
      var now := clock.Now();
      recoverAt := now;
      RecoverStaleKeepsHolders(repository.instances.rows, staleOrder, startedAt - staleAfter, now, maxRecoveries, batch);
      var dispatches;
      dispatches, exhausted := repository.instances.RecoverStaleOperations(staleOrder, startedAt - staleAfter,
        now, maxRecoveries, batch);
      recovered, sent := Dispatch(dispatches);
    }

    /** Everything between a successful beginning and the ending of the sweep. */
    method RunSweep(sweep: SweepId, startedAt: Time, inventory: seq<ExternalId>, order: seq<InstanceId>,
                    staleOrder: seq<InstanceId>)
      returns (r: Option<Summary>, ghost gone: set<ExternalId>, ghost recoverAt: Time)
      requires Distinct(inventory) && inventory == provider.resources && Distinct(order) && Distinct(staleOrder)
      requires forall id :: id in repository.instances.rows ==> id in order
      requires Dated(repository.State()) && startedAt <= clock.time
      requires sweep < |repository.sweeps| && repository.sweeps[sweep].status == Running
      modifies repository, repository.instances, provider, clock
      ensures repository.sweeps == old(repository.sweeps) && clock.time >= startedAt
      ensures Removed(inventory, provider.resources, gone)
      ensures forall e :: e in gone ==> cleanup && CleanableBy(old(repository.State()), e, clock.time)
      ensures r.Some? ==>
        RecoveriesReported(
          RecoverStale(old(repository.instances.rows), staleOrder, startedAt - staleAfter, recoverAt, maxRecoveries, batch),
          r.value)
      ensures r.Some? ==> MissingReconciled(old(repository.State()), repository.State(), inventory, r.value.missing)
      ensures r.Some? ==>
        OrphansReconciled(old(repository.State()), repository.State(), inventory, gone, r.value.orphans, r.value.cleaned,
                          cleanup, old(clock.time))
    {
      ghost var begun := repository.State();
      gone := {};
      var tracked := TrackedResources(repository.instances.rows, order);
      ListingIsComplete(repository.instances.rows, order);
      ListingMeasures(begun.table, tracked, inventory);
      var recovered, exhausted, sent;
      recovered, exhausted, sent, recoverAt := Recover(startedAt, staleOrder);
      if !sent {
        return None, gone, recoverAt;
      }
      ghost var before := repository.State();
      var missingResources := ReconcileTracked(sweep, tracked, inventory);
      ghost var mid := repository.State();
      TrackedPassKeepsHolders(before, mid, tracked, inventory);
      var trackedIds := set t | t in tracked && t.seen.external.Some? :: t.seen.external.value;
      var orphanCandidates, cleanedResources, ok;
      orphanCandidates, cleanedResources, ok, gone :=
        SettleInventory(sweep, inventory, trackedIds, begun, old(clock.time));
      if !ok {
        return None, gone, recoverAt;
      }
      MissingPassMeasures(begun, before, mid, repository.State(), tracked, inventory, missingResources);
      r := Some(Summary(recovered, exhausted, missingResources, orphanCandidates, cleanedResources));
    }

    /** The inventory pass and the closing of what was not seen; `begun` is the database the sweep listed. */
    method SettleInventory(sweep: SweepId, inventory: seq<ExternalId>, trackedIds: set<ExternalId>,
                           ghost begun: Db, ghost startedAt: Time)
      returns (orphanCandidates: nat, cleanedResources: nat, ok: bool, ghost gone: set<ExternalId>)
      requires Distinct(inventory) && trackedIds == TrackedIds(begun.table)
      requires sweep < |repository.sweeps| && repository.sweeps[sweep].status == Running
      requires Dated(repository.State()) && startedAt <= clock.time
      requires SameHolders(begun.table, repository.instances.rows) && repository.orphans == begun.orphans
      modifies repository, provider, clock
      ensures SameButOrphans(old(repository.State()), repository.State())
      ensures clock.time >= old(clock.time)
      ensures Removed(old(provider.resources), provider.resources, gone)
      ensures forall e :: e in gone ==> cleanup && CleanableBy(begun, e, clock.time)
      ensures ok ==> OrphansReconciled(begun, repository.State(), inventory, gone, orphanCandidates, cleanedResources,
                                       cleanup, startedAt)
    {
      ghost var mid, begin := repository.State(), clock.time;
      orphanCandidates, cleanedResources, ok, gone := ReconcileProvider(sweep, inventory, trackedIds);
      forall e | e in gone
        ensures CleanableBy(begun, e, clock.time)
      {
        HoldersDecideCleanup(begun, mid, e, clock.time);
      }
      if ok {
        ghost var swept := repository.State();
        repository.ResolveUnseenOrphanResources(inventory);
        OrphanPassReconciles(begun, mid, swept, inventory, gone, orphanCandidates, cleanedResources, cleanup, startedAt,
                             begin, clock.time);
      }
    }

    /** `reconcile`, with no transaction of anyone else in between. */
    method Reconcile(order: seq<InstanceId>, staleOrder: seq<InstanceId>)
      returns (r: Outcome, startedAt: Time, ghost gone: set<ExternalId>, ghost recoverAt: Time)
      requires Distinct(provider.resources) && Distinct(order) && Distinct(staleOrder)
      requires forall id :: id in repository.instances.rows ==> id in order
      requires Dated(repository.State())
      modifies repository, repository.instances, provider, clock
      ensures startedAt >= old(clock.time) && clock.time >= startedAt
      ensures r.Locked? <==> BeginSweep(old(repository.State()), startedAt, startedAt - abandonedAfter).1.None?
      ensures r.Locked? ==> repository.State() == old(repository.State())
      ensures Removed(old(provider.resources), provider.resources, gone)
      ensures !r.Locked? ==>
        var begun := BeginSweep(old(repository.State()), startedAt, startedAt - abandonedAfter).0;
        && EndedSweep(begun, repository.State(), if r.SweepCompleted? then Succeeded else Unsuccessful)
        && (!provider.available ==> r.SweepFailed? && FailedClosed(begun, repository.State()) && gone == {})
        && (forall e :: e in gone ==> cleanup && CleanableBy(begun, e, clock.time))
        && (r.SweepCompleted? ==>
              RecoveriesReported(
                RecoverStale(begun.table, staleOrder, startedAt - staleAfter, recoverAt, maxRecoveries, batch), r.summary))
        && (r.SweepCompleted? ==> MissingReconciled(begun, repository.State(), old(provider.resources), r.summary.missing))
        && (r.SweepCompleted? ==>
              OrphansReconciled(begun, repository.State(), old(provider.resources), gone, r.summary.orphans,
                                r.summary.cleaned, cleanup, startedAt))
    {
      gone := {};
      startedAt := clock.Now();
      recoverAt := startedAt;
      var begin := repository.Begin(startedAt, startedAt - abandonedAfter);
      if begin.None? {
        return Locked, startedAt, gone, recoverAt;
      }
      var listed := provider.ListManagedResources();
      if listed.None? {
        repository.FinishSweep(begin.value, Unsuccessful);
        return SweepFailed, startedAt, gone, recoverAt;
      }
      var summary;
      summary, gone, recoverAt := RunSweep(begin.value, startedAt, listed.value, order, staleOrder);
      repository.FinishSweep(begin.value, if summary.Some? then Succeeded else Unsuccessful);
      r := if summary.Some? then SweepCompleted(summary.value) else SweepFailed;
    }
  }
}
