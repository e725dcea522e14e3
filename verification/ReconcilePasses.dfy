/** What the passes of a reconciliation sweep do to findings, rows and the provider's inventory. */
module ReconcilePasses {
  import opened Wrappers
  import opened DatabaseLifecycle
  import opened ReconciliationFindings

  function Without(s: seq<ExternalId>, external: ExternalId): (r: seq<ExternalId>)
    ensures forall e :: e in r <==> e in s && e != external
  {
    if s == [] then []
    else
      var rest := Without(s[..|s| - 1], external);
      if s[|s| - 1] == external then rest else rest + [s[|s| - 1]]
  }

  /** Exactly the resources in `gone` have left the inventory. */
  ghost predicate Removed(before: seq<ExternalId>, after: seq<ExternalId>, gone: set<ExternalId>) {
    forall e :: e in after <==> e in before && e !in gone
  }

  datatype TrackedResource = TrackedResource(id: InstanceId, seen: Row)

  predicate IsTracked(row: Row) {
    row.external.Some? && row.status != Deleted && row.artifact
  }

  function TrackedResources(t: Table, order: seq<InstanceId>): seq<TrackedResource> {
    if order == [] then []
    else
      var rest := TrackedResources(t, order[..|order| - 1]);
      var id := order[|order| - 1];
      if id in t && IsTracked(t[id]) then rest + [TrackedResource(id, t[id])] else rest
  }

  ghost function TrackedIds(t: Table): set<ExternalId> {
    set id | id in t && IsTracked(t[id]) :: t[id].external.value
  }

  predicate IsTrackedEntry(t: Table, r: TrackedResource) {
    r.id in t && r.seen == t[r.id] && IsTracked(r.seen)
  }

  predicate DistinctIds(tracked: seq<TrackedResource>) {
    forall i, j :: 0 <= i < j < |tracked| ==> tracked[i].id != tracked[j].id
  }

  /** What the tracked listing holds: every tracked instance once, no two with one resource. */
  predicate Lists(t: Table, tracked: seq<TrackedResource>) {
    && (forall i :: 0 <= i < |tracked| ==> IsTrackedEntry(t, tracked[i]))
    && DistinctIds(tracked)
    && (forall id :: id in t && IsTracked(t[id]) ==> TrackedResource(id, t[id]) in tracked)
  }

  lemma {:induction false} ListingIsComplete(t: Table, order: seq<InstanceId>)
    requires Distinct(order)
    ensures forall r :: r in TrackedResources(t, order) <==> r.id in order && IsTrackedEntry(t, r)
    ensures DistinctIds(TrackedResources(t, order))
  {
    if order != [] {
      var n := |order| - 1;
      ListingIsComplete(t, order[..n]);
      assert order[n] !in order[..n];
      assert forall id :: id in order <==> id in order[..n] || id == order[n];
      var rest := TrackedResources(t, order[..n]);
      forall i | 0 <= i < |rest|
        ensures rest[i].id != order[n]
      {
        assert rest[i] in rest;
      }
    }
  }

  datatype Summary = Summary(recovered: nat, exhausted: nat, missing: nat, orphans: nat, cleaned: nat)

  /** What one pass over the tracked listing leaves of one instance's finding and row. */
  predicate MissingSettled(before: Db, after: Db, r: TrackedResource, present: bool) {
    && (r.id in after.table <==> r.id in before.table)
    && if present then PresentSettled(before, after, r) else AbsentSettled(before, after, r)
  }

  predicate PresentSettled(before: Db, after: Db, r: TrackedResource) {
    && (r.id in after.missing <==> r.id in before.missing)
    && (r.id in after.missing && before.missing[r.id].status != Cleaning ==> after.missing[r.id].status == Resolved)
    && (r.id in after.table && r.id in before.table ==> after.table[r.id] == before.table[r.id])
  }

  function AbsencesBefore(db: Db, id: InstanceId): nat {
    if id in db.missing && db.missing[id].status != Resolved then db.missing[id].count else 0
  }

  predicate AbsentSettled(before: Db, after: Db, r: TrackedResource) {
    && r.id in after.missing && after.missing[r.id].status != Resolved
    && after.missing[r.id].count == AbsencesBefore(before, r.id) + 1
    && (r.id in after.table && r.id in before.table ==>
          after.table[r.id] == FailMissing(before.table, r.id, r.seen, after.missing[r.id].count)[r.id])
  }

  predicate Untouched(before: Db, after: Db, id: InstanceId) {
    && Lookup(after.missing, id) == Lookup(before.missing, id)
    && (id in after.table <==> id in before.table)
    && (id in after.table ==> after.table[id] == before.table[id])
  }

  ghost predicate TouchesOnly(before: Db, after: Db, id: InstanceId) {
    forall other :: other != id ==> Untouched(before, after, other)
  }

  /** The listed instances are settled, everything else is as it was. */
  ghost predicate SettledSoFar(before: Db, after: Db, tracked: seq<TrackedResource>, inventory: seq<ExternalId>) {
    && (forall k :: 0 <= k < |tracked| ==>
          MissingSettled(before, after, tracked[k], Provided(tracked[k].seen, inventory)))
    && (forall id :: id !in IdsOf(tracked) ==> Untouched(before, after, id))
  }

  predicate Provided(row: Row, inventory: seq<ExternalId>) {
    row.external.Some? && row.external.value in inventory
  }

  lemma SettledStays(before: Db, db: Db, after: Db, r: TrackedResource, present: bool)
    requires MissingSettled(before, db, r, present) && Untouched(db, after, r.id)
    ensures MissingSettled(before, after, r, present)
  {
  }

  lemma SettlesFrom(before: Db, db: Db, after: Db, r: TrackedResource, present: bool)
    requires Untouched(before, db, r.id) && MissingSettled(db, after, r, present)
    ensures MissingSettled(before, after, r, present)
  {
  }

  lemma OneMoreSettled(before: Db, db: Db, after: Db, done: seq<TrackedResource>, r: TrackedResource,
                       inventory: seq<ExternalId>)
    requires SettledSoFar(before, db, done, inventory) && DistinctIds(done + [r])
    requires MissingSettled(db, after, r, Provided(r.seen, inventory)) && TouchesOnly(db, after, r.id)
    ensures SettledSoFar(before, after, done + [r], inventory)
  {
    var all := done + [r];
    forall k | 0 <= k < |done|
      ensures done[k].id != r.id
    {
      assert all[k].id != all[|done|].id;
    }
    forall k | 0 <= k < |all|
      ensures MissingSettled(before, after, all[k], Provided(all[k].seen, inventory))
    {
      if k < |done| {
        SettledStays(before, db, after, done[k], Provided(done[k].seen, inventory));
      } else {
        SettlesFrom(before, db, after, r, Provided(r.seen, inventory));
      }
    }
    forall id | id !in IdsOf(all)
      ensures Untouched(before, after, id)
    {
      assert all[|done|] in all;
      assert forall x :: x in done ==> x in all;
      assert Untouched(before, db, id) && Untouched(db, after, id);
    }
  }

  lemma PresenceSettles(before: Db, db: Db, r: TrackedResource)
    requires Untouched(before, db, r.id)
    ensures MissingSettled(before, ResolveMissing(db, r.id), r, true)
  {
  }

  lemma AbsenceSettles(before: Db, db: Db, sweep: SweepId, r: TrackedResource, now: Time)
    requires Untouched(before, db, r.id)
    ensures MissingSettled(before, ObserveMissing(db, sweep, r.id, r.seen, now), r, false)
  {
  }

  ghost function IdsOf(tracked: seq<TrackedResource>): set<InstanceId> {
    set r | r in tracked :: r.id
  }

  ghost function Absent(tracked: seq<TrackedResource>, inventory: seq<ExternalId>): set<InstanceId> {
    set r | r in tracked && !Provided(r.seen, inventory) :: r.id
  }

  lemma AbsentGrows(tracked: seq<TrackedResource>, i: nat, inventory: seq<ExternalId>)
    requires DistinctIds(tracked) && i < |tracked|
    ensures |Absent(tracked[..i + 1], inventory)|
      == |Absent(tracked[..i], inventory)| + if Provided(tracked[i].seen, inventory) then 0 else 1
  {
    var seen := Absent(tracked[..i], inventory);
    assert tracked[i].id !in seen;
    if Provided(tracked[i].seen, inventory) {
      assert Absent(tracked[..i + 1], inventory) == seen;
    } else {
      assert Absent(tracked[..i + 1], inventory) == seen + {tracked[i].id};
    }
  }

  // ---- The pass over the provider inventory ----

  /** A person has approved the cleanup, the grace period is over at `t`, and nobody holds the resource. */
  predicate CleanableBy(db: Db, external: ExternalId, t: Time) {
    && external in db.orphans && !LiveTracker(db.table, external)
    && db.orphans[external].status == Approved && db.orphans[external].count >= 1
    && db.orphans[external].cleanupAfter.Some? && db.orphans[external].cleanupAfter.value <= t
  }

  predicate Unresolved(db: Db, external: ExternalId) {
    external in db.orphans && db.orphans[external].status != Resolved
  }

  /** Every unresolved orphan finding has its cleanup boundary. */
  predicate Dated(db: Db) {
    forall external :: external in db.orphans && db.orphans[external].status != Resolved
      ==> db.orphans[external].cleanupAfter.Some?
  }

  datatype Settlement = Adopted | Left | Cleaned | CleanupFailed

  /** Only the findings of orphans may differ. */
  predicate SameButOrphans(before: Db, after: Db) {
    after.table == before.table && after.sweeps == before.sweeps && after.missing == before.missing
  }

  ghost predicate OtherOrphansSame(before: Db, after: Db, external: ExternalId) {
    forall e :: e != external ==> Lookup(after.orphans, e) == Lookup(before.orphans, e)
  }

  predicate ResourceSettled(after: Db, external: ExternalId, tracked: set<ExternalId>, gone: set<ExternalId>) {
    if external in tracked then !Unresolved(after, external)
    else Unresolved(after, external) <==> external !in gone
  }

  /** The resources of `done` are settled, and exactly `gone` were destroyed. */
  ghost predicate InventorySettled(before: Db, after: Db, done: seq<ExternalId>, tracked: set<ExternalId>,
                                   gone: set<ExternalId>)
  {
    && (forall k :: 0 <= k < |done| ==> ResourceSettled(after, done[k], tracked, gone))
    && (forall e :: e !in done ==> Lookup(after.orphans, e) == Lookup(before.orphans, e))
    && (forall e :: e in gone ==> e in done && e !in tracked)
  }

  /** Nothing is destroyed before it is cleanable, and with cleanup on nothing cleanable is left. */
  ghost predicate RightlyGone(before: Db, done: seq<ExternalId>, tracked: set<ExternalId>, gone: set<ExternalId>,
                              cleanup: bool, begin: Time, end: Time)
  {
    && (forall e :: e in gone ==> cleanup && CleanableBy(before, e, end))
    && (forall k :: 0 <= k < |done| && done[k] !in tracked && cleanup && CleanableBy(before, done[k], begin) ==>
          done[k] in gone)
  }

  lemma RightlyGoneGrows(before: Db, done: seq<ExternalId>, external: ExternalId, tracked: set<ExternalId>,
                         gone: set<ExternalId>, gone': set<ExternalId>, cleanup: bool, begin: Time, end: Time, end': Time)
    requires RightlyGone(before, done, tracked, gone, cleanup, begin, end) && end <= end'
    requires gone' == gone || (gone' == gone + {external} && cleanup && CleanableBy(before, external, end'))
    requires external !in tracked && cleanup && CleanableBy(before, external, begin) ==> external in gone'
    ensures RightlyGone(before, done + [external], tracked, gone', cleanup, begin, end')
  {
  }

  ghost function Untracked(done: seq<ExternalId>, tracked: set<ExternalId>): set<ExternalId> {
    set e | e in done && e !in tracked
  }

  lemma OneMoreResource(before: Db, db: Db, after: Db, done: seq<ExternalId>, external: ExternalId,
                        tracked: set<ExternalId>, gone: set<ExternalId>, cleans: bool)
    requires InventorySettled(before, db, done, tracked, gone) && external !in done
    requires OtherOrphansSame(db, after, external)
    requires cleans ==> external !in tracked
    requires ResourceSettled(after, external, tracked, if cleans then gone + {external} else gone)
    ensures InventorySettled(before, after, done + [external], tracked, if cleans then gone + {external} else gone)
  {
    var all := done + [external];
    var gone' := if cleans then gone + {external} else gone;
    forall k | 0 <= k < |all|
      ensures ResourceSettled(after, all[k], tracked, gone')
    {
      if k < |done| {
        assert done[k] != external;
        assert ResourceSettled(db, done[k], tracked, gone);
        assert Lookup(after.orphans, done[k]) == Lookup(db.orphans, done[k]);
      }
    }
    forall e | e !in all
      ensures Lookup(after.orphans, e) == Lookup(before.orphans, e)
    {
      assert all[|done|] in all;
      assert forall x :: x in done ==> x in all;
    }
    assert forall x :: x in done ==> x in all;
    assert external in all;
  }

  lemma UntrackedGrows(list: seq<ExternalId>, i: nat, tracked: set<ExternalId>)
    requires Distinct(list) && i < |list|
    ensures |Untracked(list[..i + 1], tracked)|
      == |Untracked(list[..i], tracked)| + if list[i] in tracked then 0 else 1
  {
    var before := Untracked(list[..i], tracked);
    assert list[i] !in before;
    if list[i] in tracked {
      assert Untracked(list[..i + 1], tracked) == before;
    } else {
      assert Untracked(list[..i + 1], tracked) == before + {list[i]};
    }
  }

  // ---- The whole sweep ----

  /** Only the sweep this run began has ended. */
  predicate EndedSweep(begun: Db, after: Db, status: SweepStatus) {
    && |begun.sweeps| > 0
    && after.sweeps == begun.sweeps[|begun.sweeps| - 1 := begun.sweeps[|begun.sweeps| - 1].(status := status)]
  }

  predicate FailedClosed(begun: Db, after: Db) {
    after.table == begun.table && after.orphans == begun.orphans && after.missing == begun.missing
  }

  /** Provider resources that no tracked instance holds: one that is DELETED or has no artifact protects nothing. */
  ghost function Orphans(t: Table, inventory: seq<ExternalId>): (orphans: set<ExternalId>)
    ensures forall e :: e in orphans <==>
      e in inventory && forall id :: id in t && t[id].external == Some(e) ==> t[id].status == Deleted || !t[id].artifact
  {
    (set e | e in inventory) - TrackedIds(t)
  }

  /** Tracked instances whose resource the provider does not have. */
  ghost function MissingInstances(t: Table, inventory: seq<ExternalId>): set<InstanceId> {
    set id | id in t && IsTracked(t[id]) && t[id].external.value !in inventory
  }

  /** The orphans are counted and left unresolved, except those rightly destroyed. */
  ghost predicate OrphansReconciled(begun: Db, after: Db, inventory: seq<ExternalId>, gone: set<ExternalId>,
                                    orphans: nat, cleaned: nat, cleanup: bool, startedAt: Time)
  {
    && orphans == |Orphans(begun.table, inventory)|
    && cleaned == |gone|
    && gone <= Orphans(begun.table, inventory)
    && (forall e :: Unresolved(after, e) <==> e in Orphans(begun.table, inventory) && e !in gone)
    && (forall e :: e in Orphans(begun.table, inventory) && cleanup && CleanableBy(begun, e, startedAt) ==> e in gone)
  }

  /** The missing instances are counted, recorded, and failed on their second absence in a row. */
  ghost predicate MissingReconciled(begun: Db, after: Db, inventory: seq<ExternalId>, missing: nat) {
    && missing == |MissingInstances(begun.table, inventory)|
    && (forall id :: id in begun.table && IsTracked(begun.table[id]) ==>
          TrackedOutcome(begun, after, id, begun.table[id].external.value in inventory))
  }

  predicate RecoveriesReported(plan: Plan, summary: Summary) {
    summary.recovered == |plan.dispatches| && summary.exhausted == plan.exhausted
  }

  predicate Serving(row: Row) {
    row.status in {Ready, Active, Suspended}
  }

  /** The finding of a tracked instance, and the fate of a serving one. */
  predicate TrackedOutcome(begun: Db, after: Db, id: InstanceId, present: bool) {
    && id in begun.table && id in after.table
    && (if present then FindingClosed(begun, after, id)
        else id in after.missing && after.missing[id].status != Resolved)
    && (Serving(begun.table[id]) ==>
          after.table[id].status
          == if !present && AbsencesBefore(begun, id) >= 1 then Failed else begun.table[id].status)
  }

  predicate FindingClosed(begun: Db, after: Db, id: InstanceId) {
    && (id in after.missing <==> id in begun.missing)
    && (id in after.missing && begun.missing[id].status != Cleaning ==> after.missing[id].status == Resolved)
  }

  /** What neither recovery nor the tracked pass changes: who holds which resource. */
  predicate SameHolders(t: Table, t': Table) {
    && t'.Keys == t.Keys
    && forall id :: id in t ==> t'[id].external == t[id].external && (t'[id].status == Deleted <==> t[id].status == Deleted)
  }

  predicate ServingUntouched(t: Table, t': Table) {
    t'.Keys == t.Keys && forall id :: id in t && Serving(t[id]) ==> t'[id] == t[id]
  }

  lemma {:induction false} RecoverKeepsRow(p: Plan, ids: seq<InstanceId>, now: Time, max: nat, id: InstanceId)
    requires id in p.table && (id in ids ==> !Serving(p.table[id]) && p.table[id].status != Deleted)
    ensures var q := RecoverAll(p, ids, now, max);
      && id in q.table && q.table[id].external == p.table[id].external
      && (id !in ids ==> q.table[id] == p.table[id])
      && (id in ids ==> !Serving(q.table[id]) && q.table[id].status != Deleted)
  {
    if ids != [] {
      RecoverKeepsRow(p, ids[..|ids| - 1], now, max, id);
    }
  }

  lemma {:induction false} RecoverKeepsKeys(p: Plan, ids: seq<InstanceId>, now: Time, max: nat)
    ensures RecoverAll(p, ids, now, max).table.Keys == p.table.Keys
  {
    if ids != [] {
      RecoverKeepsKeys(p, ids[..|ids| - 1], now, max);
    }
  }

  lemma RecoverStaleKeepsHolders(t: Table, order: seq<InstanceId>, staleBefore: Time, now: Time, max: nat, limit: nat)
    requires Distinct(order)
    ensures var q := RecoverStale(t, order, staleBefore, now, max, limit);
      SameHolders(t, q.table) && ServingUntouched(t, q.table)
  {
    var candidates := Candidates(t, order, staleBefore);
    var ids := TakeFirst(candidates, limit);
    CandidatesAreDistinct(t, order, staleBefore);
    RecoverKeepsKeys(Plan(t, [], 0), ids, now, max);
    forall id | id in t
      ensures var q := RecoverStale(t, order, staleBefore, now, max, limit);
        && q.table[id].external == t[id].external && (q.table[id].status == Deleted <==> t[id].status == Deleted)
        && (Serving(t[id]) ==> q.table[id] == t[id])
    {
      if id in ids {
        assert id in candidates;
        assert Listed(t, order, staleBefore, id);
      }
      RecoverKeepsRow(Plan(t, [], 0), ids, now, max, id);
    }
  }

  lemma HoldersDecideCleanup(before: Db, after: Db, external: ExternalId, t: Time)
    requires SameHolders(before.table, after.table) && Lookup(after.orphans, external) == Lookup(before.orphans, external)
    ensures CleanableBy(before, external, t) <==> CleanableBy(after, external, t)
  {
  }

  lemma TrackedPassKeepsHolders(before: Db, after: Db, tracked: seq<TrackedResource>, inventory: seq<ExternalId>)
    requires SettledSoFar(before, after, tracked, inventory)
    ensures SameHolders(before.table, after.table)
  {
    forall id
      ensures id in after.table <==> id in before.table
      ensures id in before.table ==> id in after.table && after.table[id].external == before.table[id].external
      ensures id in before.table ==> (after.table[id].status == Deleted <==> before.table[id].status == Deleted)
    {
      if id in IdsOf(tracked) {
        var r :| r in tracked && r.id == id;
        var k :| 0 <= k < |tracked| && tracked[k] == r;
        assert MissingSettled(before, after, tracked[k], Provided(tracked[k].seen, inventory));
      } else {
        assert Untouched(before, after, id);
      }
    }
  }

  /** The listing carries the whole set difference. */
  lemma ListingMeasures(t: Table, tracked: seq<TrackedResource>, inventory: seq<ExternalId>)
    requires Lists(t, tracked)
    ensures (set r | r in tracked && r.seen.external.Some? :: r.seen.external.value) == TrackedIds(t)
    ensures Absent(tracked, inventory) == MissingInstances(t, inventory)
    ensures Untracked(inventory, TrackedIds(t)) == Orphans(t, inventory)
  {
  }

  /** The tracked pass over a listing taken before recovery settles every tracked instance. */
  lemma MissingPassReconciles(begun: Db, before: Db, after: Db, tracked: seq<TrackedResource>, inventory: seq<ExternalId>,
                              id: InstanceId)
    requires Lists(begun.table, tracked) && SettledSoFar(before, after, tracked, inventory)
    requires SameHolders(begun.table, before.table) && ServingUntouched(begun.table, before.table)
    requires before.missing == begun.missing
    requires id in begun.table && IsTracked(begun.table[id])
    ensures TrackedOutcome(begun, after, id, begun.table[id].external.value in inventory)
  {
  }

  lemma MissingPassMeasures(begun: Db, before: Db, mid: Db, after: Db, tracked: seq<TrackedResource>,
                            inventory: seq<ExternalId>, missing: nat)
    requires Lists(begun.table, tracked) && SettledSoFar(before, mid, tracked, inventory)
    requires SameHolders(begun.table, before.table) && ServingUntouched(begun.table, before.table)
    requires before.missing == begun.missing && after.table == mid.table && after.missing == mid.missing
    requires missing == |Absent(tracked, inventory)|
    ensures MissingReconciled(begun, after, inventory, missing)
  {
    ListingMeasures(begun.table, tracked, inventory);
    forall id | id in begun.table && IsTracked(begun.table[id])
      ensures TrackedOutcome(begun, after, id, begun.table[id].external.value in inventory)
    {
      MissingPassReconciles(begun, before, after, tracked, inventory, id);
    }
  }

  /** The inventory pass, followed by the closing of everything unseen, leaves exactly the difference unresolved. */
  lemma OrphanPassReconciles(begun: Db, mid: Db, swept: Db, inventory: seq<ExternalId>, gone: set<ExternalId>,
                             found: nat, cleaned: nat, cleanup: bool, startedAt: Time, begin: Time, end: Time)
    requires InventorySettled(mid, swept, inventory, TrackedIds(begun.table), gone)
    requires RightlyGone(mid, inventory, TrackedIds(begun.table), gone, cleanup, begin, end) && startedAt <= begin
    requires SameHolders(begun.table, mid.table) && mid.orphans == begun.orphans
    requires found == |Untracked(inventory, TrackedIds(begun.table))| && cleaned == |gone|
    ensures OrphansReconciled(begun, ResolveUnseen(swept, inventory), inventory, gone, found, cleaned, cleanup, startedAt)
  {
    var orphans, after := Orphans(begun.table, inventory), ResolveUnseen(swept, inventory);
    assert Untracked(inventory, TrackedIds(begun.table)) == orphans;
    forall e
      ensures Unresolved(after, e) <==> e in orphans && e !in gone
    {
      if e in inventory {
        var k :| 0 <= k < |inventory| && inventory[k] == e;
        assert ResourceSettled(swept, inventory[k], TrackedIds(begun.table), gone);
      }
    }
    forall e | e in orphans && cleanup && CleanableBy(begun, e, startedAt)
      ensures e in gone
    {
      HoldersDecideCleanup(begun, mid, e, begin);
      var k :| 0 <= k < |inventory| && inventory[k] == e;
      assert CleanableBy(mid, inventory[k], begin);
    }
  }
}
