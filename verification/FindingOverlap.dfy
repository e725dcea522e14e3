/** When two sweeps can be destroying one resource at the same time. */
module FindingOverlap {
  import opened Wrappers
  import opened DatabaseLifecycle
  import opened ReconciliationFindings
  import opened FindingHistory
  import opened FindingLaws
  import opened FindingClaims

  /** The program of this sweep has claimed the resource and has not yet settled the claim. */
  predicate Holds(w: World, sweep: SweepId, external: ExternalId) {
    sweep < |w.cleanups| && !w.cleanups[sweep].Idle? && w.cleanups[sweep].grant.external == external
  }

  predicate OnlyHolder(w: World, sweep: SweepId, external: ExternalId) {
    Holds(w, sweep, external) && forall s :: 0 <= s < |w.cleanups| && Holds(w, s, external) ==> s == sweep
  }

  /** Of the sweeps that hold one resource all but one have ended, whether they know it or not. */
  lemma AllButOneHolderHaveEnded(steps: seq<Step>, i: SweepId, j: SweepId, external: ExternalId)
    requires i != j && Holds(Run(steps), i, external) && Holds(Run(steps), j, external)
    ensures !Runs(Run(steps), i) || !Runs(Run(steps), j)
  {
    SweepsAlwaysFit(steps);
  }

  /** The sweep has ended without putting down its claim. */
  predicate EndedHolding(w: World, sweep: SweepId, external: ExternalId) {
    Holds(w, sweep, external) && !Runs(w, sweep)
  }

  /**
   * A granted claim makes its sweep the only one that is destroying the resource if and only if no
   * sweep that has ended, or was abandoned, still holds it.
   */
  lemma GrantedClaimIsSoleExactly(steps: seq<Step>, sweep: SweepId, external: ExternalId, now: Time)
    requires Apply(Run(steps), Claim(sweep, external, now)) != Run(steps)
    ensures OnlyHolder(Apply(Run(steps), Claim(sweep, external, now)), sweep, external)
      <==> forall s :: 0 <= s < |Run(steps).cleanups| ==> !EndedHolding(Run(steps), s, external)
  {
    var w, next := Run(steps), Apply(Run(steps), Claim(sweep, external, now));
    ClaimIsGrantedExactly(steps, sweep, external, now);
    SweepsAlwaysFit(steps);
    assert Runs(w, sweep) && Holds(next, sweep, external);
    forall s: nat | s < |w.cleanups| && s != sweep
      ensures Holds(next, s, external) <==> EndedHolding(w, s, external)
    {
      assert next.cleanups[s] == w.cleanups[s];
    }
    assert !EndedHolding(w, sweep, external);
  }

  // ---- Sweeps that settle in time ----

  /** Every sweep that ends, or is abandoned by another, has put down its claim before. */
  ghost predicate EndIdle(steps: seq<Step>) {
    forall k, s: nat :: 0 <= k < |steps| && s < |Run(steps[..k]).cleanups| ==> EndsIdle(Run(steps[..k]), steps[k], s)
  }

  predicate EndsIdle(w: World, step: Step, s: SweepId) {
    s < |w.cleanups| && Runs(w, s) && !Runs(Apply(w, step), s) ==> w.cleanups[s].Idle?
  }

  predicate HoldersRun(w: World) {
    forall s :: 0 <= s < |w.cleanups| && !w.cleanups[s].Idle? ==> Runs(w, s)
  }

  lemma StepKeepsHoldersRunning(w: World, step: Step)
    requires HoldersRun(w) && SweepsFit(w)
    requires forall s: nat :: s < |w.cleanups| ==> EndsIdle(w, step, s)
    ensures HoldersRun(Apply(w, step))
  {
    var next := Apply(w, step);
    forall s: nat | s < |next.cleanups| && !next.cleanups[s].Idle?
      ensures Runs(next, s)
    {
      assert s < |w.cleanups|;
      if step.Claim? && step.sweep == s && w.cleanups[s].Idle? {
        assert Runs(w, s);
      } else {
        assert !w.cleanups[s].Idle?;
        assert EndsIdle(w, step, s);
      }
    }
  }

  lemma {:induction false} HoldersKeepRunning(steps: seq<Step>)
    requires EndIdle(steps)
    ensures HoldersRun(Run(steps))
  {
    if steps != [] {
      var n := |steps| - 1;
      assert EndIdle(steps[..n]) by {
        forall k: nat, s: nat | k < n && s < |Run(steps[..n][..k]).cleanups|
          ensures EndsIdle(Run(steps[..n][..k]), steps[..n][k], s)
        {
          assert steps[..n][..k] == steps[..k];
          assert EndsIdle(Run(steps[..k]), steps[k], s);
        }
      }
      HoldersKeepRunning(steps[..n]);
      SweepsAlwaysFit(steps[..n]);
      forall s: nat | s < |Run(steps[..n]).cleanups|
        ensures EndsIdle(Run(steps[..n]), steps[n], s)
      {
      }
      StepKeepsHoldersRunning(Run(steps[..n]), steps[n]);
    }
  }

  /** While no sweep ends or is abandoned in the middle of a claim, every claim is the only one on its resource. */
  lemma OneCleanerWhileSweepsEndIdle(steps: seq<Step>, sweep: SweepId, external: ExternalId)
    requires EndIdle(steps) && Holds(Run(steps), sweep, external)
    ensures OnlyHolder(Run(steps), sweep, external)
  {
    HoldersKeepRunning(steps);
    SweepsAlwaysFit(steps);
  }

  // ---- A sweep that was abandoned too early ----

  /** One orphan, 7, with this finding; no instances, and nothing destroyed yet. */
  predicate Stands(w: World, sweeps: seq<Sweep>, cleanups: seq<Cleanup>, finding: Option<Finding>) {
    && w.db.table == map[] && w.destroys == [] && w.db.sweeps == sweeps && w.cleanups == cleanups
    && w.db.orphans == if finding.Some? then map[7 := finding.value] else map[]
  }

  lemma NextWorld(steps: seq<Step>, step: Step)
    ensures Run(steps + [step]) == Apply(Run(steps), step)
  {
  }

  lemma NextTwo(steps: seq<Step>, step: Step, more: Step)
    ensures Run(steps + [step, more]) == Apply(Apply(Run(steps), step), more)
  {
    NextWorld(steps, step);
    NextWorld(steps + [step], more);
    assert steps + [step, more] == steps + [step] + [more];
  }

  lemma FirstSweep()
    ensures Stands(Apply(START, Start(0, -100)), [Sweep(Running, 0)], [Idle], None)
  {
  }

  lemma Sightings(w: World)
    requires Stands(w, [Sweep(Running, 0)], [Idle], None)
    ensures Stands(Apply(Apply(w, SeeOrphan(0, 7, 0, 0)), SeeOrphan(0, 7, 0, 0)), [Sweep(Running, 0)], [Idle],
                   Some(Finding(Open, 0, 2, 0, Some(0), None)))
  {
    var first := Apply(w, SeeOrphan(0, 7, 0, 0));
    assert Stands(first, [Sweep(Running, 0)], [Idle], Some(Finding(Open, 0, 1, 0, Some(0), None)));
  }

  lemma Approval(w: World)
    requires Stands(w, [Sweep(Running, 0)], [Idle], Some(Finding(Open, 0, 2, 0, Some(0), None)))
    ensures Stands(Apply(w, PersonApproves(7, 1)), [Sweep(Running, 0)], [Idle],
                   Some(Finding(Approved, 0, 2, 0, Some(0), Some(1))))
  {
  }

  lemma FirstClaim(w: World) returns (grant: Grant)
    requires Stands(w, [Sweep(Running, 0)], [Idle], Some(Finding(Approved, 0, 2, 0, Some(0), Some(1))))
    ensures grant.external == 7
    ensures Stands(Apply(w, Claim(0, 7, 10)), [Sweep(Running, 0)], [Holding(grant)],
                   Some(Finding(Cleaning, 0, 2, 0, Some(0), Some(1))))
  {
    grant := Grant(7, |LogOf(w.log, 7)|, 10, w.db.table);
  }

  lemma SecondSweep(w: World, grant: Grant)
    requires Stands(w, [Sweep(Running, 0)], [Holding(grant)], Some(Finding(Cleaning, 0, 2, 0, Some(0), Some(1))))
    ensures Stands(Apply(w, Start(20, 5)), [Sweep(Unsuccessful, 0), Sweep(Running, 20)], [Holding(grant), Idle],
                   Some(Finding(Approved, 0, 2, 0, Some(0), Some(1))))
  {
    assert Abandon(w.db.sweeps, 5) == [Sweep(Unsuccessful, 0)];
  }

  lemma SecondClaim(w: World, grant: Grant) returns (other: Grant)
    requires Stands(w, [Sweep(Unsuccessful, 0), Sweep(Running, 20)], [Holding(grant), Idle],
                    Some(Finding(Approved, 0, 2, 0, Some(0), Some(1))))
    ensures other.external == 7
    ensures Stands(Apply(Apply(w, SeeOrphan(1, 7, 20, 0)), Claim(1, 7, 20)), [Sweep(Unsuccessful, 0), Sweep(Running, 20)],
                   [Holding(grant), Holding(other)], Some(Finding(Cleaning, 1, 3, 0, Some(0), Some(1))))
  {
    var seen := Apply(w, SeeOrphan(1, 7, 20, 0));
    assert Stands(seen, [Sweep(Unsuccessful, 0), Sweep(Running, 20)], [Holding(grant), Idle],
                  Some(Finding(Approved, 1, 3, 0, Some(0), Some(1))));
    other := Grant(7, |LogOf(seen.log, 7)|, 20, seen.db.table);
  }

  /** The first sweep stalls after its claim; the next one finds its lease expired and claims the same resource. */
  const CLAIMED: seq<Step> :=
    [] + [Start(0, -100)] + [SeeOrphan(0, 7, 0, 0), SeeOrphan(0, 7, 0, 0)] + [PersonApproves(7, 1)] + [Claim(0, 7, 10)]

  const OVERTAKEN: seq<Step> := CLAIMED + [Start(20, 5)] + [SeeOrphan(1, 7, 20, 0), Claim(1, 7, 20)]

  lemma FirstHolds() returns (grant: Grant)
    ensures grant.external == 7
    ensures Stands(Run(CLAIMED), [Sweep(Running, 0)], [Holding(grant)], Some(Finding(Cleaning, 0, 2, 0, Some(0), Some(1))))
  {
    var see := SeeOrphan(0, 7, 0, 0);
    var s1: seq<Step> := [] + [Start(0, -100)];
    NextWorld([], Start(0, -100));
    FirstSweep();
    NextTwo(s1, see, see);
    Sightings(Run(s1));
    NextWorld(s1 + [see, see], PersonApproves(7, 1));
    Approval(Run(s1 + [see, see]));
    NextWorld(s1 + [see, see] + [PersonApproves(7, 1)], Claim(0, 7, 10));
    grant := FirstClaim(Run(s1 + [see, see] + [PersonApproves(7, 1)]));
  }

  lemma BothHold() returns (grant: Grant, other: Grant)
    ensures grant.external == 7 && other.external == 7
    ensures Stands(Run(OVERTAKEN), [Sweep(Unsuccessful, 0), Sweep(Running, 20)], [Holding(grant), Holding(other)],
                   Some(Finding(Cleaning, 1, 3, 0, Some(0), Some(1))))
  {
    grant := FirstHolds();
    NextWorld(CLAIMED, Start(20, 5));
    SecondSweep(Run(CLAIMED), grant);
    NextTwo(CLAIMED + [Start(20, 5)], SeeOrphan(1, 7, 20, 0), Claim(1, 7, 20));
    other := SecondClaim(Run(CLAIMED + [Start(20, 5)]), grant);
  }

  /** Two sweeps hold the claim on one resource at once, and both call the provider to destroy it. */
  lemma TwoSweepsCanDestroyOneResource()
    ensures Holds(Run(OVERTAKEN), 0, 7) && Holds(Run(OVERTAKEN), 1, 7) && !OnlyHolder(Run(OVERTAKEN), 1, 7)
    ensures var destroys := Run(OVERTAKEN + [CallDestroy(0, true), CallDestroy(1, true)]).destroys;
      && |destroys| == 2 && destroys[0].sweep == 0 && destroys[1].sweep == 1
      && destroys[0].grant.external == destroys[1].grant.external == 7
  {
    var grant, other := BothHold();
    NextTwo(OVERTAKEN, CallDestroy(0, true), CallDestroy(1, true));
    assert Holds(Run(OVERTAKEN), 0, 7) && Holds(Run(OVERTAKEN), 1, 7);
  }
}
