/** A finding is what its events say; from that, who may claim it, approve it, and when a sweep may begin. */
module FindingClaims {
  import opened Wrappers
  import opened DatabaseLifecycle
  import opened ReconciliationFindings
  import opened FindingHistory
  import opened FindingLaws

  // ---- The row as a fold over its events ----

  function After(f: Option<Finding>, e: Event): Option<Finding> {
    match e
    case Opened(sweep, now, grace) => Some(Finding(Open, sweep, 1, now, Some(now + grace), None))
    case SeenAgain(sweep) =>
      if f.None? then None else Some(f.value.(sweep := sweep, count := f.value.count + 1))
    case ApprovedBy(person) =>
      if f.None? then None else Some(f.value.(status := Approved, approver := Some(person)))
    case ClaimedBy(_, _) => if f.None? then None else Some(f.value.(status := Cleaning))
    case Returned => if f.None? then None else Some(f.value.(status := Approved))
    case Closed => if f.None? then None else Some(f.value.(status := Resolved))
  }

  function FindingOf(log: seq<Event>): Option<Finding> {
    if log == [] then None else After(FindingOf(log[..|log| - 1]), log[|log| - 1])
  }

  predicate FoldFits(orphans: map<ExternalId, Finding>, log: Logs) {
    && orphans.Keys == log.Keys
    && forall external :: external in orphans ==> FindingOf(log[external]) == Some(orphans[external])
  }

  lemma FoldSnoc(log: seq<Event>, e: Event)
    ensures FindingOf(log + [e]) == After(FindingOf(log), e)
  {
  }

  lemma NotedFoldFits(w: World, external: ExternalId, f: Finding, e: Event)
    requires FoldFits(w.db.orphans, w.log)
    requires After(FindingOf(LogOf(w.log, external)), e) == Some(f)
    ensures FoldFits(w.db.orphans[external := f], Note(w.log, external, e))
  {
    FoldSnoc(LogOf(w.log, external), e);
  }

  lemma ChangeFolds(f: Finding, f': Finding, log: seq<Event>)
    requires FindingOf(log) == Some(f) && StatusMove(f, f') && f'.status != f.status
    ensures FindingOf(log + [if f'.status == Resolved then Closed else Returned]) == Some(f')
  {
    FoldSnoc(log, if f'.status == Resolved then Closed else Returned);
  }

  lemma ChangesFoldFits(w: World, orphans: map<ExternalId, Finding>)
    requires FoldFits(w.db.orphans, w.log) && StatusMoves(w.db.orphans, orphans)
    ensures FoldFits(orphans, NoteChanges(w, orphans))
  {
    forall external | external in orphans
      ensures FindingOf(NoteChanges(w, orphans)[external]) == Some(orphans[external])
    {
      var f, f', log := w.db.orphans[external], orphans[external], w.log[external];
      assert StatusMove(f, f') && FindingOf(log) == Some(f);
      if f'.status != f.status {
        ChangeFolds(f, f', log);
      }
    }
  }

  lemma SeeOrphanKeepsFold(w: World, sweep: SweepId, external: ExternalId, now: Time, grace: int)
    requires FoldFits(w.db.orphans, w.log)
    ensures var next := Apply(w, SeeOrphan(sweep, external, now, grace)); FoldFits(next.db.orphans, next.log)
  {
    var reopens := external !in w.db.orphans || w.db.orphans[external].status == Resolved;
    NotedFoldFits(w, external, Observe(Lookup(w.db.orphans, external), sweep, now, Some(now + grace)),
      if reopens then Opened(sweep, now, grace) else SeenAgain(sweep));
  }

  lemma ClaimKeepsFold(w: World, sweep: SweepId, external: ExternalId, now: Time)
    requires FoldFits(w.db.orphans, w.log)
    ensures var next := Apply(w, Claim(sweep, external, now)); FoldFits(next.db.orphans, next.log)
  {
    if Claimable(w.db, sweep, external, now) {
      NotedFoldFits(w, external, w.db.orphans[external].(status := Cleaning), ClaimedBy(sweep, now));
    }
  }

  lemma ApproveKeepsFold(w: World, external: ExternalId, person: Person)
    requires FoldFits(w.db.orphans, w.log)
    ensures var next := Apply(w, PersonApproves(external, person)); FoldFits(next.db.orphans, next.log)
  {
    if Apply(w, PersonApproves(external, person)) != w {
      NotedFoldFits(w, external, Approve(w.db, external, person).0.orphans[external], ApprovedBy(person));
    }
  }

  lemma StepKeepsFold(w: World, step: Step)
    requires FoldFits(w.db.orphans, w.log)
    ensures FoldFits(Apply(w, step).db.orphans, Apply(w, step).log)
  {
    match step
    case Start(now, abandonedBefore) =>
      BeginMoves(w.db, now, abandonedBefore);
      ChangesFoldFits(w, BeginSweep(w.db, now, abandonedBefore).0.orphans);
    case SeeOrphan(sweep, external, now, grace) => SeeOrphanKeepsFold(w, sweep, external, now, grace);
    case Claim(sweep, external, now) => ClaimKeepsFold(w, sweep, external, now);
    case Settle(sweep) =>
      if sweep < |w.cleanups| {
        SettleKeepsFold(w, sweep);
      }
    case Adopt(external) => ResolveOrphanKeepsFold(w, external);
    case CloseUnseen(seen) => ChangesFoldFits(w, ResolveUnseen(w.db, seen).orphans);
    case PersonApproves(external, person) => ApproveKeepsFold(w, external, person);
    case _ =>
  }

  lemma ResolveOrphanKeepsFold(w: World, external: ExternalId)
    requires FoldFits(w.db.orphans, w.log)
    ensures FoldFits(ResolveOrphan(w.db, external).orphans, NoteChanges(w, ResolveOrphan(w.db, external).orphans))
  {
    ResolveOrphanMoves(w.db, external);
    ChangesFoldFits(w, ResolveOrphan(w.db, external).orphans);
  }

  lemma SettleKeepsFold(w: World, sweep: SweepId)
    requires FoldFits(w.db.orphans, w.log) && sweep < |w.cleanups|
    ensures FoldFits(SettleOn(w, sweep).db.orphans, SettleOn(w, sweep).log)
  {
    match w.cleanups[sweep]
    case Gone(grant) => ResolveOrphanKeepsFold(w, grant.external);
    case Kept(grant) =>
      ReleaseMoves(w.db, grant.external);
      ChangesFoldFits(w, ReleaseClaim(w.db, grant.external).orphans);
    case _ =>
  }

  /** In every history each orphan finding is exactly what its events amount to: nothing else touches it. */
  lemma {:induction false} FindingIsItsHistory(steps: seq<Step>)
    ensures FoldFits(Run(steps).db.orphans, Run(steps).log)
  {
    if steps != [] {
      FindingIsItsHistory(steps[..|steps| - 1]);
      StepKeepsFold(Run(steps[..|steps| - 1]), steps[|steps| - 1]);
    }
  }

  // ---- Sweeps ----

  predicate Runs(w: World, sweep: SweepId) {
    sweep < |w.db.sweeps| && w.db.sweeps[sweep].status == Running
  }

  predicate SweepsFit(w: World) {
    && |w.db.sweeps| == |w.cleanups|
    && (forall i, j :: 0 <= i < j < |w.db.sweeps| ==> !(Runs(w, i) && Runs(w, j)))
    && SeenBy(w.db.orphans, |w.db.sweeps|)
  }

  /** A running sweep that is not abandoned keeps every other from beginning. */
  predicate Busy(w: World, abandonedBefore: Time) {
    exists i :: 0 <= i < |w.db.sweeps| && Runs(w, i) && w.db.sweeps[i].startedAt > abandonedBefore
  }

  /** What a beginning does to an earlier sweep: one that still runs has been abandoned. */
  predicate Superseded(before: Sweep, after: Sweep) {
    after == if before.status == Running then before.(status := Unsuccessful) else before
  }

  lemma BeginDecides(w: World, now: Time, abandonedBefore: Time)
    requires SweepsFit(w)
    ensures var (db, started) := BeginSweep(w.db, now, abandonedBefore);
      && (started.None? <==> Busy(w, abandonedBefore))
      && (started.Some? ==>
            && |db.sweeps| == |w.db.sweeps| + 1 && db.sweeps[|w.db.sweeps|] == Sweep(Running, now)
            && (forall i :: 0 <= i < |w.db.sweeps| ==> Superseded(w.db.sweeps[i], db.sweeps[i])))
  {
    var sweeps := Abandon(w.db.sweeps, abandonedBefore);
    if Busy(w, abandonedBefore) {
      var i :| 0 <= i < |w.db.sweeps| && Runs(w, i) && w.db.sweeps[i].startedAt > abandonedBefore;
      assert sweeps[i].status == Running;
    }
    if AnyRunning(sweeps) {
      var i :| 0 <= i < |sweeps| && sweeps[i].status == Running;
      assert Runs(w, i);
    }
    forall i | 0 <= i < |w.db.sweeps| && !AnyRunning(sweeps)
      ensures Superseded(w.db.sweeps[i], sweeps[i])
    {
      assert sweeps[i].status != Running;
    }
  }

  lemma StartKeepsSweeps(w: World, now: Time, abandonedBefore: Time)
    requires SweepsFit(w)
    ensures SweepsFit(StartOn(w, now, abandonedBefore))
  {
    BeginDecides(w, now, abandonedBefore);
  }

  predicate SeenBy(orphans: map<ExternalId, Finding>, sweeps: nat) {
    forall external :: external in orphans ==> orphans[external].sweep < sweeps
  }

  lemma MovesKeepSeenBy(orphans: map<ExternalId, Finding>, orphans': map<ExternalId, Finding>, sweeps: nat)
    requires SeenBy(orphans, sweeps) && StatusMoves(orphans, orphans')
    ensures SeenBy(orphans', sweeps)
  {
    forall external | external in orphans'
      ensures orphans'[external].sweep < sweeps
    {
      assert StatusMove(orphans[external], orphans'[external]);
    }
  }

  lemma StepKeepsSeenBy(w: World, step: Step)
    requires SeenBy(w.db.orphans, |w.cleanups|) && !step.Start?
    ensures SeenBy(Apply(w, step).db.orphans, |w.cleanups|)
  {
    match step
    case Settle(sweep) =>
      if sweep < |w.cleanups| && !w.cleanups[sweep].Idle? {
        ResolveOrphanMoves(w.db, w.cleanups[sweep].grant.external);
        ReleaseMoves(w.db, w.cleanups[sweep].grant.external);
        MovesKeepSeenBy(w.db.orphans, ResolveOrphan(w.db, w.cleanups[sweep].grant.external).orphans, |w.cleanups|);
        MovesKeepSeenBy(w.db.orphans, ReleaseClaim(w.db, w.cleanups[sweep].grant.external).orphans, |w.cleanups|);
      }
    case Adopt(external) =>
      ResolveOrphanMoves(w.db, external);
      MovesKeepSeenBy(w.db.orphans, ResolveOrphan(w.db, external).orphans, |w.cleanups|);
    case CloseUnseen(seen) => MovesKeepSeenBy(w.db.orphans, ResolveUnseen(w.db, seen).orphans, |w.cleanups|);
    case _ =>
  }

  lemma OtherStepsKeepSweeps(w: World, step: Step)
    requires SweepsFit(w) && !step.Start?
    ensures SweepsFit(Apply(w, step))
    ensures |Apply(w, step).db.sweeps| == |w.db.sweeps|
    ensures forall i :: 0 <= i < |w.db.sweeps| ==>
      || Apply(w, step).db.sweeps[i] == w.db.sweeps[i]
      || (step.Finish? && step.sweep == i && Runs(w, i))
  {
    StepKeepsSeenBy(w, step);
    forall i: nat | Runs(Apply(w, step), i)
      ensures Runs(w, i)
    {
    }
  }

  lemma {:induction false} SweepsAlwaysFit(steps: seq<Step>)
    ensures SweepsFit(Run(steps))
  {
    if steps != [] {
      SweepsAlwaysFit(steps[..|steps| - 1]);
      var w, step := Run(steps[..|steps| - 1]), steps[|steps| - 1];
      if step.Start? {
        StartKeepsSweeps(w, step.now, step.abandonedBefore);
      } else {
        OtherStepsKeepSweeps(w, step);
      }
    }
  }

  /** No two sweeps ever run at once. */
  lemma OneSweepRuns(steps: seq<Step>, i: SweepId, j: SweepId)
    requires Runs(Run(steps), i) && Runs(Run(steps), j)
    ensures i == j
  {
    SweepsAlwaysFit(steps);
  }

  /** A sweep that has ended, by itself or as abandoned, is never changed again. */
  lemma EndedSweepStays(steps: seq<Step>, step: Step, i: SweepId)
    requires i < |Run(steps).db.sweeps| && !Runs(Run(steps), i)
    ensures i < |Apply(Run(steps), step).db.sweeps| && Apply(Run(steps), step).db.sweeps[i] == Run(steps).db.sweeps[i]
  {
    SweepsAlwaysFit(steps);
    if step.Start? {
      BeginDecides(Run(steps), step.now, step.abandonedBefore);
    } else {
      OtherStepsKeepSweeps(Run(steps), step);
    }
  }

  /** What a beginning leaves of a finding: a claim that was held is given back to its approval. */
  function GivenBack(f: Finding): Finding {
    if f.status == Cleaning then f.(status := Approved) else f
  }

  /**
   * A sweep begins exactly when no other is running that has not been abandoned; it then is the only
   * one that runs, and no claim of an earlier sweep is left standing. Otherwise nothing changes.
   */
  lemma SweepBeginsExactlyWhenFree(steps: seq<Step>, now: Time, abandonedBefore: Time)
    ensures var w, next := Run(steps), Apply(Run(steps), Start(now, abandonedBefore));
      if Busy(w, abandonedBefore) then next == w
      else
        && |next.db.sweeps| == |w.db.sweeps| + 1 && next.db.sweeps[|w.db.sweeps|] == Sweep(Running, now)
        && (forall i :: 0 <= i < |w.db.sweeps| ==> Superseded(w.db.sweeps[i], next.db.sweeps[i]))
        && next.db.orphans.Keys == w.db.orphans.Keys
        && (forall external :: external in w.db.orphans ==>
              next.db.orphans[external] == GivenBack(w.db.orphans[external]))
  {
    SweepsAlwaysFit(steps);
    BeginDecides(Run(steps), now, abandonedBefore);
    var w := Run(steps);
    if !Busy(w, abandonedBefore) {
      BeginGivesBack(w, now, abandonedBefore);
    }
  }

  lemma BeginGivesBack(w: World, now: Time, abandonedBefore: Time)
    requires SweepsFit(w) && BeginSweep(w.db, now, abandonedBefore).1.Some?
    ensures forall external :: external in w.db.orphans ==>
      BeginSweep(w.db, now, abandonedBefore).0.orphans[external] == GivenBack(w.db.orphans[external])
  {
    var sweeps := Abandon(w.db.sweeps, abandonedBefore);
    forall external | external in w.db.orphans
      ensures Requeue(w.db.orphans[external], sweeps) == GivenBack(w.db.orphans[external])
    {
      assert sweeps[w.db.orphans[external].sweep].status != Running;
    }
  }

  // ---- Claims and approvals ----

  /** No instance that is not DELETED holds the resource. */
  predicate NobodyHolds(t: Table, external: ExternalId) {
    forall id :: id in t && t[id].external == Some(external) ==> t[id].status == Deleted
  }

  /** The events say: approved and not claimed since, observed twice, lastly by this sweep, and its time has come. */
  predicate ReadyToClaim(log: seq<Event>, sweep: SweepId, now: Time) {
    && FindingOf(log).Some?
    && var f := FindingOf(log).value;
       && f.status == Approved && f.count >= 2 && f.sweep == sweep
       && f.cleanupAfter.Some? && f.cleanupAfter.value <= now
  }

  /**
   * A claim is granted exactly when it may be: the sweep runs and holds no other, the resource's events
   * make the finding ready for this sweep, and nobody holds the resource. A refused claim changes nothing.
   */
  lemma ClaimIsGrantedExactly(steps: seq<Step>, sweep: SweepId, external: ExternalId, now: Time)
    ensures var w, next := Run(steps), Apply(Run(steps), Claim(sweep, external, now));
      if Runs(w, sweep) && sweep < |w.cleanups| && w.cleanups[sweep].Idle?
         && ReadyToClaim(LogOf(w.log, external), sweep, now) && NobodyHolds(w.db.table, external)
      then
        && LogOf(next.log, external) == LogOf(w.log, external) + [ClaimedBy(sweep, now)]
        && next.cleanups == w.cleanups[sweep := Holding(Grant(external, |LogOf(w.log, external)|, now, w.db.table))]
      else next == w
  {
    FindingIsItsHistory(steps);
    var w := Run(steps);
    assert NobodyHolds(w.db.table, external) <==> !LiveTracker(w.db.table, external);
    if external !in w.log {
      assert FindingOf([]) == None;
    }
  }

  /** Approving: an open finding seen twice takes the approver's name; an approval stands as it is; all else is refused. */
  lemma ApprovalIsTakenExactly(steps: seq<Step>, external: ExternalId, person: Person)
    ensures var w, next := Run(steps), Apply(Run(steps), PersonApproves(external, person));
      var f, r := FindingOf(LogOf(w.log, external)), Approve(w.db, external, person).1;
      if f.None? then r == UnknownFinding && next == w
      else if f.value.status == Approved then r == ApprovalStands && next == w
      else if f.value.status == Open && f.value.count >= 2 then
        && r == ApprovalStands
        && external in next.db.orphans && next.db.orphans[external].status == Approved
        && next.db.orphans[external].approver == Some(person)
      else r == NotReady && next == w
  {
    FindingIsItsHistory(steps);
    ApprovalDecides(Run(steps), external, person);
  }

  lemma ApprovalDecides(w: World, external: ExternalId, person: Person)
    requires FoldFits(w.db.orphans, w.log)
    ensures var next := Apply(w, PersonApproves(external, person));
      var f, r := FindingOf(LogOf(w.log, external)), Approve(w.db, external, person).1;
      if f.None? then r == UnknownFinding && next == w
      else if f.value.status == Approved then r == ApprovalStands && next == w
      else if f.value.status == Open && f.value.count >= 2 then
        && r == ApprovalStands
        && external in next.db.orphans && next.db.orphans[external].status == Approved
        && next.db.orphans[external].approver == Some(person)
      else r == NotReady && next == w
  {
    if external !in w.log {
      assert FindingOf([]) == None;
    }
  }

  /** A failed destroy gives the claim back to its approval, unless someone else has moved the finding on. */
  lemma FailedDestroyIsReturned(steps: seq<Step>, sweep: SweepId)
    requires sweep < |Run(steps).cleanups| && Run(steps).cleanups[sweep].Kept?
    ensures var w, next := Run(steps), Apply(Run(steps), Settle(sweep));
      var external := w.cleanups[sweep].grant.external;
      && next.cleanups[sweep].Idle?
      && external in w.db.orphans && external in next.db.orphans
      && next.db.orphans[external] == GivenBack(w.db.orphans[external])
  {
    HistoryConsistent(steps);
    FindingIsItsHistory(steps);
    assert GrantFits(Run(steps).log, sweep, Run(steps).cleanups[sweep].grant);
  }

  /** After a destroy that succeeded the finding is resolved. */
  lemma SuccessfulDestroyResolves(steps: seq<Step>, sweep: SweepId)
    requires sweep < |Run(steps).cleanups| && Run(steps).cleanups[sweep].Gone?
    ensures var w, next := Run(steps), Apply(Run(steps), Settle(sweep));
      var external := w.cleanups[sweep].grant.external;
      && next.cleanups[sweep].Idle?
      && external in next.db.orphans && next.db.orphans[external].status == Resolved
  {
    HistoryConsistent(steps);
    FindingIsItsHistory(steps);
    assert GrantFits(Run(steps).log, sweep, Run(steps).cleanups[sweep].grant);
  }
}
